/** The intake service's own code for `/gc fix`: reserving, processing and recovering
    requests over its stored files. Every write of a file is matched with one step of the
    state machine in FixLifecycle, so whatever interleaves with it or cuts it short is a run
    of that machine.

    Source: discord/scripts/discord_intake_service.py. */
module FixService {
  import opened FixLifecycle
  import opened Wrappers

  /** What `gc` answers while one request is dispatched, and where an exception strikes. */
  datatype Dispatch = Dispatch(
    configured: bool,            // formula and target present
    create: Option<string>,      // the bead id of a successful create
    updateOk: bool,
    sling: Sling,
    closeOk: bool,               // closing a failed bead succeeds
    cleanupOk: bool,             // so does the except block's attempt
    raises: Stage)

  datatype Sling = Routed | Refused | Missing | Timeout(found: BeadState)

  datatype Stage = Never | AtLoad | BeforeBead | WithBead | DuringSling | AtLastSave

  /** What start-up recovery finds out about one request. */
  datatype Found = Found(graceOver: bool, bead: BeadState, closeOk: bool)

  function RecoveryState(r: Request, found: Found): BeadState {
    if r.bead == "" then Inactive else found.bead
  }

  predicate Skips(r: Request, found: Found) {
    !Recoverable(r) || (r.status == Dispatching && (!found.graceOver || RecoveryState(r, found) == Unknown))
  }

  /** What recovery leaves of a stored request. */
  function Recovered(r: Request, found: Found): Request {
    if Skips(r, found) then r
    else if r.status == Dispatching && RecoveryState(r, found) == Active then r.(status := Dispatched)
    else CleanedUp(r, found.closeOk).(status := InternalError)
  }

  class IntakeService {
    var requests: map<string, Request>
    var links: map<string, string>
    var receipts: map<string, string>
    ghost var state: State

    ghost predicate Valid()
      reads this
    {
      state.requests == requests && state.links == links && state.receipts == receipts && LinksHeld(state)
    }

    constructor ()
      ensures Valid() && state == START
    {
      requests, links, receipts, state := map[], map[], map[], START;
    }

    /** The files as written are what this step of the machine leaves. */
    ghost method Take(a: Action)
      requires Enabled(state, a) && Orderly(state, a) && LinksHeld(state)
      requires Do(state, a).requests == requests && Do(state, a).links == links && Do(state, a).receipts == receipts
      modifies this`state
      ensures state == Do(old(state), a) && Valid()
    {
      StepLinksHeld(state, a);
      state := Do(state, a);
    }

    /** `reserve_request`: None when the request is accepted, otherwise the id of the request
        that already holds the interaction or the conversation. */
    method ReserveRequest(interaction: string, key: string) returns (existing: Option<string>)
      requires Valid() && state.serving && state.reserving.None?
      modifies this
      ensures Valid() && state.serving && state.reserving.None? && state.threads == old(state).threads
      ensures interaction in receipts
      ensures existing.None? <==> interaction !in old(receipts) && RequestId(interaction) !in old(requests)
                                  && (key == "" || key !in old(links))
      ensures existing.None? ==>
                && requests == old(requests)[RequestId(interaction) := Request(key, Received, "", false, false)]
                && links == (if key == "" then old(links) else old(links)[key := RequestId(interaction)])
                && receipts == old(receipts)[interaction := RequestId(interaction)]
                && RequestId(interaction) in state.accepted
      ensures existing.Some? ==>
                && requests == old(requests) && links == old(links)
                && receipts[interaction] == existing.value
                && (interaction in old(receipts) ==> receipts == old(receipts))
                && (interaction !in old(receipts) && RequestId(interaction) !in old(requests) ==> existing.value == old(links)[key])
    {
      hide LinksHeld, RequestId;
      var id := RequestId(interaction);
      if interaction in receipts {
        Take(Reserve(interaction, key));
        return Some(receipts[interaction]);
      }
      if id in requests {
        receipts := receipts[interaction := id];
        Take(Reserve(interaction, key));
        return Some(id);
      }
      if key != "" && key in links {
        receipts := receipts[interaction := links[key]];
        Take(Reserve(interaction, key));
        return Some(links[key]);
      }
      AcceptRequest(id, interaction, key);
      return None;
    }

    /** The three saves of an accepted request: request, link, receipt. */
    method AcceptRequest(id: string, interaction: string, key: string)
      requires Valid() && state.serving && state.reserving.None? && id == RequestId(interaction)
      requires interaction !in receipts && id !in requests && (key == "" || key !in links)
      modifies this
      ensures Valid() && state.serving && state.reserving.None? && state.threads == old(state).threads && id in state.accepted
      ensures requests == old(requests)[id := Request(key, Received, "", false, false)]
      ensures links == (if key == "" then old(links) else old(links)[key := id])
      ensures receipts == old(receipts)[interaction := id]
    {
      hide LinksHeld, RequestId;
      requests := requests[id := Request(key, Received, "", false, false)];
      Take(Reserve(interaction, key));
      if key != "" {
        links := links[key := id];
      }
      Take(SaveLink);
      receipts := receipts[interaction := id];
      Take(SaveReceipt);
    }
  
    /** The same for a step of the thread of `id`, which stands at `t`. */
    ghost method TakeStep(id: string, t: Thread, c: Choice)
      requires LinksHeld(state) && id in state.threads && state.threads[id] == t
      requires StepEnabled(t, c) && !c.ReportRaises?
      requires requests == if ThreadStep(t, c).save then state.requests[id := ThreadStep(t, c).next.m] else state.requests
      requires links == state.links && receipts == state.receipts
      modifies this`state
      ensures Valid()
      ensures state == old(state).(requests := requests, threads := old(state).threads[id := ThreadStep(t, c).next],
                                   closed := old(state).closed + ThreadStep(t, c).closed)
    {
      Take(Step(id, c, true));
    }

    /** The thread of `id` has a step to make; nothing else about it is decided yet. */
    ghost predicate At(id: string, t: Thread)
      reads this
    {
      Valid() && id in state.threads && state.threads[id] == t && id in requests
    }

    /** Only this thread moved since the old state, and no link did. */
    twostate predicate OnlyThread(id: string)
      reads this
    {
      && state.threads.Keys == old(state.threads).Keys && state.reserving == old(state).reserving
      && links == old(links) && receipts == old(receipts)
      && requests.Keys == old(requests).Keys
      && forall i | i in requests && i != id :: requests[i] == old(requests[i])
    }

    /** `create_fix_bead` up to the recorded bead, and the exits before it. `over` says that
        the dispatch ends here. */
    method CreateFixBead(id: string, request: Request, env: Dispatch) returns (m: Request, over: bool)
      requires At(id, Running(request)) && env.create != Some("")
      modifies this
      ensures At(id, if !over then HasBead(m) else if env.raises == BeforeBead then Failing(m) else Merged(m)) && OnlyThread(id)
      ensures m.key == request.key
      ensures over <==> env.raises == BeforeBead || !env.configured || env.create.None?
      ensures over ==> m == if env.raises == BeforeBead then request else Outcome(request, env)
      ensures !over ==> m == request.(bead := env.create.value, status := BeadCreated)
    {
      hide LinksHeld, Do, Enabled;
      m, over := request, true;
      if env.raises == BeforeBead {
        TakeStep(id, state.threads[id], Raise);
      } else if !env.configured {
        m := m.(status := Ignored);
        TakeStep(id, state.threads[id], NotConfigured);
      } else if env.create.None? {
        m := m.(beadClosed := true, status := DispatchFailed);
        TakeStep(id, state.threads[id], NoBead);
      } else {
        m, over := m.(bead := env.create.value, status := BeadCreated), false;
        requests := requests[id := m];
        TakeStep(id, state.threads[id], Bead(env.create.value));
      }
    }

    /** An exception inside the try block: the thread goes to the except block, files untouched. */
    method RaiseAt(id: string, t: Thread)
      requires At(id, t) && StepEnabled(t, Raise)
      modifies this
      ensures At(id, Failing(t.m)) && OnlyThread(id)
    {
      hide LinksHeld, Do, Enabled;
      TakeStep(id, t, Raise);
    }

    /** The rest of `run_fix_dispatch`, from the bead's initialisation on: the thread ends with
        its outcome merged, or, when an exception struck, in the except block. */
    method SlingBead(id: string, request: Request, env: Dispatch) returns (m: Request, raised: bool)
      requires At(id, HasBead(request)) && request.bead != "" && request.status == BeadCreated
      modifies this
      ensures At(id, if raised then Failing(m) else Merged(m)) && OnlyThread(id)
      ensures m.key == request.key
      ensures raised <==> env.raises == WithBead || (env.updateOk && env.raises == DuringSling)
      ensures if raised then Failed(m) == Failed(request) else m == SlingOutcome(request, env)
    {
      hide LinksHeld, Do, Enabled;
      m, raised := request, false;
      hide ThreadStep, SlingOutcome, Tracked, BeadsTracked;
      if env.raises == WithBead {
        raised := true;
        RaiseAt(id, HasBead(m));
        return;
      }
      if !env.updateOk {
        m := FailUpdate(id, m, env);
        return;
      }
      m := BeginSling(id, m);
      if env.raises == DuringSling {
        raised := true;
        RaiseAt(id, Slinging(m));
        return;
      }
      OutcomeForgetsDispatching(request, env);
      m := FinishSling(id, m, env);
    }

    /** The bead could not be initialised: close it, or record that this failed. */
    method FailUpdate(id: string, request: Request, env: Dispatch) returns (m: Request)
      requires At(id, HasBead(request)) && request.bead != "" && !env.updateOk
      modifies this
      ensures At(id, Merged(m)) && OnlyThread(id) && m == SlingOutcome(request, env)
    {
      hide LinksHeld, Do, Enabled;
      m := if env.closeOk then request.(beadClosed := true) else request.(cleanupFailed := true);
      m := m.(status := DispatchFailed);
      TakeStep(id, HasBead(request), UpdateFailed(env.closeOk));
    }

    method BeginSling(id: string, request: Request) returns (m: Request)
      requires At(id, HasBead(request))
      modifies this
      ensures At(id, Slinging(m)) && OnlyThread(id) && m == request.(status := Dispatching)
    {
      hide LinksHeld, Do, Enabled;
      m := request.(status := Dispatching);
      requests := requests[id := m];
      TakeStep(id, state.threads[id], Go);
    }

    /** After `gc sling` returned, failed or timed out. Only a missing `gc` returns without saving. */
    method FinishSling(id: string, request: Request, env: Dispatch) returns (m: Request)
      requires At(id, Slinging(request)) && request.bead != "" && request.status == Dispatching && env.updateOk
      modifies this
      ensures At(id, Merged(m)) && OnlyThread(id)
      ensures m == SlingOutcome(request, env)
      ensures requests[id] == if env.sling == Missing then old(requests[id]) else m
    {
      hide LinksHeld, Do, Enabled;
      m := request;
      if env.sling == Routed || env.sling == Timeout(Active) {
        m := m.(status := Dispatched);
      } else if env.sling != Timeout(Unknown) {
        m := if env.closeOk then m.(beadClosed := true) else m.(cleanupFailed := true);
        m := m.(status := DispatchFailed);
      }
      if env.sling != Missing {
        requests := requests[id := m];
      }
      TakeStep(id, state.threads[id], match env.sling
                                      case Routed => SlingOk
                                      case Missing => GcMissing(env.closeOk)
                                      case Refused => SlingFailed(env.closeOk)
                                      case Timeout(found) => TimedOut(found, env.closeOk));
    }

    /** The except block of `process_request`. */
    method HandleException(id: string, request: Request, cleanupOk: bool) returns (m: Request)
      requires At(id, Failing(request))
      modifies this
      ensures At(id, Leaving(m)) && OnlyThread(id) && requests[id] == m
      ensures m == CleanedUp(request, cleanupOk).(status := InternalError)
    {
      hide LinksHeld, Do, Enabled;
      m := request;
      if m.bead != "" && !m.beadClosed {
        m := if cleanupOk then m.(beadClosed := true) else m.(cleanupFailed := true);
      }
      m := m.(status := InternalError);
      TakeStep(id, state.threads[id], Cleanup(cleanupOk));
      requests := requests[id := m];
      TakeStep(id, state.threads[id], Go);
    }

    /** `process_request`: the stored request ends with the outcome of its dispatch or, when an
        exception struck, as an internal error with its bead dealt with; and its link is given back exactly when it was given
        up without a failed cleanup. */
    method ProcessRequest(id: string, env: Dispatch)
      requires Valid() && id in state.threads && id in requests && state.threads[id] == Loaded(requests[id])
      requires state.reserving.None? && env.create != Some("")
      modifies this
      ensures Valid() && id !in state.threads && id in requests
      ensures requests.Keys == old(requests).Keys && forall i | i in requests && i != id :: requests[i] == old(requests[i])
      ensures receipts == old(receipts)
      ensures requests[id] == Final(old(requests[id]), env)
      ensures links == if GivesBack(requests[id]) then Unlink(old(links), requests[id].key, id) else old(links)
    {
      hide LinksHeld, Do, Enabled, Outcome, StepEnabled, ThreadStep, AtRaise, Raises;
      var request, raised := RunFixDispatch(id, env);
      if raised {
        CleanedIgnoresStatus(request, AtRaise(old(requests[id]), env), env.cleanupOk);
        request := HandleException(id, request, env.cleanupOk);
      } else {
        SaveOutcome(id, request);
      }
      FinallyRelease(id, request);
    }

    /** From the loaded request to the merged outcome, or into the except block. */
    method RunFixDispatch(id: string, env: Dispatch) returns (request: Request, raised: bool)
      requires Valid() && id in state.threads && id in requests && state.threads[id] == Loaded(requests[id])
      requires env.create != Some("")
      modifies this
      ensures At(id, if raised then Failing(request) else Merged(request)) && OnlyThread(id) && raised == Raises(env)
      ensures if raised then Failed(request) == Failed(AtRaise(old(requests[id]), env)) else request == Outcome(old(requests[id]), env)
    {
      hide LinksHeld, Do, Enabled, ThreadStep, SlingOutcome;
      request, raised := BeginProcessing(id, env.raises == AtLoad);
      if raised {
        return;
      }
      OutcomeForgetsStatus(old(requests[id]), Processing, env);
      assert old(requests[id]).(status := old(requests[id]).status) == old(requests[id]);
      hide Outcome;
      request, raised := RunConfigured(id, request, env);
      if !raised && env.raises == AtLastSave {
        raised := true;
        RaiseAt(id, Merged(request));
      }
    }

    method BeginProcessing(id: string, raises: bool) returns (request: Request, raised: bool)
      requires Valid() && id in state.threads && id in requests && state.threads[id] == Loaded(requests[id])
      modifies this
      ensures At(id, if raised then Failing(request) else Running(request)) && OnlyThread(id) && raised == raises
      ensures request == if !raises && old(requests[id]).status == Received then old(requests[id]).(status := Processing)
                         else old(requests[id])
      ensures requests[id] == request
    {
      hide LinksHeld, Do, Enabled;
      request, raised := requests[id], raises;
      if raises {
        TakeStep(id, Loaded(request), Raise);
        return;
      }
      if request.status == Received {
        request := request.(status := Processing);
        requests := requests[id := request];
      }
      TakeStep(id, state.threads[id], Go);
    }

    method RunConfigured(id: string, running: Request, env: Dispatch) returns (request: Request, raised: bool)
      requires At(id, Running(running)) && env.create != Some("")
      modifies this
      ensures At(id, if raised then Failing(request) else Merged(request)) && OnlyThread(id)
      ensures raised == RaisesInside(env)
      ensures if raised then Failed(request) == Failed(AtRaise(running, env)) else request == Outcome(running, env)
    {
      hide LinksHeld, Do, Enabled, ThreadStep, StepEnabled;
      var over;
      request, over := CreateFixBead(id, running, env);
      raised := env.raises == BeforeBead;
      if !over {
        assert SlingOutcome(request, env) == SlingOutcome(running.(bead := env.create.value), env);
        request, raised := SlingBead(id, request, env);
      }
    }

    method SaveOutcome(id: string, request: Request)
      requires At(id, Merged(request))
      modifies this
      ensures At(id, Leaving(request)) && OnlyThread(id) && requests[id] == request
    {
      hide LinksHeld, Do, Enabled;
      requests := requests[id := request];
      TakeStep(id, Merged(request), Go);
    }

    /** The finally block. */
    method FinallyRelease(id: string, request: Request)
      requires At(id, Leaving(request)) && state.reserving.None?
      modifies this`links, this`state
      ensures Valid() && state.threads == old(state).threads - {id} && state.reserving.None?
      ensures links == if GivesBack(request) then Unlink(old(links), request.key, id) else old(links)
    {
      hide LinksHeld;
      if request.key != "" && GivenUp(request.status) && !request.cleanupFailed {
        links := Unlink(links, request.key, id);
      }
      Take(Release(id));
    }
  
    /** One round of `recover_incomplete_requests`. */
    method RecoverRequest(id: string, found: Found) returns (counted: bool)
      requires Valid() && !state.serving && state.recovering.None? && id in requests
      modifies this
      ensures Valid() && !state.serving && state.recovering.None?
      ensures requests == old(requests)[id := Recovered(old(requests)[id], found)] && receipts == old(receipts)
      ensures links == if counted && GivesBack(requests[id]) then Unlink(old(links), requests[id].key, id) else old(links)
      ensures counted <==> requests[id].status == InternalError && old(requests)[id].status != InternalError
    {
      hide LinksHeld;
      var payload := requests[id];
      counted := false;
      if payload.status == Dispatching {
        if !found.graceOver {
          return;
        }
        var state' := RecoveryState(payload, found);
        if state' == Active {
          requests := requests[id := payload.(status := Dispatched)];
          Take(RecoverRouted(id));
          return;
        }
        if state' == Unknown {
          requests := requests[id := payload];
          Take(RecoverDeferred(id));
          return;
        }
      } else if payload.status !in {Received, Processing, BeadCreated} {
        return;
      }
      counted := true;
      GiveUpRequest(id, found.closeOk);
    }

    /** Close what bead there is, store the request as failed, then give its link back. */
    method GiveUpRequest(id: string, closeOk: bool)
      requires Valid() && Recovers(state, id)
      modifies this
      ensures Valid() && !state.serving && state.recovering.None? && receipts == old(receipts)
      ensures requests == old(requests)[id := CleanedUp(old(requests)[id], closeOk).(status := InternalError)]
      ensures links == if GivesBack(requests[id]) then Unlink(old(links), requests[id].key, id) else old(links)
    {
      hide LinksHeld;
      var payload := requests[id];
      if payload.bead != "" && !payload.beadClosed {
        payload := if closeOk then payload.(beadClosed := true) else payload.(cleanupFailed := true);
      }
      payload := payload.(status := InternalError);
      Take(RecoverClean(id, closeOk));
      requests := requests[id := payload];
      Take(RecoverWrite);
      if payload.key != "" && !payload.cleanupFailed {
        links := Unlink(links, payload.key, id);
      }
      Take(RecoverUnlink);
    }

    /** `recover_incomplete_requests` at start-up, the files in whatever order the directory
        lists them: every stored request is recovered once, and afterwards nothing is left
        unfinished except dispatches that are recent or whose bead cannot be looked up. */
    method RecoverIncompleteRequests(order: seq<string>, found: string -> Found) returns (recovered: nat)
      requires Valid() && !state.serving && state.recovering.None?
      requires (set id | id in order) == requests.Keys
      requires forall i, j | 0 <= i < j < |order| :: order[i] != order[j]
      modifies this
      ensures Valid() && !state.serving && state.recovering.None?
      ensures requests.Keys == old(requests).Keys && receipts == old(receipts)
      ensures forall id | id in requests :: requests[id] == Recovered(old(requests)[id], found(id))
      ensures forall id | id in requests && Recoverable(requests[id]) ::
                requests[id].status == Dispatching && (!found(id).graceOver || found(id).bead == Unknown)
      ensures forall key | key in links :: key in old(links) && links[key] == old(links)[key]
    {
      hide LinksHeld, Recovered, Do, Enabled, Recoverable;
      recovered := 0;
      for k := 0 to |order|
        invariant Valid() && !state.serving && state.recovering.None?
        invariant requests.Keys == old(requests).Keys && receipts == old(receipts)
        invariant forall i | 0 <= i < k :: order[i] in requests && requests[order[i]] == Recovered(old(requests)[order[i]], found(order[i]))
        invariant forall i | k <= i < |order| :: order[i] in requests && requests[order[i]] == old(requests)[order[i]]
        invariant forall key | key in links :: key in old(links) && links[key] == old(links)[key]
      {
        assert order[k] in (set id | id in order);
        var counted := RecoverRequest(order[k], found(order[k]));
        recovered := if counted then recovered + 1 else recovered;
      }
      forall id | id in requests ensures requests[id] == Recovered(old(requests)[id], found(id)) {
        assert id in (set id | id in order);
      }
      forall id | id in requests && Recoverable(requests[id])
        ensures requests[id].status == Dispatching && (!found(id).graceOver || found(id).bead == Unknown)
      {
        RecoveredOrDeferred(old(requests)[id], found(id));
      }
    }
  }

  lemma RecoveredOrDeferred(r: Request, found: Found)
    ensures Recoverable(Recovered(r, found)) ==>
              Recovered(r, found).status == Dispatching && (!found.graceOver || found.bead == Unknown)
  {
  }

  /** What dispatching comes to when no exception strikes. */
  function Outcome(request: Request, env: Dispatch): (r: Request)
    ensures r.key == request.key
    ensures r.status in {Dispatched, Dispatching} || GivenUp(r.status)
    ensures r.status == Dispatching ==> env.sling == Timeout(Unknown)
  {
    if !env.configured then request.(status := Ignored)
    else if env.create.None? then request.(beadClosed := true, status := DispatchFailed)
    else SlingOutcome(request.(bead := env.create.value), env)
  }

  function SlingOutcome(request: Request, env: Dispatch): (r: Request)
    ensures r.key == request.key && r.bead == request.bead
  {
    if env.updateOk && env.sling in {Routed, Timeout(Active)} then request.(status := Dispatched)
    else if env.updateOk && env.sling == Timeout(Unknown) then request.(status := Dispatching)
    else Closing(request, env.closeOk).(status := DispatchFailed)
  }

  /** An exception strikes between the "processing" save and the merged outcome. */
  predicate RaisesInside(env: Dispatch) {
    || env.raises == BeforeBead
    || (env.configured && env.create.Some? && (env.raises == WithBead || (env.raises == DuringSling && env.updateOk)))
  }

  predicate Raises(env: Dispatch) {
    env.raises == AtLoad || env.raises == AtLastSave || RaisesInside(env)
  }

  function Failed(request: Request): Request {
    request.(status := InternalError)
  }

  /** The request in memory when the exception strikes, but for its status. */
  function AtRaise(request: Request, env: Dispatch): Request {
    if env.raises == AtLastSave then Outcome(request, env)
    else if (env.raises == WithBead || env.raises == DuringSling) && env.create.Some? then request.(bead := env.create.value)
    else request
  }

  /** What `process_request` leaves stored. */
  function Final(request: Request, env: Dispatch): (r: Request)
    ensures r.key == request.key && (GivenUp(r.status) || r.status in {Dispatched, Dispatching})
  {
    if Raises(env) then Failed(CleanedUp(AtRaise(request, env), env.cleanupOk)) else Outcome(request, env)
  }

  lemma CleanedIgnoresStatus(a: Request, b: Request, closeOk: bool)
    requires Failed(a) == Failed(b)
    ensures Failed(CleanedUp(a, closeOk)) == Failed(CleanedUp(b, closeOk))
  {
    assert b == a.(status := b.status);
  }

  lemma OutcomeForgetsDispatching(request: Request, env: Dispatch)
    requires env.updateOk
    ensures SlingOutcome(request.(status := Dispatching), env) == SlingOutcome(request, env)
  {
  }

  lemma OutcomeForgetsStatus(request: Request, status: Status, env: Dispatch)
    ensures Outcome(request.(status := status), env) == Outcome(request, env)
  {
  }
}
