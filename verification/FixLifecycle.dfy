/** The life of a `/gc fix` request: reservation with a conversation-level workflow link,
    processing in a thread of its own, crashes, and recovery at start-up.

    Source: discord/scripts/discord_intake_service.py; the link and request files are those
    of discord/scripts/discord_intake_common.py. */
module FixLifecycle {
  import opened Wrappers

  datatype Status =
    | Received | Processing | BeadCreated | Dispatching  // unfinished
    | Dispatched
    | Ignored | DispatchFailed | InternalError           // given up

  /** The fields of a request file that decide its life. An empty `bead` means none recorded. */
  datatype Request = Request(key: string, status: Status, bead: string, beadClosed: bool, cleanupFailed: bool)

  predicate GivenUp(s: Status) {
    s in {Ignored, DispatchFailed, InternalError}
  }

  /** Unfinished or dispatched: the conversation must stay taken. */
  predicate Live(s: Status) {
    !GivenUp(s)
  }

  // ---------------------------------------------------------------- state

  /** The steps of `reserve_request` after its checks, all under ACCEPTANCE_LOCK. */
  datatype Reservation = Saved(id: string, interaction: string) | Linked(id: string, interaction: string)

  /** Where a `process_request` thread is; `m` is its in-memory request. */
  datatype Thread =
    | Loaded(m: Request)       // in load_request, or just back from it
    | Running(m: Request)      // "processing" saved, before the bead
    | HasBead(m: Request)      // bead recorded and saved
    | Slinging(m: Request)     // "dispatching" saved, gc sling running
    | Merged(m: Request)       // outcome merged, before the last save
    | Failing(m: Request)      // in the except block, before the cleanup
    | Reporting(m: Request)    // internal_error set, before notification and save
    | Leaving(m: Request)      // in the finally block

  /** The steps of `recover_incomplete_requests` on one request. */
  datatype Recovery = Cleaned(id: string, m: Request) | Written(id: string, m: Request)

  datatype State = State(
    requests: map<string, Request>,
    links: map<string, string>,
    receipts: map<string, string>,
    serving: bool,                    // false between a crash and the end of start-up recovery
    reserving: Option<Reservation>,
    accepted: set<string>,            // reserved, not yet enqueued
    threads: map<string, Thread>,
    recovering: Option<Recovery>,
    linked: set<string>,              // requests whose workflow link was once saved
    closed: set<string>)              // beads that were successfully closed

  const START: State := State(map[], map[], map[], false, None, {}, map[], None, {}, {})

  /** `build_request_id` for the fix command: one request per interaction. */
  function RequestId(interaction: string): string {
    "dc-" + interaction + "-fix"
  }

  // ---------------------------------------------------------------- steps

  /** What `dispatch_recovery_state` finds out about a routed bead. */
  datatype BeadState = Active | Unknown | Inactive

  /** The environment's part in one step of a thread. `closeOk`: the bead could be closed.
      `saves`: the save that ends the step succeeds; otherwise an exception is on its way. */
  datatype Choice =
    | Go                                     // the only way on
    | NotConfigured                          // unsupported command, or no formula or target
    | NoBead                                 // every failure before a bead id is known
    | Bead(bead: string)                     // bead created
    | UpdateFailed(closeOk: bool)
    | SlingOk
    | SlingFailed(closeOk: bool)             // non-zero exit
    | GcMissing(closeOk: bool)
    | TimedOut(found: BeadState, closeOk: bool)
    | Raise                                  // any exception inside the try block
    | Cleanup(closeOk: bool)                 // the except block's attempt to close the bead
    | ReportRaises                           // an exception inside the except block

  datatype Action =
    | Reserve(interaction: string, key: string)
    | SaveLink
    | SaveReceipt
    | Enqueue(id: string)
    | Step(id: string, choice: Choice, saves: bool)
    | Release(id: string)                    // the finally block
    | ReleaseUnread(id: string)              // the finally block when the request file could not be read
    | Crash
    | RecoverRouted(id: string)
    | RecoverDeferred(id: string)
    | RecoverClean(id: string, closeOk: bool)
    | RecoverWrite
    | RecoverUnlink
    | Serve

  predicate StepEnabled(t: Thread, c: Choice) {
    match t
    case Loaded(_) => c.Go? || c.Raise?
    case Running(_) => c.NotConfigured? || c.NoBead? || (c.Bead? && c.bead != "") || c.Raise?
    case HasBead(_) => c.Go? || c.UpdateFailed? || c.Raise?
    case Slinging(_) => c.SlingOk? || c.SlingFailed? || c.GcMissing? || c.TimedOut? || c.Raise?
    case Merged(_) => c.Go? || c.Raise?
    case Failing(_) => c.Cleanup? || c.ReportRaises?
    case Reporting(_) => c.Go? || c.ReportRaises?
    case Leaving(_) => false
  }

  predicate Recoverable(r: Request) {
    r.status in {Received, Processing, BeadCreated, Dispatching}
  }

  predicate Enabled(s: State, a: Action) {
    match a
    case Reserve(interaction, key) => s.serving && s.reserving.None?
    case SaveLink => s.reserving.Some? && s.reserving.value.Saved?
    case SaveReceipt => s.reserving.Some? && s.reserving.value.Linked?
    case Enqueue(id) => s.serving && id in s.accepted && id in s.requests
    case Step(id, c, saves) => id in s.threads && StepEnabled(s.threads[id], c)
    case Release(id) => id in s.threads && s.threads[id].Leaving? && s.reserving.None?
    case ReleaseUnread(id) => id in s.threads && s.threads[id].Loaded? && s.reserving.None?
    case Crash => true
    case RecoverRouted(id) => Recovers(s, id) && s.requests[id].status == Dispatching
    case RecoverDeferred(id) => Recovers(s, id) && s.requests[id].status == Dispatching
    case RecoverClean(id, closeOk) => Recovers(s, id)
    case RecoverWrite => s.recovering.Some? && s.recovering.value.Cleaned?
    case RecoverUnlink => s.recovering.Some? && s.recovering.value.Written?
    case Serve => !s.serving && s.recovering.None?
  }

  predicate Recovers(s: State, id: string) {
    !s.serving && s.recovering.None? && id in s.requests && Recoverable(s.requests[id])
  }

  /** `close_failed_bead` and the flag recorded for its answer. With no bead it has nothing to do. */
  function Closing(m: Request, ok: bool): Request {
    if m.bead == "" || ok then m.(beadClosed := true) else m.(cleanupFailed := true)
  }

  function NewlyClosed(m: Request, ok: bool): set<string> {
    if m.bead != "" && ok then {m.bead} else {}
  }

  /** The cleanup of the except block and of recovery: only for a bead not closed before. */
  function CleanedUp(m: Request, ok: bool): Request {
    if m.bead != "" && !m.beadClosed then Closing(m, ok) else m
  }

  function CleanedBeads(m: Request, ok: bool): set<string> {
    if m.bead != "" && !m.beadClosed then NewlyClosed(m, ok) else {}
  }

  /** One step of a thread: its next place, the request it wants to save, the beads it closed. */
  datatype Effect = Effect(next: Thread, save: bool, closed: set<string>)

  function ThreadStep(t: Thread, c: Choice): Effect
    requires StepEnabled(t, c)
  {
    var m := t.m;
    if c.Raise? then Effect(Failing(m), false, {})
    else
      match t
      case Loaded(_) =>
        var m' := if m.status == Received then m.(status := Processing) else m;
        Effect(Running(m'), m.status == Received, {})
      case Running(_) =>
        if c.NotConfigured? then Effect(Merged(m.(status := Ignored)), false, {})
        else if c.NoBead? then Effect(Merged(Closing(m, true).(status := DispatchFailed)), false, {})
        else Effect(HasBead(m.(bead := c.bead, status := BeadCreated)), true, {})
      case HasBead(_) =>
        if c.Go? then Effect(Slinging(m.(status := Dispatching)), true, {})
        else Effect(Merged(Closing(m, c.closeOk).(status := DispatchFailed)), false, NewlyClosed(m, c.closeOk))
      case Slinging(_) => SlingStep(m, c)
      case Merged(_) => Effect(Leaving(m), true, {})
      case Failing(_) =>
        if c.ReportRaises? then Effect(Leaving(m), false, {})
        else Effect(Reporting(CleanedUp(m, c.closeOk).(status := InternalError)), false, CleanedBeads(m, c.closeOk))
      case Reporting(_) => if c.ReportRaises? then Effect(Leaving(m), false, {}) else Effect(Leaving(m), true, {})
  }

  function SlingStep(m: Request, c: Choice): Effect
    requires c.SlingOk? || c.SlingFailed? || c.GcMissing? || c.TimedOut?
  {
    if c.SlingOk? || (c.TimedOut? && c.found == Active) then Effect(Merged(m.(status := Dispatched)), true, {})
    else if c.TimedOut? && c.found == Unknown then Effect(Merged(m), true, {})
    else Effect(Merged(Closing(m, c.closeOk).(status := DispatchFailed)), !c.GcMissing?, NewlyClosed(m, c.closeOk))
  }

  /** A failing save leaves the request changed in memory only and enters the except block;
      inside the except block it is one more exception. */
  function AfterSave(t: Thread, e: Effect, saves: bool): Thread {
    if !e.save || saves then e.next
    else if t.Reporting? then Leaving(e.next.m)
    else Failing(e.next.m)
  }

  function Unlink(links: map<string, string>, key: string, id: string): map<string, string> {
    if key in links && links[key] == id then links - {key} else links
  }

  /** `remove_workflow_links_for_request`. */
  function UnlinkAll(links: map<string, string>, id: string): map<string, string> {
    map key | key in links && links[key] != id :: links[key]
  }

  function DoStep(s: State, id: string, c: Choice, saves: bool): State
    requires Enabled(s, Step(id, c, saves))
  {
    var t := s.threads[id];
    var e := ThreadStep(t, c);
    s.(requests := if e.save && saves then s.requests[id := e.next.m] else s.requests,
       threads := s.threads[id := AfterSave(t, e, saves)],
       closed := s.closed + e.closed)
  }

  function DoReserve(s: State, interaction: string, key: string): State {
    var id := RequestId(interaction);
    if interaction in s.receipts then s
    else if id in s.requests then s.(receipts := s.receipts[interaction := id])
    else if key != "" && key in s.links then s.(receipts := s.receipts[interaction := s.links[key]])
    else s.(requests := s.requests[id := Request(key, Received, "", false, false)],
            reserving := Some(Saved(id, interaction)))
  }

  function Do(s: State, a: Action): State
    requires Enabled(s, a)
  {
    match a
    case Reserve(interaction, key) => DoReserve(s, interaction, key)
    case SaveLink =>
      var id := s.reserving.value.id;
      var next := Some(Linked(id, s.reserving.value.interaction));
      if id in s.requests && s.requests[id].key != "" then
        s.(links := s.links[s.requests[id].key := id], linked := s.linked + {id}, reserving := next)
      else s.(reserving := next)
    case SaveReceipt =>
      var id := s.reserving.value.id;
      s.(receipts := s.receipts[s.reserving.value.interaction := id], accepted := s.accepted + {id}, reserving := None)
    case Enqueue(id) =>
      s.(accepted := s.accepted - {id},
         threads := if id in s.threads then s.threads else s.threads[id := Loaded(s.requests[id])])
    case Step(id, c, saves) => DoStep(s, id, c, saves)
    case Release(id) =>
      var m := s.threads[id].m;
      s.(links := if m.key != "" && GivenUp(m.status) && !m.cleanupFailed then Unlink(s.links, m.key, id) else s.links,
         threads := s.threads - {id})
    case ReleaseUnread(id) => s.(links := UnlinkAll(s.links, id), threads := s.threads - {id})
    case Crash => s.(serving := false, reserving := None, accepted := {}, threads := map[], recovering := None)
    case RecoverRouted(id) => s.(requests := s.requests[id := s.requests[id].(status := Dispatched)])
    case RecoverDeferred(id) => s
    case RecoverClean(id, closeOk) =>
      var r := s.requests[id];
      s.(recovering := Some(Cleaned(id, CleanedUp(r, closeOk).(status := InternalError))),
         closed := s.closed + CleanedBeads(r, closeOk))
    case RecoverWrite =>
      var w := s.recovering.value;
      s.(requests := s.requests[w.id := w.m], recovering := Some(Written(w.id, w.m)))
    case RecoverUnlink =>
      var w := s.recovering.value;
      s.(links := if w.m.key != "" && !w.m.cleanupFailed then Unlink(s.links, w.m.key, w.id) else s.links,
         recovering := None)
    case Serve => s.(serving := true)
  }

  predicate AllEnabled(s: State, actions: seq<Action>)
    decreases |actions|
  {
    actions != [] ==> Enabled(s, actions[0]) && AllEnabled(Do(s, actions[0]), actions[1..])
  }

  function Exec(s: State, actions: seq<Action>): State
    requires AllEnabled(s, actions)
    decreases |actions|
  {
    if actions == [] then s else Exec(Do(s, actions[0]), actions[1..])
  }

  // ---------------------------------------------------------------- beads and cleanup

  /** A request that was given up has no bead, a closed bead, or a recorded failed cleanup;
      a bead is only marked closed after it was. */
  predicate BeadOk(m: Request, closed: set<string>) {
    && (GivenUp(m.status) ==> m.bead == "" || m.beadClosed || m.cleanupFailed)
    && (m.beadClosed && m.bead != "" ==> m.bead in closed)
  }

  /** A thread's request in memory is never behind the stored one on what matters for the link. */
  predicate Tracks(m: Request, r: Request) {
    && m.key == r.key
    && (r.bead != "" ==> m.bead == r.bead)
    && (r.cleanupFailed ==> m.cleanupFailed)
    && (GivenUp(r.status) ==> GivenUp(m.status))
  }

  predicate ThreadOk(t: Thread, closed: set<string>) {
    && BeadOk(t.m, closed)
    && (t.Loaded? || t.Running? ==> t.m.bead == "" && !t.m.beadClosed && !t.m.cleanupFailed && Live(t.m.status))
    && (t.HasBead? || t.Slinging? ==> t.m.bead != "" && !t.m.beadClosed && !t.m.cleanupFailed && Live(t.m.status))
    && (t.Reporting? ==> GivenUp(t.m.status))
  }

  predicate FreshRequest(r: Request) {
    r.status == Received && r.bead == "" && !r.beadClosed && !r.cleanupFailed
  }

  ghost predicate BeadsTracked(s: State) {
    && (forall id | id in s.requests :: BeadOk(s.requests[id], s.closed))
    && (forall id | id in s.threads :: id in s.requests && Tracks(s.threads[id].m, s.requests[id]) && ThreadOk(s.threads[id], s.closed))
    && (s.recovering.Some? ==>
          var w := s.recovering.value;
          w.id in s.requests && Tracks(w.m, s.requests[w.id]) && BeadOk(w.m, s.closed) && GivenUp(w.m.status))
    && (s.reserving.Some? ==> s.reserving.value.id in s.requests && FreshRequest(s.requests[s.reserving.value.id])
                              && s.reserving.value.id !in s.threads && s.reserving.value.id !in s.accepted)
    && (forall id | id in s.accepted :: id in s.requests && FreshRequest(s.requests[id]) && id !in s.threads)
    && (!s.serving ==> s.threads == map[] && s.accepted == {} && s.reserving.None?)
    && (s.serving ==> s.recovering.None?)
  }

  lemma ThreadStepOk(t: Thread, c: Choice, saves: bool, closed: set<string>, r: Request)
    requires StepEnabled(t, c) && ThreadOk(t, closed) && Tracks(t.m, r)
    ensures var e := ThreadStep(t, c); var t' := AfterSave(t, e, saves);
      && ThreadOk(t', closed + e.closed) && BeadOk(e.next.m, closed + e.closed)
      && Tracks(t'.m, r) && Tracks(t'.m, e.next.m)
  {
  }

  lemma ThreadMoves(s: State, id: string, c: Choice, saves: bool)
    requires BeadsTracked(s) && Enabled(s, Step(id, c, saves))
    ensures BeadsTracked(DoStep(s, id, c, saves))
  {
    var t, s' := s.threads[id], DoStep(s, id, c, saves);
    ThreadStepOk(t, c, saves, s.closed, s.requests[id]);
    hide ThreadStep, AfterSave, ThreadOk, Tracks, StepEnabled, BeadOk, FreshRequest;
    forall i | i in s'.threads ensures ThreadOk(s'.threads[i], s'.closed) && Tracks(s'.threads[i].m, s'.requests[i]) {
      if i != id { ThreadOkGrows(s.threads[i], s.closed, s'.closed); }
    }
    forall i | i in s'.requests ensures BeadOk(s'.requests[i], s'.closed) {
      BeadOkGrows(s.requests[i], s.closed, s'.closed);
    }
  }

  lemma BeadOkGrows(r: Request, closed: set<string>, more: set<string>)
    requires BeadOk(r, closed) && closed <= more
    ensures BeadOk(r, more)
  {
  }

  lemma ThreadOkGrows(t: Thread, closed: set<string>, more: set<string>)
    requires ThreadOk(t, closed) && closed <= more
    ensures ThreadOk(t, more)
  {
  }

  lemma NewRequestBeads(s: State, interaction: string, key: string)
    requires BeadsTracked(s) && s.serving && s.reserving.None?
    requires BeadOk(Request(key, Received, "", false, false), s.closed)
    ensures BeadsTracked(DoReserve(s, interaction, key))
  {
    hide RequestId, BeadOk, ThreadOk, Tracks;
  }

  lemma ReserveBeads(s: State, a: Action)
    requires BeadsTracked(s) && Enabled(s, a) && (a.Reserve? || a.SaveLink? || a.SaveReceipt?)
    ensures BeadsTracked(Do(s, a))
  {
    hide ThreadStep, AfterSave, StepEnabled, RequestId, BeadOk, ThreadOk, Tracks;
    if a.Reserve? {
      BeadOkFresh(a.key, s.closed);
      NewRequestBeads(s, a.interaction, a.key);
    }
  }

  lemma EnqueueBeads(s: State, a: Action)
    requires BeadsTracked(s) && Enabled(s, a) && (a.Enqueue? || a.Release? || a.ReleaseUnread? || a.Crash? || a.Serve?)
    ensures BeadsTracked(Do(s, a))
  {
    hide ThreadStep, AfterSave, StepEnabled, RequestId, ThreadOk, Tracks, BeadOk;
    if a.Enqueue? {
      FreshThreadOk(s.requests[a.id], s.closed);
    }
  }

  lemma FreshThreadOk(r: Request, closed: set<string>)
    ensures Tracks(r, r) && (FreshRequest(r) ==> ThreadOk(Loaded(r), closed))
  {
  }

  lemma CleanedOk(r: Request, closeOk: bool, closed: set<string>)
    requires BeadOk(r, closed)
    ensures var m := CleanedUp(r, closeOk).(status := InternalError); Tracks(m, r) && BeadOk(m, closed + CleanedBeads(r, closeOk))
  {
  }

  lemma RecoverBeads(s: State, a: Action)
    requires BeadsTracked(s) && Enabled(s, a) && !s.serving
    requires a.RecoverRouted? || a.RecoverDeferred? || a.RecoverClean? || a.RecoverWrite? || a.RecoverUnlink?
    ensures BeadsTracked(Do(s, a))
  {
    if a.RecoverClean? {
      CleanedOk(s.requests[a.id], a.closeOk, s.closed);
    }
    hide ThreadStep, AfterSave, StepEnabled, RequestId, ThreadOk, CleanedUp;
  }

  lemma StepBeads(s: State, a: Action)
    requires BeadsTracked(s) && Enabled(s, a)
    ensures BeadsTracked(Do(s, a))
  {
    if a.Step? {
      ThreadMoves(s, a.id, a.choice, a.saves);
    } else if a.Reserve? || a.SaveLink? || a.SaveReceipt? {
      ReserveBeads(s, a);
    } else if a.Enqueue? || a.Release? || a.ReleaseUnread? || a.Crash? || a.Serve? {
      EnqueueBeads(s, a);
    } else {
      NotServing(s, a);
      RecoverBeads(s, a);
    }
  }

  lemma NotServing(s: State, a: Action)
    requires BeadsTracked(s) && Enabled(s, a)
    requires a.RecoverRouted? || a.RecoverDeferred? || a.RecoverClean? || a.RecoverWrite? || a.RecoverUnlink?
    ensures !s.serving
  {
  }

  lemma BeadOkFresh(key: string, closed: set<string>)
    ensures BeadOk(Request(key, Received, "", false, false), closed)
  {
  }

  // ---------------------------------------------------------------- when a link goes away

  /** A link is only ever saved for a key that has none, by a request that never had one. */
  ghost predicate LinksGuarded(s: State) {
    && (forall id | id in s.linked :: id in s.requests && s.requests[id].key != "")
    && (s.reserving.Some? && s.reserving.value.Saved? ==>
          var id := s.reserving.value.id;
          && id !in s.linked
          && (id in s.requests && s.requests[id].key != "" ==> s.requests[id].key !in s.links))
  }

  ghost predicate Tracked(s: State) {
    BeadsTracked(s) && LinksGuarded(s)
  }

  lemma KeysStay(s: State, a: Action, id: string)
    requires BeadsTracked(s) && Enabled(s, a) && id in s.requests
    ensures id in Do(s, a).requests && Tracks(Do(s, a).requests[id], s.requests[id])
    ensures s.closed <= Do(s, a).closed
  {
    hide StepEnabled, ThreadStep, AfterSave, BeadOk, RequestId;
    if a.Step? {
      ThreadStepOk(s.threads[a.id], a.choice, a.saves, s.closed, s.requests[a.id]);
      ThreadStepSaves(s.threads[a.id], a.choice, s.closed, s.requests[a.id]);
    }
  }

  lemma ThreadStepSaves(t: Thread, c: Choice, closed: set<string>, r: Request)
    requires StepEnabled(t, c) && ThreadOk(t, closed) && Tracks(t.m, r)
    ensures Tracks(ThreadStep(t, c).next.m, r)
  {
  }

  lemma StepGuarded(s: State, a: Action)
    requires LinksGuarded(s) && Enabled(s, a) && (s.reserving.Some? ==> s.reserving.value.id in s.requests)
    requires forall id | id in s.requests :: id in Do(s, a).requests && Do(s, a).requests[id].key == s.requests[id].key
    ensures LinksGuarded(Do(s, a))
  {
    hide StepEnabled, ThreadStep, AfterSave, RequestId, CleanedUp, CleanedBeads;
  }

  lemma StepTracked(s: State, a: Action)
    requires Tracked(s) && Enabled(s, a)
    ensures Tracked(Do(s, a))
  {
    hide StepEnabled, ThreadStep, AfterSave, BeadOk, ThreadOk, RequestId, LinksGuarded, Enabled, Do;
    StepBeads(s, a);
    forall id | id in s.requests ensures id in Do(s, a).requests && Do(s, a).requests[id].key == s.requests[id].key {
      KeysStay(s, a, id);
    }
    StepGuarded(s, a);
  }

  lemma {:induction false} RunTracked(s: State, actions: seq<Action>)
    requires Tracked(s) && AllEnabled(s, actions)
    ensures Tracked(Exec(s, actions))
    decreases |actions|
  {
    hide Enabled, Do, Tracked;
    if actions != [] {
      StepTracked(s, actions[0]);
      RunTracked(Do(s, actions[0]), actions[1..]);
    }
  }

  /** Every run from the start, disorderly ones included, keeps the bead and link bookkeeping honest:
      so what is said below of tracked states holds of all the service gets into. */
  lemma EveryRunTracked(actions: seq<Action>)
    requires AllEnabled(START, actions)
    ensures Tracked(Exec(START, actions))
  {
    RunTracked(START, actions);
  }

  predicate TouchesLinks(a: Action) {
    a.SaveLink? || a.Release? || a.ReleaseUnread? || a.RecoverUnlink?
  }

  lemma LinksUntouched(s: State, a: Action)
    requires Enabled(s, a) && !TouchesLinks(a)
    ensures Do(s, a).links == s.links && Do(s, a).linked == s.linked
  {
    hide StepEnabled, ThreadStep, AfterSave, RequestId, CleanedUp, CleanedBeads;
  }

  predicate Justified(s: State, a: Action, id: string) {
    && (a == Release(id) || a == ReleaseUnread(id) || (a == RecoverUnlink && s.recovering.Some? && s.recovering.value.id == id))
    && id in s.requests && !s.requests[id].cleanupFailed
    && (s.requests[id].bead == "" || s.requests[id].bead in s.closed)
  }

  lemma RemovalJustified(s: State, a: Action, key: string)
    requires BeadsTracked(s) && LinksGuarded(s) && Enabled(s, a) && key in s.links && TouchesLinks(a)
    ensures (key in Do(s, a).links && Do(s, a).links[key] == s.links[key]) || Justified(s, a, s.links[key])
  {
    hide StepEnabled, ThreadStep, AfterSave, RequestId, DoReserve, CleanedUp, CleanedBeads;
  }

  /** The service removes a workflow link only when its own request gives it up, and then the
      request recorded no bead or that bead has been closed, and no cleanup has failed. */
  lemma LinkRemovalJustified(s: State, a: Action, key: string)
    requires Tracked(s) && Enabled(s, a) && key in s.links
    ensures (key in Do(s, a).links && Do(s, a).links[key] == s.links[key]) || Justified(s, a, s.links[key])
  {
    if TouchesLinks(a) {
      RemovalJustified(s, a, key);
    } else {
      LinksUntouched(s, a);
      hide *;
    }
  }

  /** Over every run: once a request recorded a bead, its link stays until that bead is closed;
      in particular through a timeout whose bead state is unknown. */
  lemma {:induction false} OpenBeadKeepsLink(s: State, actions: seq<Action>, key: string)
    requires Tracked(s) && AllEnabled(s, actions)
    requires key in s.links && s.links[key] in s.requests && s.requests[s.links[key]].bead != ""
    requires s.requests[s.links[key]].bead !in Exec(s, actions).closed
    ensures key in Exec(s, actions).links && Exec(s, actions).links[key] == s.links[key]
    decreases |actions|
  {
    hide Enabled, Do, BeadsTracked, LinksGuarded, Tracked;
    if actions != [] {
      var a, s' := actions[0], Do(s, actions[0]);
      StepTracked(s, a);
      ClosedGrows(s', actions[1..]);
      assert BeadsTracked(s) by { TrackedBeads(s); }
      KeysStay(s, a, s.links[key]);
      LinkRemovalJustified(s, a, key);
      OpenBeadKeepsLink(s', actions[1..], key);
    }
  }

  lemma TrackedBeads(s: State)
    requires Tracked(s)
    ensures BeadsTracked(s)
  {
  }

  lemma StepCloses(s: State, a: Action)
    requires Enabled(s, a)
    ensures s.closed <= Do(s, a).closed
  {
    hide StepEnabled, ThreadStep, AfterSave, RequestId, CleanedUp, CleanedBeads;
  }

  lemma {:induction false} ClosedGrows(s: State, actions: seq<Action>)
    requires Tracked(s) && AllEnabled(s, actions)
    ensures s.closed <= Exec(s, actions).closed
    decreases |actions|
  {
    hide Enabled, Do, BeadsTracked, LinksGuarded, Tracked;
    if actions != [] {
      StepTracked(s, actions[0]);
      StepCloses(s, actions[0]);
      ClosedGrows(Do(s, actions[0]), actions[1..]);
    }
  }

  /** Over every run: a failed cleanup keeps the link for good. */
  lemma {:induction false} FailedCleanupKeepsLink(s: State, actions: seq<Action>, key: string)
    requires Tracked(s) && AllEnabled(s, actions)
    requires key in s.links && s.links[key] in s.requests && s.requests[s.links[key]].cleanupFailed
    ensures key in Exec(s, actions).links && Exec(s, actions).links[key] == s.links[key]
    decreases |actions|
  {
    hide Enabled, Do, BeadsTracked, LinksGuarded, Tracked;
    if actions != [] {
      var a := actions[0];
      StepTracked(s, a);
      TrackedBeads(s);
      KeysStay(s, a, s.links[key]);
      LinkRemovalJustified(s, a, key);
      FailedCleanupKeepsLink(Do(s, a), actions[1..], key);
    }
  }

  // ---------------------------------------------------------------- one live request per conversation

  /** Nothing goes wrong while a failure is being reported and saved, and the file of a request can be
      read when its thread starts. */
  predicate Orderly(s: State, a: Action)
    requires Enabled(s, a)
  {
    !a.ReleaseUnread? && (a.Step? && (s.threads[a.id].Failing? || s.threads[a.id].Reporting?) ==> !a.choice.ReportRaises? && a.saves)
  }

  predicate AllOrderly(s: State, actions: seq<Action>)
    requires AllEnabled(s, actions)
    decreases |actions|
  {
    actions != [] ==> Orderly(s, actions[0]) && AllOrderly(Do(s, actions[0]), actions[1..])
  }

  predicate GivesBack(m: Request) {
    m.key != "" && GivenUp(m.status) && !m.cleanupFailed
  }

  predicate HoldsLink(s: State, id: string)
    requires id in s.requests
  {
    var key := s.requests[id].key;
    Live(s.requests[id].status) ==> key in s.links && s.links[key] == id
  }

  ghost predicate LinksHeld(s: State) {
    && Tracked(s)
    && (forall id | id in s.linked :: HoldsLink(s, id))
    && (forall id | id in s.threads && s.threads[id].Leaving? && GivesBack(s.threads[id].m) :: GivenUp(s.requests[id].status))
    && (s.recovering.Some? && s.recovering.value.Written? ==> GivenUp(s.requests[s.recovering.value.id].status))
  }

  lemma LeavingIsSaved(t: Thread, c: Choice, saves: bool)
    requires StepEnabled(t, c) && (t.Failing? || t.Reporting? ==> !c.ReportRaises? && saves)
    ensures var e := ThreadStep(t, c); AfterSave(t, e, saves).Leaving? ==> e.save && saves && AfterSave(t, e, saves) == e.next
  {
  }

  lemma LinkStepHolds(s: State, a: Action, id: string)
    requires LinksHeld(s) && Enabled(s, a) && Orderly(s, a) && id in Do(s, a).linked && TouchesLinks(a)
    requires id in s.requests
    ensures id in Do(s, a).requests && HoldsLink(Do(s, a), id)
  {
    hide StepEnabled, ThreadStep, AfterSave, BeadOk, RequestId, ThreadOk, FreshRequest;
  }

  lemma StepHoldsLink(s: State, a: Action, id: string)
    requires LinksHeld(s) && Enabled(s, a) && Orderly(s, a) && id in Do(s, a).linked
    requires id in s.requests && id in Do(s, a).requests && Tracks(Do(s, a).requests[id], s.requests[id])
    ensures HoldsLink(Do(s, a), id)
  {
    if TouchesLinks(a) {
      LinkStepHolds(s, a, id);
    } else {
      LinksUntouched(s, a);
      hide Enabled, Do, Tracked;
    }
  }

  /** What LinksHeld says about a thread or a recovery on its way to give a link back. */
  ghost predicate OutcomesSaved(s: State) {
    && (forall id | id in s.threads && s.threads[id].Leaving? && GivesBack(s.threads[id].m) ::
          id in s.requests && GivenUp(s.requests[id].status))
    && (s.recovering.Some? && s.recovering.value.Written? ==>
          s.recovering.value.id in s.requests && GivenUp(s.requests[s.recovering.value.id].status))
  }

  lemma ThreadStepSavesOutcome(s: State, a: Action)
    requires BeadsTracked(s) && OutcomesSaved(s) && Enabled(s, a) && Orderly(s, a) && a.Step?
    ensures OutcomesSaved(Do(s, a))
  {
    LeavingIsSaved(s.threads[a.id], a.choice, a.saves);
    hide StepEnabled, ThreadStep, AfterSave, BeadOk, ThreadOk, Tracks, FreshRequest;
  }

  lemma ServingSavesOutcome(s: State, a: Action)
    requires BeadsTracked(s) && OutcomesSaved(s) && Enabled(s, a) && s.serving && !a.Step?
    ensures OutcomesSaved(Do(s, a))
  {
    hide StepEnabled, ThreadStep, AfterSave, BeadOk, ThreadOk, Tracks, RequestId, CleanedUp, CleanedBeads, FreshRequest, Unlink;
  }

  lemma StepSavesOutcome(s: State, a: Action)
    requires BeadsTracked(s) && OutcomesSaved(s) && Enabled(s, a) && Orderly(s, a)
    ensures OutcomesSaved(Do(s, a))
  {
    if a.Step? {
      ThreadStepSavesOutcome(s, a);
    } else if s.serving {
      hide *;
      ServingSavesOutcome(s, a);
    } else {
      hide StepEnabled, ThreadStep, AfterSave, BeadOk, ThreadOk, Tracks, RequestId, CleanedUp, CleanedBeads, FreshRequest, DoReserve, Unlink;
    }
  }

  lemma StepLinksHeld(s: State, a: Action)
    requires LinksHeld(s) && Enabled(s, a) && Orderly(s, a)
    ensures LinksHeld(Do(s, a))
  {
    hide StepEnabled, ThreadStep, AfterSave, BeadOk, RequestId, ThreadOk, Enabled, Do, Orderly, HoldsLink, Tracks, FreshRequest;
    StepTracked(s, a);
    var s' := Do(s, a);
    StepSavesOutcome(s, a);
    forall id | id in s'.linked ensures HoldsLink(s', id) {
      LinkedBefore(s, a, id);
      KeysStay(s, a, id);
      StepHoldsLink(s, a, id);
    }
  }

  /** Only a reserved request becomes linked. */
  lemma LinkedBefore(s: State, a: Action, id: string)
    requires Tracked(s) && Enabled(s, a) && id in Do(s, a).linked
    ensures id in s.requests
  {
    hide StepEnabled, ThreadStep, AfterSave, BeadOk, RequestId, ThreadOk, Tracks, CleanedUp, CleanedBeads;
  }

  lemma {:induction false} RunLinksHeld(s: State, actions: seq<Action>)
    requires LinksHeld(s) && AllEnabled(s, actions) && AllOrderly(s, actions)
    ensures LinksHeld(Exec(s, actions))
    decreases |actions|
  {
    hide Enabled, Do, Orderly, LinksHeld;
    if actions != [] {
      StepLinksHeld(s, actions[0]);
      RunLinksHeld(Do(s, actions[0]), actions[1..]);
    }
  }

  /** In every run of reserve, process, crash and start-up recovery: a request whose link was
      saved holds its conversation's link as long as it is unfinished or dispatched. */
  lemma LiveRequestsHoldTheirLink(actions: seq<Action>, id: string)
    requires AllEnabled(START, actions) && AllOrderly(START, actions)
    requires id in Exec(START, actions).linked
    ensures var s := Exec(START, actions);
      && id in s.requests
      && (Live(s.requests[id].status) ==> s.requests[id].key in s.links && s.links[s.requests[id].key] == id)
  {
    RunLinksHeld(START, actions);
  }

  /** Hence no two of them share a conversation. */
  lemma OneLiveRequestPerConversation(actions: seq<Action>, a: string, b: string)
    requires AllEnabled(START, actions) && AllOrderly(START, actions)
    requires a in Exec(START, actions).linked && b in Exec(START, actions).linked && a != b
    ensures var r := Exec(START, actions).requests;
      a in r && b in r && (Live(r[a].status) && Live(r[b].status) ==> r[a].key != r[b].key)
  {
    LiveRequestsHoldTheirLink(actions, a);
    LiveRequestsHoldTheirLink(actions, b);
  }

  ghost predicate ReservationsLinked(s: State) {
    && BeadsTracked(s)
    && (forall id | (id in s.accepted || id in s.threads) && s.requests[id].key != "" :: id in s.linked)
    && (s.reserving.Some? && s.reserving.value.Linked? && s.requests[s.reserving.value.id].key != "" ==> s.reserving.value.id in s.linked)
  }

  lemma ReservationStepLinks(s: State, a: Action)
    requires ReservationsLinked(s) && Enabled(s, a) && BeadsTracked(Do(s, a))
    requires a.Reserve? || a.SaveLink? || a.SaveReceipt? || a.Enqueue?
    ensures ReservationsLinked(Do(s, a))
  {
    hide StepEnabled, ThreadStep, AfterSave, BeadOk, ThreadOk, Tracks, RequestId, FreshRequest;
  }

  lemma StepReservationsLinked(s: State, a: Action)
    requires ReservationsLinked(s) && Enabled(s, a)
    ensures ReservationsLinked(Do(s, a))
  {
    StepBeads(s, a);
    if a.Reserve? || a.SaveLink? || a.SaveReceipt? || a.Enqueue? {
      ReservationStepLinks(s, a);
    } else {
      var s' := Do(s, a);
      forall id | id in s.requests ensures id in s'.requests && Tracks(s'.requests[id], s.requests[id]) {
        KeysStay(s, a, id);
      }
      hide StepEnabled, ThreadStep, AfterSave, BeadOk, RequestId, ThreadOk, CleanedUp, CleanedBeads, FreshRequest, DoReserve;
    }
  }

  /** Every reservation that was completed with a key has saved its link. */
  lemma {:induction false} CompletedReservationsAreLinked(s: State, actions: seq<Action>)
    requires ReservationsLinked(s) && AllEnabled(s, actions)
    ensures ReservationsLinked(Exec(s, actions))
    decreases |actions|
  {
    hide Enabled, Do, ReservationsLinked;
    if actions != [] {
      StepReservationsLinked(s, actions[0]);
      CompletedReservationsAreLinked(Do(s, actions[0]), actions[1..]);
    }
  }

  // ---------------------------------------------------------------- when reporting a failure fails

  /** If the except block itself is left by an exception, the request file keeps its old status
      while the finally block acts on the new one. The request still holds its link afterwards
      exactly when its stored status is already a final one, or the finally block keeps the
      link (no key, still live in memory, or a failed cleanup). */
  lemma ReportFailureCase(s: State, id: string, c: Choice, saves: bool)
    requires LinksHeld(s) && id in s.linked && Enabled(s, Step(id, c, saves)) && s.reserving.None?
    requires !Orderly(s, Step(id, c, saves)) && AfterSave(s.threads[id], ThreadStep(s.threads[id], c), saves).Leaving?
    ensures var s1 := DoStep(s, id, c, saves);
      && Enabled(s1, Release(id)) && id in s1.requests
      && (HoldsLink(Do(s1, Release(id)), id) <==> GivenUp(s.requests[id].status) || !GivesBack(s1.threads[id].m))
  {
    var s1 := DoStep(s, id, c, saves);
    assert HoldsLink(s, id);
    assert s1.requests == s.requests && Tracks(s1.threads[id].m, s.requests[id]) by {
      ThreadStepOk(s.threads[id], c, saves, s.closed, s.requests[id]);
    }
  }

  /** If the request file cannot be read at all, the finally block removes every link of the request:
      always the one it holds, while the stored request is still live. */
  lemma UnreadRequestCase(s: State, id: string)
    requires LinksHeld(s) && id in s.linked && Enabled(s, ReleaseUnread(id))
    ensures var s' := Do(s, ReleaseUnread(id));
      && s'.requests == s.requests && id in s.requests && Live(s.requests[id].status)
      && HoldsLink(s, id) && !HoldsLink(s', id)
      && forall key | key in s.links && s.links[key] != id :: key in s'.links && s'.links[key] == s.links[key]
  {
    assert HoldsLink(s, id) && ThreadOk(s.threads[id], s.closed) && Tracks(s.threads[id].m, s.requests[id]);
  }

  /** The three steps that give links back. */
  predicate GivesLinkBack(s: State, a: Action, id: string)
    requires Enabled(s, a)
  {
    || a == ReleaseUnread(id)
    || (a == Release(id) && GivesBack(s.threads[id].m))
    || (a == RecoverUnlink && s.recovering.value.id == id && GivesBack(s.recovering.value.m))
  }

  lemma GivingBackLoses(s: State, a: Action, id: string)
    requires Tracked(s) && id in s.requests && HoldsLink(s, id) && id in s.linked && Enabled(s, a) && TouchesLinks(a)
    requires id in Do(s, a).requests && Tracks(Do(s, a).requests[id], s.requests[id])
    ensures !HoldsLink(Do(s, a), id) <==> Live(s.requests[id].status) && GivesLinkBack(s, a, id)
  {
    hide StepEnabled, ThreadStep, AfterSave, BeadOk, RequestId, ThreadOk, FreshRequest;
  }

  /** In every state of the bookkeeping, orderly or not, a request that holds its link and is still
      stored as live loses it in exactly these steps. */
  lemma LosesLinkExactlyWhen(s: State, a: Action, id: string)
    requires Tracked(s) && id in s.linked && HoldsLink(s, id) && Enabled(s, a)
    ensures id in Do(s, a).requests
    ensures !HoldsLink(Do(s, a), id) <==> Live(s.requests[id].status) && GivesLinkBack(s, a, id)
  {
    KeysStay(s, a, id);
    if TouchesLinks(a) {
      GivingBackLoses(s, a, id);
    } else {
      LinksUntouched(s, a);
      hide Enabled, Do, Tracked;
    }
  }

  lemma {:induction false} ExecAppend(s: State, actions: seq<Action>, a: Action)
    requires AllEnabled(s, actions) && Enabled(Exec(s, actions), a)
    ensures AllEnabled(s, actions + [a]) && Exec(s, actions + [a]) == Do(Exec(s, actions), a)
    decreases |actions|
  {
    hide Do, Enabled;
    if actions == [] {
      assert [a][1..] == [];
    } else {
      assert (actions + [a])[1..] == actions[1..] + [a];
      ExecAppend(Do(s, actions[0]), actions[1..], a);
    }
  }

  /** One reserved request, with its thread about to start. */
  lemma FirstEnqueued() returns (actions: seq<Action>)
    ensures AllEnabled(START, actions)
    ensures var s := Exec(START, actions); var r := Request("room", Received, "", false, false);
      && s.requests == map[RequestId("1") := r] && s.links == map["room" := RequestId("1")]
      && s.receipts.Keys == {"1"} && s.serving && s.reserving == None && s.linked == {RequestId("1")}
      && s.threads == map[RequestId("1") := Loaded(r)]
  {
    hide RequestId;
    var id := RequestId("1");
    actions := [];
    ExecAppend(START, actions, Serve);                          actions := actions + [Serve];
    ExecAppend(START, actions, Reserve("1", "room"));           actions := actions + [Reserve("1", "room")];
    ExecAppend(START, actions, SaveLink);                       actions := actions + [SaveLink];
    ExecAppend(START, actions, SaveReceipt);                    actions := actions + [SaveReceipt];
    ExecAppend(START, actions, Enqueue(id));                    actions := actions + [Enqueue(id)];
  }

  /** A request whose bead could not be initialised, about to report the failure. */
  lemma FailureAboutToBeReported() returns (actions: seq<Action>)
    ensures AllEnabled(START, actions)
    ensures var s := Exec(START, actions); var stored := Request("room", BeadCreated, "b", false, false);
      && s.requests == map[RequestId("1") := stored] && s.links == map["room" := RequestId("1")]
      && s.receipts.Keys == {"1"} && s.serving && s.reserving == None && s.linked == {RequestId("1")}
      && s.threads == map[RequestId("1") := Reporting(stored.(status := InternalError, beadClosed := true))]
  {
    hide RequestId;
    var id := RequestId("1");
    actions := FirstEnqueued();
    actions := BeadThenException(actions, id);
  }

  /** One step of the only thread there is. */
  lemma StepAppend(before: seq<Action>, id: string, t: Thread, c: Choice) returns (actions: seq<Action>)
    requires AllEnabled(START, before) && StepEnabled(t, c)
    requires Exec(START, before).threads == map[id := t] && id in Exec(START, before).requests
    ensures AllEnabled(START, actions)
    ensures var s, s', e := Exec(START, before), Exec(START, actions), ThreadStep(t, c);
      s' == s.(requests := if e.save then s.requests[id := e.next.m] else s.requests,
               threads := map[id := e.next], closed := s.closed + e.closed)
  {
    hide ThreadStep, StepEnabled;
    ExecAppend(START, before, Step(id, c, true));
    actions := before + [Step(id, c, true)];
  }

  lemma BeadThenException(before: seq<Action>, id: string) returns (actions: seq<Action>)
    requires AllEnabled(START, before)
    requires var s := Exec(START, before); var r := Request("room", Received, "", false, false);
      s.threads == map[id := Loaded(r)] && s.requests == map[id := r]
    ensures AllEnabled(START, actions)
    ensures var s, s' := Exec(START, before), Exec(START, actions); var stored := Request("room", BeadCreated, "b", false, false);
      && s'.threads == map[id := Reporting(stored.(status := InternalError, beadClosed := true))]
      && s' == s.(requests := map[id := stored], threads := s'.threads, closed := s.closed + {"b"})
  {
    hide Exec, AllEnabled;
    var r := Request("room", Received, "", false, false);
    actions := StepAppend(before, id, Loaded(r), Go);
    actions := StepAppend(actions, id, Running(r.(status := Processing)), Bead("b"));
    var m := r.(status := BeadCreated, bead := "b");
    actions := StepAppend(actions, id, HasBead(m), Raise);
    actions := StepAppend(actions, id, Failing(m), Cleanup(true));
  }

  /** And so is a request file that cannot be read. */
  lemma UnreadRequestSharesConversation() returns (actions: seq<Action>)
    ensures AllEnabled(START, actions)
    ensures var s := Exec(START, actions); var a, b := RequestId("1"), RequestId("2");
      && a != b && a in s.linked && b in s.linked && a in s.requests && b in s.requests
      && Live(s.requests[a].status) && Live(s.requests[b].status) && s.requests[a].key == s.requests[b].key
  {
    var a := RequestId("1");
    assert a[3] != RequestId("2")[3];
    hide RequestId;
    actions := FirstEnqueued();
    ExecAppend(START, actions, ReleaseUnread(a));               actions := actions + [ReleaseUnread(a)];
    assert Exec(START, actions).links == map[];
    ExecAppend(START, actions, Reserve("2", "room"));           actions := actions + [Reserve("2", "room")];
    ExecAppend(START, actions, SaveLink);                       actions := actions + [SaveLink];
  }

  /** One more exception while the failure is reported is enough to break the exclusion: the
      link is given back, the stored request still reads "bead_created", and the conversation
      is reserved again. */
  lemma FailedReportSharesConversation() returns (actions: seq<Action>)
    ensures AllEnabled(START, actions)
    ensures var s := Exec(START, actions); var a, b := RequestId("1"), RequestId("2");
      && a != b && a in s.linked && b in s.linked && a in s.requests && b in s.requests
      && Live(s.requests[a].status) && Live(s.requests[b].status) && s.requests[a].key == s.requests[b].key
  {
    var a := RequestId("1");
    assert a[3] != RequestId("2")[3];
    hide RequestId;
    actions := FailureAboutToBeReported();
    ExecAppend(START, actions, Step(a, ReportRaises, true));    actions := actions + [Step(a, ReportRaises, true)];
    ExecAppend(START, actions, Release(a));                     actions := actions + [Release(a)];
    assert Exec(START, actions).links == map[];
    ExecAppend(START, actions, Reserve("2", "room"));           actions := actions + [Reserve("2", "room")];
    ExecAppend(START, actions, SaveLink);                       actions := actions + [SaveLink];
  }
}
