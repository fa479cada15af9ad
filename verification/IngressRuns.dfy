/** Building runs of the ingress protocol action by action, for the lemmas that show what can
    happen.

    Source: discord/scripts/discord_gateway_service.py, `process_inbound_message`. */
module IngressRuns {
  import opened IngressDelivery
  import opened IngressProtocol
  import opened IdempotencyKeys

  const EMPTY: State := State(map[], map[], 0, [])

  lemma {:induction false} ExecAppend(s: State, actions: seq<Action>, a: Action)
    requires AllEnabled(s, actions) && Enabled(Exec(s, actions), a)
    ensures AllEnabled(s, actions + [a]) && Exec(s, actions + [a]) == Do(Exec(s, actions), a)
    ensures AllTimely(s, actions) && Timely(Exec(s, actions), a) ==> AllTimely(s, actions + [a])
    decreases |actions|
  {
    hide Do, Enabled, Timely;
    if actions == [] {
      assert [a][1..] == [];
    } else {
      assert (actions + [a])[1..] == actions[1..] + [a];
      ExecAppend(Do(s, actions[0]), actions[1..], a);
    }
  }

  /** One delivery step of handler `id`. */
  lemma AdvanceAppend(s: State, actions: seq<Action>, id: nat, ingress: string, run: Run, choice: Choice, st: Step)
    returns (more: seq<Action>)
    requires AllEnabled(s, actions) && Allowed(run, choice) && st == RunStep(run, choice)
    requires id in Exec(s, actions).handlers && Exec(s, actions).handlers[id] == Delivering(ingress, run)
    requires run.index < |run.current.targets|
    ensures more == actions + [Advance(id, choice)] && AllEnabled(s, more)
    ensures AllTimely(s, actions) ==> AllTimely(s, more)
    ensures var now, later, t := Exec(s, actions), Exec(s, more), run.current.targets[run.index];
      && later.store == (if st.saved then now.store[ingress := st.run.current] else now.store)
      && later.handlers == now.handlers[id := Delivering(ingress, st.run)] && later.nextId == now.nextId
      && later.posts == if st.posted then now.posts + [Post(ingress, t.session, t.key, id, run.index)] else now.posts
  {
    hide RunStep, Allowed, Exec, AllEnabled, AllTimely;
    ExecAppend(s, actions, Advance(id, choice));
    more := actions + [Advance(id, choice)];
  }

  /** The receipt a claim stores for its sessions. */
  function Unsent(ingress: string, sessions: seq<string>): Receipt {
    Receipt(PendingDelivery, PROTOCOL_VERSION, NewTargets(ingress, sessions))
  }

  function Envelopes(sessions: seq<string>): set<string> {
    set t | t in sessions
  }

  /** The first two steps on a pending target with an envelope: save "submitting", then post. */
  lemma FirstSteps(r: Receipt, i: nat, envelopes: set<string>)
    requires i < |r.targets| && r.targets[i].status == Pending
    requires r.targets[i].session != "" && r.targets[i].session in envelopes
    ensures var sent := PatchStatus(r, i, Submitting);
      && RunStep(Run(r, i, envelopes, Visit), Go) == Step(Run(sent, i, envelopes, Calling), true, false)
      && RunStep(Run(sent, i, envelopes, Calling), Go) == Step(Run(sent, i, envelopes, Posted), false, true)
  {
    hide Aggregate;
  }

  /** Handler `id`, at target `i`, saves "submitting" and posts. */
  lemma PostTarget(s: State, actions: seq<Action>, id: nat, ingress: string, r: Receipt, i: nat, envelopes: set<string>)
    returns (more: seq<Action>)
    requires AllEnabled(s, actions) && i < |r.targets| && r.targets[i].status == Pending
    requires r.targets[i].session != "" && r.targets[i].session in envelopes
    requires id in Exec(s, actions).handlers && Exec(s, actions).handlers[id] == Delivering(ingress, Run(r, i, envelopes, Visit))
    ensures actions <= more && AllEnabled(s, more) && (AllTimely(s, actions) ==> AllTimely(s, more))
    ensures Prune(ingress) !in actions ==> Prune(ingress) !in more
    ensures var now, later, sent := Exec(s, actions), Exec(s, more), PatchStatus(r, i, Submitting);
      && later.store == now.store[ingress := sent]
      && later.handlers == now.handlers[id := Delivering(ingress, Run(sent, i, envelopes, Posted))]
      && later.nextId == now.nextId
      && later.posts == now.posts + [Post(ingress, r.targets[i].session, r.targets[i].key, id, i)]
  {
    hide RunStep, Exec, AllEnabled, AllTimely;
    FirstSteps(r, i, envelopes);
    var sent := PatchStatus(r, i, Submitting);
    more := AdvanceAppend(s, actions, id, ingress, Run(r, i, envelopes, Visit), Go, Step(Run(sent, i, envelopes, Calling), true, false));
    more := AdvanceAppend(s, more, id, ingress, Run(sent, i, envelopes, Calling), Go, Step(Run(sent, i, envelopes, Posted), false, true));
  }

  /** Handler `id` resolves the sessions, saves "submitting" for the first and posts to it. */
  lemma SubmitAndPost(s: State, actions: seq<Action>, id: nat, sessions: seq<string>) returns (more: seq<Action>)
    requires AllEnabled(s, actions) && sessions != [] && sessions[0] != ""
    requires var now := Exec(s, actions); id in now.handlers && now.handlers[id].Routing?
    ensures actions <= more && AllEnabled(s, more) && (AllTimely(s, actions) ==> AllTimely(s, more))
    ensures var ingress := Exec(s, actions).handlers[id].ingress; Prune(ingress) !in actions ==> Prune(ingress) !in more
    ensures var now, later, ingress := Exec(s, actions), Exec(s, more), Exec(s, actions).handlers[id].ingress;
      var sent := PatchStatus(Unsent(ingress, sessions), 0, Submitting);
      && later.store == now.store[ingress := sent]
      && later.handlers == now.handlers[id := Delivering(ingress, Run(sent, 0, Envelopes(sessions), Posted))]
      && later.nextId == now.nextId
      && later.posts == now.posts + [Post(ingress, sessions[0], IdempotencyKey(ingress, sessions[0]), id, 0)]
  {
    hide IdempotencyKey, Exec, AllEnabled, AllTimely, RunStep, PatchStatus;
    var ingress := Exec(s, actions).handlers[id].ingress;
    ExecAppend(s, actions, Action.Submit(id, sessions));
    more := actions + [Action.Submit(id, sessions)];
    more := PostTarget(s, more, id, ingress, Unsent(ingress, sessions), 0, Envelopes(sessions));
  }

  /** Handler `id` gets a successful answer for its only target, and leaves. */
  lemma AnswerAndLeave(s: State, actions: seq<Action>, id: nat, ingress: string, run: Run) returns (more: seq<Action>)
    requires AllEnabled(s, actions) && |run.current.targets| == 1 && run.index == 0 && run.phase == Posted
    requires var now := Exec(s, actions); id in now.handlers && now.handlers[id] == Delivering(ingress, run)
    ensures AllEnabled(s, more) && (AllTimely(s, actions) ==> AllTimely(s, more))
    ensures var now, later := Exec(s, actions), Exec(s, more);
      && later.store.Keys == now.store.Keys + {ingress} && later.store[ingress].status == AllDelivered
      && later.handlers == now.handlers - {id} && later.posts == now.posts && later.nextId == now.nextId
  {
    hide Exec, AllEnabled, AllTimely;
    var r := PatchStatus(run.current, 0, Delivered);
    assert r.status == AllDelivered by {
      assert |r.targets| == 1 && r.targets[0].status == Delivered;
      AggregateMeaning(r.targets, r.status);
    }
    more := AdvanceAppend(s, actions, id, ingress, run, Got(Answered), Step(Run(r, 1, run.envelopes, Visit), true, false));
    hide RunStep, PatchStatus;
    ExecAppend(s, more, Leave(id));
    more := more + [Leave(id)];
  }
}
