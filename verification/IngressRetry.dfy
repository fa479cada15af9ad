/** When a message is posted to a session a second time: over timely runs only after a retry took
    its receipt over or the receipt was pruned, and a retry always can.

    Source: discord/scripts/discord_gateway_service.py, the reclaim branch of
    `process_inbound_message`. */
module IngressRetry {
  import opened IngressDelivery
  import opened IngressProtocol
  import opened IdempotencyKeys
  import opened IngressRuns

  // ---------------------------------------------------------------- only after a retry

  /** The step that lets another handler post for this ingress: a completed reclaim, or the
      removal of the receipt. */
  predicate Renews(s: State, a: Action, ingress: string) {
    a == Prune(ingress) || (a.FinishReclaim? && a.id in s.handlers && s.handlers[a.id].ingress == ingress)
  }

  predicate Renewed(s: State, actions: seq<Action>, ingress: string)
    requires AllEnabled(s, actions)
    decreases |actions|
  {
    actions != [] && (Renews(s, actions[0], ingress) || Renewed(Do(s, actions[0]), actions[1..], ingress))
  }

  /** A handler that has, or may come to have, envelopes to post. */
  predicate MayPost(h: Handler) {
    h.Claimed? || h.Routing? || (h.Delivering? && h.run.envelopes != {})
  }

  /** Nobody but `owner` can post for this ingress. */
  ghost predicate OnlyPoster(s: State, ingress: string, owner: nat) {
    ingress in s.store && forall id | id in s.handlers && s.handlers[id].ingress == ingress && MayPost(s.handlers[id]) :: id == owner
  }

  lemma AdvanceOnlyPoster(s: State, id: nat, choice: Choice, ingress: string, owner: nat)
    requires Sound(s) && OnlyPoster(s, ingress, owner) && Enabled(s, Advance(id, choice))
    ensures OnlyPoster(DoAdvance(s, id, choice), ingress, owner)
    ensures forall k | |s.posts| <= k < |DoAdvance(s, id, choice).posts| && DoAdvance(s, id, choice).posts[k].ingress == ingress ::
              DoAdvance(s, id, choice).posts[k].handler == owner
  {
    var run := s.handlers[id].run;
    RunStepAdvances(run, choice);
    if run.envelopes == {} {
      NoEnvelopeNoPost(run, choice);
    }
    hide RunStep, Aggregate, Advances, StatusOk;
  }

  lemma StepOnlyPoster(s: State, a: Action, ingress: string, owner: nat)
    requires Sound(s) && OnlyPoster(s, ingress, owner) && Enabled(s, a) && !Renews(s, a, ingress) && owner < s.nextId
    ensures OnlyPoster(Do(s, a), ingress, owner) && owner < Do(s, a).nextId
    ensures s.posts <= Do(s, a).posts
    ensures forall k | |s.posts| <= k < |Do(s, a).posts| && Do(s, a).posts[k].ingress == ingress ::
              Do(s, a).posts[k].handler == owner
  {
    hide RunStep, Aggregate, IdempotencyKey;
    if a.Advance? {
      AdvanceOnlyPoster(s, a.id, a.choice, ingress, owner);
    }
  }

  lemma {:induction false} RunOnlyPoster(s: State, actions: seq<Action>, ingress: string, owner: nat)
    requires Sound(s) && OnlyPoster(s, ingress, owner) && owner < s.nextId
    requires AllEnabled(s, actions) && !Renewed(s, actions, ingress)
    ensures s.posts <= Exec(s, actions).posts
    ensures forall k | |s.posts| <= k < |Exec(s, actions).posts| && Exec(s, actions).posts[k].ingress == ingress ::
              Exec(s, actions).posts[k].handler == owner
    decreases |actions|
  {
    hide Enabled, Do, Sound, OnlyPoster, Renews;
    if actions != [] {
      StepSound(s, actions[0]);
      StepOnlyPoster(s, actions[0], ingress, owner);
      RunOnlyPoster(Do(s, actions[0]), actions[1..], ingress, owner);
    }
  }

  lemma {:induction false} ExecSplit(s: State, a: seq<Action>, b: seq<Action>)
    requires AllEnabled(s, a + b)
    ensures AllEnabled(s, a) && AllEnabled(Exec(s, a), b) && Exec(s, a + b) == Exec(Exec(s, a), b)
    ensures AllTimely(s, a + b) ==> AllTimely(s, a) && AllTimely(Exec(s, a), b)
    decreases |a|
  {
    hide Enabled, Do, Timely;
    if a == [] {
      assert a + b == b;
    } else {
      assert (a + b)[1..] == a[1..] + b;
      ExecSplit(Do(s, a[0]), a[1..], b);
    }
  }

  /** A step posts at most once, and then its handler is at work on that ingress. */
  lemma StepPosts(s: State, a: Action)
    requires Enabled(s, a)
    ensures s.posts <= Do(s, a).posts && |Do(s, a).posts| <= |s.posts| + 1
    ensures |Do(s, a).posts| == |s.posts| + 1 ==>
              var p := Do(s, a).posts[|s.posts|];
              p.handler in Do(s, a).handlers && Do(s, a).handlers[p.handler].ingress == p.ingress
  {
    hide RunStep, IdempotencyKey;
  }

  /** The moment right after the j-th post. */
  ghost predicate JustPosted(s: State, actions: seq<Action>, n: nat, j: nat) {
    && AllEnabled(s, actions) && n <= |actions| && AllEnabled(s, actions[..n])
    && var now, posts := Exec(s, actions[..n]), Exec(s, actions).posts;
       && j < |posts| && now.posts == posts[..j + 1]
       && posts[j].handler in now.handlers && now.handlers[posts[j].handler].ingress == posts[j].ingress
  }

  lemma {:induction false} FindPost(s: State, actions: seq<Action>, j: nat) returns (n: nat)
    requires AllEnabled(s, actions) && |s.posts| <= j < |Exec(s, actions).posts|
    ensures JustPosted(s, actions, n, j)
  {
    hide Enabled, Do, JustPosted;
    n := |actions| - 1;
    var before := actions[..n];
    assert actions == before + [actions[n]];
    ExecSplit(s, before, [actions[n]]);
    assert [actions[n]][1..] == [];
    StepPosts(Exec(s, before), actions[n]);
    if j < |Exec(s, before).posts| {
      n := FindPost(s, before, j);
      assert JustPosted(s, actions, n, j) by {
        PostedEarlier(s, before, actions, n, j);
      }
    } else {
      n := |actions|;
      assert actions[..n] == actions;
      LastPosted(s, actions, j);
    }
  }

  lemma PostedEarlier(s: State, before: seq<Action>, actions: seq<Action>, n: nat, j: nat)
    requires JustPosted(s, before, n, j) && AllEnabled(s, actions) && before <= actions
    requires Exec(s, before).posts <= Exec(s, actions).posts
    ensures JustPosted(s, actions, n, j)
  {
    hide AllEnabled, Exec;
    assert before[..n] == actions[..n];
  }

  lemma LastPosted(s: State, actions: seq<Action>, j: nat)
    requires AllEnabled(s, actions) && |Exec(s, actions).posts| == j + 1
    requires var now := Exec(s, actions); now.posts[j].handler in now.handlers && now.handlers[now.posts[j].handler].ingress == now.posts[j].ingress
    ensures JustPosted(s, actions, |actions|, j)
  {
    assert actions[..|actions|] == actions;
  }

  /** Over every timely run: when a message is posted for the second time, then either a retry took
      its receipt over, or the receipt was pruned, between the two posts; or both belong to one
      claim, in the order of its targets. */
  lemma SecondPostNeedsRetry(s: State, actions: seq<Action>, j: nat, k: nat) returns (n: nat, m: nat)
    requires Initial(s) && AllEnabled(s, actions) && AllTimely(s, actions)
    requires j < k < |Exec(s, actions).posts| && Exec(s, actions).posts[j].ingress == Exec(s, actions).posts[k].ingress
    ensures n <= m <= |actions| && JustPosted(s, actions, n, j) && JustPosted(s, actions, m, k)
    ensures AllEnabled(Exec(s, actions[..n]), actions[n..m])
    ensures var posts := Exec(s, actions).posts;
            Renewed(Exec(s, actions[..n]), actions[n..m], posts[j].ingress)
            || (posts[j].handler == posts[k].handler && posts[j].index < posts[k].index)
  {
    hide Enabled, Do, Timely, Renewed, OnlyPoster, Exclusive, Sound;
    var posts := Exec(s, actions).posts;
    assert Sound(s) && Exclusive(s) by { InitialIsSound(s); }
    n := FindPost(s, actions, j);
    m := FindPost(s, actions, k);
    if m < n {
      EarlierHasFewer(s, actions, m, n);
    }
    assert actions == actions[..m] + actions[m..] && actions[..m] == actions[..n] + actions[n..m];
    ExecSplit(s, actions[..m], actions[m..]);
    ExecSplit(s, actions[..n], actions[n..m]);
    var now, later := Exec(s, actions[..n]), Exec(s, actions[..m]);
    RunSound(s, actions[..n]);
    RunSound(s, actions[..m]);
    RunExclusive(s, actions[..n]);
    if !Renewed(now, actions[n..m], posts[j].ingress) {
      PosterIsAlone(now, posts[j]);
      RunOnlyPoster(now, actions[n..m], posts[j].ingress, posts[j].handler);
      assert later.posts[k] == posts[k] && later.posts[j] == posts[j];
      OneClaimInOrder(later, j, k);
    }
  }

  lemma InitialIsSound(s: State)
    requires Initial(s)
    ensures Sound(s) && Exclusive(s)
  {
  }

  lemma EarlierHasFewer(s: State, actions: seq<Action>, m: nat, n: nat)
    requires AllEnabled(s, actions) && m <= n <= |actions|
    ensures AllEnabled(s, actions[..m]) && AllEnabled(s, actions[..n])
    ensures |Exec(s, actions[..m]).posts| <= |Exec(s, actions[..n]).posts|
  {
    hide Enabled, Do;
    assert actions == actions[..n] + actions[n..] && actions[..n] == actions[..m] + actions[m..n];
    ExecSplit(s, actions[..n], actions[n..]);
    ExecSplit(s, actions[..m], actions[m..n]);
    PostsGrow(Exec(s, actions[..m]), actions[m..n]);
  }

  lemma {:induction false} PostsGrow(s: State, actions: seq<Action>)
    requires AllEnabled(s, actions)
    ensures s.posts <= Exec(s, actions).posts
    decreases |actions|
  {
    hide Enabled, Do;
    if actions != [] {
      StepPosts(s, actions[0]);
      PostsGrow(Do(s, actions[0]), actions[1..]);
    }
  }

  lemma PosterIsAlone(s: State, p: Post)
    requires Sound(s) && Exclusive(s) && p.handler in s.handlers && s.handlers[p.handler].ingress == p.ingress
    ensures OnlyPoster(s, p.ingress, p.handler) && p.handler < s.nextId
  {
  }

  lemma OneClaimInOrder(s: State, j: nat, k: nat)
    requires Sound(s) && j < k < |s.posts| && s.posts[j].handler == s.posts[k].handler
    ensures s.posts[j].index < s.posts[k].index
  {
  }

  // ---------------------------------------------------------------- one claim posts once to a session

  predicate DistinctSessions(targets: seq<Target>) {
    forall i, j | 0 <= i < j < |targets| :: targets[i].session != targets[j].session
  }

  predicate NamesOnce(a: Action) {
    a.Submit? ==> forall i, j | 0 <= i < j < |a.sessions| :: a.sessions[i] != a.sessions[j]
  }

  /** The entry a post was made for still shows its session. */
  predicate Shows(h: Handler, p: Post) {
    h.Delivering? && p.index < |h.run.current.targets| && h.run.current.targets[p.index].session == p.session
  }

  ghost predicate PostsShown(s: State) {
    && (forall id | id in s.handlers && s.handlers[id].Delivering? && s.handlers[id].run.envelopes != {} ::
          DistinctSessions(s.handlers[id].run.current.targets))
    && (forall p | p in s.posts && p.handler in s.handlers ::
          s.handlers[p.handler].Delivering? && s.handlers[p.handler].run.envelopes != {} && Shows(s.handlers[p.handler], p))
  }

  /** What a delivery step keeps of a run, and when it posts. */
  lemma StepKeepsSessions(run: Run, choice: Choice)
    requires Allowed(run, choice) && PhaseOk(run) && (run.envelopes == {} ==> run.phase in {Visit, Finished})
    ensures var st := RunStep(run, choice);
      && st.run.envelopes == run.envelopes && |st.run.current.targets| == |run.current.targets|
      && (forall i | 0 <= i < |run.current.targets| :: st.run.current.targets[i].session == run.current.targets[i].session)
      && (st.posted ==> run.envelopes != {} && run.index < |run.current.targets|)
  {
    RunStepAdvances(run, choice);
    if run.envelopes == {} {
      NoEnvelopeNoPost(run, choice);
    }
    SessionsKept(run.current, RunStep(run, choice).run.current);
    hide RunStep, Aggregate, StatusOk, Advances;
  }

  lemma AdvanceShown(s: State, id: nat, choice: Choice)
    requires Sound(s) && PostsShown(s) && Enabled(s, Advance(id, choice))
    ensures PostsShown(DoAdvance(s, id, choice))
  {
    assert HandlerOk(s.handlers[id]);
    StepKeepsSessions(s.handlers[id].run, choice);
    hide RunStep, Allowed, PhaseOk, KeyedTargets, HandlerOk, PostBehind, Sound;
  }

  lemma SessionsKept(a: Receipt, b: Receipt)
    requires Advances(a, b)
    ensures |a.targets| == |b.targets| && forall i | 0 <= i < |a.targets| :: a.targets[i].session == b.targets[i].session
  {
    assert forall i | 0 <= i < |a.targets| :: SameTarget(a.targets[i], b.targets[i]);
  }

  lemma StepShown(s: State, a: Action)
    requires Sound(s) && PostsShown(s) && Enabled(s, a) && NamesOnce(a)
    ensures PostsShown(Do(s, a))
  {
    if a.Advance? {
      AdvanceShown(s, a.id, a.choice);
    } else {
      hide RunStep, Aggregate, IdempotencyKey, KeyedTargets, PhaseOk;
    }
  }

  lemma {:induction false} RunShown(s: State, actions: seq<Action>)
    requires Sound(s) && PostsShown(s) && AllEnabled(s, actions) && forall a | a in actions :: NamesOnce(a)
    ensures PostsShown(Exec(s, actions))
    decreases |actions|
  {
    hide Enabled, Do, Sound, PostsShown, NamesOnce;
    if actions != [] {
      assert NamesOnce(actions[0]);
      StepSound(s, actions[0]);
      StepShown(s, actions[0]);
      RunShown(Do(s, actions[0]), actions[1..]);
    }
  }

  lemma ShownOnce(s: State, j: nat, k: nat)
    requires PostsShown(s) && j < |s.posts| && k < |s.posts| && s.posts[j].handler == s.posts[k].handler && s.posts[j].handler in s.handlers
    requires s.posts[j].index < s.posts[k].index
    ensures s.posts[j].session != s.posts[k].session
  {
    assert s.posts[j] in s.posts && s.posts[k] in s.posts;
  }

  /** Over every timely run whose claims name each session once: between two posts of one message
      to one session a retry took the receipt over, or it was pruned. */
  lemma RepeatedPostNeedsRetry(s: State, actions: seq<Action>, j: nat, k: nat) returns (n: nat, m: nat)
    requires Initial(s) && AllEnabled(s, actions) && AllTimely(s, actions) && forall a | a in actions :: NamesOnce(a)
    requires var posts := Exec(s, actions).posts;
             j < k < |posts| && posts[j].ingress == posts[k].ingress && posts[j].session == posts[k].session
    ensures n <= m <= |actions| && JustPosted(s, actions, n, j) && JustPosted(s, actions, m, k)
    ensures AllEnabled(Exec(s, actions[..n]), actions[n..m])
    ensures Renewed(Exec(s, actions[..n]), actions[n..m], Exec(s, actions).posts[j].ingress)
  {
    hide Enabled, Do, Renewed, NamesOnce, AllTimely;
    n, m := SecondPostNeedsRetry(s, actions, j, k);
    var posts, later := Exec(s, actions).posts, Exec(s, actions[..m]);
    if posts[j].handler == posts[k].handler && posts[j].index < posts[k].index {
      assert Sound(s) && PostsShown(s) by { InitialIsSound(s); }
      assert forall a | a in actions[..m] :: a in actions;
      RunShown(s, actions[..m]);
      assert later.posts[j] == posts[j] && later.posts[k] == posts[k];
      ShownOnce(later, j, k);
    }
  }

  // ---------------------------------------------------------------- a retry always can

  /** Nobody works on the ingress. */
  predicate Idle(s: State, ingress: string) {
    forall id | id in s.handlers :: s.handlers[id].ingress != ingress
  }

  /** From any state with a retriable receipt that nobody works on, a timely run posts the message
      again to whatever sessions the retry resolves first, under the same keys as ever. */
  lemma RetryPostsAgain(s: State, ingress: string, sessions: seq<string>) returns (after: seq<Action>)
    requires ingress in s.store && Reclaimable(s.store[ingress].status) && Idle(s, ingress)
    requires sessions != [] && sessions[0] != ""
    ensures AllEnabled(s, after) && AllTimely(s, after) && Prune(ingress) !in after
    ensures Exec(s, after).posts == s.posts + [Post(ingress, sessions[0], IdempotencyKey(ingress, sessions[0]), s.nextId, 0)]
  {
    hide IdempotencyKey, RunStep, Exec, AllEnabled, AllTimely;
    var id, base := s.nextId, s.store[ingress].(status := Processing, targets := []);
    assert AllEnabled(s, []) && AllTimely(s, []) && Exec(s, []) == s by { ExecNothing(s); }
    ExecAppend(s, [], BeginReclaim(ingress));
    after := [] + [BeginReclaim(ingress)];
    ExecAppend(s, after, FinishReclaim(id));
    after := after + [FinishReclaim(id)];
    var now := Exec(s, after);
    assert now.handlers == s.handlers[id := Claimed(ingress, base)] && now.posts == s.posts;
    assert !Locked(now, ingress);
    ExecAppend(s, after, TakeProcessLock(id));
    after := after + [TakeProcessLock(id)];
    after := SubmitAndPost(s, after, id, sessions);
  }

  lemma ExecNothing(s: State)
    ensures AllEnabled(s, []) && AllTimely(s, []) && Exec(s, []) == s
  {
  }

  /** A receipt at rest: nobody works on it, and neither a retry nor a recovery would take it up. */
  ghost predicate AtRest(s: State, ingress: string) {
    ingress in s.store && Idle(s, ingress) && !Reclaimable(s.store[ingress].status) && s.store[ingress].status != PendingDelivery
  }

  lemma StepAtRest(s: State, a: Action, ingress: string)
    requires AtRest(s, ingress) && Enabled(s, a) && a != Prune(ingress)
    ensures AtRest(Do(s, a), ingress) && s.posts <= Do(s, a).posts
    ensures forall k | |s.posts| <= k < |Do(s, a).posts| :: Do(s, a).posts[k].ingress != ingress
  {
    hide RunStep, IdempotencyKey, NewTargets;
  }

  lemma {:induction false} RestIsQuiet(s: State, actions: seq<Action>, ingress: string)
    requires AtRest(s, ingress) && AllEnabled(s, actions) && Prune(ingress) !in actions
    ensures s.posts <= Exec(s, actions).posts
    ensures forall k | |s.posts| <= k < |Exec(s, actions).posts| :: Exec(s, actions).posts[k].ingress != ingress
    decreases |actions|
  {
    hide Enabled, Do, AtRest;
    if actions != [] {
      StepAtRest(s, actions[0], ingress);
      RestIsQuiet(Do(s, actions[0]), actions[1..], ingress);
    }
  }

  /** Some timely continuation that keeps the receipt posts the message to the session. */
  ghost predicate CanPostAgain(s: State, ingress: string, session: string) {
    exists after: seq<Action> ::
      && AllEnabled(s, after) && AllTimely(s, after) && Prune(ingress) !in after
      && s.posts < Exec(s, after).posts
      && exists k | |s.posts| <= k < |Exec(s, after).posts| ::
           Exec(s, after).posts[k].ingress == ingress && Exec(s, after).posts[k].session == session
  }

  /** A claim that holds the process lock. */
  lemma FreshClaim(s: State, ingress: string) returns (actions: seq<Action>)
    requires ingress !in s.store && Idle(s, ingress)
    ensures AllEnabled(s, actions) && AllTimely(s, actions) && Prune(ingress) !in actions
    ensures var base := Receipt(Processing, PROTOCOL_VERSION, []);
            Exec(s, actions) == State(s.store[ingress := base], s.handlers[s.nextId := Routing(ingress, base)], s.nextId + 1, s.posts)
  {
    hide Exec, AllEnabled, AllTimely, RunStep;
    var base := Receipt(Processing, PROTOCOL_VERSION, []);
    ExecNothing(s);
    ExecAppend(s, [], Claim(ingress));
    actions := [] + [Claim(ingress)];
    var now := Exec(s, actions);
    assert now.handlers == s.handlers[s.nextId := Claimed(ingress, base)];
    assert !Locked(now, ingress);
    ExecAppend(s, actions, TakeProcessLock(s.nextId));
    actions := actions + [TakeProcessLock(s.nextId)];
    assert Exec(s, actions).handlers == s.handlers[s.nextId := Routing(ingress, base)];
  }

  /** From any state without a receipt for it, a message nobody works on is claimed and posted to
      whatever sessions are resolved first: to the service it is new. */
  lemma AbsentIsPosted(s: State, ingress: string, sessions: seq<string>) returns (after: seq<Action>)
    requires ingress !in s.store && Idle(s, ingress) && sessions != [] && sessions[0] != ""
    ensures AllEnabled(s, after) && AllTimely(s, after) && Prune(ingress) !in after
    ensures Exec(s, after).posts == s.posts + [Post(ingress, sessions[0], IdempotencyKey(ingress, sessions[0]), s.nextId, 0)]
  {
    hide IdempotencyKey, RunStep, Exec, AllEnabled, AllTimely;
    after := FreshClaim(s, ingress);
    after := SubmitAndPost(s, after, s.nextId, sessions);
  }

  /** Nobody is inside the delivery loop for the ingress. */
  predicate Undelivering(s: State, ingress: string) {
    forall id | id in s.handlers && s.handlers[id].ingress == ingress :: !s.handlers[id].Delivering?
  }

  lemma ClaimedPosts(s: State, actions: seq<Action>, id: nat, sessions: seq<string>) returns (after: seq<Action>)
    requires AllEnabled(s, actions) && AllTimely(s, actions) && sessions != [] && sessions[0] != ""
    requires var now := Exec(s, actions);
             id in now.handlers && now.handlers[id].Claimed? && !Locked(now, now.handlers[id].ingress) && Prune(now.handlers[id].ingress) !in actions
    ensures AllEnabled(s, after) && AllTimely(s, after)
    ensures var now, ingress := Exec(s, actions), Exec(s, actions).handlers[id].ingress;
            Prune(ingress) !in after
            && Exec(s, after).posts == now.posts + [Post(ingress, sessions[0], IdempotencyKey(ingress, sessions[0]), id, 0)]
  {
    hide IdempotencyKey, RunStep, Exec, AllEnabled, AllTimely;
    ExecAppend(s, actions, TakeProcessLock(id));
    after := actions + [TakeProcessLock(id)];
    after := SubmitAndPost(s, after, id, sessions);
  }

  /** A handler left over from before the message was settled can still be driven to a post, and
      no timely step has to wait for it. */
  lemma LeftoverPosts(s: State, ingress: string, sessions: seq<string>) returns (after: seq<Action>)
    requires !Idle(s, ingress) && Undelivering(s, ingress) && sessions != [] && sessions[0] != ""
    ensures AllEnabled(s, after) && AllTimely(s, after) && Prune(ingress) !in after
    ensures |Exec(s, after).posts| == |s.posts| + 1 && s.posts <= Exec(s, after).posts
    ensures var p := Exec(s, after).posts[|s.posts|];
            p.ingress == ingress && p.session == sessions[0] && p.key == IdempotencyKey(ingress, sessions[0]) && p.handler in s.handlers
  {
    hide IdempotencyKey, RunStep, Exec, AllEnabled, AllTimely;
    ExecNothing(s);
    if Locked(s, ingress) {
      var id :| id in s.handlers && s.handlers[id].ingress == ingress && HoldsProcessLock(s.handlers[id]);
      after := SubmitAndPost(s, [], id, sessions);
    } else {
      var id :| id in s.handlers && s.handlers[id].ingress == ingress;
      after := [];
      if s.handlers[id].Reclaiming? {
        ExecAppend(s, [], FinishReclaim(id));
        after := [] + [FinishReclaim(id)];
        assert !Locked(Exec(s, after), ingress);
      }
      after := ClaimedPosts(s, after, id, sessions);
    }
  }

  lemma PostedOnce(s: State, ingress: string, session: string, after: seq<Action>)
    requires AllEnabled(s, after) && AllTimely(s, after) && Prune(ingress) !in after
    requires |Exec(s, after).posts| == |s.posts| + 1 && s.posts <= Exec(s, after).posts
    requires var p := Exec(s, after).posts[|s.posts|]; p.ingress == ingress && p.session == session
    ensures CanPostAgain(s, ingress, session)
  {
    hide AllEnabled, AllTimely, Exec;
  }

  /** Exactly when a settled message can reach a session again: its stored status is one that a retry
      may take over ("partial_failed" is one, whatever the session got the first time), or some
      handler still holds an old claim on it, or it has no receipt any more. */
  lemma SettledCanPostAgain(s: State, ingress: string, session: string)
    requires ingress in s.store ==> s.store[ingress].status != PendingDelivery
    requires Undelivering(s, ingress) && session != ""
    ensures CanPostAgain(s, ingress, session) <==>
              ingress !in s.store || Reclaimable(s.store[ingress].status) || !Idle(s, ingress)
  {
    hide AllEnabled, AllTimely, Exec, IdempotencyKey, CanPostAgain;
    if !Idle(s, ingress) {
      var after := LeftoverPosts(s, ingress, [session]);
      PostedOnce(s, ingress, session, after);
    } else if ingress !in s.store {
      var after := AbsentIsPosted(s, ingress, [session]);
      PostedOnce(s, ingress, session, after);
    } else if Reclaimable(s.store[ingress].status) {
      var after := RetryPostsAgain(s, ingress, [session]);
      PostedOnce(s, ingress, session, after);
    } else {
      RestCannotPost(s, ingress, session);
    }
  }

  lemma RestCannotPost(s: State, ingress: string, session: string)
    requires AtRest(s, ingress)
    ensures !CanPostAgain(s, ingress, session)
  {
    hide AllEnabled, AllTimely, Exec, AtRest;
    if CanPostAgain(s, ingress, session) {
      var after: seq<Action> :| AllEnabled(s, after) && AllTimely(s, after) && Prune(ingress) !in after
        && s.posts < Exec(s, after).posts
        && exists k | |s.posts| <= k < |Exec(s, after).posts| ::
             Exec(s, after).posts[k].ingress == ingress && Exec(s, after).posts[k].session == session;
      RestIsQuiet(s, after, ingress);
    }
  }

  // ---------------------------------------------------------------- the runs themselves

  const BOTH: seq<string> := ["fred", "wilma"]

  /** The receipt after target `i` was submitted and answered. */
  function Served(r: Receipt, i: nat, status: TargetStatus): Receipt
    requires i < |r.targets|
  {
    PatchStatus(PatchStatus(r, i, Submitting), i, status)
  }

  /** Handler `id` posts to target `i`, gets its answer and goes on to the next. */
  lemma ServeTarget(s: State, actions: seq<Action>, id: nat, ingress: string, r: Receipt, i: nat, env: set<string>, status: TargetStatus)
    returns (more: seq<Action>)
    requires AllEnabled(s, actions) && AllTimely(s, actions) && i < |r.targets| && r.targets[i].status == Pending
    requires r.targets[i].session != "" && r.targets[i].session in env && (status == Delivered || status == Failed)
    requires id in Exec(s, actions).handlers && Exec(s, actions).handlers[id] == Delivering(ingress, Run(r, i, env, Visit))
    ensures AllEnabled(s, more) && AllTimely(s, more)
    ensures var now := Exec(s, actions);
      Exec(s, more) == State(now.store[ingress := Served(r, i, status)],
                             now.handlers[id := Delivering(ingress, Run(Served(r, i, status), i + 1, env, Visit))], now.nextId,
                             now.posts + [Post(ingress, r.targets[i].session, r.targets[i].key, id, i)])
  {
    hide Exec, AllEnabled, AllTimely, RunStep, PatchStatus, Allowed;
    more := PostTarget(s, actions, id, ingress, r, i, env);
    var sent, reply := PatchStatus(r, i, Submitting), if status == Delivered then Answered else Refused;
    assert |sent.targets| == |r.targets| by { PatchedLength(r, i, Submitting); }
    AnswerEnds(sent, i, env, status);
    more := AdvanceAppend(s, more, id, ingress, Run(sent, i, env, Posted), Got(reply), Step(Run(Served(r, i, status), i + 1, env, Visit), true, false));
  }

  lemma PatchedLength(r: Receipt, i: nat, status: TargetStatus)
    requires i < |r.targets|
    ensures |PatchStatus(r, i, status).targets| == |r.targets|
  {
  }

  /** One session is served and the other refuses. */
  lemma OneServedOneRefused() returns (actions: seq<Action>)
    ensures AllEnabled(EMPTY, actions) && AllTimely(EMPTY, actions)
    ensures var s := Exec(EMPTY, actions);
      && s.store.Keys == {"in-1"} && s.handlers == map[] && s.nextId == 1
      && s.store["in-1"].status == PartialFailed
      && s.posts == [Post("in-1", "fred", IdempotencyKey("in-1", "fred"), 0, 0), Post("in-1", "wilma", IdempotencyKey("in-1", "wilma"), 0, 1)]
  {
    hide Exec, AllEnabled, AllTimely, RunStep, IdempotencyKey, Served, NewTargets;
    var env, r := {"fred", "wilma"}, Pair(IdempotencyKey("in-1", "fred"), IdempotencyKey("in-1", "wilma"));
    actions := BothSubmitted();
    BothServed(r.targets[0].key, r.targets[1].key);
    var r1, r2 := Served(r, 0, Delivered), Served(Served(r, 0, Delivered), 1, Failed);
    actions := ServeTarget(EMPTY, actions, 0, "in-1", r, 0, env, Delivered);
    assert Exec(EMPTY, actions).handlers[0] == Delivering("in-1", Run(r1, 1, env, Visit));
    actions := ServeTarget(EMPTY, actions, 0, "in-1", r1, 1, env, Failed);
    assert Exec(EMPTY, actions).store == map["in-1" := r2];
    ExecAppend(EMPTY, actions, Leave(0));
    actions := actions + [Leave(0)];
  }

  function Pair(fredKey: string, wilmaKey: string): Receipt {
    Receipt(PendingDelivery, PROTOCOL_VERSION, [Target("fred", fredKey, Pending, "", ""), Target("wilma", wilmaKey, Pending, "", "")])
  }

  /** One claim has stored its two targets. */
  lemma BothSubmitted() returns (actions: seq<Action>)
    ensures AllEnabled(EMPTY, actions) && AllTimely(EMPTY, actions)
    ensures var r := Pair(IdempotencyKey("in-1", "fred"), IdempotencyKey("in-1", "wilma"));
            Exec(EMPTY, actions) == State(map["in-1" := r], map[0 := Delivering("in-1", Run(r, 0, {"fred", "wilma"}, Visit))], 1, [])
  {
    hide Exec, AllEnabled, AllTimely, RunStep, IdempotencyKey;
    actions := FreshClaim(EMPTY, "in-1");
    ExecAppend(EMPTY, actions, Action.Submit(0, BOTH));
    actions := actions + [Action.Submit(0, BOTH)];
    assert (set t | t in BOTH) == {"fred", "wilma"};
    assert NewTargets("in-1", BOTH) == Pair(IdempotencyKey("in-1", "fred"), IdempotencyKey("in-1", "wilma")).targets;
  }

  lemma BothServed(fredKey: string, wilmaKey: string)
    ensures var r := Pair(fredKey, wilmaKey);
            && |Served(r, 0, Delivered).targets| == 2 && Served(r, 0, Delivered).targets[1] == r.targets[1]
            && Served(Served(r, 0, Delivered), 1, Failed).status == PartialFailed
  {
    var r := Pair(fredKey, wilmaKey);
    hide Aggregate;
    var sent := PatchStatus(Served(r, 0, Delivered), 1, Submitting);
    var last := sent.targets[1 := sent.targets[1].(status := Failed)];
    assert |last| == 2 && last[0].status == Delivered && last[1].status == Failed;
    HalfFailed(last, sent.status);
  }

  /** The step after an answer that ends the target at once. */
  lemma AnswerEnds(r: Receipt, i: nat, env: set<string>, status: TargetStatus)
    requires i < |r.targets| && (status == Delivered || status == Failed)
    ensures var run, reply := Run(r, i, env, Posted), if status == Delivered then Answered else Refused;
            Allowed(run, Got(reply)) && RunStep(run, Got(reply)) == Step(Run(PatchStatus(r, i, status), i + 1, env, Visit), true, false)
  {
    hide Aggregate;
  }

  lemma HalfFailed(targets: seq<Target>, fallback: ReceiptStatus)
    requires |targets| == 2 && targets[0].status == Delivered && targets[1].status == Failed
    ensures Aggregate(targets, fallback) == PartialFailed
  {
    AggregateMeaning(targets, fallback);
    assert targets[0] in targets && targets[1] in targets;
  }

  /** A timely run in which a session that was served is posted to again, under the same key:
      the other session refused, and the retry starts over with both. */
  lemma PartialFailureResends() returns (first: seq<Action>, second: seq<Action>)
    ensures AllEnabled(EMPTY, first) && AllTimely(EMPTY, first)
    ensures AllEnabled(Exec(EMPTY, first), second) && AllTimely(Exec(EMPTY, first), second)
    ensures var before := Exec(EMPTY, first); var after := Exec(before, second);
      && "in-1" in before.store && before.store["in-1"].status == PartialFailed && |before.posts| == 2
      && |after.posts| == 3 && after.posts[2].session == after.posts[0].session == "fred"
      && after.posts[2].ingress == after.posts[0].ingress && after.posts[2].key == after.posts[0].key
  {
    hide Exec, AllEnabled, AllTimely, IdempotencyKey;
    first := OneServedOneRefused();
    second := RetryPostsAgain(Exec(EMPTY, first), "in-1", BOTH);
  }

  /** And one in which a delivered message is sent again because its receipt has been pruned. */
  lemma PrunedIsSentAgain() returns (first: seq<Action>, second: seq<Action>)
    ensures AllEnabled(EMPTY, first) && AllTimely(EMPTY, first)
    ensures AllEnabled(Exec(EMPTY, first), [Prune("in-1")] + second) && AllTimely(Exec(EMPTY, first), [Prune("in-1")] + second)
    ensures var before := Exec(EMPTY, first); var after := Exec(before, [Prune("in-1")] + second);
      && "in-1" in before.store && before.store["in-1"].status == AllDelivered && |before.posts| == 1
      && |after.posts| == 2 && after.posts[1].session == after.posts[0].session && after.posts[1].key == after.posts[0].key
  {
    hide Exec, AllEnabled, AllTimely, IdempotencyKey, RunStep;
    first := FreshClaim(EMPTY, "in-1");
    first := SubmitAndPost(EMPTY, first, 0, ["fred"]);
    first := AnswerAndLeave(EMPTY, first, 0, "in-1", Exec(EMPTY, first).handlers[0].run);
    var before := Exec(EMPTY, first);
    assert before.handlers == map[];
    assert Enabled(before, Prune("in-1")) && Timely(before, Prune("in-1"));
    var pruned := Do(before, Prune("in-1"));
    second := AbsentIsPosted(pruned, "in-1", ["fred"]);
    PrunedFirst(before, second);
  }

  lemma PrunedFirst(s: State, second: seq<Action>)
    requires Enabled(s, Prune("in-1")) && Timely(s, Prune("in-1"))
    requires AllEnabled(Do(s, Prune("in-1")), second) && AllTimely(Do(s, Prune("in-1")), second)
    ensures AllEnabled(s, [Prune("in-1")] + second) && AllTimely(s, [Prune("in-1")] + second)
    ensures Exec(s, [Prune("in-1")] + second) == Exec(Do(s, Prune("in-1")), second)
  {
    assert ([Prune("in-1")] + second)[1..] == second;
  }
}
