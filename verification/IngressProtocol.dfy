/** Every run of claims, retries, reclaims, crashes and recoveries over the stored
    receipts: handlers in flight, the store, and the log of POSTs that left.

    Source: discord/scripts/discord_gateway_service.py, `process_inbound_message` (bound
    rooms), `recover_pending_ingress_receipts` and the locks around them. */
module IngressProtocol {
  import opened IngressDelivery
  import opened IdempotencyKeys

  datatype Handler =
    | Reclaiming(ingress: string, observed: Receipt)  // holds the reclaim lock, has re-read the receipt
    | Claimed(ingress: string, base: Receipt)         // owns the claim, not yet the process lock
    | Routing(ingress: string, base: Receipt)         // holds the process lock, resolving targets
    | Delivering(ingress: string, run: Run)           // holds the process lock, inside the delivery loop

  predicate HoldsProcessLock(h: Handler) {
    h.Routing? || h.Delivering?
  }

  /** Handler ids are never reused, so an id names one claim (or one recovery pass). */
  datatype State = State(store: map<string, Receipt>, handlers: map<nat, Handler>, nextId: nat, posts: seq<Post>)

  datatype Action =
    | RejectAtDispatch(ingress: string, status: ReceiptStatus)
    | Claim(ingress: string)
    | BeginReclaim(ingress: string)
    | FinishReclaim(id: nat)
    | TakeProcessLock(id: nat)
    | Refuse(id: nat, status: ReceiptStatus)
    | Submit(id: nat, sessions: seq<string>)
    | StartRecovery(ingress: string)
    | ExpireLegacy(ingress: string)
    | Advance(id: nat, choice: Choice)
    | Leave(id: nat)
    | Prune(ingress: string)         // the receipt has passed its retention time
    | Crash

  /** The statuses a retry may take over; how old they have to be is left to the run. */
  predicate Reclaimable(s: ReceiptStatus) {
    s in {Processing, AllFailed, PartialFailed, FailedLookup, FailedClaimConflict, RejectedShuttingDown}
  }

  predicate Locked(s: State, ingress: string) {
    exists id | id in s.handlers :: s.handlers[id].ingress == ingress && HoldsProcessLock(s.handlers[id])
  }

  predicate HasActive(r: Receipt) {
    exists t | t in r.targets :: Active(t.status)
  }

  predicate Enabled(s: State, a: Action) {
    match a
    case RejectAtDispatch(ingress, status) => ingress !in s.store && (status.RejectedShuttingDown? || status.Closed?)
    case Claim(ingress) => ingress !in s.store
    case BeginReclaim(ingress) =>
      && ingress in s.store && Reclaimable(s.store[ingress].status)
      && forall id | id in s.handlers :: !(s.handlers[id].Reclaiming? && s.handlers[id].ingress == ingress)
    case FinishReclaim(id) => id in s.handlers && s.handlers[id].Reclaiming?
    case TakeProcessLock(id) => id in s.handlers && s.handlers[id].Claimed?
    case Refuse(id, status) => id in s.handlers && s.handlers[id].Routing? && (status.Closed? || status.FailedLookup?)
    case Submit(id, sessions) => id in s.handlers && s.handlers[id].Routing? && sessions != []
    case StartRecovery(ingress) =>
      && ingress in s.store && s.store[ingress].status == PendingDelivery && !Locked(s, ingress)
      && s.store[ingress].version == PROTOCOL_VERSION && HasActive(s.store[ingress])
    case ExpireLegacy(ingress) =>
      && ingress in s.store && s.store[ingress].status == PendingDelivery && !Locked(s, ingress)
      && !(s.store[ingress].version == PROTOCOL_VERSION && HasActive(s.store[ingress]))
    case Advance(id, choice) => id in s.handlers && s.handlers[id].Delivering? && Allowed(s.handlers[id].run, choice)
    case Leave(id) => id in s.handlers
    case Prune(ingress) => ingress in s.store
    case Crash => true
  }

  function NewTargets(ingress: string, sessions: seq<string>): (ts: seq<Target>)
    ensures |ts| == |sessions|
    ensures forall i | 0 <= i < |ts| :: ts[i] == Target(sessions[i], IdempotencyKey(ingress, sessions[i]), Pending, "", "")
  {
    seq(|sessions|, i requires 0 <= i < |sessions| => Target(sessions[i], IdempotencyKey(ingress, sessions[i]), Pending, "", ""))
  }

  /** The receipts a stale, uncorrelated one is expired to. */
  function Expired(r: Receipt): Receipt {
    Receipt(UnknownDelivery, r.version,
            seq(|r.targets|, i requires 0 <= i < |r.targets| =>
              if r.targets[i].status in {Delivered, Failed} then r.targets[i]
              else r.targets[i].(status := DeliveryUnknown)))
  }

  function Spawn(s: State, h: Handler): State {
    s.(handlers := s.handlers[s.nextId := h], nextId := s.nextId + 1)
  }

  function Store(s: State, ingress: string, r: Receipt): State {
    s.(store := s.store[ingress := r])
  }

  function Become(s: State, id: nat, h: Handler): State {
    s.(handlers := s.handlers[id := h])
  }

  function End(s: State, id: nat): State {
    s.(handlers := s.handlers - {id})
  }

  function Do(s: State, a: Action): State
    requires Enabled(s, a)
  {
    match a
    case RejectAtDispatch(ingress, status) => Store(s, ingress, Receipt(status, 0, []))
    case Claim(ingress) =>
      var base := Receipt(Processing, PROTOCOL_VERSION, []);
      Spawn(Store(s, ingress, base), Claimed(ingress, base))
    case BeginReclaim(ingress) => Spawn(s, Reclaiming(ingress, s.store[ingress]))
    case FinishReclaim(id) =>
      var h := s.handlers[id];
      var base := h.observed.(status := Processing, targets := []);
      Become(Store(s, h.ingress, base), id, Claimed(h.ingress, base))
    case TakeProcessLock(id) =>
      var h := s.handlers[id];
      if Locked(s, h.ingress) then End(s, id) else Become(s, id, Routing(h.ingress, h.base))
    case Refuse(id, status) =>
      var h := s.handlers[id];
      End(Store(s, h.ingress, h.base.(status := status, targets := [])), id)
    case Submit(id, sessions) =>
      var h := s.handlers[id];
      var r := Receipt(PendingDelivery, PROTOCOL_VERSION, NewTargets(h.ingress, sessions));
      Become(Store(s, h.ingress, r), id, Delivering(h.ingress, Run(r, 0, (set t | t in sessions), Visit)))
    case StartRecovery(ingress) => Spawn(s, Delivering(ingress, Run(s.store[ingress], 0, {}, Visit)))
    case ExpireLegacy(ingress) => Store(s, ingress, Expired(s.store[ingress]))
    case Advance(id, choice) => DoAdvance(s, id, choice)
    case Leave(id) => End(s, id)
    case Prune(ingress) => s.(store := s.store - {ingress})
    case Crash => s.(handlers := map[])
  }

  function DoAdvance(s: State, id: nat, choice: Choice): State
    requires Enabled(s, Advance(id, choice))
  {
    var h := s.handlers[id];
    var st := RunStep(h.run, choice);
    State(if st.saved then s.store[h.ingress := st.run.current] else s.store,
          s.handlers[id := Delivering(h.ingress, st.run)],
          s.nextId,
          if st.posted && h.run.index < |h.run.current.targets|
          then s.posts + [PostOf(id, h)] else s.posts)
  }

  function PostOf(id: nat, h: Handler): Post
    requires h.Delivering? && h.run.index < |h.run.current.targets|
  {
    var t := h.run.current.targets[h.run.index];
    Post(h.ingress, t.session, t.key, id, h.run.index)
  }

  predicate AllEnabled(s: State, actions: seq<Action>)
    decreases |actions|
  {
    actions != [] ==> Enabled(s, actions[0]) && AllEnabled(Do(s, actions[0]), actions[1..])
  }

  function Exec(s: State, actions: seq<Action>): State
    requires AllEnabled(s, actions)
    decreases |actions|
  {
    if actions == [] then s else Exec(Do(s, actions[0]), actions[1..])
  }

  // ---------------------------------------------------------------- what holds without any timing assumption

  predicate KeyedTargets(ingress: string, targets: seq<Target>) {
    forall t | t in targets :: t.key == IdempotencyKey(ingress, t.session)
  }

  predicate HandlerOk(h: Handler) {
    h.Delivering? ==>
      && PhaseOk(h.run)
      && (h.run.envelopes == {} ==> h.run.phase in {Visit, Finished})
      && (h.run.envelopes != {} ==> KeyedTargets(h.ingress, h.run.current.targets))
  }

  /** A post of a live handler is behind that handler's loop index. */
  predicate PostBehind(p: Post, h: Handler) {
    && h.Delivering? && p.ingress == h.ingress
    && (p.index < h.run.index || (p.index == h.run.index && h.run.phase !in {Visit, Calling}))
  }

  ghost predicate Sound(s: State) {
    && (forall id | id in s.handlers :: id < s.nextId && HandlerOk(s.handlers[id]))
    && (forall p | p in s.posts :: p.key == IdempotencyKey(p.ingress, p.session) && p.handler < s.nextId)
    && (forall p | p in s.posts && p.handler in s.handlers :: PostBehind(p, s.handlers[p.handler]))
    && (forall j, k | 0 <= j < k < |s.posts| && s.posts[j].handler == s.posts[k].handler :: s.posts[j].index < s.posts[k].index)
  }

  lemma AdvanceSound(s: State, id: nat, choice: Choice)
    requires Sound(s) && Enabled(s, Advance(id, choice))
    ensures Sound(DoAdvance(s, id, choice))
  {
    hide Aggregate;
    var h := s.handlers[id];
    var st := RunStep(h.run, choice);
    RunStepAdvances(h.run, choice);
    if h.run.envelopes == {} {
      NoEnvelopeNoPost(h.run, choice);
    }
    forall t | t in st.run.current.targets && h.run.envelopes != {} ensures t.key == IdempotencyKey(h.ingress, t.session) {
      var i :| 0 <= i < |st.run.current.targets| && st.run.current.targets[i] == t;
      assert SameTarget(h.run.current.targets[i], t);
      assert h.run.current.targets[i] in h.run.current.targets;
    }
    assert HandlerOk(Delivering(h.ingress, st.run));
    AdvancePosts(s, id, choice);
  }

  lemma AdvancePosts(s: State, id: nat, choice: Choice)
    requires Sound(s) && Enabled(s, Advance(id, choice))
    requires StepOk(s.handlers[id].run, RunStep(s.handlers[id].run, choice))
    requires s.handlers[id].run.envelopes == {} ==> !RunStep(s.handlers[id].run, choice).posted
    ensures var s' := DoAdvance(s, id, choice);
      && (forall p | p in s'.posts :: p.key == IdempotencyKey(p.ingress, p.session) && p.handler < s'.nextId)
      && (forall p | p in s'.posts && p.handler in s'.handlers :: PostBehind(p, s'.handlers[p.handler]))
      && (forall j, k | 0 <= j < k < |s'.posts| && s'.posts[j].handler == s'.posts[k].handler :: s'.posts[j].index < s'.posts[k].index)
  {
    hide Aggregate, Advances, StatusOk;
  }

  lemma StepSound(s: State, a: Action)
    requires Sound(s) && Enabled(s, a)
    ensures Sound(Do(s, a))
  {
    hide Aggregate, RunStep, IdempotencyKey;
    if a.Advance? {
      AdvanceSound(s, a.id, a.choice);
    }
  }

  predicate Initial(s: State) {
    && s.handlers == map[] && s.posts == []
    && forall ingress | ingress in s.store :: StoredOk(s.store[ingress])
  }

  lemma {:induction false} RunSound(s: State, actions: seq<Action>)
    requires Sound(s) && AllEnabled(s, actions)
    ensures Sound(Exec(s, actions))
    decreases |actions|
  {
    if actions != [] {
      StepSound(s, actions[0]);
      RunSound(Do(s, actions[0]), actions[1..]);
    }
  }

  /** Over every run, reclaims and crashes included: each POST for a session carries the
      key of its (ingress, session) pair, and no claim posts the same target entry twice. */
  lemma PostsKeyedOncePerClaim(s: State, actions: seq<Action>)
    requires Initial(s) && AllEnabled(s, actions)
    ensures var posts := Exec(s, actions).posts;
      && (forall p | p in posts :: p.key == IdempotencyKey(p.ingress, p.session))
      && (forall j, k | 0 <= j < k < |posts| :: posts[j].handler != posts[k].handler || posts[j].index != posts[k].index)
  {
    RunSound(s, actions);
  }

  // ---------------------------------------------------------------- with dead stale claimants

  /** A version 2 receipt in the store: its status is the aggregate of its targets. */
  predicate StoredOk(r: Receipt) {
    r.version == PROTOCOL_VERSION ==> StatusOk(r) && (r.status == PendingDelivery ==> r.targets != [])
  }

  /** The assumption behind STALE_PROCESSING_RECEIPT_SECONDS and CHAT_INGRESS_RETENTION_SECONDS:
      nothing of the old attempt is still running when a retry takes a receipt over, or when
      it is pruned. */
  predicate Timely(s: State, a: Action) {
    a.BeginReclaim? || a.Prune? ==> forall id | id in s.handlers :: s.handlers[id].ingress != a.ingress
  }

  predicate AllTimely(s: State, actions: seq<Action>)
    requires AllEnabled(s, actions)
    decreases |actions|
  {
    actions != [] ==> Timely(s, actions[0]) && AllTimely(Do(s, actions[0]), actions[1..])
  }

  /** What the store holds for a receipt somebody is working on. */
  predicate InStep(h: Handler, r: Receipt) {
    match h
    case Reclaiming(_, observed) => observed == r && Reclaimable(r.status)
    case Claimed(_, base) => base == r && r.status == Processing && r.targets == []
    case Routing(_, base) => base == r && r.status == Processing && r.targets == []
    case Delivering(_, run) => run.current == r && PhaseOk(run) && r.version == PROTOCOL_VERSION && r.targets != []
  }

  ghost predicate Exclusive(s: State) {
    && (forall id | id in s.handlers ::
          id < s.nextId && s.handlers[id].ingress in s.store && InStep(s.handlers[id], s.store[s.handlers[id].ingress]))
    && (forall i, j | i in s.handlers && j in s.handlers && i != j :: s.handlers[i].ingress != s.handlers[j].ingress)
    && (forall ingress | ingress in s.store :: StoredOk(s.store[ingress]))
  }

  /** The only ways a stored receipt ever changes: targets move up, a finished failure is
      taken over for a retry, or the owner of a fresh claim writes its decision. */
  ghost predicate Moves(a: Receipt, b: Receipt) {
    || Advances(a, b)
    || (Reclaimable(a.status) && b.status == Processing && b.targets == [])
    || (a.status == Processing && a.targets == [] && (b.targets == [] || forall t | t in b.targets :: t.status == Pending))
  }

  lemma FreshAggregate(ingress: string, sessions: seq<string>)
    requires sessions != []
    ensures StoredOk(Receipt(PendingDelivery, PROTOCOL_VERSION, NewTargets(ingress, sessions)))
  {
    var ts := NewTargets(ingress, sessions);
    assert ts[0] in ts && Active(ts[0].status);
  }

  /** A handler's run goes on: the store follows it, and nobody else is concerned. */
  lemma FollowExclusive(s: State, s': State, id: nat, run: Run)
    requires Exclusive(s) && id in s.handlers && s.handlers[id].Delivering?
    requires var ingress := s.handlers[id].ingress;
      && s'.store == s.store[ingress := run.current] && s'.nextId == s.nextId
      && s'.handlers == s.handlers[id := Delivering(ingress, run)]
      && InStep(Delivering(ingress, run), run.current) && StoredOk(run.current)
    ensures Exclusive(s')
  {
    hide StoredOk, InStep;
  }

  lemma AdvanceExclusive(s: State, id: nat, choice: Choice)
    requires Exclusive(s) && Enabled(s, Advance(id, choice))
    ensures Exclusive(DoAdvance(s, id, choice))
    ensures var h := s.handlers[id]; Advances(s.store[h.ingress], DoAdvance(s, id, choice).store[h.ingress])
    ensures RunStep(s.handlers[id].run, choice).posted ==> SavedSubmitting(s.store[s.handlers[id].ingress], s.handlers[id].run.index)
  {
    hide Aggregate, RunStep;
    var h := s.handlers[id];
    RunStepAdvances(h.run, choice);
    var st := RunStep(h.run, choice);
    var s' := DoAdvance(s, id, choice);
    assert InStep(h, s.store[h.ingress]) && StoredOk(s.store[h.ingress]);
    assert s'.store == s.store[h.ingress := st.run.current];
    assert StoredOk(st.run.current) && InStep(Delivering(h.ingress, st.run), st.run.current);
    hide Exclusive;
    FollowExclusive(s, s', id, st.run);
  }

  lemma ExpiredAdvances(r: Receipt)
    ensures Advances(r, Expired(r))
  {
  }

  lemma NobodyOn(s: State, ingress: string)
    requires Exclusive(s)
    requires ingress in s.store ==> s.store[ingress].status == PendingDelivery && !Locked(s, ingress)
    ensures forall id | id in s.handlers :: s.handlers[id].ingress != ingress
  {
    hide StoredOk, PhaseOk;
    forall id | id in s.handlers ensures s.handlers[id].ingress != ingress {
      assert InStep(s.handlers[id], s.store[s.handlers[id].ingress]);
    }
  }

  /** Handler `id` (new or old) is the only one on `ingress`, and the store agrees with it. */
  lemma PlaceExclusive(s: State, s': State, ingress: string, r: Receipt, id: nat, h: Handler)
    requires Exclusive(s) && forall i | i in s.handlers && i != id :: s.handlers[i].ingress != ingress
    requires s'.store == s.store[ingress := r] && s'.handlers == s.handlers[id := h] && id < s'.nextId && s.nextId <= s'.nextId
    requires h.ingress == ingress && InStep(h, r) && StoredOk(r)
    ensures Exclusive(s')
  {
    hide StoredOk, InStep;
  }

  /** Nobody is left on `ingress`, whatever is stored for it. */
  lemma VacateExclusive(s: State, s': State, ingress: string, r: Receipt)
    requires Exclusive(s) && s'.handlers.Keys <= s.handlers.Keys && s'.nextId == s.nextId
    requires forall id | id in s'.handlers :: s'.handlers[id] == s.handlers[id] && s'.handlers[id].ingress != ingress
    requires s'.store == s.store[ingress := r] && StoredOk(r)
    ensures Exclusive(s')
  {
    hide StoredOk, InStep;
  }

  lemma ClaimExclusive(s: State, a: Action)
    requires Exclusive(s) && Enabled(s, a) && Timely(s, a)
    requires a.RejectAtDispatch? || a.Claim? || a.BeginReclaim? || a.FinishReclaim?
    ensures Exclusive(Do(s, a))
  {
    hide Aggregate, RunStep, IdempotencyKey, Advances, NewTargets;
    var s' := Do(s, a);
    match a {
      case RejectAtDispatch(ingress, status) =>
        NobodyOn(s, ingress);
        VacateExclusive(s, s', ingress, s'.store[ingress]);
      case Claim(ingress) =>
        NobodyOn(s, ingress);
        PlaceExclusive(s, s', ingress, s'.store[ingress], s.nextId, s'.handlers[s.nextId]);
      case BeginReclaim(ingress) =>
        PlaceExclusive(s, s', ingress, s.store[ingress], s.nextId, s'.handlers[s.nextId]);
      case FinishReclaim(id) =>
        var ingress := s.handlers[id].ingress;
        PlaceExclusive(s, s', ingress, s'.store[ingress], id, s'.handlers[id]);
    }
  }

  lemma RouteExclusive(s: State, a: Action)
    requires Exclusive(s) && Enabled(s, a) && Timely(s, a)
    requires a.TakeProcessLock? || a.Refuse? || a.Submit?
    ensures Exclusive(Do(s, a))
  {
    hide Aggregate, RunStep, IdempotencyKey, Advances, NewTargets;
    var s', ingress := Do(s, a), s.handlers[a.id].ingress;
    match a {
      case TakeProcessLock(id) =>
        assert !Locked(s, ingress);
        PlaceExclusive(s, s', ingress, s.store[ingress], id, s'.handlers[id]);
      case Refuse(id, status) =>
        VacateExclusive(s, s', ingress, s'.store[ingress]);
      case Submit(id, sessions) =>
        FreshAggregate(ingress, sessions);
        PlaceExclusive(s, s', ingress, s'.store[ingress], id, s'.handlers[id]);
    }
  }

  lemma RecoverExclusive(s: State, a: Action)
    requires Exclusive(s) && Enabled(s, a) && Timely(s, a)
    requires a.StartRecovery? || a.ExpireLegacy? || a.Leave? || a.Prune? || a.Crash?
    ensures Exclusive(Do(s, a))
  {
    hide Aggregate, RunStep, IdempotencyKey, Advances, NewTargets;
    var s' := Do(s, a);
    match a {
      case StartRecovery(ingress) =>
        NobodyOn(s, ingress);
        PlaceExclusive(s, s', ingress, s.store[ingress], s.nextId, s'.handlers[s.nextId]);
      case ExpireLegacy(ingress) =>
        NobodyOn(s, ingress);
        if s.store[ingress].version == PROTOCOL_VERSION {
          PendingHasActive(s.store[ingress]);
        }
        VacateExclusive(s, s', ingress, s'.store[ingress]);
      case Leave(id) =>
      case Prune(ingress) =>
      case Crash =>
    }
  }

  lemma StepExclusive(s: State, a: Action)
    requires Exclusive(s) && Enabled(s, a) && Timely(s, a)
    ensures Exclusive(Do(s, a))
  {
    hide Exclusive, Enabled, Timely, DoAdvance;
    match a {
      case RejectAtDispatch(_, _) | Claim(_) | BeginReclaim(_) | FinishReclaim(_) => ClaimExclusive(s, a);
      case TakeProcessLock(_) | Refuse(_, _) | Submit(_, _) => RouteExclusive(s, a);
      case StartRecovery(_) | ExpireLegacy(_) | Leave(_) | Prune(_) | Crash => RecoverExclusive(s, a);
      case Advance(id, choice) => AdvanceExclusive(s, id, choice);
    }
  }

  /** "pending" on a version 2 receipt means work is left, so the expiry branch is only ever
      taken for receipts of an older protocol. */
  lemma PendingHasActive(r: Receipt)
    requires StoredOk(r) && r.version == PROTOCOL_VERSION && r.status == PendingDelivery
    ensures HasActive(r)
  {
    AggregateMeaning(r.targets, r.status);
  }

  /** One step under the timing assumption, receipt by receipt: a stored receipt is pruned or only
      makes one of the moves above, and a POST leaves only while "submitting" is stored for it. */
  lemma StepMoves(s: State, a: Action, ingress: string)
    requires Exclusive(s) && Enabled(s, a) && Timely(s, a) && ingress in s.store
    ensures a == Prune(ingress) || (ingress in Do(s, a).store && Moves(s.store[ingress], Do(s, a).store[ingress]))
    ensures s.posts <= Do(s, a).posts && |Do(s, a).posts| <= |s.posts| + 1
    ensures Do(s, a).posts != s.posts ==>
              var p := Do(s, a).posts[|s.posts|];
              && a.Advance? && s.handlers[a.id].run.phase == Calling && p.handler == a.id
              && p.ingress in s.store && SavedSubmitting(s.store[p.ingress], p.index)
  {
    hide Aggregate, RunStep, IdempotencyKey;
    if a.Advance? {
      AdvanceExclusive(s, a.id, a.choice);
      RunStepAdvances(s.handlers[a.id].run, a.choice);
    } else if a.ExpireLegacy? {
      ExpiredAdvances(s.store[a.ingress]);
    }
  }

  /** Delivered for everybody, or unknown: nothing may be sent again. */
  predicate Concluded(r: Receipt) {
    r.status in {AllDelivered, UnknownDelivery}
  }

  lemma ConcludedQuiet(run: Run, c: Choice)
    requires Allowed(run, c) && PhaseOk(run) && StatusOk(run.current) && run.current.targets != [] && Concluded(run.current)
    ensures RunStep(run, c).run.current == run.current && !RunStep(run, c).posted
  {
    AggregateMeaning(run.current.targets, run.current.status);
    if run.index < |run.current.targets| {
      assert run.current.targets[run.index] in run.current.targets;
      if run.phase == TerminalFailed {
        assert run.current.targets[run.index := run.current.targets[run.index]] == run.current.targets;
      }
    }
  }

  lemma StepConcluded(s: State, a: Action, ingress: string)
    requires Exclusive(s) && Enabled(s, a) && Timely(s, a)
    requires ingress in s.store && Concluded(s.store[ingress]) && a != Prune(ingress)
    ensures var s' := Do(s, a);
      && ingress in s'.store && s'.store[ingress] == s.store[ingress]
      && s.posts <= s'.posts && forall k | |s.posts| <= k < |s'.posts| :: s'.posts[k].ingress != ingress
  {
    hide Aggregate, RunStep, IdempotencyKey, StatusOk;
    if a.Advance? && s.handlers[a.id].ingress == ingress {
      assert InStep(s.handlers[a.id], s.store[ingress]);
      ConcludedQuiet(s.handlers[a.id].run, a.choice);
    }
  }

  /** Over every run from there on until it is pruned: a delivered or delivery_unknown receipt is
      never reset, never rewritten and never sent again. */
  lemma {:induction false} ConcludedForever(s: State, actions: seq<Action>, ingress: string)
    requires Exclusive(s) && AllEnabled(s, actions) && AllTimely(s, actions)
    requires ingress in s.store && Concluded(s.store[ingress]) && Prune(ingress) !in actions
    ensures var s' := Exec(s, actions);
      && ingress in s'.store && s'.store[ingress] == s.store[ingress]
      && s.posts <= s'.posts && forall k | |s.posts| <= k < |s'.posts| :: s'.posts[k].ingress != ingress
    decreases |actions|
  {
    hide Enabled, Do, Timely, Exclusive, Concluded;
    if actions != [] {
      StepExclusive(s, actions[0]);
      StepConcluded(s, actions[0], ingress);
      ConcludedForever(Do(s, actions[0]), actions[1..], ingress);
    }
  }

  /** Over every timely run: at most one handler per ingress, the store agrees with it, and
      every stored version 2 receipt carries the aggregate of its targets. */
  lemma {:induction false} RunExclusive(s: State, actions: seq<Action>)
    requires Exclusive(s) && AllEnabled(s, actions) && AllTimely(s, actions)
    ensures Exclusive(Exec(s, actions))
    decreases |actions|
  {
    hide Enabled, Do, Timely, Exclusive;
    if actions != [] {
      StepExclusive(s, actions[0]);
      RunExclusive(Do(s, actions[0]), actions[1..]);
    }
  }

  lemma StoredStatusIsAggregate(s: State, actions: seq<Action>, ingress: string)
    requires Initial(s) && AllEnabled(s, actions) && AllTimely(s, actions)
    requires ingress in Exec(s, actions).store && Exec(s, actions).store[ingress].version == PROTOCOL_VERSION
    ensures var r := Exec(s, actions).store[ingress];
      r.targets != [] ==> r.status == Aggregate(r.targets, r.status)
  {
    hide Aggregate;
    RunExclusive(s, actions);
  }

  /** Crash and recovery alone never post: as long as no message is claimed and routed anew,
      nothing is sent, whatever recovery passes, expiries and crashes happen. */
  lemma {:induction false} RecoveryOnlyRunsNeverPost(s: State, actions: seq<Action>)
    requires Sound(s) && AllEnabled(s, actions)
    requires forall id | id in s.handlers && s.handlers[id].Delivering? :: s.handlers[id].run.envelopes == {}
    requires forall a | a in actions :: !a.Submit?
    ensures Exec(s, actions).posts == s.posts
    decreases |actions|
  {
    hide Aggregate, IdempotencyKey;
    if actions != [] {
      var a := actions[0];
      StepSound(s, a);
      if a.Advance? {
        NoEnvelopeNoPost(s.handlers[a.id].run, a.choice);
      }
      RecoveryOnlyRunsNeverPost(Do(s, a), actions[1..]);
    }
  }
}
