/** The delivery of one Discord message to its sessions: the persisted ingress
    receipt, the step machine of a handler working through the receipt's targets,
    and the loop that drives it.

    Source: discord/scripts/discord_gateway_service.py (receipts, delivery, recovery)
    and discord/scripts/discord_intake_common.py (`deliver_session_message`). */
module IngressDelivery {
  const PROTOCOL_VERSION: nat := 2

  datatype TargetStatus = Pending | Submitting | AwaitingResult | Delivered | Failed | DeliveryUnknown

  datatype Target = Target(session: string, key: string, status: TargetStatus,
                           requestId: string, eventCursor: string)

  datatype ReceiptStatus =
    | Processing
    | PendingDelivery
    | AllDelivered
    | PartialFailed
    | AllFailed
    | UnknownDelivery
    | FailedLookup
    | FailedClaimConflict
    | RejectedShuttingDown
    | Closed(reason: string)  // every other refusal: policy, unbound, untargeted, overloaded, ...

  datatype Receipt = Receipt(status: ReceiptStatus, version: nat, targets: seq<Target>)

  /** One POST to a session, as the session service sees it. `handler` and `index`
      say which claim sent it and for which target entry. */
  datatype Post = Post(ingress: string, session: string, key: string, handler: nat, index: nat)

  // ---------------------------------------------------------------- aggregate status

  predicate Active(s: TargetStatus) {
    s == Pending || s == Submitting || s == AwaitingResult
  }

  predicate Terminal(s: TargetStatus) {
    !Active(s)
  }

  function CountFailed(targets: seq<Target>): nat {
    if targets == [] then 0
    else (if targets[0].status == Failed then 1 else 0) + CountFailed(targets[1..])
  }

  /** `ingress_delivery_status`. */
  function Aggregate(targets: seq<Target>, fallback: ReceiptStatus): ReceiptStatus {
    if targets == [] then fallback
    else if exists t | t in targets :: Active(t.status) then PendingDelivery
    else if exists t | t in targets :: t.status == DeliveryUnknown then UnknownDelivery
    else if CountFailed(targets) == 0 then AllDelivered
    else if CountFailed(targets) < |targets| then PartialFailed
    else AllFailed
  }

  lemma {:induction false} CountFailedBounds(targets: seq<Target>)
    ensures CountFailed(targets) <= |targets|
    ensures CountFailed(targets) == 0 <==> forall t | t in targets :: t.status != Failed
    ensures CountFailed(targets) == |targets| <==> forall t | t in targets :: t.status == Failed
  {
    if targets != [] {
      CountFailedBounds(targets[1..]);
      assert targets == [targets[0]] + targets[1..];
    }
  }

  /** What each aggregate status promises about the individual targets. */
  lemma AggregateMeaning(targets: seq<Target>, fallback: ReceiptStatus)
    requires targets != []
    ensures var a := Aggregate(targets, fallback);
      && (a == PendingDelivery <==> exists t | t in targets :: Active(t.status))
      && (a == AllDelivered <==> forall t | t in targets :: t.status == Delivered)
      && (a == AllFailed <==> forall t | t in targets :: t.status == Failed)
      && (a == UnknownDelivery <==>
            ((forall t | t in targets :: Terminal(t.status)) && (exists t | t in targets :: t.status == DeliveryUnknown)))
      && (a == PartialFailed <==>
            ((forall t | t in targets :: t.status == Delivered || t.status == Failed)
            && (exists t | t in targets :: t.status == Delivered)
            && (exists t | t in targets :: t.status == Failed)))
  {
    CountFailedBounds(targets);
    assert targets[0] in targets;
  }

  // ---------------------------------------------------------------- the order of target states

  function Rank(s: TargetStatus): nat {
    match s
    case Pending => 0
    case Submitting => 1
    case AwaitingResult => 2
    case _ => 3
  }

  /** Strictly upward, or unchanged: a terminal status can only stay itself. */
  predicate Upward(a: TargetStatus, b: TargetStatus) {
    a == b || Rank(a) < Rank(b)
  }

  predicate SameTarget(a: Target, b: Target) {
    a.session == b.session && a.key == b.key && Upward(a.status, b.status)
  }

  /** Same entries, every status moved only upward. */
  ghost predicate Advances(a: Receipt, b: Receipt) {
    && a.version == b.version
    && |a.targets| == |b.targets|
    && forall i | 0 <= i < |a.targets| :: SameTarget(a.targets[i], b.targets[i])
  }

  // ---------------------------------------------------------------- persisting one target

  /** `persist_ingress_target_patch`: replace one entry and recompute the receipt status. */
  function Patch(r: Receipt, i: nat, t: Target): (p: Receipt)
    requires i < |r.targets|
  {
    var targets := r.targets[i := t];
    r.(targets := targets, status := Aggregate(targets, r.status))
  }

  function PatchStatus(r: Receipt, i: nat, s: TargetStatus): Receipt
    requires i < |r.targets|
  {
    Patch(r, i, r.targets[i].(status := s))
  }

  /** Where a lost or cancelled wait leaves a target: still resumable if a request id
      was recorded, unknown otherwise. */
  function AfterLostWait(t: Target): TargetStatus {
    if t.requestId != "" then AwaitingResult else DeliveryUnknown
  }

  // ---------------------------------------------------------------- one handler as a step machine

  /** How waiting for an accepted request can end. */
  datatype Wait = Succeeded | RequestFailed | ResultUnknown | WaitCancelled

  /** How the POST can be answered. `NoAnswer` covers transport errors and a 202 without
      correlation ids, `Refused` every other API error. */
  datatype Reply = Answered | Refused | NoAnswer | Accepted(requestId: string, eventCursor: string)

  datatype Choice = Go | Cancel | Got(reply: Reply) | Ended(wait: Wait)

  datatype Phase =
    | Visit            // loop head, looking at target `index`
    | Calling          // "submitting" is saved, `deliver_session_message` is entered
    | Posted           // the POST is out
    | AwaitingTerminal // the acceptance is saved, the event stream is open
    | TerminalFailed   // the failure terminal is saved, its exception is on the way up
    | Finished

  datatype Run = Run(current: Receipt, index: nat, envelopes: set<string>, phase: Phase)

  /** A step's new run, the receipt it saved (if any) and whether it sent the POST. */
  datatype Step = Step(run: Run, saved: bool, posted: bool)

  predicate Correlated(t: Target) {
    t.requestId != "" && t.eventCursor != ""
  }

  predicate Allowed(run: Run, c: Choice) {
    match run.phase
    case Visit =>
      if run.index >= |run.current.targets| then c == Go
      else if c == Cancel then true
      else
        var t := run.current.targets[run.index];
        if t.status == AwaitingResult && Correlated(t) then c.Ended? else c == Go
    case Calling => run.index < |run.current.targets| && (c == Go || c == Cancel)
    case Posted => run.index < |run.current.targets| && c.Got?
                   && (c.reply.Accepted? ==> c.reply.requestId != "" && c.reply.eventCursor != "")
    case AwaitingTerminal => run.index < |run.current.targets| && c.Ended?
    case TerminalFailed => run.index < |run.current.targets| && c == Go
    case Finished => false
  }

  function Save(run: Run, s: TargetStatus, phase: Phase): Step
    requires run.index < |run.current.targets|
  {
    var next := if phase == Visit then run.index + 1 else run.index;
    Step(run.(current := PatchStatus(run.current, run.index, s), index := next, phase := phase), true, false)
  }

  /** Looking at one target: `resume_ingress_delivery`, head of the loop body. */
  function VisitStep(run: Run, c: Choice): Step
    requires run.phase == Visit && Allowed(run, c)
  {
    if run.index >= |run.current.targets| || c == Cancel then Step(run.(phase := Finished), false, false)
    else
      var t := run.current.targets[run.index];
      match t.status
      case Submitting => Save(run, DeliveryUnknown, Visit)
      case Pending =>
        if t.session == "" || t.session !in run.envelopes then Save(run, DeliveryUnknown, Visit)
        else Save(run, Submitting, Calling)
      case AwaitingResult =>
        if !Correlated(t) then Save(run, DeliveryUnknown, Visit)
        else
          (match c.wait
           case Succeeded => Save(run, Delivered, Visit)
           case RequestFailed => Save(run, Failed, Visit)
           case ResultUnknown => Save(run, AwaitingResult, Visit)
           case WaitCancelled => Save(run, AwaitingResult, Finished))
      case _ => Step(run.(index := run.index + 1), false, false)
  }

  /** Inside `deliver_session_message` and the exception arms around it. */
  function CallStep(run: Run, c: Choice): Step
    requires run.phase != Visit && Allowed(run, c)
  {
    var t := run.current.targets[run.index];
    match run.phase
    case Calling =>
      if c == Cancel then Save(run, AfterLostWait(t), Finished)
      else Step(run.(phase := Posted), false, true)
    case Posted =>
      (match c.reply
       case Answered => Save(run, Delivered, Visit)
       case Refused => Save(run, Failed, Visit)
       case NoAnswer => Save(run, AfterLostWait(t), Visit)
       case Accepted(rid, cursor) =>
         var t' := t.(status := AwaitingResult, requestId := rid, eventCursor := cursor);
         Step(run.(current := Patch(run.current, run.index, t'), phase := AwaitingTerminal), true, false))
    case AwaitingTerminal =>
      (match c.wait
       case Succeeded => Save(run, Delivered, Visit)
       case RequestFailed => Save(run, Failed, TerminalFailed)
       case ResultUnknown => Save(run, AfterLostWait(t), Visit)
       case WaitCancelled => Save(run, AfterLostWait(t), Finished))
    case TerminalFailed => Save(run, Failed, Visit)
  }

  function RunStep(run: Run, c: Choice): Step
    requires Allowed(run, c)
  {
    if run.phase == Visit then VisitStep(run, c) else CallStep(run, c)
  }

  /** The phase says what is saved for the target at `index`. */
  predicate PhaseOk(run: Run) {
    run.phase.Visit? || run.phase.Finished? ||
    (&& run.index < |run.current.targets|
     && var t := run.current.targets[run.index];
        match run.phase
        case Calling => t.status == Submitting
        case Posted => t.status == Submitting
        case AwaitingTerminal => t.status == AwaitingResult && t.requestId != ""
        case TerminalFailed => t.status == Failed)
  }

  /** The stored status is the aggregate of the stored targets. */
  predicate StatusOk(r: Receipt) {
    r.targets != [] ==> r.status == Aggregate(r.targets, r.status)
  }

  lemma PatchAdvances(r: Receipt, i: nat, t: Target)
    requires i < |r.targets| && SameTarget(r.targets[i], t)
    ensures Advances(r, Patch(r, i, t)) && StatusOk(Patch(r, i, t))
    ensures forall j | 0 <= j < |r.targets| && j != i :: Patch(r, i, t).targets[j] == r.targets[j]
  {
  }

  /** The only state a POST leaves from: the entry at `index` is saved as "submitting". */
  predicate PostsFrom(run: Run) {
    run.phase == Calling && run.index < |run.current.targets| && run.current.targets[run.index].status == Submitting
  }

  /** What every step of a handler guarantees: targets move only upward, other entries
      stay untouched, a POST leaves only on a saved "submitting", and whatever is saved
      carries the aggregate status. */
  ghost predicate StepOk(run: Run, st: Step) {
    && PhaseOk(st.run)
    && Advances(run.current, st.run.current)
    && (forall i | 0 <= i < |run.current.targets| && i != run.index :: st.run.current.targets[i] == run.current.targets[i])
    && (!st.saved ==> st.run.current == run.current)
    && (st.saved ==> StatusOk(st.run.current))
    && (st.posted ==> PostsFrom(run) && !st.saved)
    && st.run.envelopes == run.envelopes
    && (run.index == st.run.index || (st.run.index == run.index + 1 && st.run.phase == Visit))
  }

  lemma SaveAdvances(run: Run, s: TargetStatus, phase: Phase)
    requires run.index < |run.current.targets| && Upward(run.current.targets[run.index].status, s)
    requires phase == Visit || phase == Finished
             || (phase == Calling && s == Submitting) || (phase == TerminalFailed && s == Failed)
    ensures StepOk(run, Save(run, s, phase))
  {
    PatchAdvances(run.current, run.index, run.current.targets[run.index].(status := s));
    hide Aggregate;
  }

  lemma VisitAdvances(run: Run, c: Choice)
    requires Allowed(run, c) && PhaseOk(run) && run.phase == Visit
    ensures StepOk(run, VisitStep(run, c))
  {
    var st := VisitStep(run, c);
    if st.saved {
      SaveAdvances(run, st.run.current.targets[run.index].status, st.run.phase);
    }
    hide Aggregate;
  }

  lemma AcceptanceAdvances(run: Run, rid: string, cursor: string)
    requires Allowed(run, Got(Accepted(rid, cursor))) && run.phase == Posted && PhaseOk(run)
    ensures StepOk(run, CallStep(run, Got(Accepted(rid, cursor))))
  {
    var t := run.current.targets[run.index];
    PatchAdvances(run.current, run.index, t.(status := AwaitingResult, requestId := rid, eventCursor := cursor));
    hide Aggregate;
  }

  lemma CallAdvances(run: Run, c: Choice)
    requires Allowed(run, c) && PhaseOk(run) && run.phase != Visit
    ensures StepOk(run, CallStep(run, c))
  {
    if c.Got? && c.reply.Accepted? {
      AcceptanceAdvances(run, c.reply.requestId, c.reply.eventCursor);
    } else {
      var st := CallStep(run, c);
      if st.saved {
        SaveAdvances(run, st.run.current.targets[run.index].status, st.run.phase);
      }
      hide Aggregate;
    }
  }

  lemma RunStepAdvances(run: Run, c: Choice)
    requires Allowed(run, c) && PhaseOk(run)
    ensures StepOk(run, RunStep(run, c))
  {
    if run.phase == Visit {
      VisitAdvances(run, c);
    } else {
      CallAdvances(run, c);
    }
  }

  /** Without envelopes (recovery after a restart) no step can lead to a POST. */
  lemma NoEnvelopeNoPost(run: Run, c: Choice)
    requires Allowed(run, c) && run.envelopes == {} && run.phase in {Visit, Finished}
    ensures var st := RunStep(run, c);
      !st.posted && st.run.envelopes == {} && st.run.phase in {Visit, Finished}
  {
  }

  // ---------------------------------------------------------------- the loop itself

  /** Durable effects of a handler, in the order they happen. */
  datatype Effect = Saved(receipt: Receipt) | Sent(index: nat)

  function EffectsOf(run: Run, st: Step): seq<Effect> {
    (if st.posted then [Sent(run.index)] else []) + (if st.saved then [Saved(st.run.current)] else [])
  }

  /** The choices a handler has met so far, latest last. */
  datatype History = Started | Then(before: History, choice: Choice)

  predicate Legal(start: Run, h: History)
    decreases h, 0
  {
    h.Then? ==> Legal(start, h.before) && Allowed(EndOf(start, h.before), h.choice)
  }

  function EndOf(start: Run, h: History): Run
    requires Legal(start, h)
    decreases h, 1
  {
    if h.Started? then start else RunStep(EndOf(start, h.before), h.choice).run
  }

  function AllEffects(start: Run, h: History): seq<Effect>
    requires Legal(start, h)
  {
    if h.Started? then []
    else
      var run := EndOf(start, h.before);
      AllEffects(start, h.before) + EffectsOf(run, RunStep(run, h.choice))
  }

  /** The step machine takes a handler from `start` to `end` with exactly these effects. */
  predicate Drives(start: Run, h: History, end: Run, effects: seq<Effect>) {
    Legal(start, h) && EndOf(start, h) == end && AllEffects(start, h) == effects
  }

  lemma DrivesNothing(start: Run)
    ensures Drives(start, Started, start, [])
  {
  }

  /** Extend a driven run by one step, spelled out: with a save, with a POST, or silently. */
  lemma DrivesStep(start: Run, h: History, mid: Run, effects: seq<Effect>, c: Choice, end: Run, effect: seq<Effect>)
    requires Drives(start, h, mid, effects) && Allowed(mid, c)
    requires RunStep(mid, c).run == end && EffectsOf(mid, RunStep(mid, c)) == effect
    ensures Drives(start, Then(h, c), end, effects + effect)
  {
  }

  lemma AdvancesTransitive(a: Receipt, b: Receipt, c: Receipt)
    requires Advances(a, b) && Advances(b, c)
    ensures Advances(a, c)
  {
    forall i | 0 <= i < |a.targets| ensures SameTarget(a.targets[i], c.targets[i]) {
      assert SameTarget(a.targets[i], b.targets[i]) && SameTarget(b.targets[i], c.targets[i]);
    }
  }

  /** The durable trace of a handler, cut off anywhere: every saved receipt carries the
      aggregate status and is above the one it started from; every POST directly follows a
      save that shows its target as "submitting"; no target is posted twice. */
  ghost predicate TraceOk(start: Run, end: Run, effects: seq<Effect>) {
    && (forall r | Saved(r) in effects :: StatusOk(r) && Advances(start.current, r))
    && (forall k | 0 <= k < |effects| && effects[k].Sent? ::
          k > 0 && effects[k - 1].Saved? && SavedSubmitting(effects[k - 1].receipt, effects[k].index))
    && (forall j, k | 0 <= j < k < |effects| && effects[j].Sent? && effects[k].Sent? :: effects[j].index < effects[k].index)
    && (forall i: nat | Sent(i) in effects :: i < end.index || (i == end.index && end.phase !in {Visit, Calling}))
    && (end.phase == Calling ==> effects != [] && effects[|effects| - 1] == Saved(end.current))
    && (start.envelopes == {} ==> forall i: nat :: Sent(i) !in effects)
  }

  predicate SavedSubmitting(r: Receipt, i: nat) {
    i < |r.targets| && r.targets[i].status == Submitting
  }

  lemma TraceStep(start: Run, mid: Run, before: seq<Effect>, c: Choice)
    requires TraceOk(start, mid, before) && PhaseOk(mid) && Allowed(mid, c) && mid.envelopes == start.envelopes
    requires start.envelopes == {} ==> mid.phase in {Visit, Finished}
    requires StepOk(mid, RunStep(mid, c)) && Advances(start.current, RunStep(mid, c).run.current)
    ensures var st := RunStep(mid, c);
      && TraceOk(start, st.run, before + EffectsOf(mid, st))
      && (start.envelopes == {} ==> st.run.phase in {Visit, Finished})
  {
    hide Advances, StatusOk, RunStep, Allowed;
    var st := RunStep(mid, c);
    if start.envelopes == {} {
      NoEnvelopeNoPost(mid, c);
    }
    CallingOnlyBySave(mid, c);
    if st.saved {
      assert before + EffectsOf(mid, st) == before + [Saved(st.run.current)];
    } else if st.posted {
      assert before + EffectsOf(mid, st) == before + [Sent(mid.index)];
    } else {
      assert before + EffectsOf(mid, st) == before;
    }
  }

  lemma CallingOnlyBySave(run: Run, c: Choice)
    requires Allowed(run, c)
    ensures var st := RunStep(run, c);
      && (st.run.phase == Calling ==> st.saved)
      && (st.posted ==> st.run.phase == Posted && st.run.index == run.index)
      && (st.saved && run.phase == Visit && st.run.phase == Visit ==> st.run.index == run.index + 1)
      && (run.phase !in {Visit, Calling} && st.run.index == run.index ==> st.run.phase !in {Visit, Calling})
  {
    hide Aggregate;
  }

  lemma {:induction false} DrivenTraceOk(start: Run, h: History, end: Run, effects: seq<Effect>)
    requires start.phase == Visit && Drives(start, h, end, effects)
    ensures PhaseOk(end) && Advances(start.current, end.current) && end.envelopes == start.envelopes
    ensures start.envelopes == {} ==> end.phase in {Visit, Finished}
    ensures TraceOk(start, end, effects)
    decreases h
  {
    if h.Then? {
      var mid, before := EndOf(start, h.before), AllEffects(start, h.before);
      DrivenTraceOk(start, h.before, mid, before);
      var st := RunStep(mid, h.choice);
      RunStepAdvances(mid, h.choice);
      AdvancesTransitive(start.current, mid.current, st.run.current);
      var more := EffectsOf(mid, st);
      assert effects == before + more;
      TraceStep(start, mid, before, h.choice);
    }
  }

  /** What the outside world does while target `i` is worked on: whether the stop event
      is seen at the loop head, how a submission is answered, and how a resumed wait ends. */
  datatype Answer = CancelledBeforePost | Replied(reply: Reply, wait: Wait)
  datatype Environment = Environment(stop: nat -> bool, answer: nat -> Answer, wait: nat -> Wait)

  /** `deliver_session_message` reports an acceptance only with both correlation ids. */
  function Checked(reply: Reply): Reply {
    if reply.Accepted? && (reply.requestId == "" || reply.eventCursor == "") then NoAnswer else reply
  }

  /** What one iteration leaves of target `t`: the entry, whether it was posted, and
      whether the loop ends here. */
  datatype Outcome = Outcome(after: Target, posted: bool, stop: bool)

  function SubmitOutcome(t: Target, answer: Answer): Outcome {
    match answer
    case CancelledBeforePost => Outcome(t.(status := AfterLostWait(t)), false, true)
    case Replied(reply, wait) =>
      match Checked(reply)
      case Answered => Outcome(t.(status := Delivered), true, false)
      case Refused => Outcome(t.(status := Failed), true, false)
      case NoAnswer => Outcome(t.(status := AfterLostWait(t)), true, false)
      case Accepted(rid, cursor) => Outcome(WaitOutcome(t.(requestId := rid, eventCursor := cursor), wait), true, wait == WaitCancelled)
  }

  function WaitOutcome(t: Target, wait: Wait): Target {
    t.(status := match wait
                 case Succeeded => Delivered
                 case RequestFailed => Failed
                 case _ => AwaitingResult)
  }

  function TargetOutcome(t: Target, i: nat, env: Environment, envelopes: set<string>): Outcome {
    if env.stop(i) then Outcome(t, false, true)
    else
      match t.status
      case Submitting => Outcome(t.(status := DeliveryUnknown), false, false)
      case Pending =>
        if t.session == "" || t.session !in envelopes then Outcome(t.(status := DeliveryUnknown), false, false)
        else SubmitOutcome(t, env.answer(i))
      case AwaitingResult =>
        if !Correlated(t) then Outcome(t.(status := DeliveryUnknown), false, false)
        else Outcome(WaitOutcome(t, env.wait(i)), false, env.wait(i) == WaitCancelled)
      case _ => Outcome(t, false, false)
  }

  /** The loop gets to target `n`: no earlier iteration ended it. */
  predicate GetsTo(targets: seq<Target>, n: nat, env: Environment, envelopes: set<string>)
    requires n <= |targets|
  {
    forall j | 0 <= j < n :: !TargetOutcome(targets[j], j, env, envelopes).stop
  }

  lemma GetsToFirst(targets: seq<Target>, env: Environment, envelopes: set<string>)
    ensures GetsTo(targets, 0, env, envelopes)
    ensures GetsTo(targets, |targets|, env, envelopes) ==> forall j | 0 <= j <= |targets| :: GetsTo(targets, j, env, envelopes)
  {
    hide TargetOutcome;
  }

  /** An iteration that does not end the loop leads to the next one; one that does, to none. */
  lemma GetsFurther(targets: seq<Target>, i: nat, env: Environment, envelopes: set<string>)
    requires i < |targets| && GetsTo(targets, i, env, envelopes)
    ensures forall j | 0 <= j <= i :: GetsTo(targets, j, env, envelopes)
    ensures forall j | i < j <= |targets| && TargetOutcome(targets[i], i, env, envelopes).stop :: !GetsTo(targets, j, env, envelopes)
    ensures GetsTo(targets, i + 1, env, envelopes) <==> !TargetOutcome(targets[i], i, env, envelopes).stop
  {
    hide TargetOutcome;
  }

  /** The posts of the first `n` iterations. */
  function PostsOf(ingress: string, handler: nat, targets: seq<Target>, n: nat, env: Environment, envelopes: set<string>): seq<Post>
    requires n <= |targets|
  {
    if n == 0 then []
    else
      PostsOf(ingress, handler, targets, n - 1, env, envelopes) +
      (if GetsTo(targets, n - 1, env, envelopes) && TargetOutcome(targets[n - 1], n - 1, env, envelopes).posted
       then [Post(ingress, targets[n - 1].session, targets[n - 1].key, handler, n - 1)] else [])
  }

  lemma {:induction false} PostsStop(ingress: string, handler: nat, targets: seq<Target>, n: nat, m: nat, env: Environment, envelopes: set<string>)
    requires n <= m <= |targets| && !GetsTo(targets, n, env, envelopes)
    ensures PostsOf(ingress, handler, targets, m, env, envelopes) == PostsOf(ingress, handler, targets, n, env, envelopes)
  {
    if n < m {
      PostsStop(ingress, handler, targets, n, m - 1, env, envelopes);
    }
  }

  /** A recovery pass holds no envelopes: it posts nothing, and whatever was left "pending"
      or "submitting" by a dead handler ends as "delivery_unknown". */
  lemma {:induction false} RecoveryNeverSubmits(ingress: string, handler: nat, targets: seq<Target>, n: nat, env: Environment)
    requires n <= |targets|
    ensures PostsOf(ingress, handler, targets, n, env, {}) == []
    ensures forall i | 0 <= i < n && !env.stop(i) && targets[i].status in {Pending, Submitting} ::
              TargetOutcome(targets[i], i, env, {}).after == targets[i].(status := DeliveryUnknown)
  {
    if n > 0 {
      RecoveryNeverSubmits(ingress, handler, targets, n - 1, env);
    }
  }

  /** Where a handler stands after iteration `i`. */
  function After(current: Receipt, i: nat, envelopes: set<string>, ended: bool): Run {
    if ended then Run(current, i, envelopes, Finished) else Run(current, i + 1, envelopes, Visit)
  }

  class IngressService {
    var store: map<string, Receipt>
    var posts: seq<Post>
    ghost var journal: seq<Effect>

    constructor ()
      ensures store == map[] && posts == [] && journal == []
    {
      store, posts, journal := map[], [], [];
    }

    /** `persist_ingress_target_patch` with the entry already patched. */
    method PersistTarget(ingress: string, receipt: Receipt, i: nat, t: Target) returns (updated: Receipt)
      requires i < |receipt.targets|
      modifies this`store, this`journal
      ensures updated == Patch(receipt, i, t)
      ensures store == old(store)[ingress := updated]
      ensures journal == old(journal) + [Saved(updated)]
    {
      var targets := receipt.targets[i := t];
      updated := receipt.(targets := targets, status := Aggregate(targets, receipt.status));
      store := store[ingress := updated];
      journal := journal + [Saved(updated)];
    }

    /** The rest of `deliver_session_message` once the acceptance is saved: the event stream,
        the terminal callback and the exception arms. */
    method AwaitAccepted(ingress: string, receipt: Receipt, i: nat, wait: Wait, ghost start: Run, ghost h0: History, ghost effects: seq<Effect>)
      returns (current: Receipt, ghost done: seq<Effect>, ghost h: History)
      requires i < |receipt.targets| && receipt.targets[i].requestId != ""
      requires Drives(start, h0, Run(receipt, i, start.envelopes, AwaitingTerminal), effects)
      modifies this`store, this`journal
      ensures journal == old(journal) + done
      ensures Drives(start, h, After(current, i, start.envelopes, wait == WaitCancelled), effects + done)
      ensures store == old(store)[ingress := current]
      ensures current.targets == receipt.targets[i := WaitOutcome(receipt.targets[i], wait)]
    {
      hide Drives, Aggregate;
      h := h0;
      ghost var run := Run(receipt, i, start.envelopes, AwaitingTerminal);
      var after := WaitOutcome(receipt.targets[i], wait);
      current := PersistTarget(ingress, receipt, i, after);
      done := [Saved(current)];
      if wait == RequestFailed {
        ghost var failed := Run(current, i, start.envelopes, TerminalFailed);
        DrivesStep(start, h, run, effects, Ended(wait), failed, done);
        h := Then(h, Ended(wait));
        current := PersistTarget(ingress, current, i, after);
        DrivesStep(start, h, failed, effects + done, Go, After(current, i, start.envelopes, false), [Saved(current)]);
        h := Then(h, Go);
        assert effects + done + [Saved(current)] == effects + (done + [Saved(current)]);
        done := done + [Saved(current)];
      } else {
        DrivesStep(start, h, run, effects, Ended(wait), After(current, i, start.envelopes, wait == WaitCancelled), done);
        h := Then(h, Ended(wait));
      }
    }

    /** One call of `deliver_session_message` together with its callbacks and the
        exception arms around it, for a target whose "submitting" is saved. `start` is
        where the whole delivery began. */
    method SubmitTarget(ingress: string, handler: nat, receipt: Receipt, i: nat, answer: Answer,
                        ghost start: Run, ghost h0: History, ghost effects: seq<Effect>)
      returns (current: Receipt, cancelled: bool, ghost done: seq<Effect>, ghost h: History)
      requires i < |receipt.targets| && receipt.targets[i].status == Submitting
      requires Drives(start, h0, Run(receipt, i, start.envelopes, Calling), effects)
      modifies this
      ensures journal == old(journal) + done
      ensures Drives(start, h, After(current, i, start.envelopes, cancelled), effects + done)
      ensures store == old(store)[ingress := current]
      ensures posts == old(posts) + (if answer == CancelledBeforePost then []
                                     else [Post(ingress, receipt.targets[i].session, receipt.targets[i].key, handler, i)])
      ensures var o := SubmitOutcome(receipt.targets[i], answer);
        current.targets == receipt.targets[i := o.after] && cancelled == o.stop
    {
      hide Drives, Aggregate;
      h := h0;
      ghost var run := Run(receipt, i, start.envelopes, Calling);
      var target := receipt.targets[i];
      if answer == CancelledBeforePost {
        current := PersistTarget(ingress, receipt, i, target.(status := AfterLostWait(target)));
        cancelled, done := true, [Saved(current)];
        DrivesStep(start, h, run, effects, Cancel, After(current, i, start.envelopes, true), done);
        h := Then(h, Cancel);
      } else {
        posts := posts + [Post(ingress, target.session, target.key, handler, i)];
        journal := journal + [Sent(i)];
        ghost var posted := Run(receipt, i, start.envelopes, Posted);
        DrivesStep(start, h, run, effects, Go, posted, [Sent(i)]);
        h := Then(h, Go);
        done := [Sent(i)];
        ghost var more;
        current, cancelled, more, h := HandleReply(ingress, receipt, i, Checked(answer.reply), answer.wait, start, h, effects + done);
        assert effects + done + more == effects + (done + more);
        done := done + more;
      }
    }

    method HandleReply(ingress: string, receipt: Receipt, i: nat, reply: Reply, wait: Wait,
                       ghost start: Run, ghost h0: History, ghost effects: seq<Effect>)
      returns (current: Receipt, cancelled: bool, ghost done: seq<Effect>, ghost h: History)
      requires i < |receipt.targets| && reply == Checked(reply)
      requires Drives(start, h0, Run(receipt, i, start.envelopes, Posted), effects)
      modifies this`store, this`journal
      ensures journal == old(journal) + done
      ensures Drives(start, h, After(current, i, start.envelopes, cancelled), effects + done)
      ensures store == old(store)[ingress := current]
      ensures var o := SubmitOutcome(receipt.targets[i], Replied(reply, wait));
        current.targets == receipt.targets[i := o.after] && cancelled == o.stop
    {
      hide Drives, Aggregate;
      h := h0;
      ghost var run := Run(receipt, i, start.envelopes, Posted);
      var target := receipt.targets[i];
      if reply.Accepted? {
        var accepted := target.(status := AwaitingResult, requestId := reply.requestId, eventCursor := reply.eventCursor);
        current := PersistTarget(ingress, receipt, i, accepted);
        done := [Saved(current)];
        DrivesStep(start, h, run, effects, Got(reply), Run(current, i, start.envelopes, AwaitingTerminal), done);
        h := Then(h, Got(reply));
        ghost var more;
        current, more, h := AwaitAccepted(ingress, current, i, wait, start, h, effects + done);
        cancelled := wait == WaitCancelled;
        assert effects + done + more == effects + (done + more);
        done := done + more;
      } else {
        var status := if reply == Answered then Delivered else if reply == Refused then Failed else AfterLostWait(target);
        current := PersistTarget(ingress, receipt, i, target.(status := status));
        cancelled, done := false, [Saved(current)];
        DrivesStep(start, h, run, effects, Got(reply), After(current, i, start.envelopes, false), done);
        h := Then(h, Got(reply));
      }
    }

    /** One iteration of the loop for a target of which `current` still holds the entry. */
    method VisitTarget(ingress: string, handler: nat, receipt: Receipt, i: nat, env: Environment, envelopes: set<string>,
                       ghost start: Run, ghost h0: History, ghost effects: seq<Effect>)
      returns (current: Receipt, ended: bool, ghost done: seq<Effect>, ghost h: History)
      requires i < |receipt.targets| && start.envelopes == envelopes
      requires Drives(start, h0, Run(receipt, i, envelopes, Visit), effects)
      modifies this
      ensures journal == old(journal) + done
      ensures Drives(start, h, After(current, i, envelopes, ended), effects + done)
      ensures store == old(store)[ingress := current] || (store == old(store) && current == receipt)
      ensures var o := TargetOutcome(receipt.targets[i], i, env, envelopes);
        && current.targets == receipt.targets[i := o.after]
        && ended == o.stop
        && posts == old(posts) + (if o.posted then [Post(ingress, receipt.targets[i].session, receipt.targets[i].key, handler, i)] else [])
    {
      hide Drives, Aggregate;
      h := h0;
      ghost var run := Run(receipt, i, envelopes, Visit);
      var target := receipt.targets[i];
      current, ended, done := receipt, false, [];
      if env.stop(i) {
        ended := true;
        DrivesStep(start, h, run, effects, Cancel, After(current, i, envelopes, true), done);
        h := Then(h, Cancel);
      } else if target.status == Pending && target.session != "" && target.session in envelopes {
        current := PersistTarget(ingress, receipt, i, target.(status := Submitting));
        done := [Saved(current)];
        DrivesStep(start, h, run, effects, Go, Run(current, i, envelopes, Calling), done);
        h := Then(h, Go);
        ghost var more;
        current, ended, more, h := SubmitTarget(ingress, handler, current, i, env.answer(i), start, h, effects + done);
        assert effects + done + more == effects + (done + more);
        done := done + more;
      } else if target.status in {Pending, Submitting} || (target.status == AwaitingResult && !Correlated(target)) {
        current := PersistTarget(ingress, receipt, i, target.(status := DeliveryUnknown));
        done := [Saved(current)];
        DrivesStep(start, h, run, effects, Go, After(current, i, envelopes, false), done);
        h := Then(h, Go);
      } else if target.status == AwaitingResult {
        current := PersistTarget(ingress, receipt, i, WaitOutcome(target, env.wait(i)));
        ended, done := env.wait(i) == WaitCancelled, [Saved(current)];
        DrivesStep(start, h, run, effects, Ended(env.wait(i)), After(current, i, envelopes, ended), done);
        h := Then(h, Ended(env.wait(i)));
      } else {
        DrivesStep(start, h, run, effects, Go, After(current, i, envelopes, false), done);
        h := Then(h, Go);
      }
    }

    /** `resume_ingress_delivery`. The loop walks the targets as they were handed in; each
        entry is patched only in its own iteration. Every durable effect of the call is one
        the step machine makes, so a crash anywhere inside it leaves what a prefix of a run
        leaves. */
    method ResumeIngressDelivery(ingress: string, handler: nat, receipt: Receipt, env: Environment, envelopes: set<string>)
      returns (current: Receipt, ghost done: seq<Effect>, ghost h: History)
      modifies this
      ensures journal == old(journal) + done
      ensures exists n: nat :: Drives(Run(receipt, 0, envelopes, Visit), h, Run(current, n, envelopes, Finished), done)
      ensures store == old(store)[ingress := current] || (store == old(store) && current == receipt)
      ensures |current.targets| == |receipt.targets|
      ensures forall i | 0 <= i < |receipt.targets| ::
                current.targets[i] == if GetsTo(receipt.targets, i, env, envelopes)
                                      then TargetOutcome(receipt.targets[i], i, env, envelopes).after
                                      else receipt.targets[i]
      ensures posts == old(posts) + PostsOf(ingress, handler, receipt.targets, |receipt.targets|, env, envelopes)
    {
      hide Drives, Aggregate, TargetOutcome, GetsTo;
      current, done := receipt, [];
      var targets := receipt.targets;
      ghost var start := Run(receipt, 0, envelopes, Visit);
      h := Started;
      DrivesNothing(start);
      GetsToFirst(targets, env, envelopes);
      var i, ended := 0, false;
      while i < |targets|
        invariant 0 <= i <= |targets| == |current.targets| && !ended
        invariant journal == old(journal) + done
        invariant store == old(store)[ingress := current] || (store == old(store) && current == receipt)
        invariant Drives(start, h, Run(current, i, envelopes, Visit), done)
        invariant posts == old(posts) + PostsOf(ingress, handler, targets, i, env, envelopes)
        invariant forall j | 0 <= j < i :: current.targets[j] == TargetOutcome(targets[j], j, env, envelopes).after
        invariant forall j | i <= j < |targets| :: current.targets[j] == targets[j]
        invariant GetsTo(targets, i, env, envelopes)
      {
        ghost var more;
        current, ended, more, h := VisitTarget(ingress, handler, current, i, env, envelopes, start, h, done);
        done := done + more;
        GetsFurther(targets, i, env, envelopes);
        if ended {
          PostsStop(ingress, handler, targets, i + 1, |targets|, env, envelopes);
          return;
        }
        i := i + 1;
      }
      DrivesStep(start, h, Run(current, i, envelopes, Visit), done, Go, Run(current, i, envelopes, Finished), []);
      h := Then(h, Go);
      assert done + [] == done;
    }
  }
}
