/** The gateway worker's bounded message queue: one dispatcher, a pool of identical worker
    threads, and the stop protocol that drains the queue and places one sentinel per worker.

    Source: discord/scripts/discord_gateway_service.py, `GatewayWorker`. */
module GatewayQueue {
  /** A message, known by the identity the gateway gave it. */
  type Message = nat

  const MAX_PENDING_MESSAGES: nat := 128
  const WORKER_THREADS: nat := 8
  const NAMED_WORKER_THREADS: nat := 1

  datatype Item = Work(message: Message) | Sentinel

  /** The dispatcher has read the stop event and is about to put its message. */
  datatype Dispatcher = Ready | Checked(message: Message)

  datatype Stopper =
    | Running
    | Draining
    | DrainHolds(message: Message)
    | Placing(placed: nat)
    | QueueWasFull

  /** Worker threads are interchangeable, so they are counted: idle ones, the messages just
      taken, the messages being handled, and the threads that have ended. */
  datatype State = State(
    workers: nat, queue: seq<Item>, stopSet: bool, dispatcher: Dispatcher, stopper: Stopper,
    idle: nat, taken: multiset<Message>, handling: multiset<Message>, exited: nat,
    given: multiset<Message>, handled: multiset<Message>, overloaded: multiset<Message>, rejected: multiset<Message>)

  function Start(workers: nat): State {
    State(workers, [], false, Ready, Running, workers, multiset{}, multiset{}, 0, multiset{}, multiset{}, multiset{}, multiset{})
  }

  datatype Action =
    | Give(message: Message)     // dispatch_gateway_message up to its stop check
    | Put                        // put_nowait, or the rejection for a full queue
    | WorkerGet
    | WorkerCheck(message: Message)
    | WorkerDone(message: Message)
    | RequestStop                // a signal handler sets the stop event ahead of stop
    | Stop
    | DrainGet
    | DrainReject
    | DrainEmpty
    | PlaceSentinel

  predicate Enabled(s: State, a: Action) {
    match a
    case Give(_) => s.dispatcher.Ready?
    case Put => s.dispatcher.Checked?
    case WorkerGet => s.idle > 0 && s.queue != []
    case WorkerCheck(m) => m in s.taken
    case WorkerDone(m) => m in s.handling
    case RequestStop => true
    case Stop => s.stopper.Running?
    case DrainGet => s.stopper.Draining? && s.queue != []
    case DrainReject => s.stopper.DrainHolds?
    case DrainEmpty => s.stopper.Draining? && s.queue == []
    case PlaceSentinel => s.stopper.Placing? && s.stopper.placed < s.workers
  }

  function Do(s: State, a: Action): State
    requires Enabled(s, a)
  {
    match a
    case Give(m) =>
      var s := s.(given := s.given + multiset{m});
      if s.stopSet then s.(rejected := s.rejected + multiset{m}) else s.(dispatcher := Checked(m))
    case Put =>
      var m := s.dispatcher.message;
      if |s.queue| < MAX_PENDING_MESSAGES then s.(queue := s.queue + [Work(m)], dispatcher := Ready)
      else s.(overloaded := s.overloaded + multiset{m}, dispatcher := Ready)
    case WorkerGet =>
      var s' := s.(queue := s.queue[1..], idle := s.idle - 1);
      if s.queue[0].Work? then s'.(taken := s.taken + multiset{s.queue[0].message}) else s'.(exited := s.exited + 1)
    case WorkerCheck(m) =>
      if s.stopSet then s.(taken := s.taken - multiset{m}, rejected := s.rejected + multiset{m}, idle := s.idle + 1)
      else s.(taken := s.taken - multiset{m}, handling := s.handling + multiset{m})
    case WorkerDone(m) => s.(handling := s.handling - multiset{m}, handled := s.handled + multiset{m}, idle := s.idle + 1)
    case RequestStop => s.(stopSet := true)
    case Stop => s.(stopSet := true, stopper := Draining)
    case DrainGet =>
      var s' := s.(queue := s.queue[1..]);
      if s.queue[0].Work? then s'.(stopper := DrainHolds(s.queue[0].message)) else s'
    case DrainReject => s.(rejected := s.rejected + multiset{s.stopper.message}, stopper := Draining)
    case DrainEmpty => s.(stopper := Placing(0))
    case PlaceSentinel =>
      if |s.queue| < MAX_PENDING_MESSAGES then s.(queue := s.queue + [Sentinel], stopper := Placing(s.stopper.placed + 1))
      else s.(stopper := QueueWasFull)
  }

  // ---------------------------------------------------------------- counting

  /** How often message `m` waits in the queue. */
  function Waiting(q: seq<Item>, m: Message): nat {
    if q == [] then 0 else (if q[0] == Work(m) then 1 else 0) + Waiting(q[1..], m)
  }

  function Works(q: seq<Item>): nat {
    if q == [] then 0 else (if q[0].Work? then 1 else 0) + Works(q[1..])
  }

  function Sentinels(q: seq<Item>): nat {
    if q == [] then 0 else (if q[0].Sentinel? then 1 else 0) + Sentinels(q[1..])
  }

  lemma {:induction false} Append(q: seq<Item>, i: Item, m: Message)
    ensures Waiting(q + [i], m) == Waiting(q, m) + (if i == Work(m) then 1 else 0)
    ensures Works(q + [i]) == Works(q) + (if i.Work? then 1 else 0)
    ensures Sentinels(q + [i]) == Sentinels(q) + (if i.Sentinel? then 1 else 0)
  {
    if q == [] {
      assert q + [i] == [i];
    } else {
      assert (q + [i])[1..] == q[1..] + [i];
      Append(q[1..], i, m);
    }
  }

  lemma {:induction false} Lengths(q: seq<Item>, m: Message)
    ensures |q| == Works(q) + Sentinels(q) && Waiting(q, m) <= Works(q)
  {
    if q != [] {
      Lengths(q[1..], m);
    }
  }

  /** In the dispatcher's hand, between its stop check and the queue. */
  function InDispatch(s: State, m: Message): nat {
    if s.dispatcher == Checked(m) then 1 else 0
  }

  function InDrain(s: State, m: Message): nat {
    if s.stopper == DrainHolds(m) then 1 else 0
  }

  function InHand(s: State, m: Message): nat {
    InDispatch(s, m) + InDrain(s, m) + s.taken[m] + s.handling[m]
  }

  function Settled(s: State, m: Message): nat {
    s.handled[m] + s.overloaded[m] + s.rejected[m]
  }

  predicate Conserved(s: State, m: Message) {
    s.given[m] == Waiting(s.queue, m) + InHand(s, m) + Settled(s, m)
  }

  lemma DispatchConserves(s: State, a: Action, m: Message)
    requires Conserved(s, m) && Enabled(s, a) && (a.Give? || a.Put? || a.PlaceSentinel?)
    ensures Conserved(Do(s, a), m)
  {
    if a.Put? {
      Append(s.queue, Work(s.dispatcher.message), m);
    } else if a.PlaceSentinel? {
      Append(s.queue, Sentinel, m);
    }
    hide Waiting;
  }

  lemma WorkerGetConserves(s: State, m: Message)
    requires Conserved(s, m) && Enabled(s, WorkerGet)
    ensures Conserved(Do(s, WorkerGet), m)
  {
    assert Waiting(s.queue, m) == (if s.queue[0] == Work(m) then 1 else 0) + Waiting(s.queue[1..], m);
    hide Waiting;
  }

  lemma WorkerConserves(s: State, a: Action, m: Message)
    requires Conserved(s, m) && Enabled(s, a) && (a.WorkerCheck? || a.WorkerDone?)
    ensures Conserved(Do(s, a), m)
  {
    hide Waiting;
  }

  lemma DrainConserves(s: State, a: Action, m: Message)
    requires Conserved(s, m) && Enabled(s, a) && (a.RequestStop? || a.Stop? || a.DrainGet? || a.DrainReject? || a.DrainEmpty?)
    ensures Conserved(Do(s, a), m)
  {
  }

  lemma StepConserved(s: State, a: Action, m: Message)
    requires Conserved(s, m) && Enabled(s, a)
    ensures Conserved(Do(s, a), m)
  {
    hide Conserved, Do, Enabled;
    match a {
      case Give(_) | Put | PlaceSentinel => DispatchConserves(s, a, m);
      case WorkerGet => WorkerGetConserves(s, m);
      case WorkerCheck(_) | WorkerDone(_) => WorkerConserves(s, a, m);
      case _ => DrainConserves(s, a, m);
    }
  }

  predicate AllWorkers(s: State, workers: nat) {
    s.idle + |s.taken| + |s.handling| + s.exited == workers
  }

  lemma StepWorkers(s: State, a: Action, workers: nat)
    requires AllWorkers(s, workers) && Enabled(s, a)
    ensures AllWorkers(Do(s, a), workers)
  {
  }

  function Placed(st: Stopper): nat {
    if st.Placing? then st.placed else 0
  }

  predicate Bounded(s: State, workers: nat) {
    && |s.queue| <= MAX_PENDING_MESSAGES
    && s.workers == workers
    && !s.stopper.QueueWasFull?
    && (!s.stopper.Running? ==> s.stopSet)
    && Sentinels(s.queue) + s.exited == Placed(s.stopper) <= workers
    // once the drain has seen the queue empty, only a message already past its check can follow
    && (s.stopper.Placing? ==> Works(s.queue) + (if s.dispatcher.Checked? then 1 else 0) <= 1)
  }

  lemma StepBounded(s: State, a: Action, workers: nat)
    requires Bounded(s, workers) && Enabled(s, a) && workers < MAX_PENDING_MESSAGES
    ensures Bounded(Do(s, a), workers)
  {
    Lengths(s.queue, 0);
    if a.Put? {
      Append(s.queue, Work(s.dispatcher.message), 0);
    } else if a.PlaceSentinel? {
      Append(s.queue, Sentinel, 0);
    }
  }

  predicate AllEnabled(s: State, actions: seq<Action>)
    decreases |actions|
  {
    actions != [] ==> Enabled(s, actions[0]) && AllEnabled(Do(s, actions[0]), actions[1..])
  }

  function Exec(s: State, actions: seq<Action>): State
    requires AllEnabled(s, actions)
    decreases |actions|
  {
    if actions == [] then s else Exec(Do(s, actions[0]), actions[1..])
  }

  lemma {:induction false} RunInv(s: State, actions: seq<Action>, workers: nat, m: Message)
    requires Conserved(s, m) && AllWorkers(s, workers) && Bounded(s, workers)
    requires AllEnabled(s, actions) && workers < MAX_PENDING_MESSAGES
    ensures var s' := Exec(s, actions); Conserved(s', m) && AllWorkers(s', workers) && Bounded(s', workers)
    decreases |actions|
  {
    hide Conserved, AllWorkers, Bounded, Do, Enabled;
    if actions != [] {
      StepConserved(s, actions[0], m);
      StepWorkers(s, actions[0], workers);
      StepBounded(s, actions[0], workers);
      RunInv(Do(s, actions[0]), actions[1..], workers, m);
    }
  }

  /** Over every interleaving: each message is in exactly one place, as often as it was given
      to dispatch; the queue keeps its bound; and `stop` always has room for its sentinels. */
  lemma EveryMessageInOnePlace(actions: seq<Action>, workers: nat)
    requires workers <= WORKER_THREADS && AllEnabled(Start(workers), actions)
    ensures var s := Exec(Start(workers), actions);
      && (forall m: Message :: s.given[m] == Waiting(s.queue, m) + InHand(s, m) + Settled(s, m))
      && |s.queue| <= MAX_PENDING_MESSAGES
      && !s.stopper.QueueWasFull?
  {
    RunInv(Start(workers), actions, workers, 0);
    forall m: Message ensures var s := Exec(Start(workers), actions); s.given[m] == Waiting(s.queue, m) + InHand(s, m) + Settled(s, m) {
      RunInv(Start(workers), actions, workers, m);
    }
  }

  /** When all sentinels are placed and every worker has ended, every message but at most one
      is settled; that one had passed its stop check before the stop. */
  lemma AtMostOneMessageStranded(actions: seq<Action>, workers: nat)
    requires workers <= WORKER_THREADS && AllEnabled(Start(workers), actions)
    requires var s := Exec(Start(workers), actions); s.stopper == Placing(workers) && s.exited == workers
    ensures var s := Exec(Start(workers), actions);
      && s.idle == 0 && Works(s.queue) + (if s.dispatcher.Checked? then 1 else 0) <= 1 && Sentinels(s.queue) == 0
      && forall m: Message :: s.given[m] - Settled(s, m) == Waiting(s.queue, m) + InDispatch(s, m)
  {
    var s := Exec(Start(workers), actions);
    RunInv(Start(workers), actions, workers, 0);
    assert |s.taken| == 0 && |s.handling| == 0;
    forall m: Message ensures s.given[m] - Settled(s, m) == Waiting(s.queue, m) + InDispatch(s, m) {
      RunInv(Start(workers), actions, workers, m);
      assert s.taken[m] == 0 && s.handling[m] == 0;
    }
  }

  /** The messages behind the last sentinel; all of them when there is none. */
  function Behind(q: seq<Item>): nat {
    if q == [] then 0 else if Sentinels(q) == 0 then Works(q) else Behind(q[1..])
  }

  lemma {:induction false} BehindAppend(q: seq<Item>, i: Item)
    ensures Behind(q + [i]) == if i.Sentinel? then 0 else Behind(q) + 1
  {
    Append(q, i, 0);
    if q == [] {
      assert q + [i] == [i] && [i][1..] == [];
    } else {
      assert (q + [i])[1..] == q[1..] + [i];
      BehindAppend(q[1..], i);
      Append(q[1..], i, 0);
    }
  }

  /** How many messages `actions` put in the queue after the last sentinel was placed. */
  function LatePuts(s: State, actions: seq<Action>, workers: nat): nat
    requires AllEnabled(s, actions)
    decreases |actions|
  {
    if actions == [] then 0
    else (if actions[0].Put? && s.stopper == Placing(workers) then 1 else 0) + LatePuts(Do(s, actions[0]), actions[1..], workers)
  }

  function BehindSo(s: State, workers: nat): nat {
    if s.stopper == Placing(workers) then Behind(s.queue) else 0
  }

  /** A worker takes nothing from behind the last sentinel: once the sentinels are gone, so are
      the workers. */
  lemma GetKeepsBehind(s: State, workers: nat)
    requires AllWorkers(s, workers) && Bounded(s, workers) && Enabled(s, WorkerGet) && s.stopper == Placing(workers)
    ensures Behind(s.queue[1..]) == Behind(s.queue)
  {
    assert Sentinels(s.queue) > 0;
    assert Sentinels(s.queue[1..]) == 0 ==> Behind(s.queue[1..]) == Works(s.queue[1..]);
  }

  lemma BehindNothing()
    ensures Behind([]) == 0
  {
  }

  lemma StepBehind(s: State, a: Action, workers: nat)
    requires AllWorkers(s, workers) && Bounded(s, workers) && Enabled(s, a) && workers < MAX_PENDING_MESSAGES
    ensures s.stopper == Placing(workers) ==> Do(s, a).stopper == Placing(workers)
    ensures Do(s, a).stopper == Placing(workers) ==>
              BehindSo(Do(s, a), workers) ==
                BehindSo(s, workers) + if a.Put? && s.stopper == Placing(workers) then 1 else 0
  {
    hide Behind;
    Lengths(s.queue, 0);
    if a.Put? {
      BehindAppend(s.queue, Work(s.dispatcher.message));
    } else if a.PlaceSentinel? {
      BehindAppend(s.queue, Sentinel);
    } else if a.WorkerGet? && s.stopper == Placing(workers) {
      GetKeepsBehind(s, workers);
    } else if a.DrainEmpty? {
      BehindNothing();
    }
  }

  lemma {:induction false} RunBehind(s: State, actions: seq<Action>, workers: nat)
    requires AllWorkers(s, workers) && Bounded(s, workers) && AllEnabled(s, actions) && workers < MAX_PENDING_MESSAGES
    ensures Exec(s, actions).stopper == Placing(workers) ==>
              BehindSo(Exec(s, actions), workers) == BehindSo(s, workers) + LatePuts(s, actions, workers)
    ensures s.stopper == Placing(workers) ==> Exec(s, actions).stopper == Placing(workers)
    ensures Exec(s, actions).stopper != Placing(workers) ==> LatePuts(s, actions, workers) == 0
    decreases |actions|
  {
    hide AllWorkers, Bounded, Do, Enabled, Behind;
    if actions != [] {
      StepBehind(s, actions[0], workers);
      StepWorkers(s, actions[0], workers);
      StepBounded(s, actions[0], workers);
      RunBehind(Do(s, actions[0]), actions[1..], workers);
    }
  }

  /** When all sentinels are placed and every worker has ended, the messages left in the queue are
      exactly those that were put there after the last sentinel: none is stranded if and only if
      none was put that late. */
  lemma StrandedAreLatePuts(actions: seq<Action>, workers: nat)
    requires workers <= WORKER_THREADS && AllEnabled(Start(workers), actions)
    requires var s := Exec(Start(workers), actions); s.stopper == Placing(workers) && s.exited == workers
    ensures var s, late := Exec(Start(workers), actions), LatePuts(Start(workers), actions, workers);
      && |s.queue| == Works(s.queue) == late <= 1
      && (s.queue == [] <==> late == 0)
  {
    var s := Exec(Start(workers), actions);
    RunInv(Start(workers), actions, workers, 0);
    RunBehind(Start(workers), actions, workers);
    Lengths(s.queue, 0);
  }

  lemma {:induction false} ExecAppend(s: State, actions: seq<Action>, a: Action)
    requires AllEnabled(s, actions) && Enabled(Exec(s, actions), a)
    ensures AllEnabled(s, actions + [a]) && Exec(s, actions + [a]) == Do(Exec(s, actions), a)
    decreases |actions|
  {
    hide Do, Enabled;
    if actions == [] {
      assert [a][1..] == [];
    } else {
      assert (actions + [a])[1..] == actions[1..] + [a];
      ExecAppend(Do(s, actions[0]), actions[1..], a);
    }
  }

  /** The stranded message is real: dispatched past the stop check, put behind the sentinel. */
  lemma MessageCanBeStranded() returns (actions: seq<Action>)
    ensures AllEnabled(Start(NAMED_WORKER_THREADS), actions)
    ensures var s := Exec(Start(NAMED_WORKER_THREADS), actions);
      && s.stopper == Placing(1) && s.exited == 1 && s.queue == [Work(7)] && s.dispatcher == Ready
  {
    var s := Start(NAMED_WORKER_THREADS);
    actions := [];
    ExecAppend(s, actions, Give(7));       actions := actions + [Give(7)];
    ExecAppend(s, actions, Stop);          actions := actions + [Stop];
    ExecAppend(s, actions, DrainEmpty);    actions := actions + [DrainEmpty];
    ExecAppend(s, actions, PlaceSentinel); actions := actions + [PlaceSentinel];
    ExecAppend(s, actions, Put);           actions := actions + [Put];
    assert Exec(s, actions).queue == [Sentinel, Work(7)];
    ExecAppend(s, actions, WorkerGet);     actions := actions + [WorkerGet];
  }
}
