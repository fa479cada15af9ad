/** The gateway worker's own code over its message queue: dispatching, one turn of a worker
    thread, and stopping. Each queue operation and each look at the stop event is matched
    with one step of the machine in GatewayQueue, so whatever the threads interleave is a run
    of that machine.

    Source: discord/scripts/discord_gateway_service.py, `GatewayWorker`. */
module GatewayWorker {
  import opened GatewayQueue

  datatype Verdict = Queued | Overloaded | ShuttingDown

  /** The messages waiting in the queue. */
  function Messages(q: seq<Item>): multiset<Message> {
    if q == [] then multiset{}
    else (if q[0].Work? then multiset{q[0].message} else multiset{}) + Messages(q[1..])
  }

  lemma {:induction false} MessagesAreWaiting(q: seq<Item>, m: Message)
    ensures Messages(q)[m] == Waiting(q, m)
  {
    if q != [] {
      MessagesAreWaiting(q[1..], m);
    }
  }

  function Repeated(n: nat): seq<Item> {
    seq(n, _ => Sentinel)
  }

  class Worker {
    var queue: seq<Item>
    var stopEvent: bool
    var stopped: bool
    const workers: nat
    ghost var state: State

    ghost predicate Valid()
      reads this
    {
      && state.queue == queue && state.stopSet == stopEvent && workers <= WORKER_THREADS
      && (stopped <==> !state.stopper.Running?)
      && Bounded(state, workers) && AllWorkers(state, workers)
      && forall m: Message :: Conserved(state, m)
    }

    constructor (threads: nat)
      requires threads <= WORKER_THREADS
      ensures Valid() && state == Start(threads) && !stopped
    {
      queue, stopEvent, stopped, workers, state := [], false, false, threads, Start(threads);
    }

    /** The queue and the stop event are what this step of the machine leaves. */
    ghost method Take(a: Action)
      requires Enabled(state, a) && workers <= WORKER_THREADS && (stopped <==> !Do(state, a).stopper.Running?)
      requires Bounded(state, workers) && AllWorkers(state, workers) && forall m: Message :: Conserved(state, m)
      requires Do(state, a).queue == queue && Do(state, a).stopSet == stopEvent
      modifies this`state
      ensures state == Do(old(state), a) && Valid()
    {
      StepBounded(state, a, workers);
      StepWorkers(state, a, workers);
      forall m: Message
        ensures Conserved(Do(state, a), m)
      {
        StepConserved(state, a, m);
      }
      state := Do(state, a);
    }

    /** `dispatch_gateway_message`: refused once the stop event is set, refused when the queue is
        full, and otherwise put behind everything already waiting. */
    method DispatchGatewayMessage(message: Message) returns (verdict: Verdict)
      requires Valid() && state.dispatcher.Ready?
      modifies this
      ensures Valid() && state.dispatcher.Ready? && stopEvent == old(stopEvent) && stopped == old(stopped)
      ensures verdict == (if stopEvent then ShuttingDown
                          else if |old(queue)| == MAX_PENDING_MESSAGES then Overloaded else Queued)
      ensures queue == if verdict == Queued then old(queue) + [Work(message)] else old(queue)
      ensures state.given == old(state.given) + multiset{message}
      ensures state.overloaded == old(state.overloaded) + if verdict == Overloaded then multiset{message} else multiset{}
      ensures state.rejected == old(state.rejected) + if verdict == ShuttingDown then multiset{message} else multiset{}
    {
      hide Conserved, AllWorkers;
      Take(Give(message));
      if stopEvent {
        return ShuttingDown;
      }
      if |queue| < MAX_PENDING_MESSAGES {
        queue := queue + [Work(message)];
        verdict := Queued;
      } else {
        verdict := Overloaded;
      }
      Take(Put);
    }

    /** One turn of `message_worker_loop` on a non-empty queue. `ended` says that the thread returns. */
    method WorkerTurn() returns (ended: bool)
      requires Valid() && queue != [] && state.idle > 0
      modifies this
      ensures Valid() && stopEvent == old(stopEvent) && stopped == old(stopped)
      ensures queue == old(queue)[1..] && ended == (old(queue)[0] == Sentinel)
      ensures old(queue)[0].Work? ==>
                var m := multiset{old(queue)[0].message};
                if stopEvent then state.rejected == old(state.rejected) + m && state.handled == old(state.handled)
                else state.handled == old(state.handled) + m && state.rejected == old(state.rejected)
      ensures ended ==> state == old(state).(queue := queue, idle := old(state).idle - 1, exited := old(state).exited + 1)
    {
      hide Conserved, AllWorkers, Bounded;
      var item := queue[0];
      queue := queue[1..];
      Take(WorkerGet);
      if item == Sentinel {
        return true;
      }
      Take(WorkerCheck(item.message));
      if !stopEvent {
        Take(WorkerDone(item.message));
      }
      return false;
    }

    /** `request_stop`, which a signal handler calls before `stop`: from here on messages are
        refused, and the worker threads reject what they take. */
    method RequestStop()
      requires Valid()
      modifies this
      ensures Valid() && stopEvent && stopped == old(stopped) && queue == old(queue)
      ensures state == old(state).(stopSet := true)
    {
      hide Conserved, AllWorkers;
      stopEvent := true;
      Take(Action.RequestStop);
    }

    /** `stop`, first call: everything still waiting is rejected, in order, and then each worker
        thread finds one sentinel. There is always room for all of them. */
    method Stop()
      requires Valid()
      modifies this
      ensures Valid() && stopped
      ensures old(stopped) ==> queue == old(queue) && state == old(state) && stopEvent == old(stopEvent)
      ensures !old(stopped) ==>
                && stopEvent && queue == Repeated(workers) && state.stopper == Placing(workers)
                && state.rejected == old(state.rejected) + Messages(old(queue))
                && state.handled == old(state.handled) && state.overloaded == old(state.overloaded)
    {
      hide Conserved, AllWorkers;
      if stopped {
        return;
      }
      stopped, stopEvent := true, true;
      Take(Action.Stop);
      Drain();
      PlaceSentinels();
    }

    /** Only the queue moved, and messages that were rejected. */
    twostate predicate KeepsRest()
      reads this
    {
      stopped == old(stopped) && stopEvent == old(stopEvent) &&
      state.handled == old(state).handled && state.overloaded == old(state).overloaded
    }

    /** The first loop of `stop`. */
    method Drain()
      requires Valid() && stopEvent && state.stopper.Draining?
      modifies this
      ensures Valid() && KeepsRest() && queue == [] && state.stopper == Placing(0)
      ensures state.rejected == old(state.rejected) + Messages(old(queue))
    {
      while queue != []
        invariant Valid() && KeepsRest() && state.stopper.Draining?
        invariant state.rejected + Messages(queue) == old(state.rejected) + Messages(old(queue))
        decreases |queue|
      {
        DrainOne();
      }
      hide Conserved, AllWorkers;
      Take(DrainEmpty);
    }

    method DrainOne()
      requires Valid() && stopEvent && state.stopper.Draining? && queue != []
      modifies this
      ensures Valid() && KeepsRest() && queue == old(queue)[1..] && state.stopper.Draining?
      ensures state.rejected + Messages(queue) == old(state.rejected) + Messages(old(queue))
    {
      hide Conserved, AllWorkers, Bounded;
      var item := queue[0];
      queue := queue[1..];
      Take(DrainGet);
      if item != Sentinel {
        Take(DrainReject);
      }
    }

    /** The second loop of `stop`: `put_nowait` never finds the queue full. */
    method PlaceSentinels()
      requires Valid() && state.stopper == Placing(0) && queue == []
      modifies this
      ensures Valid() && KeepsRest() && queue == Repeated(workers) && state.stopper == Placing(workers)
      ensures state.rejected == old(state.rejected)
    {
      hide Conserved, AllWorkers;
      for placed := 0 to workers
        invariant Valid() && KeepsRest() && state.stopper == Placing(placed)
        invariant queue == Repeated(placed) && state.rejected == old(state.rejected)
      {
        queue := queue + [Sentinel];
        Take(PlaceSentinel);
      }
    }
  }
}
