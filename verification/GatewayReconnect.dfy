/** The gateway's reconnect loop: resume or identify, sequence numbers, and back-off.

    Source: discord/scripts/discord_gateway_service.py, `GatewayWorker.run_forever`. */
module GatewayReconnect {
  import opened Wrappers

  const BASE_DELAY: real := 5.0
  const MAX_DELAY: real := 60.0

  /** What the gateway sends. `s` is the event's sequence number, if it has one. */
  datatype Event =
    | Ready(s: Option<int>, session: string, userOk: bool)  // userOk: it names the configured user
    | Resumed(s: Option<int>)
    | Dispatch(s: Option<int>)                              // any other dispatch event
    | HeartbeatRequest(s: Option<int>)
    | HeartbeatAck(s: Option<int>)
    | Reconnect(s: Option<int>)                             // op 7
    | InvalidSession(s: Option<int>)                        // op 9
    | Other(s: Option<int>)

  /** One turn of the outer loop. A connection ends with the exception or the close that
      follows its last event; `jitter` is the random factor of the sleep after it. */
  datatype Attempt =
    | NotConfigured
    | ConnectFails(jitter: real)                    // up to and including a bad HELLO
    | Connected(events: seq<Event>, jitter: real)

  /** What goes out, in order. */
  datatype Output = Identify | Resume(session: string, number: int) | Sleep(seconds: real)

  /** The loop variables (`resumeSession` is "" when there is nothing to resume), and two facts
      the code does not keep: whose session the last sequence number was received in, and
      which session the open connection belongs to. */
  datatype Loop = Loop(lastSeq: Option<int>, resumeSession: string, backoff: real,
                       owner: Option<string>, live: Option<string>)

  const FRESH: Loop := Loop(None, "", BASE_DELAY, None, None)

  predicate CanResume(l: Loop) {
    l.resumeSession != "" && l.lastSeq.Some?
  }

  /** READY opens the session it names; every other event belongs to the connection's session. */
  function SessionOf(l: Loop, e: Event): Option<string> {
    if e.Ready? then Some(e.session) else l.live
  }

  function SeqAfter(l: Loop, e: Event): Loop {
    var l := l.(live := SessionOf(l, e));
    if e.s.Some? then l.(lastSeq := e.s, owner := l.live) else l
  }

  /** Handling one event: the loop variables after it, and whether it ends the connection. */
  function Handle(l: Loop, e: Event): (Loop, bool) {
    var l := SeqAfter(l, e);
    match e
    case Ready(_, session, userOk) =>
      if userOk then (l.(resumeSession := session, backoff := BASE_DELAY), false) else (l, true)
    case Resumed(_) => (l.(backoff := BASE_DELAY), false)
    case Reconnect(_) => (l, true)
    case InvalidSession(_) => (l.(resumeSession := "", lastSeq := None, owner := None), true)
    case _ => (l, false)
  }

  /** The event loop of one connection. */
  function HandleAll(l: Loop, events: seq<Event>): Loop
    decreases |events|
  {
    if events == [] then l
    else
      var (next, ends) := Handle(l, events[0]);
      if ends then next else HandleAll(next, events[1..])
  }

  function Greeting(l: Loop): Output {
    if CanResume(l) then Resume(l.resumeSession, l.lastSeq.value) else Identify
  }

  /** A resumed connection carries on the session; an identified one has none until READY. */
  function Open(l: Loop): Loop {
    l.(live := if CanResume(l) then Some(l.resumeSession) else None)
  }

  function Min(a: real, b: real): real { if a <= b then a else b }
  function Max(a: real, b: real): real { if a <= b then b else a }

  function BackOff(l: Loop): Loop {
    l.(backoff := Min(MAX_DELAY, Max(BASE_DELAY, l.backoff * 2.0)))
  }

  function Delay(backoff: real, jitter: real): real {
    Min(MAX_DELAY, backoff * jitter)
  }

  function RetrySleep(l: Loop, jitter: real): Output {
    Sleep(Delay(l.backoff, jitter))
  }

  /** The loop variables after one turn of the outer loop. */
  function Turn(l: Loop, a: Attempt): Loop {
    match a
    case NotConfigured => l
    case ConnectFails(_) => BackOff(l)
    case Connected(events, _) => BackOff(HandleAll(Open(l), events))
  }

  function TurnOutput(l: Loop, a: Attempt): seq<Output> {
    match a
    case NotConfigured => [Sleep(BASE_DELAY)]
    case ConnectFails(jitter) => [RetrySleep(l, jitter)]
    case Connected(events, jitter) => [Greeting(l), RetrySleep(HandleAll(Open(l), events), jitter)]
  }

  function Run(l: Loop, script: seq<Attempt>): Loop {
    if script == [] then l else Turn(Run(l, script[..|script| - 1]), script[|script| - 1])
  }

  function RunOutput(l: Loop, script: seq<Attempt>): seq<Output> {
    if script == [] then []
    else
      var n := |script| - 1;
      RunOutput(l, script[..n]) + TurnOutput(Run(l, script[..n]), script[n])
  }

  // ---------------------------------------------------------------- the loop itself

  /** `run_forever` against a script of what happens to it. */
  method RunForever(script: seq<Attempt>) returns (output: seq<Output>)
    ensures output == RunOutput(FRESH, script)
  {
    var lastSeq: Option<int>, resumeSession, backoff := None, "", BASE_DELAY;
    ghost var l := FRESH;
    output := [];
    for k := 0 to |script|
      invariant l == Run(FRESH, script[..k]) && output == RunOutput(FRESH, script[..k])
      invariant l.lastSeq == lastSeq && l.resumeSession == resumeSession && l.backoff == backoff
    {
      assert script[..k + 1][..k] == script[..k];
      ghost var before := output;
      match script[k] {
        case NotConfigured =>
          output := output + [Sleep(BASE_DELAY)];
        case ConnectFails(jitter) =>
          output := output + [Sleep(Delay(backoff, jitter))];
          backoff := Min(MAX_DELAY, Max(BASE_DELAY, backoff * 2.0));
        case Connected(events, jitter) =>
          var greeting := if resumeSession != "" && lastSeq.Some? then Resume(resumeSession, lastSeq.value) else Identify;
          lastSeq, resumeSession, backoff := ReceiveEvents(events, lastSeq, resumeSession, backoff, Open(l));
          output := output + [greeting, Sleep(Delay(backoff, jitter))];
          backoff := Min(MAX_DELAY, Max(BASE_DELAY, backoff * 2.0));
      }
      assert output == before + TurnOutput(l, script[k]);
      l := Turn(l, script[k]);
    }
    assert script[..|script|] == script;
  }

  /** The inner loop, over the events of one connection. */
  method ReceiveEvents(events: seq<Event>, lastSeq0: Option<int>, resumeSession0: string, backoff0: real, ghost start: Loop)
    returns (lastSeq: Option<int>, resumeSession: string, backoff: real)
    requires start.lastSeq == lastSeq0 && start.resumeSession == resumeSession0 && start.backoff == backoff0
    ensures var l := HandleAll(start, events); l.lastSeq == lastSeq && l.resumeSession == resumeSession && l.backoff == backoff
  {
    lastSeq, resumeSession, backoff := lastSeq0, resumeSession0, backoff0;
    ghost var l := start;
    var i := 0;
    while i < |events|
      invariant 0 <= i <= |events| && HandleAll(start, events) == HandleAll(l, events[i..])
      invariant l.lastSeq == lastSeq && l.resumeSession == resumeSession && l.backoff == backoff
    {
      var event := events[i];
      l := Handle(l, event).0;
      if event.s.Some? {
        lastSeq := event.s;
      }
      match event {
        case Ready(_, session, userOk) =>
          if !userOk {
            return;
          }
          resumeSession, backoff := session, BASE_DELAY;
        case Resumed(_) =>
          backoff := BASE_DELAY;
        case Reconnect(_) =>
          return;
        case InvalidSession(_) =>
          resumeSession, lastSeq := "", None;
          return;
        case _ =>
      }
      i := i + 1;
    }
  }

  // ---------------------------------------------------------------- resume pairs session and sequence number

  /** What would be resumed is a session with a sequence number received in that very session. */
  predicate Paired(l: Loop) {
    CanResume(l) ==> l.owner == Some(l.resumeSession)
  }

  /** The events that leave a sound pair sound. A number must arrive in the session that is kept
      for resuming: an accepted READY either brings one or leaves nothing older to pair with, and
      a refused READY, or any event of a connection without its own session yet, must not
      overwrite the number of an older session. */
  predicate KeepsPair(l: Loop, e: Event) {
    match e
    case InvalidSession(_) => true
    case Ready(s, session, true) => s.Some? || session == "" || l.lastSeq.None? || l.owner == Some(session)
    case _ => e.s.None? || l.resumeSession == "" || SessionOf(l, e) == Some(l.resumeSession)
  }

  /** One event keeps the pairing exactly when it is one of those. */
  lemma EventKeepsPairing(l: Loop, e: Event)
    requires Paired(l)
    ensures Paired(Handle(l, e).0) <==> KeepsPair(l, e)
  {
  }

  predicate AllKeep(l: Loop, events: seq<Event>)
    decreases |events|
  {
    events != [] ==> KeepsPair(l, events[0]) && (!Handle(l, events[0]).1 ==> AllKeep(Handle(l, events[0]).0, events[1..]))
  }

  /** Every event that any connection of the script handles is one of those. */
  predicate ScriptKeeps(script: seq<Attempt>) {
    script != [] ==>
      var n := |script| - 1;
      ScriptKeeps(script[..n]) && (script[n].Connected? ==> AllKeep(Open(Run(FRESH, script[..n])), script[n].events))
  }

  /** The script as it would be if connection `k` broke after `j` events. */
  function Broken(script: seq<Attempt>, k: nat, j: nat): seq<Attempt>
    requires k < |script| && script[k].Connected? && j <= |script[k].events|
  {
    script[..k] + [script[k].(events := script[k].events[..j])]
  }

  /** Wherever a connection breaks, the next greeting pairs nothing that does not belong together. */
  ghost predicate SoundWhereverBroken(script: seq<Attempt>) {
    forall k: nat, j: nat | k < |script| && script[k].Connected? && j <= |script[k].events| ::
      Paired(Run(FRESH, Broken(script, k, j)))
  }

  /** The loop variables once `j` of the events have come in. */
  function AfterEvents(l: Loop, events: seq<Event>, j: nat): Loop
    requires j <= |events|
  {
    HandleAll(l, events[..j])
  }

  lemma AfterFirst(l: Loop, events: seq<Event>, j: nat)
    requires 0 < j <= |events|
    ensures var (next, ends) := Handle(l, events[0]);
            AfterEvents(l, events, j) == if ends then next else AfterEvents(next, events[1..], j - 1)
  {
    assert events[..j][0] == events[0] && events[..j][1..] == events[1..][..j - 1];
  }

  lemma {:induction false} EventsKeepPairing(l: Loop, events: seq<Event>)
    requires Paired(l)
    ensures AllKeep(l, events) <==> forall j: nat | j <= |events| :: Paired(AfterEvents(l, events, j))
    decreases |events|
  {
    assert AfterEvents(l, events, 0) == l by {
      assert events[..0] == [];
    }
    if events != [] {
      var (next, ends) := Handle(l, events[0]);
      EventKeepsPairing(l, events[0]);
      forall j: nat | 0 < j <= |events|
        ensures AfterEvents(l, events, j) == if ends then next else AfterEvents(next, events[1..], j - 1)
      {
        AfterFirst(l, events, j);
      }
      if !ends && Paired(next) {
        EventsKeepPairing(next, events[1..]);
        hide AfterEvents, Paired, KeepsPair, Handle;
        if j': nat :| j' <= |events[1..]| && !Paired(AfterEvents(next, events[1..], j')) {
          assert !Paired(AfterEvents(l, events, j' + 1));
        }
      } else {
        hide AfterEvents, Paired, KeepsPair, Handle;
        assert AfterEvents(l, events, 1) == if ends then next else AfterEvents(next, events[1..], 0);
        AfterNone(next, events[1..]);
      }
    }
  }

  lemma AfterNone(l: Loop, events: seq<Event>)
    ensures AfterEvents(l, events, 0) == l
  {
    assert events[..0] == [];
  }

  lemma BrokenRun(script: seq<Attempt>, k: nat, j: nat)
    requires k < |script| && script[k].Connected? && j <= |script[k].events|
    ensures Run(FRESH, Broken(script, k, j)) == BackOff(AfterEvents(Open(Run(FRESH, script[..k])), script[k].events, j))
  {
    assert Broken(script, k, j)[..k] == script[..k];
  }

  lemma {:induction false} RunPaired(script: seq<Attempt>)
    requires ScriptKeeps(script)
    ensures Paired(Run(FRESH, script))
  {
    if script != [] {
      var n := |script| - 1;
      RunPaired(script[..n]);
      if script[n].Connected? {
        var events := script[n].events;
        EventsKeepPairing(Open(Run(FRESH, script[..n])), events);
        assert AfterEvents(Open(Run(FRESH, script[..n])), events, |events|) == HandleAll(Open(Run(FRESH, script[..n])), events) by {
          assert events[..|events|] == events;
        }
      }
    }
  }

  /** The exact condition: the next greeting is sound wherever a connection breaks if and only if
      every event handled keeps the pair. */
  lemma {:induction false} SoundExactlyWhenKept(script: seq<Attempt>)
    ensures SoundWhereverBroken(script) <==> ScriptKeeps(script)
  {
    hide Paired, Run, AllKeep, Open;
    if script != [] {
      var n := |script| - 1;
      var before := script[..n];
      SoundExactlyWhenKept(before);
      forall k: nat, j: nat | k < n && script[k].Connected? && j <= |script[k].events|
        ensures Broken(script, k, j) == Broken(before, k, j)
      {
        BrokenEarlier(script, k, j);
      }
      if ScriptKeeps(before) {
        LastConnection(script);
      } else {
        var k: nat, j: nat :| k < n && before[k].Connected? && j <= |before[k].events| && !Paired(Run(FRESH, Broken(before, k, j)));
        assert !Paired(Run(FRESH, Broken(script, k, j)));
      }
    }
  }

  /** The last connection is sound wherever it breaks exactly when all its events keep the pair. */
  lemma LastEvents(script: seq<Attempt>)
    requires script != [] && script[|script| - 1].Connected? && ScriptKeeps(script[..|script| - 1])
    ensures var n := |script| - 1;
            (forall j: nat | j <= |script[n].events| :: Paired(Run(FRESH, Broken(script, n, j))))
            <==> AllKeep(Open(Run(FRESH, script[..n])), script[n].events)
  {
    var n := |script| - 1;
    var l := Run(FRESH, script[..n]);
    RunPaired(script[..n]);
    assert Paired(Open(l));
    EventsKeepPairing(Open(l), script[n].events);
    forall j: nat | j <= |script[n].events|
      ensures Paired(Run(FRESH, Broken(script, n, j))) == Paired(AfterEvents(Open(l), script[n].events, j))
    {
      BrokenRun(script, n, j);
    }
    hide Run, Open, AfterEvents, AllKeep, Broken, ScriptKeeps, Paired;
  }

  /** The same for the whole script, once everything before its last attempt has kept the pair. */
  lemma LastConnection(script: seq<Attempt>)
    requires script != [] && ScriptKeeps(script[..|script| - 1]) && SoundWhereverBroken(script[..|script| - 1])
    ensures SoundWhereverBroken(script) <==> ScriptKeeps(script)
  {
    hide Paired, Run, AfterEvents, AllKeep, Open, Broken;
    var n := |script| - 1;
    if script[n].Connected? {
      LastEvents(script);
    }
    forall k: nat, j: nat | k < n && script[k].Connected? && j <= |script[k].events|
      ensures Paired(Run(FRESH, Broken(script, k, j)))
    {
      BrokenEarlier(script, k, j);
      assert script[..n][k] == script[k];
    }
  }

  lemma BrokenEarlier(script: seq<Attempt>, k: nat, j: nat)
    requires k < |script| - 1 && script[k].Connected? && j <= |script[k].events|
    ensures Broken(script, k, j) == Broken(script[..|script| - 1], k, j)
  {
    assert script[..|script| - 1][..k] == script[..k];
  }

  /** Over all reconnects: every RESUME that goes out pairs a session with a sequence number
      that was received in that session. */
  lemma ResumeNeverMixesSessions(script: seq<Attempt>, k: nat)
    requires k < |script| && ScriptKeeps(script[..k]) && script[k].Connected?
    ensures var l := Run(FRESH, script[..k]); var g := TurnOutput(l, script[k])[0];
      g.Resume? ==> g.session == l.resumeSession && l.lastSeq == Some(g.number) && l.owner == Some(g.session)
  {
    RunPaired(script[..k]);
  }

  /** What a gateway does that numbers every READY and names the configured user in it. */
  predicate NumbersReady(events: seq<Event>) {
    forall e | e in events && e.Ready? :: e.s.Some? && e.userOk
  }

  /** Then whatever is kept for resuming has its own number, and so does the open connection. */
  predicate FullyPaired(l: Loop) {
    l.resumeSession != "" ==> l.lastSeq.Some? && l.owner == Some(l.resumeSession)
  }

  lemma {:induction false} NumberedEventsKeep(l: Loop, events: seq<Event>)
    requires FullyPaired(l) && NumbersReady(events) && (l.resumeSession != "" ==> l.live == Some(l.resumeSession))
    ensures AllKeep(l, events) && FullyPaired(HandleAll(l, events))
    decreases |events|
  {
    if events != [] {
      var (next, ends) := Handle(l, events[0]);
      assert events[0] in events;
      if !ends {
        NumberedEventsKeep(next, events[1..]);
      }
    }
  }

  /** Judged from the scripts alone: if every READY carries a number and names the configured
      user, every event keeps the pair, so no RESUME ever mixes sessions. */
  lemma {:induction false} NumberedReadysSuffice(script: seq<Attempt>)
    requires forall a | a in script && a.Connected? :: NumbersReady(a.events)
    ensures ScriptKeeps(script) && FullyPaired(Run(FRESH, script))
  {
    if script != [] {
      var n := |script| - 1;
      NumberedReadysSuffice(script[..n]);
      if script[n].Connected? {
        assert script[n] in script;
        NumberedEventsKeep(Open(Run(FRESH, script[..n])), script[n].events);
      }
    }
  }

  /** Without those conditions it does: a READY with no number of its own leaves the old number, one
      that is refused because it names another user leaves the old session, and so does a
      number that arrives on a new connection before its READY. */
  lemma ReadyWithoutNumberMixes()
    ensures var first, second := Connected([Ready(Some(1), "A", true), Dispatch(Some(9)), Reconnect(None)], 1.0),
                                 Connected([Ready(None, "B", true)], 1.0);
      var l := Run(FRESH, [first, second]);
      Greeting(l) == Resume("B", 9) && l.owner == Some("A")
    ensures var first, second := Connected([Ready(Some(1), "A", true), Reconnect(None)], 1.0),
                                 Connected([Ready(Some(2), "B", false)], 1.0);
      var l := Run(FRESH, [first, second]);
      Greeting(l) == Resume("A", 2) && l.owner == Some("B")
    ensures var first, second := Connected([Ready(None, "A", true), Reconnect(None)], 1.0), Connected([Dispatch(Some(3))], 1.0);
      var l := Run(FRESH, [first, second]);
      Greeting(l) == Resume("A", 3) && l.owner == None
  {
    ReadyMixes([Ready(Some(1), "A", true), Dispatch(Some(9)), Reconnect(None)], Ready(None, "B", true));
    ReadyMixes([Ready(Some(1), "A", true), Reconnect(None)], Ready(Some(2), "B", false));
    ReadyMixes([Ready(None, "A", true), Reconnect(None)], Dispatch(Some(3)));
  }

  lemma ReadyMixes(events: seq<Event>, ready: Event)
    ensures var first, second := Connected(events, 1.0), Connected([ready], 1.0);
      Run(FRESH, [first, second]) == BackOff(Handle(Open(BackOff(HandleAll(Open(FRESH), events))), ready).0)
  {
    var first, second := Connected(events, 1.0), Connected([ready], 1.0);
    assert [first, second][..1] == [first] && [first][..0] == [];
    var l := Open(BackOff(HandleAll(Open(FRESH), events)));
    assert Run(FRESH, [first]) == BackOff(HandleAll(Open(FRESH), events));
    assert [ready][1..] == [] && HandleAll(l, [ready]) == Handle(l, ready).0;
  }

  // ---------------------------------------------------------------- invalid sessions

  /** The connection got as far as event `i`. */
  predicate Receives(l: Loop, events: seq<Event>, i: nat)
    decreases |events|
  {
    i < |events| && (i == 0 || (!Handle(l, events[0]).1 && Receives(Handle(l, events[0]).0, events[1..], i - 1)))
  }

  lemma {:induction false} InvalidSessionClears(l: Loop, events: seq<Event>, i: nat)
    requires Receives(l, events, i) && events[i].InvalidSession?
    ensures HandleAll(l, events).resumeSession == "" && HandleAll(l, events).lastSeq == None
    decreases |events|
  {
    if i > 0 {
      InvalidSessionClears(Handle(l, events[0]).0, events[1..], i - 1);
    }
  }

  lemma {:induction false} IdleTurnsKeepSession(l: Loop, idle: seq<Attempt>)
    requires forall a | a in idle :: !a.Connected?
    ensures Run(l, idle).resumeSession == l.resumeSession && Run(l, idle).lastSeq == l.lastSeq
  {
    if idle != [] {
      IdleTurnsKeepSession(l, idle[..|idle| - 1]);
    }
  }

  /** An invalid-session event forces the next connection to IDENTIFY, however many attempts
      fail before one comes about. */
  lemma InvalidSessionForcesIdentify(l: Loop, events: seq<Event>, i: nat, jitter: real, idle: seq<Attempt>)
    requires Receives(Open(l), events, i) && events[i].InvalidSession?
    requires forall a | a in idle :: !a.Connected?
    ensures Greeting(Run(Turn(l, Connected(events, jitter)), idle)) == Identify
  {
    InvalidSessionClears(Open(l), events, i);
    IdleTurnsKeepSession(Turn(l, Connected(events, jitter)), idle);
  }

  // ---------------------------------------------------------------- back-off

  predicate JitterOk(a: Attempt) {
    !a.NotConfigured? ==> 0.8 <= a.jitter <= 1.2
  }

  predicate BackOffOk(l: Loop) {
    BASE_DELAY <= l.backoff <= MAX_DELAY
  }

  lemma {:induction false} EventsKeepBackOff(l: Loop, events: seq<Event>)
    requires BackOffOk(l)
    ensures BackOffOk(HandleAll(l, events))
    decreases |events|
  {
    if events != [] {
      var (next, ends) := Handle(l, events[0]);
      if !ends {
        EventsKeepBackOff(next, events[1..]);
      }
    }
  }

  lemma {:induction false} RunBackOff(script: seq<Attempt>)
    ensures BackOffOk(Run(FRESH, script))
  {
    if script != [] {
      var n := |script| - 1;
      RunBackOff(script[..n]);
      if script[n].Connected? {
        EventsKeepBackOff(Open(Run(FRESH, script[..n])), script[n].events);
      }
    }
  }

  /** Every retry sleep is between 4 and 60 seconds, for every history of the loop. */
  lemma {:induction false} SleepsBounded(script: seq<Attempt>)
    requires forall a | a in script :: JitterOk(a)
    ensures forall o | o in RunOutput(FRESH, script) && o.Sleep? :: 4.0 <= o.seconds <= 60.0
  {
    if script != [] {
      var n := |script| - 1;
      SleepsBounded(script[..n]);
      RunBackOff(script[..n]);
      var l, a := Run(FRESH, script[..n]), script[n];
      assert JitterOk(a);
      if a.Connected? {
        EventsKeepBackOff(Open(l), a.events);
        ScaledDelay(HandleAll(Open(l), a.events).backoff, a.jitter);
      } else if a.ConnectFails? {
        ScaledDelay(l.backoff, a.jitter);
      }
    }
  }

  lemma ScaledDelay(b: real, jitter: real)
    requires 5.0 <= b <= 60.0 && 0.8 <= jitter <= 1.2
    ensures 4.0 <= Delay(b, jitter) <= 60.0
  {
    Product(b - 5.0, jitter);
    assert b * jitter == 5.0 * jitter + (b - 5.0) * jitter;
  }

  lemma Product(x: real, y: real)
    requires x >= 0.0 && y >= 0.0
    ensures x * y >= 0.0
  {
  }
}
