/** What the base-ref lint's demand for an exit comes to: the status an accepted block leaves
    with, for all answers of its conditions.

    Source: scripts/gascity_pack_inference_gate.py, `polecat_base_ref_stop_arm_problems`. */
module BaseRefExit {
  import opened BaseRefLint
  import opened Text
  import opened Wrappers

  /** Some answers of its conditions let the program run to its end. */
  predicate CanFall(p: Stmts)
    decreases p
  {
    p.Cons? ==> StmtCanFall(p.head) && CanFall(p.rest)
  }

  predicate StmtCanFall(st: Stmt)
    decreases st
  {
    match st
    case Exit(_) => false
    case If(_, body, tail) => CanFall(body) || TailCanFall(tail)
    case _ => !Aborts(st)
  }

  predicate TailCanFall(t: Tail)
    decreases t
  {
    match t
    case Fi => true
    case Else(arm) => CanFall(arm)
    case Elif(_, body, tail) => CanFall(body) || TailCanFall(tail)
  }

  /** The two ways not to stop with a failing status: an exit with status 0, and bash giving up
      the block. */
  datatype Goal = ZeroExit | Abandon

  predicate Met(o: Outcome, goal: Goal) {
    match goal
    case ZeroExit => o.Exited? && o.status == 0
    case Abandon => o.Aborted?
  }

  /** A statement that does it, and that is not behind one at which the run always ends first. */
  predicate Reaches(p: Stmts, goal: Goal)
    decreases p
  {
    p.Cons? && (StmtReaches(p.head, goal) || (StmtCanFall(p.head) && Reaches(p.rest, goal)))
  }

  predicate StmtReaches(st: Stmt, goal: Goal)
    decreases st
  {
    match st
    case Exit(code) => goal == ZeroExit && Status(code) == 0
    case If(_, body, tail) => Reaches(body, goal) || TailReaches(tail, goal)
    case _ => goal == Abandon && Aborts(st)
  }

  predicate TailReaches(t: Tail, goal: Goal)
    decreases t
  {
    match t
    case Fi => false
    case Else(arm) => Reaches(arm, goal)
    case Elif(_, body, tail) => Reaches(body, goal) || TailReaches(tail, goal)
  }

  /** What a run shows is what the text allows. */
  predicate Allowed(o: Outcome, falls: bool, goal: Goal, reaches: bool) {
    (o.FellThrough? ==> falls) && (Met(o, goal) ==> reaches)
  }

  lemma {:induction false} RunAllowed(p: Stmts, s: Shell, env: Env, goal: Goal)
    ensures Allowed(Run(p, s, env), CanFall(p), goal, Reaches(p, goal))
    decreases p
  {
    if p.Cons? {
      StmtAllowed(p.head, s, env, goal);
      if RunStmt(p.head, s, env).FellThrough? {
        RunAllowed(p.rest, RunStmt(p.head, s, env).shell, env, goal);
      }
    }
  }

  lemma {:induction false} StmtAllowed(st: Stmt, s: Shell, env: Env, goal: Goal)
    ensures Allowed(RunStmt(st, s, env), StmtCanFall(st), goal, StmtReaches(st, goal))
    decreases st
  {
    if st.If? {
      if env.eval(st.cond, s) { RunAllowed(st.body, Tick(s), env, goal); } else { TailAllowed(st.tail, Tick(s), env, goal); }
    }
  }

  lemma {:induction false} TailAllowed(t: Tail, s: Shell, env: Env, goal: Goal)
    ensures Allowed(RunTail(t, s, env), TailCanFall(t), goal, TailReaches(t, goal))
    decreases t
  {
    match t {
      case Fi =>
      case Else(arm) => RunAllowed(arm, s, env, goal);
      case Elif(cond, body, tail) =>
        if env.eval(cond, s) { RunAllowed(body, Tick(s), env, goal); } else { TailAllowed(tail, Tick(s), env, goal); }
    }
  }

  // The other way round: whatever the text allows happens under suitable answers. Every condition
  // is asked, and every command's output taken, at a moment of its own, so a list of answers from
  // one moment on decides a run.

  ghost predicate Follows(env: Env, clock: nat, answers: seq<bool>) {
    && (forall cond: Cond, s: Shell | clock <= s.clock < clock + |answers| :: env.eval(cond, s) == answers[s.clock - clock])
    && (forall args: Words, s: Shell | clock <= s.clock < clock + |answers| :: env.output(args, s).ok == answers[s.clock - clock])
  }

  lemma FollowsParts(env: Env, clock: nat, a: seq<bool>, b: seq<bool>)
    requires Follows(env, clock, a + b)
    ensures Follows(env, clock, a) && Follows(env, clock + |a|, b)
  {
    assert forall k | 0 <= k < |b| :: (a + b)[|a| + k] == b[k];
    forall cond: Cond, s: Shell | clock + |a| <= s.clock < clock + |a| + |b|
      ensures env.eval(cond, s) == b[s.clock - (clock + |a|)]
    {
      assert (a + b)[s.clock - clock] == b[s.clock - (clock + |a|)];
    }
    forall args: Words, s: Shell | clock + |a| <= s.clock < clock + |a| + |b|
      ensures env.output(args, s).ok == b[s.clock - (clock + |a|)]
    {
      assert (a + b)[s.clock - clock] == b[s.clock - (clock + |a|)];
    }
  }

  lemma FollowsFirst(env: Env, s: Shell, answer: bool, rest: seq<bool>)
    requires Follows(env, s.clock, [answer] + rest)
    ensures (forall cond: Cond :: env.eval(cond, s) == answer) && (forall args: Words :: env.output(args, s).ok == answer)
    ensures Follows(env, s.clock + 1, rest)
  {
    FollowsParts(env, s.clock, [answer], rest);
  }

  /** Answers that lead through the program. */
  function Through(p: Stmts): seq<bool>
    requires CanFall(p)
    decreases p
  {
    if p.Nil? then [] else StmtThrough(p.head) + Through(p.rest)
  }

  function StmtThrough(st: Stmt): seq<bool>
    requires StmtCanFall(st)
    decreases st
  {
    match st
    case If(_, body, tail) => if CanFall(body) then [true] + Through(body) else [false] + TailThrough(tail)
    case Assign(_, value) => if value.Output? then [true] else []
    case _ => []
  }

  function TailThrough(t: Tail): seq<bool>
    requires TailCanFall(t)
    decreases t
  {
    match t
    case Fi => []
    case Else(arm) => Through(arm)
    case Elif(_, body, tail) => if CanFall(body) then [true] + Through(body) else [false] + TailThrough(tail)
  }

  predicate FellAt(o: Outcome, clock: nat) {
    o.FellThrough? && o.shell.clock == clock
  }

  lemma {:induction false} ThroughFalls(p: Stmts, s: Shell, env: Env)
    requires CanFall(p) && Follows(env, s.clock, Through(p))
    ensures FellAt(Run(p, s, env), s.clock + |Through(p)|)
    decreases p
  {
    hide Follows;
    if p.Cons? {
      FollowsParts(env, s.clock, StmtThrough(p.head), Through(p.rest));
      StmtThroughFalls(p.head, s, env);
      ThroughFalls(p.rest, RunStmt(p.head, s, env).shell, env);
    }
  }

  lemma {:induction false} StmtThroughFalls(st: Stmt, s: Shell, env: Env)
    requires StmtCanFall(st) && Follows(env, s.clock, StmtThrough(st))
    ensures FellAt(RunStmt(st, s, env), s.clock + |StmtThrough(st)|)
    decreases st
  {
    hide Follows;
    if st.If? {
      if CanFall(st.body) {
        FollowsFirst(env, s, true, Through(st.body));
        ThroughFalls(st.body, Tick(s), env);
      } else {
        FollowsFirst(env, s, false, TailThrough(st.tail));
        TailThroughFalls(st.tail, Tick(s), env);
      }
    }
  }

  lemma {:induction false} TailThroughFalls(t: Tail, s: Shell, env: Env)
    requires TailCanFall(t) && Follows(env, s.clock, TailThrough(t))
    ensures FellAt(RunTail(t, s, env), s.clock + |TailThrough(t)|)
    decreases t
  {
    hide Follows;
    match t {
      case Fi =>
      case Else(arm) => ThroughFalls(arm, s, env);
      case Elif(cond, body, tail) =>
        if CanFall(body) {
          FollowsFirst(env, s, true, Through(body));
          ThroughFalls(body, Tick(s), env);
        } else {
          FollowsFirst(env, s, false, TailThrough(tail));
          TailThroughFalls(tail, Tick(s), env);
        }
    }
  }

  /** Answers that lead to the goal. */
  function To(p: Stmts, goal: Goal): seq<bool>
    requires Reaches(p, goal)
    decreases p
  {
    if StmtReaches(p.head, goal) then StmtTo(p.head, goal) else StmtThrough(p.head) + To(p.rest, goal)
  }

  function StmtTo(st: Stmt, goal: Goal): seq<bool>
    requires StmtReaches(st, goal)
    decreases st
  {
    if !st.If? then []
    else if Reaches(st.body, goal) then [true] + To(st.body, goal)
    else [false] + TailTo(st.tail, goal)
  }

  function TailTo(t: Tail, goal: Goal): seq<bool>
    requires TailReaches(t, goal)
    decreases t
  {
    match t
    case Else(arm) => To(arm, goal)
    case Elif(_, body, tail) => if Reaches(body, goal) then [true] + To(body, goal) else [false] + TailTo(tail, goal)
  }

  lemma {:induction false} ToMeets(p: Stmts, s: Shell, env: Env, goal: Goal)
    requires Reaches(p, goal) && Follows(env, s.clock, To(p, goal))
    ensures Met(Run(p, s, env), goal)
    decreases p
  {
    hide Follows;
    if StmtReaches(p.head, goal) {
      StmtToMeets(p.head, s, env, goal);
    } else {
      FollowsParts(env, s.clock, StmtThrough(p.head), To(p.rest, goal));
      StmtThroughFalls(p.head, s, env);
      ToMeets(p.rest, RunStmt(p.head, s, env).shell, env, goal);
    }
  }

  lemma {:induction false} StmtToMeets(st: Stmt, s: Shell, env: Env, goal: Goal)
    requires StmtReaches(st, goal) && Follows(env, s.clock, StmtTo(st, goal))
    ensures Met(RunStmt(st, s, env), goal)
    decreases st
  {
    hide Follows;
    if st.If? {
      if Reaches(st.body, goal) {
        FollowsFirst(env, s, true, To(st.body, goal));
        ToMeets(st.body, Tick(s), env, goal);
      } else {
        FollowsFirst(env, s, false, TailTo(st.tail, goal));
        TailToMeets(st.tail, Tick(s), env, goal);
      }
    }
  }

  lemma {:induction false} TailToMeets(t: Tail, s: Shell, env: Env, goal: Goal)
    requires TailReaches(t, goal) && Follows(env, s.clock, TailTo(t, goal))
    ensures Met(RunTail(t, s, env), goal)
    decreases t
  {
    hide Follows;
    match t {
      case Else(arm) => ToMeets(arm, s, env, goal);
      case Elif(cond, body, tail) =>
        if Reaches(body, goal) {
          FollowsFirst(env, s, true, To(body, goal));
          ToMeets(body, Tick(s), env, goal);
        } else {
          FollowsFirst(env, s, false, TailTo(tail, goal));
          TailToMeets(tail, Tick(s), env, goal);
        }
    }
  }

  /** One "no" for each outer condition, then the way to the goal in the else arm. */
  function OuterNo(t: Tail): seq<bool>
    decreases t
  {
    [false] + if t.Elif? then OuterNo(t.tail) else []
  }

  lemma {:induction false} OuterNoReachesArm(cond: Cond, body: Stmts, t: Tail, s: Shell, env: Env, goal: Goal)
    requires ElseArm(t).Some? && Reaches(ElseArm(t).value, goal)
    requires Follows(env, s.clock, OuterNo(t) + To(ElseArm(t).value, goal))
    ensures OuterFalse(cond, t, s, env) && Met(RunStmt(If(cond, body, t), s, env), goal)
    decreases t
  {
    hide To, Reaches, Run, Met, Follows;
    var rest := if t.Elif? then OuterNo(t.tail) else [];
    var way := To(ElseArm(t).value, goal);
    assert OuterNo(t) + way == [false] + (rest + way);
    FollowsFirst(env, s, false, rest + way);
    if t.Elif? {
      OuterNoReachesArm(t.cond, t.body, t.tail, Tick(s), env, goal);
      assert RunStmt(If(cond, body, t), s, env) == RunStmt(If(t.cond, t.body, t.tail), Tick(s), env);
    } else {
      assert rest + way == way;
      ToMeets(ElseArm(t).value, Tick(s), env, goal);
    }
  }

  /** An environment that gives these answers, and the same text for everything else. */
  function Scripted(answers: seq<bool>, text: string): Env {
    var answer := (s: Shell) => s.clock < |answers| && answers[s.clock];
    Env((_, s) => answer(s), (_, s) => Printed(text, answer(s)), (_, _) => text)
  }

  /** With some answers that make its outer conditions false, the block ends this way. */
  ghost predicate CanEnd(cond: Cond, body: Stmts, tail: Tail, goal: Goal) {
    exists s: Shell, env: Env :: OuterFalse(cond, tail, s, env) && Met(RunStmt(If(cond, body, tail), s, env), goal)
  }

  lemma ScriptFollows(answers: seq<bool>, text: string)
    ensures Follows(Scripted(answers, text), 0, answers)
  {
  }

  lemma ReachedIsMet(cond: Cond, body: Stmts, tail: Tail, goal: Goal)
    requires ElseArm(tail).Some? && Reaches(ElseArm(tail).value, goal)
    ensures CanEnd(cond, body, tail, goal)
  {
    hide OuterFalse, RunStmt, Reaches, To, Met, Follows, Scripted;
    var answers := OuterNo(tail) + To(ElseArm(tail).value, goal);
    var s, env := Shell(_ => "", 0), Scripted(answers, "");
    ScriptFollows(answers, "");
    OuterNoReachesArm(cond, body, tail, s, env, goal);
  }

  /** The text of the else arm decides how the block can end when nothing was found. */
  lemma ArmDecides(cond: Cond, body: Stmts, tail: Tail, goal: Goal)
    requires ElseArm(tail).Some?
    ensures CanEnd(cond, body, tail, goal) <==> Reaches(ElseArm(tail).value, goal)
  {
    var arm := ElseArm(tail).value;
    hide OuterFalse, RunStmt, Run, Reaches, Met;
    if Reaches(arm, goal) {
      ReachedIsMet(cond, body, tail, goal);
    }
    if CanEnd(cond, body, tail, goal) {
      var s: Shell, env: Env :| OuterFalse(cond, tail, s, env) && Met(RunStmt(If(cond, body, tail), s, env), goal);
      OuterFalseRunsElse(cond, body, tail, s, env);
      var s': Shell :| s'.vars == s.vars && RunStmt(If(cond, body, tail), s, env) == Run(arm, s', env);
      RunAllowed(arm, s', env, goal);
    }
  }

  /** Whenever its outer conditions come out false, the block leaves by an exit. */
  ghost predicate AlwaysExits(cond: Cond, body: Stmts, tail: Tail) {
    forall s: Shell, env: Env | OuterFalse(cond, tail, s, env) :: RunStmt(If(cond, body, tail), s, env).Exited?
  }

  /** Whenever its outer conditions come out false, the block leaves with a failing status. */
  ghost predicate AlwaysFails(cond: Cond, body: Stmts, tail: Tail) {
    forall s: Shell, env: Env | OuterFalse(cond, tail, s, env) ::
      RunStmt(If(cond, body, tail), s, env).Exited? && RunStmt(If(cond, body, tail), s, env).status != 0
  }

  lemma AcceptedNeverFalls(cond: Cond, body: Stmts, tail: Tail)
    requires WellFormedStmt(If(cond, body, tail)) && Accepts(StmtLines(If(cond, body, tail)))
    ensures ElseArm(tail).Some?
    ensures forall s: Shell, env: Env | OuterFalse(cond, tail, s, env) :: !RunStmt(If(cond, body, tail), s, env).FellThrough?
  {
    StopArmIsElseArm(cond, body, tail);
    hide WellFormedStmt, Accepts, StmtLines, OuterFalse, RunStmt;
    forall s: Shell, env: Env | OuterFalse(cond, tail, s, env)
      ensures !RunStmt(If(cond, body, tail), s, env).FellThrough?
    {
      AcceptedBlockStops(cond, body, tail, s, env);
    }
  }

  /** An accepted block always leaves by an exit if and only if its else arm reaches no assignment to
      a readonly variable and no bad substitution before the exit that is always taken. */
  lemma AcceptedBlockExits(cond: Cond, body: Stmts, tail: Tail)
    requires WellFormedStmt(If(cond, body, tail)) && Accepts(StmtLines(If(cond, body, tail)))
    ensures ElseArm(tail).Some?
    ensures AlwaysExits(cond, body, tail) <==> !Reaches(ElseArm(tail).value, Abandon)
  {
    AcceptedNeverFalls(cond, body, tail);
    ArmDecides(cond, body, tail, Abandon);
    hide WellFormedStmt, Accepts, OuterFalse, RunStmt, Reaches;
  }

  /** The lint asks for an exit that is not spelled `exit 0`. An accepted block always fails if and
      only if its else arm moreover reaches no exit with status 0, at any depth. */
  lemma AcceptedBlockFails(cond: Cond, body: Stmts, tail: Tail)
    requires WellFormedStmt(If(cond, body, tail)) && Accepts(StmtLines(If(cond, body, tail)))
    ensures ElseArm(tail).Some?
    ensures AlwaysFails(cond, body, tail) <==> !Reaches(ElseArm(tail).value, ZeroExit) && !Reaches(ElseArm(tail).value, Abandon)
  {
    AcceptedNeverFalls(cond, body, tail);
    ArmDecides(cond, body, tail, ZeroExit);
    ArmDecides(cond, body, tail, Abandon);
    hide WellFormedStmt, Accepts, OuterFalse, RunStmt, Reaches;
  }

  // ---------------------------------------------------------------- arms that report and leave

  /** Some statements, one after the other, and then an exit. */
  function Arm(first: seq<Stmt>, code: string): Stmts {
    if first == [] then Cons(Exit(code), Nil) else Cons(first[0], Arm(first[1..], code))
  }

  predicate Simple(first: seq<Stmt>) {
    forall i | 0 <= i < |first| :: !first[i].If? && WellFormedStmt(first[i])
  }

  function ArmLines(first: seq<Stmt>, code: string): seq<string> {
    seq(|first|, i requires 0 <= i < |first| => StmtLines(first[i])[0]) + ["exit " + code]
  }

  lemma ArmLinesStep(first: seq<Stmt>, code: string)
    requires first != []
    ensures ArmLines(first, code) == [StmtLines(first[0])[0]] + ArmLines(first[1..], code)
  {
    hide StmtLines;
  }

  /** The scanner keeps all lines of such an arm. */
  lemma {:induction false} ArmShows(first: seq<Stmt>, code: string)
    requires Simple(first) && ExitCode(code)
    ensures WellFormed(Arm(first, code)) && TopLines(Arm(first, code)) == Lines(Arm(first, code)) == ArmLines(first, code)
  {
    var arm := Arm(first, code);
    if first == [] {
      assert Lines(arm) == StmtLines(Exit(code)) + [] && TopLines(arm) == StmtLines(Exit(code)) + [];
    } else {
      ArmShows(first[1..], code);
      SimpleLines(first[0]);
      hide WellFormedStmt, StmtLines, ExitCode;
      assert StmtLines(first[0]) == [StmtLines(first[0])[0]];
      ArmLinesStep(first, code);
      hide ArmLines;
      assert arm == Cons(first[0], Arm(first[1..], code));
    }
  }

  /** A run of such an arm ends at the first statement that aborts, or with its exit. */
  lemma {:induction false} ArmRuns(first: seq<Stmt>, code: string, s: Shell, env: Env)
    requires forall i | 0 <= i < |first| :: first[i].Command? && !Aborts(first[i])
    ensures Run(Arm(first, code), s, env) == Exited(Status(code), s)
  {
    if first != [] {
      ArmRuns(first[1..], code, s, env);
    } else {
      assert RunStmt(Exit(code), s, env) == Exited(Status(code), s);
    }
  }

  lemma {:induction false} ArmReaches(first: seq<Stmt>, code: string, goal: Goal)
    requires forall i | 0 <= i < |first| :: first[i].Command? && !Aborts(first[i])
    ensures Reaches(Arm(first, code), goal) <==> goal == ZeroExit && Status(code) == 0
  {
    if first != [] {
      ArmReaches(first[1..], code, goal);
    }
  }

  // ---------------------------------------------------------------- accepted blocks that do not fail

  const PROBE_ARGS: Words := [Bare(Plain("show-ref --verify --quiet ")), Quoted([Var("BASE_REMOTE")])]
  const PROBE: Cond := Is(Git(PROBE_ARGS))
  const TAKE_REMOTE: Stmt := Assign("BASE_REF", Taking("BASE_REMOTE"))
  const STOP_PARTS: seq<Part> := [Plain(STOP_HEAD), Braced("WS_BASE_BRANCH"), Plain(STOP_TAIL)]
  const STOP: Stmt := Command("echo", [Quoted(STOP_PARTS)])

  function Around(body: Stmts, arm: Stmts): Stmt {
    If(PROBE, body, Else(arm))
  }

  const TAKEN: Stmts := Cons(TAKE_REMOTE, Nil)

  function Block(arm: Stmts): Stmt {
    Around(TAKEN, arm)
  }

  lemma QuotedWord(parts: seq<Part>)
    requires PartsOk(parts)
    ensures WordsOk([Quoted(parts)]) && OneWord([Quoted(parts)]) && Trimmed([Quoted(parts)])
    ensures Bad([Quoted(parts)]) <==> BadParts(parts)
    ensures WordsText([Quoted(parts)]) == InQuotes(parts)
  {
    hide PartsOk, BadParts;
    var ws := [Quoted(parts)];
    assert ws[0] == Quoted(parts) && ws[1..] == [];
    assert WordsText(ws[1..]) == "";
    assert BadParts(parts) ==> BadPiece(ws[0]);
  }

  lemma OneVar(name: string)
    requires name != "" && NameChars(name)
    ensures PartsOk([Var(name)]) && !BadParts([Var(name)]) && PartsText([Var(name)]) == "$" + name
  {
    hide NameChars;
    var none: seq<Part> := [Var(name)][1..];
    assert none == [] && PartsText(none) == "";
  }

  lemma PlainWord(t: string, quoted: seq<Part>)
    requires t != "" && PlainBare(t, true) && PartsOk(quoted) && !BadParts(quoted)
    ensures var ws := [Bare(Plain(t)), Quoted(quoted)];
            WordsOk(ws) && !Bad(ws) && Trimmed(ws) && WordsText(ws) == t + InQuotes(quoted)
  {
    hide PartsOk, BadParts, PlainBare;
    QuotedWord(quoted);
    var ws := [Bare(Plain(t)), Quoted(quoted)];
    assert ws[1..] == [Quoted(quoted)];
  }

  lemma ProbeArgs()
    ensures PlainBare("show-ref --verify --quiet ", true)
  {
  }

  lemma RemoteName()
    ensures NameChars("BASE_REMOTE")
  {
  }

  lemma RefTexts()
    ensures "BASE_REF" + "=" + ("\"" + ("$" + "BASE_REMOTE") + "\"") == ALLOWED_REMOTE
  {
  }

  lemma AnchorText()
    ensures "if " + ("git " + ("show-ref --verify --quiet " + ("\"" + ("$" + "BASE_REMOTE") + "\""))) + "; then" == ANCHOR
  {
    assert "if " + "git " == "if git ";
    assert ("\"" + ("$" + "BASE_REMOTE") + "\"") + "; then" == "\"$BASE_REMOTE\"; then";
  }

  lemma BlockParts()
    ensures CondOk(PROBE) && IfLine(PROBE) == ANCHOR
    ensures WellFormedStmt(TAKE_REMOTE) && StmtLines(TAKE_REMOTE) == [ALLOWED_REMOTE]
  {
    ProbeArgs();
    RemoteName();
    RefTexts();
    AnchorText();
    OneVar("BASE_REMOTE");
    QuotedWord([Var("BASE_REMOTE")]);
    PlainWord("show-ref --verify --quiet ", [Var("BASE_REMOTE")]);
    hide NameChars, PlainBare, ANCHOR, ALLOWED_REMOTE, WordsText, PartsText, Bad, WordsOk;
    assert InQuotes([Var("BASE_REMOTE")]) == "\"" + ("$" + "BASE_REMOTE") + "\"";
  }

  lemma StopHeadText()
    ensures PlainQuoted(STOP_HEAD) && STOP_HEAD != ""
  {
  }

  lemma StopTailText()
    ensures PlainQuoted(STOP_TAIL) && STOP_TAIL != ""
  {
  }

  lemma BranchName()
    ensures Identifier("WS_BASE_BRANCH")
  {
  }

  lemma ThreeParts(a: Part, b: Part, c: Part)
    requires QuotedOk(a) && QuotedOk(b) && QuotedOk(c) && !BadPart(a) && !BadPart(b) && !BadPart(c) && !a.Var? && !b.Var?
    ensures PartsOk([a, b, c]) && !BadParts([a, b, c])
    ensures PartsText([a, b, c]) == PartText(a) + PartText(b) + PartText(c)
  {
    hide QuotedOk, BadPart;
    var parts := [a, b, c];
    assert parts[1..] == [b, c] && [b, c][1..] == [c] && [c][1..] == [];
    assert PartsText([c]) == PartText(c) + PartsText([]) == PartText(c);
    assert PartsText([b, c]) == PartText(b) + PartsText([c]);
  }

  /** The stop line is well-formed, and the lint finds its message in it. */
  lemma StopReports()
    ensures WellFormedStmt(STOP) && !Aborts(STOP)
    ensures StmtLines(STOP) == [StmtLines(STOP)[0]] && Contains(StmtLines(STOP)[0], STOP_MESSAGE)
  {
    StopHeadText();
    StopTailText();
    BranchName();
    hide STOP_HEAD, STOP_TAIL, PlainQuoted;
    ThreeParts(Plain(STOP_HEAD), Braced("WS_BASE_BRANCH"), Plain(STOP_TAIL));
    QuotedWord(STOP_PARTS);
    hide PartsOk, BadParts, WordsOk, Trimmed, WordsText, PartsText, Contains, Bad;
    assert PartsText(STOP_PARTS) == STOP_MESSAGE;
    assert "echo" + " " == "echo ";
    assert StmtLines(STOP) == ["echo " + InQuotes(STOP_PARTS)];
    QuotedContains(STOP_MESSAGE);
  }

  lemma QuotedContains(text: string)
    ensures Contains("echo " + ("\"" + text + "\""), text)
  {
    var line := "echo " + ("\"" + text + "\"");
    assert line[6..] == text + "\"";
  }

  /** The lint wants no more of an arm than the stop line, and an exit that is not spelled
      "exit 0"; and of the block that it takes one of the probed refs and no other. */
  lemma AroundAccepted(body: Stmts, first: seq<Stmt>, code: string)
    requires body != Nil && WellFormed(body) && OnlyProbed(body) && ALLOWED_REMOTE in Lines(body)
    requires Simple(first) && STOP in first && ExitCode(code) && code != "0"
    requires forall i | 0 <= i < |first| && first[i].Assign? :: first[i].name != "BASE_REF"
    ensures WellFormedStmt(Around(body, Arm(first, code))) && Accepts(StmtLines(Around(body, Arm(first, code))))
  {
    var arm := Arm(first, code);
    ArmShows(first, code);
    BlockParts();
    ArmOnlyProbed(first, code);
    ArmPasses(first, code);
    StopArmIsElseArm(PROBE, body, Else(arm));
    AroundAssigns(body, arm);
  }

  lemma TakenFits()
    ensures WellFormed(TAKEN) && OnlyProbed(TAKEN) && ALLOWED_REMOTE in Lines(TAKEN)
  {
    BlockParts();
    assert Lines(TAKEN) == [ALLOWED_REMOTE] + [];
  }

  lemma BlockAccepted(first: seq<Stmt>, code: string)
    requires Simple(first) && STOP in first && ExitCode(code) && code != "0"
    requires forall i | 0 <= i < |first| && first[i].Assign? :: first[i].name != "BASE_REF"
    ensures WellFormedStmt(Block(Arm(first, code))) && Accepts(StmtLines(Block(Arm(first, code))))
  {
    TakenFits();
    hide WellFormed, OnlyProbed, Lines, StmtLines, WellFormedStmt, Accepts, Simple, Arm;
    AroundAccepted(TAKEN, first, code);
  }

  lemma {:induction false} ArmOnlyProbed(first: seq<Stmt>, code: string)
    requires Simple(first) && forall i | 0 <= i < |first| && first[i].Assign? :: first[i].name != "BASE_REF"
    ensures OnlyProbed(Arm(first, code))
  {
    if first != [] {
      ArmOnlyProbed(first[1..], code);
    }
  }

  lemma ArmPasses(first: seq<Stmt>, code: string)
    requires Simple(first) && STOP in first && ExitCode(code) && code != "0"
    ensures StopArmOk(ArmLines(first, code))
  {
    StopReports();
    hide STOP_MESSAGE, StmtLines, Simple, Contains;
    var i :| 0 <= i < |first| && first[i] == STOP;
    var lines, leave := ArmLines(first, code), "exit " + code;
    assert lines[i] == StmtLines(STOP)[0] && lines[i] in lines;
    assert lines[|first|] == leave && leave in lines;
    assert leave[5..] == code && "exit 0"[5..] == "0";
    assert StopLine(leave);
  }

  /** The assignments of the block are all right when those of its parts are. */
  lemma AroundAssigns(body: Stmts, arm: Stmts)
    requires body != Nil && WellFormed(body) && OnlyProbed(body) && ALLOWED_REMOTE in Lines(body)
    requires arm != Nil && WellFormed(arm) && OnlyProbed(arm)
    ensures WellFormedStmt(Around(body, arm)) && AssignmentsOk(StmtLines(Around(body, arm)))
  {
    BlockParts();
    hide ANCHOR, ALLOWED_REMOTE, PROBE;
    OnlyProbedStmt(Around(body, arm));
    AllowedStart();
    assert StmtLines(Around(body, arm)) == [IfLine(PROBE)] + Lines(body) + TailLines(Else(arm));
    assert ALLOWED_REMOTE in StmtLines(Around(body, arm));
  }

  lemma AllowedStart()
    ensures "BASE_REF=" <= ALLOWED_REMOTE
  {
  }

  lemma OneIsCode()
    ensures ExitCode("1") && "1" != "0"
  {
    DigitValue("1");
  }

  lemma BehindSimple(st: Stmt)
    requires WellFormedStmt(st) && !st.If?
    ensures Simple([st, STOP])
  {
    hide Contains, Aborts, WellFormedStmt, StmtLines;
    StopReports();
    assert !STOP.If?;
  }

  /** One statement before the stop line. */
  lemma BehindAccepted(st: Stmt)
    requires WellFormedStmt(st) && !st.If? && (st.Assign? ==> st.name != "BASE_REF")
    ensures var block := Block(Arm([st, STOP], "1")); WellFormedStmt(block) && Accepts(StmtLines(block))
  {
    BehindSimple(st);
    OneIsCode();
    var first := [st, STOP];
    assert !STOP.Assign? && first[1] == STOP;
    hide *;
    BlockAccepted(first, "1");
  }

  lemma BlockRuns(arm: Stmts, s: Shell, env: Env)
    requires !env.eval(PROBE, s)
    ensures RunStmt(Block(arm), s, env) == Run(arm, Tick(s), env)
  {
    assert RunTail(Else(arm), Tick(s), env) == Run(arm, Tick(s), env);
  }

  lemma EndsFirst(st: Stmt, rest: seq<Stmt>, code: string, s: Shell, env: Env)
    requires !RunStmt(st, s, env).FellThrough?
    ensures Run(Arm([st] + rest, code), s, env) == RunStmt(st, s, env)
  {
    hide RunStmt;
    var first := [st] + rest;
    assert first[0] == st && Arm(first, code) == Cons(st, Arm(first[1..], code));
  }

  /** The exit of an arm may be a 0 in another spelling. */
  lemma AcceptedBlockCanDisguiseZero(code: string, env: Env, s: Shell)
    requires !env.eval(PROBE, s) && ExitCode(code) && Value(code) % 256 == 0 && code != "0"
    ensures var block := Block(Arm([STOP], code));
            WellFormedStmt(block) && Accepts(StmtLines(block)) && RunStmt(block, s, env) == Exited(0, Tick(s))
  {
    StopReports();
    assert Status(code) == 0;
    hide WellFormedStmt, Accepts, StmtLines, ExitCode, Aborts, Value, Block, RunStmt, Run;
    BlockAccepted([STOP], code);
    BlockRuns(Arm([STOP], code), s, env);
    ArmRuns([STOP], code, Tick(s), env);
  }

  /** An arm may also leave with 0 before its stop line. */
  lemma AcceptedBlockCanExitZero(env: Env, s: Shell)
    requires !env.eval(PROBE, s)
    ensures var block := Block(Arm([Exit("0"), STOP], "1"));
            WellFormedStmt(block) && Accepts(StmtLines(block)) && RunStmt(block, s, env) == Exited(0, Tick(s))
  {
    DigitValue("0");
    assert WellFormedStmt(Exit("0")) && Status("0") == 0;
    assert RunStmt(Exit("0"), Tick(s), env) == Exited(0, Tick(s));
    hide WellFormedStmt, Accepts, StmtLines, Status, Block, RunStmt, Run, Arm, STOP, PROBE;
    BehindAccepted(Exit("0"));
    BlockRuns(Arm([Exit("0"), STOP], "1"), s, env);
    EndsFirst(Exit("0"), [STOP], "1", Tick(s), env);
    assert [Exit("0")] + [STOP] == [Exit("0"), STOP];
  }

  /** And bash may never get to the exit: any line at which it gives up the block, put first, is one
      the lint has nothing against. */
  lemma AcceptedBlockCanBeAbandoned(st: Stmt, env: Env, s: Shell)
    requires !env.eval(PROBE, s) && WellFormedStmt(st) && Aborts(st) && (st.Assign? ==> st.name != "BASE_REF")
    ensures var block := Block(Arm([st, STOP], "1"));
            WellFormedStmt(block) && Accepts(StmtLines(block)) && RunStmt(block, s, env) == Aborted(Tick(s))
  {
    assert RunStmt(st, Tick(s), env) == Aborted(Tick(s));
    assert !st.If?;
    hide WellFormedStmt, Accepts, StmtLines, Aborts, Block, RunStmt, Run, Arm, STOP, PROBE;
    BehindAccepted(st);
    BlockRuns(Arm([st, STOP], "1"), s, env);
    EndsFirst(st, [STOP], "1", Tick(s), env);
    assert [st] + [STOP] == [st, STOP];
  }

  const SET_UID: Stmt := Assign("UID", Word([Bare(Plain("5"))]))
  const EMPTY_BRACES: Stmt := Command("echo", [Bare(Braced(""))])

  /** Two such lines. */
  lemma AbandoningLines()
    ensures WellFormedStmt(SET_UID) && Aborts(SET_UID) && StmtLines(SET_UID) == ["UID=5"]
    ensures WellFormedStmt(EMPTY_BRACES) && Aborts(EMPTY_BRACES) && StmtLines(EMPTY_BRACES) == ["echo ${}"]
  {
    var five, braces: Words := [Bare(Plain("5"))], [Bare(Braced(""))];
    assert five[1..] == [] && braces[1..] == [];
    assert WordsText(five) == "5" + WordsText([]) == "5";
    assert WordsText(braces) == PartText(Braced("")) + WordsText([]) == "${}";
    assert OneWord(five) && WordsOk(braces) && Trimmed(braces);
    assert BadPiece(braces[0]);
    assert "UID" + "=" + "5" == "UID=5" && "echo" + " " + "${}" == "echo ${}";
  }

  lemma DigitValue(d: string)
    requires |d| == 1 && IsDigit(d[0])
    ensures Digits(d) && Value(d) == d[0] as nat - '0' as nat
  {
    assert d[..0] == "";
  }

  /** Two such spellings of zero. */
  lemma DisguisedZeros()
    ensures ExitCode("00") && Value("00") % 256 == 0 && "00" != "0"
    ensures ExitCode("256") && Value("256") % 256 == 0 && "256" != "0"
  {
    assert "00"[..1] == "0" && "256"[..2] == "25" && "25"[..1] == "2";
    DigitValue("0");
    DigitValue("2");
    assert Value("25") == 25;
  }
}
