/** The base-ref block the repository ships, written in the small shell: the lint accepts it, and it
    resolves the base or stops with status 1.

    Source: gastown/assets/scripts/polecat-workspace.sh, the `base-resolve` guard. */
module BaseRefShipped {
  import opened BaseRefLint
  import opened BaseRefExit
  import opened BaseRefValues
  import opened Text
  import opened Wrappers

  // ---------------------------------------------------------------- its commands

  function Say(parts: seq<Part>): Stmt {
    Command("echo", [Quoted(parts)])
  }

  function Halt(reason: string): Stmt {
    Command("gc", [Bare(Plain("bd update ")), Quoted([Var("WORK_BEAD_ID")]),
                   Bare(Plain(" --set-metadata ")), Bare(Plain("halt_reason=")), Bare(Plain(reason))])
  }

  function Mail(reason: string, message: seq<Part>): Stmt {
    Command("gc", [Bare(Plain("mail send ")), Quoted([Var("WITNESS_TARGET")]), Bare(Plain(" -s ")),
                   Quoted([Plain("polecat halted: "), Plain(reason), Plain(" ("), Var("WORK_BEAD_ID"), Plain(")")]),
                   Bare(Plain(" -m ")), Quoted(message)])
  }

  const DRAIN: Stmt := Command("gc", [Bare(Plain("runtime drain-ack"))])
  const BRANCH: Part := Braced("WS_BASE_BRANCH")

  // ---------------------------------------------------------------- its texts

  const MISSING: string := "base_branch_missing"
  const DIVERGED: string := "base_branch_diverged"

  const LOCAL_ONLY_COMMITS: seq<Part> :=
    [Plain("STOP: local "), BRANCH, Plain(" has local-only commits that "), Plain("are not on origin or any other "), Plain("remote branch.")]
  const RECONCILE: seq<Part> :=
    [Plain("Reconcile or push "), BRANCH, Plain(" first; do not branch "), Plain("from a stale base.")]
  const DIVERGED_MAIL: seq<Part> :=
    [Plain("Local "), BRANCH, Plain(" has local-only commits (count: "), Var("LOCAL_ONLY"), Plain(") that are not an ancestor of "),
     Plain("the copy on origin and are on "), Plain("no remote branch; "), Var("WORK_BEAD_ID"),
     Plain(" cannot pick a fork point. "), Plain("Reconcile the branch.")]
  const STALE: seq<Part> :=
    [Plain("note: local "), BRANCH, Plain(" is stale (0 commits off-remote"), Plain("); branching from origin")]
  const UNPUSHED: seq<Part> :=
    [Plain("note: base branch "), BRANCH, Plain(" is local-only \U{2014} it does "), Plain("not exist on origin")]
  const CONFIGURE: seq<Part> :=
    [Plain("Fix the rig/bead base "), Plain("configuration; do not "), Plain("substitute a different base.")]
  const MISSING_MAIL: seq<Part> :=
    [Plain("Base branch "), BRANCH, Plain(" exists neither on origin nor "), Plain("locally in this clone. "), Var("WORK_BEAD_ID"),
     Plain(" cannot start until the rig/"), Plain("bead base configuration is "), Plain("fixed.")]

  // ---------------------------------------------------------------- the block

  const LOCAL_PROBE: Test := Git([Bare(Plain("show-ref --verify --quiet ")), Quoted([Var("BASE_LOCAL")])])
  const IS_ANCESTOR: Test :=
    Git([Bare(Plain("merge-base --is-ancestor ")), Quoted([Var("BASE_LOCAL")]), Bare(Plain(" ")), Quoted([Var("BASE_REMOTE")])])
  const DIVERGES: Cond := Both(Is(LOCAL_PROBE), Not(IS_ANCESTOR))
  const HAS_LOCAL_ONLY: Cond := Is(Differ([Var("LOCAL_ONLY")], [Plain("0")]))
  const COUNT: Rhs :=
    Output([Bare(Plain("rev-list --count ")), Quoted([Var("BASE_LOCAL")]), Bare(Plain(" --not --remotes"))], [Bare(Plain("err"))])
  const TAKE_LOCAL: Stmt := Assign("BASE_REF", Taking("BASE_LOCAL"))

  const DIVERGED_REPORT: seq<Stmt> :=
    [Say(LOCAL_ONLY_COMMITS), Say(RECONCILE), Halt(DIVERGED), Mail(DIVERGED, DIVERGED_MAIL), DRAIN]
  const MISSING_REPORT: seq<Stmt> := [STOP, Say(CONFIGURE), Halt(MISSING), Mail(MISSING, MISSING_MAIL), DRAIN]

  const DIVERGED_CHECK: Stmts :=
    Cons(Assign("LOCAL_ONLY", COUNT), Cons(If(HAS_LOCAL_ONLY, Arm(DIVERGED_REPORT, "1"), Fi), Cons(Say(STALE), Nil)))
  const REMOTE_BODY: Stmts := Cons(If(DIVERGES, DIVERGED_CHECK, Fi), Cons(TAKE_REMOTE, Nil))
  const LOCAL_BODY: Stmts := Cons(TAKE_LOCAL, Cons(Say(UNPUSHED), Nil))
  const SHIPPED_TAIL: Tail := Elif(Is(LOCAL_PROBE), LOCAL_BODY, Else(Arm(MISSING_REPORT, "1")))
  const SHIPPED: Stmt := If(PROBE, REMOTE_BODY, SHIPPED_TAIL)

  // ---------------------------------------------------------------- its words

  predicate Sound(parts: seq<Part>) {
    PartsOk(parts) && !BadParts(parts)
  }

  predicate SoundPart(p: Part) {
    QuotedOk(p) && !BadPart(p)
  }

  predicate SoundPiece(p: Piece) {
    PieceOk(p, true) && !BadPiece(p)
  }

  predicate AllParts(parts: seq<Part>) {
    && (forall i | 0 <= i < |parts| :: SoundPart(parts[i]))
    && (forall i | 0 < i < |parts| :: Apart(parts[i - 1], parts[i]))
  }

  predicate SoundPieces(ws: Words) {
    && (forall i | 0 <= i < |ws| :: SoundPiece(ws[i]))
    && (forall i | 0 < i < |ws| :: PiecesApart(ws[i - 1], ws[i]))
  }

  lemma AllSound(parts: seq<Part>)
    requires AllParts(parts)
    ensures Sound(parts)
  {
    hide QuotedOk, BadPart, Apart;
  }

  lemma AllPieces(ws: Words)
    requires SoundPieces(ws)
    ensures WordsOk(ws) && !Bad(ws)
  {
    hide PieceOk, BadPiece, PiecesApart;
  }

  lemma CommandSound(program: string, ws: Words)
    requires program in PROGRAMS && Trimmed(ws) && SoundPieces(ws)
    ensures WellFormedStmt(Command(program, ws)) && !Aborts(Command(program, ws))
  {
    hide SoundPieces, Trimmed;
    AllPieces(ws);
  }

  lemma SaySound(parts: seq<Part>)
    requires AllParts(parts)
    ensures WellFormedStmt(Say(parts)) && !Aborts(Say(parts))
  {
    AllSound(parts);
    hide AllParts, PartsOk, BadParts;
    CommandSound("echo", [Quoted(parts)]);
  }

  lemma Names()
    ensures NameChars("WORK_BEAD_ID") && NameChars("WITNESS_TARGET") && NameChars("LOCAL_ONLY") && NameChars("BASE_LOCAL")
  {
  }

  lemma UpdateTexts()
    ensures PlainBare("bd update ", true) && PlainBare(" --set-metadata ", true) && PlainBare("halt_reason=", true)
  {
  }

  lemma MailTexts()
    ensures PlainBare("mail send ", true) && PlainBare(" -s ", true) && PlainBare(" -m ", true)
    ensures PlainQuoted("polecat halted: ") && PlainQuoted(" (") && PlainQuoted(")")
  {
  }

  lemma BareReasons()
    ensures PlainBare(MISSING, true) && PlainBare(DIVERGED, true)
  {
  }

  lemma QuotedReasons()
    ensures PlainQuoted(MISSING) && PlainQuoted(DIVERGED)
  {
  }

  lemma AncestorTexts()
    ensures PlainBare("merge-base --is-ancestor ", true) && PlainBare(" ", true)
  {
  }

  lemma CountTexts()
    ensures PlainBare("rev-list --count ", true) && PlainBare(" --not --remotes", true) && PlainBare("err", false)
  {
  }

  lemma LocalOnlyTexts()
    ensures PlainQuoted("STOP: local ") && PlainQuoted(" has local-only commits that ")
  {
  }

  lemma OtherBranchTexts()
    ensures PlainQuoted("are not on origin or any other ") && PlainQuoted("remote branch.")
  {
  }

  lemma ReconcileTexts()
    ensures PlainQuoted("Reconcile or push ") && PlainQuoted(" first; do not branch ") && PlainQuoted("from a stale base.")
  {
  }

  lemma DivergedTexts()
    ensures PlainQuoted("Local ") && PlainQuoted(" has local-only commits (count: ")
  {
  }

  lemma AncestorCopyTexts()
    ensures PlainQuoted(") that are not an ancestor of ") && PlainQuoted("the copy on origin and are on ")
  {
  }

  lemma ForkPointTexts()
    ensures PlainQuoted("no remote branch; ") && PlainQuoted(" cannot pick a fork point. ") && PlainQuoted("Reconcile the branch.")
  {
  }

  lemma StaleTexts()
    ensures PlainQuoted("note: local ") && PlainQuoted(" is stale (0 commits off-remote") && PlainQuoted("); branching from origin")
  {
  }

  lemma UnpushedTexts()
    ensures PlainQuoted("note: base branch ") && PlainQuoted(" is local-only \U{2014} it does ") && PlainQuoted("not exist on origin")
  {
  }

  lemma ConfigureTexts()
    ensures PlainQuoted("Fix the rig/bead base ") && PlainQuoted("configuration; do not ") && PlainQuoted("substitute a different base.")
  {
  }

  lemma MissingTexts()
    ensures PlainQuoted("Base branch ") && PlainQuoted(" exists neither on origin nor ") && PlainQuoted("locally in this clone. ")
  {
  }

  lemma CannotStartTexts()
    ensures PlainQuoted(" cannot start until the rig/") && PlainQuoted("bead base configuration is ") && PlainQuoted("fixed.")
  {
  }

  lemma BranchSound()
    ensures SoundPart(BRANCH)
  {
    BranchName();
  }

  // ---------------------------------------------------------------- its statements

  lemma HaltSound(reason: string)
    requires PlainBare(reason, true) && reason != "" && reason[|reason| - 1] != ' '
    ensures WellFormedStmt(Halt(reason)) && !Aborts(Halt(reason))
  {
    UpdateTexts();
    Names();
    OneVar("WORK_BEAD_ID");
    hide PlainBare, NameChars, PartsOk, BadParts;
    CommandSound("gc", Halt(reason).args);
  }

  lemma SubjectSound(reason: string)
    requires PlainQuoted(reason) && reason != ""
    ensures Sound([Plain("polecat halted: "), Plain(reason), Plain(" ("), Var("WORK_BEAD_ID"), Plain(")")])
  {
    MailTexts();
    Names();
    hide PlainQuoted, PlainBare, NameChars;
    AllSound([Plain("polecat halted: "), Plain(reason), Plain(" ("), Var("WORK_BEAD_ID"), Plain(")")]);
  }

  lemma MailSound(reason: string, message: seq<Part>)
    requires PlainQuoted(reason) && reason != "" && Sound(message)
    ensures WellFormedStmt(Mail(reason, message)) && !Aborts(Mail(reason, message))
  {
    MailTexts();
    Names();
    OneVar("WITNESS_TARGET");
    SubjectSound(reason);
    hide PlainQuoted, PlainBare, NameChars, PartsOk, BadParts;
    CommandSound("gc", Mail(reason, message).args);
  }

  lemma DrainSound()
    ensures WellFormedStmt(DRAIN) && !Aborts(DRAIN)
  {
    assert PlainBare("runtime drain-ack", true);
    hide PlainBare;
    CommandSound("gc", DRAIN.args);
  }

  lemma DivergedSays()
    ensures WellFormedStmt(Say(LOCAL_ONLY_COMMITS)) && !Aborts(Say(LOCAL_ONLY_COMMITS))
    ensures WellFormedStmt(Say(RECONCILE)) && !Aborts(Say(RECONCILE))
  {
    BranchSound();
    LocalOnlyTexts();
    OtherBranchTexts();
    ReconcileTexts();
    hide PlainQuoted, Identifier, BRANCH;
    SaySound(LOCAL_ONLY_COMMITS);
    SaySound(RECONCILE);
  }

  lemma MailsSound()
    ensures Sound(DIVERGED_MAIL) && Sound(MISSING_MAIL)
  {
    BranchSound();
    Names();
    DivergedTexts();
    AncestorCopyTexts();
    ForkPointTexts();
    MissingTexts();
    CannotStartTexts();
    hide PlainQuoted, NameChars, BRANCH;
    AllSound(DIVERGED_MAIL);
    AllSound(MISSING_MAIL);
  }

  lemma NotesSound()
    ensures WellFormedStmt(Say(STALE)) && !Aborts(Say(STALE)) && WellFormedStmt(Say(UNPUSHED)) && !Aborts(Say(UNPUSHED))
    ensures WellFormedStmt(Say(CONFIGURE)) && !Aborts(Say(CONFIGURE))
  {
    BranchSound();
    StaleTexts();
    UnpushedTexts();
    ConfigureTexts();
    hide PlainQuoted, BRANCH;
    SaySound(STALE);
    SaySound(UNPUSHED);
    SaySound(CONFIGURE);
  }

  /** Statements that are well-formed and run through. */
  predicate Reports(first: seq<Stmt>) {
    forall i | 0 <= i < |first| :: first[i].Command? && WellFormedStmt(first[i]) && !Aborts(first[i])
  }

  lemma DivergedReports()
    ensures Reports(DIVERGED_REPORT)
  {
    DivergedSays();
    BareReasons();
    QuotedReasons();
    HaltSound(DIVERGED);
    MailsSound();
    MailSound(DIVERGED, DIVERGED_MAIL);
    DrainSound();
    hide WellFormedStmt, Aborts, LOCAL_ONLY_COMMITS, RECONCILE, DIVERGED_MAIL, DIVERGED;
  }

  lemma StopRuns()
    ensures STOP.Command? && WellFormedStmt(STOP) && !Aborts(STOP)
  {
    hide Contains, StmtLines, WellFormedStmt, Aborts;
    StopReports();
  }

  lemma MissingReports()
    ensures Reports(MISSING_REPORT)
  {
    StopRuns();
    NotesSound();
    BareReasons();
    QuotedReasons();
    HaltSound(MISSING);
    MailsSound();
    MailSound(MISSING, MISSING_MAIL);
    DrainSound();
    hide WellFormedStmt, Aborts, STOP_PARTS, CONFIGURE, MISSING_MAIL, MISSING, STOP;
  }

  lemma LocalRef()
    ensures Sound([Var("BASE_LOCAL")]) && OneWord([Quoted([Var("BASE_LOCAL")])]) && !Bad([Quoted([Var("BASE_LOCAL")])])
  {
    Names();
    hide NameChars;
    OneVar("BASE_LOCAL");
    QuotedWord([Var("BASE_LOCAL")]);
  }

  lemma LocalProbe()
    ensures TestOk(LOCAL_PROBE)
  {
    ProbeArgs();
    LocalRef();
    hide PartsOk, BadParts, PlainBare;
    PlainWord("show-ref --verify --quiet ", [Var("BASE_LOCAL")]);
  }

  lemma Ancestor()
    ensures TestOk(IS_ANCESTOR)
  {
    AncestorTexts();
    LocalRef();
    RemoteName();
    OneVar("BASE_REMOTE");
    hide PartsOk, BadParts, PlainBare, NameChars;
    AllPieces(IS_ANCESTOR.args);
  }

  lemma CountOk()
    ensures RhsOk(COUNT) && Name("LOCAL_ONLY") && CondOk(HAS_LOCAL_ONLY)
  {
    CountTexts();
    LocalRef();
    Names();
    OneVar("LOCAL_ONLY");
    assert Sound([Plain("0")]);
    hide PartsOk, BadParts, PlainBare, NameChars;
    AllPieces(COUNT.args);
    assert OneWord(COUNT.fallback) && !Bad(COUNT.fallback);
  }

  lemma TakesRefs()
    ensures WellFormedStmt(TAKE_LOCAL) && !Aborts(TAKE_LOCAL) && !Aborts(TAKE_REMOTE)
  {
    LocalRef();
    RemoteName();
    OneVar("BASE_REMOTE");
    QuotedWord([Var("BASE_REMOTE")]);
    assert Name("BASE_REF") && "BASE_REF" !in READONLY;
    hide OneWord, Bad, READONLY, Name, PartsOk, BadParts;
  }

  /** Well-formed, assigning BASE_REF only the probed refs, and never leaving with 0 or abandoned. */
  predicate Good(p: Stmts) {
    WellFormed(p) && OnlyProbed(p) && p != Nil && !Reaches(p, ZeroExit) && !Reaches(p, Abandon)
  }

  predicate GoodStmt(st: Stmt) {
    WellFormedStmt(st) && StmtOnlyProbed(st) && !StmtReaches(st, ZeroExit) && !StmtReaches(st, Abandon)
  }

  lemma GoodCons(st: Stmt, rest: Stmts)
    requires GoodStmt(st) && (rest == Nil || Good(rest))
    ensures Good(Cons(st, rest))
  {
  }

  lemma GoodIf(cond: Cond, body: Stmts)
    requires CondOk(cond) && Good(body)
    ensures GoodStmt(If(cond, body, Fi))
  {
  }

  lemma ReportsArm(first: seq<Stmt>)
    requires Reports(first)
    ensures Good(Arm(first, "1"))
  {
    hide WellFormedStmt, Aborts;
    OneIsCode();
    OneStatus();
    ArmShows(first, "1");
    ArmOnlyProbed(first, "1");
    ArmReaches(first, "1", ZeroExit);
    ArmReaches(first, "1", Abandon);
  }

  lemma CheckGood()
    ensures Good(DIVERGED_CHECK)
  {
    CountOk();
    DivergedReports();
    ReportsArm(DIVERGED_REPORT);
    NotesSound();
    assert GoodStmt(Say(STALE)) && GoodStmt(Assign("LOCAL_ONLY", COUNT));
    hide GoodStmt, Good, CondOk, Arm, STALE, DIVERGED_REPORT, COUNT, HAS_LOCAL_ONLY, Say;
    GoodCons(Say(STALE), Nil);
    GoodIf(HAS_LOCAL_ONLY, Arm(DIVERGED_REPORT, "1"));
    GoodCons(If(HAS_LOCAL_ONLY, Arm(DIVERGED_REPORT, "1"), Fi), Cons(Say(STALE), Nil));
    GoodCons(Assign("LOCAL_ONLY", COUNT), DIVERGED_CHECK.rest);
  }

  lemma BodiesGood()
    ensures Good(REMOTE_BODY) && Good(LOCAL_BODY)
  {
    CheckGood();
    LocalProbe();
    Ancestor();
    TakesRefs();
    BlockParts();
    NotesSound();
    assert GoodStmt(TAKE_REMOTE) && GoodStmt(TAKE_LOCAL) && GoodStmt(Say(UNPUSHED));
    assert CondOk(DIVERGES);
    hide GoodStmt, Good, CondOk, TAKE_REMOTE, TAKE_LOCAL, UNPUSHED, DIVERGES, DIVERGED_CHECK, Say, ANCHOR, PROBE;
    GoodCons(TAKE_REMOTE, Nil);
    GoodIf(DIVERGES, DIVERGED_CHECK);
    GoodCons(If(DIVERGES, DIVERGED_CHECK, Fi), Cons(TAKE_REMOTE, Nil));
    GoodCons(Say(UNPUSHED), Nil);
    GoodCons(TAKE_LOCAL, Cons(Say(UNPUSHED), Nil));
  }

  lemma GoodBlock(probe: Cond, body: Stmts, second: Cond, other: Stmts, arm: Stmts)
    requires CondOk(probe) && CondOk(second) && Good(body) && Good(other) && Good(arm)
    ensures GoodStmt(If(probe, body, Elif(second, other, Else(arm))))
  {
    hide CondOk;
    var last, tail := Else(arm), Elif(second, other, Else(arm));
    assert WellFormedTail(last) && TailOnlyProbed(last) && !TailReaches(last, ZeroExit) && !TailReaches(last, Abandon);
    assert WellFormedTail(tail) && TailOnlyProbed(tail) && !TailReaches(tail, ZeroExit) && !TailReaches(tail, Abandon);
  }

  lemma ShippedGood()
    ensures GoodStmt(SHIPPED)
  {
    BlockParts();
    LocalProbe();
    BodiesGood();
    MissingReports();
    ReportsArm(MISSING_REPORT);
    assert CondOk(Is(LOCAL_PROBE));
    hide GoodStmt, Good, CondOk, PROBE, LOCAL_PROBE, REMOTE_BODY, LOCAL_BODY, MISSING_REPORT, Arm, ANCHOR, TAKE_REMOTE;
    GoodBlock(PROBE, REMOTE_BODY, Is(LOCAL_PROBE), LOCAL_BODY, Arm(MISSING_REPORT, "1"));
  }

  lemma ShippedArm()
    ensures StopArmFrom(StmtLines(SHIPPED), 0, None) == Some(TopLines(Arm(MISSING_REPORT, "1")))
    ensures StopArmOk(TopLines(Arm(MISSING_REPORT, "1")))
  {
    ShippedGood();
    MissingReports();
    OneIsCode();
    assert MISSING_REPORT[0] == STOP;
    assert Simple(MISSING_REPORT) by { hide WellFormedStmt, Aborts, MISSING_REPORT; }
    ArmShows(MISSING_REPORT, "1");
    ArmPasses(MISSING_REPORT, "1");
    hide Arm, MISSING_REPORT, Simple, ArmLines, StopArmOk, StopArmFrom, TopLines, PROBE, REMOTE_BODY, LOCAL_BODY, LOCAL_PROBE;
    StopArmIsElseArm(PROBE, REMOTE_BODY, SHIPPED_TAIL);
  }

  /** The lint accepts the block the repository ships. */
  lemma ShippedAccepted()
    ensures WellFormedStmt(SHIPPED) && Accepts(StmtLines(SHIPPED))
  {
    ShippedGood();
    ShippedArm();
    OnlyProbedStmt(SHIPPED);
    SomeAssignment();
    hide SHIPPED, StmtLines, StopArmOk, StopArmFrom, TopLines, WellFormedStmt, StmtOnlyProbed;
  }

  lemma SomeAssignment()
    ensures exists code | code in StmtLines(SHIPPED) :: "BASE_REF=" <= code
  {
    AllowedStart();
    BlockParts();
    hide ANCHOR, ALLOWED_REMOTE, PROBE, DIVERGES, DIVERGED_CHECK, IfLine, TAKE_REMOTE;
    var taken := Cons(TAKE_REMOTE, Nil);
    assert Lines(taken) == [ALLOWED_REMOTE] + [];
    assert ALLOWED_REMOTE in Lines(taken);
    var check := If(DIVERGES, DIVERGED_CHECK, Fi);
    assert Lines(REMOTE_BODY) == StmtLines(check) + Lines(taken);
    assert StmtLines(SHIPPED) == [IfLine(PROBE)] + Lines(REMOTE_BODY) + TailLines(SHIPPED_TAIL);
    assert ALLOWED_REMOTE in StmtLines(SHIPPED);
  }

  // ---------------------------------------------------------------- what running it does

  lemma OneStatus()
    ensures Status("1") == 1
  {
    DigitValue("1");
  }

  /** When no base is found the shipped block always leaves with a failing status. */
  lemma ShippedBlockFails()
    ensures AlwaysFails(PROBE, REMOTE_BODY, SHIPPED_TAIL)
  {
    ShippedAccepted();
    MissingReports();
    ReportsArm(MISSING_REPORT);
    hide WellFormedStmt, Accepts, StmtLines, AlwaysFails, Reaches, PROBE, REMOTE_BODY, LOCAL_BODY, LOCAL_PROBE, MISSING_REPORT, Arm;
    AcceptedBlockFails(PROBE, REMOTE_BODY, SHIPPED_TAIL);
  }

  lemma {:induction false} CommandsAssignNothing(first: seq<Stmt>, code: string, name: string)
    requires forall i | 0 <= i < |first| :: first[i].Command?
    ensures !Assigns(Arm(first, code), name)
  {
    if first != [] {
      CommandsAssignNothing(first[1..], code, name);
    }
  }

  /** The nested check leaves the probed ref alone. */
  lemma CheckKeepsRemote()
    ensures !StmtAssigns(If(DIVERGES, DIVERGED_CHECK, Fi), "BASE_REMOTE")
  {
    DivergedReports();
    CommandsAssignNothing(DIVERGED_REPORT, "1", "BASE_REMOTE");
    hide DIVERGED_REPORT, Arm, COUNT, STALE, DIVERGES, WellFormedStmt, Aborts, HAS_LOCAL_ONLY;
    var last := Cons(Say(STALE), Nil);
    assert !Assigns(last, "BASE_REMOTE");
    var inner := If(HAS_LOCAL_ONLY, Arm(DIVERGED_REPORT, "1"), Fi);
    assert !StmtAssigns(inner, "BASE_REMOTE") && !Assigns(Cons(inner, last), "BASE_REMOTE");
    assert !Assigns(DIVERGED_CHECK, "BASE_REMOTE");
  }

  lemma RemoteTaken(s: Shell, env: Env)
    ensures var o := Run(REMOTE_BODY, s, env); o.FellThrough? ==> o.shell.vars("BASE_REF") == s.vars("BASE_REMOTE")
  {
    var check := If(DIVERGES, DIVERGED_CHECK, Fi);
    CheckKeepsRemote();
    StmtKeepsName(check, "BASE_REMOTE", s, env);
    var o := RunStmt(check, s, env);
    hide RunStmt, DIVERGES, DIVERGED_CHECK, TAKEN, StmtAssigns;
    if o.FellThrough? {
      TakenRuns(o.shell, env);
    }
    assert REMOTE_BODY == Cons(check, TAKEN) by { TakenIs(); }
    assert Run(REMOTE_BODY, s, env) == if o.FellThrough? then Run(TAKEN, o.shell, env) else o;
  }

  lemma TakenIs()
    ensures TAKEN == Cons(TAKE_REMOTE, Nil)
  {
  }

  lemma LocalTaken(s: Shell, env: Env)
    ensures var o := Run(LOCAL_BODY, s, env); o.FellThrough? ==> o.shell.vars("BASE_REF") == s.vars("BASE_LOCAL")
  {
    TakesRefs();
    TakingValue("BASE_LOCAL", s, env);
    hide Aborts, UNPUSHED, WordsValue;
    var o := RunStmt(TAKE_LOCAL, s, env);
    assert o.FellThrough? && o.shell.vars("BASE_REF") == s.vars("BASE_LOCAL");
    var last := Cons(Say(UNPUSHED), Nil);
    assert Run(LOCAL_BODY, s, env) == Run(last, o.shell, env);
    RunKeepsName(last, "BASE_REF", o.shell, env);
  }

  /** Whatever the conditions say, the shipped block gets to its end only when one of the two probes
      said yes, and then BASE_REF holds what the first of them looked for held when the block began;
      otherwise it leaves with a failing status. */
  lemma ShippedBlockResolves(s: Shell, env: Env)
    ensures match RunStmt(SHIPPED, s, env)
            case FellThrough(end) =>
              if env.eval(PROBE, s) then end.vars("BASE_REF") == s.vars("BASE_REMOTE")
              else env.eval(Is(LOCAL_PROBE), Tick(s)) && end.vars("BASE_REF") == s.vars("BASE_LOCAL")
            case Exited(status, _) => status != 0
            case Aborted(_) => false
  {
    ShippedGood();
    StmtAllowed(SHIPPED, s, env, ZeroExit);
    StmtAllowed(SHIPPED, s, env, Abandon);
    RemoteTaken(Tick(s), env);
    LocalTaken(Tick(Tick(s)), env);
    MissingReports();
    var arm := Arm(MISSING_REPORT, "1");
    ArmRuns(MISSING_REPORT, "1", Tick(Tick(s)), env);
    hide WellFormedStmt, StmtReaches, StmtCanFall, Run, REMOTE_BODY, LOCAL_BODY, PROBE, LOCAL_PROBE, MISSING_REPORT;
    hide Arm, Status;
    assert RunStmt(SHIPPED, s, env) == if env.eval(PROBE, s) then Run(REMOTE_BODY, Tick(s), env) else RunTail(SHIPPED_TAIL, Tick(s), env);
    assert RunTail(Else(arm), Tick(Tick(s)), env) == Run(arm, Tick(Tick(s)), env);
  }
}
