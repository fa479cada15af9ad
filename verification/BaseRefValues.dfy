/** What BASE_REF holds after a block: exactly when it is always what it was, or what one of the
    probed refs was when the block began. The lint looks at the texts of assignments only.

    Source: scripts/gascity_pack_inference_gate.py, `polecat_base_ref_assignment_problems`. */
module BaseRefValues {
  import opened BaseRefLint
  import opened BaseRefExit
  import opened Text
  import opened Wrappers

  /** What BASE_REF may hold in the end. */
  const PROBED: set<string> := {"BASE_REF", "BASE_REMOTE", "BASE_LOCAL"}

  /** BASE_REF is as it was, or as BASE_REMOTE or BASE_LOCAL was. */
  predicate HoldsProbed(before: Shell, after: Shell) {
    exists name | name in PROBED :: after.vars("BASE_REF") == before.vars(name)
  }

  /** From every state, whatever is answered and printed. */
  ghost predicate AlwaysProbed(p: Stmts) {
    forall s: Shell, env: Env :: HoldsProbed(s, Run(p, s, env).shell)
  }

  // ---------------------------------------------------------------- where a value comes from

  /** The value of a variable by its origin: empty, just what some variable held at first, or
      anything else. */
  datatype Origin = Empty | From(name: string) | Changed

  /** The origins of the variables assigned so far; the others still hold their own. */
  type Origins = map<string, Origin>

  function Of(o: Origins, name: string): Origin {
    if name in o then o[name] else From(name)
  }

  function Joined(a: Origin, b: Origin): Origin {
    if a.Empty? then b else if b.Empty? then a else Changed
  }

  function PartOrigin(p: Part, o: Origins): Origin {
    if !p.Plain? && Followed(p.name) then Of(o, p.name) else Changed
  }

  function PartsOrigin(parts: seq<Part>, o: Origins): Origin {
    if parts == [] then Empty else Joined(PartOrigin(parts[0], o), PartsOrigin(parts[1..], o))
  }

  function PieceOrigin(piece: Piece, o: Origins): Origin {
    match piece
    case Bare(part) => PartOrigin(part, o)
    case Quoted(parts) => PartsOrigin(parts, o)
  }

  function WordsOrigin(ws: Words, o: Origins): Origin {
    if ws == [] then Empty else Joined(PieceOrigin(ws[0], o), WordsOrigin(ws[1..], o))
  }

  /** The origins after an assignment; `ok` says whether the command in it succeeded. */
  function AssignedOrigins(name: string, value: Rhs, o: Origins, ok: bool): Origins {
    match value
    case Word(word) => o[name := WordsOrigin(word, o)]
    case Output(args, fallback) =>
      var next := o[name := if Bad(args) then Empty else Changed];
      if ok then next else next[name := WordsOrigin(fallback, next)]
  }

  // ---------------------------------------------------------------- every path through the text

  function Then(a: Stmts, b: Stmts): Stmts
    decreases a
  {
    if a.Nil? then b else Cons(a.head, Then(a.rest, b))
  }

  function TailStmts(t: Tail): Stmts {
    match t
    case Fi => Nil
    case Else(arm) => arm
    case Elif(cond, body, tail) => Cons(If(cond, body, tail), Nil)
  }

  function Size(p: Stmts): nat
    decreases p
  {
    if p.Nil? then 0 else StmtSize(p.head) + Size(p.rest)
  }

  function StmtSize(st: Stmt): (n: nat)
    ensures n > 0
    decreases st
  {
    if st.If? then 1 + Size(st.body) + TailSize(st.tail) else 1
  }

  function TailSize(t: Tail): nat
    decreases t
  {
    match t
    case Fi => 0
    case Else(arm) => Size(arm)
    case Elif(_, body, tail) => 1 + Size(body) + TailSize(tail)
  }

  lemma {:induction false} ThenSize(a: Stmts, b: Stmts)
    ensures Size(Then(a, b)) == Size(a) + Size(b)
    decreases a
  {
    if a.Cons? {
      ThenSize(a.rest, b);
    }
  }

  lemma BranchSizes(st: Stmt, rest: Stmts)
    requires st.If?
    ensures Size(Then(st.body, rest)) < Size(Cons(st, rest)) && Size(Then(TailStmts(st.tail), rest)) < Size(Cons(st, rest))
  {
    ThenSize(st.body, rest);
    ThenSize(TailStmts(st.tail), rest);
    assert Size(TailStmts(st.tail)) == TailSize(st.tail);
  }

  predicate EndsProbed(o: Origins) {
    var end := Of(o, "BASE_REF");
    end.From? && end.name in PROBED
  }

  /** On every path through the text BASE_REF ends with the origin it should have. */
  predicate Keeps(p: Stmts, o: Origins)
    decreases Size(p)
  {
    if p.Nil? || Aborts(p.head) then EndsProbed(o)
    else
      match p.head
      case Assign(name, value) =>
        && (value.Output? && !Bad(value.args) ==> Keeps(p.rest, AssignedOrigins(name, value, o, true)))
        && Keeps(p.rest, AssignedOrigins(name, value, o, false))
      case Command(_, _) => Keeps(p.rest, o)
      case Exit(_) => EndsProbed(o)
      case If(cond, body, tail) =>
        BranchSizes(p.head, p.rest);
        Keeps(Then(body, p.rest), o) && Keeps(Then(TailStmts(tail), p.rest), o)
  }

  // ---------------------------------------------------------------- runs follow paths

  lemma {:induction false} RunThen(a: Stmts, b: Stmts, s: Shell, env: Env)
    ensures Run(Then(a, b), s, env) ==
              match Run(a, s, env)
              case FellThrough(next) => Run(b, next, env)
              case other => other
    decreases a
  {
    if a.Cons? {
      var o := RunStmt(a.head, s, env);
      hide RunStmt;
      if o.FellThrough? {
        RunThen(a.rest, b, o.shell, env);
      }
    }
  }

  lemma RunTailStmts(t: Tail, s: Shell, env: Env)
    ensures RunTail(t, s, env) == Run(TailStmts(t), s, env)
  {
    if t.Elif? {
      var o := RunStmt(If(t.cond, t.body, t.tail), s, env);
      assert o == RunTail(t, s, env);
    }
  }

  /** An if statement goes on as the branch its answer picks. */
  lemma RunBranch(st: Stmt, rest: Stmts, s: Shell, env: Env)
    requires st.If?
    ensures Run(Cons(st, rest), s, env) ==
              if env.eval(st.cond, s) then Run(Then(st.body, rest), Tick(s), env)
              else Run(Then(TailStmts(st.tail), rest), Tick(s), env)
  {
    RunThen(st.body, rest, Tick(s), env);
    RunThen(TailStmts(st.tail), rest, Tick(s), env);
    RunTailStmts(st.tail, Tick(s), env);
    assert !Aborts(st);
    hide Then, TailStmts;
  }

  // ---------------------------------------------------------------- what origins say about values

  predicate Tells(origin: Origin, value: string, start: string -> string) {
    match origin
    case Empty => value == ""
    case From(name) => value == start(name)
    case Changed => true
  }

  ghost predicate Shows(o: Origins, start: string -> string, s: Shell) {
    forall name: string | Followed(name) :: Tells(Of(o, name), s.vars(name), start)
  }

  lemma PartTells(p: Part, bare: bool, o: Origins, start: string -> string, s: Shell, env: Env)
    requires Shows(o, start, s)
    ensures Tells(PartOrigin(p, o), PartValue(p, bare, s, env), start)
  {
    hide Followed;
  }

  lemma JoinedTells(a: Origin, b: Origin, v: string, w: string, start: string -> string)
    requires Tells(a, v, start) && Tells(b, w, start)
    ensures Tells(Joined(a, b), v + w, start)
  {
    assert v + "" == v && "" + w == w;
  }

  lemma {:induction false} PartsTell(parts: seq<Part>, o: Origins, start: string -> string, s: Shell, env: Env)
    requires Shows(o, start, s)
    ensures Tells(PartsOrigin(parts, o), PartsValue(parts, s, env), start)
  {
    hide Shows, Tells, PartOrigin, PartValue, Joined;
    if parts == [] {
      NothingTells(start);
    } else {
      PartTells(parts[0], false, o, start, s, env);
      PartsTell(parts[1..], o, start, s, env);
      JoinedTells(PartOrigin(parts[0], o), PartsOrigin(parts[1..], o), PartValue(parts[0], false, s, env), PartsValue(parts[1..], s, env), start);
    }
  }

  lemma NothingTells(start: string -> string)
    ensures Tells(Empty, "", start)
  {
  }

  lemma {:induction false} WordsTell(ws: Words, o: Origins, start: string -> string, s: Shell, env: Env)
    requires Shows(o, start, s)
    ensures Tells(WordsOrigin(ws, o), WordsValue(ws, s, env), start)
  {
    hide Shows, Tells, PartOrigin, PartValue, Joined;
    if ws == [] {
      NothingTells(start);
    } else {
      match ws[0] {
        case Bare(part) => PartTells(part, true, o, start, s, env);
        case Quoted(parts) => PartsTell(parts, o, start, s, env);
      }
      WordsTell(ws[1..], o, start, s, env);
      JoinedTells(PieceOrigin(ws[0], o), WordsOrigin(ws[1..], o), PieceValue(ws[0], s, env), WordsValue(ws[1..], s, env), start);
    }
  }

  lemma SetShows(o: Origins, start: string -> string, s: Shell, name: string, origin: Origin, value: string)
    requires Shows(o, start, s) && Tells(origin, value, start)
    ensures Shows(o[name := origin], start, Set(s, name, value))
  {
    hide Followed, Tells;
  }

  lemma AssignedShows(name: string, value: Rhs, o: Origins, start: string -> string, s: Shell, env: Env)
    requires Shows(o, start, s)
    ensures var ok := value.Output? && Prints(value.args, s, env).ok;
            Shows(AssignedOrigins(name, value, o, ok), start, Assigned(name, value, s, env))
  {
    hide Shows, WordsOrigin, WordsValue, Followed;
    match value {
      case Word(word) =>
        WordsTell(word, o, start, s, env);
        SetShows(o, start, s, name, WordsOrigin(word, o), WordsValue(word, s, env));
      case Output(args, fallback) =>
        var printed := Prints(args, s, env);
        var origin := if Bad(args) then Empty else Changed;
        var o1, s1 := o[name := origin], Set(Tick(s), name, printed.text);
        TickShows(o, start, s);
        SetShows(o, start, Tick(s), name, origin, printed.text);
        if !printed.ok {
          WordsTell(fallback, o1, start, s1, env);
          SetShows(o1, start, s1, name, WordsOrigin(fallback, o1), WordsValue(fallback, s1, env));
        }
    }
  }

  lemma TickShows(o: Origins, start: string -> string, s: Shell)
    requires Shows(o, start, s)
    ensures Shows(o, start, Tick(s))
  {
  }

  /** When every path keeps the origin, every run ends with a probed value. */
  lemma {:induction false} KeepsProbes(p: Stmts, o: Origins, start: Shell, s: Shell, env: Env)
    requires Keeps(p, o) && Shows(o, start.vars, s)
    ensures HoldsProbed(start, Run(p, s, env).shell)
    decreases Size(p)
  {
    hide Shows, HoldsProbed, Assigned, AssignedOrigins, EndsProbed, Then, TailStmts, Followed;
    if p.Nil? || Aborts(p.head) || p.head.Exit? {
      EndShows(o, start, s);
    } else {
      match p.head {
        case Assign(name, value) =>
          AssignedShows(name, value, o, start.vars, s, env);
          var ok := value.Output? && Prints(value.args, s, env).ok;
          KeepsProbes(p.rest, AssignedOrigins(name, value, o, ok), start, Assigned(name, value, s, env), env);
        case Command(_, _) => KeepsProbes(p.rest, o, start, s, env);
        case If(cond, body, tail) =>
          BranchSizes(p.head, p.rest);
          RunBranch(p.head, p.rest, s, env);
          TickShows(o, start.vars, s);
          KeepsProbes(if env.eval(cond, s) then Then(body, p.rest) else Then(TailStmts(tail), p.rest), o, start, Tick(s), env);
      }
    }
  }

  lemma EndShows(o: Origins, start: Shell, s: Shell)
    requires EndsProbed(o) && Shows(o, start.vars, s)
    ensures HoldsProbed(start, s)
  {
    assert Followed("BASE_REF");
  }

  // ---------------------------------------------------------------- a state that tells the origins apart

  // The three names that may be taken all hold one "$", everything else two of them. No literal
  // text has a "$" in it, so a value is one "$" only if it has just one of the three as its origin.

  const MARK: string := "$"
  const OTHER_MARK: string := "$$"

  function FirstMark(name: string): string {
    if name in PROBED then MARK else OTHER_MARK
  }

  predicate Marked(origin: Origin, value: string) {
    match origin
    case Empty => value == ""
    case From(name) => value == FirstMark(name)
    case Changed => value != "" && value != MARK
  }

  ghost predicate Marks(o: Origins, s: Shell) {
    forall name: string | Followed(name) :: Marked(Of(o, name), s.vars(name))
  }

  ghost predicate MarksTheRest(env: Env) {
    && (forall args: Words, s: Shell :: env.output(args, s).text == OTHER_MARK)
    && (forall p: Part, s: Shell :: env.other(p, s) == OTHER_MARK)
  }

  lemma PartMarked(p: Part, bare: bool, o: Origins, s: Shell, env: Env)
    requires Marks(o, s) && MarksTheRest(env) && (if bare then BareOk(p, false) else QuotedOk(p))
    ensures Marked(PartOrigin(p, o), PartValue(p, bare, s, env))
  {
    if p.Plain? {
      assert BareChar(p.text[0]) || QuotedChar(p.text[0]);
    }
    hide Followed;
  }

  lemma JoinedMarked(a: Origin, b: Origin, v: string, w: string)
    requires Marked(a, v) && Marked(b, w)
    ensures Marked(Joined(a, b), v + w)
  {
    assert v + "" == v && "" + w == w;
    assert !a.Empty? && !b.Empty? ==> |v + w| > 1;
  }

  lemma NothingMarked()
    ensures Marked(Empty, "")
  {
  }

  lemma {:induction false} PartsMarked(parts: seq<Part>, o: Origins, s: Shell, env: Env)
    requires Marks(o, s) && MarksTheRest(env) && forall i | 0 <= i < |parts| :: QuotedOk(parts[i])
    ensures Marked(PartsOrigin(parts, o), PartsValue(parts, s, env))
  {
    hide Marks, Marked, MarksTheRest, PartOrigin, PartValue, Joined, QuotedOk;
    if parts == [] {
      NothingMarked();
    } else {
      PartMarked(parts[0], false, o, s, env);
      PartsMarked(parts[1..], o, s, env);
      JoinedMarked(PartOrigin(parts[0], o), PartsOrigin(parts[1..], o), PartValue(parts[0], false, s, env), PartsValue(parts[1..], s, env));
    }
  }

  lemma {:induction false} WordsMarked(ws: Words, o: Origins, s: Shell, env: Env)
    requires Marks(o, s) && MarksTheRest(env) && forall i | 0 <= i < |ws| :: PieceOk(ws[i], false)
    ensures Marked(WordsOrigin(ws, o), WordsValue(ws, s, env))
  {
    hide Marks, Marked, MarksTheRest, PartOrigin, PartValue, Joined, BareOk, QuotedOk;
    if ws == [] {
      NothingMarked();
    } else {
      match ws[0] {
        case Bare(part) => PartMarked(part, true, o, s, env);
        case Quoted(parts) => PartsMarked(parts, o, s, env);
      }
      WordsMarked(ws[1..], o, s, env);
      JoinedMarked(PieceOrigin(ws[0], o), WordsOrigin(ws[1..], o), PieceValue(ws[0], s, env), WordsValue(ws[1..], s, env));
    }
  }

  lemma SetMarks(o: Origins, s: Shell, name: string, origin: Origin, value: string)
    requires Marks(o, s) && Marked(origin, value)
    ensures Marks(o[name := origin], Set(s, name, value))
  {
    hide Followed, Marked;
  }

  lemma TickMarks(o: Origins, s: Shell)
    requires Marks(o, s)
    ensures Marks(o, Tick(s))
  {
  }

  lemma OutputMarked(args: Words, s: Shell, env: Env)
    requires MarksTheRest(env)
    ensures Marked(if Bad(args) then Empty else Changed, Prints(args, s, env).text)
  {
    hide Bad;
  }

  lemma AssignedMarks(name: string, value: Rhs, o: Origins, s: Shell, env: Env)
    requires Marks(o, s) && MarksTheRest(env) && RhsOk(value)
    ensures var ok := value.Output? && Prints(value.args, s, env).ok;
            Marks(AssignedOrigins(name, value, o, ok), Assigned(name, value, s, env))
  {
    hide Marks, MarksTheRest, Marked, WordsOrigin, WordsValue, Followed, PieceOk, PiecesApart, WordsOk, Bad;
    match value {
      case Word(word) =>
        WordsMarked(word, o, s, env);
        SetMarks(o, s, name, WordsOrigin(word, o), WordsValue(word, s, env));
      case Output(args, fallback) =>
        var printed := Prints(args, s, env);
        var origin := if Bad(args) then Empty else Changed;
        var o1, s1 := o[name := origin], Set(Tick(s), name, printed.text);
        TickMarks(o, s);
        OutputMarked(args, s, env);
        SetMarks(o, Tick(s), name, origin, printed.text);
        if !printed.ok {
          WordsMarked(fallback, o1, s1, env);
          SetMarks(o1, s1, name, WordsOrigin(fallback, o1), WordsValue(fallback, s1, env));
        }
    }
  }

  // ---------------------------------------------------------------- a path that keeps it not

  /** Answers that lead along a path on which BASE_REF ends with another origin. */
  function Escape(p: Stmts, o: Origins): seq<bool>
    requires !Keeps(p, o)
    decreases Size(p)
  {
    if p.Nil? || Aborts(p.head) then []
    else
      match p.head
      case Assign(name, value) =>
        if value.Word? then Escape(p.rest, AssignedOrigins(name, value, o, false))
        else if !Bad(value.args) && !Keeps(p.rest, AssignedOrigins(name, value, o, true)) then
          [true] + Escape(p.rest, AssignedOrigins(name, value, o, true))
        else [false] + Escape(p.rest, AssignedOrigins(name, value, o, false))
      case Command(_, _) => Escape(p.rest, o)
      case Exit(_) => []
      case If(cond, body, tail) =>
        BranchSizes(p.head, p.rest);
        if !Keeps(Then(body, p.rest), o) then [true] + Escape(Then(body, p.rest), o)
        else [false] + Escape(Then(TailStmts(tail), p.rest), o)
  }

  lemma {:induction false} ThenWellFormed(a: Stmts, b: Stmts)
    requires WellFormed(a) && WellFormed(b)
    ensures WellFormed(Then(a, b))
    decreases a
  {
    hide WellFormedStmt;
    if a.Cons? {
      ThenWellFormed(a.rest, b);
    }
  }

  lemma TailWellFormed(t: Tail)
    requires WellFormedTail(t)
    ensures WellFormed(TailStmts(t))
  {
    hide CondOk;
  }

  lemma EndMarked(o: Origins, s: Shell)
    requires Marks(o, s) && !EndsProbed(o)
    ensures s.vars("BASE_REF") != MARK
  {
    assert Followed("BASE_REF");
    assert Marked(Of(o, "BASE_REF"), s.vars("BASE_REF"));
  }

  lemma {:induction false} EscapeBreaks(p: Stmts, o: Origins, s: Shell, env: Env)
    requires WellFormed(p) && !Keeps(p, o) && Marks(o, s) && MarksTheRest(env) && Follows(env, s.clock, Escape(p, o))
    ensures Run(p, s, env).shell.vars("BASE_REF") != MARK
    decreases Size(p)
  {
    hide Marks, MarksTheRest, Assigned, AssignedOrigins, EndsProbed, Then, TailStmts, Follows, MARK, Bad, Prints;
    if p.Nil? || Aborts(p.head) || p.head.Exit? {
      EndMarked(o, s);
    } else {
      match p.head {
        case Assign(name, value) => EscapeAssign(p, o, s, env);
        case Command(_, _) => EscapeBreaks(p.rest, o, s, env);
        case If(cond, body, tail) =>
          BranchSizes(p.head, p.rest);
          RunBranch(p.head, p.rest, s, env);
          TickMarks(o, s);
          ThenWellFormed(body, p.rest);
          TailWellFormed(tail);
          ThenWellFormed(TailStmts(tail), p.rest);
          if !Keeps(Then(body, p.rest), o) {
            FollowsFirst(env, s, true, Escape(Then(body, p.rest), o));
            EscapeBreaks(Then(body, p.rest), o, Tick(s), env);
          } else {
            FollowsFirst(env, s, false, Escape(Then(TailStmts(tail), p.rest), o));
            EscapeBreaks(Then(TailStmts(tail), p.rest), o, Tick(s), env);
          }
      }
    }
  }

  lemma {:induction false} EscapeAssign(p: Stmts, o: Origins, s: Shell, env: Env)
    requires p.Cons? && p.head.Assign? && !Aborts(p.head)
    requires WellFormed(p) && !Keeps(p, o) && Marks(o, s) && MarksTheRest(env) && Follows(env, s.clock, Escape(p, o))
    ensures Run(p, s, env).shell.vars("BASE_REF") != MARK
    decreases Size(p), 0
  {
    var name, value := p.head.name, p.head.value;
    AssignedMarks(name, value, o, s, env);
    var ok := value.Output? && Prints(value.args, s, env).ok;
    var next := AssignedOrigins(name, value, o, ok);
    assert Run(p, s, env) == Run(p.rest, Assigned(name, value, s, env), env);
    assert RhsOk(value);
    AssignedClock(name, value, s, env);
    if value.Output? {
      if !Bad(value.args) && !Keeps(p.rest, AssignedOrigins(name, value, o, true)) {
        FollowsFirst(env, s, true, Escape(p.rest, AssignedOrigins(name, value, o, true)));
      } else {
        FollowsFirst(env, s, false, Escape(p.rest, AssignedOrigins(name, value, o, false)));
      }
    }
    hide Marks, MarksTheRest, Assigned, AssignedOrigins, Follows, Bad, Run;
    EscapeBreaks(p.rest, next, Assigned(name, value, s, env), env);
  }

  lemma AssignedClock(name: string, value: Rhs, s: Shell, env: Env)
    ensures Assigned(name, value, s, env).clock == s.clock + if value.Output? then 1 else 0
  {
    hide WordsValue;
  }

  lemma ScriptMarks(answers: seq<bool>)
    ensures MarksTheRest(Scripted(answers, OTHER_MARK))
    ensures Marks(map[], Shell(FirstMark, 0))
  {
  }

  lemma NotKeptBreaks(p: Stmts)
    requires WellFormed(p) && !Keeps(p, map[])
    ensures !AlwaysProbed(p)
  {
    var answers := Escape(p, map[]);
    var s, env := Shell(FirstMark, 0), Scripted(answers, OTHER_MARK);
    ScriptMarks(answers);
    ScriptFollows(answers, OTHER_MARK);
    hide Keeps, Escape, Scripted, Marks, MarksTheRest, Follows, Run, WellFormed;
    EscapeBreaks(p, map[], s, env);
    assert !HoldsProbed(s, Run(p, s, env).shell);
  }

  lemma AllShown(s: Shell)
    ensures Shows(map[], s.vars, s)
  {
  }

  /** For every program: BASE_REF always ends as it was, or as BASE_REMOTE or BASE_LOCAL was when the
      program began, if and only if on every path through its text BASE_REF ends with one of the
      three as its origin. */
  lemma ProbedExactlyWhenKept(p: Stmts)
    requires WellFormed(p)
    ensures AlwaysProbed(p) <==> Keeps(p, map[])
  {
    hide Keeps, HoldsProbed, Shows, Run, WellFormed;
    if Keeps(p, map[]) {
      forall s: Shell, env: Env ensures HoldsProbed(s, Run(p, s, env).shell) {
        AllShown(s);
        KeepsProbes(p, map[], s, s, env);
      }
    } else {
      NotKeptBreaks(p);
    }
  }

  // ---------------------------------------------------------------- blocks that leave the probed names alone

  /** Some statement, at any depth, assigns the name. */
  predicate Assigns(p: Stmts, name: string)
    decreases p
  {
    p.Cons? && (StmtAssigns(p.head, name) || Assigns(p.rest, name))
  }

  predicate StmtAssigns(st: Stmt, name: string)
    decreases st
  {
    match st
    case Assign(n, _) => n == name
    case If(_, body, tail) => Assigns(body, name) || TailAssigns(tail, name)
    case _ => false
  }

  predicate TailAssigns(t: Tail, name: string)
    decreases t
  {
    match t
    case Fi => false
    case Else(arm) => Assigns(arm, name)
    case Elif(_, body, tail) => Assigns(body, name) || TailAssigns(tail, name)
  }

  /** Over every run a name that is not assigned keeps its value. */
  lemma {:induction false} RunKeepsName(p: Stmts, name: string, s: Shell, env: Env)
    requires !Assigns(p, name)
    ensures Run(p, s, env).shell.vars(name) == s.vars(name)
    decreases p
  {
    if p.Cons? {
      StmtKeepsName(p.head, name, s, env);
      if RunStmt(p.head, s, env).FellThrough? {
        RunKeepsName(p.rest, name, RunStmt(p.head, s, env).shell, env);
      }
    }
  }

  lemma {:induction false} StmtKeepsName(st: Stmt, name: string, s: Shell, env: Env)
    requires !StmtAssigns(st, name)
    ensures RunStmt(st, s, env).shell.vars(name) == s.vars(name)
    decreases st
  {
    hide WordsValue, Prints, Aborts;
    if st.If? {
      if env.eval(st.cond, s) { RunKeepsName(st.body, name, Tick(s), env); } else { TailKeepsName(st.tail, name, Tick(s), env); }
    }
  }

  lemma {:induction false} TailKeepsName(t: Tail, name: string, s: Shell, env: Env)
    requires !TailAssigns(t, name)
    ensures RunTail(t, s, env).shell.vars(name) == s.vars(name)
    decreases t
  {
    match t {
      case Fi =>
      case Else(arm) => RunKeepsName(arm, name, s, env);
      case Elif(cond, body, tail) =>
        if env.eval(cond, s) { RunKeepsName(body, name, Tick(s), env); } else { TailKeepsName(tail, name, Tick(s), env); }
    }
  }

  /** Takes one of the probed refs, and leaves them alone. */
  predicate Faithful(p: Stmts) {
    OnlyProbed(p) && !Assigns(p, "BASE_REMOTE") && !Assigns(p, "BASE_LOCAL")
  }

  lemma {:induction false} ThenFaithful(a: Stmts, b: Stmts)
    requires Faithful(a) && Faithful(b)
    ensures Faithful(Then(a, b))
    decreases a
  {
    hide StmtOnlyProbed, StmtAssigns;
    if a.Cons? {
      ThenFaithful(a.rest, b);
    }
  }

  lemma TailFaithful(t: Tail)
    requires TailOnlyProbed(t) && !TailAssigns(t, "BASE_REMOTE") && !TailAssigns(t, "BASE_LOCAL")
    ensures Faithful(TailStmts(t))
  {
  }

  lemma TakingOrigin(name: string, o: Origins, ok: bool)
    requires Followed(name) && name !in o
    ensures AssignedOrigins("BASE_REF", Taking(name), o, ok) == o["BASE_REF" := From(name)]
  {
    var ws, parts := [Quoted([Var(name)])], [Var(name)];
    assert ws[1..] == [] && parts[1..] == [];
    assert PartsOrigin(parts, o) == Joined(PartOrigin(parts[0], o), PartsOrigin(parts[1..], o)) == From(name);
    assert WordsOrigin(ws, o) == Joined(PieceOrigin(ws[0], o), WordsOrigin(ws[1..], o)) == From(name);
  }

  lemma AssignKeepsProbed(name: string, value: Rhs, o: Origins, ok: bool)
    requires StmtOnlyProbed(Assign(name, value)) && name != "BASE_REMOTE" && name != "BASE_LOCAL"
    requires EndsProbed(o) && "BASE_REMOTE" !in o && "BASE_LOCAL" !in o
    ensures var next := AssignedOrigins(name, value, o, ok); EndsProbed(next) && "BASE_REMOTE" !in next && "BASE_LOCAL" !in next
  {
    assert Followed("BASE_REMOTE") && Followed("BASE_LOCAL");
    if name == "BASE_REF" {
      hide Followed, AssignedOrigins;
      TakingOrigin(if value == Taking("BASE_REMOTE") then "BASE_REMOTE" else "BASE_LOCAL", o, ok);
    } else {
      hide WordsOrigin, Bad;
    }
  }

  lemma {:induction false} FaithfulKeeps(p: Stmts, o: Origins)
    requires Faithful(p) && EndsProbed(o) && "BASE_REMOTE" !in o && "BASE_LOCAL" !in o
    ensures Keeps(p, o)
    decreases Size(p)
  {
    hide EndsProbed, AssignedOrigins, Then, TailStmts, Bad, Aborts;
    if p.Cons? && !Aborts(p.head) {
      assert StmtOnlyProbed(p.head) && !StmtAssigns(p.head, "BASE_REMOTE") && !StmtAssigns(p.head, "BASE_LOCAL");
      assert Faithful(p.rest);
      match p.head {
        case Assign(name, value) =>
          AssignKeepsProbed(name, value, o, true);
          AssignKeepsProbed(name, value, o, false);
          FaithfulKeeps(p.rest, AssignedOrigins(name, value, o, true));
          FaithfulKeeps(p.rest, AssignedOrigins(name, value, o, false));
        case Command(_, _) => FaithfulKeeps(p.rest, o);
        case Exit(_) =>
        case If(cond, body, tail) =>
          BranchSizes(p.head, p.rest);
          assert TailOnlyProbed(tail) && !TailAssigns(tail, "BASE_REMOTE") && !TailAssigns(tail, "BASE_LOCAL") && Faithful(body);
          TailFaithful(tail);
          ThenFaithful(body, p.rest);
          ThenFaithful(TailStmts(tail), p.rest);
          FaithfulKeeps(Then(body, p.rest), o);
          FaithfulKeeps(Then(TailStmts(tail), p.rest), o);
      }
    }
  }

  /** Whatever path is taken through an accepted block that does not assign the probed names
      themselves, BASE_REF ends as it was or as one of them was when the block began. */
  lemma AcceptedBlockAssignsProbedRefs(cond: Cond, body: Stmts, tail: Tail)
    requires WellFormedStmt(If(cond, body, tail)) && Accepts(StmtLines(If(cond, body, tail)))
    requires !StmtAssigns(If(cond, body, tail), "BASE_REMOTE") && !StmtAssigns(If(cond, body, tail), "BASE_LOCAL")
    ensures AlwaysProbed(Cons(If(cond, body, tail), Nil))
  {
    var block := If(cond, body, tail);
    OnlyProbedStmt(block);
    assert OnlyAllowed(StmtLines(block));
    hide StmtLines, Accepts, WellFormedStmt, OnlyAllowed, StmtOnlyProbed, StmtAssigns, Keeps, AlwaysProbed;
    var p := Cons(block, Nil);
    assert !Assigns(Nil, "BASE_REMOTE") && !Assigns(Nil, "BASE_LOCAL");
    assert !Assigns(p, "BASE_REMOTE") && !Assigns(p, "BASE_LOCAL") && OnlyProbed(p) && WellFormed(p);
    assert EndsProbed(map[]);
    FaithfulKeeps(Cons(block, Nil), map[]);
    ProbedExactlyWhenKept(Cons(block, Nil));
  }

  // ---------------------------------------------------------------- a substituted base the lint accepts

  /** The block assigns BASE_REMOTE before it takes it. */
  function Substituting(word: Words): Stmt {
    Around(Cons(Assign("BASE_REMOTE", Word(word)), TAKEN), Arm([STOP], "1"))
  }

  lemma SubstitutingBody(word: Words)
    requires OneWord(word)
    ensures var body := Cons(Assign("BASE_REMOTE", Word(word)), TAKEN);
            WellFormed(body) && OnlyProbed(body) && ALLOWED_REMOTE in Lines(body)
  {
    TakenFits();
    RemoteName();
    hide OneWord, NameChars, TAKEN, ALLOWED_REMOTE;
    assert Name("BASE_REMOTE");
  }

  lemma TakingValue(name: string, s: Shell, env: Env)
    requires Followed(name)
    ensures WordsValue(Taking(name).word, s, env) == s.vars(name)
  {
    var ws, parts := [Quoted([Var(name)])], [Var(name)];
    assert ws[1..] == [] && parts[1..] == [];
    assert PartsValue(parts, s, env) == s.vars(name) + PartsValue(parts[1..], s, env) == s.vars(name);
    assert WordsValue(ws, s, env) == PartsValue(parts, s, env) + WordsValue(ws[1..], s, env) == s.vars(name);
  }

  lemma TakenRuns(s: Shell, env: Env)
    ensures Run(TAKEN, s, env) == FellThrough(Set(s, "BASE_REF", s.vars("BASE_REMOTE")))
  {
    assert Followed("BASE_REMOTE");
    TakingValue("BASE_REMOTE", s, env);
    assert !Aborts(TAKE_REMOTE);
    hide WordsValue;
    var next := Set(s, "BASE_REF", s.vars("BASE_REMOTE"));
    assert RunStmt(TAKE_REMOTE, s, env) == FellThrough(next) && Run(Nil, next, env) == FellThrough(next);
  }

  /** The lint accepts a block that gives BASE_REMOTE any word whatever and takes that: then BASE_REF
      ends as a base nobody probed. */
  lemma AcceptedBlockCanSubstitute(word: Words, s: Shell, env: Env)
    requires OneWord(word) && !Bad(word) && env.eval(PROBE, s)
    ensures var block := Substituting(word);
            WellFormedStmt(block) && Accepts(StmtLines(block)) && RunStmt(block, s, env).FellThrough?
            && RunStmt(block, s, env).shell.vars("BASE_REF") == WordsValue(word, Tick(s), env)
  {
    var first := Assign("BASE_REMOTE", Word(word));
    SubstitutingBody(word);
    StopSimple();
    OneIsCode();
    assert RunStmt(first, Tick(s), env) == FellThrough(Set(Tick(s), "BASE_REMOTE", WordsValue(word, Tick(s), env)));
    TakenRuns(RunStmt(first, Tick(s), env).shell, env);
    hide WordsValue, WellFormed, WellFormedStmt, OnlyProbed, Lines, StmtLines, Accepts, Simple, ExitCode, OneWord, Bad, TAKEN, STOP, ALLOWED_REMOTE;
    AroundAccepted(Cons(first, TAKEN), [STOP], "1");
  }

  lemma StopSimple()
    ensures Simple([STOP]) && !STOP.Assign?
  {
    hide WellFormedStmt, Contains, StmtLines, Aborts;
    StopReports();
  }

  const MAIN: Words := [Bare(Plain("main"))]

  /** `BASE_REMOTE=main` is such a line. */
  lemma MainSubstitutes()
    ensures StmtLines(Assign("BASE_REMOTE", Word(MAIN))) == ["BASE_REMOTE=main"]
    ensures WellFormedStmt(Substituting(MAIN)) && Accepts(StmtLines(Substituting(MAIN)))
    ensures !AlwaysProbed(Cons(Substituting(MAIN), Nil))
  {
    var s, env := Shell(_ => "", 0), Scripted([true], "");
    MainWord(s, env);
    hide Substituting, MAIN, WellFormedStmt, Accepts, StmtLines, WordsValue, RunStmt, AlwaysProbed, OneWord, Bad;
    AcceptedBlockCanSubstitute(MAIN, s, env);
    EndsElsewhere(Substituting(MAIN), s, env);
  }

  lemma EndsElsewhere(st: Stmt, s: Shell, env: Env)
    requires (forall name :: s.vars(name) == "") && RunStmt(st, s, env).FellThrough? && RunStmt(st, s, env).shell.vars("BASE_REF") == "main"
    ensures !AlwaysProbed(Cons(st, Nil))
  {
    hide RunStmt;
    var end := Run(Cons(st, Nil), s, env).shell;
    var after := RunStmt(st, s, env).shell;
    assert Run(Nil, after, env) == FellThrough(after);
    assert end == after;
    assert !HoldsProbed(s, end);
  }

  lemma MainWord(s: Shell, env: Env)
    ensures OneWord(MAIN) && !Bad(MAIN) && (forall t: Shell :: WordsValue(MAIN, t, env) == "main")
    ensures StmtLines(Assign("BASE_REMOTE", Word(MAIN))) == ["BASE_REMOTE=main"]
  {
    assert MAIN[1..] == [] && PlainBare("main", false) && '~' !in "main";
    assert WordsText(MAIN) == "main" + WordsText([]) == "main";
    assert "BASE_REMOTE" + "=" + "main" == "BASE_REMOTE=main";
    forall t: Shell ensures WordsValue(MAIN, t, env) == "main" {
      assert WordsValue(MAIN, t, env) == "main" + WordsValue(MAIN[1..], t, env) == "main" + "" == "main";
    }
  }
}
