/** The base-ref lint: line scanners with a depth counter that stand in for a claim about what
    a shell block does, and a small shell to say what it does.

    Source: scripts/gascity_pack_inference_gate.py, the `polecat_base_ref_*` helpers. */
module BaseRefLint {
  import opened Text
  import opened Wrappers

  const ANCHOR: string := "if git " + "show-ref --verify --quiet " + "\"$BASE_REMOTE\"; then"
  const ALLOWED_REMOTE: string := "BASE_REF=\"$BASE_REMOTE\""
  const ALLOWED_LOCAL: string := "BASE_REF=\"$BASE_LOCAL\""
  const STOP_HEAD: string := "STOP: base branch "
  const STOP_TAIL: string := " exists neither on origin nor locally."
  const STOP_MESSAGE: string := STOP_HEAD + ("${" + "WS_BASE_BRANCH" + "}") + STOP_TAIL

  // ---------------------------------------------------------------- the scanners

  predicate Opens(code: string) {
    "if " <= code || code == "if"
  }

  predicate Closes(code: string) {
    code == "fi" || "fi " <= code
  }

  /** Depth after a line. */
  function Depth(d: int, code: string): int {
    if Opens(code) then d + 1 else if Closes(code) then d - 1 else d
  }

  /** The scan of `polecat_base_ref_block` from the anchor on: how many lines it takes. */
  function BlockLength(lines: seq<string>, d: int): Option<nat> {
    if lines == [] then None
    else if Closes(lines[0]) && !Opens(lines[0]) && d == 1 then Some(1)
    else
      var rest := BlockLength(lines[1..], Depth(d, lines[0]));
      if rest.Some? then Some(rest.value + 1) else None
  }

  function FirstAnchor(lines: seq<string>): (i: Option<nat>)
    ensures i.Some? ==> i.value < |lines|
  {
    if lines == [] then None
    else if lines[0] == ANCHOR then Some(0)
    else
      var rest := FirstAnchor(lines[1..]);
      if rest.Some? then Some(rest.value + 1) else None
  }

  /** `polecat_base_ref_block`; None when an anchor is missing. */
  method BaseRefBlock(lines: seq<string>) returns (block: Option<seq<string>>)
    ensures var start := FirstAnchor(lines);
      if start.None? then block == None
      else
        var n := BlockLength(lines[start.value..], 0);
        if n.None? then block == None else n.value <= |lines| - start.value && block == Some(lines[start.value..start.value + n.value])
  {
    hide Opens, Closes;
    var found := FirstAnchor(lines);
    if found.None? {
      return None;
    }
    var start := found.value;
    var depth := 0;
    var k := start;
    while k < |lines|
      invariant start <= k <= |lines|
      invariant BlockLength(lines[start..], 0) ==
                  (var rest := BlockLength(lines[k..], depth); if rest.Some? then Some(rest.value + (k - start)) else None)
    {
      var code := lines[k];
      k := k + 1;
      if Opens(code) {
        depth := depth + 1;
      } else if Closes(code) {
        depth := depth - 1;
        if depth == 0 {
          return Some(lines[start..k]);
        }
      }
    }
    return None;
  }

  /** The scan of `polecat_base_ref_stop_arm`: depth so far, arm so far. */
  function StopArmFrom(block: seq<string>, d: int, arm: Option<seq<string>>): Option<seq<string>>
    decreases |block|
  {
    if block == [] then arm
    else
      var code, d' := block[0], Depth(d, block[0]);
      if !Opens(code) && !Closes(code) && code == "else" && d == 1 then StopArmFrom(block[1..], d', Some([]))
      else if arm.Some? && d' == 1 then StopArmFrom(block[1..], d', Some(arm.value + [code]))
      else StopArmFrom(block[1..], d', arm)
  }

  method StopArm(block: seq<string>) returns (arm: Option<seq<string>>)
    ensures arm == StopArmFrom(block, 0, None)
  {
    var depth := 0;
    arm := None;
    for k := 0 to |block|
      invariant StopArmFrom(block, 0, None) == StopArmFrom(block[k..], depth, arm)
    {
      var code := block[k];
      if Opens(code) {
        depth := depth + 1;
      } else if Closes(code) {
        depth := depth - 1;
      } else if code == "else" && depth == 1 {
        arm := Some([]);
        continue;
      }
      if arm.Some? && depth == 1 {
        arm := Some(arm.value + [code]);
      }
    }
  }

  // ---------------------------------------------------------------- the judgements

  predicate Contains(s: string, t: string) {
    exists i | 0 <= i <= |s| :: t <= s[i..]
  }

  /** `polecat_base_ref_assignment_problems` reports nothing. */
  predicate AssignmentsOk(block: seq<string>) {
    && (exists code | code in block :: "BASE_REF=" <= code)
    && forall code | code in block && "BASE_REF=" <= code :: code == ALLOWED_REMOTE || code == ALLOWED_LOCAL
  }

  predicate StopLine(code: string) {
    "exit " <= code && code != "exit 0"
  }

  /** `polecat_base_ref_stop_arm_problems` reports nothing. */
  predicate StopArmOk(arm: seq<string>) {
    && (exists code | code in arm :: Contains(code, STOP_MESSAGE))
    && (exists code | code in arm :: StopLine(code))
  }

  /** The structural part of `polecat_base_ref_problems` reports nothing about this block. */
  predicate Accepts(block: seq<string>) {
    var arm := StopArmFrom(block, 0, None);
    AssignmentsOk(block) && arm.Some? && StopArmOk(arm.value)
  }

  // ---------------------------------------------------------------- a small shell

  /** Literal text, $name, or ${name}. */
  datatype Part = Plain(text: string) | Var(name: string) | Braced(name: string)
  datatype Piece = Bare(part: Part) | Quoted(parts: seq<Part>)
  type Words = seq<Piece>

  datatype Test = Git(args: Words) | Same(left: seq<Part>, right: seq<Part>) | Differ(left: seq<Part>, right: seq<Part>)
  datatype Cond = Is(test: Test) | Not(test: Test) | Both(left: Cond, right: Cond) | Either(left: Cond, right: Cond)

  /** A word, or what a git command prints with a word to take its place. */
  datatype Rhs = Word(word: Words) | Output(args: Words, fallback: Words)

  /** One statement per line; conditions are commands with opaque answers. */
  datatype Stmt =
    | Assign(name: string, value: Rhs)
    | Command(program: string, args: Words)
    | Exit(code: string)
    | If(cond: Cond, body: Stmts, tail: Tail)
  datatype Stmts = Nil | Cons(head: Stmt, rest: Stmts)
  datatype Tail = Fi | Else(arm: Stmts) | Elif(cond: Cond, body: Stmts, tail: Tail)

  /** Commands that change no variable of the shell and do not leave it. */
  const PROGRAMS: set<string> := {"echo", "git", "gc"}

  /** Variables of bash 5.2 that no assignment can change. */
  const READONLY: set<string> := {"UID", "EUID", "PPID", "BASHOPTS", "SHELLOPTS", "BASH_VERSINFO"}

  /** Variables whose value bash evaluates, or by which it changes its own rules. */
  const PECULIAR: set<string> := {"OPTIND", "HISTCMD", "SRANDOM", "POSIXLY_CORRECT"}

  /** Variables that bash computes when they are read, or sets by itself. */
  const COMPUTED: set<string> :=
    {"_", "BASHPID", "BASH_ARGC", "BASH_ARGV", "BASH_COMMAND", "BASH_LINENO", "BASH_SOURCE", "BASH_SUBSHELL", "DIRSTACK",
     "EPOCHREALTIME", "EPOCHSECONDS", "FUNCNAME", "GROUPS", "HISTCMD", "LINENO", "PIPESTATUS", "RANDOM", "SECONDS", "SRANDOM"}

  predicate NameChar(c: char) {
    c == '_' || 'A' <= c <= 'Z' || 'a' <= c <= 'z' || '0' <= c <= '9'
  }

  predicate NameChars(s: string) {
    forall i | 0 <= i < |s| :: NameChar(s[i])
  }

  predicate Identifier(s: string) {
    s != "" && !('0' <= s[0] <= '9') && NameChars(s)
  }

  predicate Name(s: string) {
    Identifier(s) && s !in PECULIAR
  }

  /** Characters that mean something to the shell outside of quotes. */
  predicate Operator(c: char) {
    c == ';' || c == '|' || c == '&' || c == '<' || c == '>' || c == '(' || c == ')' || c == '{' || c == '}'
    || c == '`' || c == '\\' || c == '\'' || c == '"' || c == '$' || c == '#'
  }

  predicate BareChar(c: char) {
    '!' <= c <= '~' && !Operator(c)
  }

  predicate QuotedChar(c: char) {
    (' ' <= c <= '~' || c > '\U{a0}') && c != '\U{2028}' && c != '\U{2029}' && c != '"' && c != '$' && c != '`' && c != '\\'
  }

  predicate PlainBare(t: string, blanks: bool) {
    forall i | 0 <= i < |t| :: BareChar(t[i]) || (blanks && t[i] == ' ')
  }

  predicate PlainQuoted(t: string) {
    forall i | 0 <= i < |t| :: QuotedChar(t[i])
  }

  predicate BareOk(p: Part, blanks: bool) {
    match p
    case Plain(t) => t != "" && PlainBare(t, blanks)
    case Var(name) => name != "" && NameChars(name)
    case Braced(name) => NameChars(name)
  }

  predicate QuotedOk(p: Part) {
    match p
    case Plain(t) => t != "" && PlainQuoted(t)
    case Var(name) => name != "" && NameChars(name)
    case Braced(name) => NameChars(name)
  }

  /** What stands behind $name does not make the name longer. */
  predicate Apart(p: Part, next: Part) {
    p.Var? && next.Plain? && next.text != "" ==> !NameChar(next.text[0])
  }

  predicate PartsOk(parts: seq<Part>) {
    && (forall i | 0 <= i < |parts| :: QuotedOk(parts[i]))
    && (forall i | 0 < i < |parts| :: Apart(parts[i - 1], parts[i]))
  }

  predicate PieceOk(piece: Piece, blanks: bool) {
    match piece
    case Bare(part) => BareOk(part, blanks)
    case Quoted(parts) => PartsOk(parts)
  }

  predicate PiecesApart(a: Piece, b: Piece) {
    a.Bare? && b.Bare? ==> Apart(a.part, b.part)
  }

  /** Words with blanks between them. */
  predicate WordsOk(ws: Words) {
    && (forall i | 0 <= i < |ws| :: PieceOk(ws[i], true))
    && (forall i | 0 < i < |ws| :: PiecesApart(ws[i - 1], ws[i]))
  }

  predicate OneWord(ws: Words) {
    && (forall i | 0 <= i < |ws| :: PieceOk(ws[i], false))
    && (forall i | 0 < i < |ws| :: PiecesApart(ws[i - 1], ws[i]))
  }

  /** The last character is no blank. */
  predicate Trimmed(ws: Words) {
    ws != [] && match ws[|ws| - 1]
                case Bare(Plain(t)) => t != "" && t[|t| - 1] != ' '
                case _ => true
  }

  /** What is in the braces names no variable and no argument: bash reports a bad substitution. */
  predicate BadPart(p: Part) {
    p.Braced? && !Identifier(p.name) && !Digits(p.name)
  }

  predicate BadParts(parts: seq<Part>) {
    exists i | 0 <= i < |parts| :: BadPart(parts[i])
  }

  predicate BadPiece(piece: Piece) {
    match piece
    case Bare(part) => BadPart(part)
    case Quoted(parts) => BadParts(parts)
  }

  predicate Bad(ws: Words) {
    exists i | 0 <= i < |ws| :: BadPiece(ws[i])
  }

  predicate TestOk(t: Test) {
    match t
    case Git(args) => WordsOk(args) && !Bad(args)
    case Same(left, right) => PartsOk(left) && PartsOk(right) && !BadParts(left) && !BadParts(right)
    case Differ(left, right) => PartsOk(left) && PartsOk(right) && !BadParts(left) && !BadParts(right)
  }

  predicate CondOk(c: Cond) {
    match c
    case Is(test) => TestOk(test)
    case Not(test) => TestOk(test)
    case Both(left, right) => CondOk(left) && CondOk(right)
    case Either(left, right) => CondOk(left) && CondOk(right)
  }

  predicate RhsOk(v: Rhs) {
    match v
    case Word(word) => OneWord(word)
    case Output(args, fallback) => WordsOk(args) && OneWord(fallback) && !Bad(fallback)
  }

  /** A number any shell can read. */
  predicate ExitCode(s: string) {
    Digits(s) && |s| <= 18
  }

  predicate WellFormed(p: Stmts)
    decreases p
  {
    p.Cons? ==> WellFormedStmt(p.head) && WellFormed(p.rest)
  }

  predicate WellFormedStmt(s: Stmt)
    decreases s
  {
    match s
    case Assign(name, value) => Name(name) && RhsOk(value)
    case Command(program, args) => program in PROGRAMS && WordsOk(args) && Trimmed(args)
    case Exit(code) => ExitCode(code)
    case If(cond, body, tail) => CondOk(cond) && body != Nil && WellFormed(body) && WellFormedTail(tail)
  }

  predicate WellFormedTail(t: Tail)
    decreases t
  {
    match t
    case Fi => true
    case Else(arm) => arm != Nil && WellFormed(arm)
    case Elif(cond, body, tail) => CondOk(cond) && body != Nil && WellFormed(body) && WellFormedTail(tail)
  }

  function PartText(p: Part): string {
    match p
    case Plain(t) => t
    case Var(name) => "$" + name
    case Braced(name) => "${" + name + "}"
  }

  function PartsText(parts: seq<Part>): string {
    if parts == [] then "" else PartText(parts[0]) + PartsText(parts[1..])
  }

  function InQuotes(parts: seq<Part>): string {
    "\"" + PartsText(parts) + "\""
  }

  function PieceText(piece: Piece): string {
    match piece
    case Bare(part) => PartText(part)
    case Quoted(parts) => InQuotes(parts)
  }

  function WordsText(ws: Words): string {
    if ws == [] then "" else PieceText(ws[0]) + WordsText(ws[1..])
  }

  function TestText(t: Test): string {
    match t
    case Git(args) => "git " + WordsText(args)
    case Same(left, right) => "[ " + InQuotes(left) + " = " + InQuotes(right) + " ]"
    case Differ(left, right) => "[ " + InQuotes(left) + " != " + InQuotes(right) + " ]"
  }

  function CondText(c: Cond): string {
    match c
    case Is(test) => TestText(test)
    case Not(test) => "! " + TestText(test)
    case Both(left, right) => CondText(left) + " && " + CondText(right)
    case Either(left, right) => CondText(left) + " || " + CondText(right)
  }

  /** What stands behind the "=" of an assignment. */
  function RhsText(name: string, v: Rhs): string {
    match v
    case Word(word) => WordsText(word)
    case Output(args, fallback) => "$(git " + WordsText(args) + ") || " + name + "=" + WordsText(fallback)
  }

  function IfLine(cond: Cond): string {
    "if " + CondText(cond) + "; then"
  }

  function ElifLine(cond: Cond): string {
    "elif " + CondText(cond) + "; then"
  }

  /** The lines of a program, as the formula's shell lists them. */
  function Lines(p: Stmts): seq<string>
    decreases p
  {
    if p.Nil? then [] else StmtLines(p.head) + Lines(p.rest)
  }

  function StmtLines(s: Stmt): (lines: seq<string>)
    ensures lines != []
    decreases s
  {
    match s
    case Assign(name, value) => [name + "=" + RhsText(name, value)]
    case Command(program, args) => [program + " " + WordsText(args)]
    case Exit(code) => ["exit " + code]
    case If(cond, body, tail) => [IfLine(cond)] + Lines(body) + TailLines(tail)
  }

  function TailLines(t: Tail): seq<string>
    decreases t
  {
    match t
    case Fi => ["fi"]
    case Else(arm) => ["else"] + Lines(arm) + ["fi"]
    case Elif(cond, body, tail) => [ElifLine(cond)] + Lines(body) + TailLines(tail)
  }

  // ---------------------------------------------------------------- what running it does

  /** What the variables hold (nothing when unset), and how many questions have been asked. */
  datatype Shell = Shell(vars: string -> string, clock: nat)

  /** What a git command inside $(...) printed, and whether it succeeded. */
  datatype Printed = Printed(text: string, ok: bool)

  /** Everything not decided by the text: the answers of conditions, the output of commands, and
      what expands to something not assigned here. Any of it may depend on the variables and on the moment. */
  datatype Env = Env(eval: (Cond, Shell) -> bool, output: (Words, Shell) -> Printed, other: (Part, Shell) -> string)

  /** A variable that holds what was last assigned to it. */
  predicate Followed(name: string) {
    Identifier(name) && name !in COMPUTED
  }

  /** Outside of quotes a tilde may stand for a directory. */
  function PartValue(p: Part, bare: bool, s: Shell, env: Env): string {
    match p
    case Plain(t) => if bare && '~' in t then env.other(p, s) else t
    case Var(name) => if Followed(name) then s.vars(name) else env.other(p, s)
    case Braced(name) => if Followed(name) then s.vars(name) else env.other(p, s)
  }

  function PartsValue(parts: seq<Part>, s: Shell, env: Env): string {
    if parts == [] then "" else PartValue(parts[0], false, s, env) + PartsValue(parts[1..], s, env)
  }

  function PieceValue(piece: Piece, s: Shell, env: Env): string {
    match piece
    case Bare(part) => PartValue(part, true, s, env)
    case Quoted(parts) => PartsValue(parts, s, env)
  }

  /** What one word expands to where it is assigned. */
  function WordsValue(ws: Words, s: Shell, env: Env): string {
    if ws == [] then "" else PieceValue(ws[0], s, env) + WordsValue(ws[1..], s, env)
  }

  function Tick(s: Shell): Shell {
    s.(clock := s.clock + 1)
  }

  function Set(s: Shell, name: string, value: string): Shell {
    s.(vars := (n: string) => if n == name then value else s.vars(n))
  }

  /** After a bad substitution the command does not even start. */
  function Prints(args: Words, s: Shell, env: Env): Printed {
    if Bad(args) then Printed("", false) else env.output(args, s)
  }

  /** An assignment. A failed command's output is assigned before its fallback is looked at. */
  function Assigned(name: string, value: Rhs, s: Shell, env: Env): Shell {
    match value
    case Word(word) => Set(s, name, WordsValue(word, s, env))
    case Output(args, fallback) =>
      var printed := Prints(args, s, env);
      var next := Set(Tick(s), name, printed.text);
      if printed.ok then next else Set(next, name, WordsValue(fallback, next, env))
  }

  /** Aborted: bash gives up the whole command it is in, out to the outermost one, and a script goes
      on behind that one as if nothing had happened. */
  datatype Outcome = FellThrough(shell: Shell) | Exited(status: nat, shell: Shell) | Aborted(shell: Shell)

  /** The status a shell leaves with: the number modulo 256; 2 for what is no number. */
  function Status(code: string): nat {
    if Digits(code) then Value(code) % 256 else 2
  }

  /** An assignment to a variable that cannot change, or a bad substitution. A bad substitution
      inside $(...) only fails the command there. */
  predicate Aborts(st: Stmt) {
    match st
    case Assign(name, value) => name in READONLY || (value.Word? && Bad(value.word))
    case Command(_, args) => Bad(args)
    case _ => false
  }

  function Run(p: Stmts, s: Shell, env: Env): Outcome
    decreases p
  {
    if p.Nil? then FellThrough(s)
    else
      match RunStmt(p.head, s, env)
      case FellThrough(next) => Run(p.rest, next, env)
      case Exited(status, end) => Exited(status, end)
      case Aborted(end) => Aborted(end)
  }

  function RunStmt(st: Stmt, s: Shell, env: Env): Outcome
    decreases st
  {
    if Aborts(st) then Aborted(s)
    else
      match st
      case Assign(name, value) => FellThrough(Assigned(name, value, s, env))
      case Command(_, _) => FellThrough(s)
      case Exit(code) => Exited(Status(code), s)
      case If(cond, body, tail) => if env.eval(cond, s) then Run(body, Tick(s), env) else RunTail(tail, Tick(s), env)
  }

  function RunTail(t: Tail, s: Shell, env: Env): Outcome
    decreases t
  {
    match t
    case Fi => FellThrough(s)
    case Else(arm) => Run(arm, s, env)
    case Elif(cond, body, tail) => if env.eval(cond, s) then Run(body, Tick(s), env) else RunTail(tail, Tick(s), env)
  }

  // ---------------------------------------------------------------- depths over well-formed programs

  function DepthAfter(lines: seq<string>, d: int): int {
    if lines == [] then d else DepthAfter(lines[1..], Depth(d, lines[0]))
  }

  /** Before and after every line the depth is at least `k`. */
  predicate Above(lines: seq<string>, d: int, k: int) {
    d >= k && (lines != [] ==> Above(lines[1..], Depth(d, lines[0]), k))
  }

  lemma {:induction false} AboveAppend(a: seq<string>, b: seq<string>, d: int, k: int)
    requires Above(a, d, k) && Above(b, DepthAfter(a, d), k)
    ensures Above(a + b, d, k) && DepthAfter(a + b, d) == DepthAfter(b, DepthAfter(a, d))
  {
    if a == [] {
      assert a + b == b;
    } else {
      assert (a + b)[1..] == a[1..] + b;
      AboveAppend(a[1..], b, Depth(d, a[0]), k);
    }
  }

  /** None of the simple lines moves the depth or reads as `else`. */
  predicate Quiet(code: string) {
    !Opens(code) && !Closes(code)
  }

  /** A keyword in front of an assignment would have to be part of the variable's name. */
  lemma AssignPrefix(name: string, value: string, keyword: string)
    ensures keyword <= name + "=" + value ==> '=' in keyword || keyword <= name
  {
    var code := name + "=" + value;
    if keyword <= code {
      if |keyword| > |name| {
        assert keyword[|name|] == code[|name|];
      } else {
        assert keyword == code[..|keyword|] == name[..|keyword|];
      }
    }
  }

  lemma AssignLine(name: string, value: string)
    requires Name(name)
    ensures var code := name + "=" + value; Quiet(code) && code != "else" && !("exit " <= code)
  {
    var code := name + "=" + value;
    AssignPrefix(name, value, "if ");
    AssignPrefix(name, value, "fi ");
    AssignPrefix(name, value, "exit ");
    assert "if "[2] == ' ' && "fi "[2] == ' ' && "exit "[4] == ' ';
    assert code[|name|] == '=';
  }

  lemma CommandLine(program: string, text: string)
    requires program in PROGRAMS
    ensures var code := program + " " + text; Quiet(code) && code != "else" && !("exit " <= code)
  {
    var code := program + " " + text;
    assert code[0] == program[0] && code[1] == program[1];
    assert "exit "[1] == 'x' && "else"[1] == 'l' && "if "[0] == 'i' && "fi "[0] == 'f' && "if"[0] == 'i' && "fi"[0] == 'f';
  }

  lemma SimpleLines(s: Stmt)
    requires WellFormedStmt(s) && !s.If?
    ensures |StmtLines(s)| == 1 && Quiet(StmtLines(s)[0]) && StmtLines(s)[0] != "else"
    ensures s.Exit? <==> "exit " <= StmtLines(s)[0]
  {
    hide WordsText;
    match s {
      case Assign(name, value) => AssignLine(name, RhsText(name, value));
      case Command(program, args) => CommandLine(program, WordsText(args));
      case Exit(code) => assert ("exit " + code)[0] == 'e' && ("exit " + code)[1] == 'x';
    }
  }

  lemma KeywordLines(cond: Cond)
    ensures Opens(IfLine(cond)) && IfLine(cond) != "else"
    ensures Quiet(ElifLine(cond)) && ElifLine(cond) != "else"
  {
    hide CondText;
    assert ElifLine(cond)[0] == 'e' && ElifLine(cond)[2] == 'i';
    assert IfLine(cond) == "if " + (CondText(cond) + "; then");
    assert IfLine(cond)[0] == 'i';
  }

  lemma ElseFiLines()
    ensures Quiet("else") && Closes("fi") && !Opens("fi")
  {
    assert "else"[0] == 'e' && "fi"[0] == 'f';
  }

  /** The lines of a tail before its `fi`. */
  function TailFront(t: Tail): seq<string>
    decreases t
  {
    match t
    case Fi => []
    case Else(arm) => ["else"] + Lines(arm)
    case Elif(cond, body, tail) => [ElifLine(cond)] + Lines(body) + TailFront(tail)
  }

  lemma {:induction false} TailIsFrontThenFi(t: Tail)
    ensures TailLines(t) == TailFront(t) + ["fi"]
    decreases t
  {
    if t.Elif? {
      TailIsFrontThenFi(t.tail);
    }
  }

  /** An if statement: its opening line, what is between, its `fi`. */
  function Inside(body: Stmts, t: Tail): seq<string> {
    Lines(body) + TailFront(t)
  }

  lemma IfLines(cond: Cond, body: Stmts, tail: Tail)
    ensures StmtLines(If(cond, body, tail)) == [IfLine(cond)] + Inside(body, tail) + ["fi"]
  {
    TailIsFrontThenFi(tail);
  }

  lemma AboveOne(code: string, d: int, k: int)
    requires d >= k && Depth(d, code) >= k
    ensures Above([code], d, k) && DepthAfter([code], d) == Depth(d, code)
  {
    var none: seq<string> := [code][1..];
    assert none == [];
  }

  /** A program never goes below the depth it starts at, and ends there. */
  lemma {:induction false} ProgramBalanced(p: Stmts, d: int)
    requires WellFormed(p)
    ensures Above(Lines(p), d, d) && DepthAfter(Lines(p), d) == d
    decreases p
  {
    if p.Cons? {
      StmtBalanced(p.head, d);
      ProgramBalanced(p.rest, d);
      AboveAppend(StmtLines(p.head), Lines(p.rest), d, d);
    }
  }

  lemma {:induction false} StmtBalanced(s: Stmt, d: int)
    requires WellFormedStmt(s)
    ensures Above(StmtLines(s), d, d) && DepthAfter(StmtLines(s), d) == d
    decreases s
  {
    if s.If? {
      var open := IfLine(s.cond);
      ProgramBalanced(s.body, d + 1);
      TailBalanced(s.tail, d + 1);
      InsideBalanced(s.body, s.tail, d + 1);
      AboveLower(Inside(s.body, s.tail), d + 1, d + 1, d);
      KeywordLines(s.cond);
      IfLines(s.cond, s.body, s.tail);
      AboveOne(open, d, d);
      AboveOne("fi", d + 1, d);
      AboveAppend([open], Inside(s.body, s.tail), d, d);
      AboveAppend([open] + Inside(s.body, s.tail), ["fi"], d, d);
    } else {
      SimpleLines(s);
      assert StmtLines(s) == [StmtLines(s)[0]];
      AboveOne(StmtLines(s)[0], d, d);
    }
  }

  lemma {:induction false} TailBalanced(t: Tail, d: int)
    requires WellFormedTail(t)
    ensures Above(TailFront(t), d, d) && DepthAfter(TailFront(t), d) == d
    decreases t
  {
    match t {
      case Fi =>
      case Else(arm) =>
        ElseFiLines();
        ProgramBalanced(arm, d);
        AboveOne("else", d, d);
        AboveAppend(["else"], Lines(arm), d, d);
      case Elif(cond, body, tail) =>
        var code := ElifLine(cond);
        KeywordLines(cond);
        ProgramBalanced(body, d);
        TailBalanced(tail, d);
        AboveOne(code, d, d);
        AboveAppend([code], Lines(body), d, d);
        AboveAppend([code] + Lines(body), TailFront(tail), d, d);
    }
  }

  lemma InsideBalanced(body: Stmts, t: Tail, d: int)
    requires Above(Lines(body), d, d) && DepthAfter(Lines(body), d) == d
    requires Above(TailFront(t), d, d) && DepthAfter(TailFront(t), d) == d
    ensures Above(Inside(body, t), d, d) && DepthAfter(Inside(body, t), d) == d
  {
    AboveAppend(Lines(body), TailFront(t), d, d);
  }

  lemma {:induction false} AboveLower(lines: seq<string>, d: int, k: int, low: int)
    requires Above(lines, d, k) && low <= k
    ensures Above(lines, d, low)
  {
    if lines != [] {
      AboveLower(lines[1..], Depth(d, lines[0]), k, low);
    }
  }

  // ---------------------------------------------------------------- extraction finds the statement

  lemma {:induction false} BlockOver(a: seq<string>, b: seq<string>, d: int)
    requires Above(a, d, 1)
    ensures var rest := BlockLength(b, DepthAfter(a, d));
      BlockLength(a + b, d) == if rest.Some? then Some(rest.value + |a|) else None
  {
    if a == [] {
      assert a + b == b;
    } else {
      assert (a + b)[1..] == a[1..] + b && (a + b)[0] == a[0];
      BlockOver(a[1..], b, Depth(d, a[0]));
    }
  }

  lemma {:induction false} FirstAnchorAt(pre: seq<string>, lines: seq<string>)
    requires ANCHOR !in pre && lines != [] && lines[0] == ANCHOR
    ensures FirstAnchor(pre + lines) == Some(|pre|)
  {
    if pre == [] {
      assert pre + lines == lines;
    } else {
      assert (pre + lines)[1..] == pre[1..] + lines && (pre + lines)[0] == pre[0] && pre[0] in pre;
      FirstAnchorAt(pre[1..], lines);
    }
  }

  lemma BlockScan(open: string, inside: seq<string>, post: seq<string>)
    requires Opens(open) && Above(inside, 1, 1) && DepthAfter(inside, 1) == 1
    ensures BlockLength([open] + inside + ["fi"] + post, 0) == Some(|inside| + 2)
  {
    var lines := [open] + inside + ["fi"] + post;
    assert lines[1..] == inside + (["fi"] + post) && lines[0] == open;
    assert (["fi"] + post)[0] == "fi" && Closes("fi") && !Opens("fi");
    BlockOver(inside, ["fi"] + post, 1);
  }

  /** Whatever surrounds it, the extracted block is exactly the anchored if statement, however
      deeply statements nest inside it. */
  lemma BlockIsTheStatement(pre: seq<string>, cond: Cond, body: Stmts, tail: Tail, post: seq<string>)
    requires WellFormed(body) && WellFormedTail(tail)
    requires IfLine(cond) == ANCHOR && ANCHOR !in pre
    ensures var block := StmtLines(If(cond, body, tail)); var lines := pre + (block + post);
      && FirstAnchor(lines) == Some(|pre|)
      && BlockLength(lines[|pre|..], 0) == Some(|block|)
      && lines[|pre|..|pre| + |block|] == block
  {
    var open, inside := IfLine(cond), Inside(body, tail);
    var block := StmtLines(If(cond, body, tail));
    IfLines(cond, body, tail);
    KeywordLines(cond);
    ProgramBalanced(body, 1);
    TailBalanced(tail, 1);
    InsideBalanced(body, tail, 1);
    hide WellFormed, WellFormedTail, Lines, StmtLines, TailFront, Inside, Opens, BlockLength, FirstAnchor, Above, DepthAfter;
    assert (block + post)[0] == open;
    FirstAnchorAt(pre, block + post);
    assert (pre + (block + post))[|pre|..] == block + post;
    BlockScan(open, inside, post);
  }

  // ---------------------------------------------------------------- the collected else arm

  /** What the scanner keeps of an arm: its top-level lines, and the `fi` of each nested if. */
  function TopLines(p: Stmts): seq<string> {
    if p.Nil? then []
    else (if p.head.If? then ["fi"] else StmtLines(p.head)) + TopLines(p.rest)
  }

  function ElseArm(t: Tail): Option<Stmts> {
    match t
    case Fi => None
    case Else(arm) => Some(arm)
    case Elif(_, _, tail) => ElseArm(tail)
  }

  /** Lines kept at depth two or more leave no trace. */
  lemma {:induction false} ArmSkips(a: seq<string>, rest: seq<string>, d: int, arm: Option<seq<string>>)
    requires Above(a, d, 2)
    ensures StopArmFrom(a + rest, d, arm) == StopArmFrom(rest, DepthAfter(a, d), arm)
  {
    if a == [] {
      assert a + rest == rest;
    } else {
      assert (a + rest)[1..] == a[1..] + rest && (a + rest)[0] == a[0];
      ArmSkips(a[1..], rest, Depth(d, a[0]), arm);
    }
  }

  function Kept(arm: Option<seq<string>>, lines: seq<string>): Option<seq<string>> {
    if arm.None? then None else Some(arm.value + lines)
  }

  lemma ArmOverLine(code: string, rest: seq<string>, arm: Option<seq<string>>)
    requires Quiet(code) && code != "else"
    ensures StopArmFrom([code] + rest, 1, arm) == StopArmFrom(rest, 1, Kept(arm, [code]))
  {
    hide Opens, Closes;
    assert ([code] + rest)[1..] == rest;
  }

  lemma ArmOverIf(open: string, inside: seq<string>, rest: seq<string>, arm: Option<seq<string>>)
    requires Opens(open) && Above(inside, 2, 2) && DepthAfter(inside, 2) == 2
    ensures StopArmFrom([open] + inside + ["fi"] + rest, 1, arm) == StopArmFrom(rest, 1, Kept(arm, ["fi"]))
  {
    ElseFiLines();
    hide Opens, Closes, Above, DepthAfter;
    var lines := [open] + inside + ["fi"] + rest;
    assert lines[0] == open && lines[1..] == inside + (["fi"] + rest);
    ArmSkips(inside, ["fi"] + rest, 2, arm);
    assert (["fi"] + rest)[1..] == rest;
  }

  lemma ArmOverStmt(s: Stmt, rest: seq<string>, arm: Option<seq<string>>)
    requires WellFormedStmt(s)
    ensures StopArmFrom(StmtLines(s) + rest, 1, arm) ==
              StopArmFrom(rest, 1, Kept(arm, if s.If? then ["fi"] else StmtLines(s)))
  {
    if s.If? {
      IfLines(s.cond, s.body, s.tail);
      KeywordLines(s.cond);
      ProgramBalanced(s.body, 2);
      TailBalanced(s.tail, 2);
      InsideBalanced(s.body, s.tail, 2);
      hide *;
      ArmOverIf(IfLine(s.cond), Inside(s.body, s.tail), rest, arm);
    } else {
      SimpleLines(s);
      var code := StmtLines(s)[0];
      assert StmtLines(s) == [code];
      hide *;
      ArmOverLine(code, rest, arm);
    }
  }

  lemma {:induction false} ArmOverProgram(p: Stmts, rest: seq<string>, arm: Option<seq<string>>)
    requires WellFormed(p)
    ensures StopArmFrom(Lines(p) + rest, 1, arm) == StopArmFrom(rest, 1, Kept(arm, TopLines(p)))
  {
    hide StmtLines, WellFormedStmt, StopArmFrom;
    if p.Nil? {
      assert Lines(p) + rest == rest;
      assert arm.Some? ==> arm.value + [] == arm.value;
    } else {
      var head := if p.head.If? then ["fi"] else StmtLines(p.head);
      assert Lines(p) + rest == StmtLines(p.head) + (Lines(p.rest) + rest);
      ArmOverStmt(p.head, Lines(p.rest) + rest, arm);
      ArmOverProgram(p.rest, rest, Kept(arm, head));
      assert arm.Some? ==> arm.value + head + TopLines(p.rest) == arm.value + (head + TopLines(p.rest));
    }
  }

  lemma ElseStarts(rest: seq<string>)
    ensures StopArmFrom(["else"] + rest, 1, None) == StopArmFrom(rest, 1, Some([]))
  {
    ElseFiLines();
    hide Opens, Closes;
    assert (["else"] + rest)[1..] == rest;
  }

  lemma {:induction false} ArmOverTail(t: Tail)
    requires WellFormedTail(t)
    ensures StopArmFrom(TailLines(t), 1, None) ==
              (var arm := ElseArm(t); if arm.None? then None else Some(TopLines(arm.value)))
    decreases t
  {
    hide StmtLines, WellFormedStmt, TopLines, Lines, StopArmFrom, CondOk, CondText, ElifLine, Opens, Closes;
    match t {
      case Fi =>
        FiEnds(None);
      case Else(arm) =>
        assert TailLines(t) == ["else"] + (Lines(arm) + ["fi"]);
        ElseStarts(Lines(arm) + ["fi"]);
        ArmOverProgram(arm, ["fi"], Some([]));
        assert [] + TopLines(arm) == TopLines(arm);
        FiEnds(Some(TopLines(arm)));
      case Elif(cond, body, tail) =>
        KeywordLines(cond);
        assert TailLines(t) == [ElifLine(cond)] + (Lines(body) + TailLines(tail));
        ArmOverLine(ElifLine(cond), Lines(body) + TailLines(tail), None);
        ArmOverProgram(body, TailLines(tail), None);
        ArmOverTail(tail);
    }
  }

  lemma FiEnds(arm: Option<seq<string>>)
    ensures StopArmFrom(["fi"], 1, arm) == arm
  {
    var none: seq<string> := ["fi"][1..];
    assert none == [];
  }

  /** The scanner returns the outer else arm (its top-level lines), or None when there is none. */
  lemma StopArmIsElseArm(cond: Cond, body: Stmts, tail: Tail)
    requires WellFormed(body) && WellFormedTail(tail)
    ensures StopArmFrom(StmtLines(If(cond, body, tail)), 0, None) ==
              (var arm := ElseArm(tail); if arm.None? then None else Some(TopLines(arm.value)))
  {
    var open := IfLine(cond);
    KeywordLines(cond);
    assert StmtLines(If(cond, body, tail)) == [open] + (Lines(body) + TailLines(tail));
    assert StmtLines(If(cond, body, tail))[1..] == Lines(body) + TailLines(tail);
    ArmOverProgram(body, TailLines(tail), None);
    ArmOverTail(tail);
  }

  // ---------------------------------------------------------------- soundness

  /** A stop line that the scanner keeps for a statement is one the statement does not get over. */
  lemma HeadStops(st: Stmt, code: string, s: Shell, env: Env)
    requires WellFormedStmt(st) && code in (if st.If? then ["fi"] else StmtLines(st)) && StopLine(code)
    ensures !RunStmt(st, s, env).FellThrough?
  {
    if !st.If? {
      SimpleLines(st);
    }
  }

  lemma {:induction false} TopExitStops(p: Stmts, code: string, s: Shell, env: Env)
    requires WellFormed(p) && code in TopLines(p) && StopLine(code)
    ensures !Run(p, s, env).FellThrough?
  {
    hide StopLine, StmtLines, WellFormedStmt, RunStmt;
    var head := if p.head.If? then ["fi"] else StmtLines(p.head);
    assert TopLines(p) == head + TopLines(p.rest);
    if code in head {
      HeadStops(p.head, code, s, env);
    } else if RunStmt(p.head, s, env).FellThrough? {
      TopExitStops(p.rest, code, RunStmt(p.head, s, env).shell, env);
    }
  }

  /** All conditions of the outer if, as they are met, come out false. */
  predicate OuterFalse(cond: Cond, t: Tail, s: Shell, env: Env)
    decreases t
  {
    !env.eval(cond, s) && (t.Elif? ==> OuterFalse(t.cond, t.tail, Tick(s), env))
  }

  lemma {:induction false} OuterFalseRunsElse(cond: Cond, body: Stmts, t: Tail, s: Shell, env: Env)
    requires OuterFalse(cond, t, s, env) && ElseArm(t).Some?
    ensures exists s': Shell :: s'.vars == s.vars && RunStmt(If(cond, body, t), s, env) == Run(ElseArm(t).value, s', env)
    decreases t
  {
    if t.Elif? {
      OuterFalseRunsElse(t.cond, t.body, t.tail, Tick(s), env);
      assert RunStmt(If(cond, body, t), s, env) == RunStmt(If(t.cond, t.body, t.tail), Tick(s), env);
    } else {
      assert RunStmt(If(cond, body, t), s, env) == Run(ElseArm(t).value, Tick(s), env);
    }
  }

  /** If the lint accepts the block, running it with all its outer conditions false runs the else
      arm and never gets to the end of it, whatever the nested conditions say: it exits, or bash
      abandons it on the way. */
  lemma AcceptedBlockStops(cond: Cond, body: Stmts, tail: Tail, s: Shell, env: Env)
    requires WellFormedStmt(If(cond, body, tail)) && Accepts(StmtLines(If(cond, body, tail)))
    requires OuterFalse(cond, tail, s, env)
    ensures ElseArm(tail).Some? && !RunStmt(If(cond, body, tail), s, env).FellThrough?
    ensures exists s': Shell :: s'.vars == s.vars && RunStmt(If(cond, body, tail), s, env) == Run(ElseArm(tail).value, s', env)
  {
    StopArmIsElseArm(cond, body, tail);
    OuterFalseRunsElse(cond, body, tail, s, env);
    ElseArmWellFormed(tail);
    var s': Shell :| s'.vars == s.vars && RunStmt(If(cond, body, tail), s, env) == Run(ElseArm(tail).value, s', env);
    var code :| code in TopLines(ElseArm(tail).value) && StopLine(code);
    TopExitStops(ElseArm(tail).value, code, s', env);
  }

  lemma {:induction false} ElseArmWellFormed(t: Tail)
    requires WellFormedTail(t) && ElseArm(t).Some?
    ensures WellFormed(ElseArm(t).value)
    decreases t
  {
    if t.Elif? {
      ElseArmWellFormed(t.tail);
    }
  }

  // ---------------------------------------------------------------- only the two probed refs

  const REMOTE_VALUE: string := "\"$BASE_REMOTE\""
  const LOCAL_VALUE: string := "\"$BASE_LOCAL\""

  predicate OnlyAllowed(lines: seq<string>) {
    forall code | code in lines && "BASE_REF=" <= code :: code == ALLOWED_REMOTE || code == ALLOWED_LOCAL
  }

  /** "$name". */
  function Taking(name: string): Rhs {
    Word([Quoted([Var(name)])])
  }

  /** Every assignment to BASE_REF, at any depth, takes one of the two. */
  predicate OnlyProbed(p: Stmts)
    decreases p
  {
    p.Cons? ==> StmtOnlyProbed(p.head) && OnlyProbed(p.rest)
  }

  predicate StmtOnlyProbed(st: Stmt)
    decreases st
  {
    match st
    case Assign(name, value) => name == "BASE_REF" ==> value == Taking("BASE_REMOTE") || value == Taking("BASE_LOCAL")
    case If(_, body, tail) => OnlyProbed(body) && TailOnlyProbed(tail)
    case _ => true
  }

  predicate TailOnlyProbed(t: Tail)
    decreases t
  {
    match t
    case Fi => true
    case Else(arm) => OnlyProbed(arm)
    case Elif(_, body, tail) => OnlyProbed(body) && TailOnlyProbed(tail)
  }

  lemma OnlyAllowedAppend(a: seq<string>, b: seq<string>)
    ensures OnlyAllowed(a + b) <==> OnlyAllowed(a) && OnlyAllowed(b)
  {
    assert forall code | code in a || code in b :: code in a + b;
  }

  lemma OtherLine(code: string)
    requires !("BASE_REF=" <= code)
    ensures OnlyAllowed([code])
  {
  }

  // Only one word has the text "$name".

  lemma PartFirst(p: Part)
    requires QuotedOk(p)
    ensures PartText(p) != "" && (p.Plain? <==> PartText(p)[0] != '$') && '"' !in PartText(p)
  {
    assert p.Plain? ==> QuotedChar(p.text[0]);
  }

  lemma {:induction false} PartsUnquoted(parts: seq<Part>)
    requires forall i | 0 <= i < |parts| :: QuotedOk(parts[i])
    ensures '"' !in PartsText(parts) && (parts != [] ==> PartsText(parts) != "")
  {
    hide QuotedOk;
    if parts != [] {
      PartFirst(parts[0]);
      PartsUnquoted(parts[1..]);
    }
  }

  /** A text that starts with a dollar and a letter starts with $name. */
  lemma VarFirst(parts: seq<Part>, c: char)
    requires PartsOk(parts) && |PartsText(parts)| > 1 && PartsText(parts)[0] == '$' && PartsText(parts)[1] == c && NameChar(c)
    ensures parts != [] && parts[0].Var?
  {
    PartFirst(parts[0]);
    var text := PartText(parts[0]);
    assert PartsText(parts)[0] == text[0];
    assert |text| > 1 ==> PartsText(parts)[1] == text[1];
  }

  lemma QuotedReference(parts: seq<Part>, name: string)
    requires PartsOk(parts) && PartsText(parts) == "$" + name && Identifier(name)
    ensures parts == [Var(name)]
  {
    VarFirst(parts, name[0]);
    var first, rest := parts[0], parts[1..];
    AfterDollar(first.name, PartsText(rest), name);
    hide Identifier, QuotedOk, Apart, PartText;
    if rest != [] {
      assert QuotedOk(rest[0]) && Apart(first, rest[0]);
      NotLonger(first, rest, name);
      assert false;
    }
    assert PartsText(rest) == "" && first.name + "" == first.name;
  }

  lemma AfterDollar(a: string, b: string, name: string)
    requires ("$" + a) + b == "$" + name
    ensures name == a + b
  {
    assert ("$" + name)[1..] == name && (("$" + a) + b)[1..] == a + b;
  }

  lemma NotLonger(first: Part, rest: seq<Part>, name: string)
    requires first.Var? && rest != [] && QuotedOk(rest[0]) && Apart(first, rest[0]) && Identifier(name)
    ensures name != first.name + PartsText(rest)
  {
    PartFirst(rest[0]);
    var whole := first.name + PartsText(rest);
    assert whole[|first.name|] == PartsText(rest)[0] == PartText(rest[0])[0];
    assert !NameChar(whole[|first.name|]);
  }

  lemma PieceFirst(piece: Piece, blanks: bool)
    requires PieceOk(piece, blanks)
    ensures PieceText(piece) != "" && (piece.Quoted? <==> PieceText(piece)[0] == '"')
  {
    assert piece.Bare? && piece.part.Plain? ==> PlainBare(piece.part.text, blanks) && piece.part.text[0] != '"';
  }

  lemma QuotesAt(b: string, i: nat)
    requires '"' !in b && 1 <= i < |b| + 2
    ensures ("\"" + b + "\"")[i] == '"' <==> i == |b| + 1
  {
  }

  lemma SameQuoted(a: string, rest: string, b: string)
    requires '"' !in a && '"' !in b && ("\"" + a + "\"") + rest == "\"" + b + "\""
    ensures a == b && rest == ""
  {
    var t := ("\"" + a + "\"") + rest;
    assert t[1 + |a|] == '"';
    QuotesAt(b, 1 + |a|);
    assert a == t[1..1 + |a|] && b == ("\"" + b + "\"")[1..1 + |b|];
  }

  lemma WordReference(ws: Words, name: string)
    requires OneWord(ws) && WordsText(ws) == "\"" + ("$" + name) + "\"" && Identifier(name)
    ensures ws == [Quoted([Var(name)])]
  {
    var text := "\"" + ("$" + name) + "\"";
    assert ws != [];
    PieceFirst(ws[0], false);
    assert text[0] == PieceText(ws[0])[0] == '"';
    var parts, rest := ws[0].parts, ws[1..];
    PartsUnquoted(parts);
    assert forall i | 0 <= i < |name| :: NameChar(name[i]) && name[i] != '"';
    SameQuoted(PartsText(parts), WordsText(rest), "$" + name);
    QuotedReference(parts, name);
    if rest != [] {
      PieceFirst(rest[0], false);
    }
  }

  lemma ReferenceText(name: string)
    ensures WordsText([Quoted([Var(name)])]) == "\"" + ("$" + name) + "\""
  {
    var ws, parts := [Quoted([Var(name)])], [Var(name)];
    assert ws[1..] == [] && parts[1..] == [];
    assert PartsText(parts) == PartText(parts[0]) + PartsText(parts[1..]) == "$" + name;
    assert WordsText(ws) == PieceText(ws[0]) + WordsText(ws[1..]);
  }

  lemma TakingText(value: Rhs, name: string)
    requires RhsOk(value) && Identifier(name)
    ensures RhsText("BASE_REF", value) == "\"" + ("$" + name) + "\"" <==> value == Taking(name)
  {
    hide Identifier, OneWord, WordsText;
    ReferenceText(name);
    match value {
      case Word(word) =>
        if WordsText(word) == "\"" + ("$" + name) + "\"" {
          WordReference(word, name);
        }
      case Output(_, _) =>
        assert RhsText("BASE_REF", value)[0] == '$';
    }
  }

  lemma TakingTexts(value: Rhs)
    requires RhsOk(value)
    ensures RhsText("BASE_REF", value) == REMOTE_VALUE <==> value == Taking("BASE_REMOTE")
    ensures RhsText("BASE_REF", value) == LOCAL_VALUE <==> value == Taking("BASE_LOCAL")
  {
    assert Identifier("BASE_REMOTE") && Identifier("BASE_LOCAL");
    assert "\"" + ("$" + "BASE_REMOTE") + "\"" == REMOTE_VALUE && "\"" + ("$" + "BASE_LOCAL") + "\"" == LOCAL_VALUE;
    hide RhsText, RhsOk, Identifier, REMOTE_VALUE, LOCAL_VALUE;
    TakingText(value, "BASE_REMOTE");
    TakingText(value, "BASE_LOCAL");
  }

  lemma BaseRefLine(name: string, text: string)
    requires Name(name)
    ensures OnlyAllowed([name + "=" + text]) <==> (name == "BASE_REF" ==> text == REMOTE_VALUE || text == LOCAL_VALUE)
  {
    var code := name + "=" + text;
    assert code[|name|] == '=' && "BASE_REF="[8] == '=';
    if name == "BASE_REF" {
      assert code == "BASE_REF=" + text && code in [code];
      assert "BASE_REF=" + REMOTE_VALUE == ALLOWED_REMOTE && "BASE_REF=" + LOCAL_VALUE == ALLOWED_LOCAL;
      if OnlyAllowed([code]) {
        AllowedValue(text);
      }
    } else {
      assert name == code[..|name|];
      OtherLine(code);
    }
  }

  lemma FirstLetter(code: string)
    requires code != "" && code[0] != 'B'
    ensures OnlyAllowed([code])
  {
    assert "BASE_REF="[0] == 'B';
  }

  /** What the lint reads off the beginnings of lines is a fact about the assignments. */
  lemma {:induction false} OnlyProbedLines(p: Stmts)
    requires WellFormed(p)
    ensures OnlyAllowed(Lines(p)) <==> OnlyProbed(p)
    decreases p
  {
    hide OnlyAllowed, WellFormedStmt, StmtLines, StmtOnlyProbed;
    if p.Cons? {
      OnlyProbedStmt(p.head);
      OnlyProbedLines(p.rest);
      OnlyAllowedAppend(StmtLines(p.head), Lines(p.rest));
    } else {
      OnlyAllowedNone();
    }
  }

  lemma OnlyAllowedNone()
    ensures OnlyAllowed([])
  {
  }

  lemma {:induction false} OnlyProbedStmt(st: Stmt)
    requires WellFormedStmt(st)
    ensures OnlyAllowed(StmtLines(st)) <==> StmtOnlyProbed(st)
    decreases st
  {
    hide OnlyAllowed, Lines, TailLines, IfLine, RhsText, WordsText, OnlyProbed, TailOnlyProbed;
    match st {
      case Assign(name, value) =>
        BaseRefLine(name, RhsText(name, value));
        TakingTexts(value);
      case Command(program, args) =>
        assert (program + " " + WordsText(args))[0] == program[0];
        FirstLetter(program + " " + WordsText(args));
      case Exit(code) => FirstLetter("exit " + code);
      case If(cond, body, tail) =>
        OnlyProbedLines(body);
        OnlyProbedTail(tail);
        IfFirst(cond);
        FirstLetter(IfLine(cond));
        OnlyAllowedAppend([IfLine(cond)], Lines(body));
        OnlyAllowedAppend([IfLine(cond)] + Lines(body), TailLines(tail));
    }
  }

  lemma IfFirst(cond: Cond)
    ensures IfLine(cond) != "" && ElifLine(cond) != "" && IfLine(cond)[0] == 'i' && ElifLine(cond)[0] == 'e'
  {
    hide CondText;
  }

  lemma {:induction false} OnlyProbedTail(t: Tail)
    requires WellFormedTail(t)
    ensures OnlyAllowed(TailLines(t)) <==> TailOnlyProbed(t)
    decreases t
  {
    hide OnlyAllowed, Lines, ElifLine, OnlyProbed;
    FirstLetter("fi");
    match t {
      case Fi =>
      case Else(arm) =>
        OnlyProbedLines(arm);
        FirstLetter("else");
        OnlyAllowedAppend(["else"], Lines(arm));
        OnlyAllowedAppend(["else"] + Lines(arm), ["fi"]);
      case Elif(cond, body, tail) =>
        OnlyProbedLines(body);
        OnlyProbedTail(tail);
        IfFirst(cond);
        FirstLetter(ElifLine(cond));
        OnlyAllowedAppend([ElifLine(cond)], Lines(body));
        OnlyAllowedAppend([ElifLine(cond)] + Lines(body), TailLines(tail));
    }
  }

  lemma AllowedValue(value: string)
    requires "BASE_REF=" + value == ALLOWED_REMOTE || "BASE_REF=" + value == ALLOWED_LOCAL
    ensures value == REMOTE_VALUE || value == LOCAL_VALUE
  {
    assert ("BASE_REF=" + value)[9..] == value;
    assert ALLOWED_REMOTE[9..] == REMOTE_VALUE && ALLOWED_LOCAL[9..] == LOCAL_VALUE;
  }
}
