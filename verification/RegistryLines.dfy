/** Lines of registry.toml as the release tooling reads them: headers, fields, and the blocks
    they delimit.

    Source: scripts/registry_release.py. */
module RegistryLines {
  import opened Wrappers

  type Header = string -> bool

  // ---------------------------------------------------------------- text and lines

  /** The end of the first line, newline included. */
  function LineEnd(text: string): (k: nat)
    ensures k <= |text| && (text != "" ==> 0 < k)
    ensures '\n' !in text[..k] || (text[k - 1] == '\n' && '\n' !in text[..k - 1])
    ensures k < |text| ==> text[k - 1] == '\n'
  {
    if text == "" then 0 else if text[0] == '\n' then 1 else 1 + LineEnd(text[1..])
  }

  /** `splitlines(keepends=True)`. */
  function SplitLines(text: string): seq<string> {
    if text == "" then [] else [text[..LineEnd(text)]] + SplitLines(text[LineEnd(text)..])
  }

  function JoinLines(lines: seq<string>): string {
    if lines == [] then "" else lines[0] + JoinLines(lines[1..])
  }

  predicate Terminated(line: string) {
    line != "" && line[|line| - 1] == '\n'
  }

  predicate IsLine(line: string) {
    line != "" && '\n' !in line[..|line| - 1]
  }

  /** Lines as they come out of a text: only the last one may lack its newline. */
  predicate WellCut(lines: seq<string>) {
    (forall i | 0 <= i < |lines| :: IsLine(lines[i])) &&
    (forall i | 0 <= i < |lines| - 1 :: Terminated(lines[i]))
  }

  lemma JoinFirst(first: string, rest: seq<string>)
    ensures JoinLines([first] + rest) == first + JoinLines(rest)
    ensures WellCut(rest) && IsLine(first) && (rest != [] ==> Terminated(first)) ==> WellCut([first] + rest)
  {
    assert ([first] + rest)[1..] == rest;
    hide IsLine, Terminated;
  }

  lemma {:induction false} SplitJoin(text: string)
    ensures JoinLines(SplitLines(text)) == text && WellCut(SplitLines(text))
  {
    if text != "" {
      var k := LineEnd(text);
      SplitJoin(text[k..]);
      FirstLine(text, k);
      var first, rest := text[..k], SplitLines(text[k..]);
      assert SplitLines(text) == [first] + rest;
      hide SplitLines, LineEnd, IsLine, Terminated, WellCut, JoinLines;
      JoinFirst(first, rest);
      assert text == first + text[k..];
    }
  }

  lemma FirstLine(text: string, k: nat)
    requires text != "" && k == LineEnd(text)
    ensures 0 < k <= |text| && IsLine(text[..k]) && (SplitLines(text[k..]) != [] ==> Terminated(text[..k]))
  {
    assert text[..k][..k - 1] == text[..k - 1];
  }

  lemma {:induction false} LineEndIs(line: string, rest: string)
    requires IsLine(line) && (rest == "" || Terminated(line))
    ensures LineEnd(line + rest) == |line|
    decreases |line|
  {
    if |line| == 1 {
      assert (line + rest)[1..] == rest;
    } else {
      assert line[..|line| - 1][0] != '\n';
      assert (line + rest)[1..] == line[1..] + rest;
      assert line[1..][..|line| - 2] == line[..|line| - 1][1..];
      LineEndIs(line[1..], rest);
    }
  }

  lemma {:induction false} JoinSplits(lines: seq<string>)
    requires WellCut(lines)
    ensures SplitLines(JoinLines(lines)) == lines
  {
    if lines != [] {
      assert IsLine(lines[0]);
      JoinSplits(lines[1..]);
      var rest := JoinLines(lines[1..]);
      assert |lines| == 1 ==> lines[1..] == [];
      LineEndIs(lines[0], rest);
      assert (lines[0] + rest)[..|lines[0]|] == lines[0] && (lines[0] + rest)[|lines[0]|..] == rest;
    }
  }

  /** Lines written out and read again are the same exactly when only the last lacks its newline. */
  lemma ReadsBack(lines: seq<string>)
    ensures SplitLines(JoinLines(lines)) == lines <==> WellCut(lines)
  {
    SplitJoin(JoinLines(lines));
    if WellCut(lines) {
      JoinSplits(lines);
    }
  }

  // ---------------------------------------------------------------- one line

  predicate IsSpace(c: char) {
    c == ' ' || '\t' <= c <= '\r'
  }

  predicate IsWord(c: char) {
    'A' <= c <= 'Z' || 'a' <= c <= 'z' || c == '_'
  }

  function SkipSpace(s: string): string {
    if s != "" && IsSpace(s[0]) then SkipSpace(s[1..]) else s
  }

  function TakeWord(s: string): string {
    if s != "" && IsWord(s[0]) then [s[0]] + TakeWord(s[1..]) else ""
  }

  predicate Blank(s: string) {
    forall c | c in s :: IsSpace(c)
  }

  /** PACK_HEADER_RE. */
  predicate PackHeader(line: string) {
    "[[pack]]" <= line && Blank(line[8..])
  }

  /** RELEASE_HEADER_RE. */
  predicate ReleaseHeader(line: string) {
    var s := SkipSpace(line);
    "[[pack.release]]" <= s && Blank(s[16..])
  }

  /** FIELD_RE: the key of a `key =` line. */
  function FieldKey(line: string): Option<string> {
    var s := SkipSpace(line);
    var word := TakeWord(s);
    if word == "" || !(word <= s) then None
    else
      var rest := SkipSpace(s[|word|..]);
      if rest != "" && rest[0] == '=' then Some(word) else None
  }

  function UpToQuote(s: string): Option<string> {
    if s == "" then None
    else if s[0] == '"' then Some("")
    else
      var rest := UpToQuote(s[1..]);
      if rest.Some? then Some([s[0]] + rest.value) else None
  }

  /** The pattern of `field_value`: the quoted value of a `key = "value"` line. */
  function QuotedValue(line: string, key: string): Option<string> {
    var s := SkipSpace(line);
    if !(key <= s) then None
    else
      var rest := SkipSpace(s[|key|..]);
      if rest == "" || rest[0] != '=' then None
      else
        var value := SkipSpace(rest[1..]);
        if value == "" || value[0] != '"' then None else UpToQuote(value[1..])
  }

  predicate Word(s: string) {
    s != "" && forall c | c in s :: IsWord(c)
  }

  lemma {:induction false} TakeWordOf(word: string, rest: string)
    requires (forall c | c in word :: IsWord(c)) && (rest == "" || !IsWord(rest[0]))
    ensures TakeWord(word + rest) == word
  {
    if word == "" {
      assert word + rest == rest;
    } else {
      assert word[0] in word && (word + rest)[1..] == word[1..] + rest;
      assert word == [word[0]] + word[1..];
      TakeWordOf(word[1..], rest);
    }
  }

  /** A line with a quoted value for `key` is a field line of that key. */
  lemma QuotedIsField(line: string, key: string)
    requires Word(key) && QuotedValue(line, key).Some?
    ensures FieldKey(line) == Some(key)
  {
    var s := SkipSpace(line);
    var rest := s[|key|..];
    assert s == key + rest;
    assert rest != "" && (IsSpace(rest[0]) || rest[0] == '=');
    TakeWordOf(key, rest);
  }

  /** A field line is no header. */
  lemma FieldIsNoHeader(line: string)
    requires FieldKey(line).Some?
    ensures !PackHeader(line) && !ReleaseHeader(line)
  {
    var s := SkipSpace(line);
    assert IsWord(s[0]);
    assert line != "" && line[0] == '[' ==> s == line;
  }

  /** The line the tooling writes for a field. */
  function FieldLine(key: string, value: string): string {
    "  " + key + " = " + value + "\n"
  }

  lemma FieldLineReads(key: string, value: string)
    requires Word(key)
    ensures FieldKey(FieldLine(key, value)) == Some(key)
  {
    var line := FieldLine(key, value);
    var tail := " = " + value + "\n";
    assert key[0] in key;
    assert line[0] == ' ' && line[1..][0] == ' ' && line[1..][1..] == key + tail;
    assert SkipSpace(line) == SkipSpace(line[1..]) == SkipSpace(key + tail) == key + tail;
    TakeWordOf(key, tail);
    assert (key + tail)[|key|..] == tail && tail[1..][0] == '=';
    assert SkipSpace(tail) == tail[1..];
  }

  // ---------------------------------------------------------------- fields of a run of lines

  /** What `field_value` returns: the first quoted value for `key`. */
  function FieldValue(lines: seq<string>, key: string): Option<string> {
    if lines == [] then None
    else if QuotedValue(lines[0], key).Some? then QuotedValue(lines[0], key)
    else FieldValue(lines[1..], key)
  }

  method ReadField(lines: seq<string>, key: string) returns (r: Option<string>)
    ensures r == FieldValue(lines, key)
  {
    for i := 0 to |lines|
      invariant FieldValue(lines, key) == FieldValue(lines[i..], key)
    {
      if QuotedValue(lines[i], key).Some? {
        return QuotedValue(lines[i], key);
      }
    }
    return None;
  }

  lemma {:induction false} FieldValueOfConcat(a: seq<string>, b: seq<string>, key: string)
    ensures FieldValue(a + b, key) ==
            (if FieldValue(a, key).Some? then FieldValue(a, key) else FieldValue(b, key))
  {
    if a == [] {
      assert a + b == b;
    } else {
      assert (a + b)[1..] == a[1..] + b;
      FieldValueOfConcat(a[1..], b, key);
    }
  }

  /** Changing lines that hold no value for `key` does not change what is read for it. */
  lemma FieldValueAround(a: seq<string>, x: seq<string>, y: seq<string>, b: seq<string>, key: string)
    requires FieldValue(x, key) == FieldValue(y, key)
    ensures FieldValue(a + x + b, key) == FieldValue(a + y + b, key)
  {
    FieldValueOfConcat(a + x, b, key);
    FieldValueOfConcat(a, x, key);
    FieldValueOfConcat(a + y, b, key);
    FieldValueOfConcat(a, y, key);
  }

  // ---------------------------------------------------------------- sections

  /** Within lines[lo..hi], a section runs from a header up to the next header or the end. */
  predicate Section(h: Header, lines: seq<string>, lo: nat, hi: nat, s: nat, e: nat) {
    lo <= s < e <= hi <= |lines| && h(lines[s]) &&
    (forall k | s < k < e :: !h(lines[k])) && (e == hi || h(lines[e]))
  }

  /** (s, e) is the first section whose `key` reads as `wanted`. */
  ghost predicate Found(h: Header, lines: seq<string>, lo: nat, hi: nat, key: string, wanted: string, s: nat, e: nat) {
    Section(h, lines, lo, hi, s, e) && FieldValue(lines[s..e], key) == Some(wanted) &&
    forall s': nat, e': nat | Section(h, lines, lo, hi, s', e') && s' < s :: FieldValue(lines[s'..e'], key) != Some(wanted)
  }

  ghost predicate Absent(h: Header, lines: seq<string>, lo: nat, hi: nat, key: string, wanted: string) {
    forall s: nat, e: nat | Section(h, lines, lo, hi, s, e) :: FieldValue(lines[s..e], key) != Some(wanted)
  }

  lemma FoundIsNotAbsent(h: Header, lines: seq<string>, lo: nat, hi: nat, key: string, wanted: string, s: nat, e: nat)
    requires Found(h, lines, lo, hi, key, wanted, s, e)
    ensures !Absent(h, lines, lo, hi, key, wanted)
  {
  }

  /** `find_pack` and `find_release`: collect the header positions, then read each section. */
  method FindSection(h: Header, lines: seq<string>, lo: nat, hi: nat, key: string, wanted: string)
    returns (r: Option<(nat, nat)>)
    requires lo <= hi <= |lines|
    ensures r.Some? ==> lo <= r.value.0 < r.value.1 <= hi && Found(h, lines, lo, hi, key, wanted, r.value.0, r.value.1)
    ensures r.None? ==> Absent(h, lines, lo, hi, key, wanted)
  {
    var starts: seq<nat> := [];
    for i := lo to hi
      invariant forall k | 0 <= k < |starts| :: lo <= starts[k] < i && h(lines[starts[k]])
      invariant forall k, m | 0 <= k < m < |starts| :: starts[k] < starts[m]
      invariant forall i' | lo <= i' < i && h(lines[i']) :: i' in starts
    {
      if h(lines[i]) {
        starts := starts + [i];
      }
    }
    assert Starts(h, lines, lo, hi, starts);
    hide Starts;
    for k := 0 to |starts|
      invariant forall m | 0 <= m < k :: Reads(h, lines, lo, hi, starts, m, key) != Some(wanted)
    {
      SectionFrom(h, lines, lo, hi, starts, k);
      var end := if k + 1 < |starts| then starts[k + 1] else hi;
      var value := ReadField(lines[starts[k]..end], key);
      if value == Some(wanted) {
        FirstReading(h, lines, lo, hi, starts, k, key, wanted);
        return Some((starts[k], end));
      }
    }
    NoReading(h, lines, lo, hi, starts, key, wanted);
    return None;
  }

  /** The positions of all headers in lines[lo..hi], in order. */
  ghost predicate Starts(h: Header, lines: seq<string>, lo: nat, hi: nat, starts: seq<nat>) {
    lo <= hi <= |lines| &&
    (forall k | 0 <= k < |starts| :: lo <= starts[k] < hi && h(lines[starts[k]])) &&
    (forall k, m | 0 <= k < m < |starts| :: starts[k] < starts[m]) &&
    (forall i | lo <= i < hi && h(lines[i]) :: i in starts)
  }

  /** What the k-th section reads for `key`. */
  ghost function Reads(h: Header, lines: seq<string>, lo: nat, hi: nat, starts: seq<nat>, k: nat, key: string): Option<string>
    requires Starts(h, lines, lo, hi, starts) && k < |starts|
  {
    FieldValue(lines[starts[k]..if k + 1 < |starts| then starts[k + 1] else hi], key)
  }

  /** The section that starts at the k-th header ends at the next one, and nowhere else. */
  lemma SectionFrom(h: Header, lines: seq<string>, lo: nat, hi: nat, starts: seq<nat>, k: nat)
    requires Starts(h, lines, lo, hi, starts) && k < |starts|
    ensures var end := if k + 1 < |starts| then starts[k + 1] else hi;
            && lo <= starts[k] < end <= hi <= |lines|
            && forall e: nat :: Section(h, lines, lo, hi, starts[k], e) <==> e == end
  {
    var end := if k + 1 < |starts| then starts[k + 1] else hi;
    forall j | starts[k] < j < end
      ensures !h(lines[j])
    {
      if h(lines[j]) {
        var m :| 0 <= m < |starts| && starts[m] == j;
        assert false;
      }
    }
  }

  lemma SectionIndex(h: Header, lines: seq<string>, lo: nat, hi: nat, starts: seq<nat>, s: nat, e: nat, key: string) returns (m: nat)
    requires Starts(h, lines, lo, hi, starts) && Section(h, lines, lo, hi, s, e)
    ensures m < |starts| && starts[m] == s && FieldValue(lines[s..e], key) == Reads(h, lines, lo, hi, starts, m, key)
  {
    m :| 0 <= m < |starts| && starts[m] == s;
    SectionFrom(h, lines, lo, hi, starts, m);
  }

  lemma NoReading(h: Header, lines: seq<string>, lo: nat, hi: nat, starts: seq<nat>, key: string, wanted: string)
    requires Starts(h, lines, lo, hi, starts)
    requires forall m | 0 <= m < |starts| :: Reads(h, lines, lo, hi, starts, m, key) != Some(wanted)
    ensures Absent(h, lines, lo, hi, key, wanted)
  {
    forall s: nat, e: nat | Section(h, lines, lo, hi, s, e)
      ensures FieldValue(lines[s..e], key) != Some(wanted)
    {
      var m := SectionIndex(h, lines, lo, hi, starts, s, e, key);
    }
  }

  lemma FirstReading(h: Header, lines: seq<string>, lo: nat, hi: nat, starts: seq<nat>, k: nat, key: string, wanted: string)
    requires Starts(h, lines, lo, hi, starts) && k < |starts|
    requires Reads(h, lines, lo, hi, starts, k, key) == Some(wanted)
    requires forall m | 0 <= m < k :: Reads(h, lines, lo, hi, starts, m, key) != Some(wanted)
    ensures Found(h, lines, lo, hi, key, wanted, starts[k], if k + 1 < |starts| then starts[k + 1] else hi)
  {
    SectionFrom(h, lines, lo, hi, starts, k);
    forall s: nat, e: nat | Section(h, lines, lo, hi, s, e) && s < starts[k]
      ensures FieldValue(lines[s..e], key) != Some(wanted)
    {
      var m := SectionIndex(h, lines, lo, hi, starts, s, e, key);
      assert m < k;
    }
  }

  // ---------------------------------------------------------------- replacing lines inside a section

  /** The two runs of lines have the same header structure: at most their first lines are headers. */
  predicate SameShape(h: Header, x: seq<string>, y: seq<string>) {
    x != [] && y != [] && h(x[0]) == h(y[0]) &&
    (forall k | 0 < k < |x| :: !h(x[k])) && (forall k | 0 < k < |y| :: !h(y[k]))
  }

  function Spliced(lines: seq<string>, a: nat, b: nat, y: seq<string>): seq<string>
    requires a <= b <= |lines|
  {
    lines[..a] + y + lines[b..]
  }

  /** Where position k goes when lines[a..b] is replaced by n lines. */
  function Moved(a: nat, b: nat, n: nat, k: nat): nat
    requires a <= b
  {
    if k < b then k else k - b + a + n
  }

  lemma SplicedAt(lines: seq<string>, a: nat, b: nat, y: seq<string>)
    requires a <= b <= |lines|
    ensures var out := Spliced(lines, a, b, y);
            && |out| == |lines| - (b - a) + |y|
            && (forall k | 0 <= k < a :: out[k] == lines[k])
            && (forall k | 0 <= k < |y| :: out[a + k] == y[k])
            && (forall k | b <= k < |lines| :: out[Moved(a, b, |y|, k)] == lines[k])
  {
  }

  lemma SectionBefore(h: Header, lines: seq<string>, lo: nat, hi: nat, a: nat, b: nat, y: seq<string>, s: nat, e: nat)
    requires lo <= a < b <= hi <= |lines| && SameShape(h, lines[a..b], y)
    requires Section(h, lines, lo, hi, s, e) && e <= a
    ensures var out := Spliced(lines, a, b, y);
            Section(h, out, lo, Moved(a, b, |y|, hi), s, e) && out[s..e] == lines[s..e]
  {
    SplicedAt(lines, a, b, y);
    var out := Spliced(lines, a, b, y);
    assert e == a ==> out[a + 0] == y[0] && lines[a..b][0] == lines[a];
    assert out[s..e] == lines[s..e];
  }

  lemma Middle(front: seq<string>, mid: seq<string>, back: seq<string>)
    ensures (front + mid + back)[|front|..|front| + |mid|] == mid
  {
  }

  lemma SplicedAfter(lines: seq<string>, a: nat, b: nat, y: seq<string>, s: nat, e: nat)
    requires a <= b <= s <= e <= |lines|
    ensures e - b + a + |y| <= |Spliced(lines, a, b, y)|
    ensures Spliced(lines, a, b, y)[s - b + a + |y|..e - b + a + |y|] == lines[s..e]
  {
    assert lines[b..] == lines[b..s] + lines[s..e] + lines[e..];
    var front := lines[..a] + y + lines[b..s];
    assert Spliced(lines, a, b, y) == front + lines[s..e] + lines[e..];
    Middle(front, lines[s..e], lines[e..]);
  }

  lemma SectionAfter(h: Header, lines: seq<string>, lo: nat, hi: nat, a: nat, b: nat, y: seq<string>, s: nat, e: nat)
    requires lo <= a < b <= hi <= |lines| && SameShape(h, lines[a..b], y)
    requires Section(h, lines, lo, hi, s, e) && b <= s
    ensures var out, n := Spliced(lines, a, b, y), |y|;
            var s', e' := Moved(a, b, n, s), Moved(a, b, n, e);
            Section(h, out, lo, Moved(a, b, n, hi), s', e') && out[s'..e'] == lines[s..e]
  {
    hide Spliced, SameShape;
    SplicedAt(lines, a, b, y);
    var out, shift := Spliced(lines, a, b, y), a + |y| - b;
    assert forall k | b <= k < |lines| :: out[k + shift] == lines[k] by {
      assert forall k: nat | b <= k :: Moved(a, b, |y|, k) == k + shift;
    }
    hide Moved;
    var s', e' := s + shift, e + shift;
    forall k | s' < k < e'
      ensures !h(out[k])
    {
      assert out[(k - shift) + shift] == lines[k - shift];
    }
    SplicedAfter(lines, a, b, y, s, e);
  }

  lemma SplicedInside(lines: seq<string>, a: nat, b: nat, y: seq<string>, s: nat, e: nat)
    requires s <= a <= b <= e <= |lines|
    ensures e - (b - a) + |y| <= |Spliced(lines, a, b, y)|
    ensures Spliced(lines, a, b, y)[s..e - (b - a) + |y|] == Spliced(lines[s..e], a - s, b - s, y)
  {
    var mid := lines[s..a] + y + lines[b..e];
    assert lines[s..e][..a - s] == lines[s..a] && lines[s..e][b - s..] == lines[b..e];
    assert lines[..a] == lines[..s] + lines[s..a] && lines[b..] == lines[b..e] + lines[e..];
    assert Spliced(lines, a, b, y) == lines[..s] + mid + lines[e..];
    Middle(lines[..s], mid, lines[e..]);
  }

  lemma SectionAround(h: Header, lines: seq<string>, lo: nat, hi: nat, a: nat, b: nat, y: seq<string>, s: nat, e: nat)
    requires lo <= a < b <= hi <= |lines| && SameShape(h, lines[a..b], y)
    requires Section(h, lines, lo, hi, s, e) && s <= a && b <= e
    ensures var out, e' := Spliced(lines, a, b, y), Moved(a, b, |y|, e);
            Section(h, out, lo, Moved(a, b, |y|, hi), s, e') &&
            out[s..e'] == Spliced(lines[s..e], a - s, b - s, y)
  {
    SplicedAt(lines, a, b, y);
    SplicedInside(lines, a, b, y, s, e);
    hide Spliced;
    var out, n := Spliced(lines, a, b, y), |y|;
    var e' := Moved(a, b, n, e);
    assert lines[a..b][0] == lines[a] && out[a + 0] == y[0];
    forall k | s < k < e'
      ensures !h(out[k])
    {
      if a <= k < a + n {
        assert out[a + (k - a)] == y[k - a];
      } else if a + n <= k {
        assert out[Moved(a, b, n, k - a - n + b)] == lines[k - a - n + b];
      }
    }
    assert e < hi ==> out[e'] == lines[e];
  }

  lemma SectionSplit(h: Header, lines: seq<string>, lo: nat, hi: nat, a: nat, b: nat, y: seq<string>, s: nat, e: nat)
    requires lo <= a < b <= hi <= |lines| && SameShape(h, lines[a..b], y)
    requires Section(h, lines, lo, hi, s, e)
    ensures e <= a || b <= s || (s <= a && b <= e)
  {
    assert forall k | a < k < b :: lines[a..b][k - a] == lines[k];
  }

  /** What becomes of a section when lines[a..b] is replaced: sections before and after are kept
      line for line, and the one around them only has those lines replaced. */
  function MovedLines(lines: seq<string>, a: nat, b: nat, y: seq<string>, s: nat, e: nat): seq<string>
    requires a <= b && s <= e <= |lines|
  {
    if s <= a && b <= e then Spliced(lines[s..e], a - s, b - s, y) else lines[s..e]
  }

  lemma SectionsMove(h: Header, lines: seq<string>, lo: nat, hi: nat, a: nat, b: nat, y: seq<string>, s: nat, e: nat)
    requires lo <= a < b <= hi <= |lines| && SameShape(h, lines[a..b], y)
    requires Section(h, lines, lo, hi, s, e)
    ensures var out, n := Spliced(lines, a, b, y), |y|;
            var s', e' := Moved(a, b, n, s), Moved(a, b, n, e);
            && Section(h, out, lo, Moved(a, b, n, hi), s', e')
            && out[s'..e'] == MovedLines(lines, a, b, y, s, e)
  {
    hide Spliced, SameShape, Section;
    SectionSplit(h, lines, lo, hi, a, b, y, s, e);
    if e <= a {
      SectionBefore(h, lines, lo, hi, a, b, y, s, e);
    } else if b <= s {
      SectionAfter(h, lines, lo, hi, a, b, y, s, e);
    } else {
      SectionAround(h, lines, lo, hi, a, b, y, s, e);
    }
  }

  // ---------------------------------------------------------------- searches after an edit

  lemma SpliceUndone(lines: seq<string>, a: nat, b: nat, y: seq<string>)
    requires a <= b <= |lines|
    ensures var out := Spliced(lines, a, b, y);
            && |out| == |lines| - (b - a) + |y|
            && out[..a] == lines[..a] && out[a..a + |y|] == y && out[a + |y|..] == lines[b..]
            && Spliced(out, a, a + |y|, lines[a..b]) == lines
  {
    var out := Spliced(lines, a, b, y);
    assert out[..a] == lines[..a] && out[a + |y|..] == lines[b..];
  }

  lemma MovedBack(a: nat, b: nat, n: nat, k: nat)
    requires a < b && 0 < n && (k <= a || b <= k)
    ensures Moved(a, a + n, b - a, Moved(a, b, n, k)) == k
  {
  }

  lemma MovedValue(lines: seq<string>, a: nat, b: nat, y: seq<string>, s: nat, e: nat, key: string)
    requires a <= b <= |lines| && s <= e <= |lines|
    requires FieldValue(lines[a..b], key) == FieldValue(y, key)
    ensures FieldValue(MovedLines(lines, a, b, y, s, e), key) == FieldValue(lines[s..e], key)
  {
    if s <= a && b <= e {
      var front, back := lines[s..e][..a - s], lines[s..e][b - s..];
      assert lines[s..e] == front + lines[a..b] + back;
      FieldValueAround(front, lines[a..b], y, back, key);
    }
  }

  /** An edit that keeps the headers and the values of `key` loses no section of that key. */
  lemma AbsentMoves(h: Header, lines: seq<string>, lo: nat, hi: nat, a: nat, b: nat, y: seq<string>, key: string, wanted: string)
    requires lo <= a < b <= hi <= |lines| && SameShape(h, lines[a..b], y)
    requires FieldValue(lines[a..b], key) == FieldValue(y, key)
    requires Absent(h, lines, lo, hi, key, wanted)
    ensures Absent(h, Spliced(lines, a, b, y), lo, Moved(a, b, |y|, hi), key, wanted)
  {
    var out := Spliced(lines, a, b, y);
    forall s: nat, e: nat | Section(h, out, lo, Moved(a, b, |y|, hi), s, e)
      ensures FieldValue(out[s..e], key) != Some(wanted)
    {
      var s', e' := EarlierSection(h, lines, lo, hi, a, b, y, key, s, e);
    }
  }

  /** Each section of the edited lines was a section before, with the same value of `key`. */
  lemma EarlierSection(h: Header, lines: seq<string>, lo: nat, hi: nat, a: nat, b: nat, y: seq<string>, key: string, s: nat, e: nat)
    returns (s': nat, e': nat)
    requires lo <= a < b <= hi <= |lines| && SameShape(h, lines[a..b], y)
    requires FieldValue(lines[a..b], key) == FieldValue(y, key)
    requires Section(h, Spliced(lines, a, b, y), lo, Moved(a, b, |y|, hi), s, e)
    ensures s' == Moved(a, a + |y|, b - a, s) && (s <= a || a + |y| <= s)
    ensures Section(h, lines, lo, hi, s', e')
    ensures FieldValue(lines[s'..e'], key) == FieldValue(Spliced(lines, a, b, y)[s..e], key)
  {
    hide Spliced, Section, MovedLines, FieldValue, SameShape;
    var out, c, x, hi' := Spliced(lines, a, b, y), a + |y|, lines[a..b], Moved(a, b, |y|, hi);
    SpliceUndone(lines, a, b, y);
    ShapeSymmetric(h, x, y);
    MovedBack(a, b, |y|, hi);
    hide Moved;
    s', e' := Moved(a, c, b - a, s), Moved(a, c, b - a, e);
    SectionBounds(h, out, lo, hi', s, e);
    SectionSplit(h, out, lo, hi', a, c, x, s, e);
    SectionsMove(h, out, lo, hi', a, c, x, s, e);
    MovedValue(out, a, c, x, s, e, key);
  }

  lemma ShapeSymmetric(h: Header, x: seq<string>, y: seq<string>)
    requires SameShape(h, x, y)
    ensures SameShape(h, y, x) && x != [] && y != []
  {
  }

  lemma SectionBounds(h: Header, lines: seq<string>, lo: nat, hi: nat, s: nat, e: nat)
    requires Section(h, lines, lo, hi, s, e)
    ensures lo <= s < e <= hi <= |lines|
  {
  }

  lemma FoundMoves(h: Header, lines: seq<string>, lo: nat, hi: nat, a: nat, b: nat, y: seq<string>, key: string, wanted: string,
                   s: nat, e: nat)
    requires lo <= a < b <= hi <= |lines| && SameShape(h, lines[a..b], y)
    requires FieldValue(lines[a..b], key) == FieldValue(y, key)
    requires Found(h, lines, lo, hi, key, wanted, s, e)
    ensures var out, n := Spliced(lines, a, b, y), |y|;
            var s', e' := Moved(a, b, n, s), Moved(a, b, n, e);
            && Found(h, out, lo, Moved(a, b, n, hi), key, wanted, s', e')
            && out[s'..e'] == MovedLines(lines, a, b, y, s, e)
  {
    hide Spliced, Section, MovedLines, FieldValue;
    var out, n := Spliced(lines, a, b, y), |y|;
    var s', e' := Moved(a, b, n, s), Moved(a, b, n, e);
    SectionBounds(h, lines, lo, hi, s, e);
    SectionSplit(h, lines, lo, hi, a, b, y, s, e);
    SectionsMove(h, lines, lo, hi, a, b, y, s, e);
    MovedValue(lines, a, b, y, s, e, key);
    forall u: nat, v: nat | Section(h, out, lo, Moved(a, b, n, hi), u, v) && u < s'
      ensures u <= v <= |out|
      ensures FieldValue(out[u..v], key) != Some(wanted)
    {
      SectionBounds(h, out, lo, Moved(a, b, n, hi), u, v);
      var u', v' := EarlierSection(h, lines, lo, hi, a, b, y, key, u, v);
    }
  }

  lemma FoundUnique(h: Header, lines: seq<string>, lo: nat, hi: nat, key: string, wanted: string, s: nat, e: nat, u: nat, v: nat)
    requires Found(h, lines, lo, hi, key, wanted, s, e) && Found(h, lines, lo, hi, key, wanted, u, v)
    ensures s == u && e == v
  {
    assert s == u;
    assert forall k | s < k < e || s < k < v :: !h(lines[k]);
  }

  /** The sections found for different names share no line. */
  lemma FoundApart(h: Header, lines: seq<string>, lo: nat, hi: nat, key: string, x: string, y: string,
                   s: nat, e: nat, u: nat, v: nat)
    requires Found(h, lines, lo, hi, key, x, s, e) && Found(h, lines, lo, hi, key, y, u, v) && x != y
    ensures e <= u || v <= s
  {
  }

  /** An edit inside the section found for one name leaves every other name's section, line for line. */
  lemma OtherFoundKept(h: Header, lines: seq<string>, lo: nat, hi: nat, a: nat, b: nat, y: seq<string>, key: string,
                       name: string, s: nat, e: nat, other: string, u: nat, v: nat)
    requires lo <= a < b <= hi <= |lines| && SameShape(h, lines[a..b], y)
    requires FieldValue(lines[a..b], key) == FieldValue(y, key)
    requires Found(h, lines, lo, hi, key, name, s, e) && s <= a && b <= e
    requires Found(h, lines, lo, hi, key, other, u, v) && other != name
    ensures var out, n := Spliced(lines, a, b, y), |y|;
            var u', v' := Moved(a, b, n, u), Moved(a, b, n, v);
            Found(h, out, lo, Moved(a, b, n, hi), key, other, u', v') && out[u'..v'] == lines[u..v]
  {
    hide SameShape, FieldValue, Spliced;
    FoundMoves(h, lines, lo, hi, a, b, y, key, other, u, v);
    FoundApart(h, lines, lo, hi, key, name, other, s, e, u, v);
  }

  // ---------------------------------------------------------------- replacing one line

  /** Neither line is a header, and both read the same for `key`. */
  predicate LikeLine(h: Header, x: string, y: string, key: string) {
    !h(x) && !h(y) && QuotedValue(x, key) == QuotedValue(y, key)
  }

  lemma LineIsSplice(h: Header, lines: seq<string>, i: nat, line: string, key: string)
    requires i < |lines| && LikeLine(h, lines[i], line, key)
    ensures lines[i := line] == Spliced(lines, i, i + 1, [line])
    ensures SameShape(h, lines[i..i + 1], [line]) && FieldValue(lines[i..i + 1], key) == FieldValue([line], key)
  {
    assert lines[i..i + 1] == [lines[i]];
  }

  lemma LineKeepsFound(h: Header, lines: seq<string>, lo: nat, hi: nat, i: nat, line: string, key: string, wanted: string, s: nat, e: nat)
    requires lo <= i < hi <= |lines| && LikeLine(h, lines[i], line, key)
    requires Found(h, lines, lo, hi, key, wanted, s, e)
    ensures Found(h, lines[i := line], lo, hi, key, wanted, s, e)
  {
    LineIsSplice(h, lines, i, line, key);
    hide Spliced, SameShape, FieldValue, Found, QuotedValue;
    FoundMoves(h, lines, lo, hi, i, i + 1, [line], key, wanted, s, e);
  }

  lemma LineKeepsAbsent(h: Header, lines: seq<string>, lo: nat, hi: nat, i: nat, line: string, key: string, wanted: string)
    requires lo <= i < hi <= |lines| && LikeLine(h, lines[i], line, key)
    requires Absent(h, lines, lo, hi, key, wanted)
    ensures Absent(h, lines[i := line], lo, hi, key, wanted)
  {
    LineIsSplice(h, lines, i, line, key);
    hide Spliced, SameShape, FieldValue, Absent, QuotedValue;
    AbsentMoves(h, lines, lo, hi, i, i + 1, [line], key, wanted);
  }

  lemma LineKeepsOther(h: Header, lines: seq<string>, lo: nat, hi: nat, i: nat, line: string, key: string,
                       name: string, s: nat, e: nat, other: string, u: nat, v: nat)
    requires lo <= i < hi <= |lines| && LikeLine(h, lines[i], line, key)
    requires Found(h, lines, lo, hi, key, name, s, e) && s <= i < e
    requires Found(h, lines, lo, hi, key, other, u, v) && other != name
    ensures v <= |lines| && Found(h, lines[i := line], lo, hi, key, other, u, v) && lines[i := line][u..v] == lines[u..v]
  {
    LineKeepsFound(h, lines, lo, hi, i, line, key, other, u, v);
    FoundApart(h, lines, lo, hi, key, name, other, s, e, u, v);
  }
}
