/** Withdrawing a release and re-pointing a pack: edits of registry.toml that keep every other
    line as it is.

    Source: scripts/registry_release.py. */
module RegistryWithdraw {
  import opened RegistryLines
  import opened Wrappers

  // ---------------------------------------------------------------- one field

  function IndexOfField(lines: seq<string>, key: string): (i: nat)
    ensures i <= |lines|
    ensures i < |lines| ==> FieldKey(lines[i]) == Some(key)
    ensures forall j | 0 <= j < i :: FieldKey(lines[j]) != Some(key)
  {
    if lines == [] || FieldKey(lines[0]) == Some(key) then 0 else 1 + IndexOfField(lines[1..], key)
  }

  predicate Describes(line: string) {
    FieldKey(line) == Some("description")
  }

  /** One past the last description line, 0 when there is none. */
  function AfterDescription(lines: seq<string>): (i: nat)
    ensures i <= |lines|
    ensures 0 < i ==> Describes(lines[i - 1])
    ensures forall j | i <= j < |lines| :: !Describes(lines[j])
  {
    if lines == [] then 0
    else if Describes(lines[|lines| - 1]) then |lines|
    else AfterDescription(lines[..|lines| - 1])
  }

  /** A new field goes after the last description, or to the end. */
  function InsertAt(lines: seq<string>): (i: nat)
    ensures i <= |lines| && (lines != [] ==> 0 < i)
    ensures forall j | i <= j < |lines| :: !Describes(lines[j])
  {
    if AfterDescription(lines) == 0 then |lines| else AfterDescription(lines)
  }

  function Upsert(lines: seq<string>, key: string, value: string): seq<string> {
    var i := IndexOfField(lines, key);
    if i < |lines| then lines[i := FieldLine(key, value)]
    else lines[..InsertAt(lines)] + [FieldLine(key, value)] + lines[InsertAt(lines)..]
  }

  /** The field is there, and its first line is the one the tooling writes for this value. */
  predicate Holds(lines: seq<string>, key: string, value: string) {
    var i := IndexOfField(lines, key);
    i < |lines| && lines[i] == FieldLine(key, value)
  }

  lemma IndexIs(lines: seq<string>, key: string, i: nat)
    requires i < |lines| && FieldKey(lines[i]) == Some(key)
    requires forall j | 0 <= j < i :: FieldKey(lines[j]) != Some(key)
    ensures IndexOfField(lines, key) == i
  {
  }

  lemma UpsertHolds(lines: seq<string>, key: string, value: string)
    requires Word(key)
    ensures Holds(Upsert(lines, key, value), key, value)
    ensures |lines| <= |Upsert(lines, key, value)| <= |lines| + 1
  {
    FieldLineReads(key, value);
    var i := IndexOfField(lines, key);
    IndexIs(Upsert(lines, key, value), key, if i < |lines| then i else InsertAt(lines));
  }

  lemma HeldIsKept(lines: seq<string>, key: string, value: string)
    requires Holds(lines, key, value)
    ensures Upsert(lines, key, value) == lines
  {
  }

  lemma UpsertKeepsOther(lines: seq<string>, key: string, value: string, other: string, held: string)
    requires Word(key) && key != other && Holds(lines, other, held)
    ensures Holds(Upsert(lines, key, value), other, held)
  {
    FieldLineReads(key, value);
    var k, i, at := IndexOfField(lines, other), IndexOfField(lines, key), InsertAt(lines);
    IndexIs(Upsert(lines, key, value), other, if i < |lines| || k < at then k else k + 1);
  }

  /** Where an upsert cuts: around the field's line, or at the place of insertion. */
  function Cut(lines: seq<string>, key: string): (ab: (nat, nat))
    ensures ab.0 <= ab.1 <= |lines|
  {
    var i := IndexOfField(lines, key);
    if i < |lines| then (i, i + 1) else (InsertAt(lines), InsertAt(lines))
  }

  lemma UpsertIsSplice(lines: seq<string>, key: string, value: string, a: nat, b: nat)
    requires (a, b) == Cut(lines, key)
    ensures Upsert(lines, key, value) == lines[..a] + [FieldLine(key, value)] + lines[b..]
    ensures lines == lines[..a] + lines[a..b] + lines[b..]
    ensures forall l | l in lines[a..b] :: FieldKey(l) == Some(key)
  {
    assert lines == lines[..a] + lines[a..b] + lines[b..];
    var i := IndexOfField(lines, key);
    if i < |lines| {
      assert lines[a..b] == [lines[i]];
      assert lines[i := FieldLine(key, value)] == lines[..a] + [FieldLine(key, value)] + lines[b..];
    }
  }

  lemma {:induction false} NoValueOf(lines: seq<string>, key: string, other: string)
    requires Word(other) && key != other && forall l | l in lines :: FieldKey(l) == Some(key)
    ensures FieldValue(lines, other) == None
  {
    if lines != [] {
      assert lines[0] in lines;
      if QuotedValue(lines[0], other).Some? {
        QuotedIsField(lines[0], other);
      }
      NoValueOf(lines[1..], key, other);
    }
  }

  /** Setting one field leaves what is read for every other key. */
  lemma UpsertKeepsValues(lines: seq<string>, key: string, value: string, other: string)
    requires Word(key) && Word(other) && key != other
    ensures FieldValue(Upsert(lines, key, value), other) == FieldValue(lines, other)
  {
    var (a, b) := Cut(lines, key);
    UpsertIsSplice(lines, key, value, a, b);
    FieldLineReads(key, value);
    NoValueOf(lines[a..b], key, other);
    NoValueOf([FieldLine(key, value)], key, other);
    FieldValueAround(lines[..a], lines[a..b], [FieldLine(key, value)], lines[b..], other);
  }

  /** The lines that are not fields of the given keys. */
  function Others(lines: seq<string>, keys: set<string>): seq<string> {
    if lines == [] then []
    else if FieldKey(lines[0]).Some? && FieldKey(lines[0]).value in keys then Others(lines[1..], keys)
    else [lines[0]] + Others(lines[1..], keys)
  }

  lemma {:induction false} OthersOfConcat(a: seq<string>, b: seq<string>, keys: set<string>)
    ensures Others(a + b, keys) == Others(a, keys) + Others(b, keys)
  {
    if a == [] {
      assert a + b == b;
    } else {
      assert (a + b)[1..] == a[1..] + b;
      OthersOfConcat(a[1..], b, keys);
    }
  }

  lemma {:induction false} NoOthers(lines: seq<string>, key: string, keys: set<string>)
    requires key in keys && forall l | l in lines :: FieldKey(l) == Some(key)
    ensures Others(lines, keys) == []
  {
    if lines != [] {
      assert lines[0] in lines;
      NoOthers(lines[1..], key, keys);
    }
  }

  /** Setting a field changes no line of any other kind, and their order stays. */
  lemma UpsertKeepsOthers(lines: seq<string>, key: string, value: string, keys: set<string>)
    requires Word(key) && key in keys
    ensures Others(Upsert(lines, key, value), keys) == Others(lines, keys)
  {
    var (a, b) := Cut(lines, key);
    UpsertIsSplice(lines, key, value, a, b);
    FieldLineReads(key, value);
    NoOthers(lines[a..b], key, keys);
    NoOthers([FieldLine(key, value)], key, keys);
    OthersOfConcat(lines[..a] + lines[a..b], lines[b..], keys);
    OthersOfConcat(lines[..a], lines[a..b], keys);
    OthersOfConcat(lines[..a] + [FieldLine(key, value)], lines[b..], keys);
    OthersOfConcat(lines[..a], [FieldLine(key, value)], keys);
  }

  /** Setting a field of a section keeps its header first and adds no header. */
  lemma UpsertKeepsShape(h: Header, lines: seq<string>, key: string, value: string)
    requires lines != [] && (forall k | 0 < k < |lines| :: !h(lines[k]))
    requires FieldKey(lines[0]).None?
    requires Word(key) && forall l | FieldKey(l).Some? :: !h(l)
    ensures var out := Upsert(lines, key, value);
            SameShape(h, lines, out) && out[0] == lines[0]
  {
    FieldLineReads(key, value);
    var i, at := IndexOfField(lines, key), InsertAt(lines);
    var out := Upsert(lines, key, value);
    forall k | 0 < k < |out|
      ensures !h(out[k])
    {
      if i < |lines| {
        assert out[k] == lines[k] || out[k] == FieldLine(key, value);
      } else {
        assert out[k] == if k < at then lines[k] else if k == at then FieldLine(key, value) else lines[k - 1];
      }
    }
  }

  // ---------------------------------------------------------------- a withdrawn release

  const REASON := "withdrawn_reason"
  const FLAG := "withdrawn"

  function Mark(release: seq<string>, reason: string): seq<string> {
    Upsert(Upsert(release, REASON, reason), FLAG, "true")
  }

  lemma KeyWords()
    ensures Word(REASON) && Word(FLAG) && Word("name") && Word("version") && Word("source")
    ensures REASON != FLAG && "name" !in {REASON, FLAG} && "version" !in {REASON, FLAG}
  {
    assert |REASON| == 16 && |FLAG| == 9;
  }

  /** A release block after `withdraw`: it reads as withdrawn with that reason, at most two lines
      were added, and every other line is still there, in order. */
  lemma MarkMeans(release: seq<string>, reason: string)
    ensures Holds(Mark(release, reason), FLAG, "true") && Holds(Mark(release, reason), REASON, reason)
    ensures |release| <= |Mark(release, reason)| <= |release| + 2
    ensures Others(Mark(release, reason), {REASON, FLAG}) == Others(release, {REASON, FLAG})
    ensures FieldValue(Mark(release, reason), "name") == FieldValue(release, "name")
    ensures FieldValue(Mark(release, reason), "version") == FieldValue(release, "version")
  {
    hide Upsert, Holds;
    KeyWords();
    var half := Upsert(release, REASON, reason);
    UpsertHolds(release, REASON, reason);
    UpsertHolds(half, FLAG, "true");
    UpsertKeepsOther(half, FLAG, "true", REASON, reason);
    UpsertKeepsOthers(release, REASON, reason, {REASON, FLAG});
    UpsertKeepsOthers(half, FLAG, "true", {REASON, FLAG});
    UpsertKeepsValues(release, REASON, reason, "name");
    UpsertKeepsValues(half, FLAG, "true", "name");
    UpsertKeepsValues(release, REASON, reason, "version");
    UpsertKeepsValues(half, FLAG, "true", "version");
  }

  lemma MarkTwice(release: seq<string>, reason: string)
    ensures Mark(Mark(release, reason), reason) == Mark(release, reason)
  {
    MarkMeans(release, reason);
    HeldIsKept(Mark(release, reason), REASON, reason);
    HeldIsKept(Mark(release, reason), FLAG, "true");
  }

  lemma HeadersAreNoFields()
    ensures forall l | FieldKey(l).Some? :: !PackHeader(l) && !ReleaseHeader(l)
  {
    forall l | FieldKey(l).Some?
      ensures !PackHeader(l) && !ReleaseHeader(l)
    {
      FieldIsNoHeader(l);
    }
  }

  lemma NotBothHeaders(line: string)
    requires PackHeader(line)
    ensures !ReleaseHeader(line)
  {
    assert SkipSpace(line) == line;
    assert line[6] == ']';
  }

  lemma MarkKeepsShape(h: Header, release: seq<string>, reason: string)
    requires release != [] && FieldKey(release[0]).None? && (forall k | 0 < k < |release| :: !h(release[k]))
    requires forall l | FieldKey(l).Some? :: !h(l)
    ensures SameShape(h, release, Mark(release, reason)) && Mark(release, reason)[0] == release[0]
  {
    hide Upsert, FieldKey;
    KeyWords();
    UpsertKeepsShape(h, release, REASON, reason);
    UpsertKeepsShape(h, Upsert(release, REASON, reason), FLAG, "true");
  }

  /** lines[ps..pe] is the pack the tooling finds by this name, lines[rs..re] its release of this
      version. */
  ghost predicate Located(lines: seq<string>, pack: string, version: string, ps: nat, pe: nat, rs: nat, re: nat) {
    Found(PackHeader, lines, 0, |lines|, "name", pack, ps, pe) &&
    Found(ReleaseHeader, lines, ps, pe, "version", version, rs, re)
  }

  function Withdrawn(lines: seq<string>, reason: string, rs: nat, re: nat): seq<string>
    requires rs <= re <= |lines|
  {
    Spliced(lines, rs, re, Mark(lines[rs..re], reason))
  }

  /** The edit keeps the header structure at both levels. */
  lemma BothShapes(lines: seq<string>, pack: string, version: string, reason: string, ps: nat, pe: nat, rs: nat, re: nat)
    requires Located(lines, pack, version, ps, pe, rs, re)
    ensures ps < rs < re <= pe <= |lines|
    ensures var release := lines[rs..re];
            SameShape(PackHeader, release, Mark(release, reason)) && SameShape(ReleaseHeader, release, Mark(release, reason))
  {
    var release := lines[rs..re];
    HeadersAreNoFields();
    NotBothHeaders(lines[ps]);
    hide Mark, FieldKey, PackHeader, ReleaseHeader, FieldValue;
    assert release[0] == lines[rs];
    assert forall k | 0 < k < |release| :: release[k] == lines[rs + k];
    MarkKeepsShape(PackHeader, release, reason);
    MarkKeepsShape(ReleaseHeader, release, reason);
  }

  /** The edited lines locate the same release again, and it is the marked one. */
  lemma WithdrawnRelease(lines: seq<string>, pack: string, version: string, reason: string, ps: nat, pe: nat, rs: nat, re: nat)
    requires Located(lines, pack, version, ps, pe, rs, re)
    ensures var out, n := Withdrawn(lines, reason, rs, re), |Mark(lines[rs..re], reason)|;
            && |out| == |lines| - (re - rs) + n
            && out[..rs] == lines[..rs] && out[rs..rs + n] == Mark(lines[rs..re], reason) && out[rs + n..] == lines[re..]
            && Located(out, pack, version, ps, Moved(rs, re, n, pe), rs, rs + n)
  {
    hide Mark, Spliced, SameShape, Section, FieldValue, MovedLines, PackHeader, ReleaseHeader, Found;
    BothShapes(lines, pack, version, reason, ps, pe, rs, re);
    var release := lines[rs..re];
    var marked := Mark(release, reason);
    MarkMeans(release, reason);
    SpliceUndone(lines, rs, re, marked);
    FoundMoves(PackHeader, lines, 0, |lines|, rs, re, marked, "name", pack, ps, pe);
    FoundMoves(ReleaseHeader, lines, ps, pe, rs, re, marked, "version", version, rs, re);
  }

  /** Every other pack is found as before, line for line the same. */
  lemma OtherPackKept(lines: seq<string>, pack: string, version: string, reason: string, ps: nat, pe: nat, rs: nat, re: nat,
                      other: string, s: nat, e: nat)
    requires Located(lines, pack, version, ps, pe, rs, re) && other != pack
    requires Found(PackHeader, lines, 0, |lines|, "name", other, s, e)
    ensures var out, n := Withdrawn(lines, reason, rs, re), |Mark(lines[rs..re], reason)|;
            var s', e' := Moved(rs, re, n, s), Moved(rs, re, n, e);
            Found(PackHeader, out, 0, |out|, "name", other, s', e') && out[s'..e'] == lines[s..e]
  {
    BothShapes(lines, pack, version, reason, ps, pe, rs, re);
    var marked := Mark(lines[rs..re], reason);
    MarkMeans(lines[rs..re], reason);
    SpliceUndone(lines, rs, re, marked);
    assert Moved(rs, re, |marked|, |lines|) == |Withdrawn(lines, reason, rs, re)|;
    hide Mark, SameShape, Spliced, Section, FieldValue, Found, PackHeader, ReleaseHeader, Moved;
    OtherFoundKept(PackHeader, lines, 0, |lines|, rs, re, marked, "name", pack, ps, pe, other, s, e);
  }

  /** Every other release of the pack is found as before, line for line the same. */
  lemma OtherReleaseKept(lines: seq<string>, pack: string, version: string, reason: string, ps: nat, pe: nat, rs: nat, re: nat,
                         other: string, s: nat, e: nat)
    requires Located(lines, pack, version, ps, pe, rs, re) && other != version
    requires Found(ReleaseHeader, lines, ps, pe, "version", other, s, e)
    ensures var out, n := Withdrawn(lines, reason, rs, re), |Mark(lines[rs..re], reason)|;
            var s', e' := Moved(rs, re, n, s), Moved(rs, re, n, e);
            Found(ReleaseHeader, out, ps, Moved(rs, re, n, pe), "version", other, s', e') && out[s'..e'] == lines[s..e]
  {
    BothShapes(lines, pack, version, reason, ps, pe, rs, re);
    var marked := Mark(lines[rs..re], reason);
    MarkMeans(lines[rs..re], reason);
    SpliceUndone(lines, rs, re, marked);
    hide Mark, SameShape, Spliced, Section, FieldValue, Found, PackHeader, ReleaseHeader, Moved;
    OtherFoundKept(ReleaseHeader, lines, ps, pe, rs, re, marked, "version", version, rs, re, other, s, e);
  }

  /** No pack and no release of the pack appears. */
  lemma NoneAppears(lines: seq<string>, pack: string, version: string, reason: string, ps: nat, pe: nat, rs: nat, re: nat, other: string)
    requires Located(lines, pack, version, ps, pe, rs, re)
    ensures var out, n := Withdrawn(lines, reason, rs, re), |Mark(lines[rs..re], reason)|;
            && (Absent(PackHeader, lines, 0, |lines|, "name", other) ==> Absent(PackHeader, out, 0, |out|, "name", other))
            && (Absent(ReleaseHeader, lines, ps, pe, "version", other) ==>
                  Absent(ReleaseHeader, out, ps, Moved(rs, re, n, pe), "version", other))
  {
    BothShapes(lines, pack, version, reason, ps, pe, rs, re);
    var marked := Mark(lines[rs..re], reason);
    MarkMeans(lines[rs..re], reason);
    SpliceUndone(lines, rs, re, marked);
    assert Moved(rs, re, |marked|, |lines|) == |Withdrawn(lines, reason, rs, re)|;
    hide Mark, SameShape, Spliced, Section, FieldValue, Found, Absent, PackHeader, ReleaseHeader, Moved;
    if Absent(PackHeader, lines, 0, |lines|, "name", other) {
      AbsentMoves(PackHeader, lines, 0, |lines|, rs, re, marked, "name", other);
    }
    if Absent(ReleaseHeader, lines, ps, pe, "version", other) {
      AbsentMoves(ReleaseHeader, lines, ps, pe, rs, re, marked, "version", other);
    }
  }

  /** Withdrawing the same release again changes nothing. */
  lemma WithdrawnTwice(lines: seq<string>, pack: string, version: string, reason: string, ps: nat, pe: nat, rs: nat, re: nat,
                       ps': nat, pe': nat, rs': nat, re': nat)
    requires Located(lines, pack, version, ps, pe, rs, re)
    requires Located(Withdrawn(lines, reason, rs, re), pack, version, ps', pe', rs', re')
    ensures rs' <= re' <= |Withdrawn(lines, reason, rs, re)|
    ensures Withdrawn(Withdrawn(lines, reason, rs, re), reason, rs', re') == Withdrawn(lines, reason, rs, re)
  {
    var out, n := Withdrawn(lines, reason, rs, re), |Mark(lines[rs..re], reason)|;
    WithdrawnRelease(lines, pack, version, reason, ps, pe, rs, re);
    FoundUnique(PackHeader, out, 0, |out|, "name", pack, ps', pe', ps, Moved(rs, re, n, pe));
    FoundUnique(ReleaseHeader, out, ps', pe', "version", version, rs', re', rs, rs + n);
    MarkTwice(lines[rs..re], reason);
    assert out == Spliced(out, rs, rs + n, out[rs..rs + n]);
  }

  // ---------------------------------------------------------------- the edits as the tooling makes them

  /** A list of lines, edited in place. */
  class LineList {
    var items: seq<string>

    constructor (lines: seq<string>)
      ensures items == lines
    {
      items := lines;
    }

    method ReplaceField(start: nat, end: nat, key: string, value: string) returns (changed: bool)
      requires start <= end <= |items|
      modifies this
      ensures var i := start + IndexOfField(old(items)[start..end], key);
              && changed == (i < end)
              && items == if i < end then old(items)[i := FieldLine(key, value)] else old(items)
    {
      for index := start to end
        invariant items == old(items)
        invariant forall j | start <= j < index :: FieldKey(items[j]) != Some(key)
      {
        if FieldKey(items[index]) == Some(key) {
          assert items[start..end][index - start] == items[index];
          IndexIs(items[start..end], key, index - start);
          items := items[index := FieldLine(key, value)];
          return true;
        }
      }
      return false;
    }
  }

  method UpsertField(lines: seq<string>, key: string, value: string) returns (r: seq<string>)
    ensures r == Upsert(lines, key, value)
  {
    hide FieldKey, FieldLine, Describes, IndexOfField;
    var next := new LineList(lines);
    assert lines[0..|lines|] == lines;
    var changed := next.ReplaceField(0, |lines|, key, value);
    if changed {
      return next.items;
    }
    var at := |lines|;
    for index := 0 to |lines|
      invariant at == if AfterDescription(lines[..index]) == 0 then |lines| else AfterDescription(lines[..index])
    {
      assert lines[..index + 1][..index] == lines[..index] && lines[..index + 1][index] == lines[index];
      if Describes(next.items[index]) {
        at := index + 1;
      }
    }
    assert lines[..|lines|] == lines;
    return lines[..at] + [FieldLine(key, value)] + lines[at..];
  }

  datatype Outcome = Done | PackMissing | ReleaseMissing | FieldMissing

  /** registry.toml: the text the tooling reads, edits line by line and writes back. */
  class RegistryFile {
    var text: string

    function Lines(): seq<string>
      reads this
    {
      SplitLines(text)
    }

    /** The ghost results say where the pack and the release were found. */
    method Withdraw(pack: string, version: string, reason: string)
      returns (r: Outcome, ghost ps: nat, ghost pe: nat, ghost rs: nat, ghost re: nat)
      modifies this
      ensures r == Done ==>
                && rs <= re <= |old(Lines())| && Located(old(Lines()), pack, version, ps, pe, rs, re)
                && text == JoinLines(Withdrawn(old(Lines()), reason, rs, re))
      ensures r == PackMissing <==> Absent(PackHeader, old(Lines()), 0, |old(Lines())|, "name", pack)
      ensures r == ReleaseMissing ==>
                && Found(PackHeader, old(Lines()), 0, |old(Lines())|, "name", pack, ps, pe)
                && Absent(ReleaseHeader, old(Lines()), ps, pe, "version", version)
      ensures r != Done ==> text == old(text)
      ensures r != FieldMissing
    {
      hide Found, Absent, SplitLines, JoinLines, PackHeader, ReleaseHeader, Upsert;
      ps, pe, rs, re := 0, 0, 0, 0;
      var lines := SplitLines(text);
      var p := FindSection(PackHeader, lines, 0, |lines|, "name", pack);
      if p.None? {
        r := PackMissing;
        return;
      }
      var (packStart, packEnd) := p.value;
      ps, pe := packStart, packEnd;
      FoundIsNotAbsent(PackHeader, lines, 0, |lines|, "name", pack, ps, pe);
      var q := FindSection(ReleaseHeader, lines, packStart, packEnd, "version", version);
      if q.None? {
        r := ReleaseMissing;
        return;
      }
      var (start, end) := q.value;
      rs, re := start, end;
      var release := lines[start..end];
      release := UpsertField(release, REASON, reason);
      release := UpsertField(release, FLAG, "true");
      text := JoinLines(lines[..start] + release + lines[end..]);
      r := Done;
    }

    method SetSource(pack: string, source: string) returns (r: Outcome, ghost ps: nat, ghost pe: nat)
      modifies this
      ensures r == PackMissing <==> Absent(PackHeader, old(Lines()), 0, |old(Lines())|, "name", pack)
      ensures r == Done || r == FieldMissing ==>
                ps <= pe <= |old(Lines())| && Found(PackHeader, old(Lines()), 0, |old(Lines())|, "name", pack, ps, pe)
      ensures r == Done ==> var i := ps + IndexOfField(old(Lines())[ps..pe], "source");
                            i < pe && text == JoinLines(old(Lines())[i := FieldLine("source", source)])
      ensures r == FieldMissing ==> IndexOfField(old(Lines())[ps..pe], "source") == pe - ps
      ensures r != Done ==> text == old(text)
      ensures r != ReleaseMissing
    {
      hide Found, Absent, IndexOfField, SplitLines, JoinLines, PackHeader, FieldLine;
      ps, pe := 0, 0;
      var lines := SplitLines(text);
      var p := FindSection(PackHeader, lines, 0, |lines|, "name", pack);
      if p.None? {
        r := PackMissing;
        return;
      }
      var (start, end) := p.value;
      ps, pe := start, end;
      FoundIsNotAbsent(PackHeader, lines, 0, |lines|, "name", pack, start, end);
      var list := new LineList(lines);
      var changed := list.ReplaceField(start, end, "source", source);
      assert |lines[start..end]| == end - start;
      if !changed {
        r := FieldMissing;
        return;
      }
      text := JoinLines(list.items);
      r := Done;
    }
  }

  /** The edit of `set_source`: one line that is no header and no name becomes another such line. */
  lemma SourceLine(lines: seq<string>, source: string, ps: nat, pe: nat, i: nat)
    requires ps <= pe <= |lines| && i == ps + IndexOfField(lines[ps..pe], "source") < pe
    ensures var line := FieldLine("source", source);
            LikeLine(PackHeader, lines[i], line, "name") && Holds(lines[i := line][ps..pe], "source", source)
  {
    var line := FieldLine("source", source);
    KeyWords();
    FieldLineReads("source", source);
    var pack := lines[ps..pe];
    assert lines[i := line][ps..pe] == pack[i - ps := line];
    IndexIs(pack[i - ps := line], "source", i - ps);
    assert pack[i - ps] == lines[i];
    hide FieldKey, FieldLine, PackHeader, ReleaseHeader, QuotedValue, Word;
    FieldIsNoHeader(line);
    FieldIsNoHeader(lines[i]);
    NoValueOf([line], "source", "name");
    NoValueOf([lines[i]], "source", "name");
  }

  /** Setting the source sets it in the pack that was named, and no pack appears. */
  lemma SourceSet(lines: seq<string>, pack: string, source: string, ps: nat, pe: nat, i: nat, other: string)
    requires ps <= pe <= |lines| && Found(PackHeader, lines, 0, |lines|, "name", pack, ps, pe)
    requires i == ps + IndexOfField(lines[ps..pe], "source") < pe
    ensures var out := lines[i := FieldLine("source", source)];
            && Found(PackHeader, out, 0, |lines|, "name", pack, ps, pe) && Holds(out[ps..pe], "source", source)
            && (Absent(PackHeader, lines, 0, |lines|, "name", other) ==> Absent(PackHeader, out, 0, |lines|, "name", other))
  {
    SourceLine(lines, source, ps, pe, i);
    hide FieldLine, PackHeader, Holds, LikeLine, Found, Absent, IndexOfField;
    LineKeepsFound(PackHeader, lines, 0, |lines|, i, FieldLine("source", source), "name", pack, ps, pe);
    if Absent(PackHeader, lines, 0, |lines|, "name", other) {
      LineKeepsAbsent(PackHeader, lines, 0, |lines|, i, FieldLine("source", source), "name", other);
    }
  }

  /** It changes one line, and every other pack is found where it was, line for line the same. */
  lemma SourceKeepsOthers(lines: seq<string>, pack: string, source: string, ps: nat, pe: nat, i: nat, other: string, s: nat, e: nat)
    requires ps <= pe <= |lines| && Found(PackHeader, lines, 0, |lines|, "name", pack, ps, pe)
    requires i == ps + IndexOfField(lines[ps..pe], "source") < pe
    requires Found(PackHeader, lines, 0, |lines|, "name", other, s, e) && other != pack
    ensures var out := lines[i := FieldLine("source", source)];
            s <= e <= |lines| && Found(PackHeader, out, 0, |lines|, "name", other, s, e) && out[s..e] == lines[s..e]
  {
    SourceLine(lines, source, ps, pe, i);
    SectionBounds(PackHeader, lines, 0, |lines|, s, e);
    hide FieldLine, PackHeader, Holds, LikeLine, Found, IndexOfField;
    LineKeepsOther(PackHeader, lines, 0, |lines|, i, FieldLine("source", source), "name", pack, ps, pe, other, s, e);
  }

  // ---------------------------------------------------------------- writing the edited lines back

  predicate EndsOpen(lines: seq<string>) {
    lines != [] && !Terminated(lines[|lines| - 1])
  }

  /** The new field would be glued to a last line that has no newline. */
  predicate Severs(lines: seq<string>, key: string) {
    EndsOpen(lines) && IndexOfField(lines, key) == |lines| && InsertAt(lines) == |lines|
  }

  lemma FieldLineIsLine(key: string, value: string)
    requires '\n' !in key && '\n' !in value
    ensures IsLine(FieldLine(key, value)) && Terminated(FieldLine(key, value))
  {
    var line := FieldLine(key, value);
    assert line[..|line| - 1] == "  " + key + " = " + value;
  }

  lemma InsertCut(lines: seq<string>, at: nat, line: string)
    requires WellCut(lines) && at <= |lines| && 0 < |lines| && IsLine(line) && Terminated(line)
    ensures WellCut(lines[..at] + [line] + lines[at..]) <==> at < |lines| || !EndsOpen(lines)
    ensures !EndsOpen(lines) ==> !EndsOpen(lines[..at] + [line] + lines[at..])
  {
    hide IsLine, Terminated;
    var out := lines[..at] + [line] + lines[at..];
    assert forall k | 0 <= k < |out| :: out[k] == if k < at then lines[k] else if k == at then line else lines[k - 1];
    if at == |lines| && EndsOpen(lines) {
      assert out[|lines| - 1] == lines[|lines| - 1];
    }
  }

  lemma ReplaceCut(lines: seq<string>, i: nat, line: string)
    requires WellCut(lines) && i < |lines| && IsLine(line) && Terminated(line)
    ensures WellCut(lines[i := line])
    ensures !EndsOpen(lines) ==> !EndsOpen(lines[i := line])
  {
    hide IsLine, Terminated;
  }

  lemma UpsertCut(lines: seq<string>, key: string, value: string)
    requires WellCut(lines) && lines != [] && '\n' !in key && '\n' !in value
    ensures WellCut(Upsert(lines, key, value)) <==> !Severs(lines, key)
    ensures !EndsOpen(lines) ==> !EndsOpen(Upsert(lines, key, value))
  {
    FieldLineIsLine(key, value);
    var i, line := IndexOfField(lines, key), FieldLine(key, value);
    hide WellCut, FieldLine, IsLine, Terminated, IndexOfField, InsertAt;
    if i < |lines| {
      ReplaceCut(lines, i, line);
    } else {
      InsertCut(lines, InsertAt(lines), line);
    }
  }

  /** A line added at the end does not move what was found before. */
  lemma IndexWithMore(lines: seq<string>, line: string, key: string)
    requires FieldKey(line) != Some(key)
    ensures IndexOfField(lines + [line], key) ==
            if IndexOfField(lines, key) < |lines| then IndexOfField(lines, key) else |lines| + 1
  {
    var i, more := IndexOfField(lines, key), lines + [line];
    if i < |lines| {
      IndexIs(more, key, i);
    } else {
      assert forall j | 0 <= j < |more| :: FieldKey(more[j]) != Some(key);
    }
  }

  /** A severed line stays severed unless it is the one that is replaced. */
  lemma UpsertStaysSevered(lines: seq<string>, key: string, value: string, k: nat)
    requires k < |lines| - 1 && !Terminated(lines[k]) && IndexOfField(lines, key) != k
    ensures !WellCut(Upsert(lines, key, value))
  {
    var out, i, at := Upsert(lines, key, value), IndexOfField(lines, key), InsertAt(lines);
    var k' := if i < |lines| || k < at then k else k + 1;
    assert out[k'] == lines[k] && k' < |out| - 1;
  }

  /** The withdrawal leaves a severed line: the release ends the file without a newline, and a
      field is added behind that line. */
  predicate CutsShort(release: seq<string>, reason: string) {
    (Severs(release, REASON) && IndexOfField(release, FLAG) != |release| - 1)
    || Severs(Upsert(release, REASON, reason), FLAG)
  }

  lemma SeveringAppends(lines: seq<string>, key: string, value: string)
    requires Severs(lines, key)
    ensures lines != [] && !Terminated(lines[|lines| - 1])
    ensures Upsert(lines, key, value) == lines + [FieldLine(key, value)]
  {
  }

  lemma FoundIsReplaced(lines: seq<string>, key: string, value: string)
    requires IndexOfField(lines, key) < |lines|
    ensures Upsert(lines, key, value) == lines[IndexOfField(lines, key) := FieldLine(key, value)]
    ensures !Severs(lines, key)
  {
  }

  /** When the first field is glued on, only replacing that very line mends it. */
  lemma SeveredMark(release: seq<string>, reason: string)
    requires WellCut(release) && '\n' !in reason && Severs(release, REASON)
    ensures WellCut(Mark(release, reason)) <==> IndexOfField(release, FLAG) == |release| - 1
    ensures IndexOfField(release, FLAG) == |release| - 1 ==> !Severs(Upsert(release, REASON, reason), FLAG)
  {
    KeyWords();
    var n, x, y := |release|, FieldLine(REASON, reason), FieldLine(FLAG, "true");
    FieldLineIsLine(REASON, reason);
    FieldLineIsLine(FLAG, "true");
    FieldLineReads(REASON, reason);
    SeveringAppends(release, REASON, reason);
    IndexWithMore(release, x, FLAG);
    hide FieldKey, FieldLine, IsLine, Terminated, InsertAt, IndexOfField, Upsert, Severs, WellCut;
    if IndexOfField(release, FLAG) != n - 1 {
      UpsertStaysSevered(release + [x], FLAG, "true", n - 1);
    } else {
      FoundIsReplaced(release + [x], FLAG, "true");
      MendedCut(release, x, y);
    }
  }

  lemma MendedCut(lines: seq<string>, x: string, y: string)
    requires WellCut(lines) && lines != [] && IsLine(x) && IsLine(y) && Terminated(y)
    ensures WellCut((lines + [x])[|lines| - 1 := y])
  {
    hide IsLine, Terminated;
  }

  lemma MarkCut(release: seq<string>, reason: string)
    requires WellCut(release) && release != [] && '\n' !in reason
    ensures WellCut(Mark(release, reason)) <==> !CutsShort(release, reason)
    ensures !EndsOpen(release) ==> !CutsShort(release, reason) && !EndsOpen(Mark(release, reason))
  {
    KeyWords();
    assert '\n' !in REASON && '\n' !in FLAG && '\n' !in "true";
    hide FieldKey, FieldLine, IsLine, WellCut, IndexOfField, InsertAt, Upsert;
    UpsertCut(release, REASON, reason);
    if Severs(release, REASON) {
      SeveredMark(release, reason);
    } else {
      HalfNotEmpty(release, reason);
      UpsertCut(Upsert(release, REASON, reason), FLAG, "true");
    }
  }

  lemma HalfNotEmpty(release: seq<string>, reason: string)
    ensures Upsert(release, REASON, reason) != []
  {
  }

  lemma WellCutAround(lines: seq<string>, a: nat, b: nat, y: seq<string>)
    requires WellCut(lines) && a < b <= |lines| && y != [] && (b < |lines| ==> !EndsOpen(y))
    ensures WellCut(Spliced(lines, a, b, y)) <==> WellCut(y)
  {
    SplicedAt(lines, a, b, y);
    var out := Spliced(lines, a, b, y);
    if WellCut(y) {
      forall k | 0 <= k < |out|
        ensures IsLine(out[k]) && (k < |out| - 1 ==> Terminated(out[k]))
      {
        if a <= k < a + |y| {
          assert out[a + (k - a)] == y[k - a];
        } else if a + |y| <= k {
          assert out[Moved(a, b, |y|, k - a - |y| + b)] == lines[k - a - |y| + b];
        }
      }
    }
    if WellCut(out) {
      assert forall k | 0 <= k < |y| :: out[a + k] == y[k];
    }
  }

  /** The file that is written reads back as the edited lines exactly when no line is cut short; a
      file that ends in a newline always does. */
  lemma WithdrawnReadsBack(text: string, pack: string, version: string, reason: string, ps: nat, pe: nat, rs: nat, re: nat)
    requires Located(SplitLines(text), pack, version, ps, pe, rs, re) && '\n' !in reason
    ensures rs < re <= |SplitLines(text)|
    ensures var lines := SplitLines(text);
            var out := Withdrawn(lines, reason, rs, re);
            && (SplitLines(JoinLines(out)) == out <==> !CutsShort(lines[rs..re], reason))
            && (Terminated(text) ==> SplitLines(JoinLines(out)) == out)
  {
    var lines := SplitLines(text);
    BothShapes(lines, pack, version, reason, ps, pe, rs, re);
    var release := lines[rs..re];
    var marked := Mark(release, reason);
    SplitJoin(text);
    hide Mark, CutsShort, Located, FieldLine, SameShape, SplitLines, JoinLines, Spliced;
    WellCutSlice(lines, rs, re);
    MarkCut(release, reason);
    WellCutAround(lines, rs, re, marked);
    ReadsBack(Withdrawn(lines, reason, rs, re));
    if Terminated(text) {
      LastTerminated(text);
    }
  }

  lemma WellCutSlice(lines: seq<string>, a: nat, b: nat)
    requires WellCut(lines) && a < b <= |lines|
    ensures WellCut(lines[a..b]) && lines[a..b] != []
    ensures EndsOpen(lines[a..b]) ==> b == |lines| && EndsOpen(lines)
  {
    assert forall k | 0 <= k < b - a :: lines[a..b][k] == lines[a + k];
  }

  lemma {:induction false} LastTerminated(text: string)
    requires Terminated(text)
    ensures !EndsOpen(SplitLines(text))
  {
    var k := LineEnd(text);
    if k < |text| {
      LastTerminated(text[k..]);
      assert SplitLines(text)[1..] == SplitLines(text[k..]);
    } else {
      assert text[..k] == text;
    }
  }

  /** In lines with no field at all, a field is added at the end. */
  lemma AddedAtEnd(lines: seq<string>, key: string, value: string)
    requires forall l | l in lines :: FieldKey(l) != Some(key) && !Describes(l)
    ensures IndexOfField(lines, key) == InsertAt(lines) == |lines|
    ensures Upsert(lines, key, value) == lines + [FieldLine(key, value)]
  {
    assert forall j | 0 <= j < |lines| :: FieldKey(lines[j]) != Some(key) && !Describes(lines[j]);
  }

  lemma GluedJoin(a: string, b: string, x: string, y: string)
    ensures JoinLines([a, b, x, y]) == JoinLines([a, b + x, y])
  {
    var tail := JoinLines([y]);
    assert [x, y][1..] == [y];
    assert JoinLines([x, y]) == x + tail;
    assert [b, x, y][1..] == [x, y] && [b + x, y][1..] == [y];
    assert JoinLines([b, x, y]) == b + (x + tail) == (b + x) + tail == JoinLines([b + x, y]);
    assert [a, b, x, y][1..] == [b, x, y] && [a, b + x, y][1..] == [b + x, y];
  }

  /** A block of no fields gets both lines at its end. */
  lemma MarkBare(release: seq<string>, reason: string)
    requires release != [] && forall l | l in release :: FieldKey(l).None?
    ensures Mark(release, reason) == release + [FieldLine(REASON, reason), FieldLine(FLAG, "true")]
    ensures EndsOpen(release) ==> CutsShort(release, reason)
  {
    var x := FieldLine(REASON, reason);
    KeyWords();
    FieldLineReads(REASON, reason);
    hide FieldKey, FieldLine, Upsert, IndexOfField, InsertAt;
    AddedAtEnd(release, REASON, reason);
    AddedAtEnd(release, FLAG, "true");
    AddedAtEnd(release + [x], FLAG, "true");
    assert release + [x] + [FieldLine(FLAG, "true")] == release + [x, FieldLine(FLAG, "true")];
  }

  lemma CommentLine(line: string)
    requires IsLine(line) && Terminated(line)
    ensures IsLine("#" + line) && Terminated("#" + line)
    ensures FieldKey("#" + line).None? && FieldKey("#").None? && !Terminated("#")
  {
    var comment := "#" + line;
    assert comment[..|comment| - 1] == "#" + line[..|line| - 1];
    assert SkipSpace(comment) == comment && TakeWord(comment) == "";
  }

  lemma GluedText(header: string, x: string, y: string)
    requires IsLine(header) && Terminated(header) && IsLine(y) && IsLine("#" + x) && Terminated("#" + x)
    ensures SplitLines(JoinLines([header, "#", x, y])) == [header, "#" + x, y]
  {
    GluedJoin(header, "#", x, y);
    hide IsLine, Terminated, JoinLines, SplitLines;
    JoinSplits([header, "#" + x, y]);
  }

  /** A release that ends the file in a comment without a newline: the reason is written behind the
      comment sign, and the file read back has no reason. */
  lemma OpenCommentSwallowsReason(header: string, reason: string)
    requires ReleaseHeader(header) && IsLine(header) && Terminated(header) && '\n' !in reason
    ensures var again := SplitLines(JoinLines(Mark([header, "#"], reason)));
            && CutsShort([header, "#"], reason)
            && again == [header, "#" + FieldLine(REASON, reason), FieldLine(FLAG, "true")]
            && IndexOfField(again, REASON) == |again|
  {
    var x, y := FieldLine(REASON, reason), FieldLine(FLAG, "true");
    var release, again := [header, "#"], [header, "#" + x, y];
    KeyWords();
    FieldLineReads(FLAG, "true");
    FieldLineIsLine(REASON, reason);
    FieldLineIsLine(FLAG, "true");
    CommentLine(x);
    assert FieldKey(header).None? by {
      HeadersAreNoFields();
    }
    hide FieldKey, FieldLine, IsLine, Terminated, ReleaseHeader, Mark, CutsShort, SplitLines, JoinLines, Word, IndexOfField;
    MarkBare(release, reason);
    assert Mark(release, reason) == [header, "#", x, y];
    GluedText(header, x, y);
    NoFieldAt(again, REASON);
  }

  lemma NoFieldAt(lines: seq<string>, key: string)
    requires forall l | l in lines :: FieldKey(l) != Some(key)
    ensures IndexOfField(lines, key) == |lines|
  {
    assert forall j | 0 <= j < |lines| :: FieldKey(lines[j]) != Some(key);
  }
}
