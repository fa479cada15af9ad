/** Which trees a content manifest identifies among all trees, file names with newlines included.

    Source: validate_registry.py, `git_pack_content_hash`. */
module ContentCollision {
  import opened ContentManifest
  import opened Text
  import opened Wrappers

  function FullPath(packPath: string, rel: string): string {
    if packPath == "" then rel else packPath + "/" + rel
  }

  lemma RelativeOfFull(packPath: string, rel: string)
    requires rel != ""
    ensures RelativePath(FullPath(packPath, rel), packPath) == Ok(rel)
  {
    if packPath != "" {
      var prefix := packPath + "/";
      assert FullPath(packPath, rel) == prefix + rel;
      assert (prefix + rel)[|prefix|..] == rel;
    }
  }

  /** One file whose name carries the whole line of `a`, and otherwise is `b`. */
  function Forged(a: Record, b: Record, packPath: string): Record
    requires Entry(a, packPath).Ok? && Entry(b, packPath).Ok?
  {
    Record(b.mode, "blob", FullPath(packPath, Entry(a, packPath).value + "\n" + RelativePath(b.path, packPath).value), b.digest)
  }

  lemma ForgedEntry(a: Record, b: Record, packPath: string)
    requires Entry(a, packPath).Ok? && Entry(b, packPath).Ok?
    ensures Entry(Forged(a, b, packPath), packPath) == Ok(Entry(a, packPath).value + "\n" + Entry(b, packPath).value)
    ensures !NoNewline(Forged(a, b, packPath).path)
  {
    var e, rel := Entry(a, packPath).value, RelativePath(b.path, packPath).value;
    var name := e + "\n" + rel;
    assert name[|e|] == '\n';
    RelativeOfFull(packPath, name);
    assert packPath != "" ==> FullPath(packPath, name)[|packPath| + 1 + |e|] == '\n';
    assert name + " " + ManifestPerm(b.mode).value + " " + b.digest == e + "\n" + (rel + " " + ManifestPerm(b.mode).value + " " + b.digest);
  }

  predicate Digest(d: string) {
    |d| == 64 && NoNewline(d)
  }

  /** A tree as git lists it, with digests as `hexdigest` prints them. */
  predicate Tree(records: seq<Record>, packPath: string) {
    Accepted(records, packPath) && UniquePaths(records) && forall r | r in records :: Digest(r.digest)
  }

  /** No other tree has this manifest. */
  ghost predicate Identified(a: seq<Record>, packPath: string)
    requires Accepted(a, packPath)
  {
    forall b: seq<Record> | Tree(b, packPath) && Manifest(b, packPath) == Manifest(a, packPath) :: SameRecords(a, b)
  }

  // ---------------------------------------------------------------- two files can be forged into one

  predicate Lists(ordered: seq<Record>, records: seq<Record>, lines: seq<string>, packPath: string) {
    |ordered| == |lines| &&
    forall i | 0 <= i < |ordered| :: ordered[i] in records && Entry(ordered[i], packPath) == Ok(lines[i])
  }

  /** The files in the order of their lines. */
  lemma InOrder(records: seq<Record>, packPath: string) returns (ordered: seq<Record>)
    requires Accepted(records, packPath)
    ensures Lists(ordered, records, Sort(Entries(records, packPath)), packPath)
  {
    hide Entry;
    var es := Entries(records, packPath);
    var lines := Sort(es);
    SortSorts(es);
    ordered := [];
    while |ordered| < |lines|
      invariant |ordered| <= |lines|
      invariant forall i | 0 <= i < |ordered| :: ordered[i] in records && Entry(ordered[i], packPath) == Ok(lines[i])
    {
      var line := lines[|ordered|];
      assert line in multiset(lines);
      var k :| 0 <= k < |es| && es[k] == line;
      assert records[k] in records;
      ordered := ordered + [records[k]];
    }
  }

  lemma LinesDistinct(records: seq<Record>, packPath: string)
    requires Tree(records, packPath)
    ensures var lines := Sort(Entries(records, packPath)); Sorted(lines) && Distinct(lines) && |lines| == |records|
  {
    hide Entry;
    var es := Entries(records, packPath);
    var lines := Sort(es);
    SortSorts(es);
    EntriesDistinct(records, packPath);
    assert |multiset(lines)| == |lines| && |multiset(es)| == |es|;
    forall i, j | 0 <= i < j < |lines|
      ensures lines[i] != lines[j]
    {
      if lines[i] == lines[j] {
        RepeatCounts(lines, i, j);
        DistinctCount(es, lines[i]);
      }
    }
  }

  /** The last two files made one. */
  function Merged(ordered: seq<Record>, packPath: string): seq<Record>
    requires |ordered| >= 2 && forall r | r in ordered :: Entry(r, packPath).Ok?
  {
    var n := |ordered|;
    assert ordered[n - 2] in ordered && ordered[n - 1] in ordered;
    ordered[..n - 2] + [Forged(ordered[n - 2], ordered[n - 1], packPath)]
  }

  function MergedLines(lines: seq<string>): seq<string>
    requires |lines| >= 2
  {
    var n := |lines|;
    lines[..n - 2] + [lines[n - 2] + "\n" + lines[n - 1]]
  }

  lemma {:induction false} JoinMerged(lines: seq<string>)
    requires |lines| >= 2
    ensures Join(MergedLines(lines)) == Join(lines)
  {
    if |lines| == 2 {
      assert lines[1..] == [lines[1]];
      assert MergedLines(lines) == [lines[0] + "\n" + lines[1]];
    } else {
      JoinMerged(lines[1..]);
      assert MergedLines(lines)[1..] == MergedLines(lines[1..]);
    }
  }

  lemma MergedSorted(lines: seq<string>)
    requires |lines| >= 2 && Sorted(lines) && Distinct(lines)
    ensures Sorted(MergedLines(lines))
  {
    hide Less;
    var n := |lines|;
    var last := lines[n - 2] + "\n" + lines[n - 1];
    forall i | 0 <= i < n - 2
      ensures !Less(last, lines[i])
    {
      LessTotal(lines[i], lines[n - 2]);
      LessExtends(lines[i], lines[n - 2], "\n" + lines[n - 1]);
      assert lines[n - 2] + ("\n" + lines[n - 1]) == last;
      LessAsymmetric(lines[i], last);
    }
    LessIrreflexive(last);
  }

  lemma SortOfSorted(lines: seq<string>)
    requires Sorted(lines)
    ensures Sort(lines) == lines
  {
    SortSorts(lines);
    SortedUnique(Sort(lines), lines);
  }

  lemma PathsApart(a: seq<Record>, ordered: seq<Record>, lines: seq<string>, packPath: string, i: nat, j: nat)
    requires UniquePaths(a) && Lists(ordered, a, lines, packPath) && Distinct(lines) && i < j < |lines|
    ensures ordered[i].path != ordered[j].path
  {
    hide Entry;
    var k :| 0 <= k < |a| && a[k] == ordered[i];
    var m :| 0 <= m < |a| && a[m] == ordered[j];
    assert lines[i] != lines[j];
    assert k != m;
  }

  lemma MergedTree(a: seq<Record>, ordered: seq<Record>, packPath: string)
    requires Tree(a, packPath) && |a| >= 2 && forall r | r in a :: Plain(r)
    requires Lists(ordered, a, Sort(Entries(a, packPath)), packPath)
    ensures |ordered| >= 2 && (forall r | r in ordered :: Entry(r, packPath).Ok?)
    ensures Tree(Merged(ordered, packPath), packPath) && !SameRecords(a, Merged(ordered, packPath))
    ensures Entries(Merged(ordered, packPath), packPath) == MergedLines(Sort(Entries(a, packPath)))
  {
    hide Entry, Sort, RelativePath;
    LinesDistinct(a, packPath);
    var lines, n := Sort(Entries(a, packPath)), |a|;
    var b := Merged(ordered, packPath);
    assert ordered[n - 2] in ordered && ordered[n - 1] in ordered;
    ForgedEntry(ordered[n - 2], ordered[n - 1], packPath);
    assert b[n - 2] == Forged(ordered[n - 2], ordered[n - 1], packPath) && b[n - 2] in b;
    forall i | 0 <= i < |b|
      ensures Entry(b[i], packPath) == Ok(MergedLines(lines)[i]) && Digest(b[i].digest)
    {
      assert i < n - 2 ==> b[i] == ordered[i];
    }
    forall i, j | 0 <= i < j < |b|
      ensures b[i].path != b[j].path
    {
      assert b[i] == ordered[i] && ordered[i] in a;
      if j < n - 2 {
        PathsApart(a, ordered, lines, packPath, i, j);
      }
    }
    assert Entries(b, packPath) == MergedLines(lines);
  }

  lemma MergedCollides(a: seq<Record>, packPath: string) returns (b: seq<Record>)
    requires Tree(a, packPath) && |a| >= 2 && forall r | r in a :: Plain(r)
    ensures Tree(b, packPath) && !SameRecords(a, b) && Manifest(b, packPath) == Manifest(a, packPath)
  {
    hide Entry, Sort, Join, RelativePath;
    var ordered := InOrder(a, packPath);
    MergedTree(a, ordered, packPath);
    b := Merged(ordered, packPath);
    var lines := Sort(Entries(a, packPath));
    LinesDistinct(a, packPath);
    MergedSorted(lines);
    SortOfSorted(MergedLines(lines));
    JoinMerged(lines);
  }

  // ---------------------------------------------------------------- a single file cannot

  lemma JoinShowsBreak(lines: seq<string>)
    requires |lines| >= 2
    ensures !NoNewline(Join(lines))
  {
    assert Join(lines)[|lines[0]|] == '\n';
  }

  /** A newline-free line comes from a file with a newline-free name. */
  lemma PlainFromLine(r: Record, packPath: string)
    requires Entry(r, packPath).Ok? && NoNewline(Entry(r, packPath).value) && NoNewline(packPath) && Digest(r.digest)
    ensures Plain(r)
  {
    var rel, perm := RelativePath(r.path, packPath).value, ManifestPerm(r.mode).value;
    EntryParts(rel, perm, r.digest);
    var e := Entry(r, packPath).value;
    assert rel == e[..|e| - 70];
    assert NoNewline(rel);
    if packPath != "" {
      assert r.path == packPath + "/" + rel;
    }
  }

  lemma SingleIdentified(a: seq<Record>, packPath: string, b: seq<Record>)
    requires Tree(a, packPath) && |a| == 1 && Plain(a[0]) && Tree(b, packPath)
    requires Manifest(b, packPath) == Manifest(a, packPath)
    ensures SameRecords(a, b)
  {
    assert a[0] in a && b[0] in b;
    EntryNoNewline(a[0], packPath);
    assert NoNewline(packPath) by {
      if packPath != "" {
        assert a[0].path[..|packPath|] == packPath;
        assert forall c | c in a[0].path[..|packPath|] :: c in a[0].path;
      }
    }
    hide Entry, RelativePath, ManifestPerm;
    var ea, eb := Entries(a, packPath), Entries(b, packPath);
    assert ea == [ea[0]];
    SortOne(ea[0]);
    if |b| >= 2 {
      SortSorts(eb);
      assert |multiset(Sort(eb))| == |Sort(eb)| && |multiset(eb)| == |eb|;
      JoinShowsBreak(Sort(eb));
    } else {
      assert eb == [eb[0]];
      SortOne(eb[0]);
      PlainFromLine(b[0], packPath);
      SameValue(Entry(a[0], packPath), Entry(b[0], packPath));
      EntryInjective(a[0], b[0], packPath);
      assert a == [a[0]] && b == [b[0]];
    }
  }

  /** Among all trees, file names with newlines included, the manifest of a newline-free tree
      identifies it if and only if the tree is a single file. */
  lemma IdentifiedExactlyWhenSingle(a: seq<Record>, packPath: string)
    requires Tree(a, packPath) && forall r | r in a :: Plain(r)
    ensures Identified(a, packPath) <==> |a| == 1
  {
    hide Manifest, Entry, SameRecords;
    if |a| == 1 {
      assert a[0] in a;
      forall b: seq<Record> | Tree(b, packPath) && Manifest(b, packPath) == Manifest(a, packPath)
        ensures SameRecords(a, b)
      {
        SingleIdentified(a, packPath, b);
      }
    } else {
      NotEmpty(a, packPath);
      var b := MergedCollides(a, packPath);
    }
  }

  lemma NotEmpty(a: seq<Record>, packPath: string)
    requires Tree(a, packPath)
    ensures |a| >= 1
  {
  }
}
