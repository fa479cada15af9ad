/** The canonical manifest behind a pack's content hash: one line per tracked file, sorted
    and joined.

    Source: validate_registry.py, `git_pack_content_hash` and its helpers. */
module ContentManifest {
  import opened Text
  import opened Wrappers

  /** One record of `git ls-tree -r -z`; `digest` is the SHA-256 of the blob, in hex. */
  datatype Record = Record(mode: string, kind: string, path: string, digest: string)

  function RelativePath(gitPath: string, packPath: string): Result<string, string> {
    if packPath == "" then Ok(gitPath)
    else
      var prefix := packPath + "/";
      if !(prefix <= gitPath) then Err("outside pack path")
      else if gitPath == prefix then Err("empty relative path")
      else Ok(gitPath[|prefix|..])
  }

  function ManifestPerm(mode: string): Result<string, string> {
    if mode == "100644" then Ok("0644")
    else if mode == "100755" then Ok("0755")
    else if mode == "120000" then Ok("0777")
    else Err("unsupported git file mode")
  }

  /** The manifest line of one record. */
  function Entry(r: Record, packPath: string): Result<string, string> {
    if r.kind != "blob" then Err("unsupported git object type")
    else
      var rel, perm := RelativePath(r.path, packPath), ManifestPerm(r.mode);
      if rel.Err? then Err(rel.error)
      else if perm.Err? then Err(perm.error)
      else Ok(rel.value + " " + perm.value + " " + r.digest)
  }

  function Entries(records: seq<Record>, packPath: string): seq<string>
    requires forall r | r in records :: Entry(r, packPath).Ok?
  {
    seq(|records|, i requires 0 <= i < |records| => assert records[i] in records; Entry(records[i], packPath).value)
  }

  function Join(lines: seq<string>): string {
    if lines == [] then ""
    else if |lines| == 1 then lines[0]
    else lines[0] + "\n" + Join(lines[1..])
  }

  /** A tree the hash accepts: at least one file, every record usable. */
  predicate Accepted(records: seq<Record>, packPath: string) {
    records != [] && forall r | r in records :: Entry(r, packPath).Ok?
  }

  function Manifest(records: seq<Record>, packPath: string): string
    requires Accepted(records, packPath)
  {
    Join(Sort(Entries(records, packPath)))
  }

  /** The loop of `git_pack_content_hash` and the join after it. */
  method BuildManifest(records: seq<Record>, packPath: string) returns (r: Result<string, string>)
    ensures r.Ok? <==> Accepted(records, packPath)
    ensures r.Ok? ==> r.value == Manifest(records, packPath)
  {
    var entries: seq<string> := [];
    for k := 0 to |records|
      invariant forall i | 0 <= i < k :: Entry(records[i], packPath).Ok?
      invariant |entries| == k && forall i | 0 <= i < k :: entries[i] == Entry(records[i], packPath).value
    {
      var record := records[k];
      if record.kind != "blob" {
        assert record in records;
        return Err("unsupported git object type");
      }
      var rel := RelativePath(record.path, packPath);
      var perm := ManifestPerm(record.mode);
      if rel.Err? || perm.Err? {
        assert record in records;
        return Err(if rel.Err? then rel.error else perm.error);
      }
      entries := entries + [rel.value + " " + perm.value + " " + record.digest];
    }
    if entries == [] {
      return Err("no tracked files");
    }
    assert entries == Entries(records, packPath);
    return Ok(Join(Sort(entries)));
  }

  // ---------------------------------------------------------------- reading a manifest back

  predicate NoNewline(s: string) {
    '\n' !in s
  }

  /** Lines without newlines survive being joined. */
  lemma {:induction false} SplitJoin(lines: seq<string>)
    requires lines != [] && forall l | l in lines :: NoNewline(l)
    ensures Split(Join(lines), '\n') == lines
  {
    assert lines[0] in lines;
    if |lines| == 1 {
      SplitPiece(lines[0], '\n', "");
      assert lines == [lines[0]];
    } else {
      SplitJoin(lines[1..]);
      SplitPiece(lines[0], '\n', Join(lines[1..]));
      assert lines == [lines[0]] + lines[1..];
    }
  }

  /** A digest as `hexdigest` prints it, and a path git can list on one line. */
  predicate Plain(r: Record) {
    |r.digest| == 64 && NoNewline(r.digest) && NoNewline(r.path)
  }

  lemma EntryParts(rel: string, perm: string, digest: string)
    requires |perm| == 4 && |digest| == 64
    ensures var e := rel + " " + perm + " " + digest; var n := |e|;
      n >= 70 && e[n - 64..] == digest && e[n - 69..n - 65] == perm && e[..n - 70] == rel
  {
  }

  /** A line determines its record: path, mode and digest, spaces in paths included. */
  lemma EntryInjective(a: Record, b: Record, packPath: string)
    requires Entry(a, packPath).Ok? && Entry(a, packPath) == Entry(b, packPath) && Plain(a) && Plain(b)
    ensures a == b
  {
    var rel, rel' := RelativePath(a.path, packPath).value, RelativePath(b.path, packPath).value;
    var perm, perm' := ManifestPerm(a.mode).value, ManifestPerm(b.mode).value;
    EntryParts(rel, perm, a.digest);
    EntryParts(rel', perm', b.digest);
    assert a.digest == b.digest && perm == perm' && rel == rel';
    assert a.mode == b.mode by {
      assert "0644"[2] == '4' && "0755"[2] == '5' && "0777"[2] == '7';
    }
    assert a.path == b.path by {
      if packPath != "" {
        assert a.path == packPath + "/" + rel && b.path == packPath + "/" + rel;
      }
    }
  }

  lemma EntryNoNewline(r: Record, packPath: string)
    requires Entry(r, packPath).Ok? && Plain(r)
    ensures NoNewline(Entry(r, packPath).value)
  {
  }

  // ---------------------------------------------------------------- what a manifest identifies

  /** A git tree lists each path once. */
  predicate UniquePaths(records: seq<Record>) {
    forall i, j | 0 <= i < j < |records| :: records[i].path != records[j].path
  }

  predicate Distinct(s: seq<string>) {
    forall i, j | 0 <= i < j < |s| :: s[i] != s[j]
  }

  lemma {:induction false} DistinctCount(s: seq<string>, x: string)
    requires Distinct(s)
    ensures multiset(s)[x] == if x in s then 1 else 0
  {
    if s != [] {
      DistinctCount(s[1..], x);
      assert s == [s[0]] + s[1..];
    }
  }

  lemma SameElements(a: seq<string>, b: seq<string>)
    requires Distinct(a) && Distinct(b) && forall x :: x in a <==> x in b
    ensures multiset(a) == multiset(b)
  {
    forall x ensures multiset(a)[x] == multiset(b)[x] {
      DistinctCount(a, x);
      DistinctCount(b, x);
    }
  }

  lemma EntriesDistinct(records: seq<Record>, packPath: string)
    requires Accepted(records, packPath) && UniquePaths(records) && forall r | r in records :: |r.digest| == 64
    ensures Distinct(Entries(records, packPath))
  {
    var es := Entries(records, packPath);
    forall i, j | 0 <= i < j < |es| ensures es[i] != es[j] {
      assert records[i] in records && records[j] in records;
      SameEntrySamePath(records[i], records[j], packPath);
    }
  }

  lemma SameEntrySamePath(a: Record, b: Record, packPath: string)
    requires Entry(a, packPath).Ok? && Entry(b, packPath).Ok? && |a.digest| == |b.digest| == 64
    ensures Entry(a, packPath) == Entry(b, packPath) ==> a.path == b.path
  {
    if Entry(a, packPath) == Entry(b, packPath) {
      var rel, rel' := RelativePath(a.path, packPath).value, RelativePath(b.path, packPath).value;
      EntryParts(rel, ManifestPerm(a.mode).value, a.digest);
      EntryParts(rel', ManifestPerm(b.mode).value, b.digest);
      if packPath != "" {
        assert a.path == packPath + "/" + rel && b.path == packPath + "/" + rel';
      }
    }
  }

  predicate SameRecords(a: seq<Record>, b: seq<Record>) {
    (forall r | r in a :: r in b) && (forall r | r in b :: r in a)
  }

  lemma EntriesOfSameRecords(a: seq<Record>, b: seq<Record>, packPath: string, x: string)
    requires Accepted(a, packPath) && Accepted(b, packPath) && SameRecords(a, b)
    ensures x in Entries(a, packPath) ==> x in Entries(b, packPath)
  {
    if x in Entries(a, packPath) {
      var i :| 0 <= i < |a| && Entries(a, packPath)[i] == x;
      assert a[i] in a && a[i] in b;
      var j :| 0 <= j < |b| && b[j] == a[i];
      assert Entries(b, packPath)[j] == x;
    }
  }

  /** The manifest does not depend on the order in which git lists the tree. */
  lemma ManifestIgnoresListing(a: seq<Record>, b: seq<Record>, packPath: string)
    requires Accepted(a, packPath) && Accepted(b, packPath) && UniquePaths(a) && UniquePaths(b)
    requires forall r | r in a :: |r.digest| == 64
    requires SameRecords(a, b)
    ensures Manifest(a, packPath) == Manifest(b, packPath)
  {
    hide Entry, Entries, Sort, Join;
    var ea, eb := Entries(a, packPath), Entries(b, packPath);
    EntriesDistinct(a, packPath);
    EntriesDistinct(b, packPath);
    forall x ensures x in ea <==> x in eb {
      EntriesOfSameRecords(a, b, packPath, x);
      EntriesOfSameRecords(b, a, packPath, x);
    }
    SameElements(ea, eb);
    SortSorts(ea);
    SortSorts(eb);
    SortedUnique(Sort(ea), Sort(eb));
  }

  /** The lines of a manifest are the entries it was built from. */
  lemma ManifestLines(records: seq<Record>, packPath: string)
    requires Accepted(records, packPath) && forall r | r in records :: Plain(r)
    ensures multiset(Split(Manifest(records, packPath), '\n')) == multiset(Entries(records, packPath))
  {
    hide Entry, Plain;
    var es := Entries(records, packPath);
    SortSorts(es);
    assert |Sort(es)| == |multiset(Sort(es))| == |es|;
    forall l | l in Sort(es) ensures NoNewline(l) {
      assert l in multiset(Sort(es));
      var i :| 0 <= i < |es| && es[i] == l;
      assert records[i] in records;
      EntryNoNewline(records[i], packPath);
    }
    SplitJoin(Sort(es));
  }

  lemma RecordFromLine(a: seq<Record>, b: seq<Record>, packPath: string, r: Record)
    requires Accepted(a, packPath) && Accepted(b, packPath) && r in a
    requires (forall r | r in a :: Plain(r)) && (forall r | r in b :: Plain(r))
    requires multiset(Entries(a, packPath)) == multiset(Entries(b, packPath))
    ensures r in b
  {
    hide Entry, Plain;
    var i :| 0 <= i < |a| && a[i] == r;
    var line := Entries(a, packPath)[i];
    assert line in multiset(Entries(b, packPath));
    var j :| 0 <= j < |b| && Entries(b, packPath)[j] == line;
    assert b[j] in b;
    assert Entry(r, packPath) == Entry(b[j], packPath) by { SameValue(Entry(r, packPath), Entry(b[j], packPath)); }
    EntryInjective(r, b[j], packPath);
  }

  lemma SameValue(a: Result<string, string>, b: Result<string, string>)
    requires a.Ok? && b.Ok? && a.value == b.value
    ensures a == b
  {
  }

  /** For trees whose paths fit on a line, two manifests are equal exactly when the trees have
      the same paths with the same modes and the same contents. */
  lemma ManifestIdentifiesTree(a: seq<Record>, b: seq<Record>, packPath: string)
    requires Accepted(a, packPath) && Accepted(b, packPath) && UniquePaths(a) && UniquePaths(b)
    requires (forall r | r in a :: Plain(r)) && (forall r | r in b :: Plain(r))
    ensures Manifest(a, packPath) == Manifest(b, packPath) <==> SameRecords(a, b)
  {
    if SameRecords(a, b) {
      ManifestIgnoresListing(a, b, packPath);
    }
    hide Entry, Entries, Sort, Join, Plain;
    if Manifest(a, packPath) == Manifest(b, packPath) {
      ManifestLines(a, packPath);
      ManifestLines(b, packPath);
      forall r | r in a ensures r in b { RecordFromLine(a, b, packPath, r); }
      forall r | r in b ensures r in a { RecordFromLine(b, a, packPath, r); }
    }
  }

  /** Without that, a file name can carry a whole line: one file stands for two. */
  lemma NewlinePathForgesEntry(d: string, e: string)
    requires |d| == 64 && |e| == 64
    ensures var one := [Record("100644", "blob", "a 0644 " + d + "\n" + "b", e)];
      var two := [Record("100644", "blob", "a", d), Record("100644", "blob", "b", e)];
      && Accepted(one, "") && Accepted(two, "") && UniquePaths(two)
      && Manifest(one, "") == Manifest(two, "") && !SameRecords(one, two)
  {
    var one := [Record("100644", "blob", "a 0644 " + d + "\n" + "b", e)];
    var two := [Record("100644", "blob", "a", d), Record("100644", "blob", "b", e)];
    var x, y := "a" + " " + "0644" + " " + d, "b" + " " + "0644" + " " + e;
    var line := "a 0644 " + d + "\n" + "b" + " " + "0644" + " " + e;
    assert Entries(one, "") == [line] && Entries(two, "") == [x, y];
    SortOne(line);
    assert Sort([x, y]) == [x, y] by {
      SortOne(y);
      assert [x, y][1..] == [y];
      assert x[0] < y[0] && !Less(y, x);
    }
    assert [x, y][1..] == [y];
    assert Join([x, y]) == x + "\n" + y;
    assert x == "a 0644 " + d;
    assert x + "\n" + y == line;
    assert one[0] in one;
    assert one[0].path != "a" && one[0].path != "b" by { assert |one[0].path| > 1; }
  }

  lemma SortOne(x: string)
    ensures Sort([x]) == [x]
  {
    var none: seq<string> := [x][1..];
    assert none == [];
  }
}
