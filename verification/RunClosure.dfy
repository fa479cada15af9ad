/** Which beads belong to a profiled run: the fixpoint over metadata links and dependencies.

    Source: profiler/scripts/profile_collect.py, `closure` and the sort after it. */
module RunClosure {
  import opened Text
  import opened Wrappers

  const LINK_KEYS: seq<string> :=
    ["gc.root_bead_id", "gc.parent_bead_id", "gc.source_bead_id", "gc.drain_control_id",
     "gc.drain_member_id", "gc.input_convoy_id", "gc.var.convoy_id", "gc.var.issue"]

  /** `other` is a dependency's depends_on_id or, failing that, its id. */
  datatype Bead = Bead(id: string, created: string, metadata: map<string, string>, dependencies: seq<string>)

  function Ids(beads: seq<Bead>): set<string> {
    set b | b in beads :: b.id
  }

  /** `by_id`: for a repeated id the last bead of the list wins. */
  function ById(beads: seq<Bead>): (m: map<string, Bead>)
    ensures m.Keys == Ids(beads)
    ensures forall id | id in m :: m[id] in beads && m[id].id == id
  {
    if beads == [] then map[]
    else
      var last := beads[|beads| - 1];
      ById(beads[..|beads| - 1])[last.id := last]
  }

  // ---------------------------------------------------------------- links

  predicate LinksByMetadata(b: Bead, x: string) {
    exists k | k in LINK_KEYS :: k in b.metadata && b.metadata[k] == x
  }

  /** `b` names `x` in a link key or a dependency. */
  predicate Names(b: Bead, x: string) {
    LinksByMetadata(b, x) || x in b.dependencies
  }

  /** The same as the reverse pass reads it: an empty metadata value counts as none. */
  predicate NamesBack(b: Bead, x: string) {
    (x != "" && LinksByMetadata(b, x)) || x in b.dependencies
  }

  /** One step of the closure: from the known id `a` to the stored id `b`. */
  predicate Edge(beads: seq<Bead>, a: string, b: string) {
    && a in Ids(beads) && b in Ids(beads)
    && ((exists r | r in beads :: r.id == b && Names(r, a)) || NamesBack(ById(beads)[a], b))
  }

  predicate Path(beads: seq<Bead>, path: seq<string>) {
    path != [] && forall i | 0 < i < |path| :: Edge(beads, path[i - 1], path[i])
  }

  ghost predicate Reachable(beads: seq<Bead>, root: string, x: string) {
    exists path | Path(beads, path) :: path[0] == root && path[|path| - 1] == x
  }

  lemma ReachableStep(beads: seq<Bead>, root: string, a: string, b: string)
    requires Reachable(beads, root, a) && Edge(beads, a, b)
    ensures Reachable(beads, root, b)
  {
    hide Edge;
    var path :| Path(beads, path) && path[0] == root && path[|path| - 1] == a;
    PathStep(beads, path, b);
    var longer := path + [b];
    assert longer[0] == root && longer[|longer| - 1] == b;
  }

  lemma PathStep(beads: seq<Bead>, path: seq<string>, b: string)
    requires Path(beads, path) && Edge(beads, path[|path| - 1], b)
    ensures Path(beads, path + [b])
  {
    hide Edge;
    var longer := path + [b];
    forall i | 0 < i < |longer|
      ensures Edge(beads, longer[i - 1], longer[i])
    {
      assert longer[i - 1] == path[i - 1];
    }
  }

  /** Nothing unknown is one step away. */
  predicate Closed(beads: seq<Bead>, known: set<string>) {
    forall a, b | a in known && b in Ids(beads) :: Edge(beads, a, b) ==> b in known
  }

  lemma {:induction false} ClosedCovers(beads: seq<Bead>, known: set<string>, path: seq<string>)
    requires Closed(beads, known) && Path(beads, path) && path[0] in known
    ensures path[|path| - 1] in known
  {
    if |path| > 1 {
      var n := |path| - 1;
      assert Path(beads, path[..n]);
      ClosedCovers(beads, known, path[..n]);
      assert Edge(beads, path[n - 1], path[n]);
    }
  }

  // ---------------------------------------------------------------- the fixpoint loop

  predicate Linked(b: Bead, known: set<string>) {
    exists x | x in known :: Names(b, x)
  }

  ghost predicate AllReachable(beads: seq<Bead>, root: string, known: set<string>) {
    known <= Ids(beads) && forall x | x in known :: Reachable(beads, root, x)
  }

  lemma AddLinked(beads: seq<Bead>, root: string, known: set<string>, b: Bead)
    requires AllReachable(beads, root, known) && b in beads && Linked(b, known)
    ensures AllReachable(beads, root, known + {b.id})
  {
    var a :| a in known && Names(b, a);
    assert Edge(beads, a, b.id);
    ReachableStep(beads, root, a, b.id);
  }

  lemma AddNamed(beads: seq<Bead>, root: string, known: set<string>, a: string, found: set<string>)
    requires AllReachable(beads, root, known) && a in known
    requires forall x | x in found :: x in Ids(beads) && NamesBack(ById(beads)[a], x)
    ensures AllReachable(beads, root, known + found)
  {
    hide NamesBack, Reachable;
    forall x | x in found ensures Reachable(beads, root, x) {
      assert Edge(beads, a, x);
      ReachableStep(beads, root, a, x);
    }
  }

  /** The first inner loop: a pass over all beads, adding those that name a known one. */
  method ForwardPass(beads: seq<Bead>, known0: set<string>, ghost root: string) returns (known: set<string>, changed: bool)
    requires AllReachable(beads, root, known0)
    ensures known0 <= known && AllReachable(beads, root, known)
    ensures changed <==> known != known0
    ensures !changed ==> forall b | b in beads && b.id !in known :: !Linked(b, known)
  {
    hide AllReachable, Names;
    known, changed := known0, false;
    for k := 0 to |beads|
      invariant known0 <= known && AllReachable(beads, root, known)
      invariant changed <==> known != known0
      invariant !changed ==> forall i | 0 <= i < k && beads[i].id !in known :: !Linked(beads[i], known)
    {
      var b := beads[k];
      if b.id !in known && Linked(b, known) {
        AddLinked(beads, root, known, b);
        known, changed := known + {b.id}, true;
      }
    }
  }

  /** What the reverse pass adds for one known bead. */
  function NamedBy(beads: seq<Bead>, b: Bead): set<string> {
    set x | x in Ids(beads) && NamesBack(b, x)
  }

  /** The second inner loop: beads known at its start may name unknown ones. The set is listed
      in an arbitrary order. */
  method ReversePass(beads: seq<Bead>, known0: set<string>, ghost root: string) returns (known: set<string>, changed: bool)
    requires AllReachable(beads, root, known0)
    ensures known0 <= known && AllReachable(beads, root, known)
    ensures changed <==> known != known0
    ensures !changed ==> forall a, x | a in known && x in Ids(beads) && x !in known :: !NamesBack(ById(beads)[a], x)
  {
    hide NamesBack, Reachable;
    known, changed := known0, false;
    var left := known0;
    var byId := ById(beads);
    while left != {}
      invariant left <= known0 <= known && AllReachable(beads, root, known)
      invariant changed <==> known != known0
      invariant !changed ==> forall a, x | a in known0 - left && x in Ids(beads) && x !in known :: !NamesBack(byId[a], x)
      decreases left
    {
      var a :| a in left;
      left := left - {a};
      var found := NamedBy(beads, byId[a]) - known;
      AddNamed(beads, root, known, a, found);
      if found != {} {
        known, changed := known + found, true;
      }
    }
  }

  /** The `while changed` loop: ends with exactly the ids reachable from the root. */
  method Fixpoint(beads: seq<Bead>, root: string) returns (known: set<string>)
    requires root in Ids(beads)
    ensures forall x :: x in known <==> Reachable(beads, root, x)
    ensures known <= Ids(beads)
  {
    known := {root};
    assert Path(beads, [root]);
    var changed := true;
    while changed
      invariant root in known && AllReachable(beads, root, known)
      invariant !changed ==> Closed(beads, known)
      decreases Ids(beads) - known, changed
    {
      var grew: bool;
      ghost var before := known;
      known, changed := ForwardPass(beads, known, root);
      known, grew := ReversePass(beads, known, root);
      changed := changed || grew;
    }
    forall x | Reachable(beads, root, x) ensures x in known {
      var path :| Path(beads, path) && path[0] == root && path[|path| - 1] == x;
      ClosedCovers(beads, known, path);
    }
  }

  // ---------------------------------------------------------------- the sorted result

  /** The final order: by creation time, ties by id. */
  predicate Before(a: Bead, b: Bead) {
    Less(a.created, b.created) || (a.created == b.created && Less(a.id, b.id))
  }

  predicate Ordered(s: seq<Bead>) {
    forall i, j | 0 <= i < j < |s| :: Before(s[i], s[j])
  }

  lemma BeforeTransitive(a: Bead, b: Bead, c: Bead)
    requires Before(a, b) && Before(b, c)
    ensures Before(a, c)
  {
    if Less(a.created, b.created) && Less(b.created, c.created) {
      LessTransitive(a.created, b.created, c.created);
    }
    if Less(a.id, b.id) && Less(b.id, c.id) {
      LessTransitive(a.id, b.id, c.id);
    }
  }

  lemma BeforeAsymmetric(a: Bead, b: Bead)
    ensures !(Before(a, b) && Before(b, a))
  {
    if Before(a, b) && Before(b, a) {
      BeforeTransitive(a, b, a);
      LessIrreflexive(a.created);
      LessIrreflexive(a.id);
    }
  }

  /** Python's stable `sort` by `created_at`: equal keys keep their order. */
  function InsertByCreated(x: Bead, s: seq<Bead>): seq<Bead> {
    if s == [] then [x]
    else
      var n := |s| - 1;
      if Less(x.created, s[n].created) then InsertByCreated(x, s[..n]) + [s[n]] else s + [x]
  }

  function SortByCreated(s: seq<Bead>): seq<Bead> {
    if s == [] then [] else InsertByCreated(s[|s| - 1], SortByCreated(s[..|s| - 1]))
  }

  lemma {:induction false} InsertByCreatedOrdered(x: Bead, s: seq<Bead>)
    requires Ordered(s) && forall y | y in s :: Less(y.id, x.id)
    ensures Ordered(InsertByCreated(x, s))
    ensures forall y :: y in InsertByCreated(x, s) <==> y == x || y in s
  {
    hide Less;
    if s != [] {
      var n := |s| - 1;
      var last := s[n];
      assert s == s[..n] + [last];
      if Less(x.created, last.created) {
        InsertByCreatedOrdered(x, s[..n]);
        var r := InsertByCreated(x, s[..n]);
        forall i | 0 <= i < |r| ensures Before(r[i], last) {
          assert r[i] in r;
          if r[i] != x {
            var k :| 0 <= k < n && s[..n][k] == r[i];
            assert s[k] == r[i];
          }
        }
      } else {
        forall i | 0 <= i < |s| ensures Before(s[i], x) {
          assert s[i] in s;
          LessTotal(last.created, x.created);
          assert Before(last, x);
          if i < n {
            BeforeTransitive(s[i], last, x);
          }
        }
      }
    }
  }

  lemma {:induction false} SortByCreatedOrdered(s: seq<Bead>)
    requires forall i, j | 0 <= i < j < |s| :: Less(s[i].id, s[j].id)
    ensures Ordered(SortByCreated(s))
    ensures forall y :: y in SortByCreated(s) <==> y in s
  {
    if s != [] {
      var n := |s| - 1;
      SortByCreatedOrdered(s[..n]);
      assert s == s[..n] + [s[n]];
      forall y | y in SortByCreated(s[..n]) ensures Less(y.id, s[n].id) {
        assert y in s[..n];
      }
      InsertByCreatedOrdered(s[n], SortByCreated(s[..n]));
    }
  }

  /** `list(known)`: the set in some order. */
  method Listed(known: set<string>) returns (list: seq<string>)
    ensures forall x :: x in list <==> x in known
    ensures forall i, j | 0 <= i < j < |list| :: list[i] != list[j]
  {
    list := [];
    var left := known;
    while left != {}
      invariant left <= known && forall x :: x in list <==> x in known - left
      invariant forall i, j | 0 <= i < j < |list| :: list[i] != list[j]
      decreases left
    {
      var x :| x in left;
      assert x !in list;
      forall y ensures y in list + [x] <==> y in known - (left - {x}) {
        assert y in list + [x] <==> y in list || y == x;
      }
      left, list := left - {x}, list + [x];
    }
  }

  lemma SortStrict(list: seq<string>)
    requires forall i, j | 0 <= i < j < |list| :: list[i] != list[j]
    ensures forall i, j | 0 <= i < j < |Sort(list)| :: Less(Sort(list)[i], Sort(list)[j])
    ensures forall x :: x in Sort(list) <==> x in list
  {
    var sorted := Sort(list);
    SortSorts(list);
    forall x ensures x in sorted <==> x in list {
      assert x in multiset(sorted) <==> x in sorted;
      assert x in multiset(list) <==> x in list;
    }
    forall i, j | 0 <= i < j < |sorted| ensures Less(sorted[i], sorted[j]) {
      LessTotal(sorted[i], sorted[j]);
      if sorted[i] == sorted[j] {
        NoRepeats(list, sorted[i]);
        RepeatCounts(sorted, i, j);
      }
    }
  }

  lemma {:induction false} NoRepeats(list: seq<string>, x: string)
    requires forall i, j | 0 <= i < j < |list| :: list[i] != list[j]
    ensures multiset(list)[x] <= 1
  {
    if list != [] {
      NoRepeats(list[1..], x);
      assert list == [list[0]] + list[1..];
      if x == list[0] {
        assert x !in list[1..];
        assert x !in multiset(list[1..]);
      }
    }
  }

  /** What the collected run has to be: every bead connected to the root, once, in order. */
  ghost predicate IsRun(beads: seq<Bead>, root: string, out: seq<Bead>) {
    && Ordered(out)
    && (forall b | b in out :: Reachable(beads, root, b.id) && b.id in Ids(beads) && b == ById(beads)[b.id])
    && (forall x | Reachable(beads, root, x) :: x in Ids(beads) && ById(beads)[x] in out)
  }

  /** `closure` with its result sorted as `main` sorts it; None for an unknown root. */
  method CollectRun(beads: seq<Bead>, root: string) returns (r: Option<seq<Bead>>)
    ensures r.Some? <==> root in Ids(beads)
    ensures r.Some? ==> IsRun(beads, root, r.value)
  {
    hide Reachable, Ids, Path, Edge, Less;
    var byId := ById(beads);
    if root !in byId {
      return None;
    }
    var known := Fixpoint(beads, root);
    var list := Listed(known);
    SortStrict(list);
    var ids := Sort(list);
    var run := seq(|ids|, i requires 0 <= i < |ids| => assert ids[i] in list; byId[ids[i]]);
    forall x | x in known ensures byId[x] in run {
      var i :| 0 <= i < |ids| && ids[i] == x;
      assert run[i] == byId[x];
    }
    SortByCreatedOrdered(run);
    return Some(SortByCreated(run));
  }

  lemma SameElementsBothEmpty(a: seq<Bead>, b: seq<Bead>)
    requires forall x :: x in a <==> x in b
    ensures a == [] <==> b == []
  {
    if a != [] {
      assert a[0] in b;
    }
    if b != [] {
      assert b[0] in a;
    }
  }

  /** There is only one such list. */
  lemma {:induction false} OrderedUnique(a: seq<Bead>, b: seq<Bead>)
    requires Ordered(a) && Ordered(b) && forall x :: x in a <==> x in b
    ensures a == b
  {
    hide Before;
    SameElementsBothEmpty(a, b);
    if a != [] {
      OrderedHead(a, b);
      OrderedHead(b, a);
      BeforeAsymmetric(a[0], b[0]);
      forall x ensures x in a[1..] <==> x in b[1..] {
        OrderedTail(a, x);
        OrderedTail(b, x);
      }
      OrderedUnique(a[1..], b[1..]);
    }
  }

  /** The head of `b` is not below the head of `a`. */
  lemma OrderedHead(a: seq<Bead>, b: seq<Bead>)
    requires Ordered(a) && a != [] && b != [] && b[0] in a
    ensures a[0] == b[0] || Before(a[0], b[0])
  {
  }

  lemma OrderedTail(a: seq<Bead>, x: Bead)
    requires Ordered(a) && a != []
    ensures x in a[1..] <==> x in a && x != a[0]
  {
    assert a == [a[0]] + a[1..];
    BeforeAsymmetric(a[0], a[0]);
  }

  // ---------------------------------------------------------------- unique ids: an undirected graph

  predicate UniqueIds(beads: seq<Bead>) {
    forall b, c | b in beads && c in beads && b.id == c.id :: b == c
  }

  /** With unique non-empty ids an edge only says that one of the two beads names the other. */
  predicate Adjacent(beads: seq<Bead>, a: string, b: string) {
    exists x, y | x in beads && y in beads :: x.id == a && y.id == b && (Names(y, a) || Names(x, b))
  }

  lemma EdgeIsAdjacency(beads: seq<Bead>, a: string, b: string)
    requires UniqueIds(beads) && "" !in Ids(beads)
    ensures Edge(beads, a, b) <==> Adjacent(beads, a, b)
  {
    hide LinksByMetadata;
    if Edge(beads, a, b) {
      var x, y := ById(beads)[a], ById(beads)[b];
      assert x in beads && y in beads;
      if r :| r in beads && r.id == b && Names(r, a) {
        assert r == y;
      }
    }
    if Adjacent(beads, a, b) {
      var x, y :| x in beads && y in beads && x.id == a && y.id == b && (Names(y, a) || Names(x, b));
      assert ById(beads)[a] == x;
    }
  }

  lemma AdjacentSymmetric(beads: seq<Bead>, a: string, b: string)
    ensures Adjacent(beads, a, b) <==> Adjacent(beads, b, a)
  {
    hide Names;
  }

  lemma {:induction false} ReversedPath(beads: seq<Bead>, path: seq<string>)
    requires UniqueIds(beads) && "" !in Ids(beads) && Path(beads, path)
    ensures Reachable(beads, path[|path| - 1], path[0])
  {
    hide Edge, Adjacent;
    var n := |path| - 1;
    var back := seq(|path|, i requires 0 <= i <= n => path[n - i]);
    forall i | 0 < i < |back| ensures Edge(beads, back[i - 1], back[i]) {
      EdgeIsAdjacency(beads, path[n - i], path[n - i + 1]);
      AdjacentSymmetric(beads, path[n - i], path[n - i + 1]);
      EdgeIsAdjacency(beads, path[n - i + 1], path[n - i]);
    }
    assert Path(beads, back);
  }

  /** So the run is a connected component: it is the same seen from any of its beads. */
  lemma ReachableSymmetric(beads: seq<Bead>, a: string, b: string)
    requires UniqueIds(beads) && "" !in Ids(beads)
    ensures Reachable(beads, a, b) <==> Reachable(beads, b, a)
  {
    if Reachable(beads, a, b) {
      var path :| Path(beads, path) && path[0] == a && path[|path| - 1] == b;
      ReversedPath(beads, path);
    }
    if Reachable(beads, b, a) {
      var path :| Path(beads, path) && path[0] == b && path[|path| - 1] == a;
      ReversedPath(beads, path);
    }
  }

  lemma SameEdges(beads: seq<Bead>, other: seq<Bead>, a: string, b: string)
    requires UniqueIds(beads) && "" !in Ids(beads) && forall x :: x in beads <==> x in other
    ensures Edge(beads, a, b) <==> Edge(other, a, b)
  {
    hide Names, Edge;
    EdgeIsAdjacency(beads, a, b);
    EdgeIsAdjacency(other, a, b);
  }

  lemma SameReachable(beads: seq<Bead>, other: seq<Bead>, root: string, x: string)
    requires UniqueIds(beads) && "" !in Ids(beads) && forall b :: b in beads <==> b in other
    ensures Reachable(beads, root, x) ==> Reachable(other, root, x)
  {
    hide Edge;
    if Reachable(beads, root, x) {
      var path :| Path(beads, path) && path[0] == root && path[|path| - 1] == x;
      forall i | 0 < i < |path| ensures Edge(other, path[i - 1], path[i]) {
        SameEdges(beads, other, path[i - 1], path[i]);
      }
      assert Path(other, path);
    }
  }

  /** The collected run does not depend on the order in which the store lists its beads. */
  lemma RunIgnoresListing(beads: seq<Bead>, other: seq<Bead>, root: string, out: seq<Bead>, out': seq<Bead>)
    requires UniqueIds(beads) && "" !in Ids(beads) && forall b :: b in beads <==> b in other
    requires IsRun(beads, root, out) && IsRun(other, root, out')
    ensures out == out'
  {
    forall x ensures Reachable(beads, root, x) <==> Reachable(other, root, x) {
      SameReachable(beads, other, root, x);
      SameReachable(other, beads, root, x);
    }
    forall id | id in Ids(beads) && id in Ids(other) ensures ById(beads)[id] == ById(other)[id] {
      assert ById(beads)[id] in beads && ById(other)[id] in other;
    }
    assert Ids(beads) == Ids(other);
    hide Reachable, Ordered;
    forall b ensures b in out <==> b in out' {
    }
    OrderedUnique(out, out');
  }
}
