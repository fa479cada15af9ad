/** Rule matching on webhook payloads: match tables are flattened to dotted paths once and
    looked up path by path.

    Source: github/scripts/github_intake_common.py, `_flatten_match`, `payload_value` and
    `rule_matches`. */
module RuleMatching {
  import opened Text
  import opened Wrappers

  /** A match table as TOML gives it: leaves hold the string form of the expected value. */
  datatype Table = Leaf(expected: string) | Dict(entries: Entries)
  datatype Entries = Nil | Cons(key: string, child: Table, rest: Entries)

  /** A JSON payload; only objects are looked into. */
  datatype Json = Object(fields: map<string, Json>) | Null | Scalar(text: string) | Array(items: seq<Json>)

  /** Python's str() on a payload value; missing values and null both come out as None. */
  type Render = Json -> string

  // ---------------------------------------------------------------- dotted paths

  /** The keys a dotted path names. */
  function Parts(path: string): (parts: seq<string>)
    ensures parts != []
  {
    Split(path, '.')
  }

  /** `payload_value`, for the parts of a path. Outside of objects everything is missing. */
  function Lookup(payload: Json, parts: seq<string>): Json
    decreases |parts|
  {
    if parts == [] then payload
    else if payload.Object? && parts[0] in payload.fields then Lookup(payload.fields[parts[0]], parts[1..])
    else Null
  }

  /** `payload_value` as the loop it is. */
  method PayloadValue(payload: Json, dottedPath: string) returns (r: Json)
    ensures r == Lookup(payload, Parts(dottedPath))
  {
    var parts := Parts(dottedPath);
    r := payload;
    for k := 0 to |parts|
      invariant Lookup(payload, parts) == Lookup(r, parts[k..])
    {
      LookupNull(parts[k + 1..]);
      if !r.Object? {
        return Null;
      }
      r := if parts[k] in r.fields then r.fields[parts[k]] else Null;
    }
  }

  lemma LookupNull(parts: seq<string>)
    ensures Lookup(Null, parts) == Null
  {
  }

  // ---------------------------------------------------------------- flattening

  function Dotted(prefix: string, key: string): string {
    if prefix != "" then prefix + "." + key else key
  }

  /** `_flatten_match`: later writes to the same dotted key win. */
  function Flatten(prefix: string, t: Table, out: map<string, string>): map<string, string>
    decreases t
  {
    match t
    case Leaf(expected) => out[prefix := expected]
    case Dict(entries) => FlattenAll(prefix, entries, out)
  }

  function FlattenAll(prefix: string, entries: Entries, out: map<string, string>): map<string, string>
    decreases entries
  {
    match entries
    case Nil => out
    case Cons(key, child, rest) => FlattenAll(prefix, rest, Flatten(Dotted(prefix, key), child, out))
  }

  /** The match part of `rule_matches`, on a flattened table. */
  predicate FlatMatches(flat: map<string, string>, payload: Json, str: Render) {
    forall path | path in flat :: str(Lookup(payload, Parts(path))) == flat[path]
  }

  // ---------------------------------------------------------------- what a rule table means

  function Child(payload: Json, key: string): Json {
    if payload.Object? && key in payload.fields then payload.fields[key] else Null
  }

  /** The nested table holds of the payload, level by level. */
  predicate Matches(t: Table, payload: Json, str: Render)
    decreases t
  {
    match t
    case Leaf(expected) => str(payload) == expected
    case Dict(entries) => MatchesAll(entries, payload, str)
  }

  predicate MatchesAll(entries: Entries, payload: Json, str: Render)
    decreases entries
  {
    match entries
    case Nil => true
    case Cons(key, child, rest) => Matches(child, Child(payload, key), str) && MatchesAll(rest, payload, str)
  }

  predicate HasLeaf(t: Table)
    decreases t
  {
    t.Dict? ==> HasLeafIn(t.entries)
  }

  predicate HasLeafIn(entries: Entries)
    decreases entries
  {
    entries.Cons? && (HasLeaf(entries.child) || HasLeafIn(entries.rest))
  }

  /** The keys that a leaf stands below. */
  function LeafKeys(entries: Entries): set<string> {
    match entries
    case Nil => {}
    case Cons(key, child, rest) => (if HasLeaf(child) then {key} else {}) + LeafKeys(rest)
  }

  function Keys(entries: Entries): set<string> {
    match entries
    case Nil => {}
    case Cons(key, _, rest) => {key} + Keys(rest)
  }

  /** Keys are not empty, and each occurs once in its table. */
  predicate Proper(t: Table)
    decreases t
  {
    t.Dict? ==> ProperAll(t.entries)
  }

  predicate ProperAll(entries: Entries)
    decreases entries
  {
    match entries
    case Nil => true
    case Cons(key, child, rest) => key != "" && key !in Keys(rest) && Proper(child) && ProperAll(rest)
  }

  /** No key with a dot stands above a leaf. */
  predicate DotFree(t: Table)
    decreases t
  {
    t.Dict? ==> DotFreeAll(t.entries)
  }

  predicate DotFreeAll(entries: Entries)
    decreases entries
  {
    match entries
    case Nil => true
    case Cons(key, child, rest) => (HasLeaf(child) ==> '.' !in key && DotFree(child)) && DotFreeAll(rest)
  }

  // ---------------------------------------------------------------- splitting undoes joining

  /** The dotted form of a path of keys. */
  function JoinDots(parts: seq<string>): string {
    if parts == [] then "" else Dotted(JoinDots(parts[..|parts| - 1]), parts[|parts| - 1])
  }

  predicate PlainKeys(parts: seq<string>) {
    forall key | key in parts :: '.' !in key && key != ""
  }

  lemma {:induction false} SplitLast(a: string, key: string)
    requires '.' !in key
    ensures Parts(a + "." + key) == Parts(a) + [key]
  {
    if a == "" {
      SplitPiece(key, '.', "");
      assert "" + "." + key == ['.'] + key && (['.'] + key)[1..] == key;
    } else {
      assert (a + "." + key)[1..] == a[1..] + "." + key;
      SplitLast(a[1..], key);
    }
  }

  lemma {:induction false} SplitJoinDots(parts: seq<string>)
    requires PlainKeys(parts) && parts != []
    ensures Parts(JoinDots(parts)) == parts && JoinDots(parts) != ""
  {
    var n := |parts| - 1;
    assert parts[n] in parts;
    assert parts == parts[..n] + [parts[n]];
    if n == 0 {
      SplitPiece(parts[0], '.', "");
    } else {
      SplitJoinDots(parts[..n]);
      SplitLast(JoinDots(parts[..n]), parts[n]);
    }
  }

  lemma {:induction false} LookupLast(payload: Json, parts: seq<string>, key: string)
    ensures Lookup(payload, parts + [key]) == Child(Lookup(payload, parts), key)
    decreases |parts|
  {
    if parts == [] {
      assert [key][1..] == [];
    } else {
      assert (parts + [key])[1..] == parts[1..] + [key];
      if payload.Object? && parts[0] in payload.fields {
        LookupLast(payload.fields[parts[0]], parts[1..], key);
      }
    }
  }

  // ---------------------------------------------------------------- flattening keeps the meaning

  /** No path already written lies below `parts`. */
  predicate Fresh(out: map<string, string>, parts: seq<string>) {
    forall path | path in out :: !(parts <= Parts(path))
  }

  predicate FreshAll(out: map<string, string>, parts: seq<string>, keys: set<string>) {
    forall path, key | path in out && key in keys :: !(parts + [key] <= Parts(path))
  }

  /** Flattening adds paths below `parts` only, and keeps what was there. */
  predicate Extends(out: map<string, string>, more: map<string, string>, parts: seq<string>) {
    && (forall path | path in out :: path in more && more[path] == out[path])
    && (forall path | path in more :: path in out || parts <= Parts(path))
  }

  lemma {:induction false} FlattenMeans(parts: seq<string>, t: Table, out: map<string, string>, payload: Json, str: Render)
    requires PlainKeys(parts) && parts != [] && Proper(t) && DotFree(t) && HasLeaf(t) && Fresh(out, parts)
    ensures var flat := Flatten(JoinDots(parts), t, out);
      && Extends(out, flat, parts)
      && (FlatMatches(flat, payload, str) <==> FlatMatches(out, payload, str) && Matches(t, Lookup(payload, parts), str))
    decreases t
  {
    SplitJoinDots(parts);
    match t {
      case Leaf(expected) =>
        var path := JoinDots(parts);
        assert path !in out;
        assert FlatMatches(out[path := expected], payload, str) ==> forall p | p in out :: out[path := expected][p] == out[p];
      case Dict(entries) =>
        forall path, key | path in out && key in LeafKeys(entries) ensures !(parts + [key] <= Parts(path)) {
          assert parts <= parts + [key];
        }
        FlattenAllMeans(parts, entries, out, payload, str);
    }
  }

  lemma {:induction false} FlattenAllMeans(parts: seq<string>, entries: Entries, out: map<string, string>, payload: Json, str: Render)
    requires PlainKeys(parts) && ProperAll(entries) && DotFreeAll(entries) && FreshAll(out, parts, LeafKeys(entries))
    ensures var flat := FlattenAll(JoinDots(parts), entries, out);
      && Extends(out, flat, parts)
      && (FlatMatches(flat, payload, str) <==> FlatMatches(out, payload, str) && MatchesAll(entries, Lookup(payload, parts), str))
    decreases entries
  {
    if entries.Cons? {
      var Cons(key, child, rest) := entries;
      if !HasLeaf(child) {
        LeaflessIsNothing(Dotted(JoinDots(parts), key), child, out, Child(Lookup(payload, parts), key), str);
        FlattenAllMeans(parts, rest, out, payload, str);
        return;
      }
      var below := parts + [key];
      assert below[..|parts|] == parts;
      var mid := Flatten(JoinDots(below), child, out);
      FlattenMeans(below, child, out, payload, str);
      LookupLast(payload, parts, key);
      LeafKeysAreKeys(rest);
      forall path, k | path in mid && k in LeafKeys(rest) ensures !(parts + [k] <= Parts(path)) {
        if path !in out {
          SiblingsApart(parts, key, k, Parts(path));
        }
      }
      FlattenAllMeans(parts, rest, mid, payload, str);
      ExtendsChain(out, mid, FlattenAll(JoinDots(parts), rest, mid), parts, key);
    }
  }

  lemma {:induction false} LeafKeysAreKeys(entries: Entries)
    ensures LeafKeys(entries) <= Keys(entries)
  {
    if entries.Cons? {
      LeafKeysAreKeys(entries.rest);
    }
  }

  /** A table without leaves asks for nothing, either way. */
  lemma {:induction false} LeaflessIsNothing(prefix: string, t: Table, out: map<string, string>, payload: Json, str: Render)
    requires !HasLeaf(t)
    ensures Flatten(prefix, t, out) == out && Matches(t, payload, str)
    decreases t
  {
    LeaflessAllNothing(prefix, t.entries, out, payload, str);
  }

  lemma {:induction false} LeaflessAllNothing(prefix: string, entries: Entries, out: map<string, string>, payload: Json, str: Render)
    requires !HasLeafIn(entries)
    ensures FlattenAll(prefix, entries, out) == out && MatchesAll(entries, payload, str)
    decreases entries
  {
    if entries.Cons? {
      LeaflessIsNothing(Dotted(prefix, entries.key), entries.child, out, Child(payload, entries.key), str);
      LeaflessAllNothing(prefix, entries.rest, out, payload, str);
    }
  }

  lemma SiblingsApart(parts: seq<string>, j: string, k: string, path: seq<string>)
    requires j != k && parts + [j] <= path
    ensures !(parts + [k] <= path)
  {
    assert path[|parts|] == (parts + [j])[|parts|] == j;
    assert (parts + [k])[|parts|] == k;
  }

  lemma ExtendsChain(out: map<string, string>, mid: map<string, string>, flat: map<string, string>, parts: seq<string>, key: string)
    requires Extends(out, mid, parts + [key]) && Extends(mid, flat, parts)
    ensures Extends(out, flat, parts)
  {
    forall path | path in flat && path !in out ensures parts <= Parts(path) {
      if path in mid {
        assert parts <= parts + [key] <= Parts(path);
      }
    }
  }

  /** For every table in which no dotted key stands above a leaf, for every payload and every way of
      printing values: matching by flattened paths is matching level by level. */
  lemma FlatMatchingIsNestedMatching(entries: Entries, payload: Json, str: Render)
    requires ProperAll(entries) && DotFreeAll(entries)
    ensures FlatMatches(Flatten("", Dict(entries), map[]), payload, str) <==> Matches(Dict(entries), payload, str)
  {
    FlattenAllMeans([], entries, map[], payload, str);
  }

  /** `rule_matches`. */
  method RuleMatches(ruleEvent: string, flat: map<string, string>, event: string, payload: Json, str: Render) returns (r: bool)
    ensures r <==> ruleEvent == event && FlatMatches(flat, payload, str)
  {
    if ruleEvent != event {
      return false;
    }
    var left := flat.Keys;
    while left != {}
      invariant left <= flat.Keys
      invariant forall path | path in flat && path !in left :: str(Lookup(payload, Parts(path))) == flat[path]
      decreases left
    {
      var path :| path in left;
      left := left - {path};
      var actual := PayloadValue(payload, path);
      if str(actual) != flat[path] {
        return false;
      }
    }
    return true;
  }

  // ---------------------------------------------------------------- exactly when the two agree

  predicate LeafAt(t: Table, path: seq<string>, text: string)
    decreases t
  {
    match t
    case Leaf(expected) => path == [] && text == expected
    case Dict(entries) => path != [] && LeafIn(entries, path, text)
  }

  predicate LeafIn(entries: Entries, path: seq<string>, text: string)
    requires path != []
    decreases entries
  {
    entries.Cons? && ((entries.key == path[0] && LeafAt(entries.child, path[1..], text)) || LeafIn(entries.rest, path, text))
  }

  function Texts(t: Table): set<string>
    decreases t
  {
    match t
    case Leaf(expected) => {expected}
    case Dict(entries) => TextsIn(entries)
  }

  function TextsIn(entries: Entries): set<string>
    decreases entries
  {
    match entries
    case Nil => {}
    case Cons(_, child, rest) => Texts(child) + TextsIn(rest)
  }

  /** Scalars print as their text, and nothing else prints as a text the table expects. */
  ghost predicate Faithful(str: Render, texts: set<string>) {
    && (forall text: string :: str(Scalar(text)) == text)
    && (forall v: Json | str(v) in texts :: v.Scalar?)
  }

  /** The payload that has just what the table asks for. */
  function Built(t: Table): Json
    decreases t
  {
    match t
    case Leaf(expected) => Scalar(expected)
    case Dict(entries) => Object(BuiltAll(entries))
  }

  function BuiltAll(entries: Entries): (fields: map<string, Json>)
    ensures fields.Keys == Keys(entries)
    decreases entries
  {
    match entries
    case Nil => map[]
    case Cons(key, child, rest) => BuiltAll(rest)[key := Built(child)]
  }

  lemma {:induction false} BuiltMatches(t: Table, str: Render)
    requires Proper(t) && forall text: string :: str(Scalar(text)) == text
    ensures Matches(t, Built(t), str)
    decreases t
  {
    if t.Dict? {
      BuiltAllMatches(t.entries, BuiltAll(t.entries), str);
    }
  }

  lemma {:induction false} BuiltAllMatches(entries: Entries, fields: map<string, Json>, str: Render)
    requires ProperAll(entries) && forall text: string :: str(Scalar(text)) == text
    requires forall key | key in BuiltAll(entries) :: key in fields && fields[key] == BuiltAll(entries)[key]
    ensures MatchesAll(entries, Object(fields), str)
    decreases entries
  {
    if entries.Cons? {
      BuiltMatches(entries.child, str);
      assert entries.key in BuiltAll(entries);
      assert forall key | key in BuiltAll(entries.rest) :: key in BuiltAll(entries) && BuiltAll(entries)[key] == BuiltAll(entries.rest)[key];
      BuiltAllMatches(entries.rest, fields, str);
    }
  }

  /** Down to a leaf the built payload has objects, and at the leaf its text. */
  lemma {:induction false} BuiltAt(t: Table, path: seq<string>, text: string, q: seq<string>)
    requires Proper(t) && LeafAt(t, path, text) && q <= path
    ensures if q == path then Lookup(Built(t), q) == Scalar(text) else Lookup(Built(t), q).Object?
    decreases t
  {
    if t.Dict? && q != [] {
      BuiltIn(t.entries, path, text, q);
    }
  }

  lemma {:induction false} BuiltIn(entries: Entries, path: seq<string>, text: string, q: seq<string>)
    requires ProperAll(entries) && path != [] && LeafIn(entries, path, text) && q != [] && q <= path
    ensures path[0] in Keys(entries)
    ensures var found := Lookup(BuiltAll(entries)[path[0]], q[1..]); if q == path then found == Scalar(text) else found.Object?
    decreases entries
  {
    if entries.key == path[0] && LeafAt(entries.child, path[1..], text) {
      assert q[1..] <= path[1..];
      assert q == [path[0]] + q[1..] && path == [path[0]] + path[1..];
      BuiltAt(entries.child, path[1..], text, q[1..]);
    } else {
      BuiltIn(entries.rest, path, text, q);
    }
  }

  lemma LookupDown(payload: Json, path: seq<string>)
    requires path != []
    ensures Lookup(payload, path) == Lookup(Child(payload, path[0]), path[1..])
  {
    LookupNull(path[1..]);
  }

  /** What the nested table demands at a leaf. */
  lemma {:induction false} LeafDemands(t: Table, path: seq<string>, text: string, payload: Json, str: Render)
    requires LeafAt(t, path, text) && Matches(t, payload, str)
    ensures str(Lookup(payload, path)) == text
    decreases t
  {
    if t.Dict? {
      LeafInDemands(t.entries, path, text, payload, str);
    }
  }

  lemma {:induction false} LeafInDemands(entries: Entries, path: seq<string>, text: string, payload: Json, str: Render)
    requires path != [] && LeafIn(entries, path, text) && MatchesAll(entries, payload, str)
    ensures str(Lookup(payload, path)) == text
    decreases entries
  {
    if entries.key == path[0] && LeafAt(entries.child, path[1..], text) {
      LookupDown(payload, path);
      LeafDemands(entries.child, path[1..], text, Child(payload, path[0]), str);
    } else {
      LeafInDemands(entries.rest, path, text, payload, str);
    }
  }

  lemma {:induction false} LeafText(t: Table, path: seq<string>, text: string)
    requires LeafAt(t, path, text)
    ensures text in Texts(t)
    decreases t
  {
    if t.Dict? {
      LeafInText(t.entries, path, text);
    }
  }

  lemma {:induction false} LeafInText(entries: Entries, path: seq<string>, text: string)
    requires path != [] && LeafIn(entries, path, text)
    ensures text in TextsIn(entries)
    decreases entries
  {
    if entries.key == path[0] && LeafAt(entries.child, path[1..], text) {
      LeafText(entries.child, path[1..], text);
    } else {
      LeafInText(entries.rest, path, text);
    }
  }

  /** Flattening writes only texts of the table. */
  ghost predicate WritesOnly(out: map<string, string>, flat: map<string, string>, texts: set<string>) {
    forall path | path in flat :: (path in out && flat[path] == out[path]) || flat[path] in texts
  }

  lemma {:induction false} FlattenTexts(prefix: string, t: Table, out: map<string, string>)
    ensures WritesOnly(out, Flatten(prefix, t, out), Texts(t))
    decreases t
  {
    if t.Dict? {
      FlattenAllTexts(prefix, t.entries, out);
    }
  }

  lemma {:induction false} FlattenAllTexts(prefix: string, entries: Entries, out: map<string, string>)
    ensures WritesOnly(out, FlattenAll(prefix, entries, out), TextsIn(entries))
    decreases entries
  {
    if entries.Cons? {
      var mid := Flatten(Dotted(prefix, entries.key), entries.child, out);
      FlattenTexts(Dotted(prefix, entries.key), entries.child, out);
      FlattenAllTexts(prefix, entries.rest, mid);
    }
  }

  /** A payload without its entry at `path`. */
  function Without(payload: Json, path: seq<string>): Json
    decreases |path|
  {
    if path == [] || !payload.Object? || path[0] !in payload.fields then payload
    else if |path| == 1 then Object(payload.fields - {path[0]})
    else Object(payload.fields[path[0] := Without(payload.fields[path[0]], path[1..])])
  }

  lemma {:induction false} WithoutAt(payload: Json, path: seq<string>)
    requires path != []
    ensures Lookup(Without(payload, path), path) == Null
    decreases |path|
  {
    if |path| > 1 && payload.Object? && path[0] in payload.fields {
      WithoutAt(payload.fields[path[0]], path[1..]);
    }
  }

  lemma PrefixTail(q: seq<string>, path: seq<string>)
    requires q != [] && path != [] && q[0] == path[0]
    ensures q <= path <==> q[1..] <= path[1..]
  {
    assert q == [q[0]] + q[1..] && path == [path[0]] + path[1..];
  }

  lemma {:induction false} WithoutElsewhere(payload: Json, path: seq<string>, q: seq<string>)
    requires !Lookup(payload, path).Object? && !(q <= path)
    ensures Lookup(Without(payload, path), q) == Lookup(payload, q)
    decreases |path|
  {
    if path != [] && payload.Object? && path[0] in payload.fields && q[0] == path[0] {
      var child := payload.fields[path[0]];
      if |path| == 1 {
        assert path[1..] == [] && Lookup(payload, path) == child;
        PrefixTail(q, path);
        LookupNull(q[1..]);
      } else {
        PrefixTail(q, path);
        WithoutElsewhere(child, path[1..], q[1..]);
      }
    }
  }

  lemma {:induction false} SplitIsPlain(s: string, sep: char)
    ensures forall piece | piece in Split(s, sep) :: sep !in piece
  {
    if s != "" {
      var rest := Split(s[1..], sep);
      SplitIsPlain(s[1..], sep);
      assert rest[0] in rest;
    }
  }

  predicate HasDot(path: seq<string>) {
    exists key | key in path :: '.' in key
  }

  lemma {:induction false} SomeLeaf(t: Table) returns (path: seq<string>, text: string)
    requires HasLeaf(t)
    ensures LeafAt(t, path, text)
    decreases t
  {
    match t {
      case Leaf(expected) => path, text := [], expected;
      case Dict(entries) => path, text := SomeLeafIn(entries);
    }
  }

  lemma {:induction false} SomeLeafIn(entries: Entries) returns (path: seq<string>, text: string)
    requires HasLeafIn(entries)
    ensures path != [] && LeafIn(entries, path, text)
    decreases entries
  {
    if HasLeaf(entries.child) {
      path, text := SomeLeaf(entries.child);
      path := [entries.key] + path;
    } else {
      path, text := SomeLeafIn(entries.rest);
    }
  }

  /** Where a dotted key stands above a leaf, some leaf has a dot on its path. */
  lemma {:induction false} DottedLeaf(entries: Entries) returns (path: seq<string>, text: string)
    requires !DotFreeAll(entries)
    ensures path != [] && LeafIn(entries, path, text) && HasDot(path)
    decreases entries
  {
    var child := entries.child;
    if HasLeaf(child) && '.' in entries.key {
      path, text := SomeLeaf(child);
      path := [entries.key] + path;
      assert entries.key in path;
    } else if HasLeaf(child) && !DotFree(child) {
      var below;
      below, text := DottedLeaf(child.entries);
      path := [entries.key] + below;
      var key :| key in below && '.' in key;
      assert key in path;
    } else {
      path, text := DottedLeaf(entries.rest);
    }
  }

  /** A payload on which the two part ways: the built one, or the built one without the leaf that
      has a dot on its path. */
  lemma DottedLeafDisagrees(entries: Entries, path: seq<string>, text: string, str: Render) returns (payload: Json)
    requires ProperAll(entries) && Faithful(str, TextsIn(entries))
    requires path != [] && LeafIn(entries, path, text) && HasDot(path)
    ensures FlatMatches(Flatten("", Dict(entries), map[]), payload, str) <==> !Matches(Dict(entries), payload, str)
  {
    var t := Dict(entries);
    var flat := Flatten("", t, map[]);
    payload := Built(t);
    BuiltMatches(t, str);
    if FlatMatches(flat, payload, str) {
      var whole := payload;
      payload := Without(whole, path);
      WithoutAt(whole, path);
      BuiltAt(t, path, text, path);
      FlattenTexts("", t, map[]);
      forall d | d in flat
        ensures str(Lookup(payload, Parts(d))) == flat[d]
      {
        var q := Parts(d);
        SplitIsPlain(d, '.');
        if q <= path {
          BuiltAt(t, path, text, q);
        } else {
          WithoutElsewhere(whole, path, q);
        }
      }
      if Matches(t, payload, str) {
        LeafDemands(t, path, text, payload, str);
        LeafText(t, path, text);
      }
    }
  }

  /** The exact condition: the two ways of matching agree on every payload if and only if no dotted
      key stands above a leaf. */
  lemma AgreeExactlyWhenDotFree(entries: Entries, str: Render)
    requires ProperAll(entries) && Faithful(str, TextsIn(entries))
    ensures (forall payload: Json :: FlatMatches(Flatten("", Dict(entries), map[]), payload, str) <==> Matches(Dict(entries), payload, str))
            <==> DotFreeAll(entries)
  {
    if DotFreeAll(entries) {
      forall payload: Json
        ensures FlatMatches(Flatten("", Dict(entries), map[]), payload, str) <==> Matches(Dict(entries), payload, str)
      {
        FlatMatchingIsNestedMatching(entries, payload, str);
      }
    } else {
      var path, text := DottedLeaf(entries);
      var payload := DottedLeafDisagrees(entries, path, text, str);
    }
  }

  /** A dot inside a key breaks the agreement: the flattened path looks two levels down. */
  lemma DottedKeyDisagrees(str: Render)
    requires str(Scalar("x")) == "x" && str(Null) != "x"
    ensures var entries := Cons("a.b", Leaf("x"), Nil); var payload := Object(map["a.b" := Scalar("x")]);
      Matches(Dict(entries), payload, str) && !FlatMatches(Flatten("", Dict(entries), map[]), payload, str)
  {
    var payload := Object(map["a.b" := Scalar("x")]);
    var flat := Flatten("", Dict(Cons("a.b", Leaf("x"), Nil)), map[]);
    assert flat == map["a.b" := "x"];
    SplitPiece("a", '.', "");
    SplitLast("a", "b");
    assert "a" + "." + "b" == "a.b";
    assert Lookup(payload, ["a", "b"]) == Null;
    assert "a.b" in flat;
  }
}
