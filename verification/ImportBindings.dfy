/** Import bindings for packs: a name made of the allowed characters for each pack, all
    different.

    Source: scripts/pack_release_compat.py, `import_binding` and `unique_bindings`. */
module ImportBindings {
  import opened Text
  import opened Wrappers

  predicate Allowed(c: char) {
    'A' <= c <= 'Z' || 'a' <= c <= 'z' || '0' <= c <= '9' || c == '_' || c == '-'
  }

  predicate AllAllowed(s: string) {
    forall c | c in s :: Allowed(c)
  }

  /** Every run of other characters becomes one dash; `inRun` says one has just been written. */
  function Replaced(name: string, inRun: bool): (r: string)
    ensures AllAllowed(r)
  {
    if name == "" then ""
    else if Allowed(name[0]) then [name[0]] + Replaced(name[1..], false)
    else (if inRun then "" else "-") + Replaced(name[1..], true)
  }

  function StripLeft(s: string): (r: string)
    ensures forall c | c in r :: c in s
    ensures r != "" ==> r[0] != '-'
  {
    if s != "" && s[0] == '-' then StripLeft(s[1..]) else s
  }

  function StripRight(s: string): (r: string)
    ensures r <= s
    ensures r != "" ==> r[|r| - 1] != '-'
  {
    if s != "" && s[|s| - 1] == '-' then StripRight(s[..|s| - 1]) else s
  }

  /** None where the source raises: nothing is left of the name. */
  function ImportBinding(name: string): (r: Option<string>)
    ensures r.Some? ==> r.value != "" && AllAllowed(r.value)
    ensures r.Some? ==> r.value[0] != '-' && r.value[|r.value| - 1] != '-'
  {
    var left := StripLeft(Replaced(name, false));
    var binding := StripRight(left);
    assert forall c | c in binding :: c in left;
    if binding == "" then None else Some(binding)
  }

  /** A name that is already a binding is its own binding. */
  lemma {:induction false} AllowedUnchanged(name: string, inRun: bool)
    requires AllAllowed(name)
    ensures Replaced(name, inRun) == name
  {
    if name != "" {
      assert name[0] in name;
      AllowedUnchanged(name[1..], false);
      assert name == [name[0]] + name[1..];
    }
  }

  lemma BindingIdempotent(name: string)
    requires ImportBinding(name).Some?
    ensures ImportBinding(ImportBinding(name).value) == ImportBinding(name)
  {
    AllowedUnchanged(ImportBinding(name).value, false);
  }

  /** The bindings tried for `base`, in order: base, base-2, base-3, ... */
  function Candidate(base: string, k: nat): string {
    if k < 2 then base else base + "-" + Decimal(k)
  }

  lemma CandidatesDiffer(base: string, j: nat, k: nat)
    requires 1 <= j < k
    ensures Candidate(base, j) != Candidate(base, k)
  {
    if Candidate(base, j) == Candidate(base, k) {
      assert (base + "-" + Decimal(k))[|base| + 1..] == Decimal(k);
      if j >= 2 {
        assert (base + "-" + Decimal(j))[|base| + 1..] == Decimal(j);
        DecimalInjective(j, k);
      }
    }
  }

  ghost predicate IsCandidate(base: string, x: string) {
    exists k: nat :: k >= 1 && x == Candidate(base, k)
  }

  predicate Injective(m: map<string, string>) {
    forall a, b | a in m && b in m && m[a] == m[b] :: a == b
  }

  /** The first candidate for `base` that is not used yet; the search ends after at most one
      candidate more than there are used names. */
  method FreeBinding(base: string, used: set<string>) returns (binding: string)
    requires base != "" && AllAllowed(base)
    ensures binding !in used && binding != "" && AllAllowed(binding)
    ensures exists k: nat | k >= 1 :: binding == Candidate(base, k) && forall j | 1 <= j < k :: Candidate(base, j) in used
  {
    binding := base;
    var suffix := 2;
    ghost var tried: set<string> := {};
    while binding in used
      invariant suffix >= 2 && binding == Candidate(base, suffix - 1)
      invariant forall x :: x in tried <==> exists j: nat | 1 <= j < suffix - 1 :: x == Candidate(base, j)
      invariant tried <= used && |tried| == suffix - 2
      decreases |used| + 2 - suffix
    {
      forall j: nat | 1 <= j < suffix - 1 ensures Candidate(base, j) != binding {
        CandidatesDiffer(base, j, suffix - 1);
      }
      assert binding !in tried;
      tried := tried + {binding};
      Smaller(tried, used);
      binding := base + "-" + Decimal(suffix);
      suffix := suffix + 1;
    }
    assert forall j: nat | 1 <= j < suffix - 1 :: Candidate(base, j) in tried;
  }

  lemma {:induction false} Smaller(a: set<string>, b: set<string>)
    requires a <= b
    ensures |a| <= |b|
  {
    if a != {} {
      var x :| x in a;
      Smaller(a - {x}, b - {x});
    }
  }

  /** `unique_bindings`: None where it raises, otherwise a distinct, non-empty, allowed binding
      for every name. */
  method UniqueBindings(names: seq<string>) returns (r: Option<map<string, string>>)
    ensures r.Some? <==> forall n | n in names :: ImportBinding(n).Some?
    ensures r.Some? ==>
              && (forall n :: n in r.value <==> n in names)
              && (forall n | n in r.value :: r.value[n] != "" && AllAllowed(r.value[n]))
              && (forall n | n in r.value :: IsCandidate(ImportBinding(n).value, r.value[n]))
              && Injective(r.value)
  {
    hide ImportBinding, AllAllowed, Candidate;
    var bindings: map<string, string>, used: set<string> := map[], {};
    for k := 0 to |names|
      invariant forall i | 0 <= i < k :: ImportBinding(names[i]).Some?
      invariant forall n :: n in bindings <==> n in names[..k]
      invariant forall n | n in bindings :: bindings[n] in used && bindings[n] != "" && AllAllowed(bindings[n])
      invariant forall n | n in bindings :: ImportBinding(n).Some? && IsCandidate(ImportBinding(n).value, bindings[n])
      invariant Injective(bindings)
    {
      var base := ImportBinding(names[k]);
      if base.None? {
        assert names[k] in names;
        return None;
      }
      var binding := FreeBinding(base.value, used);
      assert names[..k + 1] == names[..k] + [names[k]];
      bindings, used := bindings[names[k] := binding], used + {binding};
    }
    assert names[..|names|] == names;
    return Some(bindings);
  }
}
