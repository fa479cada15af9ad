/** Names that identify a delivery: ingress ids and idempotency keys.

    Source: discord/scripts/discord_gateway_service.py, `message_ingress_id` and the
    target entries written by `process_inbound_message`; the app name pattern is
    discord_intake_common's. */
module IdempotencyKeys {
  import opened Text

  const TARGET_MARK: string := ":target:"

  function IdempotencyKey(ingress: string, session: string): string {
    "ingress:" + ingress + TARGET_MARK + session
  }

  function IngressId(messageId: string, app: string): string {
    "in-" + messageId + (if app == "" then "" else "-app-" + app)
  }

  /** The default app, or a name matching [a-z][a-z0-9_-]{0,31}. */
  predicate AppName(s: string) {
    s == "" || (|s| <= 32 && 'a' <= s[0] <= 'z' && forall c | c in s :: 'a' <= c <= 'z' || '0' <= c <= '9' || c == '_' || c == '-')
  }

  /** `b` continues `a` with the separator of the key format. */
  predicate Continues(a: string, b: string) {
    b == a + ":target" || a + TARGET_MARK <= b
  }

  lemma KeyTail(a: string, b: string, s: string, t: string)
    requires IdempotencyKey(a, s) == IdempotencyKey(b, t) && |a| <= |b|
    ensures a <= b && TARGET_MARK + s == b[|a|..] + TARGET_MARK + t
  {
    var k, l := IdempotencyKey(a, s), IdempotencyKey(b, t);
    var n := |"ingress:"|;
    assert k[n..] == a + TARGET_MARK + s && l[n..] == b + TARGET_MARK + t;
    assert k[n..][..|a|] == a && l[n..][..|a|] == b[..|a|];
    assert k[n..][|a|..] == TARGET_MARK + s && l[n..][|a|..] == b[|a|..] + TARGET_MARK + t;
  }

  /** The mark overlaps itself only in its last character. */
  lemma MarkOverlap(x: string, s: string, t: string)
    requires TARGET_MARK + s == x + TARGET_MARK + t && 0 < |x|
    ensures x == ":target" || TARGET_MARK <= x
  {
    var left, right := TARGET_MARK + s, x + TARGET_MARK + t;
    assert forall k | 0 <= k < |x| && k < 8 :: x[k] == right[k] == left[k] == TARGET_MARK[k];
    if |x| < 8 {
      assert TARGET_MARK[|x|] == left[|x|] == right[|x|] == TARGET_MARK[0];
      assert TARGET_MARK[0] == ':' && forall k | 0 < k < 7 :: TARGET_MARK[k] != ':';
      assert |x| == 7;
    } else {
      assert x[..8] == TARGET_MARK;
    }
  }

  lemma SharedKeyContinues(a: string, b: string, s: string, t: string)
    requires IdempotencyKey(a, s) == IdempotencyKey(b, t) && |a| <= |b| && a != b
    ensures Continues(a, b)
  {
    hide IdempotencyKey;
    KeyTail(a, b, s, t);
    var x := b[|a|..];
    assert b == a + x && |x| > 0;
    MarkOverlap(x, s, t);
    if TARGET_MARK <= x {
      assert b[..|a| + 8] == a + x[..8];
    }
  }

  lemma ContinuedSharesKey(a: string, b: string)
    requires Continues(a, b)
    ensures exists s, t :: IdempotencyKey(a, s) == IdempotencyKey(b, t)
  {
    if b == a + ":target" {
      assert a + TARGET_MARK + "target:" == b + TARGET_MARK;
      assert IdempotencyKey(a, "target:") == IdempotencyKey(b, "");
    } else {
      var m := b[|a + TARGET_MARK|..];
      assert b == a + TARGET_MARK + m;
      assert IdempotencyKey(a, m + TARGET_MARK) == IdempotencyKey(b, "");
    }
  }

  /** Exactly when two different ingress ids can be given one key: one continues the other
      with the ":target" separator. */
  lemma KeysCanCollide(a: string, b: string)
    requires a != b
    ensures (exists s, t :: IdempotencyKey(a, s) == IdempotencyKey(b, t)) <==> Continues(a, b) || Continues(b, a)
  {
    if s, t :| IdempotencyKey(a, s) == IdempotencyKey(b, t) {
      if |a| <= |b| { SharedKeyContinues(a, b, s, t); } else { SharedKeyContinues(b, a, t, s); }
    }
    if Continues(a, b) { ContinuedSharesKey(a, b); }
    if Continues(b, a) {
      ContinuedSharesKey(b, a);
      var s, t :| IdempotencyKey(b, s) == IdempotencyKey(a, t);
      assert IdempotencyKey(a, t) == IdempotencyKey(b, s);
    }
  }

  lemma IngressIdColonFree(messageId: string, app: string)
    requires Digits(messageId) && AppName(app)
    ensures ':' !in IngressId(messageId, app)
  {
  }

  lemma LongerIdDiffers(m: string, app: string, m': string, app': string)
    requires Digits(m') && |m| < |m'|
    ensures IngressId(m, app) != IngressId(m', app')
  {
    var i, j := IngressId(m, app), IngressId(m', app');
    assert j[3 + |m|] == m'[|m|] && m'[|m|] in m';
    assert app == "" ==> |i| < |j|;
    assert app != "" ==> i[3 + |m|] == '-';
  }

  /** Every message of every app has its own ingress id. */
  lemma IngressIdInjective(m: string, app: string, m': string, app': string)
    requires Digits(m) && Digits(m') && IngressId(m, app) == IngressId(m', app')
    ensures m == m' && app == app'
  {
    if |m| < |m'| {
      LongerIdDiffers(m, app, m', app');
    } else if |m'| < |m| {
      LongerIdDiffers(m', app', m, app);
    } else {
      var i, j, n := IngressId(m, app), IngressId(m', app'), 3 + |m|;
      assert i[3..n] == m && j[3..n] == m';
      assert i[n..] == if app == "" then "" else "-app-" + app;
      assert j[n..] == if app' == "" then "" else "-app-" + app';
      assert app != "" ==> i[n..][5..] == app;
      assert app' != "" ==> j[n..][5..] == app';
    }
  }

  lemma ContinuationHasColon(a: string, b: string)
    ensures Continues(a, b) ==> ':' in b
  {
    if Continues(a, b) {
      assert b[|a|] == ':';
    }
  }

  /** Different (ingress, session) pairs carry different keys, for every ingress id the
      service makes up (they contain no colon). */
  lemma KeyInjective(a: string, s: string, b: string, t: string)
    requires ':' !in a && ':' !in b && IdempotencyKey(a, s) == IdempotencyKey(b, t)
    ensures a == b && s == t
  {
    ContinuationHasColon(a, b);
    ContinuationHasColon(b, a);
    if |a| < |b| {
      SharedKeyContinues(a, b, s, t);
    } else if a != b {
      SharedKeyContinues(b, a, t, s);
    } else {
      KeyTail(a, b, s, t);
      assert (TARGET_MARK + s)[8..] == s && (b[|a|..] + TARGET_MARK + t)[8..] == t;
    }
  }
}
