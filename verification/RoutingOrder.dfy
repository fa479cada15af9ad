/** The order in which deliveries are compared as strings: zero-padded snowflakes, then
    timestamps.

    Source: discord/scripts/discord_gateway_service.py, `ingress_routing_delivery_order`. */
module RoutingOrder {
  import opened Text

  const PAD: nat := 20

  /** The last `k` decimal digits of `n`. */
  function Padded(n: nat, k: nat): (s: string)
    ensures |s| == k
  {
    if k == 0 then "" else Padded(n / 10, k - 1) + [Digit(n % 10)]
  }

  function Power10(k: nat): nat {
    if k == 0 then 1 else 10 * Power10(k - 1)
  }

  function Width(n: nat): nat {
    if n < 10 then 1 else 1 + Width(n / 10)
  }

  /** Python's `{n:020d}`: at least twenty digits, more when the number needs them. */
  function Format20(n: nat): string {
    Padded(n, if Width(n) > PAD then Width(n) else PAD)
  }

  datatype Receipt = Receipt(messageId: string, createdAt: string, ingressId: string)

  function DeliveryOrder(r: Receipt): string {
    if Digits(r.messageId) then "snowflake:" + Format20(Value(r.messageId))
    else "timestamp" + ":" + r.createdAt + ":" + r.messageId + ":" + r.ingressId
  }

  /** Between strings of equal length the last character decides only between equal fronts. */
  lemma {:induction false} LessLast(p: string, q: string, x: char, y: char)
    requires |p| == |q|
    ensures Less(p + [x], q + [y]) <==> Less(p, q) || (p == q && x < y)
  {
    if p == "" {
      assert p + [x] == [x] && q + [y] == [y];
      assert [x][1..] == "" && [y][1..] == "";
    } else {
      assert (p + [x])[1..] == p[1..] + [x] && (q + [y])[1..] == q[1..] + [y];
      assert p == [p[0]] + p[1..] && q == [q[0]] + q[1..];
      LessLast(p[1..], q[1..], x, y);
    }
  }

  lemma {:induction false} PaddedOrder(a: nat, b: nat, k: nat)
    requires a < Power10(k) && b < Power10(k)
    ensures Less(Padded(a, k), Padded(b, k)) <==> a < b
    ensures Padded(a, k) == Padded(b, k) <==> a == b
  {
    if k > 0 {
      PaddedOrder(a / 10, b / 10, k - 1);
      var p, q := Padded(a / 10, k - 1), Padded(b / 10, k - 1);
      LessLast(p, q, Digit(a % 10), Digit(b % 10));
      assert Padded(a, k)[..k - 1] == p && Padded(b, k)[..k - 1] == q;
      assert Padded(a, k)[k - 1] == Digit(a % 10) && Padded(b, k)[k - 1] == Digit(b % 10);
    }
  }

  lemma {:induction false} WidthFits(n: nat, k: nat)
    requires k > 0
    ensures Width(n) <= k <==> n < Power10(k)
    decreases k
  {
    if n < 10 {
      PowerAtLeast(k);
    } else if k > 1 {
      WidthFits(n / 10, k - 1);
    } else {
      assert Power10(1) == 10 * Power10(0);
    }
  }

  lemma {:induction false} PowerAtLeast(k: nat)
    requires k > 0
    ensures Power10(k) >= 10
  {
    if k > 1 {
      PowerAtLeast(k - 1);
    }
  }

  /** For ids below 10^20 the order of the strings is the order of the numbers. */
  lemma SnowflakeOrder(a: nat, b: nat)
    requires a < Power10(PAD) && b < Power10(PAD)
    ensures Less("snowflake:" + Format20(a), "snowflake:" + Format20(b)) <==> a < b
  {
    hide Power10;
    WidthFits(a, PAD);
    WidthFits(b, PAD);
    PaddedOrder(a, b, PAD);
    LessAfterPrefix("snowflake:", Format20(a), Format20(b));
  }

  lemma {:induction false} PowerPositive(k: nat)
    ensures Power10(k) > 0
  {
    if k > 0 {
      PowerPositive(k - 1);
    }
  }

  lemma TimesTen(d: nat, p: nat)
    requires d > 0 && p > 0
    ensures d * (10 * p) == 10 * (d * p) && d * p > 0
    ensures (10 * (d * p)) / 10 == d * p && 10 * (d * p) >= 10
  {
  }

  /** A digit followed by zeros. */
  lemma {:induction false} RoundNumber(d: nat, k: nat)
    requires 0 < d < 10
    ensures Padded(d * Power10(k), k + 1)[0] == Digit(d)
    ensures Width(d * Power10(k)) == k + 1
  {
    if k > 0 {
      PowerPositive(k - 1);
      var n := d * Power10(k - 1);
      TimesTen(d, Power10(k - 1));
      RoundNumber(d, k - 1);
      assert Padded(10 * n, k + 1)[0] == Padded(n, k)[0];
    }
  }

  /** Twenty digits are exactly enough: the agreement holds below a bound if and only if the
      bound is at most 10^20. */
  lemma SnowflakeBoundIsTight(bound: nat)
    ensures (forall a: nat, b: nat | a < bound && b < bound ::
               Less("snowflake:" + Format20(a), "snowflake:" + Format20(b)) <==> a < b)
            <==> bound <= Power10(PAD)
  {
    hide Power10, Format20, Less;
    if bound <= Power10(PAD) {
      forall a: nat, b: nat | a < bound && b < bound
        ensures Less("snowflake:" + Format20(a), "snowflake:" + Format20(b)) <==> a < b
      {
        SnowflakeOrder(a, b);
      }
    } else {
      var a, b := 1 * Power10(PAD), 2 * Power10(PAD - 1);
      BeyondTheBound();
      assert a < bound && b < a && b < bound;
    }
  }

  lemma BeyondTheBound()
    ensures var a, b := 1 * Power10(PAD), 2 * Power10(PAD - 1);
      b < a && Less("snowflake:" + Format20(a), "snowflake:" + Format20(b))
  {
    var a, b := 1 * Power10(PAD), 2 * Power10(PAD - 1);
    RoundNumber(1, PAD);
    RoundNumber(2, PAD - 1);
    PowerPositive(PAD - 1);
    assert Power10(PAD) == 10 * Power10(PAD - 1);
    hide Power10, Width;
    assert Format20(a)[0] == '1' && Format20(b)[0] == '2';
    LessAfterPrefix("snowflake:", Format20(a), Format20(b));
  }

  /** Every delivery without a numeric id sorts after every one with such an id. */
  lemma TimestampsAfterSnowflakes(a: Receipt, b: Receipt)
    requires Digits(a.messageId) && !Digits(b.messageId)
    ensures Less(DeliveryOrder(a), DeliveryOrder(b)) && !Less(DeliveryOrder(b), DeliveryOrder(a))
  {
    assert DeliveryOrder(a)[0] == 's' && DeliveryOrder(b)[0] == 't';
  }

  /** Between receipts with numeric ids of at most twenty digits, whatever their leading zeros,
      the order is that of the numbers. */
  lemma DeliveryOrderIsNumeric(a: Receipt, b: Receipt)
    requires Digits(a.messageId) && Digits(b.messageId)
    requires Value(a.messageId) < Power10(PAD) && Value(b.messageId) < Power10(PAD)
    ensures Less(DeliveryOrder(a), DeliveryOrder(b)) <==> Value(a.messageId) < Value(b.messageId)
    ensures DeliveryOrder(a) == DeliveryOrder(b) <==> Value(a.messageId) == Value(b.messageId)
  {
    hide Power10, Value, Less, Format20;
    var m, n := Value(a.messageId), Value(b.messageId);
    SnowflakeOrder(m, n);
    SnowflakeOrder(n, m);
    LessIrreflexive(DeliveryOrder(a));
  }
}
