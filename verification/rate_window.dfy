/** Promotions per second from one-second buckets that expire on their own, and the wait it predicts. */
module RateWindows {
  const WINDOW := 90
  const BUCKET_TTL := 120

  datatype Bucket = Bucket(count: int, expiry: int)

  /** One promotion tick: when, and how many were promoted. */
  datatype Tick = Tick(at: int, promoted: int)

  predicate Live(buckets: map<int, Bucket>, now: int, sec: int) { sec in buckets && now < buckets[sec].expiry }

  function Observe(buckets: map<int, Bucket>, t: Tick): map<int, Bucket> {
    if t.promoted <= 0 then buckets
    else
      var was := if Live(buckets, t.at, t.at) then buckets[t.at].count else 0;
      buckets[t.at := Bucket(was + t.promoted, t.at + BUCKET_TTL)]
  }

  function ObserveAll(ticks: seq<Tick>): map<int, Bucket> {
    if |ticks| == 0 then map[] else Observe(ObserveAll(ticks[..|ticks| - 1]), ticks[|ticks| - 1])
  }

  /** What the last n seconds' buckets hold at `now`. */
  function WindowSum(buckets: map<int, Bucket>, now: int, n: nat): int {
    if n == 0 then 0
    else WindowSum(buckets, now, n - 1) + if Live(buckets, now, now - (n - 1)) then buckets[now - (n - 1)].count else 0
  }

  /** What was promoted in the seconds after `from` up to `to`. */
  function Promoted(ticks: seq<Tick>, from: int, to: int): int {
    if |ticks| == 0 then 0
    else
      var t := ticks[|ticks| - 1];
      Promoted(ticks[..|ticks| - 1], from, to) + if t.promoted > 0 && from < t.at <= to then t.promoted else 0
  }

  predicate InOrder(ticks: seq<Tick>, now: int) {
    && (forall i, j :: 0 <= i < j < |ticks| ==> ticks[i].at <= ticks[j].at)
    && (forall i :: 0 <= i < |ticks| ==> ticks[i].at <= now)
  }

  class RateBuckets {
    var buckets: map<int, Bucket>

    constructor ()
      ensures buckets == map[]
    {
      buckets := map[];
    }

    method ObservePromotion(promoted: int, now: int)
      modifies this
      ensures buckets == Observe(old(buckets), Tick(now, promoted))
    {
      if promoted <= 0 { return; }
      var count := promoted;
      if now in buckets && now < buckets[now].expiry { count := buckets[now].count + promoted; }
      buckets := buckets[now := Bucket(count, now + BUCKET_TTL)];
    }

    method PromotionTotal(now: int) returns (total: int)
      ensures total == WindowSum(buckets, now, WINDOW)
    {
      total := 0;
      for i := 0 to WINDOW
        invariant total == WindowSum(buckets, now, i)
      {
        if now - i in buckets && now < buckets[now - i].expiry { total := total + buckets[now - i].count; }
      }
    }
  }

  /** A bucket holds its second's promotions and outlives every window that looks at it. */
  lemma {:induction false} BucketsHold(ticks: seq<Tick>, now: int, sec: int)
    requires InOrder(ticks, now)
    ensures var b := ObserveAll(ticks);
            if sec in b then b[sec].expiry == sec + BUCKET_TTL && b[sec].count == Promoted(ticks, sec - 1, sec)
            else Promoted(ticks, sec - 1, sec) == 0
    decreases |ticks|
  {
    if |ticks| > 0 {
      var init, t := ticks[..|ticks| - 1], ticks[|ticks| - 1];
      BucketsHold(init, now, sec);
    }
  }

  lemma {:induction false} PromotedSplits(ticks: seq<Tick>, a: int, b: int, c: int)
    requires a <= b <= c
    ensures Promoted(ticks, a, c) == Promoted(ticks, a, b) + Promoted(ticks, b, c)
    decreases |ticks|
  {
    if |ticks| > 0 { PromotedSplits(ticks[..|ticks| - 1], a, b, c); }
  }

  lemma {:induction false} SumIsPromoted(ticks: seq<Tick>, now: int, n: nat)
    requires InOrder(ticks, now) && n <= WINDOW
    ensures WindowSum(ObserveAll(ticks), now, n) == Promoted(ticks, now - n, now)
  {
    if n == 0 {
      NothingInside(ticks, now);
    } else {
      SumIsPromoted(ticks, now, n - 1);
      BucketsHold(ticks, now, now - (n - 1));
      PromotedSplits(ticks, now - n, now - n + 1, now);
    }
  }

  lemma {:induction false} NothingInside(ticks: seq<Tick>, at: int)
    ensures Promoted(ticks, at, at) == 0
    decreases |ticks|
  {
    if |ticks| > 0 { NothingInside(ticks[..|ticks| - 1], at); }
  }

  lemma {:induction false} PromotedIsCount(ticks: seq<Tick>, from: int, to: int)
    ensures Promoted(ticks, from, to) >= 0
    ensures Promoted(ticks, from, to) == 0
            <==> forall i :: 0 <= i < |ticks| ==> ticks[i].promoted <= 0 || !(from < ticks[i].at <= to)
    decreases |ticks|
  {
    if |ticks| > 0 {
      var init, t := ticks[..|ticks| - 1], ticks[|ticks| - 1];
      PromotedIsCount(init, from, to);
      assert forall i :: 0 <= i < |init| ==> init[i] == ticks[i];
    }
  }

  // ---- the prediction ----

  /** Seconds a position has to wait at `total` promotions per window; -1 when unknown. */
  function EtaSeconds(total: int, position: int): int {
    var rate := total as real / WINDOW as real;
    if rate < 0.001 || position <= 0 then -1 else (position as real / rate).Floor
  }

  lemma EtaIsQuotient(total: int, position: int)
    requires total > 0 && position > 0
    ensures EtaSeconds(total, position) == WINDOW * position / total
  {
    var rate := total as real / 90.0;
    var x := position as real / rate;
    var q := 90 * position / total;
    RatioBounds(total, position, rate, x);
    assert q * total <= 90 * position < (q + 1) * total;
    FloorBetween(total, 90 * position, q, x);
  }

  lemma RatioBounds(total: int, position: int, rate: real, x: real)
    requires total > 0 && position > 0 && rate == total as real / 90.0 && x == position as real / rate
    ensures rate >= 0.001 && x * total as real == (90 * position) as real
  {
    assert rate * 90.0 == total as real;
    assert rate >= 1.0 / 90.0;
    assert x * rate == position as real;
    assert x * total as real == x * (rate * 90.0) == (x * rate) * 90.0;
  }

  lemma FloorBetween(total: int, n: int, q: int, x: real)
    requires total > 0 && q >= 0 && x * total as real == n as real && q * total <= n < (q + 1) * total
    ensures x.Floor == q
  {
    RealProduct(q, total);
    RealProduct(q + 1, total);
    Between(x, q as real, (q + 1) as real, total as real, n as real);
  }

  lemma Between(x: real, low: real, high: real, t: real, n: real)
    requires t > 0.0 && x * t == n && low * t <= n < high * t
    ensures low <= x < high
  {
    Cancel(x, low, t);
    Cancel(high, x, t);
  }

  lemma {:induction false} RealProduct(a: nat, b: int)
    ensures (a * b) as real == a as real * b as real
  {
    if a == 0 {
      assert a * b == 0;
    } else {
      RealProduct(a - 1, b);
      OneMore(a, b);
      var p := (a - 1) * b;
      assert (p + b) as real == p as real + b as real;
      RealOneMore((a - 1) as real, b as real);
      assert (a - 1) as real + 1.0 == a as real;
    }
  }

  lemma OneMore(a: int, b: int)
    ensures a * b == (a - 1) * b + b
  {}

  lemma RealOneMore(x: real, y: real)
    ensures (x + 1.0) * y == x * y + y
  {}

  lemma Cancel(x: real, y: real, t: real)
    requires t > 0.0
    ensures x < y ==> x * t < y * t
    ensures x == y ==> x * t == y * t
  {
    if x < y { assert (y - x) * t > 0.0; }
  }

  lemma Product(x: int, y: int, t: int)
    requires t > 0
    ensures x <= y ==> x * t <= y * t
  {
    if x <= y { assert (y - x) * t >= 0; }
  }

  lemma QuotientMonotone(total: int, a: int, b: int)
    requires total > 0 && 0 <= a <= b
    ensures a / total <= b / total
  {
    var p, q := a / total, b / total;
    assert p * total <= a && b < (q + 1) * total;
    Product(q + 1, p, total);
  }

  /** The rate is what really happened in the last ninety seconds, so the prediction is unknown
      exactly when nobody was promoted in them, and otherwise ninety times the position over the
      promotions, never less for someone further back. */
  lemma WindowIsExact(ticks: seq<Tick>, now: int, position: int, behind: int)
    requires InOrder(ticks, now) && 0 < position <= behind
    ensures var total := WindowSum(ObserveAll(ticks), now, WINDOW);
            && total == Promoted(ticks, now - WINDOW, now)
            && (EtaSeconds(total, position) == -1 <==>
                  forall i :: 0 <= i < |ticks| ==> ticks[i].promoted <= 0 || ticks[i].at <= now - WINDOW)
            && (total > 0 ==> EtaSeconds(total, position) == WINDOW * position / total)
            && (total > 0 ==> EtaSeconds(total, position) <= EtaSeconds(total, behind))
  {
    var total := WindowSum(ObserveAll(ticks), now, WINDOW);
    SumIsPromoted(ticks, now, WINDOW);
    PromotedIsCount(ticks, now - WINDOW, now);
    hide EtaSeconds, WindowSum, ObserveAll, Promoted;
    if total > 0 {
      EtaIsQuotient(total, position);
      EtaIsQuotient(total, behind);
      QuotientMonotone(total, WINDOW * position, WINDOW * behind);
      assert WINDOW * position / total >= 0;
    } else {
      NoRate(position);
    }
  }

  lemma NoRate(position: int)
    ensures EtaSeconds(0, position) == -1
  {}
}
