/** The rules a seat request meets before anything else is asked: normalising and its refusals. */
module SeatRequests {
  import opened SortedSets

  datatype Normalized = Refused(code: string) | Seats(seats: seq<string>)

  /** Character.isWhitespace */
  predicate IsWhitespace(c: char) {
    var n := c as int;
    || 0x09 <= n <= 0x0D || 0x1C <= n <= 0x20 || n == 0x1680
    || (0x2000 <= n <= 0x200A && n != 0x2007) || n == 0x2028 || n == 0x2029 || n == 0x205F || n == 0x3000
  }

  predicate IsBlank(s: string) { forall c :: c in s ==> IsWhitespace(c) }

  function TrimLeft(s: string): string {
    if |s| > 0 && s[0] as int <= 0x20 then TrimLeft(s[1..]) else s
  }

  function TrimRight(s: string): string {
    if |s| > 0 && s[|s| - 1] as int <= 0x20 then TrimRight(s[..|s| - 1]) else s
  }

  /** String.trim: leading and trailing characters up to U+0020 go. */
  function Trim(s: string): string { TrimRight(TrimLeft(s)) }

  predicate AllLow(s: string) { forall c :: c in s ==> c as int <= 0x20 }

  lemma {:induction false} TrimLeftIs(s: string) returns (n: nat)
    ensures n <= |s| && AllLow(s[..n]) && TrimLeft(s) == s[n..]
    ensures n < |s| ==> s[n] as int > 0x20
  {
    if |s| > 0 && s[0] as int <= 0x20 {
      var m := TrimLeftIs(s[1..]);
      n := m + 1;
      assert s[..n] == [s[0]] + s[1..][..m];
    } else {
      n := 0;
    }
  }

  lemma {:induction false} TrimRightIs(s: string) returns (n: nat)
    ensures n <= |s| && AllLow(s[n..]) && TrimRight(s) == s[..n]
    ensures n > 0 ==> s[n - 1] as int > 0x20
  {
    if |s| > 0 && s[|s| - 1] as int <= 0x20 {
      var init := s[..|s| - 1];
      n := TrimRightIs(init);
      assert s[n..] == init[n..] + [s[|s| - 1]] && init[..n] == s[..n];
    } else {
      n := |s|;
      assert s[..n] == s;
    }
  }

  /** Trimming takes off both ends what is not above U+0020, and nothing more. */
  lemma TrimIs(s: string) returns (i: nat, j: nat)
    ensures i <= j <= |s| && Trim(s) == s[i..j] && AllLow(s[..i]) && AllLow(s[j..])
    ensures i < j ==> s[i] as int > 0x20 && s[j - 1] as int > 0x20
  {
    i := TrimLeftIs(s);
    var n := TrimRightIs(s[i..]);
    j := i + n;
    assert s[i..][..n] == s[i..j] && s[i..][n..] == s[j..];
    assert n > 0 ==> s[i..][n - 1] == s[j - 1];
  }

  predicate StrictlySorted(s: seq<string>) { forall i, j :: 0 <= i < j < |s| ==> LexLess(s[i], s[j]) }

  /** TreeSet.add */
  function AddSorted(s: seq<string>, x: string): seq<string> {
    if |s| == 0 || LexLess(x, s[0]) then [x] + s
    else if x == s[0] then s
    else [s[0]] + AddSorted(s[1..], x)
  }

  lemma {:induction false} AddSortedKeeps(s: seq<string>, x: string)
    requires StrictlySorted(s)
    ensures StrictlySorted(AddSorted(s, x))
    ensures ToSet(AddSorted(s, x)) == ToSet(s) + {x}
  {
    if |s| > 0 {
      assert ToSet(s) == {s[0]} + ToSet(s[1..]) by { assert s == [s[0]] + s[1..]; }
      if LexLess(x, s[0]) {
        forall i | 0 <= i < |s| ensures LexLess(x, s[i]) {
          if i > 0 { LexLessTransitive(x, s[0], s[i]); }
        }
      } else if x != s[0] {
        LexLessTrichotomy(x, s[0]);
        var t := AddSorted(s[1..], x);
        AddSortedKeeps(s[1..], x);
        forall i | 0 <= i < |t| ensures LexLess(s[0], t[i]) {
          assert t[i] in ToSet(t);
          assert t[i] == x || t[i] in s[1..];
        }
        assert ToSet([s[0]] + t) == {s[0]} + ToSet(t);
      }
    } else {
      assert ToSet([x]) == {x};
    }
  }

  /** Two strictly sorted lists of the same strings are one list. */
  lemma {:induction false} SortedSetsEqual(a: seq<string>, b: seq<string>)
    requires StrictlySorted(a) && StrictlySorted(b) && ToSet(a) == ToSet(b)
    ensures a == b
    decreases |a|
  {
    assert |b| > 0 ==> b[0] in ToSet(b);
    if |a| > 0 {
      assert a[0] in ToSet(b);
      HeadsAgree(a, b);
      TailSets(a);
      TailSets(b);
      SortedSetsEqual(a[1..], b[1..]);
      assert a == [a[0]] + a[1..] && b == [b[0]] + b[1..];
    }
  }

  lemma HeadsAgree(a: seq<string>, b: seq<string>)
    requires StrictlySorted(a) && StrictlySorted(b) && ToSet(a) == ToSet(b) && |a| > 0 && |b| > 0
    ensures a[0] == b[0]
  {
    assert a[0] in ToSet(b) && b[0] in ToSet(a);
    var i :| 0 <= i < |b| && b[i] == a[0];
    var j :| 0 <= j < |a| && a[j] == b[0];
    LexLessTrichotomy(a[0], b[0]);
  }

  lemma TailSets(a: seq<string>)
    requires StrictlySorted(a) && |a| > 0
    ensures ToSet(a[1..]) == ToSet(a) - {a[0]}
  {
    LexLessTrichotomy(a[0], a[0]);
    forall x ensures x in ToSet(a[1..]) <==> x in ToSet(a) && x != a[0] {
      if x in ToSet(a[1..]) { var i :| 0 < i < |a| && a[i] == x; }
      if x in ToSet(a) && x != a[0] { var i :| 0 <= i < |a| && a[i] == x; assert a[1..][i - 1] == x; }
    }
  }

  ghost function Trimmed(raw: seq<string>): set<string> { set s | s in raw :: Trim(s) }

  /** SeatRequest.normalize; a null list reads as empty and a null seat as blank. */
  function Normalize(raw: seq<string>, max: int): Normalized {
    if |raw| == 0 then Refused("EMPTY_SEATS")
    else if |raw| > max then Refused("TOO_MANY_SEATS")
    else Collect(raw)
  }

  function Collect(raw: seq<string>): Normalized {
    if |raw| == 0 then Seats([])
    else
      match Collect(raw[..|raw| - 1])
      case Refused(code) => Refused(code)
      case Seats(s) =>
        var last := raw[|raw| - 1];
        if IsBlank(last) then Refused("BAD_SEAT_NO") else Seats(AddSorted(s, Trim(last)))
  }

  lemma {:induction false} CollectFacts(raw: seq<string>)
    ensures Collect(raw).Seats? <==> forall s :: s in raw ==> !IsBlank(s)
    ensures Collect(raw).Refused? ==> Collect(raw) == Refused("BAD_SEAT_NO")
    ensures Collect(raw).Seats? ==> StrictlySorted(Collect(raw).seats) && ToSet(Collect(raw).seats) == Trimmed(raw)
    decreases |raw|
  {
    if |raw| > 0 {
      var init, last := raw[..|raw| - 1], raw[|raw| - 1];
      assert raw == init + [last];
      CollectFacts(init);
      if Collect(raw).Seats? {
        AddSortedKeeps(Collect(init).seats, Trim(last));
        assert Trimmed(raw) == Trimmed(init) + {Trim(last)};
      }
    }
  }

  /** What normalising promises: requests within the limit and without blanks become a strictly sorted
      list of exactly the trimmed seats, the others are refused for what is wrong with them, and the
      order and repetition of the request do not matter. */
  lemma NormalizeIsCanonical(a: seq<string>, b: seq<string>, max: int)
    ensures Normalize(a, max).Seats? <==> 0 < |a| <= max && forall s :: s in a ==> !IsBlank(s)
    ensures Normalize(a, max).Refused? ==>
              Normalize(a, max).code == if |a| == 0 then "EMPTY_SEATS"
                                        else if |a| > max then "TOO_MANY_SEATS"
                                        else "BAD_SEAT_NO"
    ensures Normalize(a, max).Seats? ==>
              StrictlySorted(Normalize(a, max).seats) && ToSet(Normalize(a, max).seats) == Trimmed(a)
    ensures Normalize(a, max).Seats? && Normalize(b, max).Seats? && Trimmed(a) == Trimmed(b) ==>
              Normalize(a, max) == Normalize(b, max)
    ensures multiset(a) == multiset(b) ==> Normalize(a, max) == Normalize(b, max)
  {
    CollectFacts(a);
    CollectFacts(b);
    var x, y := Normalize(a, max), Normalize(b, max);
    if x.Seats? && y.Seats? && Trimmed(a) == Trimmed(b) { SortedSetsEqual(x.seats, y.seats); }
    if multiset(a) == multiset(b) {
      SameMultiset(a, b);
      if x.Seats? && y.Seats? { SortedSetsEqual(x.seats, y.seats); }
    }
  }

  /** An accepted request has seats, and each of them can be asked for alone. */
  lemma EachSeatAlone(raw: seq<string>, max: int)
    requires Normalize(raw, max).Seats?
    ensures Normalize(raw, max).seats != []
    ensures forall x :: x in Normalize(raw, max).seats ==> exists y :: Normalize([y], max) == Seats([x])
  {
    var seats := Normalize(raw, max).seats;
    NormalizeIsCanonical(raw, raw, max);
    hide Normalize, Trim, IsBlank;
    assert Trim(raw[0]) in Trimmed(raw);
    forall x | x in seats ensures exists y :: Normalize([y], max) == Seats([x]) {
      assert x in Trimmed(raw);
      var y :| y in raw && Trim(y) == x;
      NormalizeIsCanonical([y], [y], max);
      assert Trimmed([y]) == {x} == ToSet([x]);
      SortedSetsEqual(Normalize([y], max).seats, [x]);
    }
  }

  lemma SameMultiset(a: seq<string>, b: seq<string>)
    requires multiset(a) == multiset(b)
    ensures |a| == |b| && Trimmed(a) == Trimmed(b) && forall s :: s in a <==> s in b
  {
    assert |multiset(a)| == |a| && |multiset(b)| == |b|;
    forall s ensures s in a <==> s in b {
      assert s in a <==> s in multiset(a);
      assert s in b <==> s in multiset(b);
    }
  }

  /** SeatRequest.normalize as it runs: a TreeSet filled in a loop. */
  method NormalizeRequest(raw: seq<string>, max: int) returns (r: Normalized)
    ensures r == Normalize(raw, max)
  {
    if |raw| == 0 { return Refused("EMPTY_SEATS"); }
    if |raw| > max { return Refused("TOO_MANY_SEATS"); }
    var uniq: seq<string> := [];
    for i := 0 to |raw|
      invariant Collect(raw[..i]) == Seats(uniq)
    {
      assert raw[..i + 1][..i] == raw[..i];
      if IsBlank(raw[i]) {
        BlankRefuses(raw, i);
        return Refused("BAD_SEAT_NO");
      }
      uniq := AddSorted(uniq, Trim(raw[i]));
    }
    assert raw[..|raw|] == raw;
    r := Seats(uniq);
  }

  lemma BlankRefuses(raw: seq<string>, i: nat)
    requires i < |raw| && IsBlank(raw[i])
    ensures Collect(raw) == Refused("BAD_SEAT_NO")
  {
    assert raw[i] in raw;
    CollectFacts(raw);
  }
}
