/** Redis sorted sets (ZSET): members with an integer score, kept in score order with
    ties broken by the byte order of the member. A set is stored as the strictly
    increasing sequence of its entries; `Scores` is the map a client sees. */
module SortedSets {

  datatype Entry = Entry(score: int, member: string)

  /** Byte order on members, shorter first on a common prefix. */
  predicate LexLess(a: string, b: string) {
    if |b| == 0 then false
    else if |a| == 0 then true
    else a[0] < b[0] || (a[0] == b[0] && LexLess(a[1..], b[1..]))
  }

  lemma {:induction false} LexLessTransitive(a: string, b: string, c: string)
    requires LexLess(a, b) && LexLess(b, c)
    ensures LexLess(a, c)
  {
    if |a| > 0 && a[0] == b[0] && b[0] == c[0] {
      LexLessTransitive(a[1..], b[1..], c[1..]);
    }
  }

  lemma {:induction false} LexLessTrichotomy(a: string, b: string)
    ensures LexLess(a, b) || a == b || LexLess(b, a)
    ensures !LexLess(a, a)
    ensures !(LexLess(a, b) && LexLess(b, a))
    decreases |a|
  {
    if |a| > 0 {
      LexLessTrichotomy(a[1..], if |b| > 0 then b[1..] else []);
      if |b| > 0 {
        assert a == [a[0]] + a[1..] && b == [b[0]] + b[1..];
      }
    }
  }

  predicate Before(a: Entry, b: Entry) {
    a.score < b.score || (a.score == b.score && LexLess(a.member, b.member))
  }

  lemma BeforeTransitive(a: Entry, b: Entry, c: Entry)
    requires Before(a, b) && Before(b, c)
    ensures Before(a, c)
  {
    if a.score == b.score == c.score {
      LexLessTransitive(a.member, b.member, c.member);
    }
  }

  lemma BeforeTrichotomy(a: Entry, b: Entry)
    ensures Before(a, b) || a == b || Before(b, a)
    ensures !Before(a, a)
    ensures !(Before(a, b) && Before(b, a))
  {
    LexLessTrichotomy(a.member, b.member);
    LexLessTrichotomy(a.member, a.member);
  }

  /** Each entry precedes everything behind it, and no member occurs twice. */
  ghost predicate Valid(z: seq<Entry>) {
    |z| == 0 ||
    (&& (forall x :: x in z[1..] ==> Before(z[0], x) && x.member != z[0].member)
     && Valid(z[1..]))
  }

  type Zset = z: seq<Entry> | Valid(z) witness []

  function Without(z: seq<Entry>, m: string): seq<Entry> {
    if |z| == 0 then []
    else if z[0].member == m then Without(z[1..], m)
    else [z[0]] + Without(z[1..], m)
  }

  lemma {:induction false} WithoutEntries(z: seq<Entry>, m: string)
    ensures forall x :: x in Without(z, m) <==> x in z && x.member != m
    ensures Valid(z) ==> Valid(Without(z, m))
    ensures |Without(z, m)| <= |z|
  {
    if |z| > 0 {
      assert forall x :: x in z <==> x == z[0] || x in z[1..];
      WithoutEntries(z[1..], m);
      assert ([z[0]] + Without(z[1..], m))[1..] == Without(z[1..], m);
    }
  }

  function Insert(z: seq<Entry>, e: Entry): seq<Entry> {
    if |z| == 0 || Before(e, z[0]) then [e] + z
    else [z[0]] + Insert(z[1..], e)
  }

  lemma {:induction false} InsertEntries(z: seq<Entry>, e: Entry)
    ensures forall x :: x in Insert(z, e) <==> x == e || x in z
    ensures Valid(z) && (forall x :: x in z ==> x.member != e.member) ==> Valid(Insert(z, e))
    ensures |Insert(z, e)| == |z| + 1
  {
    if |z| > 0 {
      assert forall x :: x in z <==> x == z[0] || x in z[1..];
      if Before(e, z[0]) {
        InsertFront(z, e);
      } else {
        BeforeTrichotomy(e, z[0]);
        InsertEntries(z[1..], e);
        assert ([z[0]] + Insert(z[1..], e))[1..] == Insert(z[1..], e);
      }
    }
  }

  lemma InsertFront(z: seq<Entry>, e: Entry)
    requires |z| > 0 && Before(e, z[0])
    ensures Valid(z) && (forall x :: x in z ==> x.member != e.member) ==> Valid([e] + z)
  {
    assert ([e] + z)[1..] == z;
    if Valid(z) {
      forall x | x in z ensures Before(e, x) {
        if x != z[0] { assert x in z[1..]; BeforeTransitive(e, z[0], x); }
      }
    }
  }

  /** What a client sees: each member's score. */
  function Scores(z: seq<Entry>): map<string, int> {
    if |z| == 0 then map[] else Scores(z[1..])[z[0].member := z[0].score]
  }

  lemma {:induction false} ScoresFacts(z: Zset)
    ensures forall e :: e in z ==> e.member in Scores(z) && Scores(z)[e.member] == e.score
    ensures forall k :: k in Scores(z) ==> Entry(Scores(z)[k], k) in z
    decreases |z|
  {
    if |z| > 0 {
      ScoresFacts(z[1..]);
      assert forall x :: x in z <==> x == z[0] || x in z[1..];
    }
  }

  lemma ScoresAre(z: Zset, m: map<string, int>)
    requires forall x :: x in z <==> x.member in m && m[x.member] == x.score
    ensures Scores(z) == m
  {
    ScoresFacts(z);
    forall k | k in m ensures k in Scores(z) { assert Entry(m[k], k) in z; }
  }

  lemma KeysWithout(m: map<string, int>, ks: set<string>)
    ensures (m - ks).Keys == m.Keys - ks
  {}

  lemma KeysWith(m: map<string, int>, k: string, v: int)
    ensures m[k := v].Keys == m.Keys + {k}
  {}

  /** ZREM */
  function Zrem(z: Zset, m: string): (r: Zset)
    ensures Scores(r) == Scores(z) - {m}
    ensures Scores(r).Keys == Scores(z).Keys - {m}
  {
    ScoresFacts(z);
    WithoutEntries(z, m);
    ScoresAre(Without(z, m), Scores(z) - {m});
    KeysWithout(Scores(z), {m});
    Without(z, m)
  }

  /** ZADD: a new member is inserted, an existing one moves to its new score. */
  function Zadd(z: Zset, score: int, m: string): (r: Zset)
    ensures Scores(r) == Scores(z)[m := score]
    ensures Scores(r).Keys == Scores(z).Keys + {m}
  {
    ScoresFacts(z);
    WithoutEntries(z, m);
    InsertEntries(Without(z, m), Entry(score, m));
    ScoresAre(Insert(Without(z, m), Entry(score, m)), Scores(z)[m := score]);
    KeysWith(Scores(z), m, score);
    Insert(Without(z, m), Entry(score, m))
  }

  lemma {:induction false} CardOfScores(z: Zset)
    ensures |Scores(z)| == |z|
    decreases |z|
  {
    if |z| > 0 {
      CardOfScores(z[1..]);
      ScoresFacts(z[1..]);
    }
  }

  /** Redis never holds two representations of one set: equal scores, equal sequence. */
  lemma SameScoresSameZset(a: Zset, b: Zset)
    requires Scores(a) == Scores(b)
    ensures a == b
  {
    ScoresFacts(a);
    ScoresFacts(b);
    forall x ensures x in a <==> x in b {
      if x in a { assert x.member in Scores(a); }
      if x in b { assert x.member in Scores(b); }
    }
    CardOfScores(a);
    CardOfScores(b);
    SameEntriesSameSeq(a, b);
  }

  lemma {:induction false} SameEntriesSameSeq(a: Zset, b: Zset)
    requires |a| == |b|
    requires forall x :: x in a <==> x in b
    ensures a == b
    decreases |a|
  {
    if |a| > 0 {
      assert a[0] in b && b[0] in a;
      BeforeTrichotomy(a[0], b[0]);
      assert a[0] == b[0];
      forall x ensures x in a[1..] <==> x in b[1..] {
        BeforeTrichotomy(a[0], a[0]);
        assert x in a <==> x == a[0] || x in a[1..];
        assert x in b <==> x == b[0] || x in b[1..];
      }
      SameEntriesSameSeq(a[1..], b[1..]);
      assert a == [a[0]] + a[1..] && b == [b[0]] + b[1..];
    }
  }

  /** Order and distinctness by position. */
  lemma {:induction false} Positions(z: Zset, i: nat, j: nat)
    requires i < j < |z|
    ensures Before(z[i], z[j]) && z[i].member != z[j].member
  {
    if i == 0 { assert z[j] == z[1..][j - 1] && z[j] in z[1..]; }
    else { Positions(z[1..], i - 1, j - 1); }
  }

  lemma {:induction false} TakeValid(z: Zset, n: nat)
    requires n <= |z|
    ensures Valid(z[..n])
  {
    if n > 0 {
      TakeValid(z[1..], n - 1);
      assert z[..n][1..] == z[1..][..n - 1];
      assert forall x :: x in z[1..][..n - 1] ==> x in z[1..];
    }
  }

  lemma {:induction false} DropValid(z: Zset, n: nat)
    requires n <= |z|
    ensures Valid(z[n..])
  {
    if n > 0 {
      DropValid(z[1..], n - 1);
      assert z[n..] == z[1..][n - 1..];
    }
  }

  function Names(z: seq<Entry>): (r: seq<string>)
    ensures |r| == |z|
  {
    if |z| == 0 then [] else [z[0].member] + Names(z[1..])
  }

  lemma {:induction false} NamesAt(z: seq<Entry>)
    ensures forall i :: 0 <= i < |z| ==> Names(z)[i] == z[i].member
  {
    if |z| > 0 { NamesAt(z[1..]); }
  }

  lemma {:induction false} NamesAreKeys(z: seq<Entry>)
    ensures forall m :: m in Names(z) <==> m in Scores(z)
  {
    if |z| > 0 {
      NamesAreKeys(z[1..]);
      assert forall m :: m in Names(z) <==> m == z[0].member || m in Names(z[1..]);
    }
  }

  function WithoutAll(z: seq<Entry>, ms: seq<string>): seq<Entry>
    decreases |ms|
  {
    if |ms| == 0 then z else WithoutAll(Without(z, ms[0]), ms[1..])
  }

  lemma {:induction false} WithoutAllEntries(z: seq<Entry>, ms: seq<string>)
    ensures forall x :: x in WithoutAll(z, ms) <==> x in z && x.member !in ms
    ensures Valid(z) ==> Valid(WithoutAll(z, ms))
    decreases |ms|
  {
    if |ms| > 0 {
      assert forall m :: m in ms <==> m == ms[0] || m in ms[1..];
      WithoutEntries(z, ms[0]);
      WithoutAllEntries(Without(z, ms[0]), ms[1..]);
    }
  }

  function ToSet(ms: seq<string>): set<string> { set m | m in ms }

  /** ZREM of several members, one after another. */
  function ZremAll(z: Zset, ms: seq<string>): (r: Zset)
    ensures Scores(r) == Scores(z) - ToSet(ms)
    ensures Scores(r).Keys == Scores(z).Keys - ToSet(ms)
  {
    ScoresFacts(z);
    WithoutAllEntries(z, ms);
    ScoresAre(WithoutAll(z, ms), Scores(z) - ToSet(ms));
    KeysWithout(Scores(z), ToSet(ms));
    WithoutAll(z, ms)
  }

  lemma {:induction false} WithoutAbsent(z: seq<Entry>, m: string)
    requires forall x :: x in z ==> x.member != m
    ensures Without(z, m) == z
  {
    if |z| > 0 {
      assert z[0] in z;
      WithoutAbsent(z[1..], m);
    }
  }

  /** Removing the members found at positions lo..hi leaves the two ends. */
  lemma ZremSlice(z: Zset, lo: nat, hi: nat)
    requires lo <= hi <= |z|
    ensures ZremAll(z, Names(z[lo..hi])) == z[..lo] + z[hi..]
  {
    var p, t, names := z[..lo], z[lo..], Names(z[lo..hi]);
    NamesAt(z[lo..hi]);
    FrontNotNamed(z, lo, names);
    assert z == p + t;
    WithoutAllBehind(p, t, names);
    DropValid(z, lo);
    WithoutPrefix(t, names);
    assert t[hi - lo..] == z[hi..];
  }

  lemma FrontNotNamed(z: Zset, lo: nat, names: seq<string>)
    requires lo + |names| <= |z|
    requires forall i :: 0 <= i < |names| ==> names[i] == z[lo + i].member
    ensures forall x :: x in z[..lo] ==> x.member !in names
  {
    forall x | x in z[..lo] ensures x.member !in names {
      var j :| 0 <= j < lo && z[j] == x;
      forall i | 0 <= i < |names| ensures names[i] != x.member { Positions(z, j, lo + i); }
    }
  }

  lemma {:induction false} WithoutAllBehind(p: seq<Entry>, t: seq<Entry>, names: seq<string>)
    requires forall x :: x in p ==> x.member !in names
    ensures WithoutAll(p + t, names) == p + WithoutAll(t, names)
    decreases |names|
  {
    if |names| > 0 {
      assert names[0] in names;
      WithoutBehind(p, t, names[0]);
      assert forall m :: m in names[1..] ==> m in names;
      WithoutAllBehind(p, Without(t, names[0]), names[1..]);
    }
  }

  lemma {:induction false} WithoutBehind(p: seq<Entry>, t: seq<Entry>, m: string)
    requires forall x :: x in p ==> x.member != m
    ensures Without(p + t, m) == p + Without(t, m)
    decreases |p|
  {
    if |p| == 0 {
      assert p + t == t && p + Without(t, m) == Without(t, m);
    } else {
      assert p[0] in p && (p + t)[1..] == p[1..] + t;
      assert forall x :: x in p[1..] ==> x in p;
      WithoutBehind(p[1..], t, m);
    }
  }

  lemma {:induction false} WithoutPrefix(z: Zset, names: seq<string>)
    requires |names| <= |z|
    requires forall i :: 0 <= i < |names| ==> names[i] == z[i].member
    ensures WithoutAll(z, names) == z[|names|..]
    decreases |names|
  {
    if |names| > 0 {
      WithoutAbsent(z[1..], names[0]);
      assert Without(z, names[0]) == z[1..];
      WithoutPrefix(z[1..], names[1..]);
      assert z[1..][|names| - 1..] == z[|names|..];
    }
  }

  /** ZRANK: the position of a member that is present. */
  function Zrank(z: Zset, m: string): (r: nat)
    requires m in Scores(z)
    ensures r < |z| && z[r] == Entry(Scores(z)[m], m)
    decreases |z|
  {
    if z[0].member == m then 0 else 1 + Zrank(z[1..], m)
  }

  /** How many entries of z precede e. */
  function Ahead(z: seq<Entry>, e: Entry): (n: nat)
    ensures n <= |z|
  {
    if |z| == 0 then 0 else (if Before(z[0], e) then 1 else 0) + Ahead(z[1..], e)
  }

  /** ZRANK counts the entries ahead. */
  lemma {:induction false} ZrankIsAhead(z: Zset, m: string)
    requires m in Scores(z)
    ensures Zrank(z, m) == Ahead(z, Entry(Scores(z)[m], m))
    decreases |z|
  {
    var e := Entry(Scores(z)[m], m);
    if z[0].member == m {
      BeforeTrichotomy(e, e);
      NoneAhead(z[1..], e);
    } else {
      ZrankIsAhead(z[1..], m);
    }
  }

  lemma {:induction false} NoneAhead(z: seq<Entry>, e: Entry)
    requires forall x :: x in z ==> Before(e, x)
    ensures Ahead(z, e) == 0
  {
    if |z| > 0 {
      assert z[0] in z;
      BeforeTrichotomy(e, z[0]);
      NoneAhead(z[1..], e);
    }
  }

  lemma {:induction false} AheadOfInsert(z: seq<Entry>, x: Entry, e: Entry)
    ensures Ahead(Insert(z, x), e) == Ahead(z, e) + if Before(x, e) then 1 else 0
  {
    if |z| > 0 {
      if Before(x, z[0]) {
        assert ([x] + z)[1..] == z;
      } else {
        AheadOfInsert(z[1..], x, e);
        assert ([z[0]] + Insert(z[1..], x))[1..] == Insert(z[1..], x);
      }
    }
  }

  lemma {:induction false} AheadOfWithout(z: Zset, m: string, e: Entry)
    ensures Ahead(Without(z, m), e)
         == Ahead(z, e) - if m in Scores(z) && Before(Entry(Scores(z)[m], m), e) then 1 else 0
    decreases |z|
  {
    if |z| > 0 {
      AheadOfWithout(z[1..], m, e);
      if z[0].member == m {
        ScoresFacts(z[1..]);
        assert m !in Scores(z[1..]);
      } else {
        assert ([z[0]] + Without(z[1..], m))[1..] == Without(z[1..], m);
      }
    }
  }

  /** Number of leading entries whose score is at most x. */
  function UpTo(z: Zset, x: int): (n: nat)
    ensures n <= |z|
    decreases |z|
  {
    if |z| == 0 || z[0].score > x then 0 else 1 + UpTo(z[1..], x)
  }

  /** The set is in score order, so these are all the entries with such a score. */
  lemma {:induction false} UpToFacts(z: Zset, x: int)
    ensures forall i :: 0 <= i < |z| ==> (z[i].score <= x <==> i < UpTo(z, x))
    decreases |z|
  {
    if |z| > 0 {
      if z[0].score > x {
        forall i | 0 < i < |z| ensures z[i].score > x { Positions(z, 0, i); }
      } else {
        UpToFacts(z[1..], x);
        assert forall i :: 0 < i < |z| ==> z[i] == z[1..][i - 1];
      }
    }
  }

  /** ZRANGEBYSCORE z lo hi LIMIT 0 limit. */
  function RangeByScore(z: Zset, lo: int, hi: int, limit: nat): (r: seq<string>)
  {
    var from := UpTo(z, lo - 1);
    var to := UpTo(z, hi);
    if to <= from then [] else Names(z[from..if to - from < limit then to else from + limit])
  }
}
