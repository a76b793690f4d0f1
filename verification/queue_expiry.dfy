/** Repeated bounded expiry: how many rounds, who goes, what booking is owed. */
module QueueExpiry {
  import opened SortedSets
  import opened Journal
  import opened Queues

  /** The expiry script repeated with one cutoff, at the given times. */
  function Rounds(q: Queue, cutoff: int, nows: seq<int>): Queue
    decreases |nows|
  {
    if |nows| == 0 then q else Rounds(ExpireActive(q, cutoff, nows[0]).0, cutoff, nows[1..])
  }

  /** Sessions with a score in 0..cutoff occupy positions From..Until of the set. */
  function From(z: Zset): nat { UpTo(z, -1) }
  function Until(z: Zset, cutoff: int): nat { if UpTo(z, cutoff) < From(z) then From(z) else UpTo(z, cutoff) }

  function Due(z: Zset, cutoff: int): (n: nat)
    ensures From(z) + n <= |z|
  {
    Until(z, cutoff) - From(z)
  }

  function AtMost(limit: nat, n: nat): nat { if n < limit then n else limit }

  function Cut(z: Zset, lo: nat, hi: nat): (r: Zset)
    requires lo <= hi <= |z|
    ensures r == z[..lo] + z[hi..]
  {
    ZremSlice(z, lo, hi);
    z[..lo] + z[hi..]
  }

  lemma CutAt(z: Zset, lo: nat, k: nat)
    requires lo + k <= |z|
    ensures |Cut(z, lo, lo + k)| == |z| - k
    ensures forall i :: 0 <= i < |z| - k ==> Cut(z, lo, lo + k)[i] == if i < lo then z[i] else z[i + k]
  {}

  /** A prefix of the due sessions goes: the rest stay due, at the same place. */
  lemma CutDue(z: Zset, cutoff: int, k: nat)
    requires k <= Until(z, cutoff) - From(z)
    ensures var z' := Cut(z, From(z), From(z) + k);
            From(z') == From(z) && Until(z', cutoff) == Until(z, cutoff) - k
  {
    var a, b := From(z), Until(z, cutoff);
    CutAt(z, a, k);
    CutBound(z, a, k, -1, a);
    if UpTo(z, cutoff) < a {
      UpToMonotone(z, cutoff, -1);
      CutBound(z, a, 0, cutoff, UpTo(z, cutoff));
    } else {
      CutBound(z, a, k, cutoff, b);
    }
  }

  lemma CutBound(z: Zset, a: nat, k: nat, x: int, n: nat)
    requires a + k <= |z| && n == UpTo(z, x) && (n <= a || a + k <= n)
    ensures UpTo(Cut(z, a, a + k), x) == if n <= a then n else n - k
  {
    CutAt(z, a, k);
    UpToFacts(z, x);
    UpToIs(Cut(z, a, a + k), x, if n <= a then n else n - k);
  }

  lemma UpToMonotone(z: Zset, x: int, y: int)
    requires UpTo(z, x) < UpTo(z, y)
    ensures x < y
  {
    UpToFacts(z, x);
    UpToFacts(z, y);
    assert z[UpTo(z, x)].score > x;
  }

  lemma UpToIs(z: Zset, x: int, n: nat)
    requires n <= |z|
    requires forall i :: 0 <= i < |z| ==> (z[i].score <= x <==> i < n)
    ensures UpTo(z, x) == n
  {
    UpToFacts(z, x);
    var m := UpTo(z, x);
    assert m < |z| ==> z[m].score > x;
    assert n < |z| ==> z[n].score > x;
  }

  lemma RangeIsHead(z: Zset, cutoff: int)
    ensures RangeByScore(z, 0, cutoff, 1000) == Names(z[From(z)..From(z) + AtMost(1000, Due(z, cutoff))])
  {
    if Due(z, cutoff) == 0 { assert z[From(z)..From(z)] == []; }
  }

  lemma RangeRemoved(z: Zset, cutoff: int, k: nat)
    requires k == AtMost(1000, Due(z, cutoff))
    ensures ZremAll(z, RangeByScore(z, 0, cutoff, 1000)) == Cut(z, From(z), From(z) + k)
  {
    RangeIsHead(z, cutoff);
    ZremSlice(z, From(z), From(z) + k);
  }

  /** One round removes the first 1000 due sessions, in order, and nothing else. */
  lemma OneRound(q: Queue, cutoff: int, now: int)
    ensures var z := q.active;
            var k := AtMost(1000, Due(z, cutoff));
            && ExpireActive(q, cutoff, now).1 == Names(z[From(z)..From(z) + k])
            && ExpireActive(q, cutoff, now).0.active == Cut(z, From(z), From(z) + k)
  {
    hide RevokeAll, RangeByScore, ZremAll, Cut, Due, From, Names;
    RangeIsHead(q.active, cutoff);
    RangeRemoved(q.active, cutoff, AtMost(1000, Due(q.active, cutoff)));
  }

  ghost predicate Revoked(q: Queue, u: string) {
    Owes(q, Revoke(OnTimeout, u)) && !Owes(q, Admit(ViaEnter, u)) && !Owes(q, Admit(ViaPromote, u))
  }

  lemma RoundRevokes(q: Queue, cutoff: int, now: int)
    ensures var (q', users) := ExpireActive(q, cutoff, now);
            && (forall u :: u in ToSet(users) ==> Revoked(q', u))
            && (forall u :: Revoked(q, u) ==> Revoked(q', u))
  {
    var (q', users) := ExpireActive(q, cutoff, now);
    RevokeAllStep(q.pending, users, now);
    var c := NO_CHANGE.(added := Timeouts(users), cleared := ToSet(users), stamp := now);
    forall u | u in ToSet(users) || Revoked(q, u) ensures Revoked(q', u) {
      WithdrawnAndOwed(q, q', c, u);
    }
  }

  lemma WithdrawnAndOwed(q: Queue, q': Queue, c: Change, u: string)
    requires JournalStep(q.pending, q'.pending, c) && c.dropped == {}
    requires forall n :: n in c.added ==> n.Revoke?
    requires Revoked(q, u) || (u in c.cleared && Revoke(OnTimeout, u) in c.added)
    ensures Revoked(q', u)
  {
    var r := Revoke(OnTimeout, u);
    assert Owes(q', r) <==> r in c.added || Kept(q.pending, c, r);
    var a, b := Admit(ViaEnter, u), Admit(ViaPromote, u);
    assert Owes(q', a) <==> a in c.added || Kept(q.pending, c, a);
    assert Owes(q', b) <==> b in c.added || Kept(q.pending, c, b);
  }

  lemma {:induction false} RevokedStays(q: Queue, cutoff: int, nows: seq<int>, u: string)
    requires Revoked(q, u)
    ensures Revoked(Rounds(q, cutoff, nows), u)
    decreases |nows|
  {
    if |nows| > 0 {
      RoundRevokes(q, cutoff, nows[0]);
      RevokedStays(ExpireActive(q, cutoff, nows[0]).0, cutoff, nows[1..], u);
    }
  }

  lemma AtMostAdds(r: nat, d: nat)
    requires r > 0
    ensures AtMost(1000, d) + AtMost(1000 * (r - 1), d - AtMost(1000, d)) == AtMost(1000 * r, d)
  {}

  /** The set after r rounds. */
  function CutRounds(z: Zset, cutoff: int, r: nat): Zset
    decreases r
  {
    if r == 0 then z else CutRounds(Cut(z, From(z), From(z) + AtMost(1000, Due(z, cutoff))), cutoff, r - 1)
  }

  lemma {:induction false} CutRoundsIs(z: Zset, cutoff: int, r: nat)
    ensures CutRounds(z, cutoff, r) == Cut(z, From(z), From(z) + AtMost(1000 * r, Due(z, cutoff)))
    decreases r
  {
    hide Due, From;
    assert From(z) + Due(z, cutoff) <= |z|;
    if r == 0 {
      CutAt(z, From(z), 0);
    } else {
      var k1 := AtMost(1000, Due(z, cutoff));
      CutRoundsIs(Cut(z, From(z), From(z) + k1), cutoff, r - 1);
      CutsJoin(z, cutoff, r, k1);
    }
  }

  lemma CutsJoin(z: Zset, cutoff: int, r: nat, k1: nat)
    requires r > 0 && k1 == AtMost(1000, Due(z, cutoff))
    ensures var z1 := Cut(z, From(z), From(z) + k1);
            Cut(z1, From(z1), From(z1) + AtMost(1000 * (r - 1), Due(z1, cutoff)))
            == Cut(z, From(z), From(z) + AtMost(1000 * r, Due(z, cutoff)))
  {
    CutDue(z, cutoff, k1);
    AtMostAdds(r, Due(z, cutoff));
    CutTwice(z, From(z), k1, AtMost(1000 * (r - 1), Due(z, cutoff) - k1));
  }

  lemma {:induction false} RoundsAreCuts(q: Queue, cutoff: int, nows: seq<int>)
    ensures Rounds(q, cutoff, nows).active == CutRounds(q.active, cutoff, |nows|)
    decreases |nows|
  {
    hide ExpireActive, Cut, Due, From;
    if |nows| > 0 {
      OneRound(q, cutoff, nows[0]);
      RoundsAreCuts(ExpireActive(q, cutoff, nows[0]).0, cutoff, nows[1..]);
    }
  }

  /** After r rounds exactly the first min(due, 1000 r) due sessions are gone, in whatever
      state the queue started. */
  lemma RoundsRemove(q: Queue, cutoff: int, nows: seq<int>)
    ensures var z := q.active;
            Rounds(q, cutoff, nows).active == Cut(z, From(z), From(z) + AtMost(1000 * |nows|, Due(z, cutoff)))
  {
    RoundsAreCuts(q, cutoff, nows);
    CutRoundsIs(q.active, cutoff, |nows|);
  }

  lemma LaterDue(z: Zset, cutoff: int, r: nat, i: nat)
    requires r > 0
    requires From(z) + AtMost(1000, Due(z, cutoff)) <= i < From(z) + AtMost(1000 * r, Due(z, cutoff))
    ensures var k1 := AtMost(1000, Due(z, cutoff));
            var z1 := Cut(z, From(z), From(z) + k1);
            && From(z1) <= i - k1 < From(z1) + AtMost(1000 * (r - 1), Due(z1, cutoff))
            && z1[i - k1] == z[i]
  {
    var k1 := AtMost(1000, Due(z, cutoff));
    CutDue(z, cutoff, k1);
    CutAt(z, From(z), k1);
    AtMostAdds(r, Due(z, cutoff));
  }

  lemma {:induction false} RoundsRevoke(q: Queue, cutoff: int, nows: seq<int>, i: nat)
    requires From(q.active) <= i < From(q.active) + AtMost(1000 * |nows|, Due(q.active, cutoff))
    ensures Revoked(Rounds(q, cutoff, nows), q.active[i].member)
    decreases |nows|
  {
    hide ExpireActive, Cut, Due, From, Revoked;
    var z := q.active;
    var a, k1 := From(z), AtMost(1000, Due(z, cutoff));
    OneRound(q, cutoff, nows[0]);
    if i < a + k1 {
      FirstRoundRevokes(q, cutoff, nows[0], i);
      RevokedStays(ExpireActive(q, cutoff, nows[0]).0, cutoff, nows[1..], z[i].member);
    } else {
      LaterDue(z, cutoff, |nows|, i);
      RoundsRevoke(ExpireActive(q, cutoff, nows[0]).0, cutoff, nows[1..], i - k1);
    }
  }

  lemma FirstRoundRevokes(q: Queue, cutoff: int, now: int, i: nat)
    requires From(q.active) <= i < From(q.active) + AtMost(1000, Due(q.active, cutoff))
    ensures Revoked(ExpireActive(q, cutoff, now).0, q.active[i].member)
  {
    hide ExpireActive, Cut, Due, From, Revoked;
    OneRound(q, cutoff, now);
    RoundRevokes(q, cutoff, now);
    NamesAt(q.active[From(q.active)..From(q.active) + AtMost(1000, Due(q.active, cutoff))]);
    assert ExpireActive(q, cutoff, now).1[i - From(q.active)] == q.active[i].member;
  }

  lemma CutTwice(z: Zset, a: nat, k1: nat, k2: nat)
    requires a + k1 + k2 <= |z|
    ensures Cut(Cut(z, a, a + k1), a, a + k2) == Cut(z, a, a + k1 + k2)
  {
    var z1 := z[..a] + z[a + k1..];
    assert z1[..a] == z[..a] && z1[a + k2..] == z[a + k1 + k2..];
  }

  /** Enough rounds drain the set: exactly the sessions outside 0..cutoff remain, none of them
      touched, and every session that went is owed a revoke. One round fewer than
      due / 1000 rounded up leaves some due session behind. */
  lemma ExpiryDrains(q: Queue, cutoff: int, nows: seq<int>)
    ensures var z := q.active;
            var q' := Rounds(q, cutoff, nows);
            && (1000 * |nows| >= Due(z, cutoff) <==>
                  forall e :: e in q'.active <==> e in z && !(0 <= e.score <= cutoff))
            && (forall e :: e in z && !(0 <= e.score <= cutoff) ==> e in q'.active)
            && (forall e :: e in z && e !in q'.active ==> Revoked(q', e.member))
  {
    var z := q.active;
    var k := AtMost(1000 * |nows|, Due(z, cutoff));
    var q' := Rounds(q, cutoff, nows);
    RoundsRemove(q, cutoff, nows);
    CutKeeps(z, cutoff, k);
    CutMembers(z, From(z), From(z) + k);
    forall e | e in z && e !in q'.active ensures Revoked(q', e.member) {
      var i :| 0 <= i < |z| && z[i] == e;
      RoundsRevoke(q, cutoff, nows, i);
    }
  }

  lemma CutKeeps(z: Zset, cutoff: int, k: nat)
    requires k <= Due(z, cutoff)
    ensures var r := Cut(z, From(z), From(z) + k);
            && (k == Due(z, cutoff) <==> forall e :: e in r <==> e in z && !(0 <= e.score <= cutoff))
            && (forall e :: e in z && !(0 <= e.score <= cutoff) ==> e in r)
  {
    var a := From(z);
    var r := Cut(z, a, a + k);
    CutMembers(z, a, a + k);
    DueIsSpan(z, cutoff);
    forall e | e in z && !(0 <= e.score <= cutoff) ensures e in r {
      var i :| 0 <= i < |z| && z[i] == e;
    }
    if k == Due(z, cutoff) {
      forall e | e in r ensures !(0 <= e.score <= cutoff) {
        var i :| 0 <= i < |z| && z[i] == e;
      }
    } else {
      assert z[a + k] in r && 0 <= z[a + k].score <= cutoff;
    }
  }

  lemma DueIsSpan(z: Zset, cutoff: int)
    ensures forall i :: 0 <= i < |z| ==> (0 <= z[i].score <= cutoff <==> From(z) <= i < Until(z, cutoff))
  {
    UpToFacts(z, -1);
    UpToFacts(z, cutoff);
  }

  lemma CutMembers(z: Zset, lo: nat, hi: nat)
    requires lo <= hi <= |z|
    ensures forall i :: 0 <= i < |z| ==> (z[i] in Cut(z, lo, hi) <==> !(lo <= i < hi))
    ensures forall e :: e in Cut(z, lo, hi) ==> e in z
  {
    var r := Cut(z, lo, hi);
    forall i | 0 <= i < |z| ensures z[i] in r <==> !(lo <= i < hi) {
      if i < lo { assert r[i] == z[i]; }
      else if i >= hi { assert r[i - (hi - lo)] == z[i]; }
      else if z[i] in r {
        var j :| 0 <= j < |r| && r[j] == z[i];
        var j' := if j < lo then j else j + (hi - lo);
        if j' < i { Positions(z, j', i); } else { Positions(z, i, j'); }
      }
    }
  }

  // ---- the waiting line ----

  /** The waiting expiry repeated r times with one cutoff. */
  function WaitRounds(q: Queue, cutoff: int, r: nat): Queue
    decreases r
  {
    if r == 0 then q else WaitRounds(ExpireWaiting(q, cutoff).0, cutoff, r - 1)
  }

  /** One round takes the same users out of the line and out of the liveness stamps. */
  lemma WaitRound(q: Queue, cutoff: int)
    requires Scores(q.waiting).Keys == Scores(q.lastseen).Keys
    ensures var z := q.lastseen;
            var (q', users) := ExpireWaiting(q, cutoff);
            && users == Names(z[From(z)..From(z) + AtMost(1000, Due(z, cutoff))])
            && q'.lastseen == Cut(z, From(z), From(z) + AtMost(1000, Due(z, cutoff)))
            && Scores(q'.waiting).Keys == Scores(q'.lastseen).Keys
            && (forall e :: e in q'.waiting ==> e in q.waiting)
            && q' == q.(waiting := q'.waiting, lastseen := q'.lastseen)
  {
    RangeIsHead(q.lastseen, cutoff);
    RangeRemoved(q.lastseen, cutoff, AtMost(1000, Due(q.lastseen, cutoff)));
    WithoutAllEntries(q.waiting, RangeByScore(q.lastseen, 0, cutoff, 1000));
    hide RangeByScore, ZremAll, Cut, Due, From, Scores;
    assert ExpireWaiting(q, cutoff).0.waiting == WithoutAll(q.waiting, RangeByScore(q.lastseen, 0, cutoff, 1000)) by {
      RemovedIs(q.waiting, RangeByScore(q.lastseen, 0, cutoff, 1000));
    }
  }

  lemma RemovedIs(z: Zset, ms: seq<string>)
    ensures ZremAll(z, ms) == WithoutAll(z, ms)
  {}

  lemma {:induction false} WaitRoundsAre(q: Queue, cutoff: int, r: nat)
    requires Scores(q.waiting).Keys == Scores(q.lastseen).Keys
    ensures var q' := WaitRounds(q, cutoff, r);
            && q'.lastseen == CutRounds(q.lastseen, cutoff, r)
            && Scores(q'.waiting).Keys == Scores(q'.lastseen).Keys
            && (forall e :: e in q'.waiting ==> e in q.waiting)
            && q' == q.(waiting := q'.waiting, lastseen := q'.lastseen)
    decreases r
  {
    hide ExpireWaiting, Cut, Due, From, Scores;
    if r > 0 {
      WaitRound(q, cutoff);
      WaitRoundsAre(ExpireWaiting(q, cutoff).0, cutoff, r - 1);
    }
  }

  /** The waiting line drains alike: after enough rounds, and not before, exactly the users whose
      last poll is outside 0..cutoff are left, each at the place it had; sessions and journal are
      not touched. */
  lemma WaitersDrain(q: Queue, cutoff: int, r: nat)
    requires Scores(q.waiting).Keys == Scores(q.lastseen).Keys
    ensures var z := q.lastseen;
            var q' := WaitRounds(q, cutoff, r);
            && (1000 * r >= Due(z, cutoff) <==>
                  forall e :: e in q'.lastseen <==> e in z && !(0 <= e.score <= cutoff))
            && Scores(q'.waiting).Keys == Scores(q'.lastseen).Keys
            && (forall e :: e in q'.waiting ==> e in q.waiting)
            && q'.active == q.active && q'.pending == q.pending
  {
    WaitRoundsAre(q, cutoff, r);
    CutRoundsIs(q.lastseen, cutoff, r);
    hide WaitRounds, CutRounds, Scores;
    CutKeeps(q.lastseen, cutoff, AtMost(1000 * r, Due(q.lastseen, cutoff)));
  }
}
