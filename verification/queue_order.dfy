/** Order in the line: what a promotion takes, who can be overtaken, how expiry drains. */
module QueueOrder {
  import opened SortedSets
  import opened Queues
  import opened QueueSteps
  import opened QueueRuns

  // ---- promotion ----

  lemma {:induction false} ZrankAt(z: Zset, i: nat)
    requires i < |z|
    ensures z[i].member in Scores(z) && Scores(z)[z[i].member] == z[i].score
    ensures Zrank(z, z[i].member) == i
    decreases |z|
  {
    if i > 0 {
      Positions(z, 0, i);
      ZrankAt(z[1..], i - 1);
    }
  }

  /** Dropping the first n lowers every remaining rank by n. */
  lemma RankBehindPrefix(z: Zset, n: nat, m: string)
    requires n <= |z| && m in Scores(z[n..])
    ensures Valid(z[n..])
    ensures m in Scores(z) && Scores(z)[m] == Scores(z[n..])[m] && Zrank(z, m) == n + Zrank(z[n..], m)
  {
    DropValid(z, n);
    var i := Zrank(z[n..], m);
    assert z[n..][i] == z[n + i];
    ZrankAt(z, n + i);
  }

  lemma {:induction false} MoveAllStamps(q: Queue, users: seq<string>, now: int)
    ensures var a := Scores(MoveAll(q, users, now).active);
            && (forall u :: u in ToSet(users) ==> u in a && a[u] == now)
            && (forall u :: u in Scores(q.active) && u !in ToSet(users) ==> u in a && a[u] == Scores(q.active)[u])
    decreases |users|
  {
    if |users| > 0 {
      MoveAllStamps(q, users[..|users| - 1], now);
      NoticesStep(users);
    }
  }

  lemma LineAfterPromote(q: Queue, max: int, batch: int, now: int)
    ensures Promote(q, max, batch, now).0.waiting == q.waiting[PromoteCount(q, max, batch)..]
  {
    var n := PromoteCount(q, max, batch);
    var users := Names(q.waiting[..n]);
    MoveAllLeaves(q, users, now);
    ZremSlice(q.waiting, 0, n);
    assert q.waiting[0..n] == q.waiting[..n];
    DropValid(q.waiting, n);
    assert q.waiting[..0] + q.waiting[n..] == q.waiting[n..];
    SameScoresSameZset(MoveAll(q, users, now).waiting, ZremAll(q.waiting, users));
  }

  lemma DisjointUnionSize(a: set<string>, b: set<string>)
    requires a !! b
    ensures |a + b| == |a| + |b|
  {}

  lemma {:induction false} PrefixNamesSize(z: Zset)
    ensures |ToSet(Names(z))| == |z|
  {
    NamesAreKeys(z);
    CardOfScores(z);
    assert ToSet(Names(z)) == Scores(z).Keys;
  }

  /** A promotion moves exactly min(vacancy, batch, waiting) users, the lowest ranked in order;
      seats plus line is conserved; everyone left behind moves up by that number. */
  lemma PromoteMovesTheHead(q: Queue, max: int, batch: int, now: int)
    requires QueueInv(q, max)
    ensures var n := PromoteCount(q, max, batch);
            var (q', users) := Promote(q, max, batch, now);
            && (n == 0 || (n <= max - |q.active| && n <= batch))
            && (n == |q.waiting| || n >= max - |q.active| || n >= batch)
            && users == Names(q.waiting[..n])
            && |q'.active| == |q.active| + n
            && |q'.waiting| == |q.waiting| - n
            && (forall u :: u in ToSet(users) ==> u in Scores(q'.active) && Scores(q'.active)[u] == now)
            && (forall m :: m in Scores(q'.waiting) ==>
                  m in Scores(q.waiting) && Zrank(q'.waiting, m) == Zrank(q.waiting, m) - n)
  {
    var n := PromoteCount(q, max, batch);
    var (q', users) := Promote(q, max, batch, now);
    LineAfterPromote(q, max, batch, now);
    forall m | m in Scores(q'.waiting)
      ensures m in Scores(q.waiting) && Zrank(q'.waiting, m) == Zrank(q.waiting, m) - n
    {
      RankBehindPrefix(q.waiting, n, m);
    }
    MoveAllStamps(q, users, now);
    SeatsAfterPromote(q, max, batch, now);
  }

  lemma SizeAfterMoveAll(q: Queue, users: seq<string>, now: int)
    requires ToSet(users) !! Scores(q.active).Keys
    ensures |MoveAll(q, users, now).active| == |q.active| + |ToSet(users)|
  {
    MoveAllSeats(q, users, now);
    CardOfScores(q.active);
    CardOfScores(MoveAll(q, users, now).active);
    DisjointUnionSize(Scores(q.active).Keys, ToSet(users));
  }

  lemma HeadSize(z: Zset, n: nat)
    requires n <= |z|
    ensures |ToSet(Names(z[..n]))| == n
  {
    TakeValid(z, n);
    PrefixNamesSize(z[..n]);
  }

  lemma SeatsAfterPromote(q: Queue, max: int, batch: int, now: int)
    requires QueueInv(q, max)
    ensures |Promote(q, max, batch, now).0.active| == |q.active| + PromoteCount(q, max, batch)
  {
    var n := PromoteCount(q, max, batch);
    HeadSize(q.waiting, n);
    PrefixNames(q.waiting, n);
    SizeAfterMoveAll(q, Names(q.waiting[..n]), now);
  }

  lemma {:induction false} MoveAllAppend(q: Queue, a: seq<string>, b: seq<string>, now: int)
    ensures MoveAll(q, a + b, now) == MoveAll(MoveAll(q, a, now), b, now)
    decreases |b|
  {
    if |b| == 0 {
      assert a + b == a;
    } else {
      var i := b[..|b| - 1];
      assert (a + b)[..|a + b| - 1] == a + i;
      MoveAllAppend(q, a, i, now);
    }
  }

  lemma {:induction false} MoveAllIgnoresCounter(q: Queue, users: seq<string>, now: int, c: nat)
    ensures MoveAll(q.(promoted := c), users, now) == MoveAll(q, users, now).(promoted := c)
    decreases |users|
  {
    if |users| > 0 { MoveAllIgnoresCounter(q, users[..|users| - 1], now, c); }
  }

  lemma CountsAdd(q: Queue, max: int, b1: nat, b2: nat, now: int)
    requires QueueInv(q, max)
    ensures PromoteCount(q, max, b1 + b2)
         == PromoteCount(q, max, b1) + PromoteCount(Promote(q, max, b1, now).0, max, b2)
  {
    LineAfterPromote(q, max, b1, now);
    SeatsAfterPromote(q, max, b1, now);
  }

  lemma NamesSplit(z: seq<Entry>, n1: nat, n2: nat)
    requires n1 + n2 <= |z|
    ensures Names(z[..n1 + n2]) == Names(z[..n1]) + Names(z[n1..][..n2])
  {
    NamesAt(z[..n1 + n2]);
    NamesAt(z[..n1]);
    NamesAt(z[n1..][..n2]);
  }

  lemma MovesCompose(q: Queue, a: seq<string>, b: seq<string>, now: int, x: nat, y: nat)
    ensures MoveAll(MoveAll(q, a, now).(promoted := x), b, now).(promoted := y)
         == MoveAll(q, a + b, now).(promoted := y)
  {
    MoveAllAppend(q, a, b, now);
    MoveAllIgnoresCounter(MoveAll(q, a, now), b, now, x);
  }

  /** A promotion reports the head of the line. */
  lemma Reported(q: Queue, max: int, batch: int, now: int)
    ensures Promote(q, max, batch, now).1 == Names(q.waiting[..PromoteCount(q, max, batch)])
  {
    hide MoveAll, Names, PromoteCount;
  }

  lemma UsersJoin(q: Queue, max: int, b1: nat, b2: nat, now: int)
    requires QueueInv(q, max)
    ensures var (q1, a) := Promote(q, max, b1, now);
            Promote(q, max, b1 + b2, now).1 == a + Promote(q1, max, b2, now).1
  {
    hide Promote, PromoteCount, MoveAll, Names, QueueInv;
    CountsAdd(q, max, b1, b2, now);
    LineAfterPromote(q, max, b1, now);
    var (q1, a) := Promote(q, max, b1, now);
    Reported(q, max, b1, now);
    Reported(q1, max, b2, now);
    Reported(q, max, b1 + b2, now);
    NamesSplit(q.waiting, PromoteCount(q, max, b1), PromoteCount(q1, max, b2));
  }

  /** A promotion's queue in terms of the users it reports. */
  lemma PromoteShape(q: Queue, max: int, batch: int, now: int, r: (Queue, seq<string>))
    requires r == Promote(q, max, batch, now)
    ensures r.0 == MoveAll(q, r.1, now).(promoted := q.promoted + |r.1|)
  {
    hide MoveAll, Names, PromoteCount;
  }

  lemma QueuesJoin(q: Queue, q1: Queue, q2: Queue, r: Queue, a: seq<string>, b: seq<string>, now: int)
    requires q1 == MoveAll(q, a, now).(promoted := q.promoted + |a|)
    requires q2 == MoveAll(q1, b, now).(promoted := q1.promoted + |b|)
    requires r == MoveAll(q, a + b, now).(promoted := q.promoted + |a + b|)
    ensures r == q2
  {
    hide MoveAll, Names;
    MovesCompose(q, a, b, now, q.promoted + |a|, q.promoted + |a| + |b|);
  }

  /** Two promotions at one time are one promotion of the summed batch: overlapping pod loops
      promote nobody a single loop would not. */
  lemma PromoteComposes(q: Queue, max: int, b1: nat, b2: nat, now: int)
    requires QueueInv(q, max)
    ensures var (q1, users1) := Promote(q, max, b1, now);
            var (q2, users2) := Promote(q1, max, b2, now);
            Promote(q, max, b1 + b2, now) == (q2, users1 + users2)
  {
    hide Promote, MoveAll, QueueInv;
    var (q1, a) := Promote(q, max, b1, now);
    var (q2, b) := Promote(q1, max, b2, now);
    var r := Promote(q, max, b1 + b2, now);
    UsersJoin(q, max, b1, b2, now);
    PromoteShape(q, max, b1, now, (q1, a));
    PromoteShape(q1, max, b2, now, (q2, b));
    PromoteShape(q, max, b1 + b2, now, r);
    QueuesJoin(q, q1, q2, r.0, a, b, now);
  }

  // ---- times ----

  lemma SeatTimes(q: Queue, max: int, s: Script)
    ensures var a, c := Scores(Step(q, max, s).active), ChangeOf(q, max, s);
            forall u :: u in a ==>
              if u in c.admitted then (s.EnterUser? || s.PromoteHead?) && a[u] == s.now
              else u in Scores(q.active) && a[u] == Scores(q.active)[u]
  {
    hide MoveAll, RangeByScore, RevokeAll, Names, PromoteCount, AdmitLines, Scores, Zrank;
    if s.PromoteHead? {
      var users := Promote(q, max, s.batch, s.now).1;
      MoveAllStamps(q, users, s.now);
      MoveAllSeats(q, users, s.now);
      assert forall u :: u in Scores(MoveAll(q, users, s.now).active)
                    <==> u in Scores(MoveAll(q, users, s.now).active).Keys;
    }
  }

  lemma LineTimes(q: Queue, max: int, s: Script)
    ensures var w, c := Scores(Step(q, max, s).waiting), ChangeOf(q, max, s);
            forall u :: u in w ==>
              if u in c.joined then s.EnterUser? && w[u] == s.now
              else u in Scores(q.waiting) && w[u] == Scores(q.waiting)[u]
  {
    hide MoveAll, RangeByScore, RevokeAll, Names, PromoteCount, AdmitLines, Scores, Zrank;
    if s.PromoteHead? { MoveAllLeaves(q, Promote(q, max, s.batch, s.now).1, s.now); }
  }

  lemma StampTimes(q: Queue, max: int, s: Script)
    ensures var l, c := Scores(Step(q, max, s).lastseen), ChangeOf(q, max, s);
            forall u :: u in l ==>
              if u in c.joined + c.seen then (s.EnterUser? || s.PollPosition?) && l[u] == s.now
              else u in Scores(q.lastseen) && l[u] == Scores(q.lastseen)[u]
  {
    hide MoveAll, RangeByScore, RevokeAll, Names, PromoteCount, AdmitLines, Scores, Zrank;
    if s.PromoteHead? { MoveAllLeaves(q, Promote(q, max, s.batch, s.now).1, s.now); }
  }

  /** Whoever a script seats, puts in line or sees polling gets its time, and everyone else who stays
      keeps theirs. */
  lemma StepKeepsTimes(q: Queue, max: int, s: Script)
    ensures var q', c := Step(q, max, s), ChangeOf(q, max, s);
            && (forall u :: u in Scores(q'.active) ==>
                  if u in c.admitted then (s.EnterUser? || s.PromoteHead?) && Scores(q'.active)[u] == s.now
                  else u in Scores(q.active) && Scores(q'.active)[u] == Scores(q.active)[u])
            && (forall u :: u in Scores(q'.waiting) ==>
                  if u in c.joined then s.EnterUser? && Scores(q'.waiting)[u] == s.now
                  else u in Scores(q.waiting) && Scores(q'.waiting)[u] == Scores(q.waiting)[u])
            && (forall u :: u in Scores(q'.lastseen) ==>
                  if u in c.joined + c.seen then (s.EnterUser? || s.PollPosition?) && Scores(q'.lastseen)[u] == s.now
                  else u in Scores(q.lastseen) && Scores(q'.lastseen)[u] == Scores(q.lastseen)[u])
  {
    hide *;
    SeatTimes(q, max, s);
    LineTimes(q, max, s);
    StampTimes(q, max, s);
  }

  // ---- overtaking ----

  /** What one more arrival does to a waiter's rank: it grows exactly when the newcomer sorts
      in front and was not in front already. */
  lemma ArrivalShiftsRank(z: Zset, now: int, v: string, u: string)
    requires u in Scores(z) && v != u
    ensures var e := Entry(Scores(z)[u], u);
            && u in Scores(Zadd(z, now, v))
            && Zrank(Zadd(z, now, v), u)
               == Zrank(z, u) + (if Before(Entry(now, v), e) then 1 else 0)
                  - (if v in Scores(z) && Before(Entry(Scores(z)[v], v), e) then 1 else 0)
  {
    var e := Entry(Scores(z)[u], u);
    ZrankIsAhead(z, u);
    ZrankIsAhead(Zadd(z, now, v), u);
    AheadOfWithout(z, v, e);
    AheadOfInsert(Without(z, v), Entry(now, v), e);
  }

  lemma {:induction false} RemovalsNeverRaiseRank(z: Zset, ms: seq<string>, u: string)
    requires u in Scores(z) && u in Scores(ZremAll(z, ms))
    ensures Scores(ZremAll(z, ms))[u] == Scores(z)[u]
    ensures Zrank(ZremAll(z, ms), u) <= Zrank(z, u)
  {
    ZrankIsAhead(z, u);
    ZrankIsAhead(ZremAll(z, ms), u);
    AheadOfWithoutAll(z, ms, Entry(Scores(z)[u], u));
  }

  lemma {:induction false} AheadOfWithoutAll(z: Zset, ms: seq<string>, e: Entry)
    ensures Ahead(WithoutAll(z, ms), e) <= Ahead(z, e)
    decreases |ms|
  {
    if |ms| > 0 {
      WithoutEntries(z, ms[0]);
      AheadOfWithout(z, ms[0], e);
      AheadOfWithoutAll(Without(z, ms[0]), ms[1..], e);
    }
  }

  /** u waits on, and no arrival ties with or precedes a waiter. */
  ghost predicate Fair(q: Queue, max: int, s: Script, u: string) {
    && u in Scores(q.waiting) && u in Scores(Step(q, max, s).waiting)
    && (s.EnterUser? ==> s.user != u && forall m :: m in Scores(q.waiting) ==> Scores(q.waiting)[m] < s.now)
  }

  lemma EnterNeverOvertakes(q: Queue, max: int, v: string, now: int, u: string)
    requires Fair(q, max, EnterUser(v, now), u)
    ensures Enter(q, max, v, now).0.promoted == q.promoted
    ensures Zrank(Enter(q, max, v, now).0.waiting, u) <= Zrank(q.waiting, u)
  {
    if v !in Scores(q.active) && !(v !in Scores(q.waiting) && |q.active| < max) {
      ArrivalShiftsRank(q.waiting, now, v, u);
      hide Zadd, Zrank, Scores;
    } else {
      hide Zadd, Zrank, Scores;
    }
  }

  lemma PromoteLowersRank(q: Queue, max: int, batch: int, now: int, u: string)
    requires QueueInv(q, max) && u in Scores(Promote(q, max, batch, now).0.waiting)
    ensures var q' := Promote(q, max, batch, now).0;
            && q.promoted <= q'.promoted && u in Scores(q.waiting)
            && Zrank(q'.waiting, u) + (q'.promoted - q.promoted) == Zrank(q.waiting, u)
  {
    PromoteMovesTheHead(q, max, batch, now);
    PromoteShape(q, max, batch, now, Promote(q, max, batch, now));
    Reported(q, max, batch, now);
    NamesAt(q.waiting[..PromoteCount(q, max, batch)]);
    hide QueueInv, Promote, MoveAll, Names, Zrank, PromoteCount, Scores;
  }

  /** Each step lowers u's rank by at least the number it promoted. */
  lemma StepNeverOvertakes(q: Queue, max: int, s: Script, u: string)
    requires QueueInv(q, max) && Fair(q, max, s, u)
    ensures var q' := Step(q, max, s);
            && q.promoted <= q'.promoted
            && Zrank(q'.waiting, u) + (q'.promoted - q.promoted) <= Zrank(q.waiting, u)
  {
    match s
    case EnterUser(v, now) => EnterNeverOvertakes(q, max, v, now, u);
    case PromoteHead(batch, now) => PromoteLowersRank(q, max, batch, now, u);
    case LeaveUser(v, _) =>
      hide QueueInv;
      assert WithoutAll(q.waiting, [v]) == WithoutAll(Without(q.waiting, v), []);
      RemovalsNeverRaiseRank(q.waiting, [v], u);
    case ExpireWaiters(cutoff) =>
      hide QueueInv, ZremAll, RangeByScore, Zrank;
      RemovalsNeverRaiseRank(q.waiting, ExpireWaiting(q, cutoff).1, u);
    case _ => hide QueueInv, ZremAll, RangeByScore, Zrank, RevokeAll;
  }

  ghost predicate FairRun(q: Queue, max: int, ss: seq<Script>, u: string)
    decreases |ss|
  {
    |ss| == 0 || (Fair(q, max, ss[0], u) && FairRun(Step(q, max, ss[0]), max, ss[1..], u))
  }

  /** Over any run in which u keeps waiting and arrivals carry later times, u's position never
      grows and at most its initial rank (position - 1) promotions happen. */
  lemma {:induction false} BoundedOvertaking(q: Queue, max: int, ss: seq<Script>, u: string)
    requires QueueInv(q, max) && u in Scores(q.waiting) && FairRun(q, max, ss, u)
    ensures var q' := Run(q, max, ss);
            && u in Scores(q'.waiting)
            && q.promoted <= q'.promoted
            && Zrank(q'.waiting, u) + (q'.promoted - q.promoted) <= Zrank(q.waiting, u)
    decreases |ss|
  {
    if |ss| > 0 {
      StepNeverOvertakes(q, max, ss[0], u);
      StepKeepsInv(q, max, ss[0]);
      BoundedOvertaking(Step(q, max, ss[0]), max, ss[1..], u);
    }
  }
}
