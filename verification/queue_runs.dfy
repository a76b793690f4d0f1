/** What every run of the queue keeps, whatever pods call which scripts in which order. */
module QueueRuns {
  import opened SortedSets
  import opened Journal
  import opened Queues
  import opened QueueSteps

  ghost predicate InVocabulary(line: string) { exists n :: line == Encode(n) }

  ghost predicate QueueInv(q: Queue, max: int) {
    && (q.active == [] || |q.active| <= max)
    && Scores(q.active).Keys !! Scores(q.waiting).Keys
    && Scores(q.lastseen).Keys == Scores(q.waiting).Keys
    && (forall n :: Owes(q, n) && n.Admit? ==> n.user in Scores(q.active))
    && (forall u :: !(Owes(q, Admit(ViaEnter, u)) && Owes(q, Admit(ViaPromote, u))))
    && (forall k :: k in Scores(q.pending) ==> InVocabulary(k))
  }

  function Run(q: Queue, max: int, ss: seq<Script>): Queue
    decreases |ss|
  {
    if |ss| == 0 then q else Run(Step(q, max, ss[0]), max, ss[1..])
  }

  lemma PrefixNames(z: Zset, n: nat)
    requires n <= |z|
    ensures ToSet(Names(z[..n])) <= Scores(z).Keys
    ensures |ToSet(Names(z[..n]))| <= n
  {
    ScoresFacts(z);
    TakeValid(z, n);
    ScoresFacts(z[..n]);
    NamesAreKeys(z[..n]);
    forall m | m in Names(z[..n]) ensures m in Scores(z) {
      assert Entry(Scores(z[..n])[m], m) in z;
    }
    ToSetSize(Names(z[..n]));
  }

  lemma {:induction false} ToSetSize(ms: seq<string>)
    ensures |ToSet(ms)| <= |ms|
  {
    if |ms| > 0 {
      ToSetSize(ms[1..]);
      assert ToSet(ms) == ToSet(ms[1..]) + {ms[0]};
    }
  }

  lemma RangeMembers(z: Zset, lo: int, hi: int, limit: nat)
    ensures ToSet(RangeByScore(z, lo, hi, limit)) <= Scores(z).Keys
  {
    ScoresFacts(z);
    var users := RangeByScore(z, lo, hi, limit);
    var from := UpTo(z, lo - 1);
    hide UpTo, Names, Scores;
    NamesAt(z[from..from + |users|]);
    forall m | m in users ensures m in Scores(z) {
      var i :| 0 <= i < |users| && users[i] == m;
      assert z[UpTo(z, lo - 1) + i] in z;
    }
  }

  lemma PromoteCoherent(q: Queue, max: int, batch: int, now: int)
    requires QueueInv(q, max)
    ensures Coherent(q, ChangeOf(q, max, PromoteHead(batch, now)))
  {
    PrefixNames(q.waiting, PromoteCount(q, max, batch));
  }

  lemma ExpireCoherent(q: Queue, max: int, cutoff: int, now: int)
    requires QueueInv(q, max)
    ensures Coherent(q, ChangeOf(q, max, ExpireSessions(cutoff, now)))
  {
    RangeMembers(q.active, 0, cutoff, EXPIRE_LIMIT);
  }

  lemma SingleCoherent(q: Queue, max: int, s: Script)
    requires Scores(q.active).Keys !! Scores(q.waiting).Keys
    requires s.EnterUser? || s.LeaveUser? || s.ReleaseSeat? || s.CompleteSeat?
    ensures Coherent(q, ChangeOf(q, max, s))
  {
    hide Encode, Scores, InVocabulary, Promote, ExpireActive, ExpireWaiting;
  }

  lemma StepCoherent(q: Queue, max: int, s: Script)
    requires QueueInv(q, max)
    ensures Coherent(q, ChangeOf(q, max, s))
  {
    match s
    case PromoteHead(batch, now) => PromoteCoherent(q, max, batch, now);
    case ExpireSessions(cutoff, now) => ExpireCoherent(q, max, cutoff, now);
    case ExpireWaiters(_) =>
    case PollPosition(_, _) =>
    case ClearLines(_) =>
    case _ => SingleCoherent(q, max, s);
  }

  lemma {:induction false} MovedFitsVacancy(q: Queue, max: int, s: Script)
    requires QueueInv(q, max)
    ensures |ChangeOf(q, max, s).admitted| == 0 || |q.active| + |ChangeOf(q, max, s).admitted| <= max
  {
    hide QueueInv, MoveAll, Names, RangeByScore, Encode;
    if s.PromoteHead? { PrefixNames(q.waiting, PromoteCount(q, max, s.batch)); }
  }

  lemma StepWithinCapacity(q: Queue, max: int, s: Script)
    requires QueueInv(q, max)
    ensures var q' := Step(q, max, s); q'.active == [] || |q'.active| <= max
  {
    var q' := Step(q, max, s);
    var c := ChangeOf(q, max, s);
    CardOfScores(q.active);
    CardOfScores(q'.active);
    StepSeats(q, max, s);
    var before := Scores(q.active).Keys;
    Shrink(before, c.removed);
    Grow(before - c.removed, c.admitted);
    MovedFitsVacancy(q, max, s);
  }

  lemma Shrink(a: set<string>, b: set<string>)
    ensures |a - b| <= |a|
  {
    assert |a| == |a - b| + |a * b| by { assert a == (a - b) + (a * b); }
  }

  lemma Grow(a: set<string>, b: set<string>)
    ensures |a + b| <= |a| + |b|
  {
    assert |a + b| == |a| + |b - a| by { assert a + b == a + (b - a); }
    Shrink(b, a);
  }

  lemma ChangeKeepsJournalRules(q: Queue, q': Queue, max: int, c: Change)
    requires QueueInv(q, max) && Applies(q, q', c) && Coherent(q, c)
    ensures forall n :: Owes(q', n) && n.Admit? ==> n.user in Scores(q'.active)
    ensures forall u :: !(Owes(q', Admit(ViaEnter, u)) && Owes(q', Admit(ViaPromote, u)))
    ensures forall k :: k in Scores(q'.pending) ==> InVocabulary(k)
  {
    forall n | Owes(q', n) && n.Admit? ensures n.user in Scores(q'.active) {
      if n !in c.added { assert Owes(q, n); }
    }
    forall u ensures !(Owes(q', Admit(ViaEnter, u)) && Owes(q', Admit(ViaPromote, u))) {
      AtMostOneAdmit(q, q', max, c, u);
    }
  }

  lemma AtMostOneAdmit(q: Queue, q': Queue, max: int, c: Change, u: string)
    requires QueueInv(q, max) && Applies(q, q', c) && Coherent(q, c)
    ensures !(Owes(q', Admit(ViaEnter, u)) && Owes(q', Admit(ViaPromote, u)))
  {
    var a, b := Admit(ViaEnter, u), Admit(ViaPromote, u);
    assert Owes(q', a) <==> a in c.added || Kept(q.pending, c, a);
    assert Owes(q', b) <==> b in c.added || Kept(q.pending, c, b);
  }

  /** One script, called by anyone at any time, keeps the queue's rules. */
  lemma StepKeepsInv(q: Queue, max: int, s: Script)
    requires QueueInv(q, max)
    ensures QueueInv(Step(q, max, s), max)
  {
    StepApplies(q, max, s);
    StepCoherent(q, max, s);
    StepWithinCapacity(q, max, s);
    ChangeKeepsJournalRules(q, Step(q, max, s), max, ChangeOf(q, max, s));
  }

  /** In every reachable queue: capacity is respected, nobody is both in session and in line,
      the liveness set has exactly the waiters, each owed admit names a current seat holder,
      and nobody has two. */
  lemma {:induction false} ReachableInv(q: Queue, max: int, ss: seq<Script>)
    requires QueueInv(q, max)
    ensures QueueInv(Run(q, max, ss), max)
    decreases |ss|
  {
    if |ss| > 0 {
      StepKeepsInv(q, max, ss[0]);
      ReachableInv(Step(q, max, ss[0]), max, ss[1..]);
    }
  }

  lemma EmptyInv(max: int)
    ensures QueueInv(EMPTY, max)
  {}

  /** So it is with every queue that starts empty. */
  lemma EveryQueueInv(max: int, ss: seq<Script>)
    ensures QueueInv(Run(EMPTY, max, ss), max)
  {
    hide QueueInv;
    EmptyInv(max);
    ReachableInv(EMPTY, max, ss);
  }
}
