/** Session expiry among other scripts: the sessions due only get fewer, and enough expiries end them
    all, whatever runs in between. */
module QueueExpiryRuns {
  import opened SortedSets
  import opened Queues
  import opened QueueSteps
  import opened QueueRuns
  import opened QueueOrder
  import opened QueueExpiry

  /** The seated users whose entry time is in 0..cutoff. */
  function DueUsers(z: Zset, cutoff: int): set<string> {
    set u | u in Scores(z) && 0 <= Scores(z)[u] <= cutoff
  }

  /** The script seats nobody at a time up to the cutoff. */
  predicate SeatsLater(s: Script, cutoff: int) {
    match s
    case EnterUser(_, now) => now > cutoff
    case PromoteHead(_, now) => now > cutoff
    case _ => true
  }

  /** How often the sessions up to this cutoff are expired. */
  function Expiries(ss: seq<Script>, cutoff: int): nat {
    if |ss| == 0 then 0
    else (if ss[0].ExpireSessions? && ss[0].cutoff == cutoff then 1 else 0) + Expiries(ss[1..], cutoff)
  }

  // ---- the due sessions, as a set and as a stretch ----

  /** Positions lo up to hi hold exactly the entries with a score in 0..cutoff. */
  ghost predicate Stretch(z: Zset, cutoff: int, lo: nat, hi: nat) {
    lo <= hi <= |z| && forall i :: 0 <= i < |z| ==> (0 <= z[i].score <= cutoff <==> lo <= i < hi)
  }

  lemma StretchUsers(z: Zset, cutoff: int, lo: nat, hi: nat)
    requires Stretch(z, cutoff, lo, hi)
    ensures DueUsers(z, cutoff) == ToSet(Names(z[lo..hi]))
  {
    ScoresFacts(z);
    NamesAt(z[lo..hi]);
    hide Names, Scores;
    forall u | u in DueUsers(z, cutoff) ensures u in ToSet(Names(z[lo..hi])) {
      var i :| 0 <= i < |z| && z[i] == Entry(Scores(z)[u], u);
      assert z[lo..hi][i - lo] == z[i];
      assert Names(z[lo..hi])[i - lo] == u;
    }
    StretchHead(z, cutoff, lo, hi, hi - lo);
  }

  lemma StretchHead(z: Zset, cutoff: int, lo: nat, hi: nat, k: nat)
    requires Stretch(z, cutoff, lo, hi) && k <= hi - lo
    ensures ToSet(Names(z[lo..lo + k])) <= DueUsers(z, cutoff)
  {
    ScoresFacts(z);
    NamesAt(z[lo..lo + k]);
    hide Names, Scores;
    forall u | u in ToSet(Names(z[lo..lo + k])) ensures u in DueUsers(z, cutoff) {
      var i :| 0 <= i < k && Names(z[lo..lo + k])[i] == u;
      assert z[lo..lo + k][i] == z[lo + i] && z[lo + i] in z;
    }
  }

  lemma StretchSize(z: Zset, lo: nat, k: nat)
    requires lo + k <= |z|
    ensures |ToSet(Names(z[lo..lo + k]))| == k
  {
    DropValid(z, lo);
    HeadSize(z[lo..], k);
    assert z[lo..][..k] == z[lo..lo + k];
  }

  /** Due counts the due users. */
  lemma DueCounts(z: Zset, cutoff: int)
    ensures Stretch(z, cutoff, From(z), From(z) + Due(z, cutoff))
    ensures |DueUsers(z, cutoff)| == Due(z, cutoff)
  {
    DueIsSpan(z, cutoff);
    hide UpTo, Names, Scores;
    assert Until(z, cutoff) == From(z) + Due(z, cutoff);
    StretchUsers(z, cutoff, From(z), From(z) + Due(z, cutoff));
    StretchSize(z, From(z), Due(z, cutoff));
  }

  // ---- one script ----

  /** Every user of `after` seated at a time in 0..cutoff was so before. */
  ghost predicate OnlyFewer(before: Zset, after: Zset, cutoff: int) {
    forall u :: u in Scores(after) && 0 <= Scores(after)[u] <= cutoff ==>
      u in Scores(before) && Scores(before)[u] == Scores(after)[u]
  }

  lemma StepOnlyFewer(q: Queue, max: int, s: Script, cutoff: int)
    requires SeatsLater(s, cutoff)
    ensures OnlyFewer(q.active, Step(q, max, s).active, cutoff)
  {
    hide MoveAll, RangeByScore, RevokeAll, Names, PromoteCount, AdmitLines;
    if s.PromoteHead? {
      MoveAllStamps(q, Promote(q, max, s.batch, s.now).1, s.now);
      MoveAllSeats(q, Promote(q, max, s.batch, s.now).1, s.now);
    }
  }

  lemma FewerDue(before: Zset, after: Zset, cutoff: int)
    requires OnlyFewer(before, after, cutoff)
    ensures DueUsers(after, cutoff) <= DueUsers(before, cutoff)
    ensures |DueUsers(after, cutoff)| <= |DueUsers(before, cutoff)|
  {
    var a, b := DueUsers(after, cutoff), DueUsers(before, cutoff);
    assert a <= b;
    assert b == a + (b - a);
  }

  /** One expiry ends a thousand due sessions, or all of them if they are fewer, and no others. */
  lemma ExpiryTakesDue(q: Queue, max: int, cutoff: int, now: int)
    ensures var s := ExpireSessions(cutoff, now);
            var gone := ChangeOf(q, max, s).removed;
            && gone <= DueUsers(q.active, cutoff)
            && DueUsers(Step(q, max, s).active, cutoff) == DueUsers(q.active, cutoff) - gone
            && |gone| == AtMost(1000, |DueUsers(q.active, cutoff)|)
  {
    var z := q.active;
    OneRound(q, cutoff, now);
    DueCounts(z, cutoff);
    hide RevokeAll, RangeByScore, Cut, Due, From, Until, Names, Stretch;
    var k := AtMost(1000, Due(z, cutoff));
    StretchHead(z, cutoff, From(z), From(z) + Due(z, cutoff), k);
    StretchSize(z, From(z), k);
    var gone := ToSet(ExpireActive(q, cutoff, now).1);
    assert Scores(ExpireActive(q, cutoff, now).0.active) == Scores(z) - gone;
  }

  // ---- whole runs ----

  /** Whatever other scripts run in between, as long as they seat nobody at a time up to the cutoff,
      every expiry takes a thousand off the sessions due, and none is added: once there were enough
      expiries, none is left. */
  lemma {:induction false} ExpiryDrainsAmong(q: Queue, max: int, ss: seq<Script>, cutoff: int)
    requires forall s :: s in ss ==> SeatsLater(s, cutoff)
    ensures var before, after := DueUsers(q.active, cutoff), DueUsers(Run(q, max, ss).active, cutoff);
            && after <= before
            && (after == {} || |after| + 1000 * Expiries(ss, cutoff) <= |before|)
            && (1000 * Expiries(ss, cutoff) >= |before| ==> after == {})
    decreases |ss|
  {
    hide DueUsers, Step, SeatsLater;
    if |ss| > 0 {
      var q1 := Step(q, max, ss[0]);
      StepOnlyFewer(q, max, ss[0], cutoff);
      FewerDue(q.active, q1.active, cutoff);
      if ss[0].ExpireSessions? && ss[0].cutoff == cutoff { ExpiryLowersDue(q, max, cutoff, ss[0].now); }
      ExpiryDrainsAmong(q1, max, ss[1..], cutoff);
    }
  }

  lemma ExpiryLowersDue(q: Queue, max: int, cutoff: int, now: int)
    ensures var after := DueUsers(Step(q, max, ExpireSessions(cutoff, now)).active, cutoff);
            after == {} || |after| + 1000 == |DueUsers(q.active, cutoff)|
  {
    ExpiryTakesDue(q, max, cutoff, now);
    hide DueUsers, Step, ChangeOf;
    var gone, due := ChangeOf(q, max, ExpireSessions(cutoff, now)).removed, DueUsers(q.active, cutoff);
    assert due == (due - gone) + gone;
    assert |due| == |due - gone| + |gone|;
  }
}
