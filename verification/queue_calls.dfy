/** What one call of a script tells its caller, and what calling it again does. */
module QueueCalls {
  import opened SortedSets
  import opened Journal
  import opened Queues

  /** An enter reports the truth: already seated, and nothing changes; or seated now, exactly when
      the user was nowhere and a seat was vacant, even if others wait; or in line. */
  lemma EnterReplies(q: Queue, max: int, user: string, now: int)
    ensures var (q', r) := Enter(q, max, user, now);
            && (r.AlreadyActive? <==> user in Scores(q.active))
            && (r.AlreadyActive? ==> q' == q && r.count == |q.active|)
            && (r.Admitted? <==> user !in Scores(q.active) && user !in Scores(q.waiting) && |q.active| < max)
            && (r.Admitted? ==> r.count == |q'.active| && Scores(q'.active)[user] == now && q'.waiting == q.waiting)
  {
    var q' := Enter(q, max, user, now).0;
    CardOfScores(q.active);
    CardOfScores(q'.active);
    hide Encode, Without;
  }

  /** Told to wait, the user stands where the reply says, at the time of this call, and nobody
      else's entry has changed. */
  lemma WaitReplies(q: Queue, max: int, user: string, now: int)
    requires Enter(q, max, user, now).1.Waiting?
    ensures var (q', r) := Enter(q, max, user, now);
            && r.rank == Ahead(q'.waiting, Entry(now, user)) + 1 && r.total == |q'.waiting|
            && Scores(q'.waiting) == Scores(q.waiting)[user := now]
            && Scores(q'.lastseen) == Scores(q.lastseen)[user := now]
            && q'.active == q.active && q'.pending == q.pending
  {
    var w := Zadd(q.waiting, now, user);
    ZrankIsAhead(w, user);
    hide Encode, Zadd, Zrank, Ahead, Scores;
  }

  /** A poll answers in session, gone, or in line with as many ahead and behind as there are; it
      changes nothing but the waiter's own liveness stamp. */
  lemma PositionCounts(q: Queue, user: string, now: int)
    ensures var (q', r) := Position(q, user, now);
            && (r.InSession? <==> user in Scores(q.active))
            && (r.Expired? <==> user !in Scores(q.active) && user !in Scores(q.waiting))
            && (r.InLine? ==>
                  && r.position == Ahead(q.waiting, Entry(Scores(q.waiting)[user], user)) + 1
                  && r.position + r.behind == |q.waiting|
                  && Scores(q'.lastseen) == Scores(q.lastseen)[user := now])
            && (!r.InLine? ==> q' == q)
            && q' == q.(lastseen := q'.lastseen)
  {
    if user in Scores(q.waiting) { ZrankIsAhead(q.waiting, user); }
  }

  /** Withdrawing a user's admits twice is withdrawing them once, and leaves other lines alone. */
  lemma WithdrawTwice(p: Zset, user: string, now: int, n: Notice)
    requires n.Revoke?
    ensures var once := ZremAll(p, AdmitLines(user));
            && ZremAll(once, AdmitLines(user)) == once
            && ZremAll(Zadd(once, now, Encode(n)), AdmitLines(user)) == Zadd(once, now, Encode(n))
  {
    var lines, line := AdmitLines(user), Encode(n);
    assert line !in lines by {
      assert Decode(line) == Some(n);
      assert Decode(lines[0]).value.Admit? && Decode(lines[1]).value.Admit?;
    }
    var once := ZremAll(p, lines);
    hide ZremAll, Zadd, Encode, AdmitLines, Scores;
    SameScoresSameZset(ZremAll(once, lines), once);
    SameScoresSameZset(ZremAll(Zadd(once, now, line), lines), Zadd(once, now, line));
  }

  lemma RemoveAbsent(z: Zset, m: string)
    ensures Zrem(Zrem(z, m), m) == Zrem(z, m)
  {
    hide Scores, Without;
    SameScoresSameZset(Zrem(Zrem(z, m), m), Zrem(z, m));
  }

  /** Leaving says where the user was, and afterwards they are nowhere. */
  lemma LeaveSaysWhere(q: Queue, user: string, now: int)
    ensures var (q', code) := Leave(q, user, now);
            && code == (if user in Scores(q.active) then 1 else 0) + (if user in Scores(q.waiting) then 2 else 0)
            && user !in Scores(q'.active) && user !in Scores(q'.waiting) && user !in Scores(q'.lastseen)
  {
    hide ZremAll, AdmitLines, Encode, Without, Scores;
  }

  /** Leaving again finds nothing and changes nothing, so the revoke is owed once. */
  lemma LeaveIsFinal(q: Queue, user: string, now: int, again: int)
    ensures Leave(Leave(q, user, now).0, user, again) == (Leave(q, user, now).0, 0)
  {
    var q' := Leave(q, user, now).0;
    LeaveSaysWhere(q, user, now);
    WithdrawTwice(q.pending, user, now, Revoke(OnLeave, user));
    RemoveAbsent(q.active, user);
    RemoveAbsent(q.waiting, user);
    RemoveAbsent(q.lastseen, user);
    hide ZremAll, AdmitLines, Encode, Without, Scores, Zrem, Zadd;
    assert q'.pending == ZremAll(q'.pending, AdmitLines(user));
  }

  /** So it is with giving a seat back. */
  lemma ReleaseIsFinal(q: Queue, user: string, now: int, again: int)
    ensures var (q', was) := Release(q, user, now);
            && (was <==> user in Scores(q.active)) && user !in Scores(q'.active)
            && Release(q', user, again) == (q', false)
  {
    WithdrawTwice(q.pending, user, now, Revoke(OnComplete, user));
    RemoveAbsent(q.active, user);
    hide ZremAll, AdmitLines, Encode, Without, Scores;
  }

  /** A completion says whether the user held a seat and takes it; delivered again it finds nothing and
      changes nothing. */
  lemma CompleteIsIdempotent(q: Queue, user: string)
    ensures var (q', was) := Complete(q, user);
            && (was <==> user in Scores(q.active))
            && Scores(q'.active) == Scores(q.active) - {user}
            && q'.waiting == q.waiting && q'.lastseen == q.lastseen && q'.promoted == q.promoted
            && Complete(q', user) == (q', false)
  {
    WithdrawTwice(q.pending, user, 0, Revoke(OnComplete, user));
    RemoveAbsent(q.active, user);
    hide ZremAll, AdmitLines, Encode, Without, Scores;
  }
}
