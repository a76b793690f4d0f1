/** However publishing has failed, one sweep that gets through and an emptied log put it right. */
module OutboxRecovery {
  import opened SortedSets
  import opened Journal
  import opened Queues
  import opened Sweeps
  import opened Outbox
  import opened OutboxSafety
  import opened OutboxConvergence
  import opened OutboxGrace

  /** A bound above every id. */
  lemma {:induction false} TopOf(ids: set<nat>, from: nat) returns (top: nat)
    ensures top >= from && forall x :: x in ids ==> x < top
  {
    if ids == {} {
      top := from;
    } else {
      var x :| x in ids;
      top := TopOf(ids - {x}, if x < from then from else x + 1);
      assert forall y :: y in ids ==> y == x || y in ids - {x};
    }
  }

  /** Every line is old enough once the clock has moved on. */
  ghost predicate AllOld(cfg: Config, st: Sys) { UpTo(st.q.pending, st.clock - cfg.grace) == |st.q.pending| }

  lemma WaitTime(cfg: Config, st: Sys) returns (d: nat)
    ensures AllOld(cfg, st.(clock := st.clock + d))
  {
    var z := st.q.pending;
    if |z| == 0 {
      d := 0;
      UpToFacts(z, st.clock - cfg.grace);
    } else {
      var need := z[|z| - 1].score + cfg.grace - st.clock;
      d := if need > 0 then need else 0;
      UpToFacts(z, st.clock + d - cfg.grace);
    }
  }

  /** Sweeping everything takes every line of the journal into the two batches. */
  lemma SweepTakesAll(cfg: Config, st: Sys)
    requires AllOld(cfg, st) && RealIds(st.q)
    ensures var s := Sift(SweepLines(cfg, st, st.clock, |st.q.pending|));
            && s.malformed == [] && s.unknown == []
            && forall k :: k in Scores(st.q.pending) ==> k in s.admitLines || k in s.revokeLines
  {
    var z := st.q.pending;
    var lines := SweepLines(cfg, st, st.clock, |z|);
    assert z[..|z|] == z;
    assert lines == Names(z);
    NamesAreKeys(z);
    hide Names, Sift, Scores, SweepLines;
    assert forall k :: k in lines <==> k in Scores(z);
    assert AllNotices(lines);
    SiftSorts(lines);
    forall k | k in Scores(z) ensures k in Sift(lines).admitLines || k in Sift(lines).revokeLines {
      var n :| k == Encode(n) && n.user != "";
      assert Encode(n) in lines;
    }
  }

  // ---- one batch that gets through ----

  /** Same but for the log, the journal and one batch. */
  ghost predicate OnlyBatch(a: Sys, b: Sys, id: nat) {
    && b.clock == a.clock && b.q.active == a.q.active && b.q.waiting == a.q.waiting && b.q.lastseen == a.q.lastseen
    && forall o :: o in a.air && o != id ==> o in b.air && b.air[o] == a.air[o]
  }

  /** Landing settles the users landed by the batch's topic, and nobody else. */
  ghost predicate SettledBy(a: Sys, b: Sys, users: set<string>, topic: Topic) {
    forall v :: Settles(b, v) <==> if v in users then topic.Admissions? else Settles(a, v)
  }

  /** No message is lost, and one of the topic for each of the users is there. */
  ghost predicate Carries(a: Sys, b: Sys, users: set<string>, topic: Topic) {
    && (forall m :: m in a.log ==> m in b.log)
    && (forall u :: u in users ==> Message(topic, u) in b.log)
  }

  lemma LandOne(cfg: Config, st: Sys, id: nat, u: string)
    requires Enabled(cfg, st, Land(id, u))
    ensures SettledBy(st, Next(cfg, st, Land(id, u)), {u}, st.air[id].topic)
    ensures Carries(st, Next(cfg, st, Land(id, u)), {u}, st.air[id].topic)
  {
    forall v ensures Settles(Next(cfg, st, Land(id, u)), v) <==>
        if v in {u} then st.air[id].topic.Admissions? else Settles(st, v)
    {
      LandSettles(cfg, st, id, u, v);
    }
  }

  lemma SettledTwice(a: Sys, b: Sys, c: Sys, x: set<string>, y: set<string>, topic: Topic)
    requires SettledBy(a, b, x, topic) && SettledBy(b, c, y, topic)
    ensures SettledBy(a, c, x + y, topic)
  {
    hide Settles;
  }

  lemma CarriedTwice(a: Sys, b: Sys, c: Sys, x: set<string>, y: set<string>, topic: Topic)
    requires Carries(a, b, x, topic) && Carries(b, c, y, topic)
    ensures Carries(a, c, x + y, topic)
  {}

  lemma {:induction false} LandAll(cfg: Config, from: Sys, acts: seq<Action>, st: Sys, id: nat, todo: set<string>)
    returns (more: seq<Action>, st': Sys)
    requires Reaches(cfg, from, acts, st) && id in st.air && todo <= st.air[id].users
    requires st.air[id].users <= st.air[id].landed + todo
    requires st.air[id].topic.Admissions? ==> st.clock < st.air[id].start + cfg.bound
    ensures Reaches(cfg, from, more, st') && acts <= more
    ensures OnlyBatch(st, st', id) && st'.q == st.q && id in st'.air
    ensures st'.air[id].lines == st.air[id].lines && st'.air[id].users <= st'.air[id].landed
    ensures SettledBy(st, st', todo, st.air[id].topic) && Carries(st, st', todo, st.air[id].topic)
    decreases |todo|
  {
    hide Settles;
    if u :| u in todo {
      Extend(cfg, from, acts, st, Land(id, u));
      LandOne(cfg, st, id, u);
      var next := Next(cfg, st, Land(id, u));
      hide Reaches, SettledBy, Carries;
      more, st' := LandAll(cfg, from, acts + [Land(id, u)], next, id, todo - {u});
      SettledTwice(st, next, st', {u}, todo - {u}, st.air[id].topic);
      CarriedTwice(st, next, st', {u}, todo - {u}, st.air[id].topic);
      assert {u} + (todo - {u}) == todo;
    } else {
      more, st' := acts, st;
    }
  }

  /** All its messages land, the broker confirms, its lines are cleared. */
  lemma Deliver(cfg: Config, from: Sys, acts: seq<Action>, st: Sys, id: nat) returns (more: seq<Action>, st': Sys)
    requires Reaches(cfg, from, acts, st) && id in st.air
    requires st.air[id].topic.Admissions? ==> st.clock < st.air[id].start + cfg.bound
    ensures Reaches(cfg, from, more, st') && acts <= more
    ensures OnlyBatch(st, st', id) && st'.q == ClearPending(st.q, st.air[id].lines)
    ensures SettledBy(st, st', st.air[id].users, st.air[id].topic)
    ensures Carries(st, st', st.air[id].users, st.air[id].topic)
  {
    var a1, s1 := LandAll(cfg, from, acts, st, id, st.air[id].users);
    hide Reaches, SettledBy, Settles, ClearPending, Enabled, Next;
    AckStands(cfg, s1, id);
    Extend(cfg, from, a1, s1, Ack(id));
    var s2 := Next(cfg, s1, Ack(id));
    ClearStands(cfg, s2, id);
    Extend(cfg, from, a1 + [Ack(id)], s2, Clear(id));
    st' := Next(cfg, s2, Clear(id));
    more := a1 + [Ack(id)] + [Clear(id)];
    SameLogSettles(s1, st', st, st.air[id].users, st.air[id].topic);
  }

  lemma AckStands(cfg: Config, st: Sys, id: nat)
    requires id in st.air && st.air[id].users <= st.air[id].landed
    ensures Enabled(cfg, st, Ack(id))
    ensures Next(cfg, st, Ack(id)) == st.(air := st.air[id := st.air[id].(acked := true)])
  {}

  lemma ClearStands(cfg: Config, st: Sys, id: nat)
    requires id in st.air && st.air[id].acked
    ensures Enabled(cfg, st, Clear(id)) && Next(cfg, st, Clear(id)) == st.(q := ClearPending(st.q, st.air[id].lines))
  {}

  lemma SameLogSettles(a: Sys, b: Sys, st: Sys, users: set<string>, topic: Topic)
    requires SettledBy(st, a, users, topic) && b.log == a.log && b.admitted == a.admitted
    ensures SettledBy(st, b, users, topic)
    ensures Carries(st, a, users, topic) ==> Carries(st, b, users, topic)
  {
    forall v ensures Settles(b, v) <==> Settles(a, v) {}
  }

  lemma {:induction false} ConsumeAll(cfg: Config, from: Sys, acts: seq<Action>, st: Sys)
    returns (more: seq<Action>, st': Sys)
    requires Reaches(cfg, from, acts, st)
    ensures Reaches(cfg, from, more, st') && acts <= more && st'.log == [] && st'.q == st.q
    ensures st'.air == st.air && st'.clock == st.clock
    ensures forall v :: v in st'.admitted <==> Settles(st, v)
    decreases |st.log|
  {
    if |st.log| == 0 {
      more, st' := acts, st;
    } else {
      Extend(cfg, from, acts, st, Consume(0));
      var next := Next(cfg, st, Consume(0));
      forall v ensures Settles(next, v) <==> Settles(st, v) { ConsumeSettles(cfg, st, Consume(0), v); }
      hide Reaches, Settles;
      more, st' := ConsumeAll(cfg, from, acts + [Consume(0)], next);
    }
  }

  lemma HasFirst(z: seq<Entry>)
    ensures z == [] || z[0] in z
  {}

  lemma NothingLeft(z: Zset, a: seq<string>, b: seq<string>)
    requires forall k :: k in Scores(z) ==> k in a || k in b
    ensures ZremAll(ZremAll(z, a), b) == []
  {
    WithoutAllEntries(z, a);
    WithoutAllEntries(ZremAll(z, a), b);
    ScoresFacts(z);
    var rest := ZremAll(ZremAll(z, a), b);
    HasFirst(rest);
    assert forall x :: x in rest ==> x in z && x.member !in a && x.member !in b;
  }

  // ---- recovery ----

  /** The two batches of a sweep of everything: every line is in one of them, and they name exactly
      the users owed an admission and those owed a revoke. */
  ghost predicate SweptUp(cfg: Config, st: Sys, st': Sys, i: nat, j: nat) {
    && i != j && i !in st.air && j !in st.air && i in st'.air && j in st'.air
    && st'.q == st.q && st'.log == st.log && st'.admitted == st.admitted
    && (forall o :: o in st.air ==> o in st'.air && st'.air[o] == st.air[o])
    && st'.air[i].start == st'.air[j].start == st'.clock
    && st'.air[i].topic.Admissions? && st'.air[j].topic.Revoked?
    && (forall k :: k in Scores(st.q.pending) ==> k in st'.air[i].lines || k in st'.air[j].lines)
    && (forall u :: u in st'.air[i].users <==> OwesAdmit(st.q, u))
    && (forall u :: u in st'.air[j].users <==> OwesRevoke(st.q, u))
  }

  lemma SweepNamesAll(cfg: Config, st: Sys)
    requires AllOld(cfg, st) && RealIds(st.q)
    ensures var s := Sift(SweepLines(cfg, st, st.clock, |st.q.pending|));
            && (forall u :: u in s.admits <==> OwesAdmit(st.q, u))
            && (forall u :: u in s.revokes <==> OwesRevoke(st.q, u))
  {
    var z := st.q.pending;
    var lines := SweepLines(cfg, st, st.clock, |z|);
    assert z[..|z|] == z;
    assert lines == Names(z);
    NamesAreKeys(z);
    hide Names, Sift, Scores, SweepLines, RealLine;
    assert forall k :: k in lines <==> k in Scores(z);
    assert AllNotices(lines);
    SiftSorts(lines);
    SortedNames(Sift(lines), lines, st.q);
  }

  lemma SortedNames(s: Sifted, lines: seq<string>, q: Queue)
    requires Sorted(s, lines) && forall k :: k in lines <==> k in Scores(q.pending)
    ensures forall u :: u in s.admits <==> OwesAdmit(q, u)
    ensures forall u :: u in s.revokes <==> OwesRevoke(q, u)
  {
    hide Encode, Scores;
    forall u ensures (u in s.admits <==> OwesAdmit(q, u)) && (u in s.revokes <==> OwesRevoke(q, u)) {
      if u in s.admits {
        var n :| Encode(n) in s.admitLines && n.user == u;
        assert n == Admit(n.via, u) && Owes(q, n);
      }
      if OwesAdmit(q, u) {
        var v :| Owes(q, Admit(v, u));
        assert Encode(Admit(v, u)) in lines && Admit(v, u).user == u;
      }
      if u in s.revokes {
        var n :| Encode(n) in s.revokeLines && n.user == u;
        assert n == Revoke(n.cause, u) && Owes(q, n);
      }
      if OwesRevoke(q, u) {
        var c :| Owes(q, Revoke(c, u));
        assert Encode(Revoke(c, u)) in lines && Revoke(c, u).user == u;
      }
    }
  }

  /** A sweep that finds nothing to discard only adds its two batches. */
  lemma SweepAdds(cfg: Config, st: Sys, a: Action, s: Sifted)
    requires a.Sweep? && Enabled(cfg, st, a) && s == Sift(SweepLines(cfg, st, a.readAt, a.limit))
    requires s.malformed == [] && s.unknown == []
    ensures Next(cfg, st, a)
         == st.(air := st.air[a.admitId := Batch(Admissions, ToSet(s.admits), s.admitLines, st.clock, {}, false)]
                             [a.revokeId := Batch(Revoked, ToSet(s.revokes), s.revokeLines, st.clock, {}, false)])
  {
    KeepsAll(st.q);
    hide Sift, SweepLines, ClearPending, ToSet;
  }

  lemma AddedIsSweptUp(cfg: Config, st: Sys, st': Sys, s: Sifted, i: nat, j: nat)
    requires i != j && i !in st.air && j !in st.air
    requires st' == st.(air := st.air[i := Batch(Admissions, ToSet(s.admits), s.admitLines, st.clock, {}, false)]
                                     [j := Batch(Revoked, ToSet(s.revokes), s.revokeLines, st.clock, {}, false)])
    requires forall k :: k in Scores(st.q.pending) ==> k in s.admitLines || k in s.revokeLines
    requires forall u :: u in s.admits <==> OwesAdmit(st.q, u)
    requires forall u :: u in s.revokes <==> OwesRevoke(st.q, u)
    ensures SweptUp(cfg, st, st', i, j)
  {
    hide Scores, OwesAdmit, OwesRevoke;
  }

  lemma MaySweepAll(cfg: Config, st: Sys, i: nat, j: nat)
    requires i != j && i !in st.air && j !in st.air
    ensures Enabled(cfg, st, Sweep(st.clock, |st.q.pending|, i, j))
  {}

  lemma SweepNow(cfg: Config, from: Sys, acts: seq<Action>, st: Sys)
    returns (more: seq<Action>, st': Sys, i: nat, j: nat)
    requires Reaches(cfg, from, acts, st) && RealIds(st.q) && AllOld(cfg, st)
    ensures Reaches(cfg, from, more, st') && acts <= more && SweptUp(cfg, st, st', i, j)
  {
    i := TopOf(st.air.Keys, 0);
    j := i + 1;
    var s := Sift(SweepLines(cfg, st, st.clock, |st.q.pending|));
    hide Reaches, AllOld, RealIds, Sift, SweepLines, Scores, OwesAdmit, OwesRevoke, Enabled, Next, SweptUp;
    SweepTakesAll(cfg, st);
    SweepNamesAll(cfg, st);
    var sweep := Sweep(st.clock, |st.q.pending|, i, j);
    MaySweepAll(cfg, st, i, j);
    Extend(cfg, from, acts, st, sweep);
    SweepAdds(cfg, st, sweep, s);
    st' := Next(cfg, st, sweep);
    AddedIsSweptUp(cfg, st, st', s, i, j);
    more := acts + [sweep];
  }

  lemma SweepOnce(cfg: Config, from: Sys, acts: seq<Action>, st: Sys)
    returns (more: seq<Action>, st': Sys, i: nat, j: nat)
    requires Reaches(cfg, from, acts, st) && RealIds(st.q)
    ensures Reaches(cfg, from, more, st') && acts <= more && SweptUp(cfg, st, st', i, j)
  {
    var d := WaitTime(cfg, st);
    Extend(cfg, from, acts, st, Tick(d));
    var waited := Next(cfg, st, Tick(d));
    assert waited == st.(clock := st.clock + d);
    hide Reaches, AllOld, RealIds, Scores, OwesAdmit, OwesRevoke;
    more, st', i, j := SweepNow(cfg, from, acts + [Tick(d)], waited);
  }

  /** A sweep of everything that gets through: the journal is empty, and whoever was owed a revoke
      settles on not admitted, whoever else was owed an admission on admitted, the others as before. */
  lemma PublishAll(cfg: Config, from: Sys, acts: seq<Action>, st: Sys) returns (more: seq<Action>, st': Sys)
    requires Reaches(cfg, from, acts, st) && RealIds(st.q) && cfg.bound > 0
    ensures Reaches(cfg, from, more, st') && acts <= more
    ensures st'.q.active == st.q.active && st'.q.waiting == st.q.waiting && st'.q.pending == []
    ensures forall o :: o in st.air ==> o in st'.air && st'.air[o] == st.air[o]
    ensures forall u :: Settles(st', u) <==>
              !OwesRevoke(st.q, u) && (OwesAdmit(st.q, u) || Settles(st, u))
    ensures (forall m :: m in st.log ==> m in st'.log)
    ensures forall u :: OwesRevoke(st.q, u) ==> Message(Revoked, u) in st'.log
  {
    var s1, s2, i, j;
    more, s1, i, j := SweepOnce(cfg, from, acts, st);
    hide Reaches, RealIds, ZremAll, Scores, OwesAdmit, OwesRevoke;
    more, s2 := Deliver(cfg, from, more, s1, i);
    more, st' := Deliver(cfg, from, more, s2, j);
    NothingLeft(st.q.pending, s1.air[i].lines, s1.air[j].lines);
    SameSettles(st, s1);
    Published(st, s1, s2, st', i, j);
  }

  lemma SameSettles(a: Sys, b: Sys)
    requires a.log == b.log && a.admitted == b.admitted
    ensures forall u :: Settles(a, u) <==> Settles(b, u)
  {}

  lemma Published(st: Sys, s1: Sys, s2: Sys, s3: Sys, i: nat, j: nat)
    requires i in s1.air && j in s1.air && j in s2.air && s2.air[j] == s1.air[j]
    requires forall u :: Settles(st, u) <==> Settles(s1, u)
    requires s1.air[i].topic.Admissions? && s1.air[j].topic.Revoked?
    requires forall u :: u in s1.air[i].users <==> OwesAdmit(st.q, u)
    requires forall u :: u in s1.air[j].users <==> OwesRevoke(st.q, u)
    requires SettledBy(s1, s2, s1.air[i].users, s1.air[i].topic) && SettledBy(s2, s3, s2.air[j].users, s2.air[j].topic)
    ensures forall u :: Settles(s3, u) <==> !OwesRevoke(st.q, u) && (OwesAdmit(st.q, u) || Settles(st, u))
  {
    hide OwesAdmit, OwesRevoke, Settles;
  }

  /** From every reachable state, whatever was lost on the way, there is a way on that moves no
      user in the queue, empties journal and log, and leaves booking admitting exactly the seats. */
  lemma AlwaysRecovers(cfg: Config, acts: seq<Action>, st: Sys) returns (more: seq<Action>, st': Sys)
    requires Reaches(cfg, START, acts, st) && cfg.bound + cfg.lag <= cfg.grace && cfg.bound > 0
    ensures Reaches(cfg, START, more, st') && acts <= more
    ensures st'.q.active == st.q.active && st'.q.waiting == st.q.waiting
    ensures st'.q.pending == [] && st'.log == [] && st'.admitted == Scores(st'.q.active).Keys
  {
    StartInv(cfg);
    ReachableSysInv(cfg, START, acts, st);
    assert RealIds(st.q);
    hide SysInv, Reaches, RealIds, Scores;
    var s1;
    more, s1 := PublishAll(cfg, START, acts, st);
    more, st' := ConsumeAll(cfg, START, more, s1);
    DrainedAgrees(cfg, more, st');
  }
}
