/** What every reachable state of the outbox keeps, user by user, when
    publish bound + clock lag <= sweep grace. */
module OutboxSafety {
  import opened SortedSets
  import opened Journal
  import opened Queues
  import opened QueueSteps
  import opened QueueRuns
  import opened Sweeps
  import opened Outbox

  /** No publish of an admission of u can land any more. */
  ghost predicate Dead(cfg: Config, st: Sys, u: string) {
    forall id :: id in st.air && st.air[id].topic.Admissions? && u in st.air[id].users
      ==> st.air[id].start + cfg.bound <= st.clock
  }

  /** An admission batch in which u's message has landed, and which can still land more or can clear
      the line u's seat is announced by. */
  ghost predicate Counts(cfg: Config, st: Sys, id: nat, u: string)
    requires id in st.air
  {
    && st.air[id].topic.Admissions? && u in st.air[id].landed
    && (st.clock < st.air[id].start + cfg.bound
        || exists v :: Owes(st.q, Admit(v, u)) && CanClear(st.air[id], Admit(v, u)))
  }

  /** A seat holder: no revoke anywhere, and the admission is owed or certain. */
  ghost predicate SeatOk(cfg: Config, st: Sys, u: string) {
    && !OwesRevoke(st.q, u)
    && (forall id :: id in st.air && st.air[id].topic.Revoked? ==> u !in st.air[id].users)
    && (OwesAdmit(st.q, u) || Settles(st, u))
    && (forall id :: id in st.air && Counts(cfg, st, id, u) ==> Settles(st, u))
  }

  /** Admissions of u still in the air were started before u's owed revoke was written. */
  ghost predicate AirPrecedesRevoke(cfg: Config, st: Sys, u: string) {
    forall c, id :: Owes(st.q, Revoke(c, u)) && id in st.air && st.air[id].topic.Admissions? && u in st.air[id].users
      ==> st.air[id].start <= OwedSince(st.q, Revoke(c, u)) + cfg.lag
  }

  /** Anyone else: a revoke is still owed, or booking settles on not admitted for good. */
  ghost predicate GoneOk(cfg: Config, st: Sys, u: string) {
    && AirPrecedesRevoke(cfg, st, u)
    && (OwesRevoke(st.q, u) || (!Settles(st, u) && Dead(cfg, st, u)))
    && (forall id :: id in st.air && st.air[id].topic.Revoked? && u in st.air[id].users
          ==> Dead(cfg, st, u) && (u in st.air[id].landed ==> !Settles(st, u)))
    && (u in Scores(st.q.waiting) ==> Ready(st, u, ViaPromote))
  }

  ghost predicate UserOk(cfg: Config, st: Sys, u: string) {
    if u in Scores(st.q.active) then SeatOk(cfg, st, u) else GoneOk(cfg, st, u)
  }

  ghost predicate BatchOk(b: Batch, clock: int) {
    && b.start <= clock
    && b.landed <= b.users
    && (b.acked ==> b.users <= b.landed)
    && (forall n :: Encode(n) in b.lines ==> n.user in b.users && (n.Admit? <==> b.topic.Admissions?))
  }

  ghost predicate BatchesOk(st: Sys) { forall id :: id in st.air ==> BatchOk(st.air[id], st.clock) }

  ghost predicate RealIds(q: Queue) {
    && (forall k :: k in Scores(q.pending) ==> RealLine(k))
    && "" !in Scores(q.active) && "" !in Scores(q.waiting)
  }

  ghost predicate SysInv(cfg: Config, st: Sys) {
    && QueueInv(st.q, cfg.max)
    && RealIds(st.q)
    && BatchesOk(st)
    && (forall u :: UserOk(cfg, st, u))
  }

  // ---- scripts, one user at a time ----

  ghost predicate PublishedChange(q: Queue, c: Change) {
    && c.dropped == {}
    && EveryRemovalRevoked(c)
    && c.cleared * Scores(q.active).Keys <= c.removed
  }

  lemma ScriptIsPublished(cfg: Config, clock: int, q: Queue, s: Script)
    requires QueueInv(q, cfg.max) && Timely(cfg, clock, s)
    ensures PublishedChange(q, ChangeOf(q, cfg.max, s))
    ensures var c := ChangeOf(q, cfg.max, s);
            c.removed != {} || c.admitted != {} ==> clock - cfg.lag <= c.stamp <= clock
  {
    var c := ChangeOf(q, cfg.max, s);
    forall u | u in c.removed ensures exists cause :: Revoke(cause, u) in c.added {
      match s
      case LeaveUser(_, _) => assert Revoke(OnLeave, u) in c.added;
      case ReleaseSeat(_, _) => assert Revoke(OnComplete, u) in c.added;
      case ExpireSessions(_, _) => assert Revoke(OnTimeout, u) in c.added;
      case _ =>
    }
  }

  lemma RevokesOf(q: Queue, q': Queue, c: Change, u: string)
    requires JournalStep(q.pending, q'.pending, c) && c.dropped == {}
    ensures forall x :: Owes(q', Revoke(x, u)) <==> Revoke(x, u) in c.added || Owes(q, Revoke(x, u))
    ensures forall x :: Revoke(x, u) in c.added ==> Owes(q', Revoke(x, u)) && OwedSince(q', Revoke(x, u)) == c.stamp
    ensures forall x :: Revoke(x, u) !in c.added && Owes(q, Revoke(x, u)) ==>
              Owes(q', Revoke(x, u)) && OwedSince(q', Revoke(x, u)) == OwedSince(q, Revoke(x, u))
  {
    forall x ensures Owes(q', Revoke(x, u)) <==> Revoke(x, u) in c.added || Owes(q, Revoke(x, u)) {
      assert Owes(q', Revoke(x, u)) <==> Revoke(x, u) in c.added || Kept(q.pending, c, Revoke(x, u));
    }
  }

  lemma SeatedByScript(q: Queue, q': Queue, c: Change, u: string)
    requires Applies(q, q', c) && Coherent(q, c) && PublishedChange(q, c)
    requires u in c.admitted && !OwesRevoke(q, u)
    ensures u in Scores(q'.active) && OwesAdmit(q', u) && !OwesRevoke(q', u)
  {
    RevokesOf(q, q', c, u);
    if Admit(ViaEnter, u) in c.added { assert Owes(q', Admit(ViaEnter, u)); }
    else { assert Owes(q', Admit(ViaPromote, u)); }
    forall x ensures Revoke(x, u) !in c.added {
      var n := Revoke(x, u);
      assert n in c.added ==> n.user in c.removed;
    }
  }

  lemma RemovedByScript(q: Queue, q': Queue, c: Change, u: string)
    requires Applies(q, q', c) && Coherent(q, c) && PublishedChange(q, c)
    requires u in c.removed && !OwesRevoke(q, u)
    ensures u !in Scores(q'.active) && OwesRevoke(q', u)
    ensures forall x :: Owes(q', Revoke(x, u)) ==> OwedSince(q', Revoke(x, u)) == c.stamp
  {
    RevokesOf(q, q', c, u);
    var x :| Revoke(x, u) in c.added;
    assert Owes(q', Revoke(x, u));
  }

  lemma UntouchedByScript(q: Queue, q': Queue, c: Change, u: string)
    requires Applies(q, q', c) && Coherent(q, c) && PublishedChange(q, c)
    requires u !in c.admitted && u !in c.removed
    ensures u in Scores(q'.active) <==> u in Scores(q.active)
    ensures forall x :: Owes(q', Revoke(x, u)) <==> Owes(q, Revoke(x, u))
    ensures forall x :: Owes(q, Revoke(x, u)) ==> OwedSince(q', Revoke(x, u)) == OwedSince(q, Revoke(x, u))
    ensures u in Scores(q.active) && OwesAdmit(q, u) ==> OwesAdmit(q', u)
    ensures forall v :: Owes(q', Admit(v, u)) ==> Owes(q, Admit(v, u))
  {
    RevokesOf(q, q', c, u);
    forall x ensures Revoke(x, u) !in c.added {
      var n := Revoke(x, u);
      assert n in c.added ==> n.user in c.removed;
    }
    forall v | Owes(q', Admit(v, u)) ensures Owes(q, Admit(v, u)) {
      var n := Admit(v, u);
      assert n in c.added ==> n.user in c.admitted;
      assert n in c.added || Kept(q.pending, c, n);
    }
    if u in Scores(q.active) && OwesAdmit(q, u) {
      var v :| Owes(q, Admit(v, u));
      assert Kept(q.pending, c, Admit(v, u));
      assert Owes(q', Admit(v, u));
    }
  }

  // ---- each action keeps the invariant ----

  lemma TickKeeps(cfg: Config, st: Sys, d: nat)
    requires SysInv(cfg, st)
    ensures SysInv(cfg, Next(cfg, st, Tick(d)))
  {
    var st' := Next(cfg, st, Tick(d));
    forall u ensures UserOk(cfg, st', u) {
      assert UserOk(cfg, st, u);
    }
  }

  lemma ConsumeSettles(cfg: Config, st: Sys, a: Action, u: string)
    requires Enabled(cfg, st, a) && (a.Consume? || a.Redeliver?)
    ensures Settles(Next(cfg, st, a), u) <==> Settles(st, u)
  {
    var i := a.i;
    var m := st.log[i];
    var st' := Next(cfg, st, a);
    assert (u in st'.admitted) == if m.user == u then m.topic.Admissions? else u in st.admitted;
    if a.Consume? {
      FinalAfterConsume(st.log, i, u, u in st.admitted);
    } else if m.user == u {
      FinalIgnoresBase(st.log, i, u in st.admitted, u in st'.admitted);
    }
  }

  /** Only acknowledgements, the log and booking's keys differ, and u settles as before. */
  lemma StillOk(cfg: Config, st: Sys, st': Sys, u: string)
    requires UserOk(cfg, st, u) && st'.q == st.q && st'.clock == st.clock && (Settles(st', u) <==> Settles(st, u))
    requires st'.air.Keys == st.air.Keys
    requires forall i :: i in st.air ==> st'.air[i] == st.air[i].(acked := st'.air[i].acked)
    ensures UserOk(cfg, st', u)
  {
    AckIsNoMatter(cfg, st, st', u);
    hide Owes, Encode, Settles, CanClear, Counts, OwesAdmit, OwesRevoke;
    if u in Scores(st.q.active) {
      assert SeatOk(cfg, st', u);
    } else {
      assert GoneOk(cfg, st', u);
    }
  }

  lemma AckIsNoMatter(cfg: Config, st: Sys, st': Sys, u: string)
    requires st'.q == st.q && st'.clock == st.clock && st'.air.Keys == st.air.Keys
    requires forall i :: i in st.air ==> st'.air[i] == st.air[i].(acked := st'.air[i].acked)
    ensures forall i, v :: i in st.air ==> (CanClear(st'.air[i], Admit(v, u)) <==> CanClear(st.air[i], Admit(v, u)))
    ensures forall i :: i in st.air ==> (Counts(cfg, st', i, u) <==> Counts(cfg, st, i, u))
  {
    hide Owes, Encode;
  }

  lemma ConsumeKeeps(cfg: Config, st: Sys, a: Action)
    requires SysInv(cfg, st) && Enabled(cfg, st, a) && (a.Consume? || a.Redeliver?)
    ensures SysInv(cfg, Next(cfg, st, a))
  {
    var st' := Next(cfg, st, a);
    ConsumeShape(cfg, st, a);
    hide UserOk, Settles, QueueInv, RealIds, BatchOk, Next, Enabled;
    forall u ensures UserOk(cfg, st', u) {
      ConsumeSettles(cfg, st, a, u);
      StillOk(cfg, st, st', u);
    }
  }

  lemma ConsumeShape(cfg: Config, st: Sys, a: Action)
    requires Enabled(cfg, st, a) && (a.Consume? || a.Redeliver?)
    ensures var st' := Next(cfg, st, a); st' == st.(log := st'.log, admitted := st'.admitted)
  {}

  lemma AckKeeps(cfg: Config, st: Sys, id: nat)
    requires SysInv(cfg, st) && Enabled(cfg, st, Ack(id))
    ensures SysInv(cfg, Next(cfg, st, Ack(id)))
  {
    var st' := Next(cfg, st, Ack(id));
    hide UserOk, Encode, QueueInv, RealIds;
    forall u ensures UserOk(cfg, st', u) {
      StillOk(cfg, st, st', u);
    }
  }

  lemma DropKeeps(cfg: Config, st: Sys, id: nat)
    requires SysInv(cfg, st) && Enabled(cfg, st, Drop(id))
    ensures SysInv(cfg, Next(cfg, st, Drop(id)))
  {
    var st' := Next(cfg, st, Drop(id));
    assert forall i :: i in st'.air ==> i in st.air && st'.air[i] == st.air[i];
    forall u ensures UserOk(cfg, st', u) {
      assert UserOk(cfg, st, u);
    }
  }

  lemma LandSettles(cfg: Config, st: Sys, id: nat, v: string, u: string)
    requires Enabled(cfg, st, Land(id, v))
    ensures Settles(Next(cfg, st, Land(id, v)), u)
        <==> if u == v then st.air[id].topic.Admissions? else Settles(st, u)
  {
    FinalAfterAppend(st.log, Message(st.air[id].topic, v), u, u in st.admitted);
  }

  /** The air after a landing: only the landing batch's landed set grew, by v. */
  ghost predicate LandedAir(st: Sys, st': Sys, id: nat, v: string) {
    && st'.clock == st.clock && st'.q == st.q
    && (forall i :: i in st'.air ==>
          && i in st.air && st'.air[i].topic == st.air[i].topic && st'.air[i].users == st.air[i].users
          && st'.air[i].start == st.air[i].start
          && (forall u :: u in st'.air[i].landed ==> u in st.air[i].landed || (i == id && u == v))
          && (i != id ==> st'.air[i] == st.air[i]))
    && (forall i :: i in st'.air ==> st'.air[i].lines == st.air[i].lines)
  }

  lemma LandKeepsSeat(cfg: Config, st: Sys, st': Sys, id: nat, v: string, u: string)
    requires SeatOk(cfg, st, u) && LandedAir(st, st', id, v) && id in st.air && v in st.air[id].users
    requires st.air[id].topic.Admissions? ==> st.clock < st.air[id].start + cfg.bound
    requires Settles(st', u) <==> if u == v then st.air[id].topic.Admissions? else Settles(st, u)
    ensures SeatOk(cfg, st', u)
  {
    if u != v {
      forall i | i in st'.air && Counts(cfg, st', i, u) ensures Settles(st', u) {
        assert Counts(cfg, st, i, u);
      }
    }
  }

  lemma LandKeepsGone(cfg: Config, st: Sys, st': Sys, id: nat, v: string, u: string)
    requires GoneOk(cfg, st, u) && LandedAir(st, st', id, v) && id in st.air && v in st.air[id].users
    requires BatchOk(st.air[id], st.clock)
    requires st.air[id].topic.Admissions? ==> st.clock < st.air[id].start + cfg.bound
    requires Settles(st', u) <==> if u == v then st.air[id].topic.Admissions? else Settles(st, u)
    ensures GoneOk(cfg, st', u)
  {
    assert Dead(cfg, st, u) ==> Dead(cfg, st', u);
    if u in Scores(st.q.waiting) {
      forall i | i in st'.air ensures !CanClear(st'.air[i], Admit(ViaPromote, u)) {
        assert !CanClear(st.air[i], Admit(ViaPromote, u));
      }
    }
  }

  lemma LandShape(cfg: Config, st: Sys, id: nat, v: string)
    requires Enabled(cfg, st, Land(id, v))
    ensures LandedAir(st, Next(cfg, st, Land(id, v)), id, v)
  {}

  lemma LandKeepsUser(cfg: Config, st: Sys, id: nat, v: string, u: string)
    requires SysInv(cfg, st) && Enabled(cfg, st, Land(id, v))
    ensures UserOk(cfg, Next(cfg, st, Land(id, v)), u)
  {
    var st' := Next(cfg, st, Land(id, v));
    LandSettles(cfg, st, id, v, u);
    LandShape(cfg, st, id, v);
    assert UserOk(cfg, st, u);
    assert BatchOk(st.air[id], st.clock);
    hide SysInv, SeatOk, GoneOk, QueueInv, RealIds, BatchesOk, BatchOk, Settles, Scores, Next, LandedAir;
    if u in Scores(st.q.active) { LandKeepsSeat(cfg, st, st', id, v, u); }
    else { LandKeepsGone(cfg, st, st', id, v, u); }
  }

  lemma LandKeeps(cfg: Config, st: Sys, id: nat, v: string)
    requires SysInv(cfg, st) && Enabled(cfg, st, Land(id, v))
    ensures SysInv(cfg, Next(cfg, st, Land(id, v)))
  {
    forall u ensures UserOk(cfg, Next(cfg, st, Land(id, v)), u) {
      LandKeepsUser(cfg, st, id, v, u);
    }
  }

  lemma ClearedLines(q: Queue, lines: seq<string>)
    ensures var q' := ClearPending(q, lines);
            && (forall n :: Owes(q', n) <==> Owes(q, n) && Encode(n) !in lines)
            && (forall n :: Owes(q', n) ==> OwedSince(q', n) == OwedSince(q, n))
  {
    var c := NO_CHANGE.(dropped := ToSet(lines));
    DropLines(q.pending, lines);
    forall n ensures Owes(ClearPending(q, lines), n) <==> Owes(q, n) && Encode(n) !in lines {
      assert Kept(q.pending, c, n) <==> Owes(q, n) && Encode(n) !in lines;
    }
  }

  ghost predicate ClearedFrom(st: Sys, st': Sys, b: Batch) {
    && st' == st.(q := st.q.(pending := st'.q.pending))
    && (forall n :: Owes(st'.q, n) <==> Owes(st.q, n) && Encode(n) !in b.lines)
    && (forall n :: Owes(st'.q, n) ==> OwedSince(st'.q, n) == OwedSince(st.q, n))
  }

  lemma ClearKeepsSeat(cfg: Config, st: Sys, st': Sys, id: nat, u: string)
    requires SeatOk(cfg, st, u) && id in st.air && ClearedFrom(st, st', st.air[id])
    requires BatchOk(st.air[id], st.clock) && st.air[id].acked
    ensures SeatOk(cfg, st', u)
  {
    if OwesAdmit(st.q, u) && !OwesAdmit(st'.q, u) {
      var x :| Owes(st.q, Admit(x, u));
      assert CanClear(st.air[id], Admit(x, u));
      assert Counts(cfg, st, id, u);
    }
    forall i | i in st'.air && Counts(cfg, st', i, u) ensures Settles(st', u) {
      assert Counts(cfg, st, i, u);
    }
  }

  lemma ClearKeepsGone(cfg: Config, st: Sys, st': Sys, id: nat, u: string)
    requires GoneOk(cfg, st, u) && id in st.air && ClearedFrom(st, st', st.air[id])
    requires BatchOk(st.air[id], st.clock) && st.air[id].acked
    ensures GoneOk(cfg, st', u)
  {
    if OwesRevoke(st.q, u) && !OwesRevoke(st'.q, u) {
      var x :| Owes(st.q, Revoke(x, u));
      assert Encode(Revoke(x, u)) in st.air[id].lines;
    }
  }

  lemma ClearKeepsUser(cfg: Config, st: Sys, id: nat, u: string)
    requires SysInv(cfg, st) && Enabled(cfg, st, Clear(id))
    ensures UserOk(cfg, Next(cfg, st, Clear(id)), u)
  {
    var st' := Next(cfg, st, Clear(id));
    ClearedLines(st.q, st.air[id].lines);
    hide SeatOk, GoneOk, QueueInv, RealIds, BatchOk, ZremAll;
    assert UserOk(cfg, st, u);
    if u in Scores(st.q.active) { ClearKeepsSeat(cfg, st, st', id, u); } else { ClearKeepsGone(cfg, st, st', id, u); }
  }

  lemma ClearKeeps(cfg: Config, st: Sys, id: nat)
    requires SysInv(cfg, st) && Enabled(cfg, st, Clear(id))
    ensures SysInv(cfg, Next(cfg, st, Clear(id)))
  {
    var st' := Next(cfg, st, Clear(id));
    StepKeepsInv(st.q, cfg.max, ClearLines(st.air[id].lines));
    forall u ensures UserOk(cfg, st', u) {
      ClearKeepsUser(cfg, st, id, u);
    }
  }

  // ---- scripts ----

  lemma ScriptBatchOk(cfg: Config, st: Sys, s: Script)
    requires ChangeOf(st.q, cfg.max, s).admitted != {}
    ensures BatchOk(ScriptBatch(cfg, st, s), st.clock)
  {
    match s
    case EnterUser(u, _) =>
      forall n | Encode(n) in [Encode(Admit(ViaEnter, u))] ensures n == Admit(ViaEnter, u) {
        assert Decode(Encode(n)) == Some(n);
      }
    case PromoteHead(batch, now) => PromoteLinesNamed(Promote(st.q, cfg.max, batch, now).1);
    case _ =>
  }

  lemma StepKeepsIds(q: Queue, max: int, s: Script)
    requires QueueInv(q, max) && RealIds(q) && (s.EnterUser? ==> ValidId(s.user))
    ensures RealIds(Step(q, max, s))
  {
    var q', c := Step(q, max, s), ChangeOf(q, max, s);
    StepApplies(q, max, s);
    StepCoherent(q, max, s);
    AdmittedComeFromLine(q, max, s);
    forall k | k in Scores(q'.pending) ensures RealLine(k) {
      if k !in Scores(q.pending) {
        var n :| n in c.added && k == Encode(n);
        assert n.user in c.admitted || n.user in c.removed;
      }
    }
  }

  /** Only a newcomer or a waiter is seated; only a newcomer or a waiter joins the line. */
  lemma AdmittedComeFromLine(q: Queue, max: int, s: Script)
    requires QueueInv(q, max)
    ensures var c := ChangeOf(q, max, s);
            forall u :: u in c.admitted || u in c.joined ==> u in Scores(q.waiting) || (s.EnterUser? && s.user == u)
  {
    hide QueueInv, MoveAll, RangeByScore, Names, PromoteCount, Scores, Encode;
    if s.PromoteHead? { PrefixNames(q.waiting, PromoteCount(q, max, s.batch)); }
  }

  /** How a script that seats users announces them. */
  function ViaOf(s: Script): Via { if s.EnterUser? then ViaEnter else ViaPromote }

  /** A user the script seats or puts in line was ready for the seat. */
  lemma ArrivalsAreReady(cfg: Config, st: Sys, s: Script, id: nat, u: string)
    requires SysInv(cfg, st) && Enabled(cfg, st, Action.Script(s, id))
    requires var c := ChangeOf(st.q, cfg.max, s); u in c.admitted || u in c.joined
    ensures Ready(st, u, if u in ChangeOf(st.q, cfg.max, s).admitted then ViaOf(s) else ViaPromote)
    ensures u !in Scores(st.q.active) && GoneOk(cfg, st, u)
  {
    AdmittedComeFromLine(st.q, cfg.max, s);
    StepCoherent(st.q, cfg.max, s);
    assert UserOk(cfg, st, u);
    hide Ready, OwesRevoke, Encode, Scores;
  }

  /** A seat just given is announced by that line alone. */
  lemma OneAnnouncement(cfg: Config, st: Sys, s: Script, u: string)
    requires QueueInv(st.q, cfg.max) && u in ChangeOf(st.q, cfg.max, s).admitted && u !in Scores(st.q.active)
    ensures forall v :: Owes(Step(st.q, cfg.max, s), Admit(v, u)) ==> v == ViaOf(s)
  {
    var q', c := Step(st.q, cfg.max, s), ChangeOf(st.q, cfg.max, s);
    StepApplies(st.q, cfg.max, s);
    AnnouncedBy(st.q, cfg.max, s, u);
    hide ChangeOf, Step, ViaOf, Moves;
    forall v | Owes(q', Admit(v, u)) ensures v == ViaOf(s) {
      assert Admit(v, u) in c.added || Kept(st.q.pending, c, Admit(v, u));
      assert Owes(st.q, Admit(v, u)) ==> u in Scores(st.q.active);
    }
  }

  lemma AnnouncedBy(q: Queue, max: int, s: Script, u: string)
    ensures forall v :: Admit(v, u) in ChangeOf(q, max, s).added ==> v == ViaOf(s)
  {
    hide Encode, Scores, Promote, ExpireActive, ExpireWaiting;
  }

  lemma ScriptAir(cfg: Config, st: Sys, s: Script, id: nat)
    requires Enabled(cfg, st, Action.Script(s, id))
    ensures var st' := Next(cfg, st, Action.Script(s, id));
            && (forall i :: i in st.air ==> i in st'.air && st'.air[i] == st.air[i])
            && (forall i :: i in st'.air && i !in st.air ==>
                  && st'.air[i].topic.Admissions? && st'.air[i].start == st.clock && st'.air[i].landed == {}
                  && st'.air[i].users == ChangeOf(st.q, cfg.max, s).admitted)
  {}

  /** A ready user who has just been seated and is owed an admission. */
  lemma NewSeat(cfg: Config, st: Sys, st': Sys, u: string, v: Via)
    requires Ready(st, u, v) && Dead(cfg, st, u) && OwesAdmit(st'.q, u) && !OwesRevoke(st'.q, u)
    requires st'.clock == st.clock && forall x :: Owes(st'.q, Admit(x, u)) ==> x == v
    requires forall i :: i in st'.air ==>
               if i in st.air then st'.air[i] == st.air[i] && st.air[i].landed <= st.air[i].users
               else st'.air[i].topic.Admissions? && st'.air[i].landed == {}
    ensures SeatOk(cfg, st', u)
  {}

  lemma ScriptKeepsSeated(cfg: Config, st: Sys, s: Script, id: nat, u: string)
    requires SysInv(cfg, st) && Enabled(cfg, st, Action.Script(s, id))
    requires u in ChangeOf(st.q, cfg.max, s).admitted
    ensures UserOk(cfg, Next(cfg, st, Action.Script(s, id)), u)
  {
    hide ChangeOf, Step, Timely, MayEnter, QueueInv, RealIds, ScriptBatch, Ready, SeatOk, Dead, GoneOk;
    hide Applies, Coherent, PublishedChange;
    var c := ChangeOf(st.q, cfg.max, s);
    var st' := Next(cfg, st, Action.Script(s, id));
    ArrivalsAreReady(cfg, st, s, id, u);
    ReadyMeans(cfg, st, u, ViaOf(s));
    OneAnnouncement(cfg, st, s, u);
    StepApplies(st.q, cfg.max, s);
    StepCoherent(st.q, cfg.max, s);
    ScriptIsPublished(cfg, st.clock, st.q, s);
    SeatedByScript(st.q, st'.q, c, u);
    ScriptAir(cfg, st, s, id);
    NewSeat(cfg, st, st', u, ViaOf(s));
  }

  lemma ReadyMeans(cfg: Config, st: Sys, u: string, v: Via)
    requires Ready(st, u, v) && GoneOk(cfg, st, u)
    ensures !OwesRevoke(st.q, u) && Dead(cfg, st, u) && !Settles(st, u)
  {}

  /** A seat holder who has just left and is owed a revoke stamped no more than lag ago. */
  lemma FreshRevoke(cfg: Config, st: Sys, st': Sys, u: string)
    requires SeatOk(cfg, st, u) && u !in Scores(st'.q.waiting) && OwesRevoke(st'.q, u)
    requires forall x :: Owes(st'.q, Revoke(x, u)) ==> st.clock <= OwedSince(st'.q, Revoke(x, u)) + cfg.lag
    requires forall i :: i in st'.air && u in st'.air[i].users ==>
               i in st.air && st'.air[i] == st.air[i] && st.air[i].start <= st.clock
    ensures GoneOk(cfg, st', u)
  {}

  lemma ScriptKeepsRemoved(cfg: Config, st: Sys, s: Script, id: nat, u: string)
    requires SysInv(cfg, st) && Enabled(cfg, st, Action.Script(s, id))
    requires u in ChangeOf(st.q, cfg.max, s).removed
    ensures UserOk(cfg, Next(cfg, st, Action.Script(s, id)), u)
  {
    hide ChangeOf, Step, Timely, MayEnter, RealIds, ScriptBatch, QueueInv;
    hide Applies, Coherent, PublishedChange, SeatOk, GoneOk;
    var c := ChangeOf(st.q, cfg.max, s);
    var st' := Next(cfg, st, Action.Script(s, id));
    StepApplies(st.q, cfg.max, s);
    StepCoherent(st.q, cfg.max, s);
    ScriptIsPublished(cfg, st.clock, st.q, s);
    RemovedNotWaiting(st.q, st'.q, c, u, cfg.max);
    assert UserOk(cfg, st, u);
    NoRevokeOwed(cfg, st, u);
    RemovedByScript(st.q, st'.q, c, u);
    ScriptAir(cfg, st, s, id);
    FreshRevoke(cfg, st, st', u);
  }

  lemma NoRevokeOwed(cfg: Config, st: Sys, u: string)
    requires SeatOk(cfg, st, u)
    ensures !OwesRevoke(st.q, u)
  {}

  lemma RemovedNotWaiting(q: Queue, q': Queue, c: Change, u: string, max: int)
    requires QueueInv(q, max) && Applies(q, q', c) && Coherent(q, c) && u in c.removed
    ensures u in Scores(q.active) && u !in Scores(q'.waiting) && u !in c.admitted
  {}

  /** Same seat, same revokes at the same times, same air but for batches that do not name u. */
  ghost predicate SameFor(st: Sys, st': Sys, u: string) {
    && st'.clock == st.clock && st'.log == st.log && st'.admitted == st.admitted
    && (u in Scores(st'.q.active) <==> u in Scores(st.q.active))
    && (forall x :: Owes(st'.q, Revoke(x, u)) <==> Owes(st.q, Revoke(x, u)))
    && (forall x :: Owes(st.q, Revoke(x, u)) ==> OwedSince(st'.q, Revoke(x, u)) == OwedSince(st.q, Revoke(x, u)))
    && (u in Scores(st.q.active) && OwesAdmit(st.q, u) ==> OwesAdmit(st'.q, u))
    && (forall i :: i in st.air ==> i in st'.air && st'.air[i] == st.air[i])
    && (forall v :: Owes(st'.q, Admit(v, u)) ==> Owes(st.q, Admit(v, u)))
    && (forall i :: i in st'.air && i !in st.air ==>
          && u !in st'.air[i].users && u !in st'.air[i].landed
          && forall v :: Encode(Admit(v, u)) !in st'.air[i].lines)
  }

  lemma SameKeeps(cfg: Config, st: Sys, st': Sys, u: string)
    requires UserOk(cfg, st, u) && SameFor(st, st', u)
    requires u in Scores(st'.q.waiting) && u !in Scores(st'.q.active) ==> Ready(st, u, ViaPromote)
    ensures UserOk(cfg, st', u)
  {
    assert Settles(st', u) <==> Settles(st, u);
    forall i | i in st'.air && Counts(cfg, st', i, u) ensures i in st.air && Counts(cfg, st, i, u) {}
  }

  lemma ScriptSameFor(cfg: Config, st: Sys, s: Script, id: nat, u: string)
    requires SysInv(cfg, st) && Enabled(cfg, st, Action.Script(s, id))
    requires var c := ChangeOf(st.q, cfg.max, s); u !in c.admitted && u !in c.removed
    ensures SameFor(st, Next(cfg, st, Action.Script(s, id)), u)
  {
    hide ChangeOf, Step, Timely, MayEnter, RealIds, ScriptBatch, QueueInv, UserOk;
    StepApplies(st.q, cfg.max, s);
    StepCoherent(st.q, cfg.max, s);
    ScriptIsPublished(cfg, st.clock, st.q, s);
    UntouchedByScript(st.q, Step(st.q, cfg.max, s), ChangeOf(st.q, cfg.max, s), u);
    ScriptAir(cfg, st, s, id);
    if ChangeOf(st.q, cfg.max, s).admitted != {} { ScriptBatchOk(cfg, st, s); }
  }

  lemma WaitersAreReady(cfg: Config, st: Sys, s: Script, id: nat, u: string)
    requires SysInv(cfg, st) && Enabled(cfg, st, Action.Script(s, id))
    requires u in Scores(Step(st.q, cfg.max, s).waiting) && u !in Scores(st.q.active)
    requires u !in ChangeOf(st.q, cfg.max, s).admitted
    ensures Ready(st, u, ViaPromote)
  {
    StepLine(st.q, cfg.max, s);
    assert UserOk(cfg, st, u);
    if u !in Scores(st.q.waiting) { ArrivalsAreReady(cfg, st, s, id, u); }
  }

  lemma ScriptKeepsUntouched(cfg: Config, st: Sys, s: Script, id: nat, u: string)
    requires SysInv(cfg, st) && Enabled(cfg, st, Action.Script(s, id))
    requires var c := ChangeOf(st.q, cfg.max, s); u !in c.admitted && u !in c.removed
    ensures UserOk(cfg, Next(cfg, st, Action.Script(s, id)), u)
  {
    var st' := Next(cfg, st, Action.Script(s, id));
    ScriptSameFor(cfg, st, s, id, u);
    hide ChangeOf, Step, Timely, MayEnter, RealIds, ScriptBatch, QueueInv, UserOk, Ready;
    assert UserOk(cfg, st, u);
    if u in Scores(st'.q.waiting) && u !in Scores(st'.q.active) { WaitersAreReady(cfg, st, s, id, u); }
    SameKeeps(cfg, st, st', u);
  }

  lemma ScriptBatchesOk(cfg: Config, st: Sys, s: Script, id: nat)
    requires SysInv(cfg, st) && Enabled(cfg, st, Action.Script(s, id))
    ensures BatchesOk(Next(cfg, st, Action.Script(s, id)))
  {
    hide ChangeOf, Step, ScriptBatch, BatchOk, UserOk, QueueInv, RealIds;
    if ChangeOf(st.q, cfg.max, s).admitted != {} { ScriptBatchOk(cfg, st, s); }
  }

  lemma ScriptKeeps(cfg: Config, st: Sys, s: Script, id: nat)
    requires SysInv(cfg, st) && Enabled(cfg, st, Action.Script(s, id))
    ensures SysInv(cfg, Next(cfg, st, Action.Script(s, id)))
  {
    var st' := Next(cfg, st, Action.Script(s, id));
    hide ChangeOf, Step, Timely, MayEnter, RealIds, ScriptBatch, QueueInv, UserOk, BatchesOk;
    StepKeepsInv(st.q, cfg.max, s);
    StepKeepsIds(st.q, cfg.max, s);
    ScriptBatchesOk(cfg, st, s, id);
    forall u ensures UserOk(cfg, st', u) {
      if u in ChangeOf(st.q, cfg.max, s).admitted { ScriptKeepsSeated(cfg, st, s, id, u); }
      else if u in ChangeOf(st.q, cfg.max, s).removed { ScriptKeepsRemoved(cfg, st, s, id, u); }
      else { ScriptKeepsUntouched(cfg, st, s, id, u); }
    }
  }

  // ---- the sweep ----

  lemma SweepReads(cfg: Config, st: Sys, readAt: int, limit: nat)
    requires SysInv(cfg, st)
    ensures var lines := SweepLines(cfg, st, readAt, limit);
            && Sorted(Sift(lines), lines)
            && (forall n :: Encode(n) in lines ==> Owes(st.q, n) && OwedSince(st.q, n) <= readAt - cfg.grace)
  {
    var lines := SweepLines(cfg, st, readAt, limit);
    PendingBeforeOld(st.q.pending, readAt - cfg.grace, limit);
    hide PendingBefore, Sift, Sorted, Encode, RealLine, QueueInv, BatchesOk, UserOk;
    assert AllNotices(lines);
    SiftSorts(lines);
  }

  /** Whoever an admission batch of the sweep names is seated; whoever a revoke batch names is
      gone and beyond the reach of any admission still in the air. */
  lemma SweepNames(cfg: Config, st: Sys, readAt: int, limit: nat, u: string)
    requires SysInv(cfg, st) && readAt <= st.clock && cfg.bound + cfg.lag <= cfg.grace
    ensures var s := Sift(SweepLines(cfg, st, readAt, limit));
            && (u in s.admits ==> u in Scores(st.q.active))
            && (u in s.revokes ==> u !in Scores(st.q.active) && OwesRevoke(st.q, u) && Dead(cfg, st, u))
  {
    var lines := SweepLines(cfg, st, readAt, limit);
    SweepReads(cfg, st, readAt, limit);
    var s := Sift(lines);
    assert UserOk(cfg, st, u);
    if u in s.admits {
      var n :| Encode(n) in s.admitLines && n.user == u;
    }
    if u in s.revokes {
      var n :| Encode(n) in s.revokeLines && n.user == u;
      assert Owes(st.q, Revoke(n.cause, u));
    }
  }

  lemma SweptBatchOk(lines: seq<string>, users: seq<string>, topic: Topic, now: int)
    requires forall n :: Encode(n) in lines ==> n.user in users && (n.Admit? <==> topic.Admissions?)
    ensures BatchOk(Batch(topic, ToSet(users), lines, now, {}, false), now)
  {}

  lemma SweepBatchesOk(cfg: Config, st: Sys, a: Action)
    requires SysInv(cfg, st) && a.Sweep? && Enabled(cfg, st, a)
    ensures BatchesOk(Next(cfg, st, a))
  {
    SweepReads(cfg, st, a.readAt, a.limit);
    var s := Sift(SweepLines(cfg, st, a.readAt, a.limit));
    SweptBatchOk(s.admitLines, s.admits, Admissions, st.clock);
    SweptBatchOk(s.revokeLines, s.revokes, Revoked, st.clock);
    hide SweepLines, Sift, RealIds, QueueInv, UserOk, BatchOk, ClearPending, Sorted;
  }

  lemma SweepKeepsQueue(cfg: Config, st: Sys, a: Action)
    requires SysInv(cfg, st) && a.Sweep? && Enabled(cfg, st, a)
    ensures Next(cfg, st, a).q == st.q
  {
    SweepReads(cfg, st, a.readAt, a.limit);
  }

  lemma SweepAir(cfg: Config, st: Sys, a: Action, u: string)
    requires a.Sweep? && Enabled(cfg, st, a)
    ensures var st' := Next(cfg, st, a);
            var s := Sift(SweepLines(cfg, st, a.readAt, a.limit));
            && (forall i :: i in st.air ==> i in st'.air && st'.air[i] == st.air[i])
            && (forall i :: i in st'.air && i !in st.air ==>
                  && st'.air[i].landed == {} && st'.air[i].start == st.clock
                  && (u in st'.air[i].users ==> u in if st'.air[i].topic.Admissions? then s.admits else s.revokes))
  {
    hide Sift, SweepLines;
  }

  lemma SweepKeepsUser(cfg: Config, st: Sys, a: Action, u: string)
    requires SysInv(cfg, st) && a.Sweep? && Enabled(cfg, st, a) && cfg.bound + cfg.lag <= cfg.grace
    ensures UserOk(cfg, Next(cfg, st, a), u)
  {
    var st' := Next(cfg, st, a);
    SweepKeepsQueue(cfg, st, a);
    SweepBatchesOk(cfg, st, a);
    SweepAir(cfg, st, a, u);
    SweepNames(cfg, st, a.readAt, a.limit, u);
    hide SweepLines, Sift, RealIds, QueueInv, BatchOk, Enabled;
    assert UserOk(cfg, st, u);
    assert Settles(st', u) <==> Settles(st, u);
    if u in Scores(st.q.active) { SweptSeat(cfg, st, st', u); } else { SweptGone(cfg, st, st', u); }
  }

  lemma SweptSeat(cfg: Config, st: Sys, st': Sys, u: string)
    requires SeatOk(cfg, st, u) && st'.q == st.q && (Settles(st', u) <==> Settles(st, u)) && st'.clock == st.clock
    requires forall i :: i in st'.air && i !in st.air ==>
               st'.air[i].landed == {} && (u in st'.air[i].users ==> st'.air[i].topic.Admissions?)
    requires forall i :: i in st.air ==> i in st'.air && st'.air[i] == st.air[i]
    ensures SeatOk(cfg, st', u)
  {
    forall i | i in st'.air && Counts(cfg, st', i, u) ensures Settles(st', u) {
      assert i in st.air && Counts(cfg, st, i, u);
    }
  }

  lemma SweptGone(cfg: Config, st: Sys, st': Sys, u: string)
    requires GoneOk(cfg, st, u) && st'.q == st.q && (Settles(st', u) <==> Settles(st, u)) && st'.clock == st.clock
    requires forall i :: i in st'.air && i !in st.air ==>
               st'.air[i].landed == {} && (u in st'.air[i].users ==> st'.air[i].topic.Revoked? && Dead(cfg, st, u))
    requires forall i :: i in st'.air && i !in st.air ==> BatchOk(st'.air[i], st'.clock)
    requires forall i :: i in st'.air && i !in st.air && u in st'.air[i].users ==> u !in Scores(st.q.waiting)
    requires forall i :: i in st.air ==> i in st'.air && st'.air[i] == st.air[i]
    ensures GoneOk(cfg, st', u)
  {
    assert Dead(cfg, st, u) ==> Dead(cfg, st', u);
  }

  lemma SweepKeeps(cfg: Config, st: Sys, a: Action)
    requires SysInv(cfg, st) && a.Sweep? && Enabled(cfg, st, a) && cfg.bound + cfg.lag <= cfg.grace
    ensures SysInv(cfg, Next(cfg, st, a))
  {
    hide UserOk, BatchesOk, RealIds, QueueInv;
    SweepKeepsQueue(cfg, st, a);
    SweepBatchesOk(cfg, st, a);
    forall u ensures UserOk(cfg, Next(cfg, st, a), u) {
      SweepKeepsUser(cfg, st, a, u);
    }
  }
}
