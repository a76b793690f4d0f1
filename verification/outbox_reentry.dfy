/** Exactly when a user who is neither seated nor in line may enter: what of their past would undo
    the new seat. */
module OutboxReentry {
  import opened SortedSets
  import opened Journal
  import opened Queues
  import opened QueueSteps
  import opened QueueRuns
  import opened Sweeps
  import opened Outbox
  import opened OutboxSafety
  import opened OutboxConvergence
  import opened OutboxGrace
  import opened OutboxRecovery

  /** Something of u's past can undo a seat announced by way of v, and u is not about to be admitted. */
  ghost predicate Blocked(cfg: Config, st: Sys, u: string, v: Via) {
    && QueueInv(st.q, cfg.max) && RealIds(st.q)
    && !Ready(st, u, v) && (OwesRevoke(st.q, u) || !Settles(st, u))
  }

  // ---- a seated user with something to undo the seat ----

  /** One line announces the seat of u. */
  ghost predicate AnnouncedOnce(q: Queue, u: string, v: Via) {
    u in Scores(q.active) && forall x :: Owes(q, Admit(x, u)) ==> x == v
  }

  /** The end of a run that went wrong: drained, and u holds a seat booking does not know of. */
  ghost predicate Forgotten(st: Sys, u: string) {
    st.q.pending == [] && st.log == [] && u in Scores(st.q.active) && u !in st.admitted
  }

  /** An owed revoke goes out after everything else. */
  lemma OwedRevokeWins(cfg: Config, from: Sys, acts: seq<Action>, st: Sys, u: string)
    returns (more: seq<Action>, st': Sys)
    requires Reaches(cfg, from, acts, st) && RealIds(st.q) && u in Scores(st.q.active) && cfg.bound > 0
    requires OwesRevoke(st.q, u) || (!OwesAdmit(st.q, u) && !Settles(st, u))
    ensures Reaches(cfg, from, more, st') && Forgotten(st', u)
  {
    hide Reaches, RealIds, OwesRevoke, OwesAdmit, Settles, Scores;
    var s1;
    more, s1 := PublishAll(cfg, from, acts, st);
    more, st' := ConsumeAll(cfg, from, more, s1);
  }

  /** A revoke with a publisher lands after everything else. */
  lemma FlyingRevokeWins(cfg: Config, from: Sys, acts: seq<Action>, st: Sys, u: string, id: nat)
    returns (more: seq<Action>, st': Sys)
    requires Reaches(cfg, from, acts, st) && RealIds(st.q) && u in Scores(st.q.active) && cfg.bound > 0
    requires id in st.air && st.air[id].topic.Revoked? && u in st.air[id].users
    ensures Reaches(cfg, from, more, st') && Forgotten(st', u)
  {
    hide Reaches, RealIds, OwesRevoke, OwesAdmit, Settles, Scores;
    var s1, s2;
    more, s1 := PublishAll(cfg, from, acts, st);
    Extend(cfg, from, more, s1, Land(id, u));
    LandOne(cfg, s1, id, u);
    s2 := Next(cfg, s1, Land(id, u));
    more, st' := ConsumeAll(cfg, from, more + [Land(id, u)], s2);
  }

  /** An old admission batch clears the line of the new seat before it has been published. */
  lemma OldClearErases(cfg: Config, from: Sys, acts: seq<Action>, st: Sys, u: string, v: Via, id: nat)
    returns (more: seq<Action>, st': Sys)
    requires Reaches(cfg, from, acts, st) && RealIds(st.q) && AnnouncedOnce(st.q, u, v) && cfg.bound > 0
    requires !OwesRevoke(st.q, u) && !Settles(st, u) && id in st.air && CanClear(st.air[id], Admit(v, u))
    ensures Reaches(cfg, from, more, st') && Forgotten(st', u)
  {
    AckStands(cfg, st, id);
    var s1 := st.(air := st.air[id := st.air[id].(acked := true)]);
    ClearStands(cfg, s1, id);
    var s2 := s1.(q := ClearPending(st.q, st.air[id].lines));
    LineErased(st, s2, u, v, st.air[id].lines);
    hide Reaches, RealIds, OwesRevoke, OwesAdmit, Settles, Scores, Enabled, Next, ClearPending, CanClear, AnnouncedOnce;
    Extend(cfg, from, acts, st, Ack(id));
    Extend(cfg, from, acts + [Ack(id)], s1, Clear(id));
    more, st' := OwedRevokeWins(cfg, from, acts + [Ack(id)] + [Clear(id)], s2, u);
  }

  lemma LineErased(st: Sys, st': Sys, u: string, v: Via, lines: seq<string>)
    requires AnnouncedOnce(st.q, u, v) && Encode(Admit(v, u)) in lines && RealIds(st.q) && !Settles(st, u)
    requires st'.q == ClearPending(st.q, lines) && st'.log == st.log && st'.admitted == st.admitted
    ensures !OwesAdmit(st'.q, u) && !Settles(st', u) && RealIds(st'.q) && u in Scores(st'.q.active)
  {
    ClearedLines(st.q, lines);
    hide Encode;
  }

  /** So whatever the cause, some way on ends wrong. */
  lemma SeatedEndsWrong(cfg: Config, from: Sys, acts: seq<Action>, st: Sys, u: string, v: Via)
    returns (more: seq<Action>, st': Sys)
    requires Reaches(cfg, from, acts, st) && Blocked(cfg, st, u, v) && AnnouncedOnce(st.q, u, v) && cfg.bound > 0
    ensures Reaches(cfg, from, more, st') && Forgotten(st', u)
  {
    hide Reaches, RealIds, Settles, QueueInv, CanClear, Encode, Scores;
    if OwesRevoke(st.q, u) {
      more, st' := OwedRevokeWins(cfg, from, acts, st, u);
    } else if id :| id in st.air && st.air[id].topic.Revoked? && u in st.air[id].users {
      more, st' := FlyingRevokeWins(cfg, from, acts, st, u, id);
    } else {
      var id :| id in st.air && CanClear(st.air[id], Admit(v, u));
      more, st' := OldClearErases(cfg, from, acts, st, u, v, id);
    }
  }

  // ---- scripts that do not take a seat from u ----

  lemma ScriptKeepsBlocked(cfg: Config, st: Sys, s: Script, id: nat, u: string, v: Via)
    requires Blocked(cfg, st, u, v) && id !in st.air && Timely(cfg, st.clock, s)
    requires (s.EnterUser? ==> ValidId(s.user)) && u !in ChangeOf(st.q, cfg.max, s).removed
    ensures Blocked(cfg, AfterScript(cfg, st, s, id), u, v)
  {
    hide QueueInv, RealIds, Step, ChangeOf, ScriptBatch, OwesRevoke, Timely;
    StepKeepsInv(st.q, cfg.max, s);
    StepKeepsIds(st.q, cfg.max, s);
    RevokesStay(cfg, st, s, u);
    StaysBlocked(cfg, st, AfterScript(cfg, st, s, id), u, v);
  }

  lemma StaysBlocked(cfg: Config, st: Sys, st': Sys, u: string, v: Via)
    requires Blocked(cfg, st, u, v) && QueueInv(st'.q, cfg.max) && RealIds(st'.q)
    requires OwesRevoke(st'.q, u) <==> OwesRevoke(st.q, u)
    requires st'.log == st.log && st'.admitted == st.admitted
    requires forall i :: i in st.air ==> i in st'.air && st'.air[i] == st.air[i]
    ensures Blocked(cfg, st', u, v)
  {
    assert Settles(st', u) <==> Settles(st, u);
    hide QueueInv, RealIds, OwesRevoke, CanClear, Settles;
  }

  lemma RevokesStay(cfg: Config, st: Sys, s: Script, u: string)
    requires QueueInv(st.q, cfg.max) && Timely(cfg, st.clock, s) && u !in ChangeOf(st.q, cfg.max, s).removed
    ensures OwesRevoke(Step(st.q, cfg.max, s), u) <==> OwesRevoke(st.q, u)
  {
    var c := ChangeOf(st.q, cfg.max, s);
    StepApplies(st.q, cfg.max, s);
    StepCoherent(st.q, cfg.max, s);
    ScriptIsPublished(cfg, st.clock, st.q, s);
    RevokesOf(st.q, Step(st.q, cfg.max, s), c, u);
    hide ChangeOf, Step, Timely, QueueInv;
    forall x ensures Revoke(x, u) !in c.added {
      var n := Revoke(x, u);
      assert n in c.added ==> n.user in c.removed;
    }
  }

  // ---- from the line to a seat ----

  lemma LeaveEffect(q: Queue, max: int, w: string, now: int)
    ensures var q' := Step(q, max, LeaveUser(w, now));
            && Scores(q'.active).Keys == Scores(q.active).Keys - {w}
            && Scores(q'.waiting).Keys == Scores(q.waiting).Keys - {w}
    ensures ChangeOf(q, max, LeaveUser(w, now)).admitted == {}
    ensures ChangeOf(q, max, LeaveUser(w, now)).removed <= {w}
  {}

  /** Somebody else leaves. */
  lemma OneLeaves(cfg: Config, from: Sys, acts: seq<Action>, st: Sys, u: string, v: Via, w: string)
    returns (more: seq<Action>, st': Sys)
    requires Reaches(cfg, from, acts, st) && Blocked(cfg, st, u, v) && w != u && Sane(cfg)
    ensures Reaches(cfg, from, more, st') && Blocked(cfg, st', u, v)
    ensures Scores(st'.q.active).Keys == Scores(st.q.active).Keys - {w}
    ensures Scores(st'.q.waiting).Keys == Scores(st.q.waiting).Keys - {w}
  {
    var id := TopOf(st.air.Keys, 0);
    var s := LeaveUser(w, st.clock);
    LeaveEffect(st.q, cfg.max, w, st.clock);
    assert Timely(cfg, st.clock, s) && Enabled(cfg, st, Action.Script(s, id));
    ScriptKeepsBlocked(cfg, st, s, id, u, v);
    hide Reaches, Blocked, Step, ChangeOf, Scores, Enabled;
    Extend(cfg, from, acts, st, Action.Script(s, id));
    st' := AfterScript(cfg, st, s, id);
    more := acts + [Action.Script(s, id)];
  }

  /** Everybody else leaves the line. */
  lemma {:induction false} LineEmpties(cfg: Config, from: Sys, acts: seq<Action>, st: Sys, u: string, v: Via)
    returns (more: seq<Action>, st': Sys)
    requires Reaches(cfg, from, acts, st) && Blocked(cfg, st, u, v) && Sane(cfg)
    requires u in Scores(st.q.waiting) && Scores(st.q.active).Keys !! Scores(st.q.waiting).Keys
    ensures Reaches(cfg, from, more, st') && Blocked(cfg, st', u, v)
    ensures Scores(st'.q.waiting).Keys == {u} && Scores(st'.q.active).Keys == Scores(st.q.active).Keys
    decreases Scores(st.q.waiting).Keys
  {
    hide Reaches, Blocked, Scores;
    if w :| w in Scores(st.q.waiting).Keys && w != u {
      var s1;
      more, s1 := OneLeaves(cfg, from, acts, st, u, v, w);
      more, st' := LineEmpties(cfg, from, more, s1, u, v);
    } else {
      more, st' := acts, st;
    }
  }

  lemma OnlyMember(z: Zset, u: string)
    requires Scores(z).Keys == {u}
    ensures |z| == 1 && Names(z) == [u] && z[..1] == z
  {
    CardOfScores(z);
    ScoresFacts(z);
    NamesAt(z);
    hide Scores, Names;
    assert |z| == |Scores(z).Keys|;
    assert z[0] in z;
  }

  lemma PromotesAlone(q: Queue, max: int, u: string, now: int)
    requires Scores(q.waiting).Keys == {u} && |q.active| < max
    ensures var c := ChangeOf(q, max, PromoteHead(1, now)); c.admitted == {u} && c.removed == {}
  {
    OnlyMember(q.waiting, u);
    hide Scores, MoveAll, Names, Encode;
    assert Promote(q, max, 1, now).1 == [u];
    assert ToSet([u]) == {u};
  }

  /** The one left in line is promoted. */
  lemma LastIsPromoted(cfg: Config, from: Sys, acts: seq<Action>, st: Sys, u: string)
    returns (more: seq<Action>, st': Sys)
    requires Reaches(cfg, from, acts, st) && Blocked(cfg, st, u, ViaPromote) && Sane(cfg)
    requires Scores(st.q.waiting).Keys == {u} && u !in Scores(st.q.active) && |st.q.active| < cfg.max
    ensures Reaches(cfg, from, more, st') && Blocked(cfg, st', u, ViaPromote) && AnnouncedOnce(st'.q, u, ViaPromote)
  {
    var id := TopOf(st.air.Keys, 0);
    var s := PromoteHead(1, st.clock);
    PromotesAlone(st.q, cfg.max, u, st.clock);
    MayPromote(cfg, st, id);
    PromotedIsAnnounced(cfg, st, s, id, u);
    hide Reaches, Step, ChangeOf, Scores, Enabled, Blocked, AnnouncedOnce;
    ScriptKeepsBlocked(cfg, st, s, id, u, ViaPromote);
    Extend(cfg, from, acts, st, Action.Script(s, id));
    st' := AfterScript(cfg, st, s, id);
    more := acts + [Action.Script(s, id)];
  }

  lemma MayPromote(cfg: Config, st: Sys, id: nat)
    requires Sane(cfg) && id !in st.air
    ensures var s := PromoteHead(1, st.clock); Timely(cfg, st.clock, s) && Enabled(cfg, st, Action.Script(s, id))
  {}

  lemma PromotedIsAnnounced(cfg: Config, st: Sys, s: Script, id: nat, u: string)
    requires QueueInv(st.q, cfg.max) && s.PromoteHead?
    requires u in ChangeOf(st.q, cfg.max, s).admitted && u !in Scores(st.q.active)
    ensures AnnouncedOnce(AfterScript(cfg, st, s, id).q, u, ViaPromote)
  {
    StepSeats(st.q, cfg.max, s);
    OneAnnouncement(cfg, st, s, u);
    hide Step, ChangeOf, Scores, QueueInv;
    assert u in Scores(AfterScript(cfg, st, s, id).q.active).Keys;
  }

  lemma InvBounds(q: Queue, max: int)
    requires QueueInv(q, max) && max >= 1
    ensures |q.active| <= max && Scores(q.active).Keys !! Scores(q.waiting).Keys
  {}

  lemma SameSize(a: Zset, b: Zset)
    requires Scores(a).Keys == Scores(b).Keys
    ensures |a| == |b|
  {
    CardOfScores(a);
    CardOfScores(b);
    assert |Scores(a).Keys| == |Scores(b).Keys|;
  }

  lemma OneFewer(a: Zset, b: Zset, w: string)
    requires w in Scores(a).Keys && Scores(b).Keys == Scores(a).Keys - {w}
    ensures |b| == |a| - 1
  {
    CardOfScores(a);
    CardOfScores(b);
    assert |Scores(b).Keys| == |Scores(a).Keys| - 1;
  }

  lemma SomeMember(z: Zset) returns (w: string)
    requires |z| > 0
    ensures w in Scores(z).Keys
  {
    ScoresFacts(z);
    w := z[0].member;
    assert z[0] in z;
  }

  /** If no seat is free, one of the seated leaves. */
  lemma OneIsFree(cfg: Config, from: Sys, acts: seq<Action>, st: Sys, u: string, v: Via)
    returns (more: seq<Action>, st': Sys)
    requires Reaches(cfg, from, acts, st) && Blocked(cfg, st, u, v) && Sane(cfg) && |st.q.active| <= cfg.max
    requires Scores(st.q.waiting).Keys == {u} && u !in Scores(st.q.active)
    ensures Reaches(cfg, from, more, st') && Blocked(cfg, st', u, v) && |st'.q.active| < cfg.max
    ensures Scores(st'.q.waiting).Keys == {u} && u !in Scores(st'.q.active)
  {
    hide Reaches, Scores, Blocked;
    if |st.q.active| >= cfg.max {
      var w := SomeMember(st.q.active);
      more, st' := OneLeaves(cfg, from, acts, st, u, v, w);
      OneFewer(st.q.active, st'.q.active, w);
      assert u !in Scores(st'.q.active).Keys;
    } else {
      more, st' := acts, st;
    }
  }

  /** A waiter gets the seat, with nothing of the past settled. */
  lemma WaiterIsSeated(cfg: Config, from: Sys, acts: seq<Action>, st: Sys, u: string)
    returns (more: seq<Action>, st': Sys)
    requires Reaches(cfg, from, acts, st) && Blocked(cfg, st, u, ViaPromote) && Sane(cfg)
    requires u in Scores(st.q.waiting)
    ensures Reaches(cfg, from, more, st') && Blocked(cfg, st', u, ViaPromote) && AnnouncedOnce(st'.q, u, ViaPromote)
  {
    InvBounds(st.q, cfg.max);
    hide Reaches, Scores, Blocked, AnnouncedOnce;
    var s1, s2;
    more, s1 := LineEmpties(cfg, from, acts, st, u, ViaPromote);
    SameSize(st.q.active, s1.q.active);
    assert u in Scores(st.q.waiting).Keys && u !in Scores(s1.q.active).Keys;
    more, s2 := OneIsFree(cfg, from, more, s1, u, ViaPromote);
    more, st' := LastIsPromoted(cfg, from, more, s2, u);
  }

  // ---- entering ----

  /** Whatever follows, booking's keys are the seats once journal and log are drained. */
  ghost predicate EndsAgreed(cfg: Config, st: Sys) {
    forall acts, st' :: Reaches(cfg, st, acts, st') && st'.q.pending == [] && st'.log == []
      ==> st'.admitted == Scores(st'.q.active).Keys
  }

  /** u is neither seated nor in line, and enters at `now` under a new publish id. */
  ghost predicate Enters(cfg: Config, st: Sys, u: string, now: int, id: nat) {
    && u !in Scores(st.q.active) && u !in Scores(st.q.waiting) && ValidId(u)
    && id !in st.air && Timely(cfg, st.clock, EnterUser(u, now))
  }

  lemma EntryEffect(q: Queue, max: int, u: string, now: int)
    requires u !in Scores(q.active) && u !in Scores(q.waiting)
    ensures var c := ChangeOf(q, max, EnterUser(u, now));
            && c.removed == {} && c.admitted == (if |q.active| < max then {u} else {})
            && c.joined == if |q.active| < max then {} else {u}
  {}

  /** A user who enters unready ends forgotten on some way on. */
  lemma UnreadyEndsWrong(cfg: Config, st: Sys, u: string, now: int, id: nat) returns (acts: seq<Action>, st': Sys)
    requires Sane(cfg) && SysInv(cfg, st) && Enters(cfg, st, u, now, id) && !Ready(st, u, SeatVia(cfg, st.q))
    ensures Reaches(cfg, AfterScript(cfg, st, EnterUser(u, now), id), acts, st') && Forgotten(st', u)
  {
    var s := EnterUser(u, now);
    var st1 := AfterScript(cfg, st, s, id);
    assert UserOk(cfg, st, u);
    assert Reaches(cfg, st1, [], st1);
    EntryEffect(st.q, cfg.max, u, now);
    StepSeats(st.q, cfg.max, s);
    StepLine(st.q, cfg.max, s);
    hide Step, ChangeOf, Scores, Ready, RealIds, Settles, Reaches, AfterScript, BatchesOk;
    ScriptKeepsBlocked(cfg, st, s, id, u, SeatVia(cfg, st.q));
    AfterScriptQueue(cfg, st, s, id);
    if |st.q.active| < cfg.max {
      OneAnnouncement(cfg, st, s, u);
      acts, st' := SeatedEndsWrong(cfg, st1, [], st1, u, ViaEnter);
    } else {
      var s2;
      acts, s2 := WaiterIsSeated(cfg, st1, [], st1, u);
      acts, st' := SeatedEndsWrong(cfg, st1, acts, s2, u, ViaPromote);
    }
  }

  lemma AfterScriptQueue(cfg: Config, st: Sys, s: Script, id: nat)
    ensures AfterScript(cfg, st, s, id).q == Step(st.q, cfg.max, s)
  {}

  /** Entering is harmless exactly when no revoke of the user is owed, none is with a publisher, and
      no publisher can still clear the line the seat will be announced by: then every way on that
      drains journal and log leaves booking's keys the seats; otherwise some way on leaves the user
      seated and not admitted. */
  lemma EnteringIsSafeExactly(cfg: Config, st: Sys, u: string, now: int, id: nat)
    requires Sane(cfg) && cfg.bound + cfg.lag <= cfg.grace
    requires SysInv(cfg, st) && Enters(cfg, st, u, now, id)
    ensures EndsAgreed(cfg, AfterScript(cfg, st, EnterUser(u, now), id)) <==> Ready(st, u, SeatVia(cfg, st.q))
  {
    var s := EnterUser(u, now);
    var st1 := AfterScript(cfg, st, s, id);
    if Ready(st, u, SeatVia(cfg, st.q)) {
      ScriptKeeps(cfg, st, s, id);
      hide SysInv, Reaches, AfterScript, Scores;
      forall acts, st' | Reaches(cfg, st1, acts, st') && st'.q.pending == [] && st'.log == []
        ensures st'.admitted == Scores(st'.q.active).Keys
      {
        ReachableSysInv(cfg, st1, acts, st');
        InvAgrees(cfg, st');
      }
    } else {
      hide SysInv, Reaches, AfterScript, Scores, Ready;
      var acts, st' := UnreadyEndsWrong(cfg, st, u, now, id);
      assert u in Scores(st'.q.active).Keys;
    }
  }

  // ---- unready states that are reached ----

  lemma {:induction false} DropsOthers(cfg: Config, acts: seq<Action>, st: Sys, keep: nat)
    returns (more: seq<Action>, st': Sys)
    requires Reaches(cfg, START, acts, st) && keep in st.air
    ensures Reaches(cfg, START, more, st') && st' == st.(air := map[keep := st.air[keep]])
    decreases st.air.Keys
  {
    hide Reaches;
    if id :| id in st.air && id != keep {
      Extend(cfg, START, acts, st, Drop(id));
      more, st' := DropsOthers(cfg, acts + [Drop(id)], Next(cfg, st, Drop(id)), keep);
    } else {
      more, st' := acts, st;
      assert st.air == map[keep := st.air[keep]];
    }
  }

  lemma FirstSeat(cfg: Config, id: nat)
    requires Sane(cfg)
    ensures Enabled(cfg, START, Action.Script(EnterUser(U, 0), id))
    ensures Next(cfg, START, Action.Script(EnterUser(U, 0), id))
         == START.(q := Seated(0), air := map[id := Batch(Admissions, {U}, [EnterLine()], 0, {}, false)])
  {
    Entering(cfg.max, 0);
    NobodyOwes();
    hide Step, ChangeOf, Encode, Seated, OwesRevoke;
  }

  lemma NobodyOwes()
    ensures forall v :: !OwesRevoke(EMPTY, v)
    ensures ValidId(U)
  {}

  lemma FirstLeave(cfg: Config, st: Sys, id: nat)
    requires st.q == Seated(0) && st.clock == 0 && Sane(cfg) && id !in st.air
    ensures Enabled(cfg, st, Action.Script(LeaveUser(U, 0), id))
    ensures Next(cfg, st, Action.Script(LeaveUser(U, 0), id)) == st.(q := Left(0))
  {
    Leaving(cfg.max, 0, 0);
    hide Step, ChangeOf, Encode, Seated, Left;
    assert Timely(cfg, 0, LeaveUser(U, 0));
  }

  /** The admission of the first seat, once it is in the log. */
  function FirstBatch(acked: bool): Batch { Batch(Admissions, {U}, [EnterLine()], 0, {U}, acked) }

  lemma FirstLand(cfg: Config, st: Sys)
    requires Sane(cfg) && st.clock == 0 && st.log == []
    requires st.air == map[0 := Batch(Admissions, {U}, [EnterLine()], 0, {}, false)]
    ensures Enabled(cfg, st, Land(0, U))
    ensures Next(cfg, st, Land(0, U)) == st.(log := [Message(Admissions, U)], air := map[0 := FirstBatch(false)])
  {
    hide EnterLine;
    assert {} + {U} == {U};
  }

  /** Enter; the admission lands. */
  lemma SeatedAndLanded(cfg: Config) returns (acts: seq<Action>)
    requires Sane(cfg)
    ensures Reaches(cfg, START, acts, Sys(0, Seated(0), map[0 := FirstBatch(false)], [Message(Admissions, U)], {}))
  {
    var s1 := START.(q := Seated(0), air := map[0 := Batch(Admissions, {U}, [EnterLine()], 0, {}, false)]);
    var s2 := Sys(0, Seated(0), map[0 := FirstBatch(false)], [Message(Admissions, U)], {});
    assert Reaches(cfg, START, [], START);
    hide Enabled, Next, Reaches, Seated, FirstBatch, EnterLine;
    FirstSeat(cfg, 0);
    acts := Then(cfg, [], START, Action.Script(EnterUser(U, 0), 0), s1);
    FirstLand(cfg, s1);
    acts := Then(cfg, acts, s1, Land(0, U), s2);
  }

  lemma FirstAck(cfg: Config, st: Sys)
    requires st.air == map[0 := FirstBatch(false)]
    ensures Enabled(cfg, st, Ack(0)) && Next(cfg, st, Ack(0)) == st.(air := map[0 := FirstBatch(true)])
  {
    hide EnterLine;
  }

  /** The broker confirms, and the user leaves before the publisher clears the line. */
  lemma SeatedAndLeft(cfg: Config) returns (acts: seq<Action>)
    requires Sane(cfg)
    ensures Reaches(cfg, START, acts, Sys(0, Left(0), map[0 := FirstBatch(true)], [Message(Admissions, U)], {}))
  {
    var s2 := Sys(0, Seated(0), map[0 := FirstBatch(false)], [Message(Admissions, U)], {});
    var s3 := s2.(air := map[0 := FirstBatch(true)]);
    hide Enabled, Next, Reaches, Seated, Left, FirstBatch;
    acts := SeatedAndLanded(cfg);
    FirstAck(cfg, s2);
    acts := Then(cfg, acts, s2, Ack(0), s3);
    FirstLeave(cfg, s3, 1);
    acts := Then(cfg, acts, s3, Action.Script(LeaveUser(U, 0), 1), s3.(q := Left(0)));
  }

  /** One line, of a revoke of U: nobody is owed an admission. */
  lemma OneRevoke(q: Queue)
    requires Scores(q.pending).Keys == {Encode(Revoke(OnLeave, U))} && q.active == q.waiting == []
    ensures RealIds(q) && OwesRevoke(q, U)
    ensures forall v :: !OwesAdmit(q, v)
  {
    hide Encode, Decode;
    assert Owes(q, Revoke(OnLeave, U)) && Revoke(OnLeave, U).user != "";
    hide Scores;
    forall x, v ensures !Owes(q, Admit(x, v)) {
      assert Encode(Admit(x, v)) != Encode(Revoke(OnLeave, U));
    }
  }

  lemma OnlySettles(st: Sys)
    requires st.log == [Message(Admissions, U)] && st.admitted == {}
    ensures forall v :: v != U ==> !Settles(st, v)
  {
    forall v | v != U ensures !Settles(st, v) {
      assert st.log[1..] == [];
      assert Final(st.log, v, false) == Final(st.log[1..], v, false);
    }
  }

  /** Everything published and consumed, every publisher but one gone. */
  lemma Drained(cfg: Config, acts: seq<Action>, st: Sys, keep: nat) returns (more: seq<Action>, st': Sys)
    requires Reaches(cfg, START, acts, st) && keep in st.air && RealIds(st.q) && cfg.bound > 0
    ensures Reaches(cfg, START, more, st') && st'.air == map[keep := st.air[keep]]
    ensures st'.q.active == st.q.active && st'.q.waiting == st.q.waiting && st'.q.pending == [] && st'.log == []
    ensures forall v :: v in st'.admitted <==> !OwesRevoke(st.q, v) && (OwesAdmit(st.q, v) || Settles(st, v))
  {
    hide Reaches, RealIds, OwesRevoke, OwesAdmit, Settles;
    var s1, s2;
    more, s1 := PublishAll(cfg, START, acts, st);
    more, s2 := DropsOthers(cfg, more, s1, keep);
    more, st' := ConsumeAll(cfg, START, more, s2);
    SameSettles(s1, s2);
  }

  lemma LeftQueue()
    ensures Left(0).active == Left(0).waiting == [] && Scores(Left(0).pending).Keys == {Encode(Revoke(OnLeave, U))}
  {
    hide Encode;
    OneFacts(0, LeaveLine(), U);
  }

  lemma FirstMayClear()
    ensures CanClear(FirstBatch(true), Admit(ViaEnter, U))
  {
    hide Encode;
  }

  lemma LeftIsRevoked(st: Sys)
    requires st.q == Left(0) && st.log == [Message(Admissions, U)] && st.admitted == {}
    ensures RealIds(st.q) && st.q.active == st.q.waiting == []
    ensures forall v :: !(!OwesRevoke(st.q, v) && (OwesAdmit(st.q, v) || Settles(st, v)))
  {
    hide RealIds, OwesRevoke, OwesAdmit, Encode, Settles, Left, Scores;
    LeftQueue();
    OneRevoke(st.q);
    OnlySettles(st);
  }

  lemma MayEnterEmpty(cfg: Config, st: Sys, id: nat)
    requires Sane(cfg) && st.q.active == st.q.waiting == [] && id !in st.air
    ensures Enters(cfg, st, U, st.clock, id)
  {}

  /** Entering and leaving reaches a state that owes a revoke. */
  lemma OwedIsReached(cfg: Config) returns (acts: seq<Action>, st: Sys)
    requires Sane(cfg)
    ensures Reaches(cfg, START, acts, st) && Enters(cfg, st, U, st.clock, 2) && OwesRevoke(st.q, U)
  {
    hide Reaches, EnterBatch, Left, Enters, OwesRevoke, Later;
    acts, st := EnterAndLeave(cfg);
    LeftQueue();
    OneRevoke(st.q);
    MayEnterEmpty(cfg, st, 2);
  }

  /** A journal and a log that are empty are not enough: the publisher of the old seat may not have
      come to clear its line yet, which is the line of the new seat too. */
  lemma OldClearIsReached(cfg: Config) returns (acts: seq<Action>, st: Sys)
    requires Sane(cfg)
    ensures Reaches(cfg, START, acts, st) && Enters(cfg, st, U, st.clock, 1)
    ensures st.q.pending == [] && st.log == [] && st.admitted == {} && st.q.active == []
    ensures st.air.Keys == {0} && CanClear(st.air[0], Admit(ViaEnter, U))
  {
    hide Reaches, RealIds, OwesRevoke, OwesAdmit, Settles, Left, FirstBatch, CanClear, Enters;
    FirstMayClear();
    acts := SeatedAndLeft(cfg);
    var s := Sys(0, Left(0), map[0 := FirstBatch(true)], [Message(Admissions, U)], {});
    LeftIsRevoked(s);
    acts, st := Drained(cfg, acts, s, 0);
    MayEnterEmpty(cfg, st, 1);
  }
}
