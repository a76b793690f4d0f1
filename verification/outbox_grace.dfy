/** The condition bound + lag <= grace is exact: one unit more and a user who left stays admitted. */
module OutboxGrace {
  import opened SortedSets
  import opened Journal
  import opened Queues
  import opened QueueSteps
  import opened Sweeps
  import opened Outbox
  import opened OutboxConvergence

  const U := "u"

  function EnterLine(): string { Encode(Admit(ViaEnter, U)) }
  function LeaveLine(): string { Encode(Revoke(OnLeave, U)) }

  ghost predicate Sane(cfg: Config) { cfg.max >= 1 && cfg.bound >= 1 && cfg.lag >= 0 && cfg.grace >= 0 }

  /** The set holding one member. */
  function One(score: int, m: string): (z: Zset)
    ensures z == [Entry(score, m)]
  {
    var z := [Entry(score, m)];
    assert z[1..] == [] && Valid(z);
    z
  }

  lemma OneFacts(score: int, m: string, x: string)
    ensures Zadd([], score, m) == One(score, m)
    ensures Scores(One(score, m)) == map[m := score]
    ensures Zrem(One(score, m), m) == []
    ensures ZremAll(One(score, m), []) == One(score, m)
    ensures ZremAll(One(score, m), [m]) == []
    ensures ZremAll(One(score, m), [m, x]) == []
  {
    var z := One(score, m);
    assert Without(z, m) == [];
    assert [m][1..] == [] && [m, x][1..] == [x] && [x][1..] == [];
    assert WithoutAll([], [x]) == [];
  }

  function Seated(t: int): Queue { Queue(One(t, U), [], [], One(t, EnterLine()), 0) }
  function Left(t: int): Queue { Queue([], [], [], One(t, LeaveLine()), 0) }

  lemma Entering(max: int, now: int)
    requires max >= 1
    ensures Step(EMPTY, max, EnterUser(U, now)) == Seated(now)
    ensures ChangeOf(EMPTY, max, EnterUser(U, now)).admitted == {U}
  {
    OneFacts(now, U, U);
    OneFacts(now, EnterLine(), U);
  }

  lemma Leaving(max: int, t: int, now: int)
    ensures Step(Seated(t), max, LeaveUser(U, now)) == Left(now)
    ensures ChangeOf(Seated(t), max, LeaveUser(U, now)).admitted == {}
  {
    hide Encode;
    OneFacts(t, U, U);
    OneFacts(t, EnterLine(), Encode(Admit(ViaPromote, U)));
    OneFacts(now, LeaveLine(), U);
  }

  lemma Sweeping(t: int, cutoff: int)
    requires t <= cutoff
    ensures Sift(PendingBefore(One(t, LeaveLine()), cutoff, 1)) == Sifted([], [], [LeaveLine()], [U], [], [])
  {
    var z := One(t, LeaveLine());
    EncodeParses(Revoke(OnLeave, U));
    hide Encode, ParsePendingMember;
    assert z[1..] == [] && z[..1] == z;
    assert PendingBefore(z, cutoff, 1) == [LeaveLine()];
    assert [LeaveLine()][..0] == [];
  }

  lemma {:induction false} Extend(cfg: Config, st: Sys, acts: seq<Action>, mid: Sys, a: Action)
    requires Reaches(cfg, st, acts, mid) && Enabled(cfg, mid, a)
    ensures Reaches(cfg, st, acts + [a], Next(cfg, mid, a))
    decreases |acts|
  {
    hide Enabled, Next;
    var all := acts + [a];
    if |acts| == 0 {
      assert all[1..] == [];
      assert Reaches(cfg, Next(cfg, st, a), [], Next(cfg, mid, a));
    } else {
      assert all[0] == acts[0] && all[1..] == acts[1..] + [a];
      Extend(cfg, Next(cfg, st, acts[0]), acts[1..], mid, a);
    }
  }

  function Later(cfg: Config): int { if cfg.grace > cfg.lag then cfg.grace else cfg.lag }

  /** The admission of a user who enters and at once leaves, on a clock reading `lag` old. */
  ghost function EnterBatch(cfg: Config, landed: set<string>): Batch {
    Batch(Admissions, {U}, [EnterLine()], cfg.lag, landed, false)
  }

  ghost function RevokeBatch(cfg: Config, landed: set<string>, acked: bool): Batch {
    Batch(Revoked, {U}, [LeaveLine()], Later(cfg), landed, acked)
  }

  /** After the sweep: the admission (0) and the revoke (2) are both with publishers. */
  ghost predicate InFlight(cfg: Config, st: Sys, q: Queue, revoke: Batch, log: seq<Message>) {
    && st.clock == Later(cfg) && st.q == q && st.log == log && st.admitted == {}
    && 0 in st.air && st.air[0] == EnterBatch(cfg, {})
    && 2 in st.air && st.air[2] == revoke
  }

  lemma EnterStep(cfg: Config, st: Sys)
    requires Sane(cfg) && st == START.(clock := cfg.lag)
    ensures var a := Action.Script(EnterUser(U, cfg.lag), 0);
            && Enabled(cfg, st, a)
            && Next(cfg, st, a) == st.(q := Seated(cfg.lag), air := map[0 := EnterBatch(cfg, {})])
  {
    Entering(cfg.max, cfg.lag);
    assert ValidId(U);
  }

  lemma LeaveStep(cfg: Config, st: Sys)
    requires Sane(cfg) && st.q == Seated(cfg.lag) && st.clock == cfg.lag && 1 !in st.air
    ensures var a := Action.Script(LeaveUser(U, 0), 1);
            Enabled(cfg, st, a) && Next(cfg, st, a) == st.(q := Left(0))
  {
    Leaving(cfg.max, cfg.lag, 0);
  }

  lemma SweptRevoke(cfg: Config, st: Sys)
    requires st.q == Left(0)
    ensures Sift(SweepLines(cfg, st, cfg.grace, 1)) == Sifted([], [], [LeaveLine()], [U], [], [])
  {
    Sweeping(0, 0);
    hide Sift, PendingBefore, Encode, One;
    assert SweepLines(cfg, st, cfg.grace, 1) == PendingBefore(One(0, LeaveLine()), 0, 1);
  }

  lemma SweepMayRun(cfg: Config, st: Sys, a: Action)
    requires Sane(cfg) && a == Sweep(cfg.grace, 1, 1, 2) && st.clock == Later(cfg) && 1 !in st.air && 2 !in st.air
    ensures Enabled(cfg, st, a)
  {}

  lemma OneMember(u: string)
    ensures ToSet([u]) == {u}
  {}

  lemma SweepRuns(cfg: Config, st: Sys, a: Action)
    requires a == Sweep(cfg.grace, 1, 1, 2) && Enabled(cfg, st, a)
    requires st.clock == Later(cfg) && st.q == Left(0) && st.log == [] && st.admitted == {}
    requires 0 in st.air && st.air[0] == EnterBatch(cfg, {})
    ensures InFlight(cfg, Next(cfg, st, a), Left(0), RevokeBatch(cfg, {}, false), [])
  {
    SweptRevoke(cfg, st);
    KeepsAll(Left(0));
    OneMember(U);
    hide Sift, SweepLines, ClearPending, LeaveLine, EnterLine, Left, EnterBatch, Enabled, Later, ToSet;
  }

  lemma SweepStep(cfg: Config, st: Sys, a: Action)
    requires Sane(cfg) && a == Sweep(cfg.grace, 1, 1, 2)
    requires st == Sys(Later(cfg), Left(0), map[0 := EnterBatch(cfg, {})], [], {})
    ensures Enabled(cfg, st, a) && InFlight(cfg, Next(cfg, st, a), Left(0), RevokeBatch(cfg, {}, false), [])
  {
    hide Enabled, Next, InFlight, EnterBatch, Left, Later;
    SweepMayRun(cfg, st, a);
    SweepRuns(cfg, st, a);
  }

  lemma KeepsAll(q: Queue)
    ensures ClearPending(q, []) == q
  {}

  lemma TickStep(cfg: Config, st: Sys, d: nat)
    ensures Enabled(cfg, st, Tick(d)) && Next(cfg, st, Tick(d)) == st.(clock := st.clock + d)
  {}

  lemma LandStep(cfg: Config, st: Sys)
    requires InFlight(cfg, st, Left(0), RevokeBatch(cfg, {}, false), [])
    ensures Enabled(cfg, st, Land(2, U))
    ensures InFlight(cfg, Next(cfg, st, Land(2, U)), Left(0), RevokeBatch(cfg, {U}, false), [Message(Revoked, U)])
  {
    hide Left, EnterLine, LeaveLine;
  }

  lemma AckStep(cfg: Config, st: Sys, log: seq<Message>)
    requires InFlight(cfg, st, Left(0), RevokeBatch(cfg, {U}, false), log)
    ensures Enabled(cfg, st, Ack(2))
    ensures InFlight(cfg, Next(cfg, st, Ack(2)), Left(0), RevokeBatch(cfg, {U}, true), log)
  {
    hide Left, EnterLine, LeaveLine;
  }

  lemma ClearStep(cfg: Config, st: Sys, log: seq<Message>)
    requires InFlight(cfg, st, Left(0), RevokeBatch(cfg, {U}, true), log)
    ensures Enabled(cfg, st, Clear(2))
    ensures InFlight(cfg, Next(cfg, st, Clear(2)), EMPTY, RevokeBatch(cfg, {U}, true), log)
  {
    OneFacts(0, LeaveLine(), U);
    hide ZremAll, One, EnterLine, LeaveLine;
  }

  lemma LateStep(cfg: Config, st: Sys, b: Batch, log: seq<Message>)
    requires Sane(cfg) && cfg.bound + cfg.lag > cfg.grace && InFlight(cfg, st, EMPTY, b, log)
    ensures Enabled(cfg, st, Land(0, U))
    ensures var st' := Next(cfg, st, Land(0, U));
            st'.q == EMPTY && st'.log == log + [Message(Admissions, U)] && st'.admitted == {}
  {
    hide EnterLine;
  }

  /** Enter, leave at once on a clock reading lag old, wait until the revoke is old enough. */
  lemma EnterAndLeave(cfg: Config) returns (acts: seq<Action>, st: Sys)
    requires Sane(cfg)
    ensures Reaches(cfg, START, acts, st)
    ensures st == Sys(Later(cfg), Left(0), map[0 := EnterBatch(cfg, {})], [], {})
  {
    var s1 := START.(clock := cfg.lag);
    var s2 := s1.(q := Seated(cfg.lag), air := map[0 := EnterBatch(cfg, {})]);
    var s3 := s2.(q := Left(0));
    acts := [];
    assert Reaches(cfg, START, acts, START);
    hide Enabled, Next, Seated, Left, EnterBatch, Reaches;
    TickStep(cfg, START, cfg.lag);
    acts := Then(cfg, acts, START, Tick(cfg.lag), s1);
    EnterStep(cfg, s1);
    acts := Then(cfg, acts, s1, Action.Script(EnterUser(U, cfg.lag), 0), s2);
    LeaveStep(cfg, s2);
    acts := Then(cfg, acts, s2, Action.Script(LeaveUser(U, 0), 1), s3);
    st := s3.(clock := Later(cfg));
    TickStep(cfg, s3, Later(cfg) - cfg.lag);
    acts := Then(cfg, acts, s3, Tick(Later(cfg) - cfg.lag), st);
  }

  lemma Then(cfg: Config, acts: seq<Action>, mid: Sys, a: Action, st: Sys) returns (acts': seq<Action>)
    requires Reaches(cfg, START, acts, mid) && Enabled(cfg, mid, a) && Next(cfg, mid, a) == st
    ensures Reaches(cfg, START, acts', st)
  {
    hide Enabled, Next;
    Extend(cfg, START, acts, mid, a);
    acts' := acts + [a];
  }

  /** The revoke is swept, published and cleared first; then the admission lands. */
  lemma RevokeFirst(cfg: Config) returns (acts: seq<Action>, st: Sys)
    requires Sane(cfg) && cfg.bound + cfg.lag > cfg.grace
    ensures Reaches(cfg, START, acts, st)
    ensures st.q == EMPTY && st.admitted == {} && st.log == [Message(Revoked, U), Message(Admissions, U)]
  {
    var s0;
    acts, s0 := EnterAndLeave(cfg);
    hide Enabled, Next, Reaches, InFlight, RevokeBatch, EnterBatch, Left;
    var sweep := Sweep(cfg.grace, 1, 1, 2);
    SweepStep(cfg, s0, sweep);
    var s1 := Next(cfg, s0, sweep);
    acts := Then(cfg, acts, s0, sweep, s1);
    LandStep(cfg, s1);
    var s2 := Next(cfg, s1, Land(2, U));
    acts := Then(cfg, acts, s1, Land(2, U), s2);
    var log := [Message(Revoked, U)];
    AckStep(cfg, s2, log);
    var s3 := Next(cfg, s2, Ack(2));
    acts := Then(cfg, acts, s2, Ack(2), s3);
    ClearStep(cfg, s3, log);
    var s4 := Next(cfg, s3, Clear(2));
    acts := Then(cfg, acts, s3, Clear(2), s4);
    LateStep(cfg, s4, RevokeBatch(cfg, {U}, true), log);
    st := Next(cfg, s4, Land(0, U));
    acts := Then(cfg, acts, s4, Land(0, U), st);
  }

  lemma ConsumeStep(cfg: Config, st: Sys)
    requires st.log != []
    ensures Enabled(cfg, st, Consume(0))
    ensures Next(cfg, st, Consume(0)) == st.(log := st.log[1..], admitted := Applied(st.admitted, st.log[0]))
  {
    assert st.log[..0] + st.log[1..] == st.log[1..];
  }

  /** With bound + lag > grace a run ends with the journal and the log drained and a user
      admitted who holds no seat. */
  lemma OvertakenAdmission(cfg: Config) returns (acts: seq<Action>, st: Sys)
    requires Sane(cfg) && cfg.bound + cfg.lag > cfg.grace
    ensures Reaches(cfg, START, acts, st)
    ensures st.q.pending == [] && st.log == [] && st.admitted != Scores(st.q.active).Keys
  {
    var s0;
    acts, s0 := RevokeFirst(cfg);
    hide Reaches, Enabled, Next;
    ConsumeStep(cfg, s0);
    var s1 := Next(cfg, s0, Consume(0));
    acts := Then(cfg, acts, s0, Consume(0), s1);
    ConsumeStep(cfg, s1);
    st := Next(cfg, s1, Consume(0));
    acts := Then(cfg, acts, s1, Consume(0), st);
    assert U in st.admitted;
  }

  /** Booking's keys are the seats after every run that drains journal and log. */
  ghost predicate DrainedRunsAgree(cfg: Config) {
    forall acts, st :: Reaches(cfg, START, acts, st) && st.q.pending == [] && st.log == []
      ==> st.admitted == Scores(st.q.active).Keys
  }

  /** That holds exactly when an admission lands, and a script's clock reads true, within the
      sweep's grace. */
  lemma GraceIsExact(cfg: Config)
    requires Sane(cfg)
    ensures DrainedRunsAgree(cfg) <==> cfg.bound + cfg.lag <= cfg.grace
  {
    if cfg.bound + cfg.lag <= cfg.grace {
      forall acts, st | Reaches(cfg, START, acts, st) && st.q.pending == [] && st.log == []
        ensures st.admitted == Scores(st.q.active).Keys
      {
        DrainedAgrees(cfg, acts, st);
      }
    } else {
      hide Reaches;
      var acts, st := OvertakenAdmission(cfg);
    }
  }
}
