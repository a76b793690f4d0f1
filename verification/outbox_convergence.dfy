/** What the outbox promises over whole runs. */
module OutboxConvergence {
  import opened SortedSets
  import opened Outbox
  import opened OutboxSafety

  /** st' follows from st by enabled steps, in any interleaving. */
  ghost predicate Reaches(cfg: Config, st: Sys, acts: seq<Action>, st': Sys)
    decreases |acts|
  {
    if |acts| == 0 then st' == st
    else Enabled(cfg, st, acts[0]) && Reaches(cfg, Next(cfg, st, acts[0]), acts[1..], st')
  }

  lemma StepKeepsSysInv(cfg: Config, st: Sys, a: Action)
    requires SysInv(cfg, st) && Enabled(cfg, st, a) && cfg.bound + cfg.lag <= cfg.grace
    ensures SysInv(cfg, Next(cfg, st, a))
  {
    hide SysInv, Next, Enabled;
    match a
    case Script(s, id) => ScriptKeeps(cfg, st, s, id);
    case Sweep(_, _, _, _) => SweepKeeps(cfg, st, a);
    case Land(id, u) => LandKeeps(cfg, st, id, u);
    case Ack(id) => AckKeeps(cfg, st, id);
    case Clear(id) => ClearKeeps(cfg, st, id);
    case Drop(id) => DropKeeps(cfg, st, id);
    case Consume(_) => ConsumeKeeps(cfg, st, a);
    case Redeliver(_) => ConsumeKeeps(cfg, st, a);
    case Tick(d) => TickKeeps(cfg, st, d);
  }

  lemma {:induction false} ReachableSysInv(cfg: Config, st: Sys, acts: seq<Action>, st': Sys)
    requires SysInv(cfg, st) && Reaches(cfg, st, acts, st') && cfg.bound + cfg.lag <= cfg.grace
    ensures SysInv(cfg, st')
    decreases |acts|
  {
    if |acts| > 0 {
      StepKeepsSysInv(cfg, st, acts[0]);
      ReachableSysInv(cfg, Next(cfg, st, acts[0]), acts[1..], st');
    }
  }

  lemma StartInv(cfg: Config)
    ensures SysInv(cfg, START)
  {
    forall u ensures UserOk(cfg, START, u) {}
  }

  /** In every reachable state, through failed and repeated publishes, failed clears and
      redelivery: a seat holder is owed an admission or will be admitted once the log is
      consumed; anyone else is owed a revoke or will not be admitted. */
  lemma NoticesCoverEveryone(cfg: Config, acts: seq<Action>, st: Sys, u: string)
    requires Reaches(cfg, START, acts, st) && cfg.bound + cfg.lag <= cfg.grace
    ensures u in Scores(st.q.active) ==> OwesAdmit(st.q, u) || Settles(st, u)
    ensures u !in Scores(st.q.active) ==> OwesRevoke(st.q, u) || !Settles(st, u)
  {
    StartInv(cfg);
    ReachableSysInv(cfg, START, acts, st);
    assert UserOk(cfg, st, u);
  }

  lemma InvAgrees(cfg: Config, st: Sys)
    requires SysInv(cfg, st) && st.q.pending == []
    ensures forall u :: Settles(st, u) <==> u in Scores(st.q.active)
    ensures st.log == [] ==> st.admitted == Scores(st.q.active).Keys
  {
    forall u ensures Settles(st, u) <==> u in Scores(st.q.active) {
      assert UserOk(cfg, st, u);
    }
    if st.log == [] {
      forall u ensures u in st.admitted <==> u in Scores(st.q.active) {
        assert Settles(st, u) <==> u in Scores(st.q.active);
      }
    }
  }

  /** Once the journal is empty, consuming the log leaves exactly the seat holders admitted,
      whatever is still in the air; with the log consumed too, booking's keys are the seats. */
  lemma DrainedAgrees(cfg: Config, acts: seq<Action>, st: Sys)
    requires Reaches(cfg, START, acts, st) && cfg.bound + cfg.lag <= cfg.grace
    requires st.q.pending == []
    ensures forall u :: Settles(st, u) <==> u in Scores(st.q.active)
    ensures st.log == [] ==> st.admitted == Scores(st.q.active).Keys
  {
    StartInv(cfg);
    ReachableSysInv(cfg, START, acts, st);
    InvAgrees(cfg, st);
  }

  /** While a revoke of u is with a publisher, no admission of u can land any more: with any
      number of pods, what was captured before the revocation is in the log first. */
  lemma GraceOrdersLog(cfg: Config, acts: seq<Action>, st: Sys, revoke: nat, admit: nat, u: string)
    requires Reaches(cfg, START, acts, st) && cfg.bound + cfg.lag <= cfg.grace
    requires revoke in st.air && st.air[revoke].topic.Revoked? && u in st.air[revoke].users
    requires admit in st.air && st.air[admit].topic.Admissions?
    ensures !Enabled(cfg, st, Land(admit, u))
  {
    StartInv(cfg);
    ReachableSysInv(cfg, START, acts, st);
    assert UserOk(cfg, st, u);
  }
}
