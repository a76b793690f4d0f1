/** Browser tabs claiming one opening: write a mark, wait, read it again, launch if it is still there. */
module TabClaims {
  /** What the shared storage says about the opening. */
  datatype Mark = Unclaimed | Claim(tab: nat) | Fired | Closed

  datatype Pc = Idle | Seen(readAt: int) | Waiting(writtenAt: int) | Won | Launched

  /** gap: a tab writes at most this long after it read; wait: how long it waits before it reads
      again; close: when the opening ends. */
  datatype Config = Config(gap: nat, wait: nat, close: int)

  /** claimedAt: when the first mark was written. launches: how often the rush was launched. */
  datatype State = State(clock: int, mark: Mark, tabs: map<nat, Pc>, claimedAt: int, launches: nat)

  const START := State(0, Unclaimed, map[], 0, 0)

  datatype Step =
    | Read(tab: nat, lookedAt: int)
    | Write(tab: nat)
    | Check(tab: nat)
    | Launch(tab: nat)
    | MarkFired(tab: nat)
    | MarkClosed
    | Tick(d: nat)

  function PcOf(s: State, tab: nat): Pc { if tab in s.tabs then s.tabs[tab] else Idle }

  predicate Enabled(cfg: Config, s: State, a: Step) {
    match a
    case Read(t, lookedAt) =>
      PcOf(s, t).Idle? && lookedAt <= s.clock && lookedAt < cfg.close && (s.mark.Unclaimed? || s.mark.Closed?)
    case Write(t) => PcOf(s, t).Seen?
    case Check(t) => PcOf(s, t).Waiting? && PcOf(s, t).writtenAt + cfg.wait <= s.clock
    case Launch(t) => PcOf(s, t).Won?
    case MarkFired(t) => PcOf(s, t).Launched?
    case MarkClosed => s.mark.Fired? && cfg.close <= s.clock
    case Tick(d) => forall t :: t in s.tabs && s.tabs[t].Seen? ==> s.clock + d <= s.tabs[t].readAt + cfg.gap
  }

  function Next(cfg: Config, s: State, a: Step): State
    requires Enabled(cfg, s, a)
  {
    match a
    case Read(t, _) => s.(tabs := s.tabs[t := Seen(s.clock)])
    case Write(t) =>
      s.(mark := Claim(t), tabs := s.tabs[t := Waiting(s.clock)],
         claimedAt := if s.mark.Unclaimed? then s.clock else s.claimedAt)
    case Check(t) => s.(tabs := s.tabs[t := if s.mark == Claim(t) then Won else Idle])
    case Launch(t) =>
      if s.clock < cfg.close then s.(tabs := s.tabs[t := Launched], launches := s.launches + 1)
      else s.(tabs := s.tabs[t := Idle])
    case MarkFired(t) => s.(mark := Fired, tabs := s.tabs[t := Idle])
    case MarkClosed => s.(mark := Closed)
    case Tick(d) => s.(clock := s.clock + d)
  }

  ghost predicate Reaches(cfg: Config, s: State, acts: seq<Step>, s': State)
    decreases |acts|
  {
    if |acts| == 0 then s' == s
    else Enabled(cfg, s, acts[0]) && Reaches(cfg, Next(cfg, s, acts[0]), acts[1..], s')
  }

  // ---- short gaps ----

  /** Before the opening ends: who has read but not written read before the first mark, whoever got
      past its second read owns the mark, and then nobody is left who could still write. */
  ghost predicate InTime(cfg: Config, s: State) {
    && !s.mark.Closed?
    && (s.mark.Unclaimed? ==> s.launches == 0 && forall t :: PcOf(s, t).Idle? || PcOf(s, t).Seen?)
    && (s.mark.Fired? ==> s.launches == 1)
    && (forall t :: PcOf(s, t).Seen? ==>
          s.clock <= PcOf(s, t).readAt + cfg.gap && !s.mark.Fired?
          && (s.mark.Claim? ==> PcOf(s, t).readAt <= s.claimedAt))
    && (forall t :: PcOf(s, t).Waiting? ==> s.claimedAt <= PcOf(s, t).writtenAt)
    && (forall t :: PcOf(s, t).Won? ==> s.mark == Claim(t) && s.launches == 0 && s.claimedAt + cfg.wait <= s.clock)
    && (forall t :: PcOf(s, t).Launched? ==> s.mark == Claim(t) && s.launches == 1 && s.claimedAt + cfg.wait <= s.clock)
    && (s.mark.Claim? && s.launches > 0 ==> PcOf(s, s.mark.tab).Launched?)
    && s.claimedAt <= s.clock
    && forall t :: PcOf(s, t).Seen? ==> PcOf(s, t).readAt <= s.clock
  }

  ghost predicate ClaimInv(cfg: Config, s: State) {
    s.launches <= 1 && (s.clock < cfg.close ==> InTime(cfg, s))
  }

  lemma StepKeepsClaim(cfg: Config, s: State, a: Step)
    requires cfg.gap < cfg.wait && ClaimInv(cfg, s) && Enabled(cfg, s, a)
    ensures ClaimInv(cfg, Next(cfg, s, a))
  {
    var s' := Next(cfg, s, a);
    if s'.clock < cfg.close {
      assert InTime(cfg, s);
      forall t ensures PcOf(s', t) == if a.Tick? || a.MarkClosed? || t != a.tab then PcOf(s, t) else PcOf(s', a.tab) {}
      assert InTime(cfg, s');
    }
  }

  lemma {:induction false} ReachableClaim(cfg: Config, s: State, acts: seq<Step>, s': State)
    requires cfg.gap < cfg.wait && ClaimInv(cfg, s) && Reaches(cfg, s, acts, s')
    ensures ClaimInv(cfg, s')
    decreases |acts|
  {
    if |acts| > 0 {
      StepKeepsClaim(cfg, s, acts[0]);
      ReachableClaim(cfg, Next(cfg, s, acts[0]), acts[1..], s');
    }
  }

  // ---- short openings ----

  /** In an opening shorter than two waits a tab that can still launch wrote before one wait had
      passed; once one of them has won, the mark is no such tab's any more. */
  ghost predicate InHaste(cfg: Config, s: State) {
    && 0 <= s.clock && !s.mark.Closed?
    && (forall t :: PcOf(s, t).Waiting? ==> 0 <= PcOf(s, t).writtenAt <= s.clock)
    && (forall t :: PcOf(s, t).Won? ==> s.launches == 0 && cfg.wait <= s.clock)
    && (forall t, u :: PcOf(s, t).Won? && PcOf(s, u).Won? ==> t == u)
    && (s.launches > 0 ==> cfg.wait <= s.clock)
    && (forall t :: s.mark == Claim(t) && PcOf(s, t).Waiting? && PcOf(s, t).writtenAt < cfg.wait ==>
          s.launches == 0 && forall u :: !PcOf(s, u).Won?)
  }

  ghost predicate HasteInv(cfg: Config, s: State) {
    s.launches <= 1 && (s.clock < cfg.close ==> InHaste(cfg, s))
  }

  lemma StepKeepsHaste(cfg: Config, s: State, a: Step)
    requires cfg.close <= 2 * cfg.wait && HasteInv(cfg, s) && Enabled(cfg, s, a)
    ensures HasteInv(cfg, Next(cfg, s, a))
  {
    var s' := Next(cfg, s, a);
    if s'.clock < cfg.close {
      assert InHaste(cfg, s);
      forall t ensures PcOf(s', t) == if a.Tick? || a.MarkClosed? || t != a.tab then PcOf(s, t) else PcOf(s', a.tab) {}
      assert InHaste(cfg, s');
    }
  }

  lemma {:induction false} ReachableHaste(cfg: Config, s: State, acts: seq<Step>, s': State)
    requires cfg.close <= 2 * cfg.wait && HasteInv(cfg, s) && Reaches(cfg, s, acts, s')
    ensures HasteInv(cfg, s')
    decreases |acts|
  {
    if |acts| > 0 {
      StepKeepsHaste(cfg, s, acts[0]);
      ReachableHaste(cfg, Next(cfg, s, acts[0]), acts[1..], s');
    }
  }

  // ---- long gaps ----

  lemma {:induction false} ReachesMore(cfg: Config, s: State, acts: seq<Step>, s1: State, a: Step)
    requires Reaches(cfg, s, acts, s1) && Enabled(cfg, s1, a)
    ensures Reaches(cfg, s, acts + [a], Next(cfg, s1, a))
    decreases |acts|
  {
    if |acts| == 0 {
      assert [a][1..] == [];
    } else {
      assert (acts + [a])[1..] == acts[1..] + [a];
      ReachesMore(cfg, Next(cfg, s, acts[0]), acts[1..], s1, a);
    }
  }

  /** Tab 1 reads, is held up, and writes only after tab 0 has launched. */
  function Stage(cfg: Config, i: nat): State {
    if i == 0 then START
    else if i == 1 then State(0, Unclaimed, map[0 := Seen(0)], 0, 0)
    else if i == 2 then State(0, Unclaimed, map[0 := Seen(0), 1 := Seen(0)], 0, 0)
    else if i == 3 then State(0, Claim(0), map[0 := Waiting(0), 1 := Seen(0)], 0, 0)
    else if i == 4 then State(cfg.wait, Claim(0), map[0 := Waiting(0), 1 := Seen(0)], 0, 0)
    else if i == 5 then State(cfg.wait, Claim(0), map[0 := Won, 1 := Seen(0)], 0, 0)
    else if i == 6 then State(cfg.wait, Claim(0), map[0 := Launched, 1 := Seen(0)], 0, 1)
    else if i == 7 then State(cfg.wait, Claim(1), map[0 := Launched, 1 := Waiting(cfg.wait)], 0, 1)
    else if i == 8 then State(2 * cfg.wait, Claim(1), map[0 := Launched, 1 := Waiting(cfg.wait)], 0, 1)
    else if i == 9 then State(2 * cfg.wait, Claim(1), map[0 := Launched, 1 := Won], 0, 1)
    else State(2 * cfg.wait, Claim(1), map[0 := Launched, 1 := Launched], 0, 2)
  }

  function StageStep(cfg: Config, i: nat): Step {
    if i == 0 then Read(0, 0) else if i == 1 then Read(1, 0) else if i == 2 then Write(0)
    else if i == 3 then Tick(cfg.wait) else if i == 4 then Check(0) else if i == 5 then Launch(0)
    else if i == 6 then Write(1) else if i == 7 then Tick(cfg.wait)
    else if i == 8 then Check(1) else Launch(1)
  }

  lemma StageFollows(cfg: Config, i: nat)
    requires cfg.wait <= cfg.gap && 2 * cfg.wait < cfg.close && i < 10
    ensures Enabled(cfg, Stage(cfg, i), StageStep(cfg, i))
    ensures Next(cfg, Stage(cfg, i), StageStep(cfg, i)) == Stage(cfg, i + 1)
  {}

  lemma TwoLaunches(cfg: Config) returns (acts: seq<Step>, s: State)
    requires cfg.wait <= cfg.gap && 2 * cfg.wait < cfg.close
    ensures Reaches(cfg, START, acts, s) && s.launches == 2
  {
    acts := [];
    for i := 0 to 10
      invariant Reaches(cfg, START, acts, Stage(cfg, i))
    {
      StageFollows(cfg, i);
      hide Stage, StageStep;
      ReachesMore(cfg, START, acts, Stage(cfg, i), StageStep(cfg, i));
      acts := acts + [StageStep(cfg, i)];
    }
    s := Stage(cfg, 10);
  }

  /** One rush per opening, for any number of tabs in any interleaving, exactly when a tab's gap
      between reading and writing is shorter than its wait, or the opening ends before two waits
      can pass. */
  lemma OneTabFires(cfg: Config)
    ensures (forall acts, s :: Reaches(cfg, START, acts, s) ==> s.launches <= 1)
            <==> cfg.gap < cfg.wait || cfg.close <= 2 * cfg.wait
  {
    if cfg.gap < cfg.wait {
      forall acts, s | Reaches(cfg, START, acts, s) ensures s.launches <= 1 {
        ReachableClaim(cfg, START, acts, s);
      }
    } else if cfg.close <= 2 * cfg.wait {
      forall acts, s | Reaches(cfg, START, acts, s) ensures s.launches <= 1 {
        ReachableHaste(cfg, START, acts, s);
      }
    } else {
      var acts, s := TwoLaunches(cfg);
    }
  }
}
