/** The queue's journal, the publishers, the two topics and booking's admission keys as one
    system of interleaved steps. */
module Outbox {
  import opened SortedSets
  import opened Journal
  import opened Queues
  import opened QueueSteps
  import opened Sweeps

  /** One publish call: what it sends, the journal lines it clears afterwards, when the script
      or sweep behind it ran, which users' messages have reached the log, and whether the
      broker confirmed them all. */
  datatype Batch = Batch(topic: Topic, users: set<string>, lines: seq<string>, start: int,
                         landed: set<string>, acked: bool)

  /** max: seats. grace: the sweep's age limit. bound: a publish of admissions lands strictly
      within this of its script or sweep. lag: how old a script's own clock reading may be. */
  datatype Config = Config(max: int, grace: int, bound: int, lag: int)

  /** log: messages of both topics not yet consumed, oldest first. */
  datatype Sys = Sys(clock: int, q: Queue, air: map<nat, Batch>, log: seq<Message>, admitted: set<string>)

  const START := Sys(0, EMPTY, map[], [], {})

  datatype Action =
    | Script(s: Script, id: nat)
    | Sweep(readAt: int, limit: nat, admitId: nat, revokeId: nat)
    | Land(id: nat, user: string)
    | Ack(id: nat)
    | Clear(id: nat)
    | Drop(id: nat)
    | Consume(i: nat)
    | Redeliver(i: nat)
    | Tick(d: nat)

  // ---- booking's view ----

  /** Whether u is admitted once the log has been consumed in order. */
  function Final(log: seq<Message>, u: string, now: bool): bool {
    if |log| == 0 then now
    else Final(log[1..], u, if log[0].user == u then log[0].topic.Admissions? else now)
  }

  function Applied(admitted: set<string>, m: Message): set<string> {
    if m.topic.Admissions? then admitted + {m.user} else admitted - {m.user}
  }

  ghost predicate Settles(st: Sys, u: string) { Final(st.log, u, u in st.admitted) }

  // ---- steps ----

  ghost predicate OwesRevoke(q: Queue, u: string) { exists c :: Owes(q, Revoke(c, u)) }

  ghost predicate OwesAdmit(q: Queue, u: string) { exists v :: Owes(q, Admit(v, u)) }

  /** The batch can clear the line of n: its messages are all in the log, so it is or may yet be
      confirmed. */
  ghost predicate CanClear(b: Batch, n: Notice) {
    b.topic.Admissions? && b.users <= b.landed && Encode(n) in b.lines
  }

  /** Nothing of u's past can undo a seat announced by way of v: no revoke of u is owed, none is
      with a publisher, and no publisher can still clear the line of the new seat. */
  ghost predicate Ready(st: Sys, u: string, v: Via) {
    && !OwesRevoke(st.q, u)
    && (forall id :: id in st.air && st.air[id].topic.Revoked? ==> u !in st.air[id].users)
    && (forall id :: id in st.air ==> !CanClear(st.air[id], Admit(v, u)))
  }

  /** How the next seat of a user who enters now is announced: at once, or later by promotion. */
  function SeatVia(cfg: Config, q: Queue): Via { if |q.active| < cfg.max then ViaEnter else ViaPromote }

  /** The clock reading a script carries. */
  ghost predicate Timely(cfg: Config, clock: int, s: Script) {
    match s
    case EnterUser(_, now) => clock - cfg.lag <= now <= clock
    case PromoteHead(_, now) => clock - cfg.lag <= now <= clock
    case LeaveUser(_, now) => clock - cfg.lag <= now <= clock
    case ReleaseSeat(_, now) => clock - cfg.lag <= now <= clock
    case ExpireSessions(_, now) => clock - cfg.lag <= now <= clock
    case PollPosition(_, now) => clock - cfg.lag <= now <= clock
    case ExpireWaiters(_) => true
    case CompleteSeat(_) => false
    case ClearLines(_) => false
  }

  /** A user neither seated nor in line enters only when ready for the seat; ids are real ids. */
  ghost predicate MayEnter(cfg: Config, st: Sys, s: Script) {
    s.EnterUser? ==>
      && ValidId(s.user)
      && (s.user in Scores(st.q.active) || s.user in Scores(st.q.waiting) || Ready(st, s.user, SeatVia(cfg, st.q)))
  }

  ghost predicate FirstOfUser(log: seq<Message>, i: nat) {
    i < |log| && forall j :: 0 <= j < i ==> log[j].user != log[i].user
  }

  ghost predicate Enabled(cfg: Config, st: Sys, a: Action) {
    match a
    case Script(s, id) => id !in st.air && Timely(cfg, st.clock, s) && MayEnter(cfg, st, s)
    case Sweep(readAt, _, i, j) => readAt <= st.clock && i !in st.air && j !in st.air && i != j
    case Land(id, u) =>
      && id in st.air && u in st.air[id].users
      && (st.air[id].topic.Admissions? ==> st.clock < st.air[id].start + cfg.bound)
    case Ack(id) => id in st.air && st.air[id].users <= st.air[id].landed
    case Clear(id) => id in st.air && st.air[id].acked
    case Drop(id) => id in st.air
    case Consume(i) => FirstOfUser(st.log, i)
    case Redeliver(i) => FirstOfUser(st.log, i)
    case Tick(_) => true
  }

  /** The batch a script hands its publisher: the users it just seated and their lines. */
  ghost function ScriptBatch(cfg: Config, st: Sys, s: Script): Batch {
    var lines := match s
      case EnterUser(u, _) => [Encode(Admit(ViaEnter, u))]
      case PromoteHead(batch, now) => PromoteLines(Promote(st.q, cfg.max, batch, now).1)
      case _ => [];
    Batch(Admissions, ChangeOf(st.q, cfg.max, s).admitted, lines, st.clock, {}, false)
  }

  function SweepLines(cfg: Config, st: Sys, readAt: int, limit: nat): seq<string> {
    PendingBefore(st.q.pending, readAt - cfg.grace, limit)
  }

  ghost function AfterScript(cfg: Config, st: Sys, s: Script, id: nat): Sys {
    st.(q := Step(st.q, cfg.max, s),
        air := if ChangeOf(st.q, cfg.max, s).admitted == {} then st.air
               else st.air[id := ScriptBatch(cfg, st, s)])
  }

  ghost function Next(cfg: Config, st: Sys, a: Action): Sys
    requires Enabled(cfg, st, a)
  {
    match a
    case Script(s, id) => AfterScript(cfg, st, s, id)
    case Sweep(readAt, limit, i, j) =>
      var s := Sift(SweepLines(cfg, st, readAt, limit));
      st.(q := ClearPending(ClearPending(st.q, s.malformed), s.unknown),
          air := st.air[i := Batch(Admissions, ToSet(s.admits), s.admitLines, st.clock, {}, false)]
                       [j := Batch(Revoked, ToSet(s.revokes), s.revokeLines, st.clock, {}, false)])
    case Land(id, u) =>
      var b := st.air[id];
      st.(log := st.log + [Message(b.topic, u)], air := st.air[id := b.(landed := b.landed + {u})])
    case Ack(id) => st.(air := st.air[id := st.air[id].(acked := true)])
    case Clear(id) => st.(q := ClearPending(st.q, st.air[id].lines))
    case Drop(id) => st.(air := st.air - {id})
    case Consume(i) =>
      st.(log := st.log[..i] + st.log[i + 1..], admitted := Applied(st.admitted, st.log[i]))
    case Redeliver(i) => st.(admitted := Applied(st.admitted, st.log[i]))
    case Tick(d) => st.(clock := st.clock + d)
  }

  // ---- the log ----

  lemma {:induction false} FinalAfterAppend(log: seq<Message>, m: Message, u: string, now: bool)
    ensures Final(log + [m], u, now) == if m.user == u then m.topic.Admissions? else Final(log, u, now)
  {
    if |log| == 0 {
      assert log + [m] == [m];
    } else {
      assert (log + [m])[1..] == log[1..] + [m];
      FinalAfterAppend(log[1..], m, u, if log[0].user == u then log[0].topic.Admissions? else now);
    }
  }

  /** Taking a user's first message out of the log and applying it settles everyone as before. */
  lemma {:induction false} FinalAfterConsume(log: seq<Message>, i: nat, u: string, now: bool)
    requires FirstOfUser(log, i)
    ensures Final(log[..i] + log[i + 1..], u, if log[i].user == u then log[i].topic.Admissions? else now)
         == Final(log, u, now)
    decreases |log|
  {
    if i == 0 {
      assert log[..0] + log[1..] == log[1..];
    } else {
      var rest := log[..i] + log[i + 1..];
      assert rest[0] == log[0] && rest[1..] == log[1..][..i - 1] + log[1..][i..];
      FinalAfterConsume(log[1..], i - 1, u, if log[0].user == u then log[0].topic.Admissions? else now);
    }
  }

  lemma {:induction false} FinalIgnoresBase(log: seq<Message>, i: nat, now: bool, then': bool)
    requires i < |log|
    ensures Final(log, log[i].user, now) == Final(log, log[i].user, then')
    decreases |log|
  {
    if i > 0 && log[0].user != log[i].user {
      FinalIgnoresBase(log[1..], i - 1, now, then');
    }
  }
}
