/** Any script, by any pod, at any moment, as one step of a movie's queue; and what each
    step changes. */
module QueueSteps {
  import opened SortedSets
  import opened Journal
  import opened Queues

  datatype Script =
    | EnterUser(user: string, now: int)
    | PromoteHead(batch: int, now: int)
    | LeaveUser(user: string, now: int)
    | ReleaseSeat(user: string, now: int)
    | CompleteSeat(user: string)
    | ExpireSessions(cutoff: int, now: int)
    | ExpireWaiters(cutoff: int)
    | PollPosition(user: string, now: int)
    | ClearLines(lines: seq<string>)

  function Step(q: Queue, max: int, s: Script): Queue {
    match s
    case EnterUser(u, now) => Enter(q, max, u, now).0
    case PromoteHead(batch, now) => Promote(q, max, batch, now).0
    case LeaveUser(u, now) => Leave(q, u, now).0
    case ReleaseSeat(u, now) => Release(q, u, now).0
    case CompleteSeat(u) => Complete(q, u).0
    case ExpireSessions(cutoff, now) => ExpireActive(q, cutoff, now).0
    case ExpireWaiters(cutoff) => ExpireWaiting(q, cutoff).0
    case PollPosition(u, now) => Position(q, u, now).0
    case ClearLines(lines) => ClearPending(q, lines)
  }

  /** The users a script moves and the notices it writes. */
  ghost function ChangeOf(q: Queue, max: int, s: Script): Change {
    match s
    case EnterUser(u, now) =>
      if u in Scores(q.active) then NO_CHANGE
      else if u !in Scores(q.waiting) && |q.active| < max then
        NO_CHANGE.(admitted := {u}, added := {Admit(ViaEnter, u)}, stamp := now)
      else NO_CHANGE.(joined := {u})
    case PromoteHead(batch, now) =>
      var users := Promote(q, max, batch, now).1;
      NO_CHANGE.(admitted := ToSet(users), gone := ToSet(users), added := Promotions(users), stamp := now)
    case LeaveUser(u, now) =>
      if u in Scores(q.active)
      then NO_CHANGE.(removed := {u}, cleared := {u}, gone := {u}, added := {Revoke(OnLeave, u)}, stamp := now)
      else NO_CHANGE.(cleared := {u}, gone := {u})
    case ReleaseSeat(u, now) =>
      if u in Scores(q.active)
      then NO_CHANGE.(removed := {u}, cleared := {u}, added := {Revoke(OnComplete, u)}, stamp := now)
      else NO_CHANGE.(cleared := {u})
    case CompleteSeat(u) => NO_CHANGE.(removed := {u} * Scores(q.active).Keys, cleared := {u})
    case ExpireSessions(cutoff, now) =>
      var users := ExpireActive(q, cutoff, now).1;
      NO_CHANGE.(removed := ToSet(users), cleared := ToSet(users), added := Timeouts(users), stamp := now)
    case ExpireWaiters(cutoff) =>
      NO_CHANGE.(gone := ToSet(ExpireWaiting(q, cutoff).1))
    case PollPosition(u, now) =>
      if u in Scores(q.waiting) && u !in Scores(q.active) then NO_CHANGE.(seen := {u}) else NO_CHANGE
    case ClearLines(lines) => NO_CHANGE.(dropped := ToSet(lines))
  }

  lemma SameJournal(p: Zset, c: Change)
    requires c.added == {} && c.cleared == {} && c.dropped == {}
    ensures JournalStep(p, p, c)
  {}

  lemma StepSeats(q: Queue, max: int, s: Script)
    ensures var c := ChangeOf(q, max, s);
            Scores(Step(q, max, s).active).Keys == Scores(q.active).Keys - c.removed + c.admitted
  {
    hide Scores, Encode, MoveAll, RevokeAll, ZremAll, Zadd, Zrem, RangeByScore, Names, PromoteCount, AdmitLines;
    if s.PromoteHead? { MoveAllSeats(q, Promote(q, max, s.batch, s.now).1, s.now); }
  }

  lemma StepLine(q: Queue, max: int, s: Script)
    ensures var c := ChangeOf(q, max, s);
            Scores(Step(q, max, s).waiting).Keys == Scores(q.waiting).Keys - c.gone + c.joined
  {
    hide Scores, Encode, MoveAll, RevokeAll, ZremAll, Zadd, Zrem, RangeByScore, Names, PromoteCount, AdmitLines;
    if s.PromoteHead? {
      var users := Promote(q, max, s.batch, s.now).1;
      MoveAllLeaves(q, users, s.now);
      KeysWithout(Scores(q.waiting), ToSet(users));
    }
  }

  lemma StepStamps(q: Queue, max: int, s: Script)
    ensures var c := ChangeOf(q, max, s);
            Scores(Step(q, max, s).lastseen).Keys == Scores(q.lastseen).Keys - c.gone + c.joined + c.seen
  {
    hide Scores, Encode, MoveAll, RevokeAll, ZremAll, Zadd, Zrem, RangeByScore, Names, PromoteCount, AdmitLines;
    if s.PromoteHead? {
      var users := Promote(q, max, s.batch, s.now).1;
      MoveAllLeaves(q, users, s.now);
      KeysWithout(Scores(q.lastseen), ToSet(users));
    }
  }

  /** The part of a change that the journal sees. */
  ghost function JournalPart(c: Change): Change {
    NO_CHANGE.(added := c.added, cleared := c.cleared, dropped := c.dropped, stamp := c.stamp)
  }

  lemma Likewise(p: Zset, p': Zset, c: Change)
    requires JournalStep(p, p', JournalPart(c))
    ensures JournalStep(p, p', c)
  {
    hide Encode, Scores;
  }

  lemma StepWrites(q: Queue, max: int, s: Script)
    ensures JournalStep(q.pending, Step(q, max, s).pending, ChangeOf(q, max, s))
  {
    var c := ChangeOf(q, max, s);
    hide JournalStep, Scores, Encode, MoveAll, RevokeAll, ZremAll, Zadd, RangeByScore, Names, PromoteCount, AdmitLines;
    match s {
      case EnterUser(u, now) =>
        if c.added == {} {
          SameJournal(q.pending, JournalPart(c));
        } else {
          AddLine(q.pending, now, Admit(ViaEnter, u));
        }
      case PromoteHead(batch, now) => MoveAllJournal(q, Promote(q, max, batch, now).1, now);
      case LeaveUser(u, now) =>
        if c.added == {} { WithdrawLines(q.pending, u); } else { RevokeOneStep(q.pending, u, now, Revoke(OnLeave, u)); }
      case ReleaseSeat(u, now) =>
        if c.added == {} {
          WithdrawLines(q.pending, u);
        } else {
          RevokeOneStep(q.pending, u, now, Revoke(OnComplete, u));
        }
      case CompleteSeat(u) => WithdrawLines(q.pending, u);
      case ExpireSessions(cutoff, now) => RevokeAllStep(q.pending, ExpireActive(q, cutoff, now).1, now);
      case ExpireWaiters(_) => SameJournal(q.pending, JournalPart(c));
      case PollPosition(_, _) => SameJournal(q.pending, JournalPart(c));
      case ClearLines(lines) => DropLines(q.pending, lines);
    }
    Likewise(q.pending, Step(q, max, s).pending, c);
  }

  lemma DropLines(p: Zset, lines: seq<string>)
    ensures JournalStep(p, ZremAll(p, lines), NO_CHANGE.(dropped := ToSet(lines)))
  {}

  /** Every script changes exactly what ChangeOf says, in every queue. */
  lemma StepApplies(q: Queue, max: int, s: Script)
    ensures Applies(q, Step(q, max, s), ChangeOf(q, max, s))
  {
    StepSeats(q, max, s);
    StepLine(q, max, s);
    StepStamps(q, max, s);
    StepWrites(q, max, s);
  }
}
