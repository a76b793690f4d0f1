/** The scripts and publishing loops as they run: commands on Redis keys, one after another,
    proved against the functions in Queues and Sweeps. */
module QueueScripts {
  import opened SortedSets
  import opened Journal
  import opened Queues
  import opened Sweeps
  import opened Publishing
  import opened SweepEffects
  import opened TickEffects
  import EventFeeds
  import RateWindows

  /** The two movie sets shared by all queues. */
  class Tracking {
    var activeMovies: set<string>
    var waitingMovies: set<string>

    constructor ()
      ensures activeMovies == {} && waitingMovies == {}
    {
      activeMovies, waitingMovies := {}, {};
    }
  }

  /** What follows a promotion's publish: the pause when it failed, the rate when it was confirmed,
      the feed in any case. */
  method RecordPromotion(rate: RateWindows.RateBuckets, feed: EventFeeds.EventStore, pause: PauseFlag,
                         admitted: seq<string>, now: int, ok: bool, side: Side)
    modifies rate, feed, pause
    ensures pause.until == if !ok && side.pause then now + PROMOTE_PAUSE else old(pause.until)
    ensures rate.buckets == if ok && side.rate
                            then RateWindows.Observe(old(rate.buckets), RateWindows.Tick(now / 1000, |admitted|))
                            else old(rate.buckets)
    ensures feed.State() == if side.feed then EventFeeds.Append(old(feed.State()), "PROMOTE", admitted, now)
                            else old(feed.State())
  {
    hide RateWindows.Observe, EventFeeds.Append;
    if !ok && side.pause { pause.Set(now); }
    if ok && side.rate { rate.ObservePromotion(|admitted|, now / 1000); }
    if side.feed { feed.AppendEvents("PROMOTE", admitted, now); }
  }

  /** The flag that stops promotion on all pods for a while. */
  class PauseFlag {
    var until: int

    constructor ()
      ensures until == 0
    {
      until := 0;
    }

    predicate Paused(now: int)
      reads this
    {
      now < until
    }

    method Set(now: int)
      modifies this
      ensures until == now + PROMOTE_PAUSE
      ensures forall t :: Paused(t) <==> t < now + PROMOTE_PAUSE
    {
      until := now + PROMOTE_PAUSE;
    }
  }

  /** The keys of one movie. */
  class MovieQueue {
    var active: Zset
    var waiting: Zset
    var lastseen: Zset
    var pending: Zset
    var promoted: nat

    ghost function Q(): Queue
      reads this
    {
      Queue(active, waiting, lastseen, pending, promoted)
    }

    constructor ()
      ensures Q() == EMPTY
    {
      active, waiting, lastseen, pending, promoted := [], [], [], [], 0;
    }

    method Enter(t: Tracking, movie: string, max: int, user: string, now: int) returns (reply: EnterReply)
      modifies this, t
      ensures (Q(), reply) == Queues.Enter(old(Q()), max, user, now)
      ensures t.activeMovies == old(t.activeMovies) + {movie}
      ensures t.waitingMovies == old(t.waitingMovies) + if reply.Waiting? then {movie} else {}
    {
      hide Encode, Zrank, Zadd, Zrem, Scores;
      t.activeMovies := t.activeMovies + {movie};
      if user in Scores(active) { return AlreadyActive(|active|); }
      if user in Scores(waiting) {
        t.waitingMovies := t.waitingMovies + {movie};
        RequeueIsZadd(waiting, now, user);
        waiting := Zrem(waiting, user);
        waiting := Zadd(waiting, now, user);
        lastseen := Zadd(lastseen, now, user);
        return Waiting(Zrank(waiting, user) + 1, |waiting|);
      }
      var activeCount := |active|;
      if activeCount < max {
        active := Zadd(active, now, user);
        pending := Zadd(pending, now, Encode(Admit(ViaEnter, user)));
        reply := Admitted(activeCount + 1);
      } else {
        t.waitingMovies := t.waitingMovies + {movie};
        waiting := Zadd(waiting, now, user);
        lastseen := Zadd(lastseen, now, user);
        reply := Waiting(Zrank(waiting, user) + 1, |waiting|);
      }
    }

    method Promote(max: int, batch: int, now: int) returns (users: seq<string>)
      modifies this
      ensures (Q(), users) == Queues.Promote(old(Q()), max, batch, now)
    {
      ghost var q := Q();
      NoPromotion(q, max, batch, now);
      hide Zadd, Zrem, Encode, Names, Queues.Promote, MoveAll;
      var vacant := max - |active|;
      if vacant <= 0 { return []; }
      var n := vacant;
      if batch < n { n := batch; }
      if n <= 0 { return []; }
      users := Names(waiting[..Min(n, |waiting|)]);
      PromotionOf(q, max, batch, now, users);
      MoveNone(q, users[..0], now);
      for i := 0 to |users|
        invariant Q() == MoveAll(q, users[..i], now)
        invariant promoted == q.promoted
      {
        MoveOneMore(q, users, i, now);
        waiting := Zrem(waiting, users[i]);
        lastseen := Zrem(lastseen, users[i]);
        active := Zadd(active, now, users[i]);
        pending := Zadd(pending, now, Encode(Admit(ViaPromote, users[i])));
      }
      assert users[..|users|] == users;
      if |users| > 0 { promoted := promoted + |users|; }
    }

    method Leave(user: string, now: int) returns (code: nat)
      modifies this
      ensures (Q(), code) == Queues.Leave(old(Q()), user, now)
    {
      var wasActive := if user in Scores(active) then 1 else 0;
      active := Zrem(active, user);
      var wasWaiting := if user in Scores(waiting) then 1 else 0;
      waiting := Zrem(waiting, user);
      lastseen := Zrem(lastseen, user);
      pending := ZremAll(pending, AdmitLines(user));
      if wasActive == 1 { pending := Zadd(pending, now, Encode(Revoke(OnLeave, user))); }
      code := wasActive + wasWaiting * 2;
    }

    method Release(user: string, now: int) returns (wasActive: bool)
      modifies this
      ensures (Q(), wasActive) == Queues.Release(old(Q()), user, now)
    {
      wasActive := user in Scores(active);
      active := Zrem(active, user);
      pending := ZremAll(pending, AdmitLines(user));
      if wasActive { pending := Zadd(pending, now, Encode(Revoke(OnComplete, user))); }
    }

    method CompleteActive(user: string) returns (removed: bool)
      modifies this
      ensures (Q(), removed) == Queues.Complete(old(Q()), user)
    {
      removed := user in Scores(active);
      active := Zrem(active, user);
      pending := ZremAll(pending, AdmitLines(user));
    }

    method ExpireActive(cutoff: int, now: int) returns (expired: seq<string>)
      modifies this
      ensures (Q(), expired) == Queues.ExpireActive(old(Q()), cutoff, now)
    {
      expired := RangeByScore(active, 0, cutoff, EXPIRE_LIMIT);
      var users := expired;
      var left := ZremAll(active, users);
      ExpiryOf(Q(), cutoff, now, users);
      hide *;
      if |users| == 0 { return; }
      active := left;
      RevokeExpired(users, now);
    }

    /** The script's loop: each of them loses pending admits and owes booking a revoke. */
    method RevokeExpired(expired: seq<string>, now: int)
      modifies this`pending
      ensures pending == RevokeAll(old(pending), expired, now)
    {
      RevokeNone(pending, expired[..0], now);
      hide *;
      for i := 0 to |expired|
        invariant pending == RevokeAll(old(pending), expired[..i], now)
      {
        RevokeOneMore(old(pending), expired, i, now);
        pending := ZremAll(pending, AdmitLines(expired[i]));
        pending := Zadd(pending, now, Encode(Revoke(OnTimeout, expired[i])));
      }
      assert expired[..|expired|] == expired;
    }

    method ExpireWaiting(cutoff: int) returns (stale: seq<string>)
      modifies this
      ensures (Q(), stale) == Queues.ExpireWaiting(old(Q()), cutoff)
    {
      stale := RangeByScore(lastseen, 0, cutoff, EXPIRE_LIMIT);
      if |stale| > 0 {
        lastseen := ZremAll(lastseen, stale);
        waiting := ZremAll(waiting, stale);
      }
    }

    method Position(user: string, now: int) returns (reply: PositionReply)
      modifies this
      ensures (Q(), reply) == Queues.Position(old(Q()), user, now)
    {
      if user in Scores(active) { return InSession; }
      if user !in Scores(waiting) { return Expired; }
      var total := |waiting|;
      var position := Zrank(waiting, user) + 1;
      var behind := total - position;
      if behind < 0 { behind := 0; }
      lastseen := Zadd(lastseen, now, user);
      reply := InLine(position, behind);
    }

    /** Drops an idle movie from the tracking sets. */
    method UntrackIfIdle(t: Tracking, movie: string) returns (removed: bool)
      modifies t
      ensures removed == (active == [] && waiting == [] && pending == [])
      ensures t.activeMovies == old(t.activeMovies) - if removed then {movie} else {}
      ensures t.waitingMovies == old(t.waitingMovies) - if removed then {movie} else {}
    {
      removed := |active| == 0 && |waiting| == 0 && |pending| == 0;
      if removed {
        t.activeMovies := t.activeMovies - {movie};
        t.waitingMovies := t.waitingMovies - {movie};
      }
    }

    method ClearPending(lines: seq<string>)
      modifies this
      ensures Q() == Queues.ClearPending(old(Q()), lines)
    {
      if |lines| > 0 { pending := ZremAll(pending, lines); }
    }

    /** Reads the old lines, dropping those that do not parse: an event for each of the others, with its
        pieces, in order. */
    method PendingBefore(cutoff: int, limit: nat) returns (events: seq<Event>)
      modifies this
      ensures var raw := Sweeps.PendingBefore(old(pending), cutoff, limit);
              && events == Readable(raw)
              && Q() == Queues.ClearPending(old(Q()), Sift(raw).malformed)
              && (exists at :: ReadFrom(raw, events, at))
              && (forall k :: k in Scores(pending) <==> k in Scores(old(pending)) && !Unreadable(raw, k))
    {
      var raw := Sweeps.PendingBefore(pending, cutoff, limit);
      ghost var at := ReadableIsRead(raw);
      UnreadableGo(Q(), raw);
      events := [];
      ghost var q := Q();
      ReadNone(q, raw[..0]);
      hide ZremAll, Zrem, Sweeps.PendingBefore, Sift, Readable, ParsePendingMember, ReadFrom, Scores;
      hide Unreadable;
      for i := 0 to |raw|
        invariant events == Readable(raw[..i])
        invariant Q() == Queues.ClearPending(q, Sift(raw[..i]).malformed)
      {
        ReadOneMore(raw, i);
        match ParsePendingMember(raw[i])
        case Parsed(kind, reason, id) => events := events + [Event(kind, reason, id, raw[i])];
        case Malformed =>
          ZremAllSnoc(q.pending, Sift(raw[..i]).malformed, raw[i]);
          pending := Zrem(pending, raw[i]);
      }
      assert raw[..|raw|] == raw;
    }

    /** Publishes one batch; only a confirmed batch is cleared. */
    method PublishAndClear(broker: Broker, topic: Topic, users: seq<string>, lines: seq<string>,
                           outcome: Outcome, clearOk: bool)
      requires |users| == |lines|
      modifies this, broker
      ensures broker.log == old(broker.log) + Written(Messages(topic, users), outcome)
      ensures Q() == if outcome.Delivered? && clearOk then Queues.ClearPending(old(Q()), lines) else old(Q())
    {
      if |users| == 0 { return; }
      var ok := broker.PublishEvents(topic, users, outcome);
      if !ok { return; }
      if clearOk { ClearPending(lines); }
    }

    /** Sorts the events into the two batches; lines of a kind nobody knows leave the journal. */
    method SortEvents(events: seq<Event>)
      returns (admits: seq<string>, admitLines: seq<string>, revokes: seq<string>, revokeLines: seq<string>)
      modifies this
      ensures |admits| == |admitLines| && |revokes| == |revokeLines|
      ensures var s := SiftEvents(events);
              && s.admits == admits && s.admitLines == admitLines
              && s.revokes == revokes && s.revokeLines == revokeLines
              && Q() == Queues.ClearPending(old(Q()), s.unknown)
    {
      assert events[..0] == [];
      SiftNone(Q(), events[..0]);
      hide *;
      admits, admitLines, revokes, revokeLines := [], [], [], [];
      ghost var unknown: seq<string> := [];
      ghost var q := Q();
      for i := 0 to |events|
        invariant SiftEvents(events[..i]) == Sifted(admitLines, admits, revokeLines, revokes, [], unknown)
        invariant |admits| == |admitLines| && |revokes| == |revokeLines|
        invariant Q() == Queues.ClearPending(q, unknown)
      {
        SiftOneMore(events, i);
        var e := events[i];
        if e.kind == KIND_ADMIT {
          admits, admitLines := admits + [e.requestId], admitLines + [e.member];
        } else if e.kind == KIND_REVOKE {
          revokes, revokeLines := revokes + [e.requestId], revokeLines + [e.member];
        } else {
          ClearOneMore(q, unknown, e.member);
          ClearPending([e.member]);
          unknown := unknown + [e.member];
        }
      }
      assert events[..|events|] == events;
    }

    /** One movie's sweep: the old lines that can be read go out by topic, admissions first, and each
        batch leaves the journal only when it was confirmed and the clearing worked. */
    method SweepMovie(broker: Broker, cutoff: int, limit: nat,
                      admitOutcome: Outcome, admitClear: bool, revokeOutcome: Outcome, revokeClear: bool)
      modifies this, broker
      ensures var s := Sift(Sweeps.PendingBefore(old(pending), cutoff, limit));
              && broker.log == old(broker.log)
                   + Written(Messages(Admissions, s.admits), admitOutcome)
                   + Written(Messages(Revoked, s.revokes), revokeOutcome)
              && Q() == Swept(old(Q()), s, admitOutcome.Delivered? && admitClear,
                              revokeOutcome.Delivered? && revokeClear)
      ensures SweepLeaves(old(Q()), Q(), Sweeps.PendingBefore(old(pending), cutoff, limit),
                          admitOutcome.Delivered? && admitClear, revokeOutcome.Delivered? && revokeClear)
      ensures SweepSends(old(broker.log), broker.log, Sweeps.PendingBefore(old(pending), cutoff, limit),
                         admitOutcome.Delivered?, revokeOutcome.Delivered?)
    {
      ghost var raw := Sweeps.PendingBefore(pending, cutoff, limit);
      ghost var q, log := Q(), broker.log;
      SiftOfReadable(raw);
      SweptLeaves(q, raw, admitOutcome.Delivered? && admitClear, revokeOutcome.Delivered? && revokeClear);
      SweptSends(log, raw, admitOutcome, revokeOutcome);
      SweptIs(q, Sift(raw), admitOutcome.Delivered? && admitClear, revokeOutcome.Delivered? && revokeClear);
      hide *;
      var events := PendingBefore(cutoff, limit);
      var admits, admitLines, revokes, revokeLines := SortEvents(events);
      PublishAndClear(broker, Admissions, admits, admitLines, admitOutcome, admitClear);
      PublishAndClear(broker, Revoked, revokes, revokeLines, revokeOutcome, revokeClear);
    }

    /** One movie's promotion tick: promote, publish in one batch, clear what was confirmed, pause
        all pods on failure. The n users at the head of the line got seats. Only confirmed promotions
        count towards the rate, with that number; the feed shows every promotion. */
    method ProcessMovie(broker: Broker, rate: RateWindows.RateBuckets, feed: EventFeeds.EventStore, pause: PauseFlag,
                        max: int, batch: int, now: int, call: ScriptCall, outcome: Outcome, side: Side)
      modifies this, broker, rate, feed, pause
      ensures Q() == AfterCall(old(Q()), max, batch, now, call, outcome, side)
      ensures Ticked(old(Q()), Q(), old(broker.log), broker.log, now, call, outcome, side)
      ensures Paused(old(waiting), waiting, old(pause.until), pause.until, now, call, outcome, side)
      ensures Rated(old(waiting), waiting, old(rate.buckets), rate.buckets, now, call, outcome, side)
      ensures Shown(old(waiting), waiting, old(feed.State()), feed.State(), now, call, side)
    {
      ghost var q, log := Q(), broker.log;
      ghost var users := if call.NotRun? then [] else Queues.Promote(q, max, batch, now).1;
      hide *;
      PromoteAndPublish(broker, rate, feed, pause, max, batch, now, call, outcome, side);
      TickTells(q, Q(), users, log, broker.log, max, batch, now, call, outcome, side);
      TickRecords(q.waiting, waiting, users, old(pause.until), pause.until, old(rate.buckets), rate.buckets,
                  old(feed.State()), feed.State(), now, call, outcome, side);
    }

    /** The calls of a tick, one after another. */
    method PromoteAndPublish(broker: Broker, rate: RateWindows.RateBuckets, feed: EventFeeds.EventStore,
                             pause: PauseFlag, max: int, batch: int, now: int, call: ScriptCall, outcome: Outcome,
                             side: Side)
      modifies this, broker, rate, feed, pause
      ensures Q() == AfterCall(old(Q()), max, batch, now, call, outcome, side)
      ensures var users := if call.Answered? then Queues.Promote(old(Q()), max, batch, now).1 else [];
              && broker.log == old(broker.log) + Written(Messages(Admissions, users), outcome)
              && Recorded(users, old(pause.until), pause.until, old(rate.buckets), rate.buckets,
                          old(feed.State()), feed.State(), now, outcome, side)
    {
      NobodyWaits(Q(), max, batch, now, call, outcome, side);
      NothingWritten(outcome);
      hide Queues.Promote, AfterTick, Messages, Written, RateWindows.Observe, EventFeeds.Append;
      assert broker.log + [] == broker.log;
      if |waiting| <= 0 || call.NotRun? { return; }
      var admitted := Promote(max, batch, now);
      NothingSent(Q(), admitted, call, outcome, side);
      if call.LostReply? || |admitted| == 0 { return; }
      var ok := PublishPromoted(broker, admitted, outcome, side.clear);
      RecordPromotion(rate, feed, pause, admitted, now, ok, side);
    }

    /** Publishes a promotion's users and clears their lines once confirmed. */
    method PublishPromoted(broker: Broker, admitted: seq<string>, outcome: Outcome, clearOk: bool) returns (ok: bool)
      requires |admitted| > 0
      modifies this, broker
      ensures ok == outcome.Delivered?
      ensures broker.log == old(broker.log) + Written(Messages(Admissions, admitted), outcome)
      ensures Q() == if ok && clearOk then Queues.ClearPending(old(Q()), PromoteLines(admitted)) else old(Q())
    {
      var members: seq<string> := [];
      for i := 0 to |admitted|
        invariant members == PromoteLines(admitted[..i])
      {
        assert admitted[..i + 1][..i] == admitted[..i];
        members := members + [PendingMember(KIND_ADMIT, ViaText(ViaPromote), admitted[i])];
      }
      assert admitted[..|admitted|] == admitted;
      ok := broker.PublishEvents(Admissions, admitted, outcome);
      if ok && clearOk { ClearPending(members); }
    }

    /** The enter request. Bad ids are refused before any key is touched; without an answer from the
        script the caller is told so, whether or not it has run. A new seat is shown in the feed and
        published, and its line is cleared only once confirmed. */
    method HandleEnter(t: Tracking, broker: Broker, feed: EventFeeds.EventStore, movie: string, max: int, user: string,
                       now: int, call: ScriptCall, outcome: Outcome, side: Side) returns (r: HttpReply)
      modifies this, t, broker, feed
      ensures var (q, reply) := Queues.Enter(old(Q()), max, user, now);
              var done := ValidId(movie) && ValidId(user) && !call.NotRun?;
              var seated := done && call.Answered? && reply.Admitted?;
              && r == (if !(ValidId(movie) && ValidId(user)) then BadRequest
                       else if !call.Answered? then Unavailable
                       else if reply.Admitted? && !outcome.Delivered? then RetryLater
                       else Entered(reply))
              && Q() == (if !done then old(Q())
                         else if seated && outcome.Delivered? && side.clear then
                           Queues.ClearPending(q, [Encode(Admit(ViaEnter, user))])
                         else q)
              && t.activeMovies == old(t.activeMovies) + (if done then {movie} else {})
              && t.waitingMovies == old(t.waitingMovies) + (if done && reply.Waiting? then {movie} else {})
              && broker.log == old(broker.log)
                   + (if seated then Written([Message(Admissions, user)], outcome) else [])
              && feed.State() == if seated && side.feed then EventFeeds.Append(old(feed.State()), "ADMIT", [user], now)
                                 else old(feed.State())
    {
      if !(ValidId(movie) && ValidId(user)) { return BadRequest; }
      if call.NotRun? { return Unavailable; }
      hide Queues.Enter, Queues.ClearPending, ValidId, Encode, Written, EventFeeds.Append;
      var reply := Enter(t, movie, max, user, now);
      if call.LostReply? { return Unavailable; }
      if reply.Admitted? {
        if side.feed { feed.AppendEvents("ADMIT", [user], now); }
        var ok := PublishSeat(broker, user, outcome, side.clear);
        if !ok { return RetryLater; }
      }
      r := Entered(reply);
    }

    method PublishSeat(broker: Broker, user: string, outcome: Outcome, clearOk: bool) returns (ok: bool)
      modifies this, broker
      ensures ok == outcome.Delivered?
      ensures broker.log == old(broker.log) + Written([Message(Admissions, user)], outcome)
      ensures Q() == if ok && clearOk then Queues.ClearPending(old(Q()), [Encode(Admit(ViaEnter, user))]) else old(Q())
    {
      assert Messages(Admissions, [user]) == [Message(Admissions, user)] by { assert [user][..0] == []; }
      ok := broker.PublishEvents(Admissions, [user], outcome);
      if ok && clearOk { ClearPending([PendingMember(KIND_ADMIT, ViaText(ViaEnter), user)]); }
    }
  }

  datatype HttpReply = BadRequest | Unavailable | RetryLater | Entered(reply: EnterReply)

  datatype Event = Event(kind: string, reason: string, requestId: string, member: string)

  function Readable(lines: seq<string>): seq<Event> {
    if |lines| == 0 then []
    else
      var last := lines[|lines| - 1];
      Readable(lines[..|lines| - 1]) +
      match ParsePendingMember(last)
      case Parsed(kind, reason, id) => [Event(kind, reason, id, last)]
      case Malformed => []
  }

  /** An event for each line that parses and no other, in the order of the lines: `at` holds their
      places, ascending. */
  ghost predicate ReadFrom(lines: seq<string>, events: seq<Event>, at: seq<nat>) {
    && |events| == |at|
    && (forall j, k :: 0 <= j < k < |at| ==> at[j] < at[k])
    && (forall i :: 0 <= i < |lines| && ParsePendingMember(lines[i]).Parsed? ==> i in at)
    && forall k :: 0 <= k < |at| ==>
         && at[k] < |lines| && events[k].member == lines[at[k]]
         && ParsePendingMember(lines[at[k]]) == Parsed(events[k].kind, events[k].reason, events[k].requestId)
  }

  lemma {:induction false} ReadableIsRead(lines: seq<string>) returns (at: seq<nat>)
    ensures ReadFrom(lines, Readable(lines), at)
    decreases |lines|
  {
    if |lines| == 0 {
      at := [];
    } else {
      var init, last := lines[..|lines| - 1], lines[|lines| - 1];
      assert lines == init + [last];
      at := ReadableIsRead(init);
      hide ReadFrom, ParsePendingMember;
      at := ReadOneLine(init, Readable(init), at, last);
    }
  }

  lemma ReadOneLine(lines: seq<string>, events: seq<Event>, at: seq<nat>, line: string) returns (at': seq<nat>)
    requires ReadFrom(lines, events, at)
    ensures match ParsePendingMember(line)
            case Parsed(kind, reason, id) => ReadFrom(lines + [line], events + [Event(kind, reason, id, line)], at')
            case Malformed => ReadFrom(lines + [line], events + [], at')
  {
    hide ParsePendingMember;
    var n := |lines|;
    if ParsePendingMember(line).Parsed? {
      at' := at + [n];
      assert forall i :: i in at ==> i in at';
      assert at'[|at|] == n;
    } else {
      at' := at;
      assert events + [] == events;
    }
  }

  predicate Unreadable(lines: seq<string>, k: string) { k in lines && ParsePendingMember(k).Malformed? }

  lemma UnreadableGo(q: Queue, raw: seq<string>)
    ensures forall k :: k in Scores(Queues.ClearPending(q, Sift(raw).malformed).pending) <==>
              k in Scores(q.pending) && !Unreadable(raw, k)
  {
    SiftMembers(raw);
    ClearedScores(q, Sift(raw).malformed);
    hide Sift, Queues.ClearPending, Scores, ParsePendingMember;
    forall k ensures Kind(k) == None <==> ParsePendingMember(k).Malformed? {}
  }

  function SiftEvents(events: seq<Event>): Sifted {
    if |events| == 0 then NOTHING
    else
      var s, e := SiftEvents(events[..|events| - 1]), events[|events| - 1];
      if e.kind == KIND_ADMIT then s.(admitLines := s.admitLines + [e.member], admits := s.admits + [e.requestId])
      else if e.kind == KIND_REVOKE then
        s.(revokeLines := s.revokeLines + [e.member], revokes := s.revokes + [e.requestId])
      else s.(unknown := s.unknown + [e.member])
  }

  lemma ClearOneMore(q: Queue, lines: seq<string>, line: string)
    ensures Queues.ClearPending(Queues.ClearPending(q, lines), [line]) == Queues.ClearPending(q, lines + [line])
  {
    ZremAllSnoc(q.pending, lines, line);
    OneLine(Queues.ClearPending(q, lines).pending, line);
    hide ZremAll, Zrem;
  }

  lemma SiftNone(q: Queue, events: seq<Event>)
    requires events == []
    ensures SiftEvents(events) == NOTHING && Queues.ClearPending(q, []) == q
  {}

  lemma SiftOneMore(events: seq<Event>, i: nat)
    requires i < |events|
    ensures var s, e := SiftEvents(events[..i]), events[i];
            SiftEvents(events[..i + 1]) ==
              if e.kind == KIND_ADMIT then
                s.(admitLines := s.admitLines + [e.member], admits := s.admits + [e.requestId])
              else if e.kind == KIND_REVOKE then
                s.(revokeLines := s.revokeLines + [e.member], revokes := s.revokes + [e.requestId])
              else s.(unknown := s.unknown + [e.member])
  {
    assert events[..i + 1][..i] == events[..i];
  }

  lemma ReadNone(q: Queue, raw: seq<string>)
    requires raw == []
    ensures Readable(raw) == [] && Queues.ClearPending(q, Sift(raw).malformed) == q
  {}

  lemma ReadOneMore(raw: seq<string>, i: nat)
    requires i < |raw|
    ensures var p := ParsePendingMember(raw[i]);
            && Readable(raw[..i + 1]) == Readable(raw[..i]) +
                 (match p case Parsed(k, r, id) => [Event(k, r, id, raw[i])] case Malformed => [])
            && Sift(raw[..i + 1]).malformed ==
                 if p.Malformed? then Sift(raw[..i]).malformed + [raw[i]] else Sift(raw[..i]).malformed
  {
    assert raw[..i + 1][..i] == raw[..i];
  }

  /** Reading then sorting the events is sorting the lines. */
  lemma {:induction false} SiftOfReadable(lines: seq<string>)
    ensures Sift(lines) == SiftEvents(Readable(lines)).(malformed := Sift(lines).malformed)
    decreases |lines|
  {
    if |lines| > 0 {
      var init, last := lines[..|lines| - 1], lines[|lines| - 1];
      SiftOfReadable(init);
      var events := Readable(lines);
      if ParsePendingMember(last).Parsed? {
        assert events[..|events| - 1] == Readable(init);
      } else {
        assert events == Readable(init);
      }
    }
  }

  lemma MoveNone(q: Queue, users: seq<string>, now: int)
    requires users == []
    ensures MoveAll(q, users, now) == q
  {}

  lemma MoveOneMore(q: Queue, users: seq<string>, i: nat, now: int)
    requires i < |users|
    ensures MoveAll(q, users[..i + 1], now) == MoveIn(MoveAll(q, users[..i], now), users[i], now)
  {
    assert users[..i + 1][..i] == users[..i];
  }

  lemma PromotionOf(q: Queue, max: int, batch: int, now: int, users: seq<string>)
    requires users == Names(q.waiting[..PromoteCount(q, max, batch)])
    ensures Queues.Promote(q, max, batch, now)
         == (MoveAll(q, users, now).(promoted := q.promoted + |users|), users)
  {
    hide MoveAll, Names, PromoteCount;
  }

  lemma ExpiryOf(q: Queue, cutoff: int, now: int, users: seq<string>)
    requires users == RangeByScore(q.active, 0, cutoff, EXPIRE_LIMIT)
    ensures Queues.ExpireActive(q, cutoff, now)
         == (q.(active := ZremAll(q.active, users), pending := RevokeAll(q.pending, users, now)), users)
    ensures users == [] ==> Queues.ExpireActive(q, cutoff, now) == (q, users)
  {
    hide RangeByScore;
  }

  lemma RevokeNone(p: Zset, users: seq<string>, now: int)
    requires users == []
    ensures RevokeAll(p, users, now) == p
  {}

  lemma RevokeOneMore(p: Zset, users: seq<string>, i: nat, now: int)
    requires i < |users|
    ensures RevokeAll(p, users[..i + 1], now)
         == Zadd(ZremAll(RevokeAll(p, users[..i], now), AdmitLines(users[i])), now, Encode(Revoke(OnTimeout, users[i])))
  {
    assert users[..i + 1][..i] == users[..i];
    hide ZremAll, Zadd, Encode, AdmitLines;
  }

  /** Moving a waiter to the tail by removing and adding is adding. */
  lemma RequeueIsZadd(z: Zset, now: int, user: string)
    ensures Zadd(Zrem(z, user), now, user) == Zadd(z, now, user)
  {
    SameScoresSameZset(Zadd(Zrem(z, user), now, user), Zadd(z, now, user));
  }

  lemma {:induction false} WithoutAllSnoc(z: seq<Entry>, ms: seq<string>, m: string)
    ensures WithoutAll(z, ms + [m]) == Without(WithoutAll(z, ms), m)
    decreases |ms|
  {
    var all := ms + [m];
    if |ms| == 0 {
      assert all[1..] == [];
    } else {
      assert all[1..] == ms[1..] + [m];
      WithoutAllSnoc(Without(z, ms[0]), ms[1..], m);
    }
  }

  lemma OneLine(z: Zset, m: string)
    ensures ZremAll(z, [m]) == Zrem(z, m)
  {
    assert [m][0] == m && [m][1..] == [];
    assert WithoutAll(Without(z, m), []) == Without(z, m);
  }

  lemma ZremAllSnoc(z: Zset, ms: seq<string>, m: string)
    ensures ZremAll(z, ms + [m]) == Zrem(ZremAll(z, ms), m)
  {
    WithoutAllSnoc(z, ms, m);
  }
}
