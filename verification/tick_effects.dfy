/** What one promotion tick of a movie does to the queue and sends. */
module TickEffects {
  import opened SortedSets
  import opened Journal
  import opened Queues
  import opened QueueOrder
  import opened Sweeps
  import opened Publishing
  import EventFeeds
  import RateWindows

  /** A call of a script: answered, executed with the answer lost, or never executed. */
  datatype ScriptCall = Answered | LostReply | NotRun

  const PROMOTE_PAUSE := 10000

  /** Whether the calls that only log their failure go through. */
  datatype Side = Side(clear: bool, pause: bool, rate: bool, feed: bool)

  /** The queue after a tick whose promotion gave r. */
  function AfterTick(r: (Queue, seq<string>), call: ScriptCall, outcome: Outcome, side: Side): Queue {
    if call.Answered? && |r.1| > 0 && outcome.Delivered? && side.clear then Queues.ClearPending(r.0, PromoteLines(r.1))
    else r.0
  }

  /** And if the script has not run, the queue as it was. */
  function AfterCall(q: Queue, max: int, batch: int, now: int, call: ScriptCall, outcome: Outcome, side: Side): Queue {
    if call.NotRun? then q else AfterTick(Queues.Promote(q, max, batch, now), call, outcome, side)
  }

  /** The users are the head of the line and were given seats; the others wait on. */
  ghost predicate HeadSeated(q: Queue, q': Queue, users: seq<string>, now: int) {
    && |users| <= |q.waiting| && users == Names(q.waiting[..|users|]) && q'.waiting == q.waiting[|users|..]
    && q'.promoted == q.promoted + |users|
    && (forall u :: u in Scores(q'.active) <==> u in Scores(q.active) || u in users)
    && (forall u :: u in users ==> u in Scores(q'.active) && Scores(q'.active)[u] == now)
  }

  /** The journal owes what it did, but for the announcements of these users' promotion. */
  ghost predicate OthersOwed(q: Queue, q': Queue, users: seq<string>) {
    forall m: Notice :: Owes(q', m) != Owes(q, m) ==> m.Admit? && m.via.ViaPromote? && m.user in users
  }

  /** What a tick adds to the log: if the script answered, a message for each of the users whose message
      arrived, in their order; confirmed, for all of them. */
  ghost predicate Announced(log: seq<Message>, log': seq<Message>, users: seq<string>, call: ScriptCall,
                            outcome: Outcome)
  {
    && log <= log'
    && var added := log'[|log|..];
    && (!call.Answered? ==> added == [])
    && (call.Answered? ==> exists at :: Arrived(added, Admissions, users, outcome, at))
    && (call.Answered? && outcome.Delivered? ==>
          && |added| == |users|
          && (forall i :: 0 <= i < |users| ==> added[i] == Message(Admissions, users[i]))
          && forall u :: u in users ==> Message(Admissions, u) in added)
  }

  /** A tick between two states. The users who left the line are its head; they got seats, and nobody else.
      Their lines are owed unless they were confirmed and cleared, so a line is gone only if its user's
      message is in the log; what else is owed is as before. */
  ghost predicate Ticked(q: Queue, q': Queue, log: seq<Message>, log': seq<Message>, now: int, call: ScriptCall,
                         outcome: Outcome, side: Side)
  {
    && |q'.waiting| <= |q.waiting| && (call.NotRun? ==> q' == q)
    && var users := Names(q.waiting[..|q.waiting| - |q'.waiting|]);
    && HeadSeated(q, q', users, now) && OthersOwed(q, q', users) && Announced(log, log', users, call, outcome)
    && (forall u :: u in users ==>
          (Owes(q', Admit(ViaPromote, u)) <==> !(call.Answered? && outcome.Delivered? && side.clear)))
    && (forall u :: u in users && !Owes(q', Admit(ViaPromote, u)) ==> Message(Admissions, u) in log'[|log|..])
  }

  lemma SeatedBy(q: Queue, q': Queue, users: seq<string>, now: int)
    requires |users| <= |q.waiting| && users == Names(q.waiting[..|users|]) && q'.waiting == q.waiting[|users|..]
    requires q'.promoted == q.promoted + |users|
    requires Scores(q'.active).Keys == Scores(q.active).Keys + ToSet(users)
    requires forall u :: u in ToSet(users) ==> u in Scores(q'.active) && Scores(q'.active)[u] == now
    ensures HeadSeated(q, q', users, now)
  {
    hide Scores, Names;
    assert forall u :: u in Scores(q'.active) <==> u in Scores(q'.active).Keys;
  }

  lemma HeadIsSeated(q: Queue, max: int, batch: int, now: int)
    ensures var (q', users) := Queues.Promote(q, max, batch, now); HeadSeated(q, q', users, now)
  {
    var (q', users) := Queues.Promote(q, max, batch, now);
    LineAfterPromote(q, max, batch, now);
    Reported(q, max, batch, now);
    PromoteShape(q, max, batch, now, (q', users));
    MoveAllStamps(q, users, now);
    MoveAllSeats(q, users, now);
    hide Queues.Promote, MoveAll, PromoteCount, Names, Scores, Encode, HeadSeated;
    assert |users| == PromoteCount(q, max, batch);
    SeatedBy(q, q', users, now);
  }

  /** A promotion writes a line for each user, and no other. */
  lemma PromotionOwes(q: Queue, max: int, batch: int, now: int)
    ensures var (q', users) := Queues.Promote(q, max, batch, now);
            OthersOwed(q, q', users) && forall u :: u in users ==> Owes(q', Admit(ViaPromote, u))
  {
    var (q', users) := Queues.Promote(q, max, batch, now);
    PromoteShape(q, max, batch, now, (q', users));
    MoveAllJournal(q, users, now);
    hide Queues.Promote, MoveAll, Names, Scores, Encode;
    forall u | u in users ensures Owes(q', Admit(ViaPromote, u)) {
      assert Admit(ViaPromote, u) in Promotions(users);
    }
    WritesOnly(q, q', users, NO_CHANGE.(added := Promotions(users), stamp := now));
  }

  lemma WritesOnly(q: Queue, q': Queue, users: seq<string>, c: Change)
    requires JournalStep(q.pending, q'.pending, c) && c.cleared == c.dropped == {}
    requires forall m :: m in c.added ==> m.Admit? && m.via.ViaPromote? && m.user in users
    ensures OthersOwed(q, q', users)
  {
    hide Scores, Encode, Decode;
    forall m: Notice | Owes(q', m) != Owes(q, m) ensures m.Admit? && m.via.ViaPromote? && m.user in users {
      assert Owes(q', m) <==> m in c.added || Kept(q.pending, c, m);
    }
  }

  /** Clearing a promotion's lines takes them all. */
  lemma PublishedLines(q: Queue, users: seq<string>)
    ensures var q' := Queues.ClearPending(q, PromoteLines(users));
            && q' == q.(pending := q'.pending) && OthersOwed(q, q', users)
            && forall u :: u in users ==> !Owes(q', Admit(ViaPromote, u))
  {
    PromoteLinesNamed(users);
    hide PromoteLines, Encode;
    forall u | u in users ensures !Owes(Queues.ClearPending(q, PromoteLines(users)), Admit(ViaPromote, u)) {
      assert Encode(Admit(ViaPromote, u)) in PromoteLines(users);
    }
  }

  lemma SeatedStill(q: Queue, a: Queue, b: Queue, users: seq<string>, now: int)
    requires HeadSeated(q, a, users, now) && b == a.(pending := b.pending)
    requires OthersOwed(q, a, users) && OthersOwed(a, b, users)
    ensures HeadSeated(q, b, users, now) && OthersOwed(q, b, users)
  {
    hide Names, Scores, Owes;
  }

  /** What a tick does to the queue: the head of the line is seated, and its lines stay owed unless
      they were published, confirmed and cleared. */
  lemma TickMeans(q: Queue, q': Queue, users: seq<string>, max: int, batch: int, now: int, call: ScriptCall,
                  outcome: Outcome, side: Side)
    requires q' == AfterCall(q, max, batch, now, call, outcome, side)
    requires users == if call.NotRun? then [] else Queues.Promote(q, max, batch, now).1
    ensures HeadSeated(q, q', users, now) && OthersOwed(q, q', users)
    ensures call.NotRun? ==> q' == q && users == []
    ensures forall u :: u in users ==>
              (Owes(q', Admit(ViaPromote, u)) <==> !(call.Answered? && outcome.Delivered? && side.clear))
  {
    if call.NotRun? {
      assert q.waiting[..0] == [] && q.waiting[0..] == q.waiting;
    } else {
      hide Queues.Promote, Names, Scores, Encode, Queues.ClearPending, PromoteLines, Owes, HeadSeated;
      var r := Queues.Promote(q, max, batch, now);
      HeadIsSeated(q, max, batch, now);
      PromotionOwes(q, max, batch, now);
      PublishedLines(r.0, r.1);
      hide OthersOwed;
      SeatedStill(q, r.0, Queues.ClearPending(r.0, PromoteLines(r.1)), r.1, now);
    }
  }

  lemma LineIsSeated(q: Queue, q': Queue, users: seq<string>, now: int)
    requires HeadSeated(q, q', users, now)
    ensures |q'.waiting| <= |q.waiting| && |users| == |q.waiting| - |q'.waiting|
    ensures users == Names(q.waiting[..|q.waiting| - |q'.waiting|])
  {
    hide Names, Scores;
  }

  lemma TickSends(log: seq<Message>, users: seq<string>, call: ScriptCall, outcome: Outcome)
    ensures var log' := log + Written(Messages(Admissions, if call.Answered? then users else []), outcome);
            Announced(log, log', users, call, outcome)
  {
    NothingWritten(outcome);
    PublishMeans(log, Admissions, users, outcome);
    hide Arrived, Messages, Written;
    if call.Answered? && outcome.Delivered? {
      var log' := log + Written(Messages(Admissions, users), outcome);
      forall i | 0 <= i < |users| ensures log'[|log|..][i] == Message(Admissions, users[i]) {
        assert log'[|log|..][i] == log'[|log| + i];
      }
    }
  }

  lemma TickTells(q: Queue, q': Queue, users: seq<string>, log: seq<Message>, log': seq<Message>,
                  max: int, batch: int, now: int, call: ScriptCall, outcome: Outcome, side: Side)
    requires q' == AfterCall(q, max, batch, now, call, outcome, side)
    requires users == if call.NotRun? then [] else Queues.Promote(q, max, batch, now).1
    requires log' == log + Written(Messages(Admissions, if call.Answered? then users else []), outcome)
    ensures Ticked(q, q', log, log', now, call, outcome, side)
    ensures |q'.waiting| <= |q.waiting| && |users| == |q.waiting| - |q'.waiting|
    ensures users == Names(q.waiting[..|q.waiting| - |q'.waiting|])
  {
    hide AfterCall, Queues.Promote, Messages, Written, Arrived, Names, Scores, Encode, Owes, HeadSeated, OthersOwed;
    TickMeans(q, q', users, max, batch, now, call, outcome, side);
    LineIsSeated(q, q', users, now);
    TickSends(log, users, call, outcome);
  }

  lemma NothingSent(q: Queue, users: seq<string>, call: ScriptCall, outcome: Outcome, side: Side)
    ensures AfterTick((q, users), call, outcome, side) ==
            if call.Answered? && |users| > 0 && outcome.Delivered? && side.clear
            then Queues.ClearPending(q, PromoteLines(users)) else q
  {}

  lemma NoPromotion(q: Queue, max: int, batch: int, now: int)
    ensures PromoteCount(q, max, batch) == 0 ==> Queues.Promote(q, max, batch, now) == (q, [])
  {
    assert q.waiting[..0] == [];
  }

  lemma NobodyWaits(q: Queue, max: int, batch: int, now: int, call: ScriptCall, outcome: Outcome, side: Side)
    ensures |q.waiting| == 0 ==>
              && Queues.Promote(q, max, batch, now) == (q, [])
              && AfterTick((q, []), call, outcome, side) == q
  {
    NoPromotion(q, max, batch, now);
  }

  /** What follows the publish of these users, if there are any: the pause, the rate and the feed. */
  ghost predicate Recorded(users: seq<string>, until: int, until': int, buckets: map<int, RateWindows.Bucket>,
                           buckets': map<int, RateWindows.Bucket>, feed: EventFeeds.Feed, feed': EventFeeds.Feed,
                           now: int, outcome: Outcome, side: Side)
  {
    && until' == (if |users| > 0 && !outcome.Delivered? && side.pause then now + PROMOTE_PAUSE else until)
    && buckets' == (if |users| > 0 && outcome.Delivered? && side.rate
                    then RateWindows.Observe(buckets, RateWindows.Tick(now / 1000, |users|))
                    else buckets)
    && feed' == if |users| > 0 && side.feed then EventFeeds.Append(feed, "PROMOTE", users, now) else feed
  }

  /** The script told of users who left the line, which was `line` and is `rest`. */
  predicate Told(line: Zset, rest: Zset, call: ScriptCall) { call.Answered? && |rest| < |line| }

  /** A failed publish pauses promotion, and nothing else does. */
  ghost predicate Paused(line: Zset, rest: Zset, until: int, until': int, now: int, call: ScriptCall, outcome: Outcome,
                         side: Side)
  {
    until' == if Told(line, rest, call) && !outcome.Delivered? && side.pause then now + PROMOTE_PAUSE else until
  }

  /** A confirmed publish counts towards the rate, with the number of users who left the line. */
  ghost predicate Rated(line: Zset, rest: Zset, buckets: map<int, RateWindows.Bucket>,
                        buckets': map<int, RateWindows.Bucket>, now: int, call: ScriptCall, outcome: Outcome,
                        side: Side)
  {
    buckets' == if Told(line, rest, call) && outcome.Delivered? && side.rate
                then RateWindows.Observe(buckets, RateWindows.Tick(now / 1000, |line| - |rest|))
                else buckets
  }

  /** The feed shows just the users who left the line, in their order. */
  ghost predicate Shown(line: Zset, rest: Zset, feed: EventFeeds.Feed, feed': EventFeeds.Feed, now: int,
                        call: ScriptCall, side: Side)
  {
    feed' == if Told(line, rest, call) && side.feed
             then EventFeeds.Append(feed, "PROMOTE", Names(line[..|line| - |rest|]), now)
             else feed
  }

  lemma TickRecords(line: Zset, rest: Zset, users: seq<string>, until: int, until': int,
                    buckets: map<int, RateWindows.Bucket>, buckets': map<int, RateWindows.Bucket>,
                    feed: EventFeeds.Feed, feed': EventFeeds.Feed, now: int, call: ScriptCall, outcome: Outcome,
                    side: Side)
    requires |rest| <= |line| && |users| == |line| - |rest| && users == Names(line[..|line| - |rest|])
    requires Recorded(if call.Answered? then users else [], until, until', buckets, buckets', feed, feed', now, outcome,
                      side)
    ensures Paused(line, rest, until, until', now, call, outcome, side)
    ensures Rated(line, rest, buckets, buckets', now, call, outcome, side)
    ensures Shown(line, rest, feed, feed', now, call, side)
  {
    hide RateWindows.Observe, EventFeeds.Append, Names;
  }
}
