/** The capped event feed and the cursor a client follows it with. */
module EventFeeds {
  const CAP := 100
  const FIRST_LOAD := 30

  datatype Event = Event(id: nat, at: int, kind: string, user: string)

  /** The last id given out and the events kept, oldest first. */
  datatype Feed = Feed(lastId: nat, events: seq<Event>)

  const EMPTY_FEED := Feed(0, [])

  // ---- appending and reading ----

  /** The events of one batch, on consecutive ids after `last`. */
  function Block(last: nat, kind: string, users: seq<string>, now: int): (b: seq<Event>)
    ensures |b| == |users|
    ensures forall i :: 0 <= i < |b| ==> b[i].id == last + 1 + i
  {
    seq(|users|, i requires 0 <= i < |users| => Event(last + 1 + i, now, kind, users[i]))
  }

  function Newest(events: seq<Event>, n: nat): seq<Event> { if |events| <= n then events else events[|events| - n..] }

  function Append(f: Feed, kind: string, users: seq<string>, now: int): Feed {
    Feed(f.lastId + |users|,
         if |users| == 0 then f.events else Newest(f.events + Block(f.lastId, kind, users, now), CAP))
  }

  function After(events: seq<Event>, id: nat): seq<Event> {
    if |events| == 0 then []
    else
      var last := events[|events| - 1];
      After(events[..|events| - 1], id) + if last.id > id then [last] else []
  }

  function Load(f: Feed, after: nat): seq<Event> {
    if after == 0 then Newest(f.events, FIRST_LOAD) else After(f.events, after)
  }

  function LastOf(f: Feed): nat { if |f.events| == 0 then 0 else f.events[|f.events| - 1].id }

  /** The feed after an append: of the old events and, behind them, one new event for each user, all but
      the oldest d, so that a hundred are left, or all if they are fewer. */
  ghost predicate Appended(f: Feed, f': Feed, kind: string, users: seq<string>, now: int) {
    var m, n, k := |f.events|, |users|, |f'.events|;
    var d := m + n - k;
    && f'.lastId == f.lastId + n
    && (n == 0 ==> f' == f)
    && (n > 0 ==> k == if m + n < CAP then m + n else CAP)
    && forall i :: 0 <= i < k ==>
         f'.events[i] == if i + d < m then f.events[i + d]
                         else Event(f.lastId + 1 + (i + d - m), now, kind, users[i + d - m])
  }

  lemma AppendMeans(f: Feed, kind: string, users: seq<string>, now: int)
    ensures Appended(f, Append(f, kind, users, now), kind, users, now)
  {
    if |users| > 0 {
      var b := Block(f.lastId, kind, users, now);
      BlockIs(f.lastId, kind, users, now);
      hide Block;
      NewestIs(f.events + b, CAP);
      hide Newest;
    }
  }

  lemma NewestIs(all: seq<Event>, n: nat)
    ensures var kept := Newest(all, n);
            && |kept| == (if |all| < n then |all| else n)
            && kept == all[|all| - |kept|..]
            && forall i :: 0 <= i < |kept| ==> kept[i] == all[i + (|all| - |kept|)]
  {}

  lemma BlockIs(last: nat, kind: string, users: seq<string>, now: int)
    ensures forall i :: 0 <= i < |users| ==>
              Block(last, kind, users, now)[i] == Event(last + 1 + i, now, kind, users[i])
  {}

  lemma {:induction false} AfterMembers(events: seq<Event>, id: nat)
    ensures forall e :: e in After(events, id) <==> e in events && e.id > id
    decreases |events|
  {
    if |events| > 0 {
      var init, last := events[..|events| - 1], events[|events| - 1];
      assert events == init + [last];
      AfterMembers(init, id);
    }
  }

  /** What a read hands out: all events behind the cursor and no other, or without one the newest thirty,
      or all if they are fewer. */
  ghost predicate Handed(events: seq<Event>, after: nat, out: seq<Event>) {
    if after == 0 then
      && |out| == (if |events| < FIRST_LOAD then |events| else FIRST_LOAD)
      && out == events[|events| - |out|..]
    else forall e :: e in out <==> e in events && e.id > after
  }

  lemma LoadIsHanded(f: Feed, after: nat)
    ensures Handed(f.events, after, Load(f, after))
  {
    NewestIs(f.events, FIRST_LOAD);
    AfterMembers(f.events, after);
    hide Newest, After;
  }

  /** Turns newest-first into oldest-first by swapping from both ends. */
  method Reverse(raw: seq<Event>) returns (out: seq<Event>)
    ensures |out| == |raw| && forall k :: 0 <= k < |raw| ==> out[k] == raw[|raw| - 1 - k]
  {
    out := raw;
    var n, i, j := |raw|, 0, |raw| - 1;
    while i < j
      invariant 0 <= i && 2 * i <= n && j == n - 1 - i && |out| == n
      invariant forall k :: 0 <= k < i || n - i <= k < n ==> out[k] == raw[n - 1 - k]
      invariant forall k :: i <= k < n - i ==> out[k] == raw[k]
    {
      assert out[i] == raw[i] && out[j] == raw[j];
      out := out[i := out[j]][j := out[i]];
      i, j := i + 1, j - 1;
    }
  }

  /** The events of a batch whose last id is `end`. */
  method NewEvents(end: nat, kind: string, users: seq<string>, now: int) returns (members: seq<Event>)
    requires |users| <= end
    ensures members == Block(end - |users|, kind, users, now)
  {
    members := [];
    ghost var block := Block(end - |users|, kind, users, now);
    BlockIs(end - |users|, kind, users, now);
    hide Block;
    for i := 0 to |users|
      invariant members == block[..i]
    {
      var id := end - (|users| - 1 - i);
      members := members + [Event(id, now, kind, users[i])];
    }
  }

  /** All but the oldest above the cap. */
  method Capped(events: seq<Event>) returns (kept: seq<Event>)
    ensures kept == Newest(events, CAP)
  {
    kept := events;
    var stop := |events| - CAP - 1;
    if stop >= 0 { kept := events[stop + 1..]; }
  }

  class EventStore {
    var lastId: nat
    var events: seq<Event>

    ghost function State(): Feed
      reads this
    {
      Feed(lastId, events)
    }

    constructor ()
      ensures State() == EMPTY_FEED
    {
      lastId, events := 0, [];
    }

    /** One atomic append: ids for the whole batch, then the events, then the cap. Behind the old events
        stands one for each user, in order, with the kind, the time and the next ids; of all these the
        newest hundred are kept. */
    method AppendEvents(kind: string, users: seq<string>, now: int)
      modifies this
      ensures State() == Append(old(State()), kind, users, now)
      ensures Appended(old(State()), State(), kind, users, now)
    {
      hide Appended, Block, Newest;
      AppendMeans(State(), kind, users, now);
      if |users| == 0 { return; }
      lastId := lastId + |users|;
      var members := NewEvents(lastId, kind, users, now);
      var kept := Capped(events + members);
      events := kept;
    }

    /** Events after the cursor, oldest first, and the newest id; without a cursor the newest few. */
    method ReadEvents(after: nat) returns (out: seq<Event>, last: nat)
      ensures out == Load(State(), after) && last == LastOf(State())
      ensures Handed(events, after, out)
    {
      LoadIsHanded(State(), after);
      hide Handed;
      last := 0;
      if |events| > 0 { last := events[|events| - 1].id; }
      if after == 0 {
        var n := if |events| < FIRST_LOAD then |events| else FIRST_LOAD;
        var kept := events;
        var raw := seq(n, i requires 0 <= i < n => kept[|kept| - 1 - i]);
        out := Reverse(raw);
        assert out == Newest(events, FIRST_LOAD);
      } else {
        out := [];
        for i := 0 to |events|
          invariant out == After(events[..i], after)
        {
          assert events[..i + 1][..i] == events[..i];
          if events[i].id > after { out := out + [events[i]]; }
        }
        assert events[..|events|] == events;
      }
    }
  }

  // ---- one client ----

  /** history: all events ever, for reference. received: what the client has been handed. */
  datatype Viewer = Viewer(history: seq<Event>, feed: Feed, cursor: nat, received: seq<Event>)

  const FRESH := Viewer([], EMPTY_FEED, 0, [])

  datatype Op = Publish(kind: string, users: seq<string>, now: int) | Poll

  function Advanced(cursor: nat, events: seq<Event>): nat {
    if |events| == 0 then cursor
    else
      var c := Advanced(cursor, events[..|events| - 1]);
      if events[|events| - 1].id > c then events[|events| - 1].id else c
  }

  /** pollEvents: ask from the cursor, drop the cursor if the feed went back, take what came. */
  method PollEvents(store: EventStore, cursor: nat) returns (events: seq<Event>, next: nat)
    ensures events == Load(store.State(), cursor)
    ensures next == Advanced(if LastOf(store.State()) < cursor then 0 else cursor, events)
  {
    var last;
    events, last := store.ReadEvents(cursor);
    next := if last < cursor then 0 else cursor;
    ghost var base := next;
    for i := 0 to |events|
      invariant next == Advanced(base, events[..i])
    {
      assert events[..i + 1][..i] == events[..i];
      if events[i].id > next { next := events[i].id; }
    }
    assert events[..|events|] == events;
  }

  function Do(v: Viewer, op: Op): Viewer {
    match op
    case Publish(kind, users, now) =>
      v.(history := v.history + Block(v.feed.lastId, kind, users, now), feed := Append(v.feed, kind, users, now))
    case Poll =>
      var got := Load(v.feed, v.cursor);
      v.(cursor := Advanced(if LastOf(v.feed) < v.cursor then 0 else v.cursor, got), received := v.received + got)
  }

  /** Between two polls, once something has been seen, at most CAP events arrive. */
  predicate KeepsUp(v: Viewer, op: Op) { op.Poll? && v.cursor > 0 ==> v.feed.lastId - v.cursor <= CAP }

  ghost predicate Runs(v: Viewer, ops: seq<Op>, v': Viewer)
    decreases |ops|
  {
    if |ops| == 0 then v' == v else KeepsUp(v, ops[0]) && Runs(Do(v, ops[0]), ops[1..], v')
  }

  /** The feed is the newest CAP events, and ids count from one without a gap. */
  ghost predicate FeedOk(v: Viewer) {
    && v.feed.lastId == |v.history| && v.feed.events == Newest(v.history, CAP)
    && forall i :: 0 <= i < |v.history| ==> v.history[i].id == i + 1
  }

  /** What was received is one stretch of the history up to the cursor. */
  ghost predicate ViewOk(v: Viewer) {
    && v.cursor <= |v.history| && |v.received| <= v.cursor
    && v.received == v.history[v.cursor - |v.received|..v.cursor]
    && (v.cursor > 0 ==> |v.received| > 0)
  }

  /** What is behind `id` in a stretch of events whose ids count up from `first`. */
  function Behind(events: seq<Event>, first: nat, id: nat): seq<Event> {
    if id < first then events else if id - first + 1 <= |events| then events[id - first + 1..] else []
  }

  lemma AfterOneMore(init: seq<Event>, last: Event, id: nat)
    ensures After(init + [last], id) == After(init, id) + if last.id > id then [last] else []
  {
    assert (init + [last])[..|init|] == init;
  }

  lemma BehindOneMore(init: seq<Event>, last: Event, first: nat, id: nat)
    requires last.id == first + |init|
    ensures Behind(init + [last], first, id) == Behind(init, first, id) + if last.id > id then [last] else []
  {
    if first <= id < last.id {
      var k := id - first + 1;
      assert (init + [last])[k..] == init[k..] + [last];
    }
  }

  lemma {:induction false} AfterIsBehind(events: seq<Event>, first: nat, id: nat)
    requires forall i :: 0 <= i < |events| ==> events[i].id == first + i
    ensures After(events, id) == Behind(events, first, id)
    decreases |events|
  {
    if |events| > 0 {
      hide After, Behind;
      var init, last := events[..|events| - 1], events[|events| - 1];
      assert init + [last] == events;
      AfterIsBehind(init, first, id);
      BehindOneMore(init, last, first, id);
      AfterOneMore(init, last, id);
    }
  }

  lemma {:induction false} AdvancedTo(cursor: nat, events: seq<Event>, first: nat)
    requires forall i :: 0 <= i < |events| ==> events[i].id == first + i
    requires cursor < first
    ensures Advanced(cursor, events) == if |events| == 0 then cursor else events[|events| - 1].id
    decreases |events|
  {
    if |events| > 0 { AdvancedTo(cursor, events[..|events| - 1], first); }
  }

  lemma NewestJoins(a: seq<Event>, b: seq<Event>)
    ensures Newest(Newest(a, CAP) + b, CAP) == Newest(a + b, CAP)
  {
    if |a| > CAP {
      var k := |a| - CAP;
      assert a == a[..k] + a[k..];
      assert a + b == a[..k] + (a[k..] + b);
    }
  }

  lemma StretchStays(a: seq<Event>, b: seq<Event>, lo: nat, hi: nat)
    requires lo <= hi <= |a|
    ensures (a + b)[lo..hi] == a[lo..hi]
  {}

  lemma PublishKeeps(v: Viewer, kind: string, users: seq<string>, now: int)
    requires FeedOk(v) && ViewOk(v)
    ensures FeedOk(Do(v, Publish(kind, users, now))) && ViewOk(Do(v, Publish(kind, users, now)))
  {
    var b := Block(v.feed.lastId, kind, users, now);
    NewestJoins(v.history, b);
    StretchStays(v.history, b, v.cursor - |v.received|, v.cursor);
    hide Newest, Block;
    assert |users| == 0 ==> v.history + b == v.history;
  }

  lemma TailOfTail(a: seq<Event>, i: nat, j: nat)
    requires i <= j <= |a|
    ensures a[i..][j - i..] == a[j..]
  {}

  lemma NewestOfNewest(a: seq<Event>)
    ensures Newest(Newest(a, CAP), FIRST_LOAD) == Newest(a, FIRST_LOAD)
  {
    if |a| > CAP { TailOfTail(a, |a| - CAP, |a| - FIRST_LOAD); }
  }

  lemma LastIsNewest(history: seq<Event>, f: Feed)
    requires f.events == Newest(history, CAP) && forall i :: 0 <= i < |history| ==> history[i].id == i + 1
    ensures LastOf(f) == |history|
  {}

  lemma BehindTail(history: seq<Event>, first: nat, cursor: nat)
    requires first <= |history| && cursor <= |history|
    ensures Behind(history[first..], first + 1, cursor)
         == if first <= cursor then history[cursor..] else history[first..]
  {
    if first <= cursor { TailOfTail(history, first, cursor); }
  }

  /** What of an end of the history is behind the cursor. */
  lemma HeldTail(history: seq<Event>, events: seq<Event>, cursor: nat)
    requires forall i :: 0 <= i < |history| ==> history[i].id == i + 1
    requires |events| <= |history| && events == history[|history| - |events|..] && cursor <= |history|
    ensures After(events, cursor) == if |history| - cursor <= |events| then history[cursor..] else events
  {
    var first := |history| - |events|;
    hide After, Behind;
    forall i | 0 <= i < |events| ensures events[i].id == first + 1 + i {
      assert events[i] == history[first + i];
    }
    AfterIsBehind(events, first + 1, cursor);
    BehindTail(history, first, cursor);
  }

  /** What a poll hands out, and that it loses nothing exactly when the backlog fits the cap. */
  lemma PollHands(v: Viewer)
    requires FeedOk(v) && v.cursor <= |v.history|
    ensures v.cursor == 0 ==> Load(v.feed, 0) == Newest(v.history, FIRST_LOAD)
    ensures v.cursor > 0 ==> (Load(v.feed, v.cursor) == v.history[v.cursor..] <==> |v.history| - v.cursor <= CAP)
    ensures LastOf(v.feed) == |v.history|
  {
    NewestIs(v.history, CAP);
    NewestOfNewest(v.history);
    LastIsNewest(v.history, v.feed);
    hide Newest, After, LastOf;
    HeldTail(v.history, v.feed.events, v.cursor);
  }

  /** A client that keeps up is handed a non-empty end of the history, or nothing new. */
  lemma PollTakesTail(v: Viewer)
    requires FeedOk(v) && ViewOk(v) && KeepsUp(v, Poll)
    ensures var got := Load(v.feed, v.cursor);
            && |got| <= |v.history| && got == v.history[|v.history| - |got|..]
            && (v.cursor > 0 ==> |got| == |v.history| - v.cursor)
            && (v.cursor == 0 && |v.history| > 0 ==> |got| > 0)
  {
    PollHands(v);
    hide Load;
  }

  lemma PollKeeps(v: Viewer)
    requires FeedOk(v) && ViewOk(v) && KeepsUp(v, Poll)
    ensures FeedOk(Do(v, Poll)) && ViewOk(Do(v, Poll)) && Do(v, Poll).cursor == |v.history|
  {
    hide ViewOk, Load, After, Advanced, LastOf, Newest;
    CursorFits(v);
    PollHands(v);
    PollTakesTail(v);
    var got, n := Load(v.feed, v.cursor), |v.history|;
    TailAdvances(v.history, v.cursor, got);
    assert Do(v, Poll) == v.(cursor := n, received := v.received + got);
    Joined(v, got);
  }

  lemma CursorFits(v: Viewer)
    requires ViewOk(v)
    ensures v.cursor <= |v.history|
  {}

  lemma TailAdvances(history: seq<Event>, cursor: nat, got: seq<Event>)
    requires forall i :: 0 <= i < |history| ==> history[i].id == i + 1
    requires |got| <= |history| && got == history[|history| - |got|..] && cursor <= |history| - |got|
    ensures Advanced(cursor, got) == if |got| == 0 then cursor else |history|
  {
    forall i | 0 <= i < |got| ensures got[i].id == |history| - |got| + 1 + i {
      assert got[i] == history[|history| - |got| + i];
    }
    AdvancedTo(cursor, got, |history| - |got| + 1);
  }

  lemma Joined(v: Viewer, got: seq<Event>)
    requires ViewOk(v) && |got| <= |v.history| && got == v.history[|v.history| - |got|..]
    requires v.cursor > 0 ==> |got| == |v.history| - v.cursor
    requires v.cursor == 0 && |v.history| > 0 ==> |got| > 0
    ensures ViewOk(v.(cursor := |v.history|, received := v.received + got))
  {
    var n, all := |v.history|, v.received + got;
    assert all == v.history[n - |all|..n];
  }

  lemma {:induction false} RunKeeps(v: Viewer, ops: seq<Op>, v': Viewer)
    requires FeedOk(v) && ViewOk(v) && Runs(v, ops, v')
    ensures FeedOk(v') && ViewOk(v')
    decreases |ops|
  {
    if |ops| > 0 {
      match ops[0] {
        case Publish(kind, users, now) => PublishKeeps(v, kind, users, now);
        case Poll => PollKeeps(v);
      }
      hide FeedOk, ViewOk, Do, KeepsUp;
      RunKeeps(Do(v, ops[0]), ops[1..], v');
    }
  }

  lemma Gapless(v: Viewer)
    requires FeedOk(v) && ViewOk(v)
    ensures v.feed.events == Newest(v.history, CAP)
    ensures forall i :: 0 <= i < |v.received| ==> v.received[i].id == v.cursor - |v.received| + i + 1
    ensures v.cursor <= |v.history| && (|v.received| > 0 <==> v.cursor > 0)
  {
    hide Newest;
  }

  /** The feed is always the newest hundred events, and a client that polls often enough receives,
      from its first load on, every event once and in order, up to the newest. */
  lemma CursorMissesNothing(ops: seq<Op>, v: Viewer)
    requires Runs(FRESH, ops, v)
    ensures v.feed.events == Newest(v.history, CAP)
    ensures forall i :: 0 <= i < |v.received| ==> v.received[i].id == v.cursor - |v.received| + i + 1
    ensures v.cursor <= |v.history| && (|v.received| > 0 <==> v.cursor > 0)
    ensures KeepsUp(v, Poll) ==> Do(v, Poll).cursor == |v.history|
  {
    assert FeedOk(FRESH) && ViewOk(FRESH);
    hide Runs, Do, KeepsUp, Newest, FeedOk, ViewOk;
    RunKeeps(FRESH, ops, v);
    Gapless(v);
    if KeepsUp(v, Poll) { PollKeeps(v); }
  }
}
