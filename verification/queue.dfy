/** One movie's admission queue. Each Redis script is one atomic function on the four
    sorted sets; `Change` says what a script did in terms of users and notices. */
module Queues {
  import opened SortedSets
  import opened Journal

  /** active: seats in use, score = entry time. waiting: the line, score = arrival.
      lastseen: liveness stamps. pending: the publish journal. promoted: counter. */
  datatype Queue = Queue(active: Zset, waiting: Zset, lastseen: Zset, pending: Zset, promoted: nat)

  const EMPTY := Queue([], [], [], [], 0)
  const EXPIRE_LIMIT := 1000

  datatype EnterReply = AlreadyActive(count: nat) | Admitted(count: nat) | Waiting(rank: nat, total: nat)
  datatype PositionReply = InSession | Expired | InLine(position: nat, behind: nat)

  function Min(a: int, b: int): int { if a < b then a else b }

  // ---- the scripts ----

  /** Capacity check, then a seat or a place in line. */
  function Enter(q: Queue, max: int, user: string, now: int): (Queue, EnterReply) {
    if user in Scores(q.active) then (q, AlreadyActive(|q.active|))
    else if user !in Scores(q.waiting) && |q.active| < max then
      (q.(active := Zadd(q.active, now, user),
          pending := Zadd(q.pending, now, Encode(Admit(ViaEnter, user)))),
       Admitted(|q.active| + 1))
    else
      var w := Zadd(q.waiting, now, user);
      (q.(waiting := w, lastseen := Zadd(q.lastseen, now, user)), Waiting(Zrank(w, user) + 1, |w|))
  }

  /** How many the promotion moves: vacancy and batch, and no more than are waiting. */
  function PromoteCount(q: Queue, max: int, batch: int): (n: nat)
    ensures n <= |q.waiting|
  {
    var n := Min(Min(max - |q.active|, batch), |q.waiting|);
    if n <= 0 then 0 else n
  }

  function MoveIn(q: Queue, user: string, now: int): Queue {
    q.(waiting := Zrem(q.waiting, user),
       lastseen := Zrem(q.lastseen, user),
       active := Zadd(q.active, now, user),
       pending := Zadd(q.pending, now, Encode(Admit(ViaPromote, user))))
  }

  function MoveAll(q: Queue, users: seq<string>, now: int): Queue {
    if |users| == 0 then q
    else MoveIn(MoveAll(q, users[..|users| - 1], now), users[|users| - 1], now)
  }

  /** Moves the head of the line into the free seats. */
  function Promote(q: Queue, max: int, batch: int, now: int): (Queue, seq<string>) {
    var users := Names(q.waiting[..PromoteCount(q, max, batch)]);
    var q' := MoveAll(q, users, now);
    (q'.(promoted := q.promoted + |users|), users)
  }

  /** The journal lines of a promotion. */
  function PromoteLines(users: seq<string>): seq<string> {
    if |users| == 0 then [] else PromoteLines(users[..|users| - 1]) + [Encode(Admit(ViaPromote, users[|users| - 1]))]
  }

  function AdmitLines(user: string): seq<string> {
    [Encode(Admit(ViaEnter, user)), Encode(Admit(ViaPromote, user))]
  }

  /** Leaves the session and the line; a seat holder owes booking a revoke. */
  function Leave(q: Queue, user: string, now: int): (Queue, nat) {
    var wasActive := user in Scores(q.active);
    var wasWaiting := user in Scores(q.waiting);
    var p := ZremAll(q.pending, AdmitLines(user));
    (q.(active := Zrem(q.active, user),
        waiting := Zrem(q.waiting, user),
        lastseen := Zrem(q.lastseen, user),
        pending := if wasActive then Zadd(p, now, Encode(Revoke(OnLeave, user))) else p),
     (if wasActive then 1 else 0) + (if wasWaiting then 2 else 0))
  }

  /** Gives the seat back; the line is not touched. */
  function Release(q: Queue, user: string, now: int): (Queue, bool) {
    var wasActive := user in Scores(q.active);
    var p := ZremAll(q.pending, AdmitLines(user));
    (q.(active := Zrem(q.active, user),
        pending := if wasActive then Zadd(p, now, Encode(Revoke(OnComplete, user))) else p),
     wasActive)
  }

  /** Booking reported a confirmed booking: seat back, no revoke owed. */
  function Complete(q: Queue, user: string): (Queue, bool) {
    (q.(active := Zrem(q.active, user), pending := ZremAll(q.pending, AdmitLines(user))),
     user in Scores(q.active))
  }

  function RevokeOne(p: Zset, user: string, now: int): Zset {
    Zadd(ZremAll(p, AdmitLines(user)), now, Encode(Revoke(OnTimeout, user)))
  }

  function RevokeAll(p: Zset, users: seq<string>, now: int): Zset {
    if |users| == 0 then p
    else RevokeOne(RevokeAll(p, users[..|users| - 1], now), users[|users| - 1], now)
  }

  /** Sessions whose entry time is in 0..cutoff end, at most 1000 a call. */
  function ExpireActive(q: Queue, cutoff: int, now: int): (Queue, seq<string>) {
    var users := RangeByScore(q.active, 0, cutoff, EXPIRE_LIMIT);
    (q.(active := ZremAll(q.active, users), pending := RevokeAll(q.pending, users, now)), users)
  }

  /** Waiters whose last poll is in 0..cutoff lose their place, at most 1000 a call. */
  function ExpireWaiting(q: Queue, cutoff: int): (Queue, seq<string>) {
    var users := RangeByScore(q.lastseen, 0, cutoff, EXPIRE_LIMIT);
    (q.(lastseen := ZremAll(q.lastseen, users), waiting := ZremAll(q.waiting, users)), users)
  }

  /** In session, in line (stamping liveness), or neither. */
  function Position(q: Queue, user: string, now: int): (Queue, PositionReply) {
    if user in Scores(q.active) then (q, InSession)
    else if user !in Scores(q.waiting) then (q, Expired)
    else
      var position := Zrank(q.waiting, user) + 1;
      (q.(lastseen := Zadd(q.lastseen, now, user)), InLine(position, |q.waiting| - position))
  }

  /** Removes published lines from the journal. */
  function ClearPending(q: Queue, lines: seq<string>): Queue {
    q.(pending := ZremAll(q.pending, lines))
  }

  // ---- what a script changed ----

  /** Users that gained or lost a seat, joined or left the line, polled; notices written;
      users whose admit lines were withdrawn; lines dropped; the time stamped on new lines. */
  datatype Change = Change(admitted: set<string>, removed: set<string>, joined: set<string>, gone: set<string>,
                           seen: set<string>, added: set<Notice>, cleared: set<string>, dropped: set<string>,
                           stamp: int)

  const NO_CHANGE := Change({}, {}, {}, {}, {}, {}, {}, {}, 0)

  ghost predicate Owes(q: Queue, n: Notice) { Encode(n) in Scores(q.pending) }

  ghost function OwedSince(q: Queue, n: Notice): int
    requires Owes(q, n)
  {
    Scores(q.pending)[Encode(n)]
  }

  ghost predicate Kept(p: Zset, c: Change, n: Notice) {
    Encode(n) in Scores(p) && !(n.Admit? && n.user in c.cleared) && Encode(n) !in c.dropped
  }

  ghost predicate JournalStep(p: Zset, p': Zset, c: Change) {
    && (forall n :: Encode(n) in Scores(p') <==> n in c.added || Kept(p, c, n))
    && (forall n :: n in c.added ==> Scores(p')[Encode(n)] == c.stamp)
    && (forall n :: Encode(n) in Scores(p') && n !in c.added ==> Scores(p')[Encode(n)] == Scores(p)[Encode(n)])
    && (forall k :: k in Scores(p') ==> k in Scores(p) || exists n :: n in c.added && k == Encode(n))
  }

  ghost predicate Moves(q: Queue, q': Queue, c: Change) {
    && Scores(q'.active).Keys == Scores(q.active).Keys - c.removed + c.admitted
    && Scores(q'.waiting).Keys == Scores(q.waiting).Keys - c.gone + c.joined
    && Scores(q'.lastseen).Keys == Scores(q.lastseen).Keys - c.gone + c.joined + c.seen
  }

  ghost predicate Applies(q: Queue, q': Queue, c: Change) {
    Moves(q, q', c) && JournalStep(q.pending, q'.pending, c)
  }

  /** A change that moves users between the states coherently. */
  ghost predicate Coherent(q: Queue, c: Change) {
    && c.admitted !! Scores(q.active).Keys
    && c.admitted !! c.removed
    && c.admitted * Scores(q.waiting).Keys <= c.gone
    && c.joined !! (Scores(q.active).Keys + c.admitted)
    && c.seen <= Scores(q.waiting).Keys - c.gone
    && c.removed <= c.cleared && c.removed <= Scores(q.active).Keys
    && c.cleared !! c.admitted
    && (forall n :: n in c.added ==> n.user in if n.Admit? then c.admitted else c.removed)
    && (forall u :: u in c.admitted ==> Admit(ViaEnter, u) in c.added || Admit(ViaPromote, u) in c.added)
    && (forall u :: !(Admit(ViaEnter, u) in c.added && Admit(ViaPromote, u) in c.added))
  }

  ghost predicate EveryRemovalRevoked(c: Change) {
    forall u :: u in c.removed ==> exists cause :: Revoke(cause, u) in c.added
  }

  // ---- journal steps ----

  lemma AddLine(p: Zset, now: int, n: Notice)
    ensures JournalStep(p, Zadd(p, now, Encode(n)), NO_CHANGE.(added := {n}, stamp := now))
  {}

  lemma WithdrawLines(p: Zset, user: string)
    ensures JournalStep(p, ZremAll(p, AdmitLines(user)), NO_CHANGE.(cleared := {user}))
  {
    TwoLines(Admit(ViaEnter, user), Admit(ViaPromote, user));
    hide Encode, Without, Scores;
  }

  lemma TwoLines(a: Notice, b: Notice)
    ensures forall n :: Encode(n) in ToSet([Encode(a), Encode(b)]) <==> n == a || n == b
  {
    TwoStrings(Encode(a), Encode(b));
    forall n ensures Encode(n) in ToSet([Encode(a), Encode(b)]) <==> n == a || n == b {
      assert Decode(Encode(n)) == Some(n);
    }
  }

  lemma TwoStrings(a: string, b: string)
    ensures forall s :: s in ToSet([a, b]) <==> s == a || s == b
  {
    assert [a, b][0] == a && [a, b][1] == b;
  }

  lemma RevokeOneStep(p: Zset, user: string, now: int, n: Notice)
    requires n.Revoke? && n.user == user
    ensures JournalStep(p, Zadd(ZremAll(p, AdmitLines(user)), now, Encode(n)),
                        NO_CHANGE.(added := {n}, cleared := {user}, stamp := now))
  {
    WithdrawLines(p, user);
    AddLine(ZremAll(p, AdmitLines(user)), now, n);
  }

  ghost function Timeouts(users: seq<string>): set<Notice> { set u | u in users :: Revoke(OnTimeout, u) }

  ghost function Promotions(users: seq<string>): set<Notice> { set u | u in users :: Admit(ViaPromote, u) }

  lemma NoticesStep(users: seq<string>)
    requires |users| > 0
    ensures var init, u := users[..|users| - 1], users[|users| - 1];
            && ToSet(users) == ToSet(init) + {u}
            && Timeouts(users) == Timeouts(init) + {Revoke(OnTimeout, u)}
            && Promotions(users) == Promotions(init) + {Admit(ViaPromote, u)}
  {
    assert users == users[..|users| - 1] + [users[|users| - 1]];
  }

  lemma RemoveTwice(m: map<string, int>, a: set<string>, u: string)
    ensures (m - a) - {u} == m - (a + {u})
  {}

  /** Two journal steps in a row, the second not withdrawing what the first wrote. */
  lemma JournalStepsCompose(p: Zset, p1: Zset, p2: Zset, c1: Change, c2: Change)
    requires JournalStep(p, p1, c1) && JournalStep(p1, p2, c2)
    requires c1.stamp == c2.stamp && c1.dropped == c2.dropped == {}
    requires forall n :: n in c1.added && n.Admit? ==> n.user !in c2.cleared
    ensures JournalStep(p, p2, c1.(added := c1.added + c2.added, cleared := c1.cleared + c2.cleared))
  {}

  lemma {:induction false} RevokeAllStep(p: Zset, users: seq<string>, now: int)
    ensures JournalStep(p, RevokeAll(p, users, now),
                        NO_CHANGE.(added := Timeouts(users), cleared := ToSet(users), stamp := now))
    decreases |users|
  {
    if |users| > 0 {
      var init, u := users[..|users| - 1], users[|users| - 1];
      var c1 := NO_CHANGE.(added := Timeouts(init), cleared := ToSet(init), stamp := now);
      var c2 := NO_CHANGE.(added := {Revoke(OnTimeout, u)}, cleared := {u}, stamp := now);
      RevokeAllStep(p, init, now);
      RevokeOneStep(RevokeAll(p, init, now), u, now, Revoke(OnTimeout, u));
      JournalStepsCompose(p, RevokeAll(p, init, now), RevokeAll(p, users, now), c1, c2);
      NoticesStep(users);
    }
  }

  lemma {:induction false} MoveAllJournal(q: Queue, users: seq<string>, now: int)
    ensures JournalStep(q.pending, MoveAll(q, users, now).pending,
                        NO_CHANGE.(added := Promotions(users), stamp := now))
    decreases |users|
  {
    if |users| > 0 {
      var init, u := users[..|users| - 1], users[|users| - 1];
      var c1 := NO_CHANGE.(added := Promotions(init), stamp := now);
      var c2 := NO_CHANGE.(added := {Admit(ViaPromote, u)}, stamp := now);
      MoveAllJournal(q, init, now);
      AddLine(MoveAll(q, init, now).pending, now, Admit(ViaPromote, u));
      JournalStepsCompose(q.pending, MoveAll(q, init, now).pending, MoveAll(q, users, now).pending, c1, c2);
      NoticesStep(users);
    }
  }

  lemma {:induction false} MoveAllLeaves(q: Queue, users: seq<string>, now: int)
    ensures Scores(MoveAll(q, users, now).waiting) == Scores(q.waiting) - ToSet(users)
    ensures Scores(MoveAll(q, users, now).lastseen) == Scores(q.lastseen) - ToSet(users)
    decreases |users|
  {
    if |users| > 0 {
      var init, u := users[..|users| - 1], users[|users| - 1];
      MoveAllLeaves(q, init, now);
      NoticesStep(users);
      RemoveTwice(Scores(q.waiting), ToSet(init), u);
      RemoveTwice(Scores(q.lastseen), ToSet(init), u);
    }
  }

  lemma {:induction false} MoveAllSeats(q: Queue, users: seq<string>, now: int)
    ensures Scores(MoveAll(q, users, now).active).Keys == Scores(q.active).Keys + ToSet(users)
    ensures MoveAll(q, users, now).promoted == q.promoted
    decreases |users|
  {
    if |users| > 0 {
      MoveAllSeats(q, users[..|users| - 1], now);
      NoticesStep(users);
    }
  }

  lemma {:induction false} PromoteLinesNamed(users: seq<string>)
    ensures forall n :: Encode(n) in PromoteLines(users) <==> n.Admit? && n.via.ViaPromote? && n.user in users
    decreases |users|
  {
    if |users| > 0 {
      var init, u := users[..|users| - 1], users[|users| - 1];
      assert users == init + [u];
      PromoteLinesNamed(init);
      forall n: Notice
        ensures Encode(n) in PromoteLines(users) <==> Encode(n) in PromoteLines(init) || n == Admit(ViaPromote, u)
      {
        assert Decode(Encode(n)) == Some(n);
      }
    }
  }
}
