/** Calls of one key that ask for different seats: exactly when another call may start. */
module ConfirmStarts {
  import opened SortedSets
  import opened SeatRequests
  import opened BookingTables
  import opened BookingInvariants
  import opened Confirms
  import opened ConfirmSettlement
  import opened ConfirmRefunds

  lemma EndsUnsettledBefore(cfg: Config, w: World, acts: seq<Action>, w': World, key: string)
    requires OrderlyRun(cfg, w, acts, w') && !EndsSettled(cfg, w', key)
    ensures !EndsSettled(cfg, w, key)
  {
    hide OrderlyRun, Quiet, Settled;
    var more, end :| OrderlyRun(cfg, w', more, end) && Quiet(end, key) && !Settled(end.books, key);
    OrderlyRunJoins(cfg, w, acts, w', more, end);
  }

  // ---- a call goes to its transaction ----

  /** The checks of the call's seats are behind it, or would pass. */
  predicate Heads(cfg: Config, s: Books, c: Call) {
    c.phase.Renew? || c.phase.Approve? || c.phase.Persist? || MayBook(cfg, s, c)
  }

  lemma HeadsOn(cfg: Config, c: Call, s: Books, id: string)
    requires Heads(cfg, s, c) && KeyFree(s.db, c.key) && !c.phase.Persist?
    ensures var (p, s') := Advance(cfg, c, s, FineEnv(id)); s'.db == s.db && Heads(cfg, s', c.(phase := p))
  {
    FindFacts(s.db.bookings, c.key);
    SeatsRealOfStep(cfg, c, Advance(cfg, c, s, FineEnv(id)).0);
    hide Persisted, CanPersist, KeyFree, SeatsReal, SeatsUnsold;
  }

  lemma {:induction false} ToPersist(cfg: Config, w: World, id: nat) returns (acts: seq<Action>, w': World)
    requires WorldInv(cfg, w) && id in w.calls && Heads(cfg, w.books, w.calls[id])
    requires KeyFree(w.books.db, w.calls[id].key)
    ensures OrderlyRun(cfg, w, acts, w') && WorldInv(cfg, w') && w'.books.db == w.books.db
    ensures w'.calls == w.calls[id := w.calls[id].(phase := Phase.Persist)]
    decreases Rank(w.calls[id].phase)
  {
    hide WorldInv, KeyFree, SeatsReal, SeatsUnsold, Orderly, Advance;
    if w.calls[id].phase.Persist? {
      acts, w' := [], w;
    } else {
      var unused := UnusedId(w.books.db);
      var a := Go(id, FineEnv(unused));
      FineGoIsOrderly(cfg, w, id, unused);
      GoKeepsWorld(cfg, w, id, a.env);
      HeadsOn(cfg, w.calls[id], w.books, unused);
      StepLowersRank(cfg, w.calls[id], w.books, a.env);
      var rest;
      rest, w' := ToPersist(cfg, Next(cfg, w, a), id);
      OneStep(cfg, w, a);
      OrderlyRunJoins(cfg, w, [a], Next(cfg, w, a), rest, w');
      acts := [a] + rest;
    }
  }

  lemma LoserIsRefused(cfg: Config, w: World, l: nat, id: string)
    requires l in w.calls && w.calls[l].phase.Persist? && !SeatsUnsold(w.books.db, w.calls[l])
    ensures Next(cfg, w, Go(l, FineEnv(id))) == w.(calls := w.calls[l := w.calls[l].(phase := Phase.Recover)])
  {
    hide IdFree, KeyFree, SeatFree, Persisted;
  }

  /** A call at its transaction has lost a seat while another of the key can book: it refunds last. */
  lemma LoserEndsUnsettled(cfg: Config, w: World, l: nat, o: nat)
    requires WorldInv(cfg, w) && l in w.calls && w.calls[l].phase.Persist? && !SeatsUnsold(w.books.db, w.calls[l])
    requires KeyFree(w.books.db, w.calls[l].key)
    requires o != l && Live(w, o, w.calls[l].key) && MayBook(cfg, w.books, w.calls[o])
    ensures !EndsSettled(cfg, w, w.calls[l].key)
  {
    var unused := UnusedId(w.books.db);
    var a := Go(l, FineEnv(unused));
    var w1 := w.(calls := w.calls[l := w.calls[l].(phase := Phase.Recover)]);
    hide WorldInv, KeyFree, SeatsReal, SeatsUnsold, EndsSettled, Orderly, Next, IdFree, OrderlyRun;
    LoserIsRefused(cfg, w, l, unused);
    FineGoIsOrderly(cfg, w, l, unused);
    GoKeepsWorld(cfg, w, l, a.env);
    OneStep(cfg, w, a);
    assert Live(w1, o, w1.calls[l].key) && Rival(cfg, w1, l);
    UnpayingEndsUnsettled(cfg, w1, l);
    EndsUnsettledBefore(cfg, w, [a], w1, w.calls[l].key);
  }

  // ---- somebody else buys a seat ----

  lemma {:induction false} KeysAreShort(bs: seq<Booking>) returns (n: nat)
    ensures forall b :: b in bs ==> |b.key| < n
  {
    if |bs| == 0 {
      n := 0;
    } else {
      var m := KeysAreShort(bs[1..]);
      n := if m > |bs[0].key| then m else |bs[0].key| + 1;
      assert bs == [bs[0]] + bs[1..];
    }
  }

  /** A key longer than all there are, and a number above all calls. */
  lemma {:induction false} Above(calls: map<nat, Call>, ids: set<nat>) returns (n: nat, id: nat)
    requires ids <= calls.Keys
    ensures forall o :: o in ids ==> |calls[o].key| < n && o < id
    decreases ids
  {
    if ids == {} {
      n, id := 0, 0;
    } else {
      var o :| o in ids;
      var m, i := Above(calls, ids - {o});
      n := if m > |calls[o].key| then m else |calls[o].key| + 1;
      id := if i > o then i else o + 1;
    }
  }

  lemma NewCustomer(w: World) returns (key: string, id: nat)
    ensures id !in w.calls && KeyFree(w.books.db, key) && forall o :: o in w.calls ==> w.calls[o].key != key
  {
    var m := KeysAreShort(w.books.db.bookings);
    var n;
    n, id := Above(w.calls, w.calls.Keys);
    key := seq(m + n, _ => 'x');
  }

  /** A new customer's request for one seat begins its look-up. */
  lemma CustomerStarts(cfg: Config, w: World, id: nat, r: Request, x: string)
    requires WorldInv(cfg, w) && id !in w.calls && (forall o :: o in w.calls ==> w.calls[o].key != r.key)
    requires r.screening in cfg.screenings && Normalize(r.raw, cfg.maxSeats) == Seats([x])
    ensures Orderly(cfg, w, Start(id, r))
    ensures Next(cfg, w, Start(id, r))
         == w.(calls := w.calls[id := Call(r.screening, [x], r.user, r.key, false, Lookup)])
  {
    hide Normalize, MayBook, Inert, KeyFree;
    assert forall o :: !Live(w, o, r.key);
    assert w.calls == map o | o in w.calls :: w.calls[o];
  }

  /** What the purchase of seat x of sc leaves as it was. */
  ghost predicate Bought(w: World, w': World, sc: string, x: string) {
    && !SeatFree(w'.books.db, sc, x)
    && (forall t, y :: SeatFree(w.books.db, t, y) && (t != sc || y != x) ==> SeatFree(w'.books.db, t, y))
    && (forall o :: o in w.calls ==> o in w'.calls && w'.calls[o] == w.calls[o])
    && forall o :: o in w.calls && KeyFree(w.books.db, w.calls[o].key) ==> KeyFree(w'.books.db, w.calls[o].key)
  }

  lemma OneSeatTaken(db: Tables, b: Booking, sc: string, x: string)
    ensures var db' := Persisted(db, b, sc, [x]);
            && !SeatFree(db', sc, x)
            && forall t, y :: SeatFree(db, t, y) && (t != sc || y != x) ==> SeatFree(db', t, y)
  {
    SortedFacts([x]);
    RowsAre(b.id, sc, Sorted([x]));
    hide Rows, Sorted;
    assert SeatRow(b.id, sc, x) in Persisted(db, b, sc, [x]).seats;
  }

  /** The customer's transaction commits. */
  lemma CustomerCommits(cfg: Config, w: World, id: nat, sc: string, x: string, unused: string)
    requires WorldInv(cfg, w) && id in w.calls && IdFree(w.books.db, unused) && KeyFree(w.books.db, w.calls[id].key)
    requires w.calls[id].phase.Persist? && w.calls[id].screening == sc && w.calls[id].seats == [x]
    requires SeatFree(w.books.db, sc, x)
    ensures var w' := Next(cfg, w, Go(id, FineEnv(unused)));
            && !SeatFree(w'.books.db, sc, x)
            && (forall t, y :: SeatFree(w.books.db, t, y) && (t != sc || y != x) ==> SeatFree(w'.books.db, t, y))
            && (forall k :: k != w.calls[id].key && KeyFree(w.books.db, k) ==> KeyFree(w'.books.db, k))
            && (forall o :: o in w.calls && o != id ==> o in w'.calls && w'.calls[o] == w.calls[o])
  {
    var c, s, e := w.calls[id], w.books, FineEnv(unused);
    RefusedMeans(cfg, c, s, e);
    AdvanceDb(cfg, c, s, e);
    OneSeatTaken(s.db, BookingOf(cfg, c, unused), sc, x);
    forall k | k != c.key && KeyFree(s.db, k) ensures KeyFree(Advance(cfg, c, s, e).1.db, k) {
      DbGrows(cfg, c, s, e, c.(key := k));
    }
    hide Advance, WorldInv, Commits, SeatFree, KeyFree, IdFree;
  }

  lemma CustomerMayBook(cfg: Config, s: Books, c: Call, x: string)
    requires c.seats == [x] && c.phase.Lookup? && (c.screening, x) in cfg.seats && SeatFree(s.db, c.screening, x)
    ensures MayBook(cfg, s, c)
  {
    hide SeatFree;
  }

  /** A new customer asks for the seat. */
  lemma CustomerBegins(cfg: Config, w: World, sc: string, x: string)
    returns (start: Action, w': World, id: nat, key: string)
    requires WorldInv(cfg, w) && sc in cfg.screenings && exists y :: Normalize([y], cfg.maxSeats) == Seats([x])
    ensures OrderlyRun(cfg, w, [start], w') && WorldInv(cfg, w')
    ensures id !in w.calls && KeyFree(w.books.db, key) && forall o :: o in w.calls ==> w.calls[o].key != key
    ensures w' == w.(calls := w.calls[id := Call(sc, [x], "", key, false, Lookup)])
  {
    hide WorldInv, KeyFree, Normalize, Orderly, OrderlyRun, Next;
    var y :| Normalize([y], cfg.maxSeats) == Seats([x]);
    key, id := NewCustomer(w);
    var r := Request(sc, [y], "", key);
    start := Start(id, r);
    CustomerStarts(cfg, w, id, r, x);
    StartKeepsWorld(cfg, w, id, r);
    OneStep(cfg, w, start);
    w' := Next(cfg, w, start);
  }

  /** A new customer asks for the seat and goes to the transaction. */
  lemma CustomerArrives(cfg: Config, w: World, sc: string, x: string)
    returns (acts: seq<Action>, w': World, id: nat, key: string)
    requires WorldInv(cfg, w) && sc in cfg.screenings && (sc, x) in cfg.seats && SeatFree(w.books.db, sc, x)
    requires exists y :: Normalize([y], cfg.maxSeats) == Seats([x])
    ensures OrderlyRun(cfg, w, acts, w') && WorldInv(cfg, w') && w'.books.db == w.books.db
    ensures id !in w.calls && KeyFree(w.books.db, key) && forall o :: o in w.calls ==> w.calls[o].key != key
    ensures w'.calls == w.calls[id := Call(sc, [x], "", key, false, Phase.Persist)]
  {
    hide WorldInv, KeyFree, SeatFree, Normalize, OrderlyRun, MayBook;
    var start, w1, a1;
    start, w1, id, key := CustomerBegins(cfg, w, sc, x);
    CustomerMayBook(cfg, w1.books, w1.calls[id], x);
    a1, w' := ToPersist(cfg, w1, id);
    OrderlyRunJoins(cfg, w, [start], w1, a1, w');
    acts := [start] + a1;
  }

  lemma SeatIsBought(cfg: Config, w: World, sc: string, x: string) returns (acts: seq<Action>, w': World)
    requires WorldInv(cfg, w) && sc in cfg.screenings && (sc, x) in cfg.seats && SeatFree(w.books.db, sc, x)
    requires exists y :: Normalize([y], cfg.maxSeats) == Seats([x])
    ensures OrderlyRun(cfg, w, acts, w') && WorldInv(cfg, w') && Bought(w, w', sc, x)
  {
    hide WorldInv, KeyFree, SeatFree, Normalize, Orderly, OrderlyRun, Next, Bought;
    var a1, w1, id, key := CustomerArrives(cfg, w, sc, x);
    var unused := UnusedId(w1.books.db);
    var a := Go(id, FineEnv(unused));
    FineGoIsOrderly(cfg, w1, id, unused);
    GoKeepsWorld(cfg, w1, id, a.env);
    OneStep(cfg, w1, a);
    CustomerCommits(cfg, w1, id, sc, x, unused);
    w' := Next(cfg, w1, a);
    OrderlyRunJoins(cfg, w, a1, w1, [a], w');
    acts := a1 + [a];
    IsBought(w, w1, w', id, sc, x);
  }

  lemma IsBought(w: World, w1: World, w': World, id: nat, sc: string, x: string)
    requires id !in w.calls && w1.books.db == w.books.db && id in w1.calls
    requires forall o :: o in w.calls ==>
               o in w1.calls && w1.calls[o] == w.calls[o] && w.calls[o].key != w1.calls[id].key
    requires !SeatFree(w'.books.db, sc, x)
    requires forall t, y :: SeatFree(w1.books.db, t, y) && (t != sc || y != x) ==> SeatFree(w'.books.db, t, y)
    requires forall k :: k != w1.calls[id].key && KeyFree(w1.books.db, k) ==> KeyFree(w'.books.db, k)
    requires forall o :: o in w1.calls && o != id ==> o in w'.calls && w'.calls[o] == w1.calls[o]
    ensures Bought(w, w', sc, x)
  {
    hide KeyFree, SeatFree;
  }

  // ---- two calls of one key for different seats ----

  /** The purchase takes a seat from one call, and nothing from the other. */
  lemma AfterPurchase(cfg: Config, w: World, w': World, l: nat, o: nat, x: string)
    requires l in w.calls && o in w.calls && Bought(w, w', w.calls[l].screening, x) && x in w.calls[l].seats
    requires w.calls[o].screening != w.calls[l].screening || x !in w.calls[o].seats
    requires MayBook(cfg, w.books, w.calls[o]) && KeyFree(w.books.db, w.calls[l].key)
    ensures l in w'.calls && o in w'.calls && w'.calls[l] == w.calls[l] && w'.calls[o] == w.calls[o]
    ensures !SeatsUnsold(w'.books.db, w'.calls[l]) && MayBook(cfg, w'.books, w'.calls[o])
    ensures KeyFree(w'.books.db, w.calls[l].key)
  {
    hide SeatFree, KeyFree;
  }

  /** One of them pays, loses a seat the other does not want, and refunds what both count on. */
  lemma OneLosesASeat(cfg: Config, w: World, l: nat, o: nat, x: string)
    requires WorldInv(cfg, w) && l in w.calls && o != l && Live(w, o, w.calls[l].key) && !w.calls[l].phase.Done?
    requires KeyFree(w.books.db, w.calls[l].key)
    requires MayBook(cfg, w.books, w.calls[l]) && MayBook(cfg, w.books, w.calls[o])
    requires x in w.calls[l].seats && (w.calls[o].screening != w.calls[l].screening || x !in w.calls[o].seats)
    ensures !EndsSettled(cfg, w, w.calls[l].key)
  {
    var key, sc := w.calls[l].key, w.calls[l].screening;
    assert Asked(cfg, w.calls[l]) && (sc, x) in cfg.seats && SeatFree(w.books.db, sc, x);
    hide WorldInv, KeyFree, SeatFree, Normalize, OrderlyRun, EndsSettled, Bought, SeatsReal, SeatsUnsold, Asked;
    var a1, w1 := ToPersist(cfg, w, l);
    var a2, w2 := SeatIsBought(cfg, w1, sc, x);
    OrderlyRunJoins(cfg, w, a1, w1, a2, w2);
    AfterPurchase(cfg, w1, w2, l, o, x);
    LoserEndsUnsettled(cfg, w2, l, o);
    EndsUnsettledBefore(cfg, w, a1 + a2, w2, key);
  }

  lemma SeatOfOne(a: seq<string>, b: seq<string>) returns (inA: bool, x: string)
    requires StrictlySorted(a) && StrictlySorted(b) && a != b
    ensures if inA then x in a && x !in b else x in b && x !in a
  {
    if s :| s in a && s !in b {
      inA, x := true, s;
    } else if s :| s in b && s !in a {
      inA, x := false, s;
    } else {
      assert ToSet(a) == ToSet(b);
      SortedSetsEqual(a, b);
    }
  }

  lemma DifferentSeats(cfg: Config, w: World, i: nat, j: nat)
    requires WorldInv(cfg, w) && Overlap(w, i, j) && KeyFree(w.books.db, w.calls[i].key)
    requires MayBook(cfg, w.books, w.calls[i]) && MayBook(cfg, w.books, w.calls[j])
    requires !SameSeats(w.calls[i], w.calls[j])
    ensures !EndsSettled(cfg, w, w.calls[i].key)
  {
    var a, b := w.calls[i], w.calls[j];
    assert CallOk(cfg, w.books.db, a) && CallOk(cfg, w.books.db, b) && Asked(cfg, a);
    hide WorldInv, KeyFree, EndsSettled, MayBook, CallOk;
    if a.screening != b.screening {
      OneLosesASeat(cfg, w, i, j, a.seats[0]);
    } else {
      var inA, x := SeatOfOne(a.seats, b.seats);
      if inA { OneLosesASeat(cfg, w, i, j, x); } else { OneLosesASeat(cfg, w, j, i, x); }
    }
  }

  // ---- exactly when it is safe ----

  /** An unfinished call of an unbooked key can only be turned away, can book, goes to a transaction
      that will be refused, or is about to take the payment back. */
  lemma CallOfUnbookedKey(cfg: Config, s: Books, c: Call)
    requires CallOk(cfg, s.db, c) && KeyFree(s.db, c.key) && !c.phase.Done?
    ensures || Inert(cfg, s.db, c) || MayBook(cfg, s, c) || Unpaying(s.db, c)
            || ((c.phase.Renew? || c.phase.Approve? || c.phase.Persist?) && !SeatsUnsold(s.db, c))
  {
    hide SeatsUnsold, SeatsReal;
  }

  /** Beside a call that can book, any other of the unbooked key is for the same seats and takes
      nothing back, or can only be turned away: else some way on ends unsettled. */
  lemma DisagreeingEndsUnsettled(cfg: Config, w: World, o: nat, id: nat)
    requires WorldInv(cfg, w) && Overlap(w, o, id) && KeyFree(w.books.db, w.calls[o].key)
    requires MayBook(cfg, w.books, w.calls[id]) && !Inert(cfg, w.books.db, w.calls[o])
    requires !SameSeats(w.calls[o], w.calls[id]) || Unpaying(w.books.db, w.calls[o])
    ensures !EndsSettled(cfg, w, w.calls[o].key)
  {
    var key, db := w.calls[o].key, w.books.db;
    CallOfUnbookedKey(cfg, w.books, w.calls[o]);
    hide WorldInv, KeyFree, EndsSettled, SeatsReal, SeatsUnsold, OrderlyRun;
    assert Live(w, id, key);
    if Unpaying(db, w.calls[o]) {
      assert Rival(cfg, w, o);
      UnpayingEndsUnsettled(cfg, w, o);
    } else if MayBook(cfg, w.books, w.calls[o]) {
      DifferentSeats(cfg, w, o, id);
    } else {
      assert !SeatsUnsold(db, w.calls[o]);
      var acts, w1 := ToPersist(cfg, w, o);
      SeatsRealOfStep(cfg, w.calls[o], Phase.Persist);
      LoserEndsUnsettled(cfg, w1, o, id);
      EndsUnsettledBefore(cfg, w, acts, w1, key);
    }
  }

  /** Starting a call of any seats is safe exactly when its key is booked, or its seats do not exist or
      are sold, or every unfinished call of the key is for the same seats and not about to take the
      payment back or can only be turned away: then every orderly continuation leaves the key settled;
      otherwise some orderly continuation leaves it booked and unpaid. */
  lemma StartIsSafeExactly(cfg: Config, w: World, id: nat, r: Request)
    requires WorldInv(cfg, w) && SettleInv(cfg, w) && id !in w.calls
    ensures var c, db := Begin(cfg, r), w.books.db;
            EndsSettled(cfg, Next(cfg, w, Start(id, r)), r.key)
            <==> (KeyFree(db, r.key) && MayBook(cfg, w.books, c) ==>
                    forall o :: o in w.calls && Live(w, o, r.key) ==>
                      Inert(cfg, db, w.calls[o]) || (SameSeats(w.calls[o], c) && !Unpaying(db, w.calls[o])))
  {
    var w' := Next(cfg, w, Start(id, r));
    StartKeepsWorld(cfg, w, id, r);
    if Orderly(cfg, w, Start(id, r)) {
      hide WorldInv, SettleInv, Begin, EndsSettled, Next, KeyFree, MayBook, Inert;
      StartKeeps(cfg, w, id, r);
      InvEndsSettled(cfg, w', r.key);
    } else {
      hide WorldInv, SettleInv, Begin, EndsSettled, KeyFree, MayBook, Inert, Next;
      var o :| o in w.calls && Live(w, o, r.key) && !Inert(cfg, w.books.db, w.calls[o])
               && !(SameSeats(w.calls[o], Begin(cfg, r)) && !Unpaying(w.books.db, w.calls[o]));
      StartedBeside(cfg, w, id, r, o);
      DisagreeingEndsUnsettled(cfg, w', o, id);
    }
  }

  lemma StartedBeside(cfg: Config, w: World, id: nat, r: Request, o: nat)
    requires id !in w.calls && Live(w, o, r.key) && MayBook(cfg, w.books, Begin(cfg, r))
    ensures var w' := Next(cfg, w, Start(id, r));
            && w'.books == w.books && Overlap(w', o, id) && w'.calls[o].key == r.key
            && MayBook(cfg, w'.books, w'.calls[id])
            && (Inert(cfg, w.books.db, w'.calls[o]) <==> Inert(cfg, w.books.db, w.calls[o]))
            && (SameSeats(w'.calls[o], w'.calls[id]) <==> SameSeats(w.calls[o], Begin(cfg, r)))
            && (Unpaying(w.books.db, w'.calls[o]) <==> Unpaying(w.books.db, w.calls[o]))
  {
    var w' := Next(cfg, w, Start(id, r));
    BeginPhase(cfg, r);
    NewIsNotInert(cfg, w, id, r);
    StartKeepsCall(cfg, w, id, r, o);
    SharedIsNoMatter(cfg, w.books, w.calls[o], w'.calls[o]);
    SharedIsNoMatter(cfg, w.books, Begin(cfg, r), w'.calls[id]);
    hide Begin, MayBook, Inert, KeyFree;
  }
}
