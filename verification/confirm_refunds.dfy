/** The refunds that go wrong: exactly when taking a payment back can leave a booking unpaid, and
    runs in which it does. */
module ConfirmRefunds {
  import opened Journal
  import opened SeatRequests
  import opened BookingTables
  import opened Confirms
  import opened ConfirmSettlement

  // ---- driving calls to their end ----

  /** Nothing throws and no transaction is given up. */
  predicate Fine(acts: seq<Action>) {
    forall a :: a in acts && a.Go? ==> !a.env.broken && a.env.fault.None?
  }

  function FineEnv(id: string): Env { Env(false, true, true, None, id) }

  lemma {:induction false} LongerThanAll(bs: seq<Booking>) returns (n: nat)
    ensures forall b :: b in bs ==> |b.id| < n
  {
    if |bs| == 0 {
      n := 0;
    } else {
      var m := LongerThanAll(bs[1..]);
      n := if m > |bs[0].id| then m else |bs[0].id| + 1;
      assert bs == [bs[0]] + bs[1..];
    }
  }

  lemma UnusedId(db: Tables) returns (id: string)
    ensures IdFree(db, id)
  {
    var n := LongerThanAll(db.bookings);
    id := seq(n, _ => 'x');
  }

  function Rank(p: Phase): nat {
    match p
    case Lookup => 11
    case Gate => 10
    case SeatsExist => 9
    case NotSold => 8
    case Renew => 7
    case Approve => 6
    case Persist => 5
    case Recover => 4
    case Refund(_) => 3
    case After(_, ReleaseLocks) => 3
    case After(_, PublishCompleted) => 2
    case After(_, SpendAdmission) => 1
    case Done(_) => 0
  }

  lemma StepLowersRank(cfg: Config, c: Call, s: Books, e: Env)
    requires !c.phase.Done?
    ensures Rank(Advance(cfg, c, s, e).0) < Rank(c.phase)
  {
    hide Persisted, CanPersist, FindByKey, Replay;
  }

  lemma {:induction false} OrderlyRunJoins(cfg: Config, w: World, a: seq<Action>, w1: World, b: seq<Action>, w2: World)
    requires OrderlyRun(cfg, w, a, w1) && OrderlyRun(cfg, w1, b, w2)
    ensures OrderlyRun(cfg, w, a + b, w2)
    decreases |a|
  {
    hide Orderly, Enabled, Next;
    if |a| == 0 {
      assert a + b == b;
    } else {
      assert (a + b)[0] == a[0] && (a + b)[1..] == a[1..] + b;
      OrderlyRunJoins(cfg, Next(cfg, w, a[0]), a[1..], w1, b, w2);
    }
  }

  lemma OneStep(cfg: Config, w: World, a: Action)
    requires Enabled(w, a) && Orderly(cfg, w, a)
    ensures OrderlyRun(cfg, w, [a], Next(cfg, w, a))
  {
    hide Orderly, Next;
    assert [a][1..] == [];
    assert OrderlyRun(cfg, Next(cfg, w, a), [], Next(cfg, w, a));
  }

  /** The key is booked, or another call can still book it. */
  predicate WillBook(cfg: Config, w: World, id: nat)
    requires id in w.calls
  {
    !KeyFree(w.books.db, w.calls[id].key) || Rival(cfg, w, id)
  }

  /** A rival takes its next step: it stays one or books. */
  lemma RivalSteps(cfg: Config, c: Call, s: Books, unused: string)
    requires MayBook(cfg, s, c) && StrictlySorted(c.seats) && IdFree(s.db, unused) && KeyFree(s.db, c.key)
    ensures var (p, s') := Advance(cfg, c, s, FineEnv(unused));
            if c.phase.Persist? then !KeyFree(s'.db, c.key) else s'.db == s.db && MayBook(cfg, s', c.(phase := p))
  {
    FindFacts(s.db.bookings, c.key);
    DbGrows(cfg, c, s, FineEnv(unused), c);
    if c.phase.Persist? { RefusedMeans(cfg, c, s, FineEnv(unused)); }
    SeatsRealOfStep(cfg, c, Advance(cfg, c, s, FineEnv(unused)).0);
    hide Persisted, CanPersist, KeyFree, IdFree, SeatsReal, SeatsUnsold, Replay;
  }

  lemma OthersStepKeepsWillBook(cfg: Config, w: World, id: nat, p: nat, unused: string)
    requires WorldInv(cfg, w) && id in w.calls && WillBook(cfg, w, id) && p != id
    requires p in w.calls && Live(w, p, w.calls[id].key) && IdFree(w.books.db, unused)
    ensures WillBook(cfg, Next(cfg, w, Go(p, FineEnv(unused))), id)
  {
    var key, s, e, w' := w.calls[id].key, w.books, FineEnv(unused), Next(cfg, w, Go(p, FineEnv(unused)));
    DbGrows(cfg, w.calls[p], s, e, w.calls[p]);
    if KeyFree(s.db, key) && KeyFree(w'.books.db, key) {
      var o :| o in w.calls && o != id && Live(w, o, key) && MayBook(cfg, s, w.calls[o]);
      assert CallOk(cfg, s.db, w.calls[p]);
      AdvanceDb(cfg, w.calls[p], s, e);
      if o == p { RivalSteps(cfg, w.calls[p], s, unused); }
      hide WorldInv, Advance, KeyFree, SeatsUnsold, SeatsReal, Commits, CanPersist;
      assert Live(w', o, key) && MayBook(cfg, w'.books, w'.calls[o]);
    }
  }

  lemma FineGoIsOrderly(cfg: Config, w: World, id: nat, unused: string)
    requires id in w.calls && !w.calls[id].phase.Done? && IdFree(w.books.db, unused)
    ensures Enabled(w, Go(id, FineEnv(unused))) && Orderly(cfg, w, Go(id, FineEnv(unused)))
  {}

  /** A call other than id goes all the way to its answer. */
  lemma {:induction false} DriveOne(cfg: Config, w: World, id: nat, p: nat) returns (acts: seq<Action>, w': World)
    requires WorldInv(cfg, w) && id in w.calls && p in w.calls && p != id && w.calls[p].key == w.calls[id].key
    requires WillBook(cfg, w, id)
    ensures OrderlyRun(cfg, w, acts, w') && Fine(acts) && WorldInv(cfg, w')
    ensures p in w'.calls && w'.calls == w.calls[p := w'.calls[p]]
    ensures w'.calls[p].key == w.calls[p].key && w'.calls[p].phase.Done?
    ensures WillBook(cfg, w', id)
    decreases Rank(w.calls[p].phase)
  {
    hide WorldInv, Orderly, Advance, WillBook;
    if w.calls[p].phase.Done? {
      acts, w' := [], w;
    } else {
      var unused := UnusedId(w.books.db);
      var a := Go(p, FineEnv(unused));
      FineGoIsOrderly(cfg, w, p, unused);
      GoKeepsWorld(cfg, w, p, a.env);
      StepLowersRank(cfg, w.calls[p], w.books, a.env);
      OthersStepKeepsWillBook(cfg, w, id, p, unused);
      var rest;
      rest, w' := DriveOne(cfg, Next(cfg, w, a), id, p);
      OneStep(cfg, w, a);
      OrderlyRunJoins(cfg, w, [a], Next(cfg, w, a), rest, w');
      acts := [a] + rest;
    }
  }

  function LiveOthers(w: World, id: nat): set<nat>
    requires id in w.calls
  {
    set o | o in w.calls && o != id && Live(w, o, w.calls[id].key)
  }

  lemma {:induction false} DriveOthers(cfg: Config, w: World, id: nat) returns (acts: seq<Action>, w': World)
    requires WorldInv(cfg, w) && id in w.calls && WillBook(cfg, w, id)
    ensures OrderlyRun(cfg, w, acts, w') && Fine(acts) && WorldInv(cfg, w')
    ensures id in w'.calls && w'.calls[id] == w.calls[id] && LiveOthers(w', id) == {}
    ensures !KeyFree(w'.books.db, w.calls[id].key)
    decreases LiveOthers(w, id)
  {
    hide WorldInv, Orderly, Next;
    if p :| p in LiveOthers(w, id) {
      var a1, w1 := DriveOne(cfg, w, id, p);
      assert LiveOthers(w1, id) == LiveOthers(w, id) - {p};
      hide WillBook;
      var a2;
      a2, w' := DriveOthers(cfg, w1, id);
      OrderlyRunJoins(cfg, w, a1, w1, a2, w');
      acts := a1 + a2;
    } else {
      acts, w' := [], w;
      assert !Rival(cfg, w, id) by {
        forall o | o in w.calls && o != id ensures !Live(w, o, w.calls[id].key) { assert o !in LiveOthers(w, id); }
      }
    }
  }

  /** Let the others finish first, then refund: booked, and nobody has paid. */
  lemma RefundLast(cfg: Config, w: World, id: nat) returns (acts: seq<Action>, w': World)
    requires WorldInv(cfg, w) && id in w.calls && w.calls[id].phase.Refund? && WillBook(cfg, w, id)
    ensures OrderlyRun(cfg, w, acts, w') && Fine(acts)
    ensures id in w.calls && Quiet(w', w.calls[id].key)
    ensures FindByKey(w'.books.db, w.calls[id].key).Some? && PaymentId(w.calls[id].key) !in w'.books.ledger
  {
    var key := w.calls[id].key;
    var a1, w1 := DriveOthers(cfg, w, id);
    var a := Go(id, FineEnv(""));
    OneStep(cfg, w1, a);
    w' := Next(cfg, w1, a);
    acts := a1 + [a];
    OrderlyRunJoins(cfg, w, a1, w1, [a], w');
    LedgerOfOwn(cfg, w1.calls[id], w1.books, a.env);
    FindFacts(w'.books.db.bookings, key);
    forall i | i in w'.calls ensures !Live(w', i, key) {
      assert i != id ==> i !in LiveOthers(w1, id);
    }
  }

  // ---- exactly when it is safe ----

  /** Whatever follows in order, the key is settled whenever no call of it is under way. */
  ghost predicate EndsSettled(cfg: Config, w: World, key: string) {
    forall acts, w' :: OrderlyRun(cfg, w, acts, w') && Quiet(w', key) ==> Settled(w'.books, key)
  }

  lemma InvEndsSettled(cfg: Config, w: World, key: string)
    requires WorldInv(cfg, w) && SettleInv(cfg, w)
    ensures EndsSettled(cfg, w, key)
  {
    hide WorldInv, SettleInv, OrderlyRun, Quiet, Settled;
    forall acts, w' | OrderlyRun(cfg, w, acts, w') && Quiet(w', key) ensures Settled(w'.books, key) {
      OrderlyRunKeeps(cfg, w, acts, w');
      QuietIsSettled(cfg, w', key);
    }
  }

  lemma RefundingEndsUnsettled(cfg: Config, w: World, id: nat)
    requires WorldInv(cfg, w) && id in w.calls && w.calls[id].phase.Refund? && WillBook(cfg, w, id)
    ensures !EndsSettled(cfg, w, w.calls[id].key)
  {
    hide WorldInv, OrderlyRun, WillBook, Quiet;
    var acts, w' := RefundLast(cfg, w, id);
    assert !Settled(w'.books, w.calls[id].key);
  }

  lemma SameCallsSameRivals(cfg: Config, w: World, w': World, id: nat)
    requires id in w.calls && id in w'.calls && w'.books.db == w.books.db
    requires w'.calls == w.calls[id := w.calls[id].(phase := w'.calls[id].phase)]
    ensures (Rival(cfg, w', id) <==> Rival(cfg, w, id))
  {
    forall o | o in w.calls && o != id ensures Live(w', o, w.calls[id].key) <==> Live(w, o, w.calls[id].key) {}
  }

  /** Giving a transaction up and refunding is safe exactly when the key is not booked and no other
      call of it can book any more: then every orderly continuation leaves the key settled;
      otherwise some orderly continuation leaves it booked and unpaid. */
  lemma GivingUpIsSafeExactly(cfg: Config, w: World, id: nat, e: Env)
    requires WorldInv(cfg, w) && SettleInv(cfg, w) && id in w.calls && w.calls[id].phase.Persist? && e.fault.Some?
    ensures EndsSettled(cfg, Next(cfg, w, Go(id, e)), w.calls[id].key)
            <==> KeyFree(w.books.db, w.calls[id].key) && !Rival(cfg, w, id)
  {
    var w' := Next(cfg, w, Go(id, e));
    hide WorldInv, EndsSettled, KeyFree, Rival, Next;
    GoKeepsWorld(cfg, w, id, e);
    GiveUpStep(cfg, w, id, e);
    SameCallsSameRivals(cfg, w, w', id);
    if KeyFree(w.books.db, w.calls[id].key) && !Rival(cfg, w, id) {
      hide SettleInv;
      GoKeeps(cfg, w, id, e);
      InvEndsSettled(cfg, w', w.calls[id].key);
    } else {
      RefundingEndsUnsettled(cfg, w', id);
    }
  }

  /** Drawing a booking id in use is safe exactly when the key is booked already or no other call of
      it can book any more. */
  lemma ClashIsSafeExactly(cfg: Config, w: World, id: nat, e: Env)
    requires WorldInv(cfg, w) && SettleInv(cfg, w) && id in w.calls && w.calls[id].phase.Persist?
    requires e.fault.None? && !IdFree(w.books.db, e.bookingId)
    ensures EndsSettled(cfg, Next(cfg, w, Go(id, e)), w.calls[id].key)
            <==> !(KeyFree(w.books.db, w.calls[id].key) && Rival(cfg, w, id))
  {
    var w1 := Next(cfg, w, Go(id, e));
    GoKeepsWorld(cfg, w, id, e);
    ClashStep(cfg, w, id, e);
    SameCallsSameRivals(cfg, w, w1, id);
    hide WorldInv, KeyFree, Rival, Next, EndsSettled;
    if KeyFree(w.books.db, w.calls[id].key) && Rival(cfg, w, id) {
      UnpayingEndsUnsettled(cfg, w1, id);
    } else {
      hide SettleInv;
      GoKeeps(cfg, w, id, e);
      InvEndsSettled(cfg, w1, w.calls[id].key);
    }
  }

  /** A call about to take back a payment that another call still counts on. */
  lemma UnpayingEndsUnsettled(cfg: Config, w: World, id: nat)
    requires WorldInv(cfg, w) && id in w.calls && Unpaying(w.books.db, w.calls[id]) && Rival(cfg, w, id)
    ensures !EndsSettled(cfg, w, w.calls[id].key)
  {
    hide WorldInv, KeyFree, Rival, Next, OrderlyRun, Quiet, Settled;
    if w.calls[id].phase.Refund? {
      RefundingEndsUnsettled(cfg, w, id);
    } else {
      LookUpFindsNobody(cfg, w, id);
      var a := Go(id, FineEnv(""));
      var w2 := Next(cfg, w, a);
      GoKeepsWorld(cfg, w, id, a.env);
      SameCallsSameRivals(cfg, w, w2, id);
      var acts, w3 := RefundLast(cfg, w2, id);
      OneStep(cfg, w, a);
      OrderlyRunJoins(cfg, w, [a], w2, acts, w3);
      NotSettled(w3.books, w.calls[id].key);
    }
  }

  lemma NotSettled(s: Books, key: string)
    ensures FindByKey(s.db, key).Some? && PaymentId(key) !in s.ledger ==> !Settled(s, key)
  {}

  lemma GiveUpStep(cfg: Config, w: World, id: nat, e: Env)
    requires id in w.calls && w.calls[id].phase.Persist? && e.fault.Some?
    ensures Next(cfg, w, Go(id, e))
         == w.(calls := w.calls[id := w.calls[id].(phase := Refund(GaveUp(e.fault.value)))])
  {}

  lemma ClashStep(cfg: Config, w: World, id: nat, e: Env)
    requires id in w.calls && w.calls[id].phase.Persist? && e.fault.None? && !IdFree(w.books.db, e.bookingId)
    ensures Next(cfg, w, Go(id, e)) == w.(calls := w.calls[id := w.calls[id].(phase := Phase.Recover)])
  {}

  lemma LookUpFindsNobody(cfg: Config, w: World, id: nat)
    requires id in w.calls && w.calls[id].phase.Recover? && KeyFree(w.books.db, w.calls[id].key)
    ensures Next(cfg, w, Go(id, FineEnv(""))) == w.(calls := w.calls[id := w.calls[id].(phase := Refund(SeatConflict))])
    ensures Enabled(w, Go(id, FineEnv(""))) && Orderly(cfg, w, Go(id, FineEnv("")))
  {
    FindFacts(w.books.db.bookings, w.calls[id].key);
  }
}
