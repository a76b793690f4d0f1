/** When the payment ledger and the bookings agree, over whole runs of interleaved calls. */
module ConfirmSettlement {
  import opened SeatRequests
  import opened BookingTables
  import opened Confirms

  // ---- calls of one key ----

  predicate Early(p: Phase) {
    p.Lookup? || p.Gate? || p.SeatsExist? || p.NotSold? || p.Renew? || p.Approve? || p.Persist?
  }

  /** The call can still book: its transaction is ahead of it, and its seats exist and are free. */
  predicate MayBook(cfg: Config, s: Books, c: Call) {
    Early(c.phase) && SeatsReal(cfg, c) && SeatsUnsold(s.db, c)
  }

  /** Another unfinished call of the key can still book. */
  predicate Rival(cfg: Config, w: World, id: nat)
    requires id in w.calls
  {
    exists o :: o in w.calls && o != id && Live(w, o, w.calls[id].key) && MayBook(cfg, w.books, w.calls[o])
  }

  /** The call is about to take its key's payment back. */
  predicate Unpaying(db: Tables, c: Call) { c.phase.Refund? || (c.phase.Recover? && KeyFree(db, c.key)) }

  /** The call can only be turned away, before it has paid: its seats do not exist or are sold. */
  predicate Inert(cfg: Config, db: Tables, c: Call) {
    || ((c.phase.Lookup? || c.phase.Gate? || c.phase.SeatsExist?) && !(SeatsReal(cfg, c) && SeatsUnsold(db, c)))
    || (c.phase.NotSold? && !SeatsUnsold(db, c))
  }

  predicate SameSeats(a: Call, b: Call) { a.screening == b.screening && a.seats == b.seats }

  // ---- what callers and the outside must respect ----

  /** Refunds and the look-up of a winner go through. A call that can book starts under an unbooked
      key only where the others of the key are for the same seats and about to take nothing back, or
      can only be turned away. A transaction is given up, or draws a booking id in use, only where no other call
      of the key can book any more. A call alone on its key meets all of that by itself. */
  predicate Orderly(cfg: Config, w: World, a: Action)
    requires Enabled(w, a)
  {
    match a
    case Start(_, r) =>
      var c, db := Begin(cfg, r), w.books.db;
      KeyFree(db, r.key) && MayBook(cfg, w.books, c) ==>
        forall o :: o in w.calls && Live(w, o, r.key) ==>
          Inert(cfg, db, w.calls[o]) || (SameSeats(w.calls[o], c) && !Unpaying(db, w.calls[o]))
    case Go(id, e) =>
      var c := w.calls[id];
      && (c.phase.Persist? && e.fault.Some? ==> KeyFree(w.books.db, c.key) && !Rival(cfg, w, id))
      && (c.phase.Persist? && e.fault.None? && !IdFree(w.books.db, e.bookingId) ==>
            KeyFree(w.books.db, c.key) ==> !Rival(cfg, w, id))
      && (c.phase.Recover? || c.phase.Refund? ==> !e.broken)
  }

  ghost predicate OrderlyRun(cfg: Config, w: World, acts: seq<Action>, w': World)
    decreases |acts|
  {
    if |acts| == 0 then w' == w
    else
      && Enabled(w, acts[0]) && Orderly(cfg, w, acts[0])
      && OrderlyRun(cfg, Next(cfg, w, acts[0]), acts[1..], w')
  }

  // ---- the invariant ----

  predicate Paid(ledger: map<string, int>, key: string, amount: int) {
    PaymentId(key) in ledger && ledger[PaymentId(key)] == amount
  }

  predicate Holding(p: Phase) { p.Persist? || p.Recover? || p.Refund? }

  predicate CallSettles(cfg: Config, w: World, id: nat)
    requires id in w.calls
  {
    var c, s := w.calls[id], w.books;
    && (c.phase.Persist? && KeyFree(s.db, c.key) ==> Paid(s.ledger, c.key, PriceOf(cfg, c)) || !SeatsUnsold(s.db, c))
    && (Unpaying(s.db, c) ==> !Rival(cfg, w, id))
    && (c.phase.Refund? ==> KeyFree(s.db, c.key))
    && (!c.shared && !c.phase.Lookup? && !c.phase.After? && !c.phase.Done? ==> KeyFree(s.db, c.key))
  }

  /** Two unfinished calls of one key. */
  predicate Overlap(w: World, i: nat, j: nat) {
    i in w.calls && j in w.calls && i != j && Live(w, i, w.calls[j].key) && !w.calls[j].phase.Done?
  }

  ghost predicate Sharing(w: World) { forall i, j :: Overlap(w, i, j) ==> w.calls[i].shared }

  /** Two calls of an unbooked key are for the same seats, unless one can only be turned away. */
  predicate Agree(cfg: Config, db: Tables, a: Call, b: Call) {
    KeyFree(db, b.key) && !Inert(cfg, db, a) && !Inert(cfg, db, b) ==> SameSeats(a, b)
  }

  ghost predicate Twins(cfg: Config, w: World) {
    forall i, j :: Overlap(w, i, j) ==> Agree(cfg, w.books.db, w.calls[i], w.calls[j])
  }

  predicate BookedArePaid(s: Books) { forall b :: b in s.db.bookings ==> Paid(s.ledger, b.key, b.price) }

  ghost predicate Owned(cfg: Config, w: World, key: string) {
    exists i :: i in w.calls && Live(w, i, key) && Holding(w.calls[i].phase)
      && Paid(w.books.ledger, key, PriceOf(cfg, w.calls[i]))
  }

  ghost predicate MoneyHasOwner(cfg: Config, w: World) {
    forall key :: PaymentId(key) in w.books.ledger && KeyFree(w.books.db, key) ==> Owned(cfg, w, key)
  }

  ghost predicate SettleInv(cfg: Config, w: World) {
    && Sharing(w) && Twins(cfg, w) && BookedArePaid(w.books) && MoneyHasOwner(cfg, w)
    && forall i :: i in w.calls ==> CallSettles(cfg, w, i)
  }

  // ---- starting a call ----

  lemma BeginPhase(cfg: Config, r: Request)
    ensures Begin(cfg, r).phase.Lookup? || Begin(cfg, r).phase.Done?
    ensures Begin(cfg, r).key == r.key
  {}

  lemma StartKeepsSharing(cfg: Config, w: World, id: nat, r: Request)
    requires Sharing(w) && Enabled(w, Start(id, r))
    ensures Sharing(Next(cfg, w, Start(id, r)))
  {
    BeginPhase(cfg, r);
    hide Begin;
    var w' := Next(cfg, w, Start(id, r));
    forall i, j | Overlap(w', i, j) ensures w'.calls[i].shared {
      if i != id && j != id { assert Overlap(w, i, j); }
    }
  }

  /** Starting changes no call but for its shared flag. */
  lemma StartKeepsCall(cfg: Config, w: World, id: nat, r: Request, o: nat)
    requires Enabled(w, Start(id, r)) && o in w.calls
    ensures var w' := Next(cfg, w, Start(id, r));
            w'.books == w.books && o in w'.calls && w'.calls[o] == w.calls[o].(shared := w'.calls[o].shared)
  {
    hide Begin;
  }

  lemma SharedIsNoMatter(cfg: Config, s: Books, c: Call, d: Call)
    requires d == c.(shared := d.shared)
    ensures Inert(cfg, s.db, d) <==> Inert(cfg, s.db, c)
    ensures MayBook(cfg, s, d) <==> MayBook(cfg, s, c)
  {
    hide SeatFree;
  }

  lemma StartKeepsTwins(cfg: Config, w: World, id: nat, r: Request)
    requires Twins(cfg, w) && Enabled(w, Start(id, r)) && Orderly(cfg, w, Start(id, r))
    ensures Twins(cfg, Next(cfg, w, Start(id, r)))
  {
    var w', db := Next(cfg, w, Start(id, r)), w.books.db;
    BeginPhase(cfg, r);
    NewIsNotInert(cfg, w, id, r);
    forall i, j | Overlap(w', i, j) ensures Agree(cfg, db, w'.calls[i], w'.calls[j]) {
      if i != id { StartKeepsCall(cfg, w, id, r, i); SharedIsNoMatter(cfg, w.books, w.calls[i], w'.calls[i]); }
      if j != id { StartKeepsCall(cfg, w, id, r, j); SharedIsNoMatter(cfg, w.books, w.calls[j], w'.calls[j]); }
      hide Begin, Inert, KeyFree, MayBook, Next;
      if i != id && j != id { assert Overlap(w, i, j); }
      if i == id && j != id { assert Live(w, j, r.key); }
      if j == id && i != id { assert Live(w, i, r.key); }
    }
  }

  /** The new call is inert or can book. */
  lemma NewIsNotInert(cfg: Config, w: World, id: nat, r: Request)
    requires Enabled(w, Start(id, r))
    ensures var w' := Next(cfg, w, Start(id, r));
            && w'.calls[id] == Begin(cfg, r).(shared := w'.calls[id].shared)
            && (!Begin(cfg, r).phase.Done? && !Inert(cfg, w.books.db, w'.calls[id]) ==>
                  MayBook(cfg, w.books, Begin(cfg, r)))
  {
    BeginPhase(cfg, r);
    hide Begin, SeatFree;
  }

  /** A call that starts rivals nobody whose payment is about to go. */
  lemma StartAddsNoRival(cfg: Config, w: World, id: nat, r: Request, o: nat)
    requires Enabled(w, Start(id, r)) && Orderly(cfg, w, Start(id, r)) && o in w.calls
    requires Unpaying(w.books.db, w.calls[o]) && KeyFree(w.books.db, w.calls[o].key) && !Rival(cfg, w, o)
    ensures !Rival(cfg, Next(cfg, w, Start(id, r)), o)
  {
    var w' := Next(cfg, w, Start(id, r));
    BeginPhase(cfg, r);
    NewIsNotInert(cfg, w, id, r);
    StartKeepsCall(cfg, w, id, r, o);
    SharedIsNoMatter(cfg, w.books, Begin(cfg, r), w'.calls[id]);
    forall p | p in w'.calls && p != o && Live(w', p, w'.calls[o].key) ensures !MayBook(cfg, w'.books, w'.calls[p]) {
      if p != id {
        StartKeepsCall(cfg, w, id, r, p);
        SharedIsNoMatter(cfg, w.books, w.calls[p], w'.calls[p]);
        hide MayBook, Begin, Next, KeyFree;
        assert Live(w, p, w.calls[o].key) && !MayBook(cfg, w.books, w.calls[p]);
      } else {
        hide MayBook, Begin, Next, KeyFree;
        assert Live(w, o, r.key) && !Inert(cfg, w.books.db, w.calls[o]);
      }
    }
  }

  lemma StartKeeps(cfg: Config, w: World, id: nat, r: Request)
    requires SettleInv(cfg, w) && Enabled(w, Start(id, r)) && Orderly(cfg, w, Start(id, r))
    ensures SettleInv(cfg, Next(cfg, w, Start(id, r)))
  {
    var w' := Next(cfg, w, Start(id, r));
    BeginPhase(cfg, r);
    StartKeepsSharing(cfg, w, id, r);
    StartKeepsTwins(cfg, w, id, r);
    hide Begin, KeyFree, SeatsUnsold, Rival, Orderly, Twins, Sharing;
    forall i | i in w'.calls ensures CallSettles(cfg, w', i) {
      if i != id {
        assert CallSettles(cfg, w, i);
        if Unpaying(w.books.db, w.calls[i]) { StartAddsNoRival(cfg, w, id, r, i); }
      }
    }
    forall key | PaymentId(key) in w'.books.ledger && KeyFree(w'.books.db, key) ensures Owned(cfg, w', key) {
      assert Owned(cfg, w, key);
      var i :| i in w.calls && Live(w, i, key) && Holding(w.calls[i].phase)
               && Paid(w.books.ledger, key, PriceOf(cfg, w.calls[i]));
      assert Live(w', i, key);
    }
  }

  // ---- stepping a call ----

  lemma GoKeepsSharing(cfg: Config, w: World, id: nat, e: Env)
    requires Sharing(w) && Enabled(w, Go(id, e))
    ensures Sharing(Next(cfg, w, Go(id, e)))
  {
    hide Advance;
    var w' := Next(cfg, w, Go(id, e));
    forall i, j | Overlap(w', i, j) ensures w'.calls[i].shared { assert Overlap(w, i, j); }
  }

  /** The ledger entry of a key other than the stepping call's is left alone. */
  lemma LedgerOfOthers(cfg: Config, c: Call, s: Books, e: Env, key: string)
    requires !c.phase.Done? && key != c.key
    ensures PaymentId(key) in Advance(cfg, c, s, e).1.ledger <==> PaymentId(key) in s.ledger
    ensures PaymentId(key) in s.ledger ==> Advance(cfg, c, s, e).1.ledger[PaymentId(key)] == s.ledger[PaymentId(key)]
  {
    PaymentIdInjective(key, c.key);
    hide PaymentId, Persisted, CanPersist, FindByKey, Replay;
  }

  /** The stepping call's own entry: approving writes it when it is missing, refunding drops it. */
  lemma LedgerOfOwn(cfg: Config, c: Call, s: Books, e: Env)
    requires !c.phase.Done?
    ensures var pid, l := PaymentId(c.key), Advance(cfg, c, s, e).1.ledger;
            if c.phase.Approve? then pid in l && l[pid] == (if pid in s.ledger then s.ledger[pid] else PriceOf(cfg, c))
            else if c.phase.Refund? && !e.broken then pid !in l
            else l == s.ledger
  {
    hide PaymentId, Persisted, CanPersist, FindByKey, Replay;
  }

  lemma DbGrows(cfg: Config, c: Call, s: Books, e: Env, other: Call)
    requires !c.phase.Done?
    ensures KeyFree(Advance(cfg, c, s, e).1.db, other.key)
            <==> KeyFree(s.db, other.key) && !(Commits(cfg, c, s, e) && other.key == c.key)
    ensures SeatsUnsold(Advance(cfg, c, s, e).1.db, other) ==> SeatsUnsold(s.db, other)
  {
    AdvanceDb(cfg, c, s, e);
    var b := BookingOf(cfg, c, e.bookingId);
    hide Advance, CanPersist;
    if Commits(cfg, c, s, e) {
      var db := Persisted(s.db, b, c.screening, c.seats);
      if KeyFree(db, other.key) {
        assert b in db.bookings;
        forall o | o in s.db.bookings ensures o.key != other.key { assert o in db.bookings; }
      }
      forall x | SeatFree(db, other.screening, x) ensures SeatFree(s.db, other.screening, x) {
        forall r | r in s.db.seats ensures r.screening != other.screening || r.seatNo != x { assert r in db.seats; }
      }
    }
  }

  lemma FoundMeans(db: Tables, key: string)
    ensures FindByKey(db, key).None? <==> KeyFree(db, key)
  {
    FindFacts(db.bookings, key);
  }

  /** With a fresh id and no seat twice, an integrity violation is a used key or a sold seat. */
  lemma RefusedMeans(cfg: Config, c: Call, s: Books, e: Env)
    requires c.phase.Persist? && e.fault.None? && StrictlySorted(c.seats)
    ensures Commits(cfg, c, s, e) <==> IdFree(s.db, e.bookingId) && KeyFree(s.db, c.key) && SeatsUnsold(s.db, c)
  {
    StrictlySortedDistinct(c.seats);
  }

  /** Phases only move on. */
  lemma StaysLate(cfg: Config, c: Call, s: Books, e: Env)
    requires !c.phase.Done?
    ensures Early(Advance(cfg, c, s, e).0) ==> Early(c.phase) && !c.phase.Persist?
    ensures Unpaying(Advance(cfg, c, s, e).1.db, c.(phase := Advance(cfg, c, s, e).0)) ==>
              c.phase.Recover? || c.phase.Persist?
  {
    hide Persisted, CanPersist, FindByKey, Replay, KeyFree;
  }

  /** A step makes nobody a rival who was none. */
  lemma GoAddsNoRival(cfg: Config, w: World, id: nat, e: Env, o: nat)
    requires Enabled(w, Go(id, e)) && o in w.calls && !Rival(cfg, w, o)
    ensures !Rival(cfg, Next(cfg, w, Go(id, e)), o)
  {
    var c, s, w' := w.calls[id], w.books, Next(cfg, w, Go(id, e));
    StaysLate(cfg, c, s, e);
    hide Advance, KeyFree, SeatsReal, SeatsUnsold, Unpaying;
    forall p | p in w'.calls && p != o && Live(w', p, w'.calls[o].key) ensures !MayBook(cfg, w'.books, w'.calls[p]) {
      assert Live(w, p, w.calls[o].key) && !MayBook(cfg, w.books, w.calls[p]);
      DbGrows(cfg, c, s, e, w.calls[p]);
      SeatsRealOfStep(cfg, w.calls[p], w'.calls[p].phase);
    }
  }

  /** A call that can only be turned away stays so. */
  lemma StaysInert(cfg: Config, c: Call, s: Books, e: Env)
    requires Inert(cfg, s.db, c)
    ensures var (p, s') := Advance(cfg, c, s, e); p.Done? || Inert(cfg, s'.db, c.(phase := p))
  {
    DbGrows(cfg, c, s, e, c);
    SeatsRealOfStep(cfg, c, Advance(cfg, c, s, e).0);
    hide SeatsReal, SeatsUnsold, KeyFree, FindByKey, Replay, Persisted, CanPersist;
  }

  lemma InertAmongOthers(cfg: Config, c: Call, s: Books, e: Env, other: Call)
    requires !c.phase.Done? && Inert(cfg, s.db, other)
    ensures Inert(cfg, Advance(cfg, c, s, e).1.db, other)
  {
    DbGrows(cfg, c, s, e, other);
    hide SeatsReal, SeatsUnsold, KeyFree, Advance;
  }

  /** No step makes a call of an unbooked key count again. */
  lemma NotInertBefore(cfg: Config, w: World, id: nat, e: Env, o: nat)
    requires Enabled(w, Go(id, e)) && o in w.calls
    ensures var w' := Next(cfg, w, Go(id, e));
            && (!w'.calls[o].phase.Done? && !Inert(cfg, w'.books.db, w'.calls[o]) ==>
                  !w.calls[o].phase.Done? && !Inert(cfg, w.books.db, w.calls[o]))
            && SameSeats(w'.calls[o], w.calls[o]) && w'.calls[o].key == w.calls[o].key
            && (KeyFree(w'.books.db, w.calls[o].key) ==> KeyFree(w.books.db, w.calls[o].key))
  {
    var c, s := w.calls[id], w.books;
    DbGrows(cfg, c, s, e, w.calls[o]);
    if o == id {
      if Inert(cfg, s.db, c) { StaysInert(cfg, c, s, e); }
    } else {
      if Inert(cfg, s.db, w.calls[o]) { InertAmongOthers(cfg, c, s, e, w.calls[o]); }
    }
    hide Advance, Inert, KeyFree, SeatsUnsold;
  }

  lemma GoKeepsTwins(cfg: Config, w: World, id: nat, e: Env)
    requires Twins(cfg, w) && Enabled(w, Go(id, e))
    ensures Twins(cfg, Next(cfg, w, Go(id, e)))
  {
    var w' := Next(cfg, w, Go(id, e));
    forall i, j | Overlap(w', i, j) ensures Agree(cfg, w'.books.db, w'.calls[i], w'.calls[j]) {
      NotInertBefore(cfg, w, id, e, i);
      NotInertBefore(cfg, w, id, e, j);
      hide Advance, Inert, KeyFree, Next;
      assert Overlap(w, i, j);
    }
  }

  lemma SeatsRealOfStep(cfg: Config, c: Call, p: Phase)
    ensures SeatsReal(cfg, c.(phase := p)) <==> SeatsReal(cfg, c)
    ensures forall db :: SeatsUnsold(db, c.(phase := p)) <==> SeatsUnsold(db, c)
  {}

  /** A call at its transaction has no rival if its seats are sold and its key is not booked. */
  lemma SoldOutHasNoRival(cfg: Config, w: World, id: nat)
    requires Twins(cfg, w) && id in w.calls && w.calls[id].phase.Persist? && !SeatsUnsold(w.books.db, w.calls[id])
    requires KeyFree(w.books.db, w.calls[id].key)
    ensures !Rival(cfg, w, id)
  {
    hide KeyFree, SeatFree;
    forall o | o in w.calls && o != id && Live(w, o, w.calls[id].key) ensures !MayBook(cfg, w.books, w.calls[o]) {
      assert Overlap(w, o, id) && Agree(cfg, w.books.db, w.calls[o], w.calls[id]);
      assert MayBook(cfg, w.books, w.calls[o]) ==> SameSeats(w.calls[o], w.calls[id]);
    }
  }

  /** A commit finds its payment in the ledger, and no call of its key is about to take it back. */
  lemma CommitIsPaid(cfg: Config, w: World, id: nat, e: Env)
    requires id in w.calls && Commits(cfg, w.calls[id], w.books, e) && CallSettles(cfg, w, id)
    ensures var c, s := w.calls[id], w.books;
            Paid(s.ledger, c.key, PriceOf(cfg, c)) && SeatsUnsold(s.db, c) && KeyFree(s.db, c.key)
  {}

  lemma GoKeepsPaid(cfg: Config, w: World, id: nat, e: Env)
    requires SettleInv(cfg, w) && Enabled(w, Go(id, e))
    ensures BookedArePaid(Next(cfg, w, Go(id, e)).books)
  {
    var c, s := w.calls[id], w.books;
    var s' := Advance(cfg, c, s, e).1;
    assert CallSettles(cfg, w, id);
    AdvanceDb(cfg, c, s, e);
    LedgerOfOwn(cfg, c, s, e);
    if Commits(cfg, c, s, e) { CommitIsPaid(cfg, w, id, e); }
    hide Advance, SeatsUnsold, CanPersist, PaymentId, Rival;
    forall b | b in s'.db.bookings ensures Paid(s'.ledger, b.key, b.price) {
      if b.key != c.key {
        LedgerOfOthers(cfg, c, s, e, b.key);
        assert b in s.db.bookings;
      } else {
        assert b in s.db.bookings ==> Paid(s.ledger, b.key, b.price) && !KeyFree(s.db, c.key);
      }
    }
  }

  /** Where a call of a key with money but no booking can go. */
  lemma HolderHolds(cfg: Config, c: Call, s: Books, e: Env)
    requires !c.phase.Done? && (c.phase.Recover? || c.phase.Refund? ==> !e.broken)
    requires KeyFree(Advance(cfg, c, s, e).1.db, c.key) && PaymentId(c.key) in Advance(cfg, c, s, e).1.ledger
    requires Holding(c.phase) || c.phase.Approve?
    ensures Holding(Advance(cfg, c, s, e).0)
  {
    LedgerOfOwn(cfg, c, s, e);
    DbGrows(cfg, c, s, e, c);
    FindFacts(s.db.bookings, c.key);
    hide PaymentId, Persisted, Replay, SeatsUnsold;
  }

  /** The price a call would pay is what its key's entry already says, when the key is not booked. */
  lemma EntryIsOurs(cfg: Config, w: World, id: nat)
    requires Twins(cfg, w) && MoneyHasOwner(cfg, w) && id in w.calls
    requires w.calls[id].phase.Approve? || Holding(w.calls[id].phase)
    requires PaymentId(w.calls[id].key) in w.books.ledger && KeyFree(w.books.db, w.calls[id].key)
    ensures Paid(w.books.ledger, w.calls[id].key, PriceOf(cfg, w.calls[id]))
  {
    var key := w.calls[id].key;
    assert Owned(cfg, w, key);
    var i :| i in w.calls && Live(w, i, key) && Holding(w.calls[i].phase)
             && Paid(w.books.ledger, key, PriceOf(cfg, w.calls[i]));
    if i != id { assert Overlap(w, i, id) && Agree(cfg, w.books.db, w.calls[i], w.calls[id]); }
  }

  lemma GoKeepsOwner(cfg: Config, w: World, id: nat, e: Env)
    requires SettleInv(cfg, w) && Enabled(w, Go(id, e)) && Orderly(cfg, w, Go(id, e))
    ensures MoneyHasOwner(cfg, Next(cfg, w, Go(id, e)))
  {
    var c, s, w' := w.calls[id], w.books, Next(cfg, w, Go(id, e));
    var s' := w'.books;
    LedgerOfOwn(cfg, c, s, e);
    assert Twins(cfg, w) && MoneyHasOwner(cfg, w);
    hide SettleInv, PaymentId, KeyFree, Commits, Twins, Rival, SeatsUnsold;
    forall key | PaymentId(key) in s'.ledger && KeyFree(s'.db, key) ensures Owned(cfg, w', key) {
      DbGrows(cfg, c, s, e, c.(key := key));
      if key == c.key && (Holding(c.phase) || c.phase.Approve?) {
        HolderHolds(cfg, c, s, e);
        if PaymentId(key) in s.ledger { EntryIsOurs(cfg, w, id); }
        hide Advance;
        assert w'.calls[id].phase == Advance(cfg, c, s, e).0;
        assert Live(w', id, key);
      } else {
        if key != c.key { LedgerOfOthers(cfg, c, s, e, key); }
        hide Advance;
        assert Owned(cfg, w, key);
        var i :| i in w.calls && Live(w, i, key) && Holding(w.calls[i].phase)
                 && Paid(s.ledger, key, PriceOf(cfg, w.calls[i]));
        assert Live(w', i, key);
      }
    }
  }

  /** What the stepping call itself becomes, given that no rival appears. */
  lemma AdvanceSettles(cfg: Config, c: Call, s: Books, e: Env)
    requires !c.phase.Done? && StrictlySorted(c.seats)
    requires !c.shared && !c.phase.Lookup? && !c.phase.After? ==> KeyFree(s.db, c.key)
    requires c.phase.Persist? && e.fault.Some? ==> KeyFree(s.db, c.key)
    requires c.phase.Approve? && PaymentId(c.key) in s.ledger && KeyFree(s.db, c.key) ==>
               Paid(s.ledger, c.key, PriceOf(cfg, c))
    ensures var (p, s') := Advance(cfg, c, s, e);
            && (p.Persist? && KeyFree(s'.db, c.key) ==> Paid(s'.ledger, c.key, PriceOf(cfg, c)))
            && (p.Refund? ==> KeyFree(s'.db, c.key))
            && (!c.shared && !p.Lookup? && !p.After? && !p.Done? ==> KeyFree(s'.db, c.key))
  {
    FoundMeans(s.db, c.key);
    DbGrows(cfg, c, s, e, c);
    LedgerOfOwn(cfg, c, s, e);
    hide PaymentId, Persisted, CanPersist, KeyFree, SeatsUnsold, SeatsReal, Replay, FindByKey, Approved, Refunded;
  }

  /** A transaction refused under an unbooked key had no rival. */
  lemma RefusedHadNoRival(cfg: Config, w: World, id: nat, e: Env)
    requires Twins(cfg, w) && Enabled(w, Go(id, e)) && Orderly(cfg, w, Go(id, e)) && w.calls[id].phase.Persist?
    requires StrictlySorted(w.calls[id].seats) && e.fault.None?
    requires !Commits(cfg, w.calls[id], w.books, e) && KeyFree(w.books.db, w.calls[id].key)
    ensures !Rival(cfg, w, id)
  {
    RefusedMeans(cfg, w.calls[id], w.books, e);
    hide Commits, KeyFree, SeatsUnsold, IdFree, Twins, Rival;
    if IdFree(w.books.db, e.bookingId) { SoldOutHasNoRival(cfg, w, id); }
  }

  /** Where a call stands when the step brings it to take the payment back. */
  lemma TurnsBack(cfg: Config, c: Call, s: Books, e: Env)
    requires !c.phase.Done? && Unpaying(Advance(cfg, c, s, e).1.db, c.(phase := Advance(cfg, c, s, e).0))
    ensures KeyFree(s.db, c.key) || (c.phase.Persist? && e.fault.Some?)
    ensures c.phase.Recover? || (c.phase.Persist? && !Commits(cfg, c, s, e))
  {
    StaysLate(cfg, c, s, e);
    DbGrows(cfg, c, s, e, c);
    FoundMeans(s.db, c.key);
    hide KeyFree, Persisted, Replay, FindByKey, CanPersist, SeatsUnsold, SeatsReal;
  }

  /** A call whose payment is about to be taken back has no rival. */
  lemma UnpayingHasNoRival(cfg: Config, w: World, id: nat, e: Env)
    requires WorldInv(cfg, w) && SettleInv(cfg, w) && Enabled(w, Go(id, e)) && Orderly(cfg, w, Go(id, e))
    requires var w' := Next(cfg, w, Go(id, e)); Unpaying(w'.books.db, w'.calls[id])
    ensures !Rival(cfg, Next(cfg, w, Go(id, e)), id)
  {
    var c := w.calls[id];
    assert CallOk(cfg, w.books.db, c) && CallSettles(cfg, w, id);
    TurnsBack(cfg, c, w.books, e);
    hide WorldInv, SettleInv, KeyFree, Rival, Advance, CallOk, Commits, Twins;
    if c.phase.Persist? && e.fault.None? { RefusedHadNoRival(cfg, w, id, e); }
    GoAddsNoRival(cfg, w, id, e, id);
  }

  lemma GoKeepsSelf(cfg: Config, w: World, id: nat, e: Env)
    requires WorldInv(cfg, w) && SettleInv(cfg, w) && Enabled(w, Go(id, e)) && Orderly(cfg, w, Go(id, e))
    ensures CallSettles(cfg, Next(cfg, w, Go(id, e)), id)
  {
    var c, s, w' := w.calls[id], w.books, Next(cfg, w, Go(id, e));
    assert CallOk(cfg, s.db, c) && CallSettles(cfg, w, id);
    if Unpaying(w'.books.db, w'.calls[id]) { UnpayingHasNoRival(cfg, w, id, e); }
    if c.phase.Approve? && PaymentId(c.key) in s.ledger && KeyFree(s.db, c.key) { EntryIsOurs(cfg, w, id); }
    AdvanceSettles(cfg, c, s, e);
    hide WorldInv, SettleInv, Advance, Rival, KeyFree, SeatsUnsold, Unpaying, CallOk;
  }

  /** If the step takes the key's payment back, another call at its transaction cannot book. */
  lemma TwinOfRefundIsSoldOut(cfg: Config, w: World, id: nat, o: nat)
    requires WorldInv(cfg, w) && SettleInv(cfg, w) && id in w.calls && w.calls[id].phase.Refund?
    requires o in w.calls && o != id && w.calls[o].key == w.calls[id].key && w.calls[o].phase.Persist?
    ensures !SeatsUnsold(w.books.db, w.calls[o])
  {
    assert CallSettles(cfg, w, id) && CallOk(cfg, w.books.db, w.calls[o]);
    assert Live(w, o, w.calls[id].key);
  }

  /** A call that commits is a rival of every other call of its key. */
  lemma CommitterIsRival(cfg: Config, w: World, id: nat, e: Env, o: nat)
    requires WorldInv(cfg, w) && id in w.calls && Commits(cfg, w.calls[id], w.books, e)
    requires o in w.calls && o != id && w.calls[o].key == w.calls[id].key
    ensures Rival(cfg, w, o)
  {
    assert CallOk(cfg, w.books.db, w.calls[id]);
    assert Live(w, id, w.calls[o].key) && MayBook(cfg, w.books, w.calls[id]);
  }

  lemma GoKeepsOther(cfg: Config, w: World, id: nat, e: Env, o: nat)
    requires WorldInv(cfg, w) && SettleInv(cfg, w) && Enabled(w, Go(id, e)) && Orderly(cfg, w, Go(id, e))
    requires o in w.calls && o != id
    ensures CallSettles(cfg, Next(cfg, w, Go(id, e)), o)
  {
    var c, s, d, w' := w.calls[id], w.books, w.calls[o], Next(cfg, w, Go(id, e));
    assert CallSettles(cfg, w, o);
    assert c.key == d.key && !d.phase.Done? ==> Overlap(w, o, id) && d.shared;
    DbGrows(cfg, c, s, e, d);
    LedgerOfOwn(cfg, c, s, e);
    if c.key != d.key { LedgerOfOthers(cfg, c, s, e, d.key); }
    if c.key == d.key && c.phase.Refund? && d.phase.Persist? { TwinOfRefundIsSoldOut(cfg, w, id, o); }
    if c.key == d.key && Commits(cfg, c, s, e) { CommitterIsRival(cfg, w, id, e, o); }
    if !Rival(cfg, w, o) { GoAddsNoRival(cfg, w, id, e, o); }
    hide WorldInv, SettleInv, Twins, Sharing, Advance, PaymentId, KeyFree, Commits, SeatsUnsold, Rival, Orderly;
  }

  lemma GoKeepsCalls(cfg: Config, w: World, id: nat, e: Env)
    requires WorldInv(cfg, w) && SettleInv(cfg, w) && Enabled(w, Go(id, e)) && Orderly(cfg, w, Go(id, e))
    ensures var w' := Next(cfg, w, Go(id, e));
            forall i :: i in w'.calls ==> CallSettles(cfg, w', i)
  {
    hide SettleInv, WorldInv, Orderly, CallSettles, Advance;
    var w' := Next(cfg, w, Go(id, e));
    forall i | i in w'.calls ensures CallSettles(cfg, w', i) {
      if i == id { GoKeepsSelf(cfg, w, id, e); } else { GoKeepsOther(cfg, w, id, e, i); }
    }
  }

  lemma GoKeeps(cfg: Config, w: World, id: nat, e: Env)
    requires WorldInv(cfg, w) && SettleInv(cfg, w) && Enabled(w, Go(id, e)) && Orderly(cfg, w, Go(id, e))
    ensures SettleInv(cfg, Next(cfg, w, Go(id, e)))
  {
    var w' := Next(cfg, w, Go(id, e));
    assert Twins(cfg, w) && Sharing(w);
    hide WorldInv, Orderly, Next, Twins, Sharing, BookedArePaid, MoneyHasOwner, CallSettles;
    GoKeepsSharing(cfg, w, id, e);
    GoKeepsTwins(cfg, w, id, e);
    GoKeepsPaid(cfg, w, id, e);
    GoKeepsOwner(cfg, w, id, e);
    GoKeepsCalls(cfg, w, id, e);
  }

  // ---- whole runs ----

  lemma {:induction false} OrderlyRunKeeps(cfg: Config, w: World, acts: seq<Action>, w': World)
    requires WorldInv(cfg, w) && SettleInv(cfg, w) && OrderlyRun(cfg, w, acts, w')
    ensures WorldInv(cfg, w') && SettleInv(cfg, w')
    decreases |acts|
  {
    if |acts| > 0 {
      hide WorldInv, SettleInv, Orderly, Next;
      var next := Next(cfg, w, acts[0]);
      match acts[0] {
        case Start(id, r) => StartKeepsWorld(cfg, w, id, r); StartKeeps(cfg, w, id, r);
        case Go(id, e) => GoKeepsWorld(cfg, w, id, e); GoKeeps(cfg, w, id, e);
      }
      OrderlyRunKeeps(cfg, next, acts[1..], w');
    }
  }

  /** No call of the key is under way. */
  predicate Quiet(w: World, key: string) { forall i :: i in w.calls ==> !Live(w, i, key) }

  /** The key is paid exactly when it is booked, and then at the booking's price. */
  predicate Settled(s: Books, key: string) {
    && (PaymentId(key) in s.ledger <==> FindByKey(s.db, key).Some?)
    && (FindByKey(s.db, key).Some? ==> s.ledger[PaymentId(key)] == FindByKey(s.db, key).value.price)
  }

  lemma QuietIsSettled(cfg: Config, w: World, key: string)
    requires SettleInv(cfg, w) && Quiet(w, key)
    ensures Settled(w.books, key)
  {
    FindFacts(w.books.db.bookings, key);
    assert Owned(cfg, w, key) ==> exists i :: i in w.calls && Live(w, i, key);
  }

  lemma OpeningSettles(cfg: Config)
    ensures WorldInv(cfg, OPENING) && SettleInv(cfg, OPENING)
  {
    OpeningInv(cfg);
  }

  /** Settlement: once no call of a key is under way, the key is settled. */
  lemma Settlement(cfg: Config, acts: seq<Action>, w: World, key: string)
    requires OrderlyRun(cfg, OPENING, acts, w) && Quiet(w, key)
    ensures Settled(w.books, key)
  {
    OpeningSettles(cfg);
    OrderlyRunKeeps(cfg, OPENING, acts, w);
    QuietIsSettled(cfg, w, key);
  }

  // ---- one call at a time ----

  /** A call starts only when no call of its key is under way; refunds and look-ups of a winner go
      through. Requests, booking ids and failing transactions are arbitrary. */
  predicate Serial(cfg: Config, w: World, a: Action)
    requires Enabled(w, a)
  {
    match a
    case Start(_, r) => Begin(cfg, r).phase.Done? || Quiet(w, r.key)
    case Go(id, e) => w.calls[id].phase.Recover? || w.calls[id].phase.Refund? ==> !e.broken
  }

  ghost predicate SerialRun(cfg: Config, w: World, acts: seq<Action>, w': World)
    decreases |acts|
  {
    if |acts| == 0 then w' == w
    else
      && Enabled(w, acts[0]) && Serial(cfg, w, acts[0])
      && SerialRun(cfg, Next(cfg, w, acts[0]), acts[1..], w')
  }

  predicate NoneShared(w: World) { forall i :: i in w.calls ==> !w.calls[i].shared }

  /** A call alone on its key may meet any failure and draw any id. */
  lemma AloneIsOrderly(cfg: Config, w: World, id: nat, e: Env)
    requires SettleInv(cfg, w) && Enabled(w, Go(id, e)) && !w.calls[id].shared
    requires w.calls[id].phase.Recover? || w.calls[id].phase.Refund? ==> !e.broken
    ensures Orderly(cfg, w, Go(id, e))
  {
    assert CallSettles(cfg, w, id);
    RivalsAreShared(cfg, w, id);
    hide Rival;
  }

  lemma RivalsAreShared(cfg: Config, w: World, id: nat)
    requires Sharing(w) && id in w.calls && !w.calls[id].phase.Done?
    ensures Rival(cfg, w, id) ==> w.calls[id].shared
  {
    if Rival(cfg, w, id) {
      var o :| o in w.calls && o != id && Live(w, o, w.calls[id].key);
      assert Overlap(w, id, o);
    }
  }

  lemma SerialStep(cfg: Config, w: World, a: Action)
    requires SettleInv(cfg, w) && NoneShared(w) && Enabled(w, a) && Serial(cfg, w, a)
    ensures Orderly(cfg, w, a) && NoneShared(Next(cfg, w, a))
  {
    match a
    case Start(id, r) => BeginPhase(cfg, r); NotShared(cfg, r); hide Begin;
    case Go(id, e) => AloneIsOrderly(cfg, w, id, e); hide Orderly, Advance;
  }

  lemma NotShared(cfg: Config, r: Request)
    ensures !Begin(cfg, r).shared
  {}

  lemma {:induction false} SerialIsOrderly(cfg: Config, w: World, acts: seq<Action>, w': World)
    requires WorldInv(cfg, w) && SettleInv(cfg, w) && NoneShared(w) && SerialRun(cfg, w, acts, w')
    ensures OrderlyRun(cfg, w, acts, w')
    decreases |acts|
  {
    if |acts| > 0 {
      SerialStep(cfg, w, acts[0]);
      hide WorldInv, SettleInv, Orderly, Serial, NoneShared, Next;
      var next := Next(cfg, w, acts[0]);
      match acts[0] {
        case Start(id, r) => StartKeepsWorld(cfg, w, id, r); StartKeeps(cfg, w, id, r);
        case Go(id, e) => GoKeepsWorld(cfg, w, id, e); GoKeeps(cfg, w, id, e);
      }
      SerialIsOrderly(cfg, next, acts[1..], w');
    }
  }

  /** With at most one call of a key under way at a time, every key not under way is settled. */
  lemma SerialSettlement(cfg: Config, acts: seq<Action>, w: World, key: string)
    requires SerialRun(cfg, OPENING, acts, w) && Quiet(w, key)
    ensures Settled(w.books, key)
  {
    OpeningSettles(cfg);
    SerialIsOrderly(cfg, OPENING, acts, w);
    Settlement(cfg, acts, w, key);
  }

  // ---- overlapping calls whose transactions commit or meet a constraint ----

  /** Calls that overlap under one key ask for the same seats; no transaction is given up, booking
      ids are new, refunds and look-ups of a winner go through. */
  predicate Plain(cfg: Config, w: World, a: Action)
    requires Enabled(w, a)
  {
    match a
    case Start(_, r) =>
      var c := Begin(cfg, r);
      !c.phase.Done? ==>
        forall o :: o in w.calls && Live(w, o, c.key) ==>
          w.calls[o].screening == c.screening && w.calls[o].seats == c.seats
    case Go(id, e) =>
      var c := w.calls[id];
      && (c.phase.Persist? ==> e.fault.None? && IdFree(w.books.db, e.bookingId))
      && (c.phase.Recover? || c.phase.Refund? ==> !e.broken)
  }

  ghost predicate PlainRun(cfg: Config, w: World, acts: seq<Action>, w': World)
    decreases |acts|
  {
    if |acts| == 0 then w' == w
    else
      && Enabled(w, acts[0]) && Plain(cfg, w, acts[0])
      && PlainRun(cfg, Next(cfg, w, acts[0]), acts[1..], w')
  }

  /** A payment is about to be taken back only because a seat is sold. */
  predicate SoldOut(w: World) {
    forall i :: i in w.calls && Unpaying(w.books.db, w.calls[i]) ==> !SeatsUnsold(w.books.db, w.calls[i])
  }

  lemma GoKeepsSoldOut(cfg: Config, w: World, id: nat, e: Env)
    requires WorldInv(cfg, w) && SoldOut(w) && Enabled(w, Go(id, e)) && Plain(cfg, w, Go(id, e))
    ensures SoldOut(Next(cfg, w, Go(id, e)))
  {
    var c, s, w' := w.calls[id], w.books, Next(cfg, w, Go(id, e));
    assert CallOk(cfg, s.db, c);
    StaysLate(cfg, c, s, e);
    FoundMeans(s.db, c.key);
    if c.phase.Persist? { RefusedMeans(cfg, c, s, e); }
    hide WorldInv, KeyFree, SeatsUnsold, IdFree, CanPersist, Persisted, FindByKey, Replay, CallOk, SeatsReal;
    forall i | i in w'.calls && Unpaying(w'.books.db, w'.calls[i]) ensures !SeatsUnsold(w'.books.db, w'.calls[i]) {
      DbGrows(cfg, c, s, e, w.calls[i]);
      SeatsRealOfStep(cfg, c, w'.calls[id].phase);
    }
  }

  lemma PlainStep(cfg: Config, w: World, a: Action)
    requires WorldInv(cfg, w) && SoldOut(w) && Enabled(w, a) && Plain(cfg, w, a)
    ensures Orderly(cfg, w, a) && SoldOut(Next(cfg, w, a))
  {
    match a
    case Start(id, r) => BeginPhase(cfg, r); hide Begin, SeatsUnsold, WorldInv, KeyFree;
    case Go(id, e) => GoKeepsSoldOut(cfg, w, id, e); hide Next, WorldInv, SoldOut, Rival;
  }

  lemma {:induction false} PlainIsOrderly(cfg: Config, w: World, acts: seq<Action>, w': World)
    requires WorldInv(cfg, w) && SoldOut(w) && PlainRun(cfg, w, acts, w')
    ensures OrderlyRun(cfg, w, acts, w')
    decreases |acts|
  {
    if |acts| > 0 {
      PlainStep(cfg, w, acts[0]);
      hide WorldInv, Orderly, Plain, SoldOut, Next;
      var next := Next(cfg, w, acts[0]);
      match acts[0] {
        case Start(id, r) => StartKeepsWorld(cfg, w, id, r);
        case Go(id, e) => GoKeepsWorld(cfg, w, id, e);
      }
      PlainIsOrderly(cfg, next, acts[1..], w');
    }
  }

  /** With overlapping calls of a key alike, and every transaction ending in success or in a
      violation that is not of the booking id, every key not under way is settled. */
  lemma OverlapSettlement(cfg: Config, acts: seq<Action>, w: World, key: string)
    requires PlainRun(cfg, OPENING, acts, w) && Quiet(w, key)
    ensures Settled(w.books, key)
  {
    OpeningSettles(cfg);
    PlainIsOrderly(cfg, OPENING, acts, w);
    Settlement(cfg, acts, w, key);
  }
}
