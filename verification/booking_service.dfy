/** Confirm as it runs, against the real locks, admission keys, tables and ledger: one walk
    through the steps of Confirms. */
module BookingServices {
  import opened Journal
  import opened SeatRequests
  import opened BookingTables
  import opened BookingInvariants
  import opened Confirms
  import SeatLocks
  import Admissions

  /** The calls out of confirm that may throw. */
  datatype Site =
    | AtLookup | AtGate | AtSeats | AtSold | AtRenew | AtRecover | AtRefund | AtRelease | AtPublish | AtSpend

  /** What a call of confirm meets on its way. */
  datatype Weather = Weather(broken: set<Site>, faultAt: nat, fault: Fault, bookingId: string)

  /** The steps of one call, each with what it met. */
  function Drives(cfg: Config, c: Call, s: Books, envs: seq<Env>): (Call, Books) {
    if |envs| == 0 then (c, s)
    else
      var (c1, s1) := Drives(cfg, c, s, envs[..|envs| - 1]);
      if c1.phase.Done? then (c1, s1)
      else
        var (phase, s2) := Advance(cfg, c1, s1, envs[|envs| - 1]);
        (c1.(phase := phase), s2)
  }

  lemma DrivesMore(cfg: Config, c: Call, s: Books, envs: seq<Env>, e: Env)
    ensures var (c1, s1) := Drives(cfg, c, s, envs);
            !c1.phase.Done? ==>
              Drives(cfg, c, s, envs + [e]) == (c1.(phase := Advance(cfg, c1, s1, e).0), Advance(cfg, c1, s1, e).1)
  {
    assert (envs + [e])[..|envs + [e]| - 1] == envs;
  }

  /** The money of a call whose transaction did not commit stays where it is. */
  predicate KeepsPayment(w: Weather, outcome: Outcome) {
    AtRefund in w.broken || (outcome == Integrity && AtRecover in w.broken)
  }

  /** How a call with a new key and no payment left the books: nothing happened before the payment,
      or it committed and is paid and booked, or it did not and is paid exactly if the money stayed. */
  predicate Ended(before: Books, after: Books, key: string, w: Weather, tx: Option<Outcome>) {
    match tx
    case None => after == before
    case Some(Committed) => PaymentId(key) in after.ledger && !KeyFree(after.db, key)
    case Some(o) => after.db == before.db && (PaymentId(key) in after.ledger <==> KeepsPayment(w, o))
  }

  /** Every seat of the call is under a live lock of its user. */
  predicate AllMine(l: SeatLocks.Locks, now: int, c: Call) {
    forall x :: x in c.seats ==> SeatLocks.Mine(l, now, SeatLocks.SeatKey(c.screening, x), c.user)
  }

  /** What a call with a new key is told when nothing throws: what it lacked, in the order of asking, or
      how its transaction ended. */
  ghost predicate ClearAnswer(cfg: Config, t: Tables, keys: map<string, int>, l: SeatLocks.Locks, now: int, r: Request,
                              seats: seq<string>, id: string, tx: Option<Outcome>, a: Answer)
    requires r.screening in cfg.screenings
  {
    var unreal := exists x :: x in seats && (r.screening, x) !in cfg.seats;
    var sold := exists x :: x in seats && !SeatFree(t, r.screening, x);
    var lost := exists x :: x in seats && !SeatLocks.Mine(l, now, SeatLocks.SeatKey(r.screening, x), r.user);
    if !Admissions.IsAdmitted(keys, now, cfg.screenings[r.screening], r.user) then
      tx.None? && a == Rejected("FORBIDDEN")
    else if unreal then tx.None? && a == Rejected("NO_SUCH_SEAT")
    else if sold || lost then tx.None? && a == Rejected("CONFLICT")
    else
      && tx.Some?
      && a == match tx.value
              case Committed => Success(id, r.screening, seats, cfg.unit * |seats|)
              case Integrity => Rejected("CONFLICT")
              case Faulted(f) => Rejected(if f == Failure then "ERROR" else "CONFLICT")
  }

  /** How a transaction leaves the tables: committed, one booking of the user at the price of its seats
      and one row for each seat are added; otherwise nothing is. Without a fault it commits if and only
      if the booking id is new. */
  ghost predicate Ends(cfg: Config, t: Tables, t': Tables, r: Request, seats: seq<string>, w: Weather,
                       outcome: Outcome)
  {
    && (outcome == Committed ==>
          && t'.bookings == t.bookings + [Booking(w.bookingId, r.screening, r.user, cfg.unit * |seats|, r.key)]
          && forall row :: row in t'.seats <==>
               row in t.seats || (row.bookingId == w.bookingId && row.screening == r.screening && row.seatNo in seats))
    && (outcome != Committed ==> t' == t)
    && (outcome == Integrity ==> !IdFree(t, w.bookingId))
    && (w.faultAt > |seats| + 1 ==> (outcome == Committed <==> IdFree(t, w.bookingId)))
  }

  lemma AnsweredRightly(t: Tables, c: Call, w: Weather, a: Answer)
    requires FindByKey(t, c.key).Some? && AtLookup !in w.broken ==> a == Replay(t, FindByKey(t, c.key).value, c)
    ensures UniqueBookings(t.bookings) && AtLookup !in w.broken ==>
              forall b :: b in t.bookings && b.key == c.key ==> RightAnswer(t, b, c.screening, c.seats, a)
  {
    if UniqueBookings(t.bookings) && AtLookup !in w.broken {
      forall b | b in t.bookings && b.key == c.key ensures RightAnswer(t, b, c.screening, c.seats, a) {
        ReplayIsRight(t, b, c);
      }
    }
  }

  lemma AnsweredClearly(cfg: Config, t: Tables, keys: map<string, int>, l: SeatLocks.Locks, now: int, r: Request,
                        c: Call, id: string, tx: Option<Outcome>, a: Answer)
    requires r.screening in cfg.screenings && c == Call(r.screening, c.seats, r.user, r.key, c.shared, c.phase)
    requires var movie := cfg.screenings[r.screening];
             && (tx.Some? <==>
                   && Admissions.IsAdmitted(keys, now, movie, c.user)
                   && SeatsReal(cfg, c) && SeatsUnsold(t, c) && AllMine(l, now, c))
             && a == if !Admissions.IsAdmitted(keys, now, movie, c.user) then Rejected("FORBIDDEN")
                     else if !SeatsReal(cfg, c) then Rejected("NO_SUCH_SEAT")
                     else if tx.None? || tx.value == Integrity then Rejected("CONFLICT")
                     else if tx.value.Faulted? then Rejected(if tx.value.fault == Failure then "ERROR" else "CONFLICT")
                     else Success(id, c.screening, c.seats, PriceOf(cfg, c))
    ensures ClearAnswer(cfg, t, keys, l, now, r, c.seats, id, tx, a)
  {
    hide Admissions.IsAdmitted, SeatFree, SeatLocks.Mine, SeatLocks.SeatKey;
  }

  lemma EndsAs(cfg: Config, t: Tables, t': Tables, r: Request, c: Call, w: Weather, outcome: Outcome)
    requires c == Call(r.screening, c.seats, r.user, r.key, c.shared, c.phase) && StrictlySorted(c.seats)
    requires KeyFree(t, r.key) && SeatsUnsold(t, c)
    requires t' == if outcome == Committed then Persisted(t, BookingOf(cfg, c, w.bookingId), c.screening, c.seats)
                   else t
    requires outcome == Integrity ==> !CanPersist(t, BookingOf(cfg, c, w.bookingId), c.screening, c.seats)
    requires w.faultAt > |c.seats| + 1 ==>
               (outcome == Committed <==> CanPersist(t, BookingOf(cfg, c, w.bookingId), c.screening, c.seats))
    ensures Ends(cfg, t, t', r, c.seats, w, outcome)
  {
    StrictlySortedDistinct(c.seats);
    SortedFacts(c.seats);
    RowsAre(w.bookingId, c.screening, Sorted(c.seats));
    assert forall x :: x in Sorted(c.seats) <==> x in multiset(Sorted(c.seats));
    assert forall x :: x in c.seats <==> x in multiset(c.seats);
    hide Rows, Sorted, SeatFree, IdFree, KeyFree, Distinct, StrictlySorted;
  }

  function Met(w: Weather, site: Site, answer: bool): Env { Env(site in w.broken, answer, answer, None, w.bookingId) }

  class BookingService {
    const cfg: Config
    const store: BookingStore
    const locks: SeatLocks.SeatLockService
    const admitted: Admissions.AdmittedService
    var ledger: map<string, int>
    var completed: seq<(string, string)>

    constructor (cfg: Config, store: BookingStore, locks: SeatLocks.SeatLockService,
                 admitted: Admissions.AdmittedService)
      ensures this.cfg == cfg && this.store == store && this.locks == locks && this.admitted == admitted
      ensures ledger == map[] && completed == []
    {
      this.cfg, this.store, this.locks, this.admitted := cfg, store, locks, admitted;
      ledger, completed := map[], [];
    }

    ghost function State(): Books
      reads this, store
    {
      Books(store.tables, ledger)
    }

    method Approve(key: string, amount: int)
      modifies this
      ensures ledger == Approved(old(ledger), key, amount) && completed == old(completed)
    {
      if PaymentId(key) !in ledger { ledger := ledger[PaymentId(key) := amount]; }
    }

    method SafeRefund(key: string, works: bool)
      modifies this
      ensures ledger == (if works then Refunded(old(ledger), key) else old(ledger)) && completed == old(completed)
    {
      if works { ledger := ledger - {PaymentId(key)}; }
    }

    /** Everything before money moves. A call gets past it only with a new key, an admission, seats
        that exist and are unsold, and live locks of its own on all of them, now renewed. */
    method Check(c: Call, movie: string, now: int, w: Weather) returns (phase: Phase, ghost envs: seq<Env>)
      requires c.phase.Lookup?
      modifies locks
      ensures phase.Done? || phase.Approve?
      ensures Drives(cfg, c, State(), envs) == (c.(phase := phase), State())
      ensures phase.Approve? ==>
                && FindByKey(store.tables, c.key).None?
                && Admissions.IsAdmitted(admitted.keys, now, movie, c.user)
                && SeatsReal(cfg, c) && SeatsUnsold(store.tables, c)
                && SeatLocks.RenewMine(old(locks.State()), now, locks.ttl, c.screening, c.seats, c.user)
                   == (locks.State(), true)
      ensures phase.Done? ==> locks.State() == old(locks.State())
      ensures phase.Done? && phase.answer.Success? ==> FindByKey(store.tables, c.key).Some?
      ensures FindByKey(store.tables, c.key).Some? && AtLookup !in w.broken ==>
                phase == Done(Replay(store.tables, FindByKey(store.tables, c.key).value, c))
      ensures FindByKey(store.tables, c.key).None? && w.broken == {} ==>
                phase == if !Admissions.IsAdmitted(admitted.keys, now, movie, c.user) then Done(Rejected("FORBIDDEN"))
                         else if !SeatsReal(cfg, c) then Done(Rejected("NO_SUCH_SEAT"))
                         else if !SeatsUnsold(store.tables, c) then Done(Rejected("CONFLICT"))
                         else if !AllMine(old(locks.State()), now, c) then Done(Rejected("CONFLICT"))
                         else Phase.Approve
    {
      hide Drives, FindByKey, Replay, SeatFree, Admissions.IsAdmitted, SeatLocks.Mine, SeatLocks.SetAll;
      ghost var s, k := State(), c;
      DrivesNone(cfg, c, s);
      envs := [];

      envs := Take(c, s, k, envs, Met(w, AtLookup, true));
      if AtLookup in w.broken { return Done(Rejected("ERROR")), envs; }
      match FindByKey(store.tables, c.key) {
        case Some(b) => return Done(Replay(store.tables, b, c)), envs;
        case None =>
      }
      k := c.(phase := Gate);

      var isAdmitted := admitted.HasKey(now, movie, c.user);
      envs := Take(c, s, k, envs, Met(w, AtGate, isAdmitted));
      if AtGate in w.broken { return Done(Rejected("ERROR")), envs; }
      if !isAdmitted { return Done(Rejected("FORBIDDEN")), envs; }
      k := c.(phase := SeatsExist);

      envs := Take(c, s, k, envs, Met(w, AtSeats, true));
      if AtSeats in w.broken { return Done(Rejected("ERROR")), envs; }
      if !SeatsReal(cfg, c) { return Done(Rejected("NO_SUCH_SEAT")), envs; }
      k := c.(phase := NotSold);

      envs := Take(c, s, k, envs, Met(w, AtSold, true));
      if AtSold in w.broken { return Done(Rejected("ERROR")), envs; }
      if !SeatsUnsold(store.tables, c) { return Done(Rejected("CONFLICT")), envs; }
      k := c.(phase := Renew);

      if AtRenew in w.broken {
        envs := Take(c, s, k, envs, Met(w, AtRenew, true));
        return Done(Rejected("ERROR")), envs;
      }
      var mine := locks.RenewSeats(now, c.screening, c.seats, c.user);
      envs := Take(c, s, k, envs, Met(w, AtRenew, mine));
      phase := if mine then Phase.Approve else Done(Rejected("CONFLICT"));
    }

    /** Notes one more step of the walk. */
    ghost method Take(c: Call, s: Books, k: Call, was: seq<Env>, e: Env) returns (envs: seq<Env>)
      requires Drives(cfg, c, s, was) == (k, s) && !k.phase.Done?
      ensures Drives(cfg, c, s, envs) == (k.(phase := Advance(cfg, k, s, e).0), Advance(cfg, k, s, e).1)
    {
      DrivesMore(cfg, c, s, was, e);
      envs := was + [e];
    }

    /** The look-up after an integrity violation: the winner's booking, or a seat conflict. */
    method Recover(c: Call, w: Weather) returns (a: Answer, ghost envs: seq<Env>)
      requires c.phase.Recover?
      modifies this
      ensures Drives(cfg, c, old(State()), envs) == (c.(phase := Done(a)), State())
      ensures completed == old(completed)
      ensures a.Success? ==> FindByKey(store.tables, c.key).Some?
      ensures FindByKey(store.tables, c.key).None? && AtRecover !in w.broken ==> a == Rejected("CONFLICT")
      ensures KeyFree(store.tables, c.key) && PaymentId(c.key) in old(ledger) ==>
                (PaymentId(c.key) in ledger <==> KeepsPayment(w, Integrity))
    {
      var look, pay := Met(w, AtRecover, true), Met(w, AtRefund, true);
      FindFacts(store.tables.bookings, c.key);
      hide Drives, Replay;
      DrivesNone(cfg, c, State());
      DrivesMore(cfg, c, State(), [], look);
      if AtRecover in w.broken { return Rejected("ERROR"), [] + [look]; }
      match FindByKey(store.tables, c.key)
      case Some(b) => return Replay(store.tables, b, c), [] + [look];
      case None =>
        DrivesMore(cfg, c, State(), [] + [look], pay);
        SafeRefund(c.key, AtRefund !in w.broken);
        return Rejected("CONFLICT"), [] + [look] + [pay];
    }

    /** Payment, transaction and compensation. */
    method Settle(c: Call, w: Weather) returns (phase: Phase, ghost envs: seq<Env>, ghost outcome: Outcome)
      requires c.phase.Approve?
      modifies this, store
      ensures if outcome == Committed then phase == After(w.bookingId, ReleaseLocks) else phase.Done?
      ensures outcome == Integrity ==>
                !CanPersist(old(store.tables), BookingOf(cfg, c, w.bookingId), c.screening, c.seats)
      ensures outcome.Faulted? ==> w.faultAt <= |c.seats| + 1
      ensures w.faultAt > |c.seats| + 1 ==>
                (outcome == Committed <==>
                   CanPersist(old(store.tables), BookingOf(cfg, c, w.bookingId), c.screening, c.seats))
      ensures store.tables == if outcome == Committed
                              then Persisted(old(store.tables), BookingOf(cfg, c, w.bookingId), c.screening, c.seats)
                              else old(store.tables)
      ensures outcome == Integrity && FindByKey(old(store.tables), c.key).None? && AtRecover !in w.broken ==>
                phase == Done(Rejected("CONFLICT"))
      ensures outcome.Faulted? ==> phase == Done(Rejected(if outcome.fault == Failure then "ERROR" else "CONFLICT"))
      ensures Drives(cfg, c, old(State()), envs) == (c.(phase := phase), State())
      ensures completed == old(completed)
      ensures phase.Done? && phase.answer.Success? ==> FindByKey(old(store.tables), c.key).Some?
      ensures KeyFree(old(store.tables), c.key) && PaymentId(c.key) !in old(ledger) ==>
                Ended(old(State()), State(), c.key, w, Some(outcome))
    {
      var pay, tx := Met(w, AtRefund, true), Env(false, true, true, None, w.bookingId);
      hide Drives, CanPersist;
      ghost var s := State();
      DrivesNone(cfg, c, s);
      DrivesMore(cfg, c, s, [], pay);
      Approve(c.key, PriceOf(cfg, c));
      ghost var s1, k := State(), c.(phase := Phase.Persist);
      assert Drives(cfg, c, s, [] + [pay]) == (k, s1);
      var result := store.Persist(BookingOf(cfg, c, w.bookingId), c.screening, c.seats, w.faultAt, w.fault);
      match result
      case Committed =>
        DrivesMore(cfg, c, s, [] + [pay], tx);
        CommittedKey(s1.db, BookingOf(cfg, c, w.bookingId), c.screening, c.seats);
        return After(w.bookingId, ReleaseLocks), [] + [pay] + [tx], result;
      case Integrity =>
        DrivesMore(cfg, c, s, [] + [pay], tx);
        var a;
        ghost var rest;
        a, rest := Recover(c.(phase := Phase.Recover), w);
        DrivesCompose(cfg, c, s, [] + [pay] + [tx], rest);
        return Done(a), [] + [pay] + [tx] + rest, result;
      case Faulted(f) =>
        var gave := tx.(fault := Some(f));
        DrivesMore(cfg, c, s, [] + [pay], gave);
        DrivesMore(cfg, c, s, [] + [pay] + [gave], pay);
        SafeRefund(c.key, AtRefund !in w.broken);
        return Done(Rejected(RefundCode(GaveUp(f)))), [] + [pay] + [gave] + [pay], result;
    }

    /** After the commit nothing can turn the success around: each step may fail on its own. */
    method PostCommit(c: Call, movie: string, now: int, w: Weather) returns (ghost envs: seq<Env>)
      requires c.phase == After(w.bookingId, ReleaseLocks)
      modifies this, locks, admitted
      ensures Drives(cfg, c, old(State()), envs)
           == (c.(phase := Done(Success(w.bookingId, c.screening, c.seats, PriceOf(cfg, c)))), State())
      ensures ledger == old(ledger)
      ensures locks.State() == if AtRelease in w.broken then old(locks.State())
                               else SeatLocks.ReleaseMine(old(locks.State()), now, c.screening, c.seats, c.user)
      ensures completed == old(completed) + if AtPublish in w.broken then [] else [(c.user, movie)]
      ensures admitted.keys
              == old(admitted.keys) - if AtSpend in w.broken then {} else {Admissions.AdmissionKey(movie, c.user)}
    {
      hide Drives;
      ghost var s := State();
      var e := Met(w, AtRelease, true);
      DrivesNone(cfg, c, s);
      DrivesMore(cfg, c, s, [], e);
      DrivesMore(cfg, c, s, [] + [e], e);
      DrivesMore(cfg, c, s, [] + [e] + [e], e);
      if AtRelease !in w.broken { locks.ReleaseSeats(now, c.screening, c.seats, c.user); }
      if AtPublish !in w.broken { completed := completed + [(c.user, movie)]; }
      if AtSpend !in w.broken { admitted.Remove(movie, c.user); }
      envs := [] + [e] + [e] + [e];
    }

    /** A normalised call from its look-up to its answer; tx is how its transaction ended, if it
        got that far. */
    method Walk(c: Call, movie: string, now: int, w: Weather)
      returns (a: Answer, ghost envs: seq<Env>, ghost tx: Option<Outcome>)
      requires c.phase.Lookup?
      modifies this, store, locks, admitted
      ensures Drives(cfg, c, old(State()), envs) == (c.(phase := Done(a)), State())
      ensures a.Success? && FindByKey(old(store.tables), c.key).None? ==>
                && Admissions.IsAdmitted(old(admitted.keys), now, movie, c.user)
                && SeatLocks.RenewMine(old(locks.State()), now, locks.ttl, c.screening, c.seats, c.user).1
                && var held := SeatLocks.RenewMine(old(locks.State()), now, locks.ttl, c.screening, c.seats, c.user).0;
                && locks.State() == (if AtRelease in w.broken then held
                                     else SeatLocks.ReleaseMine(held, now, c.screening, c.seats, c.user))
                && completed == old(completed) + (if AtPublish in w.broken then [] else [(c.user, movie)])
                && (AtSpend !in w.broken ==> !Admissions.IsAdmitted(admitted.keys, now, movie, c.user))
      ensures !a.Success? ==> completed == old(completed) && admitted.keys == old(admitted.keys)
      ensures !KeyFree(old(store.tables), c.key) ==> tx.None? && State() == old(State())
      ensures KeyFree(old(store.tables), c.key) ==> (tx == Some(Committed) <==> a.Success?)
      ensures FindByKey(old(store.tables), c.key).Some? && AtLookup !in w.broken ==>
                a == Replay(old(store.tables), FindByKey(old(store.tables), c.key).value, c)
      ensures FindByKey(old(store.tables), c.key).None? && w.broken == {} ==>
                && (tx.Some? <==>
                      && Admissions.IsAdmitted(old(admitted.keys), now, movie, c.user)
                      && SeatsReal(cfg, c) && SeatsUnsold(old(store.tables), c) && AllMine(old(locks.State()), now, c))
                && a == if !Admissions.IsAdmitted(old(admitted.keys), now, movie, c.user) then Rejected("FORBIDDEN")
                        else if !SeatsReal(cfg, c) then Rejected("NO_SUCH_SEAT")
                        else if tx.None? || tx.value == Integrity then Rejected("CONFLICT")
                        else if tx.value.Faulted? then
                          Rejected(if tx.value.fault == Failure then "ERROR" else "CONFLICT")
                        else Success(w.bookingId, c.screening, c.seats, PriceOf(cfg, c))
      ensures store.tables == if tx == Some(Committed)
                              then Persisted(old(store.tables), BookingOf(cfg, c, w.bookingId), c.screening, c.seats)
                              else old(store.tables)
      ensures tx.Some? && w.faultAt > |c.seats| + 1 ==>
                (tx == Some(Committed) <==>
                   CanPersist(old(store.tables), BookingOf(cfg, c, w.bookingId), c.screening, c.seats))
      ensures tx.Some? ==>
                && FindByKey(old(store.tables), c.key).None? && SeatsUnsold(old(store.tables), c)
                && (tx.value == Integrity ==>
                      !CanPersist(old(store.tables), BookingOf(cfg, c, w.bookingId), c.screening, c.seats))
      ensures KeyFree(old(store.tables), c.key) && PaymentId(c.key) !in old(ledger) ==>
                Ended(old(State()), State(), c.key, w, tx)
    {
      FindFacts(store.tables.bookings, c.key);
      hide Drives, SeatLocks.RenewMine, SeatLocks.ReleaseMine, KeyFree, SeatFree, PriceOf;
      ghost var s, more := State(), [];
      var phase;
      phase, envs := Check(c, movie, now, w);
      if phase.Done? { return phase.answer, envs, None; }
      ghost var outcome;
      phase, more, outcome := Settle(c.(phase := Phase.Approve), w);
      tx := Some(outcome);
      DrivesCompose(cfg, c, s, envs, more);
      envs := envs + more;
      if phase.Done? { return phase.answer, envs, tx; }
      more := PostCommit(c.(phase := phase), movie, now, w);
      DrivesCompose(cfg, c, s, envs, more);
      return Success(w.bookingId, c.screening, c.seats, PriceOf(cfg, c)), envs + more, tx;
    }

    /** confirm: a walk of the interleaved model with nobody in between. A booked key changes nothing
        and is answered with its booking if the request is the same, else with a conflict. A call
        nothing throws in books if and only if its user is admitted, its seats exist, are unsold and
        under its own locks, and the transaction commits; otherwise the answer says what was missing.
        A new booking is stored with its user, price and seats. With a new key and no payment the call
        is paid and booked, or neither, except that a payment stays without a booking exactly when the
        transaction did not commit and the refund threw, or it violated a constraint and the look-up
        for a winner threw. A new booking had an admission and its seat locks; it spends the admission,
        gives the locks back and announces itself once. */
    method Confirm(r: Request, now: int, w: Weather)
      returns (a: Answer, ghost envs: seq<Env>, ghost tx: Option<Outcome>)
      modifies this, store, locks, admitted
      ensures Drives(cfg, Begin(cfg, r), old(State()), envs) == (Begin(cfg, r).(phase := Done(a)), State())
      ensures r.screening !in cfg.screenings ==> a == Rejected("NO_SCREENING")
      ensures r.screening in cfg.screenings && Normalize(r.raw, cfg.maxSeats).Refused? ==>
                a == Rejected(Normalize(r.raw, cfg.maxSeats).code)
      ensures r.screening in cfg.screenings && Normalize(r.raw, cfg.maxSeats).Seats? ==>
                && (UniqueBookings(old(store.tables).bookings) && AtLookup !in w.broken ==>
                      forall b :: b in old(store.tables).bookings && b.key == r.key ==>
                        RightAnswer(old(store.tables), b, r.screening, Normalize(r.raw, cfg.maxSeats).seats, a))
                && (KeyFree(old(store.tables), r.key) && w.broken == {} ==>
                      ClearAnswer(cfg, old(store.tables), old(admitted.keys), old(locks.State()), now, r,
                                  Normalize(r.raw, cfg.maxSeats).seats, w.bookingId, tx, a))
                && (tx.Some? ==> Ends(cfg, old(store.tables), store.tables, r, Normalize(r.raw, cfg.maxSeats).seats, w,
                                      tx.value))
      ensures tx.None? ==> store.tables == old(store.tables)
      ensures a.Success? && FindByKey(old(store.tables), r.key).None? ==>
                && r.screening in cfg.screenings
                && var movie, seats := cfg.screenings[r.screening], Begin(cfg, r).seats;
                && Admissions.IsAdmitted(old(admitted.keys), now, movie, r.user)
                && SeatLocks.RenewMine(old(locks.State()), now, locks.ttl, r.screening, seats, r.user).1
                && var held := SeatLocks.RenewMine(old(locks.State()), now, locks.ttl, r.screening, seats, r.user).0;
                && locks.State() == (if AtRelease in w.broken then held
                                     else SeatLocks.ReleaseMine(held, now, r.screening, seats, r.user))
                && completed == old(completed) + (if AtPublish in w.broken then [] else [(r.user, movie)])
                && (AtSpend !in w.broken ==> !Admissions.IsAdmitted(admitted.keys, now, movie, r.user))
      ensures !a.Success? ==> completed == old(completed) && admitted.keys == old(admitted.keys)
      ensures !KeyFree(old(store.tables), r.key) ==> tx.None? && State() == old(State())
      ensures KeyFree(old(store.tables), r.key) ==> (tx == Some(Committed) <==> a.Success?)
      ensures KeyFree(old(store.tables), r.key) && PaymentId(r.key) !in old(ledger) ==>
                Ended(old(State()), State(), r.key, w, tx)
    {
      DrivesNone(cfg, Begin(cfg, r), State());
      if r.screening !in cfg.screenings { return Rejected("NO_SCREENING"), [], None; }
      var normalized := NormalizeRequest(r.raw, cfg.maxSeats);
      hide Drives, Normalize, SeatLocks.RenewMine, Admissions.IsAdmitted;
      hide RightAnswer, ClearAnswer, Ends, UniqueBookings;
      match normalized
      case Refused(code) => return Rejected(code), [], None;
      case Seats(seats) =>
        var c := Call(r.screening, seats, r.user, r.key, false, Phase.Lookup);
        NormalizeIsCanonical(r.raw, r.raw, cfg.maxSeats);
        ghost var t, l, keys := store.tables, locks.State(), admitted.keys;
        a, envs, tx := Walk(c, cfg.screenings[r.screening], now, w);
        FindFacts(t.bookings, r.key);
        AnsweredRightly(t, c, w, a);
        if w.broken == {} && KeyFree(t, r.key) { AnsweredClearly(cfg, t, keys, l, now, r, c, w.bookingId, tx, a); }
        if tx.Some? { EndsAs(cfg, t, store.tables, r, c, w, tx.value); }
    }
  }

  /** The key is paid exactly when it is booked. */
  predicate Agrees(s: Books, key: string) { PaymentId(key) in s.ledger <==> !KeyFree(s.db, key) }

  /** So a new key that was not paid agrees afterwards exactly when no payment was left behind. */
  lemma AgreesExactly(before: Books, after: Books, key: string, w: Weather, tx: Option<Outcome>)
    requires KeyFree(before.db, key) && PaymentId(key) !in before.ledger && Ended(before, after, key, w, tx)
    ensures Agrees(after, key) <==> !(tx.Some? && tx.value != Committed && KeepsPayment(w, tx.value))
  {}

  lemma DrivesNone(cfg: Config, c: Call, s: Books)
    ensures Drives(cfg, c, s, []) == (c, s)
  {}

  lemma {:induction false} DrivesCompose(cfg: Config, c: Call, s: Books, a: seq<Env>, b: seq<Env>)
    ensures Drives(cfg, c, s, a + b) == Drives(cfg, Drives(cfg, c, s, a).0, Drives(cfg, c, s, a).1, b)
    decreases |b|
  {
    hide Advance;
    if |b| == 0 {
      assert a + b == a;
    } else {
      DrivesCompose(cfg, c, s, a, b[..|b| - 1]);
      assert (a + b)[..|a + b| - 1] == a + b[..|b| - 1];
    }
  }

  lemma CommittedKey(t: Tables, b: Booking, screening: string, seats: seq<string>)
    ensures !KeyFree(Persisted(t, b, screening, seats), b.key)
  {
    assert b in Persisted(t, b, screening, seats).bookings;
  }
}
