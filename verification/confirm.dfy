/** Confirm calls as interleaved steps over the booking tables and the payment ledger. */
module Confirms {
  import opened SortedSets
  import opened Journal
  import opened SeatRequests
  import opened BookingTables
  import opened BookingInvariants

  /** screenings maps a screening to its movie; seats holds the seats that exist. */
  datatype Config = Config(unit: int, maxSeats: int, screenings: map<string, string>, seats: set<(string, string)>)

  datatype Request = Request(screening: string, raw: seq<string>, user: string, key: string)

  datatype Answer = Success(id: string, screening: string, seats: seq<string>, price: int) | Rejected(code: string)

  /** Why a payment is taken back. */
  datatype Why = SeatConflict | GaveUp(fault: Fault)

  datatype PostStep = ReleaseLocks | PublishCompleted | SpendAdmission

  /** Where a call stands: what it does next. */
  datatype Phase =
    | Lookup | Gate | SeatsExist | NotSold | Renew | Approve | Persist | Recover
    | Refund(why: Why) | After(id: string, next: PostStep) | Done(answer: Answer)

  /** shared: some other unfinished call has had the same key. */
  datatype Call = Call(screening: string, seats: seq<string>, user: string, key: string, shared: bool, phase: Phase)

  /** The database and the payment ledger, by payment id. */
  datatype Books = Books(db: Tables, ledger: map<string, int>)

  /** What a step meets: whether its call out throws, what Redis answers, whether the transaction
      gives up, and the booking id it draws. */
  datatype Env = Env(broken: bool, admitted: bool, holds: bool, fault: Option<Fault>, bookingId: string)

  // ---- one call ----

  function PaymentId(key: string): string { "PAY-" + key }

  lemma PaymentIdInjective(a: string, b: string)
    ensures PaymentId(a) == PaymentId(b) ==> a == b
  {
    assert PaymentId(a)[4..] == a && PaymentId(b)[4..] == b;
  }

  function PriceOf(cfg: Config, c: Call): int { cfg.unit * |c.seats| }

  function BookingOf(cfg: Config, c: Call, id: string): Booking {
    Booking(id, c.screening, c.user, PriceOf(cfg, c), c.key)
  }

  /** ensureSeatsExist */
  predicate SeatsReal(cfg: Config, c: Call) { forall x :: x in c.seats ==> (c.screening, x) in cfg.seats }

  /** ensureNotSold */
  predicate SeatsUnsold(db: Tables, c: Call) { forall x :: x in c.seats ==> SeatFree(db, c.screening, x) }

  /** ensureSameRequest */
  predicate SameRequest(db: Tables, b: Booking, c: Call) {
    b.screening == c.screening && SeatsOf(db, b.id) == ToSet(c.seats)
  }

  /** The booking found under the key answers the call, or the key was used for something else. */
  function Replay(db: Tables, b: Booking, c: Call): Answer {
    if SameRequest(db, b, c) then Success(b.id, b.screening, c.seats, b.price) else Rejected("CONFLICT")
  }

  /** A payment approved twice under one key is one payment. */
  function Approved(ledger: map<string, int>, key: string, amount: int): map<string, int> {
    if PaymentId(key) in ledger then ledger else ledger[PaymentId(key) := amount]
  }

  function Refunded(ledger: map<string, int>, key: string): map<string, int> { ledger - {PaymentId(key)} }

  function AfterStep(next: PostStep, id: string, done: Answer): Phase {
    match next
    case ReleaseLocks => After(id, PublishCompleted)
    case PublishCompleted => After(id, SpendAdmission)
    case SpendAdmission => Done(done)
  }

  function RefundCode(why: Why): string { if why == GaveUp(Failure) then "ERROR" else "CONFLICT" }

  /** One step of confirm: the call out of the current phase and the branch its answer selects. */
  function Advance(cfg: Config, c: Call, s: Books, e: Env): (Phase, Books)
    requires !c.phase.Done?
  {
    match c.phase
    case Lookup =>
      if e.broken then (Done(Rejected("ERROR")), s)
      else (match FindByKey(s.db, c.key) case Some(b) => Done(Replay(s.db, b, c)) case None => Gate, s)
    case Gate =>
      (if e.broken then Done(Rejected("ERROR")) else if e.admitted then SeatsExist else Done(Rejected("FORBIDDEN")), s)
    case SeatsExist =>
      (if e.broken then Done(Rejected("ERROR"))
       else if SeatsReal(cfg, c) then NotSold
       else Done(Rejected("NO_SUCH_SEAT")), s)
    case NotSold =>
      (if e.broken then Done(Rejected("ERROR"))
       else if SeatsUnsold(s.db, c) then Renew
       else Done(Rejected("CONFLICT")), s)
    case Renew =>
      (if e.broken then Done(Rejected("ERROR")) else if e.holds then Approve else Done(Rejected("CONFLICT")), s)
    case Approve => (Persist, s.(ledger := Approved(s.ledger, c.key, PriceOf(cfg, c))))
    case Persist =>
      if e.fault.Some? then (Refund(GaveUp(e.fault.value)), s)
      else if CanPersist(s.db, BookingOf(cfg, c, e.bookingId), c.screening, c.seats) then
        (After(e.bookingId, ReleaseLocks),
         s.(db := Persisted(s.db, BookingOf(cfg, c, e.bookingId), c.screening, c.seats)))
      else (Recover, s)
    case Recover =>
      if e.broken then (Done(Rejected("ERROR")), s)
      else (match FindByKey(s.db, c.key) case Some(b) => Done(Replay(s.db, b, c)) case None => Refund(SeatConflict), s)
    case Refund(why) =>
      (Done(Rejected(RefundCode(why))), if e.broken then s else s.(ledger := Refunded(s.ledger, c.key)))
    case After(id, next) => (AfterStep(next, id, Success(id, c.screening, c.seats, PriceOf(cfg, c))), s)
  }

  /** What a request is before its first step: refused outright, or a call about to look its key up. */
  function Begin(cfg: Config, r: Request): Call {
    if r.screening !in cfg.screenings then
      Call(r.screening, [], r.user, r.key, false, Done(Rejected("NO_SCREENING")))
    else
      match Normalize(r.raw, cfg.maxSeats)
      case Refused(code) => Call(r.screening, [], r.user, r.key, false, Done(Rejected(code)))
      case Seats(seats) => Call(r.screening, seats, r.user, r.key, false, Lookup)
  }

  // ---- all calls together ----

  datatype World = World(books: Books, calls: map<nat, Call>)

  datatype Action = Start(call: nat, request: Request) | Go(call: nat, env: Env)

  const OPENING := World(Books(Tables([], []), map[]), map[])

  /** Calls of the key still under way. */
  predicate Live(w: World, id: nat, key: string) {
    id in w.calls && w.calls[id].key == key && !w.calls[id].phase.Done?
  }

  predicate Enabled(w: World, a: Action) {
    match a
    case Start(id, _) => id !in w.calls
    case Go(id, _) => id in w.calls && !w.calls[id].phase.Done?
  }

  /** A call that starts while others of its key are under way makes all of them shared. */
  function Joined(w: World, id: nat, c: Call): map<nat, Call> {
    if c.phase.Done? then w.calls[id := c]
    else
      var others := (map o | o in w.calls :: if Live(w, o, c.key) then w.calls[o].(shared := true) else w.calls[o]);
      others[id := c.(shared := exists o :: o in w.calls && Live(w, o, c.key))]
  }

  function Next(cfg: Config, w: World, a: Action): World
    requires Enabled(w, a)
  {
    match a
    case Start(id, r) => w.(calls := Joined(w, id, Begin(cfg, r)))
    case Go(id, e) =>
      var c := w.calls[id];
      var (phase, books) := Advance(cfg, c, w.books, e);
      World(books, w.calls[id := c.(phase := phase)])
  }

  ghost predicate Reaches(cfg: Config, w: World, acts: seq<Action>, w': World)
    decreases |acts|
  {
    if |acts| == 0 then w' == w
    else Enabled(w, acts[0]) && Reaches(cfg, Next(cfg, w, acts[0]), acts[1..], w')
  }

  // ---- what every interleaving keeps ----

  /** A successful answer describes the booking stored under its key. */
  ghost predicate Answers(db: Tables, key: string, a: Answer) {
    a.Success? ==>
      && StrictlySorted(a.seats)
      && exists b :: b in db.bookings && b.key == key && b.id == a.id && b.screening == a.screening
                     && b.price == a.price && SeatsOf(db, b.id) == ToSet(a.seats)
  }

  /** The phases behind the check that the seats exist. */
  predicate Checked(p: Phase) {
    p.NotSold? || p.Renew? || p.Approve? || p.Persist? || p.Recover? || p.Refund? || p.After?
  }

  ghost predicate CallOk(cfg: Config, db: Tables, c: Call) {
    && StrictlySorted(c.seats)
    && (Checked(c.phase) ==> SeatsReal(cfg, c))
    && (c.phase.After? ==> Answers(db, c.key, Success(c.phase.id, c.screening, c.seats, PriceOf(cfg, c))))
    && (c.phase.Done? ==> Answers(db, c.key, c.phase.answer))
  }

  /** An unfinished call is for a screening there is and for seats that can be asked for one by one. */
  ghost predicate Asked(cfg: Config, c: Call) {
    c.phase.Done?
    || (c.screening in cfg.screenings && c.seats != []
        && forall x :: x in c.seats ==> exists y :: Normalize([y], cfg.maxSeats) == Seats([x]))
  }

  ghost predicate WorldInv(cfg: Config, w: World) {
    && TablesInv(w.books.db, cfg.unit)
    && (forall id :: id in w.calls ==> CallOk(cfg, w.books.db, w.calls[id]))
    && forall id :: id in w.calls ==> Asked(cfg, w.calls[id])
  }

  lemma AnswersSurvive(db: Tables, b: Booking, seats: seq<string>, key: string, a: Answer)
    requires SeatsBelong(db) && IdFree(db, b.id) && Answers(db, key, a)
    ensures Answers(Persisted(db, b, b.screening, seats), key, a)
  {
    if a.Success? {
      var o :| o in db.bookings && o.key == key && o.id == a.id && o.screening == a.screening
               && o.price == a.price && SeatsOf(db, o.id) == ToSet(a.seats);
      SeatsAfterPersist(db, b, seats, o.id);
      assert o in Persisted(db, b, b.screening, seats).bookings;
    }
  }

  lemma ReplayAnswers(db: Tables, c: Call)
    requires StrictlySorted(c.seats) && FindByKey(db, c.key).Some?
    ensures Answers(db, c.key, Replay(db, FindByKey(db, c.key).value, c))
  {
    FindFacts(db.bookings, c.key);
  }

  lemma StrictlySortedDistinct(s: seq<string>)
    requires StrictlySorted(s)
    ensures Distinct(s)
  {
    forall i, j | 0 <= i < j < |s| ensures s[i] != s[j] { LexLessTrichotomy(s[i], s[j]); }
  }

  predicate Commits(cfg: Config, c: Call, s: Books, e: Env) {
    c.phase.Persist? && e.fault.None? && CanPersist(s.db, BookingOf(cfg, c, e.bookingId), c.screening, c.seats)
  }

  lemma AdvanceDb(cfg: Config, c: Call, s: Books, e: Env)
    requires !c.phase.Done?
    ensures Advance(cfg, c, s, e).1.db ==
              if Commits(cfg, c, s, e) then Persisted(s.db, BookingOf(cfg, c, e.bookingId), c.screening, c.seats)
              else s.db
  {
    hide Persisted, CanPersist, Replay, FindByKey;
  }

  /** Every phase leaves the stepping call consistent with the tables it leaves. */
  lemma AdvanceKeepsCall(cfg: Config, c: Call, s: Books, e: Env)
    requires !c.phase.Done? && TablesInv(s.db, cfg.unit) && CallOk(cfg, s.db, c)
    ensures var (phase, books) := Advance(cfg, c, s, e);
            CallOk(cfg, books.db, c.(phase := phase))
  {
    hide TablesInv, CanPersist, Replay, FindByKey;
    if Commits(cfg, c, s, e) {
      CommitAnswers(cfg, c, s.db, e.bookingId);
    } else if c.phase.Lookup? || c.phase.Recover? {
      if FindByKey(s.db, c.key).Some? { ReplayAnswers(s.db, c); }
    }
  }

  lemma CommitAnswers(cfg: Config, c: Call, db: Tables, id: string)
    requires TablesInv(db, cfg.unit) && StrictlySorted(c.seats)
    requires CanPersist(db, BookingOf(cfg, c, id), c.screening, c.seats)
    ensures Answers(Persisted(db, BookingOf(cfg, c, id), c.screening, c.seats), c.key,
                    Success(id, c.screening, c.seats, PriceOf(cfg, c)))
  {
    var b := BookingOf(cfg, c, id);
    SeatsAfterPersist(db, b, c.seats, id);
    assert b in Persisted(db, b, c.screening, c.seats).bookings;
  }

  lemma OthersSurvive(cfg: Config, db: Tables, b: Booking, seats: seq<string>, c: Call)
    requires SeatsBelong(db) && IdFree(db, b.id) && CallOk(cfg, db, c)
    ensures CallOk(cfg, Persisted(db, b, b.screening, seats), c)
  {
    hide Answers, Persisted;
    if c.phase.After? {
      AnswersSurvive(db, b, seats, c.key, Success(c.phase.id, c.screening, c.seats, PriceOf(cfg, c)));
    }
    if c.phase.Done? { AnswersSurvive(db, b, seats, c.key, c.phase.answer); }
  }

  lemma StartKeepsWorld(cfg: Config, w: World, id: nat, r: Request)
    requires WorldInv(cfg, w) && id !in w.calls
    ensures WorldInv(cfg, Next(cfg, w, Start(id, r)))
  {
    NormalizeIsCanonical(r.raw, r.raw, cfg.maxSeats);
    StartKeepsAsked(cfg, w, id, r);
    hide TablesInv, Answers, Normalize, Asked;
    var w' := Next(cfg, w, Start(id, r));
    assert CallOk(cfg, w.books.db, Begin(cfg, r)) by { NotSuccess(w.books.db, r, cfg); }
    forall o | o in w'.calls ensures CallOk(cfg, w'.books.db, w'.calls[o]) {
      if o != id { assert CallOk(cfg, w.books.db, w.calls[o]); }
    }
  }

  lemma StartKeepsAsked(cfg: Config, w: World, id: nat, r: Request)
    requires (forall o :: o in w.calls ==> Asked(cfg, w.calls[o])) && id !in w.calls
    ensures var w' := Next(cfg, w, Start(id, r)); forall o :: o in w'.calls ==> Asked(cfg, w'.calls[o])
  {
    if Normalize(r.raw, cfg.maxSeats).Seats? { EachSeatAlone(r.raw, cfg.maxSeats); }
    hide Normalize;
    assert Asked(cfg, Begin(cfg, r));
    hide Begin;
  }

  lemma NotSuccess(db: Tables, r: Request, cfg: Config)
    ensures Begin(cfg, r).phase.Done? ==> Answers(db, r.key, Begin(cfg, r).phase.answer)
  {}

  lemma GoKeepsWorld(cfg: Config, w: World, id: nat, e: Env)
    requires WorldInv(cfg, w) && Enabled(w, Go(id, e))
    ensures WorldInv(cfg, Next(cfg, w, Go(id, e)))
  {
    var c, s := w.calls[id], w.books;
    AdvanceKeepsCall(cfg, c, s, e);
    AdvanceDb(cfg, c, s, e);
    var w' := Next(cfg, w, Go(id, e));
    hide Advance, CallOk, CanPersist, Normalize;
    var b := BookingOf(cfg, c, e.bookingId);
    if Commits(cfg, c, s, e) {
      PersistKeepsInv(s.db, b, c.seats, cfg.unit);
      IdFreeOf(s.db, b, c.seats);
      hide TablesInv, Persisted;
      forall o | o in w'.calls ensures CallOk(cfg, w'.books.db, w'.calls[o]) {
        if o != id { OthersSurvive(cfg, s.db, b, c.seats, w.calls[o]); }
      }
    }
  }

  lemma IdFreeOf(t: Tables, b: Booking, seats: seq<string>)
    requires CanPersist(t, b, b.screening, seats)
    ensures IdFree(t, b.id)
  {}

  lemma {:induction false} ReachableWorldInv(cfg: Config, w: World, acts: seq<Action>, w': World)
    requires WorldInv(cfg, w) && Reaches(cfg, w, acts, w')
    ensures WorldInv(cfg, w')
    decreases |acts|
  {
    if |acts| > 0 {
      match acts[0]
      case Start(id, r) => StartKeepsWorld(cfg, w, id, r); ReachableWorldInv(cfg, Next(cfg, w, acts[0]), acts[1..], w');
      case Go(id, e) => GoKeepsWorld(cfg, w, id, e); ReachableWorldInv(cfg, Next(cfg, w, acts[0]), acts[1..], w');
    }
  }

  lemma OpeningInv(cfg: Config)
    ensures WorldInv(cfg, OPENING)
  {
    var t := Tables([], []);
    forall sc ensures Revenue(t.bookings, sc) == cfg.unit * SoldCount(t.seats, sc) {}
  }

  // ---- main results ----

  /** Idempotency under any interleaving and any failures: whatever answers of success one key ever
      gets, they are one and the same answer. */
  lemma IdempotentConfirm(cfg: Config, acts: seq<Action>, w: World, i: nat, j: nat)
    requires Reaches(cfg, OPENING, acts, w) && i in w.calls && j in w.calls && w.calls[i].key == w.calls[j].key
    requires w.calls[i].phase.Done? && w.calls[i].phase.answer.Success?
    requires w.calls[j].phase.Done? && w.calls[j].phase.answer.Success?
    ensures w.calls[i].phase.answer == w.calls[j].phase.answer
  {
    OpeningInv(cfg);
    ReachableWorldInv(cfg, OPENING, acts, w);
    SameAnswer(w.books.db, cfg.unit, w.calls[i].key, w.calls[i].phase.answer, w.calls[j].phase.answer);
  }

  lemma SameAnswer(db: Tables, unit: int, key: string, a: Answer, b: Answer)
    requires UniqueBookings(db.bookings) && Answers(db, key, a) && Answers(db, key, b) && a.Success? && b.Success?
    ensures a == b
  {
    var x :| x in db.bookings && x.key == key && x.id == a.id && x.screening == a.screening
             && x.price == a.price && SeatsOf(db, x.id) == ToSet(a.seats);
    var y :| y in db.bookings && y.key == key && y.id == b.id && y.screening == b.screening
             && y.price == b.price && SeatsOf(db, y.id) == ToSet(b.seats);
    assert x == y;
    SortedSetsEqual(a.seats, b.seats);
  }

  /** The answer to a key that is booked: that booking, if it is of the same screening and its rows are
      those of the same seats, and a conflict otherwise. */
  ghost predicate RightAnswer(db: Tables, b: Booking, screening: string, seats: seq<string>, a: Answer) {
    a == if b.screening == screening
            && forall x :: x in seats <==> exists r :: r in db.seats && r.bookingId == b.id && r.seatNo == x
         then Success(b.id, screening, seats, b.price)
         else Rejected("CONFLICT")
  }

  lemma ReplayIsRight(db: Tables, b: Booking, c: Call)
    requires UniqueBookings(db.bookings) && b in db.bookings && b.key == c.key
    ensures FindByKey(db, c.key) == Some(b) && RightAnswer(db, b, c.screening, c.seats, Replay(db, b, c))
  {
    FindFacts(db.bookings, c.key);
    assert forall x :: x in SeatsOf(db, b.id) <==> exists r :: r in db.seats && r.bookingId == b.id && r.seatNo == x;
    assert SeatsOf(db, b.id) == ToSet(c.seats) <==> forall x :: x in c.seats <==> x in SeatsOf(db, b.id);
  }

  /** A look-up that works answers a booked key rightly, before the payment and after a violation alike,
      and changes nothing. */
  lemma LookUpAnswers(cfg: Config, c: Call, s: Books, e: Env, b: Booking)
    requires (c.phase.Lookup? || c.phase.Recover?) && !e.broken
    requires UniqueBookings(s.db.bookings) && b in s.db.bookings && b.key == c.key
    ensures var (p, s') := Advance(cfg, c, s, e);
            s' == s && p.Done? && RightAnswer(s.db, b, c.screening, c.seats, p.answer)
  {
    ReplayIsRight(s.db, b, c);
    hide RightAnswer, Replay, FindByKey;
  }

  /** Idempotency, the other half. Once a call has booked, in any interleaving and whatever fails in
      between, every later look-up of its key that works gives the very same answer to a request for
      the same screening and seats, and a conflict to any other. */
  lemma RetryGetsTheAnswer(cfg: Config, acts: seq<Action>, w: World, i: nat, j: nat, e: Env)
    requires Reaches(cfg, OPENING, acts, w) && i in w.calls && j in w.calls && w.calls[i].key == w.calls[j].key
    requires w.calls[i].phase.Done? && w.calls[i].phase.answer.Success?
    requires (w.calls[j].phase.Lookup? || w.calls[j].phase.Recover?) && !e.broken
    ensures var first, c := w.calls[i].phase.answer, w.calls[j];
            Next(cfg, w, Go(j, e)) == w.(calls := w.calls[j := c.(phase := Done(
              if c.screening == first.screening && c.seats == first.seats then first else Rejected("CONFLICT")))])
  {
    OpeningInv(cfg);
    ReachableWorldInv(cfg, OPENING, acts, w);
    assert CallOk(cfg, w.books.db, w.calls[i]) && CallOk(cfg, w.books.db, w.calls[j]);
    hide Reaches, WorldInv, Normalize;
    LookUpRepeats(cfg, w.calls[j], w.books, e, w.calls[i].phase.answer);
  }

  lemma LookUpRepeats(cfg: Config, c: Call, s: Books, e: Env, first: Answer)
    requires (c.phase.Lookup? || c.phase.Recover?) && !e.broken && UniqueBookings(s.db.bookings)
    requires first.Success? && Answers(s.db, c.key, first) && StrictlySorted(c.seats)
    ensures Advance(cfg, c, s, e)
         == (Done(if c.screening == first.screening && c.seats == first.seats then first else Rejected("CONFLICT")), s)
  {
    var b :| b in s.db.bookings && b.key == c.key && b.id == first.id && b.screening == first.screening
             && b.price == first.price && SeatsOf(s.db, b.id) == ToSet(first.seats);
    LookUpAnswers(cfg, c, s, e, b);
    hide Advance, UniqueBookings;
    assert forall x :: x in SeatsOf(s.db, b.id) <==>
             exists r :: r in s.db.seats && r.bookingId == b.id && r.seatNo == x;
    if ToSet(c.seats) == ToSet(first.seats) { SortedSetsEqual(c.seats, first.seats); }
    assert ToSet(c.seats) == ToSet(first.seats) <==> forall x :: x in c.seats <==> x in SeatsOf(s.db, b.id);
  }

  /** With confirms interleaved at will, locks lapsing and transactions failing, no seat is sold
      twice, no key books twice, and a screening has earned exactly its sold seats. */
  lemma SalesAreSound(cfg: Config, acts: seq<Action>, w: World, a: Booking, b: Booking, sc: string)
    requires Reaches(cfg, OPENING, acts, w) && a in w.books.db.bookings && b in w.books.db.bookings
    ensures a != b ==> a.key != b.key && a.id != b.id
    ensures a != b && a.screening == b.screening ==> SeatsOf(w.books.db, a.id) !! SeatsOf(w.books.db, b.id)
    ensures Revenue(w.books.db.bookings, sc) == cfg.unit * |SoldSeats(w.books.db.seats, sc)|
  {
    OpeningInv(cfg);
    ReachableWorldInv(cfg, OPENING, acts, w);
    NoDoubleSale(w.books.db, cfg.unit, a, b, sc);
  }
}
