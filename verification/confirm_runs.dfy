/** Runs of confirm that end with money and bookings apart. */
module ConfirmRuns {
  import opened SortedSets
  import opened Journal
  import opened SeatRequests
  import opened BookingTables
  import opened Confirms
  import opened ConfirmSettlement
  import opened ConfirmRefunds

  const SHOP := Config(6000, 4, map["sc1" := "m1"], {("sc1", "A1"), ("sc1", "A2")})

  /** A double click asks for A1 twice under key k; somebody else wants A2. */
  const CLICK := Request("sc1", ["A1"], "u", "k")
  const OTHER := Request("sc1", ["A2"], "v", "z")

  function Fresh(r: Request, shared: bool, p: Phase): Call { Call("sc1", r.raw, r.user, r.key, shared, p) }

  lemma NormalizeOne(s: string)
    requires s == "A1" || s == "A2"
    ensures Normalize([s], 4) == Seats([s])
  {
    NormalizeIsCanonical([s], [s], 4);
    assert !IsWhitespace(s[0]) && !IsBlank(s);
    assert Trim(s) == s;
    assert Trimmed([s]) == ToSet([s]);
    SortedSetsEqual(Normalize([s], 4).seats, [s]);
  }

  lemma Begins(r: Request)
    requires r == CLICK || r == OTHER
    ensures Begin(SHOP, r) == Fresh(r, false, Phase.Lookup)
  {
    NormalizeOne(r.raw[0]);
    hide Normalize;
  }

  lemma {:induction false} ReachesMore(cfg: Config, w: World, acts: seq<Action>, w1: World, a: Action)
    requires Reaches(cfg, w, acts, w1) && Enabled(w1, a)
    ensures Reaches(cfg, w, acts + [a], Next(cfg, w1, a))
    decreases |acts|
  {
    if |acts| == 0 {
      assert [a][1..] == [];
    } else {
      assert (acts + [a])[1..] == acts[1..] + [a];
      ReachesMore(cfg, Next(cfg, w, acts[0]), acts[1..], w1, a);
    }
  }

  lemma {:induction false} ReachesJoins(cfg: Config, w: World, a: seq<Action>, w1: World, b: seq<Action>, w2: World)
    requires Reaches(cfg, w, a, w1) && OrderlyRun(cfg, w1, b, w2)
    ensures Reaches(cfg, w, a + b, w2)
    decreases |b|
  {
    hide Orderly, Next;
    if |b| == 0 {
      assert a + b == a;
    } else {
      ReachesMore(cfg, w, a, w1, b[0]);
      ReachesJoins(cfg, w, a + [b[0]], Next(cfg, w1, b[0]), b[1..], w2);
      assert a + [b[0]] + b[1..] == a + b;
    }
  }

  /** A call whose key and seats are free goes to its transaction. */
  lemma {:induction false} Approach(acts: seq<Action>, w: World, id: nat) returns (more: seq<Action>, w': World)
    requires Reaches(SHOP, OPENING, acts, w) && Fine(acts) && id in w.calls
    requires MayBook(SHOP, w.books, w.calls[id]) && KeyFree(w.books.db, w.calls[id].key)
    ensures Reaches(SHOP, OPENING, more, w') && Fine(more)
    ensures w'.books.db == w.books.db && w'.calls == w.calls[id := w.calls[id].(phase := Phase.Persist)]
    ensures if w.calls[id].phase.Persist? then w' == w else PaymentId(w.calls[id].key) in w'.books.ledger
    decreases Rank(w.calls[id].phase)
  {
    hide KeyFree, SeatsReal, SeatsUnsold;
    if w.calls[id].phase.Persist? {
      more, w' := acts, w;
    } else {
      var a := Go(id, FineEnv(""));
      ReachesMore(SHOP, OPENING, acts, w, a);
      QuietStep(w.calls[id], w.books, "");
      LedgerOfOwn(SHOP, w.calls[id], w.books, a.env);
      StepsOn(w.calls[id], w.books);
      StepLowersRank(SHOP, w.calls[id], w.books, a.env);
      hide Reaches, Advance;
      more, w' := Approach(acts + [a], Next(SHOP, w, a), id);
    }
  }

  lemma StepsOn(c: Call, s: Books)
    requires MayBook(SHOP, s, c) && !c.phase.Persist?
    ensures Advance(SHOP, c, s, FineEnv("")).0.Persist? ==> c.phase.Approve?
  {
    hide FindByKey, Replay, SeatsReal, SeatsUnsold;
  }

  lemma QuietStep(c: Call, s: Books, id: string)
    requires MayBook(SHOP, s, c) && KeyFree(s.db, c.key) && !c.phase.Persist?
    ensures var (p, s') := Advance(SHOP, c, s, FineEnv(id));
            s'.db == s.db && MayBook(SHOP, s', c.(phase := p))
  {
    FindFacts(s.db.bookings, c.key);
    SeatsRealOfStep(SHOP, c, Advance(SHOP, c, s, FineEnv(id)).0);
    hide Persisted, CanPersist, KeyFree, SeatsReal, SeatsUnsold;
  }

  /** Start a request and take it to its transaction. */
  lemma StartOne(acts: seq<Action>, w: World, id: nat, r: Request) returns (more: seq<Action>, w': World)
    requires Reaches(SHOP, OPENING, acts, w) && Fine(acts) && id !in w.calls && (r == CLICK || r == OTHER)
    requires Quiet(w, r.key) && KeyFree(w.books.db, r.key) && SeatFree(w.books.db, "sc1", r.raw[0])
    ensures Reaches(SHOP, OPENING, more, w') && Fine(more)
    ensures w'.books.db == w.books.db && w'.calls == w.calls[id := Fresh(r, false, Phase.Persist)]
    ensures PaymentId(r.key) in w'.books.ledger
  {
    hide KeyFree, SeatFree, Reaches, Next, MayBook, Live, Quiet;
    StartsAlone(w, id, r);
    var start := Start(id, r);
    ReachesMore(SHOP, OPENING, acts, w, start);
    FineAfterStart(acts, id, r);
    more, w' := Approach(acts + [start], w.(calls := w.calls[id := Fresh(r, false, Phase.Lookup)]), id);
    hide Fine;
  }

  lemma FineAfterStart(acts: seq<Action>, id: nat, r: Request)
    requires Fine(acts)
    ensures Fine(acts + [Start(id, r)])
  {}

  lemma StartsAlone(w: World, id: nat, r: Request)
    requires id !in w.calls && (r == CLICK || r == OTHER) && Quiet(w, r.key)
    requires SeatFree(w.books.db, "sc1", r.raw[0])
    ensures Next(SHOP, w, Start(id, r)) == w.(calls := w.calls[id := Fresh(r, false, Phase.Lookup)])
    ensures MayBook(SHOP, w.books, Fresh(r, false, Phase.Lookup))
  {
    Begins(r);
    hide Begin, SeatFree;
  }

  /** Both clicks at their transactions, with or without the other booking before them. */
  lemma TwinsAtPersist(acts: seq<Action>, w: World) returns (more: seq<Action>, w': World)
    requires Reaches(SHOP, OPENING, acts, w) && Fine(acts) && 0 !in w.calls && 1 !in w.calls && Quiet(w, "k")
    requires KeyFree(w.books.db, "k") && SeatFree(w.books.db, "sc1", "A1")
    ensures Reaches(SHOP, OPENING, more, w') && Fine(more) && w'.books.db == w.books.db
    ensures w'.calls == w.calls[0 := Fresh(CLICK, true, Phase.Persist)][1 := Fresh(CLICK, true, Phase.Persist)]
  {
    hide KeyFree, SeatFree, Reaches, MayBook, Next, Quiet, Live;
    var a1, w1 := StartOne(acts, w, 0, CLICK);
    JoinTwin(w, w1);
    var start := Start(1, CLICK);
    ReachesMore(SHOP, OPENING, a1, w1, start);
    var w2 := Next(SHOP, w1, start);
    more, w' := Approach(a1 + [start], w2, 1);
    assert w2.calls[1].(phase := Phase.Persist) == Fresh(CLICK, true, Phase.Persist);
  }

  /** The second click finds the first one under way. */
  lemma JoinTwin(w: World, w1: World)
    requires 0 !in w.calls && 1 !in w.calls && Quiet(w, "k") && SeatFree(w1.books.db, "sc1", "A1")
    requires w1.calls == w.calls[0 := Fresh(CLICK, false, Phase.Persist)]
    ensures var w2 := Next(SHOP, w1, Start(1, CLICK));
            && w2.books == w1.books && 1 in w2.calls && MayBook(SHOP, w2.books, w2.calls[1])
            && w2.calls == w.calls[0 := Fresh(CLICK, true, Phase.Persist)][1 := Fresh(CLICK, true, Phase.Lookup)]
  {
    Begins(CLICK);
    assert Live(w1, 0, "k");
    hide Begin, SeatFree;
    forall o | o in w.calls ensures !Live(w1, o, "k") { assert !Live(w, o, "k"); }
  }

  lemma TwinRivals(w: World)
    requires 0 in w.calls && 1 in w.calls && w.calls[0] == Fresh(CLICK, true, Phase.Persist) && w.calls[1].key == "k"
    requires SeatFree(w.books.db, "sc1", "A1")
    ensures Rival(SHOP, w, 1)
  {
    assert Live(w, 0, "k") && MayBook(SHOP, w.books, w.calls[0]);
  }

  const DEADLOCK := Env(false, true, true, Some(Contention), "BK-2")

  /** A double click: one call hits a deadlock, the other books, the refund takes the payment they
      share. With no call of the key under way, it is booked and nobody has paid. */
  lemma BookedButRefunded() returns (acts: seq<Action>, w: World)
    ensures Reaches(SHOP, OPENING, acts, w) && Quiet(w, "k")
    ensures FindByKey(w.books.db, "k").Some? && PaymentId("k") !in w.books.ledger
  {
    assert Reaches(SHOP, OPENING, [], OPENING);
    var a1, w1 := TwinsAtPersist([], OPENING);
    ReachesMore(SHOP, OPENING, a1, w1, Go(1, DEADLOCK));
    var w2 := Next(SHOP, w1, Go(1, DEADLOCK));
    hide Reaches;
    TwinRivals(w2);
    acts, w := RefundAfter(a1 + [Go(1, DEADLOCK)], w2);
  }

  lemma RefundAfter(acts: seq<Action>, w: World) returns (more: seq<Action>, w': World)
    requires Reaches(SHOP, OPENING, acts, w) && 1 in w.calls && w.calls[1].phase.Refund? && w.calls[1].key == "k"
    requires Rival(SHOP, w, 1)
    ensures Reaches(SHOP, OPENING, more, w') && Quiet(w', "k") && (Fine(acts) ==> Fine(more))
    ensures FindByKey(w'.books.db, "k").Some? && PaymentId("k") !in w'.books.ledger
  {
    OpeningInv(SHOP);
    ReachableWorldInv(SHOP, OPENING, acts, w);
    hide Reaches, WorldInv, OrderlyRun, Rival;
    var rest;
    rest, w' := RefundLast(SHOP, w, 1);
    ReachesJoins(SHOP, OPENING, acts, w, rest, w');
    more := acts + rest;
  }

  // ---- a booking id drawn twice ----

  const ROW := Booking("BK-1", "sc1", "v", 6000, "z")

  /** Somebody has booked A2 under id BK-1. */
  lemma FirstBooking() returns (acts: seq<Action>, w: World)
    ensures Reaches(SHOP, OPENING, acts, w) && Fine(acts) && w.calls.Keys == {2} && w.calls[2].key == "z"
    ensures w.books.db == Tables([ROW], [SeatRow("BK-1", "sc1", "A2")])
  {
    assert Reaches(SHOP, OPENING, [], OPENING);
    var a1, w1 := StartOne([], OPENING, 2, OTHER);
    hide Reaches;
    ReachesMore(SHOP, OPENING, a1, w1, Go(2, FineEnv("BK-1")));
    acts, w := a1 + [Go(2, FineEnv("BK-1"))], Next(SHOP, w1, Go(2, FineEnv("BK-1")));
    FirstCommit(w1.books);
  }

  lemma FirstCommit(s: Books)
    requires s.db == Tables([], [])
    ensures var (p, s') := Advance(SHOP, Fresh(OTHER, false, Phase.Persist), s, FineEnv("BK-1"));
            s'.db == Tables([ROW], [SeatRow("BK-1", "sc1", "A2")])
  {
    var c := Fresh(OTHER, false, Phase.Persist);
    assert BookingOf(SHOP, c, "BK-1") == ROW;
    assert CanPersist(s.db, ROW, "sc1", ["A2"]);
    assert ["A2"][1..] == [] && Sorted(["A2"]) == ["A2"];
    assert Rows("BK-1", "sc1", ["A2"]) == [SeatRow("BK-1", "sc1", "A2")];
  }

  /** The second click draws an id in use, finds no winner and refunds; the first click books. No
      call has failed and every transaction ended in success or an integrity violation. */
  lemma ClashedAndRefunded() returns (acts: seq<Action>, w: World)
    ensures Reaches(SHOP, OPENING, acts, w) && Fine(acts) && Quiet(w, "k")
    ensures FindByKey(w.books.db, "k").Some? && PaymentId("k") !in w.books.ledger
  {
    var a0, w0 := FirstBooking();
    var a1, w1 := TwinsAtPersist(a0, w0);
    var clash := Go(1, FineEnv("BK-1"));
    ClashStep(SHOP, w1, 1, clash.env);
    ReachesMore(SHOP, OPENING, a1, w1, clash);
    hide Reaches;
    var w2 := Next(SHOP, w1, clash);
    LookUpFindsNobody(SHOP, w2, 1);
    var look := Go(1, FineEnv(""));
    ReachesMore(SHOP, OPENING, a1 + [clash], w2, look);
    var w3 := Next(SHOP, w2, look);
    TwinRivals(w3);
    acts, w := RefundAfter(a1 + [clash] + [look], w3);
  }

  /** A lone call draws an id in use and its look-up for a winner throws: it has paid, and neither
      a booking nor a refund follows. */
  lemma PaidForNothing() returns (acts: seq<Action>, w: World)
    ensures Reaches(SHOP, OPENING, acts, w) && Quiet(w, "k")
    ensures FindByKey(w.books.db, "k").None? && PaymentId("k") in w.books.ledger
  {
    var a0, w0 := FirstBooking();
    var a1, w1 := StartOne(a0, w0, 0, CLICK);
    var clash, look := Go(0, FineEnv("BK-1")), Go(0, FineEnv("").(broken := true));
    hide Reaches, Next;
    ClashStep(SHOP, w1, 0, clash.env);
    ReachesMore(SHOP, OPENING, a1, w1, clash);
    var w2 := Next(SHOP, w1, clash);
    LookUpThrows(w2, look.env);
    ReachesMore(SHOP, OPENING, a1 + [clash], w2, look);
    acts, w := a1 + [clash] + [look], Next(SHOP, w2, look);
    FindFacts(w.books.db.bookings, "k");
  }

  lemma LookUpThrows(w: World, e: Env)
    requires 0 in w.calls && w.calls[0].phase.Recover? && e.broken
    ensures Next(SHOP, w, Go(0, e)) == w.(calls := w.calls[0 := w.calls[0].(phase := Done(Rejected("ERROR")))])
  {}
}
