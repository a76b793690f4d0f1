/** The two booking tables with their unique constraints, and the transaction that fills them. */
module BookingTables {
  import opened SortedSets
  import opened Journal
  import opened SeatRequests

  datatype Booking = Booking(id: string, screening: string, user: string, price: int, key: string)
  datatype SeatRow = SeatRow(bookingId: string, screening: string, seatNo: string)
  datatype Tables = Tables(bookings: seq<Booking>, seats: seq<SeatRow>)

  // ---- what the constraints look at ----

  predicate IdFree(t: Tables, id: string) { forall b :: b in t.bookings ==> b.id != id }

  predicate KeyFree(t: Tables, key: string) { forall b :: b in t.bookings ==> b.key != key }

  predicate SeatFree(t: Tables, screening: string, seatNo: string) {
    forall r :: r in t.seats ==> r.screening != screening || r.seatNo != seatNo
  }

  predicate Distinct(seats: seq<string>) { forall i, j :: 0 <= i < j < |seats| ==> seats[i] != seats[j] }

  /** Nothing the transaction inserts meets a row that is already there, or another of its own. */
  predicate CanPersist(t: Tables, b: Booking, screening: string, seats: seq<string>) {
    && IdFree(t, b.id) && KeyFree(t, b.key)
    && (forall s :: s in seats ==> SeatFree(t, screening, s))
    && Distinct(seats)
  }

  function Rows(id: string, screening: string, seats: seq<string>): (rows: seq<SeatRow>)
    ensures |rows| == |seats|
  {
    seq(|seats|, i requires 0 <= i < |seats| => SeatRow(id, screening, seats[i]))
  }

  /** The booking and one row per seat, in the order the transaction inserts them. */
  function Persisted(t: Tables, b: Booking, screening: string, seats: seq<string>): Tables {
    Tables(t.bookings + [b], t.seats + Rows(b.id, screening, Sorted(seats)))
  }

  function FindByKey(t: Tables, key: string): Option<Booking> {
    FindIn(t.bookings, key)
  }

  function FindIn(bs: seq<Booking>, key: string): Option<Booking> {
    if |bs| == 0 then None
    else if bs[0].key == key then Some(bs[0])
    else FindIn(bs[1..], key)
  }

  lemma {:induction false} FindFacts(bs: seq<Booking>, key: string)
    ensures FindIn(bs, key).Some? ==> FindIn(bs, key).value in bs && FindIn(bs, key).value.key == key
    ensures FindIn(bs, key).None? <==> forall b :: b in bs ==> b.key != key
  {
    if |bs| > 0 {
      FindFacts(bs[1..], key);
      assert bs == [bs[0]] + bs[1..];
    }
  }

  /** The seats of a booking, as ensureSameRequest collects them. */
  function SeatsOf(t: Tables, id: string): set<string> { set r | r in t.seats && r.bookingId == id :: r.seatNo }

  // ---- sorting ----

  predicate InOrder(s: seq<string>) { forall i, j :: 0 <= i < j < |s| ==> !LexLess(s[j], s[i]) }

  function InsertInOrder(s: seq<string>, x: string): seq<string> {
    if |s| == 0 || !LexLess(s[0], x) then [x] + s else [s[0]] + InsertInOrder(s[1..], x)
  }

  /** List.sort(String::compareTo): the same strings in ascending order. */
  function Sorted(s: seq<string>): seq<string> {
    if |s| == 0 then [] else InsertInOrder(Sorted(s[1..]), s[0])
  }

  lemma {:induction false} InsertInOrderFacts(s: seq<string>, x: string)
    requires InOrder(s)
    ensures InOrder(InsertInOrder(s, x))
    ensures multiset(InsertInOrder(s, x)) == multiset(s) + multiset{x}
  {
    if |s| == 0 || !LexLess(s[0], x) {
      forall i | 0 <= i < |s| ensures !LexLess(s[i], x) {
        if i > 0 {
          LexLessTrichotomy(s[0], s[i]);
          if LexLess(s[i], x) && LexLess(s[0], s[i]) { LexLessTransitive(s[0], s[i], x); }
        }
      }
    } else {
      var t := InsertInOrder(s[1..], x);
      InsertInOrderFacts(s[1..], x);
      assert s == [s[0]] + s[1..];
      LexLessTrichotomy(s[0], x);
      forall i | 0 <= i < |t| ensures !LexLess(t[i], s[0]) {
        assert t[i] in multiset(t);
        assert t[i] == x || t[i] in s[1..];
      }
    }
  }

  lemma {:induction false} SortedFacts(s: seq<string>)
    ensures InOrder(Sorted(s)) && multiset(Sorted(s)) == multiset(s)
  {
    if |s| > 0 {
      SortedFacts(s[1..]);
      InsertInOrderFacts(Sorted(s[1..]), s[0]);
      assert s == [s[0]] + s[1..];
    }
  }

  /** A normalised request is already in the order the transaction wants. */
  lemma {:induction false} SortingSortedIsIdle(s: seq<string>)
    requires StrictlySorted(s)
    ensures Sorted(s) == s
  {
    if |s| > 1 {
      SortingSortedIsIdle(s[1..]);
      LexLessTrichotomy(s[0], s[1]);
    }
  }

  /** Requests for the same seats insert their rows in one and the same order, a strict one when
      no seat repeats: what rules out two transactions waiting for each other. */
  lemma InsertOrderIsCanonical(a: seq<string>, b: seq<string>)
    requires Distinct(a) && multiset(a) == multiset(b)
    ensures StrictlySorted(Sorted(a)) && Sorted(a) == Sorted(b)
  {
    SortedFacts(a);
    SortedFacts(b);
    DistinctInOrder(a, Sorted(a));
    DistinctInOrder(a, Sorted(b));
    forall x ensures x in ToSet(Sorted(a)) <==> x in ToSet(Sorted(b)) {
      assert x in multiset(Sorted(a)) <==> x in multiset(Sorted(b));
    }
    SortedSetsEqual(Sorted(a), Sorted(b));
  }

  lemma DistinctInOrder(a: seq<string>, s: seq<string>)
    requires Distinct(a) && InOrder(s) && multiset(s) == multiset(a)
    ensures StrictlySorted(s)
  {
    DistinctCounts(a);
    DistinctCounts(s);
    forall i, j | 0 <= i < j < |s| ensures LexLess(s[i], s[j]) { LexLessTrichotomy(s[i], s[j]); }
  }

  lemma {:induction false} DistinctCounts(a: seq<string>)
    ensures Distinct(a) <==> forall x :: multiset(a)[x] <= 1
  {
    if |a| > 0 {
      DistinctCounts(a[1..]);
      assert a == [a[0]] + a[1..];
      assert Distinct(a) <==> Distinct(a[1..]) && a[0] !in a[1..];
      assert forall x :: multiset(a)[x] == multiset([a[0]])[x] + multiset(a[1..])[x];
      assert a[0] in a[1..] <==> multiset(a)[a[0]] > 1;
    }
  }

  // ---- the transaction ----

  datatype Fault = Contention | Failure
  datatype Outcome = Committed | Integrity | Faulted(fault: Fault)

  /** The booking store. A fault is the database giving up at the n-th statement of a transaction
      (the commit counts as one): a deadlock, a timeout, a lost connection. */
  class BookingStore {
    var tables: Tables

    constructor ()
      ensures tables == Tables([], [])
    {
      tables := Tables([], []);
    }

    /** BookingPersistence.persist: the booking first, then its seats in sorted order; whatever
        goes wrong puts back everything. */
    method Persist(b: Booking, screening: string, seats: seq<string>, faultAt: nat, fault: Fault) returns (r: Outcome)
      modifies this
      ensures r == Committed ==>
                CanPersist(old(tables), b, screening, seats) && tables == Persisted(old(tables), b, screening, seats)
      ensures r != Committed ==> tables == old(tables)
      ensures r == Integrity ==> !CanPersist(old(tables), b, screening, seats)
      ensures r.Faulted? ==> r.fault == fault && faultAt <= |seats| + 1
      ensures faultAt > |seats| + 1 ==> (r == Committed <==> CanPersist(old(tables), b, screening, seats))
    {
      hide Rows, SeatFree, IdFree, KeyFree, Sorted;
      SortedFacts(seats);
      var ordered := Sorted(seats);
      SameLength(ordered, seats);
      var before := tables;
      if faultAt == 0 { return Faulted(fault); }
      if !IdFree(tables, b.id) || !KeyFree(tables, b.key) { return Integrity; }
      tables := tables.(bookings := tables.bookings + [b]);
      for i := 0 to |ordered|
        invariant faultAt > i
        invariant tables == Tables(old(tables.bookings) + [b], old(tables.seats) + Rows(b.id, screening, ordered[..i]))
        invariant Distinct(ordered[..i])
        invariant forall s :: s in ordered[..i] ==> SeatFree(old(tables), screening, s)
      {
        assert ordered[..i + 1] == ordered[..i] + [ordered[i]];
        RowsOneMore(b.id, screening, ordered, i);
        SeatFreeAfter(old(tables), tables, b.id, screening, ordered[..i], ordered[i]);
        if faultAt == i + 1 { tables := before; return Faulted(fault); }
        if !SeatFree(tables, screening, ordered[i]) {
          tables := before;
          RefusedSeat(tables, b, screening, seats, ordered, i);
          return Integrity;
        }
        tables := tables.(seats := tables.seats + [SeatRow(b.id, screening, ordered[i])]);
      }
      assert ordered[..|ordered|] == ordered;
      if faultAt == |ordered| + 1 { tables := before; return Faulted(fault); }
      SameSeatsPersist(old(tables), b, screening, seats, ordered);
      r := Committed;
    }
  }

  lemma SameLength(a: seq<string>, b: seq<string>)
    requires multiset(a) == multiset(b)
    ensures |a| == |b|
  {
    assert |multiset(a)| == |a| && |multiset(b)| == |b|;
  }

  lemma RowsOneMore(id: string, screening: string, seats: seq<string>, i: nat)
    requires i < |seats|
    ensures Rows(id, screening, seats[..i + 1]) == Rows(id, screening, seats[..i]) + [SeatRow(id, screening, seats[i])]
  {
  }

  /** Seen from inside the transaction a seat is free when no earlier transaction took it and the
      transaction itself has not inserted it before. */
  lemma SeatFreeAfter(was: Tables, t: Tables, id: string, screening: string, done: seq<string>, s: string)
    requires t.seats == was.seats + Rows(id, screening, done)
    ensures SeatFree(t, screening, s) <==> SeatFree(was, screening, s) && s !in done
  {
    if s in done {
      var i :| 0 <= i < |done| && done[i] == s;
      assert Rows(id, screening, done)[i] in t.seats;
    }
    if SeatFree(t, screening, s) {
      forall r | r in was.seats ensures r.screening != screening || r.seatNo != s { assert r in t.seats; }
    }
  }

  lemma SameSeatsPersist(t: Tables, b: Booking, screening: string, seats: seq<string>, ordered: seq<string>)
    requires multiset(ordered) == multiset(seats)
    ensures CanPersist(t, b, screening, ordered) <==> CanPersist(t, b, screening, seats)
  {
    SameMultiset(ordered, seats);
    DistinctCounts(ordered);
    DistinctCounts(seats);
  }

  lemma RefusedSeat(t: Tables, b: Booking, screening: string, seats: seq<string>, ordered: seq<string>, i: nat)
    requires multiset(ordered) == multiset(seats) && i < |ordered|
    requires !SeatFree(t, screening, ordered[i]) || ordered[i] in ordered[..i]
    ensures !CanPersist(t, b, screening, seats)
  {
    SameSeatsPersist(t, b, screening, seats, ordered);
    assert ordered[i] in ordered;
  }
}
