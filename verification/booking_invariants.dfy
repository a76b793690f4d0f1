/** What the booking tables never lose: one seat is sold once, and the money matches the seats. */
module BookingInvariants {
  import opened SortedSets
  import opened SeatRequests
  import opened BookingTables

  function Revenue(bs: seq<Booking>, screening: string): int {
    if |bs| == 0 then 0
    else
      Revenue(bs[..|bs| - 1], screening)
      + if bs[|bs| - 1].screening == screening then bs[|bs| - 1].price else 0
  }

  function SoldCount(rows: seq<SeatRow>, screening: string): nat {
    if |rows| == 0 then 0
    else SoldCount(rows[..|rows| - 1], screening) + if rows[|rows| - 1].screening == screening then 1 else 0
  }

  function SoldSeats(rows: seq<SeatRow>, screening: string): set<string> {
    set r | r in rows && r.screening == screening :: r.seatNo
  }

  predicate UniqueBookings(bs: seq<Booking>) {
    forall i, j :: 0 <= i < j < |bs| ==> bs[i].id != bs[j].id && bs[i].key != bs[j].key
  }

  predicate UniqueSeats(rows: seq<SeatRow>) {
    forall i, j :: 0 <= i < j < |rows| ==> rows[i].screening != rows[j].screening || rows[i].seatNo != rows[j].seatNo
  }

  predicate Booked(bs: seq<Booking>, id: string, screening: string) {
    exists b :: b in bs && b.id == id && b.screening == screening
  }

  predicate SeatsBelong(t: Tables) { forall r :: r in t.seats ==> Booked(t.bookings, r.bookingId, r.screening) }

  ghost predicate MoneyMatches(t: Tables, unit: int) {
    && (forall b :: b in t.bookings ==> b.price == unit * |SeatsOf(t, b.id)|)
    && (forall sc :: Revenue(t.bookings, sc) == unit * SoldCount(t.seats, sc))
  }

  ghost predicate TablesInv(t: Tables, unit: int) {
    UniqueBookings(t.bookings) && UniqueSeats(t.seats) && SeatsBelong(t) && MoneyMatches(t, unit)
  }

  // ---- one committed transaction ----

  lemma RowsAre(id: string, screening: string, seats: seq<string>)
    ensures forall r :: r in Rows(id, screening, seats) <==>
              r.bookingId == id && r.screening == screening && r.seatNo in seats
  {
    forall r ensures r in Rows(id, screening, seats) <==>
        r.bookingId == id && r.screening == screening && r.seatNo in seats
    {
      if r.bookingId == id && r.screening == screening && r.seatNo in seats {
        var i :| 0 <= i < |seats| && seats[i] == r.seatNo;
        assert Rows(id, screening, seats)[i] == r;
      }
    }
  }

  lemma PersistKeepsUnique(t: Tables, b: Booking, seats: seq<string>)
    requires UniqueBookings(t.bookings) && UniqueSeats(t.seats) && CanPersist(t, b, b.screening, seats)
    ensures UniqueBookings(Persisted(t, b, b.screening, seats).bookings)
    ensures UniqueSeats(Persisted(t, b, b.screening, seats).seats)
  {
    var rows := Rows(b.id, b.screening, Sorted(seats));
    SortedFacts(seats);
    SameSeatsPersist(t, b, b.screening, seats, Sorted(seats));
    RowsAre(b.id, b.screening, Sorted(seats));
    var all := t.seats + rows;
    forall i, j | 0 <= i < j < |all|
      ensures all[i].screening != all[j].screening || all[i].seatNo != all[j].seatNo
    {
      if i < |t.seats| <= j { assert all[j] in rows; assert all[i] in t.seats; }
    }
  }

  lemma PersistKeepsBelonging(t: Tables, b: Booking, seats: seq<string>)
    requires SeatsBelong(t)
    ensures SeatsBelong(Persisted(t, b, b.screening, seats))
  {
    var t' := Persisted(t, b, b.screening, seats);
    RowsAre(b.id, b.screening, Sorted(seats));
    forall r | r in t'.seats ensures Booked(t'.bookings, r.bookingId, r.screening) {
      if r in t.seats {
        var o :| o in t.bookings && o.id == r.bookingId && o.screening == r.screening;
        assert o in t'.bookings;
      } else {
        assert b in t'.bookings;
      }
    }
  }

  /** A new transaction gives its own booking its own seats and leaves every other booking's alone. */
  lemma SeatsAfterPersist(t: Tables, b: Booking, seats: seq<string>, id: string)
    requires SeatsBelong(t) && IdFree(t, b.id)
    ensures SeatsOf(Persisted(t, b, b.screening, seats), id) == if id == b.id then ToSet(seats) else SeatsOf(t, id)
  {
    var t' := Persisted(t, b, b.screening, seats);
    var rows := Rows(b.id, b.screening, Sorted(seats));
    RowsAre(b.id, b.screening, Sorted(seats));
    SortedFacts(seats);
    SameMultiset(Sorted(seats), seats);
    forall r | r in t.seats ensures r.bookingId != b.id {
      assert Booked(t.bookings, r.bookingId, r.screening);
    }
    forall s ensures s in SeatsOf(t', id) <==> s in if id == b.id then ToSet(seats) else SeatsOf(t, id) {
      if s in SeatsOf(t', id) {
        var r :| r in t'.seats && r.bookingId == id && r.seatNo == s;
        assert r in t.seats || r in rows;
      }
      if id == b.id && s in ToSet(seats) {
        assert SeatRow(id, b.screening, s) in rows;
        assert SeatRow(id, b.screening, s) in t'.seats;
      }
      if id != b.id && s in SeatsOf(t, id) {
        var r :| r in t.seats && r.bookingId == id && r.seatNo == s;
        assert r in t'.seats;
      }
    }
  }

  lemma {:induction false} CountAfterPersist(rows: seq<SeatRow>, id: string, screening: string, seats: seq<string>,
                                             sc: string)
    ensures SoldCount(rows + Rows(id, screening, seats), sc)
            == SoldCount(rows, sc) + if sc == screening then |seats| else 0
    decreases |seats|
  {
    var more := Rows(id, screening, seats);
    if |seats| == 0 {
      assert rows + more == rows;
    } else {
      var n := |seats| - 1;
      CountAfterPersist(rows, id, screening, seats[..n], sc);
      assert (rows + more)[..|rows + more| - 1] == rows + Rows(id, screening, seats[..n]);
    }
  }

  lemma {:induction false} DistinctCardinality(s: seq<string>)
    requires Distinct(s)
    ensures |ToSet(s)| == |s|
  {
    if |s| > 0 {
      DistinctCardinality(s[1..]);
      assert s == [s[0]] + s[1..];
      assert ToSet(s) == ToSet(s[1..]) + {s[0]};
      assert s[0] !in s[1..];
    }
  }

  lemma PersistKeepsMoney(t: Tables, b: Booking, seats: seq<string>, unit: int)
    requires SeatsBelong(t) && MoneyMatches(t, unit) && CanPersist(t, b, b.screening, seats)
    requires b.price == unit * |seats|
    ensures MoneyMatches(Persisted(t, b, b.screening, seats), unit)
  {
    hide Persisted, CanPersist, SeatsBelong, SeatsOf;
    var t' := Persisted(t, b, b.screening, seats);
    forall sc ensures Revenue(t'.bookings, sc) == unit * SoldCount(t'.seats, sc) {
      RevenueAfterPersist(t, b, seats, unit, sc);
    }
    forall o | o in t'.bookings ensures o.price == unit * |SeatsOf(t', o.id)| {
      PriceAfterPersist(t, b, seats, unit, o);
    }
  }

  lemma RevenueAfterPersist(t: Tables, b: Booking, seats: seq<string>, unit: int, sc: string)
    requires Revenue(t.bookings, sc) == unit * SoldCount(t.seats, sc) && b.price == unit * |seats|
    ensures Revenue(Persisted(t, b, b.screening, seats).bookings, sc)
            == unit * SoldCount(Persisted(t, b, b.screening, seats).seats, sc)
  {
    RevenueOneMore(t.bookings, b, sc);
    CountAfterPersist(t.seats, b.id, b.screening, Sorted(seats), sc);
    SortedFacts(seats);
    SameLength(Sorted(seats), seats);
    hide Revenue, SoldCount, Rows, Sorted;
    Distribute(unit, SoldCount(t.seats, sc), |seats|);
  }

  lemma RevenueOneMore(bs: seq<Booking>, b: Booking, sc: string)
    ensures Revenue(bs + [b], sc) == Revenue(bs, sc) + if b.screening == sc then b.price else 0
  {
    assert (bs + [b])[..|bs + [b]| - 1] == bs;
  }

  lemma Distribute(unit: int, a: int, b: int)
    ensures unit * (a + b) == unit * a + unit * b
  {
  }

  lemma PriceAfterPersist(t: Tables, b: Booking, seats: seq<string>, unit: int, o: Booking)
    requires SeatsBelong(t) && MoneyMatches(t, unit) && CanPersist(t, b, b.screening, seats)
    requires b.price == unit * |seats| && o in Persisted(t, b, b.screening, seats).bookings
    ensures o.price == unit * |SeatsOf(Persisted(t, b, b.screening, seats), o.id)|
  {
    SeatsAfterPersist(t, b, seats, o.id);
    DistinctCardinality(seats);
    assert o in t.bookings || o == b;
  }

  /** A committed transaction keeps everything: no duplicate key or seat, no stray row, and the
      money still equal to the seats sold. */
  lemma PersistKeepsInv(t: Tables, b: Booking, seats: seq<string>, unit: int)
    requires TablesInv(t, unit) && CanPersist(t, b, b.screening, seats) && b.price == unit * |seats|
    ensures TablesInv(Persisted(t, b, b.screening, seats), unit)
  {
    PersistKeepsUnique(t, b, seats);
    PersistKeepsBelonging(t, b, seats);
    PersistKeepsMoney(t, b, seats, unit);
  }

  // ---- what the invariant means ----

  lemma SoldSeatsGrow(init: seq<SeatRow>, last: SeatRow, sc: string)
    ensures SoldSeats(init + [last], sc)
         == if last.screening == sc then SoldSeats(init, sc) + {last.seatNo} else SoldSeats(init, sc)
  {}

  lemma LastSeatIsNew(rows: seq<SeatRow>, sc: string)
    requires UniqueSeats(rows) && |rows| > 0 && rows[|rows| - 1].screening == sc
    ensures rows[|rows| - 1].seatNo !in SoldSeats(rows[..|rows| - 1], sc)
  {}

  lemma {:induction false} CountIsCardinality(rows: seq<SeatRow>, sc: string)
    requires UniqueSeats(rows)
    ensures SoldCount(rows, sc) == |SoldSeats(rows, sc)|
    decreases |rows|
  {
    if |rows| > 0 {
      var init, last := rows[..|rows| - 1], rows[|rows| - 1];
      assert rows == init + [last];
      CountIsCardinality(init, sc);
      SoldSeatsGrow(init, last, sc);
      if last.screening == sc { LastSeatIsNew(rows, sc); }
      hide SoldSeats, UniqueSeats;
    }
  }

  /** No double sale, and no money without a seat: different bookings of a screening hold disjoint
      seats, and a screening has earned the unit price times the seats it has sold. */
  lemma NoDoubleSale(t: Tables, unit: int, a: Booking, b: Booking, sc: string)
    requires TablesInv(t, unit) && a in t.bookings && b in t.bookings
    ensures a != b && a.screening == b.screening ==> SeatsOf(t, a.id) !! SeatsOf(t, b.id)
    ensures a != b ==> a.id != b.id && a.key != b.key
    ensures Revenue(t.bookings, sc) == unit * |SoldSeats(t.seats, sc)|
  {
    CountIsCardinality(t.seats, sc);
    if a != b {
      forall s | s in SeatsOf(t, a.id) && s in SeatsOf(t, b.id) ensures a.screening != b.screening {
        SeatHasItsScreening(t, a, s);
        SeatHasItsScreening(t, b, s);
      }
    }
  }

  lemma SeatHasItsScreening(t: Tables, a: Booking, s: string)
    requires UniqueBookings(t.bookings) && SeatsBelong(t) && a in t.bookings && s in SeatsOf(t, a.id)
    ensures SeatRow(a.id, a.screening, s) in t.seats
  {
    var r :| r in t.seats && r.bookingId == a.id && r.seatNo == s;
    assert Booked(t.bookings, r.bookingId, r.screening);
  }
}
