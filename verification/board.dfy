/** The remaining-seat board against the seat map. */
module Boards {
  import opened SortedSets
  import opened BookingTables
  import opened BookingInvariants
  import opened SeatLocks

  datatype Screening = Screening(id: string, totalSeats: nat)

  datatype ScreeningView = ScreeningView(id: string, totalSeats: nat, remain: nat)

  datatype SeatView = SeatView(seatNo: string, taken: bool)

  /** Remaining as the board computes it: two counts from two places, floored at zero. */
  function Remaining(total: nat, sold: nat, locked: nat): nat {
    if total - sold - locked > 0 then total - sold - locked else 0
  }

  function Views(t: Tables, l: Locks, now: int, list: seq<Screening>): (v: seq<ScreeningView>)
    ensures |v| == |list|
  {
    seq(|list|, i requires 0 <= i < |list| =>
      ScreeningView(list[i].id, list[i].totalSeats,
                    Remaining(list[i].totalSeats, |SoldSeats(t.seats, list[i].id)|, |Alive(l, now, list[i].id)|)))
  }

  /** The seat map of a screening: each seat, and whether it is sold or locked. */
  function SeatMap(seats: seq<string>, sold: set<string>, locked: set<string>): (m: seq<SeatView>)
    ensures |m| == |seats|
  {
    seq(|seats|, i requires 0 <= i < |seats| => SeatView(seats[i], seats[i] in sold || seats[i] in locked))
  }

  function Free(m: seq<SeatView>): nat {
    if |m| == 0 then 0 else Free(m[..|m| - 1]) + if m[|m| - 1].taken then 0 else 1
  }

  /** One count of sold seats per screening, as the grouped query returns them: only screenings
      that have sold anything appear. */
  method GroupSold(store: BookingStore, ids: seq<string>) returns (sold: map<string, nat>)
    ensures forall sc :: sc in sold ==> sc in ids && sold[sc] == SoldCount(store.tables.seats, sc)
    ensures forall sc :: sc in ids && sc !in sold ==> SoldCount(store.tables.seats, sc) == 0
  {
    sold := map[];
    for i := 0 to |ids|
      invariant forall sc :: sc in sold ==> sc in ids[..i] && sold[sc] == SoldCount(store.tables.seats, sc)
      invariant forall sc :: sc in ids[..i] && sc !in sold ==> SoldCount(store.tables.seats, sc) == 0
    {
      assert ids[..i + 1] == ids[..i] + [ids[i]];
      var n := SoldCount(store.tables.seats, ids[i]);
      if n > 0 { sold := sold[ids[i] := n]; }
    }
    assert ids[..|ids|] == ids;
  }

  function Count(counts: map<string, nat>, id: string): nat { if id in counts then counts[id] else 0 }

  function ViewOf(s: Screening, sold: map<string, nat>, locked: map<string, nat>): ScreeningView {
    ScreeningView(s.id, s.totalSeats, Remaining(s.totalSeats, Count(sold, s.id), Count(locked, s.id)))
  }

  method BuildViews(list: seq<Screening>, sold: map<string, nat>, locked: map<string, nat>)
    returns (out: seq<ScreeningView>)
    ensures |out| == |list| && forall k :: 0 <= k < |list| ==> out[k] == ViewOf(list[k], sold, locked)
  {
    out := [];
    for i := 0 to |list|
      invariant |out| == i && forall k :: 0 <= k < i ==> out[k] == ViewOf(list[k], sold, locked)
    {
      var s := list[i];
      var n := if s.id in sold then sold[s.id] else 0;
      var m := if s.id in locked then locked[s.id] else 0;
      out := out + [ScreeningView(s.id, s.totalSeats, Remaining(s.totalSeats, n, m))];
    }
  }

  /** The board of a list of screenings: sold from the tables, locked from the lock index. */
  method Compute(store: BookingStore, locks: SeatLockService, now: int, list: seq<Screening>)
    returns (out: seq<ScreeningView>)
    requires UniqueSeats(store.tables.seats)
    modifies locks
    ensures out == Views(store.tables, old(locks.State()), now, list)
  {
    if |list| == 0 { return []; }
    var ids := seq(|list|, i requires 0 <= i < |list| => list[i].id);
    var sold := GroupSold(store, ids);
    hide SoldCount, UniqueSeats, CleanedAll, Alive;
    var locked := locks.CountLockedByScreening(now, ids);
    out := BuildViews(list, sold, locked);
    CountsAgree(store.tables, old(locks.State()), now, list, ids, sold, locked);
    assert out == Views(store.tables, old(locks.State()), now, list);
  }

  lemma CountsAgree(t: Tables, l: Locks, now: int, list: seq<Screening>, ids: seq<string>,
                    sold: map<string, nat>, locked: map<string, nat>)
    requires UniqueSeats(t.seats) && |ids| == |list| && forall i :: 0 <= i < |list| ==> ids[i] == list[i].id
    requires forall sc :: sc in sold ==> sold[sc] == SoldCount(t.seats, sc)
    requires forall sc :: sc in ids && sc !in sold ==> SoldCount(t.seats, sc) == 0
    requires locked.Keys == ToSet(ids) && forall sc :: sc in locked ==> locked[sc] == |Alive(l, now, sc)|
    ensures forall i :: 0 <= i < |list| ==> Views(t, l, now, list)[i] == ViewOf(list[i], sold, locked)
  {
    hide Alive, SoldCount, SoldSeats, UniqueSeats;
    forall i | 0 <= i < |list| ensures Views(t, l, now, list)[i] == ViewOf(list[i], sold, locked) {
      assert ids[i] in ids && ids[i] in locked.Keys;
      ViewAt(t, l, now, list, i);
    }
  }

  lemma ViewAt(t: Tables, l: Locks, now: int, list: seq<Screening>, i: nat)
    requires i < |list| && UniqueSeats(t.seats)
    ensures Views(t, l, now, list)[i] ==
            ScreeningView(list[i].id, list[i].totalSeats,
                          Remaining(list[i].totalSeats, SoldCount(t.seats, list[i].id), |Alive(l, now, list[i].id)|))
  {
    CountIsCardinality(t.seats, list[i].id);
  }

  lemma {:induction false} FreeSeats(seats: seq<string>, sold: set<string>, locked: set<string>)
    requires Distinct(seats)
    ensures Free(SeatMap(seats, sold, locked)) == |ToSet(seats) - sold - locked|
    decreases |seats|
  {
    hide ToSet, Distinct, SeatMap, Free;
    NoSeats(sold, locked);
    if |seats| > 0 {
      var init, last := seats[..|seats| - 1], seats[|seats| - 1];
      LastSeat(seats);
      FreeSeats(init, sold, locked);
      FreeOneMore(seats, sold, locked);
      OneMoreSeat(ToSet(init), last, sold, locked);
    }
  }

  lemma NoSeats(sold: set<string>, locked: set<string>)
    ensures Free(SeatMap([], sold, locked)) == |ToSet([]) - sold - locked| == 0
  {
    assert ToSet([]) - sold - locked == {};
  }

  lemma LastSeat(seats: seq<string>)
    requires Distinct(seats) && |seats| > 0
    ensures var init, last := seats[..|seats| - 1], seats[|seats| - 1];
            Distinct(init) && last !in ToSet(init) && ToSet(seats) == ToSet(init) + {last}
  {
    assert seats == seats[..|seats| - 1] + [seats[|seats| - 1]];
  }

  lemma FreeOneMore(seats: seq<string>, sold: set<string>, locked: set<string>)
    requires |seats| > 0
    ensures var init, last := seats[..|seats| - 1], seats[|seats| - 1];
            Free(SeatMap(seats, sold, locked))
            == Free(SeatMap(init, sold, locked)) + if last in sold || last in locked then 0 else 1
  {
    var m := SeatMap(seats, sold, locked);
    assert m[..|m| - 1] == SeatMap(seats[..|seats| - 1], sold, locked);
  }

  lemma OneMoreSeat(init: set<string>, x: string, sold: set<string>, locked: set<string>)
    requires x !in init
    ensures |init + {x} - sold - locked| == |init - sold - locked| + if x in sold || x in locked then 0 else 1
  {
    var was := init - sold - locked;
    assert init + {x} - sold - locked == if x in sold || x in locked then was else was + {x};
  }

  /** On one snapshot the board never promises more than the seat map shows free. It promises
      exactly as much when no seat counts as both sold and locked, and otherwise only if nothing
      is free any more. */
  lemma BoardNeverOverReports(seats: seq<string>, sold: set<string>, locked: set<string>)
    requires Distinct(seats) && sold <= ToSet(seats) && locked <= ToSet(seats)
    ensures var free := Free(SeatMap(seats, sold, locked));
            && Remaining(|seats|, |sold|, |locked|) <= free
            && (Remaining(|seats|, |sold|, |locked|) == free <==> sold !! locked || sold + locked == ToSet(seats))
  {
    FreeSeats(seats, sold, locked);
    DistinctCardinality(seats);
    var all := ToSet(seats);
    assert all == (sold + locked) + (all - sold - locked);
    assert (sold + locked) !! (all - sold - locked);
    assert |all| == |sold + locked| + |all - sold - locked|;
    assert |sold + locked| == |sold| + |locked| - |sold * locked|;
    assert sold !! locked <==> |sold * locked| == 0;
    assert all - sold - locked == {} <==> sold + locked == all;
  }

  /** So it is with each line of the board: it never shows more than the seat map of that screening
      has free, given that its total is the number of its seats. */
  lemma ViewsNeverOverReport(t: Tables, l: Locks, now: int, list: seq<Screening>, i: nat, seats: seq<string>)
    requires i < |list| && Distinct(seats) && |seats| == list[i].totalSeats
    requires SoldSeats(t.seats, list[i].id) <= ToSet(seats) && Alive(l, now, list[i].id) <= ToSet(seats)
    ensures var sold, locked := SoldSeats(t.seats, list[i].id), Alive(l, now, list[i].id);
            var free := Free(SeatMap(seats, sold, locked));
            && Views(t, l, now, list)[i].id == list[i].id
            && Views(t, l, now, list)[i].remain <= free
            && (Views(t, l, now, list)[i].remain == free <==> sold !! locked || sold + locked == ToSet(seats))
  {
    BoardNeverOverReports(seats, SoldSeats(t.seats, list[i].id), Alive(l, now, list[i].id));
    hide Free, SeatMap, SoldSeats, Alive, Remaining;
  }
}
