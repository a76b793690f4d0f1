/** Selecting and releasing seats, and how a seat can be sold and locked at once. */
module SeatServices {
  import opened SortedSets
  import opened SeatRequests
  import opened BookingTables
  import opened BookingInvariants
  import opened SeatLocks
  import Admissions
  import Confirms

  datatype Reply = Done | Denied(code: string)

  class SeatService {
    const cfg: Confirms.Config
    const store: BookingStore
    const locks: SeatLockService
    const admitted: Admissions.AdmittedService

    constructor (cfg: Confirms.Config, store: BookingStore, locks: SeatLockService,
                 admitted: Admissions.AdmittedService)
      ensures this.cfg == cfg && this.store == store && this.locks == locks && this.admitted == admitted
    {
      this.cfg, this.store, this.locks, this.admitted := cfg, store, locks, admitted;
    }

    /** select: with nobody in between, a seat is locked only for an admitted user, and only if all
        the seats asked for exist, are unsold and are held by nobody. */
    method Select(now: int, screening: string, raw: seq<string>, user: string) returns (r: Reply)
      modifies locks
      ensures screening !in cfg.screenings ==> r == Denied("NO_SCREENING")
      ensures screening in cfg.screenings && Normalize(raw, cfg.maxSeats).Refused? ==>
                r == Denied(Normalize(raw, cfg.maxSeats).code)
      ensures r.Denied? ==> locks.State() == old(locks.State())
      ensures screening in cfg.screenings && Normalize(raw, cfg.maxSeats).Seats? ==>
                var seats := Normalize(raw, cfg.maxSeats).seats;
                && (r.Done? <==>
                      && Admissions.IsAdmitted(admitted.keys, now, cfg.screenings[screening], user)
                      && (forall s :: s in seats ==> (screening, s) in cfg.seats)
                      && (forall s :: s in seats ==> SeatFree(store.tables, screening, s))
                      && LockAll(old(locks.State()), now, locks.ttl, screening, seats, user).1)
                && (!Admissions.IsAdmitted(admitted.keys, now, cfg.screenings[screening], user) ==>
                      r == Denied("FORBIDDEN"))
                && (Admissions.IsAdmitted(admitted.keys, now, cfg.screenings[screening], user) && r.Denied? ==>
                      r == Denied(if forall s :: s in seats ==> (screening, s) in cfg.seats then "CONFLICT"
                                  else "NO_SUCH_SEAT"))
                && (r.Done? ==> locks.State() == LockAll(old(locks.State()), now, locks.ttl, screening, seats, user).0)
    {
      if screening !in cfg.screenings { return Denied("NO_SCREENING"); }
      var normalized := NormalizeRequest(raw, cfg.maxSeats);
      hide Normalize, LockAll, SeatFree;
      match normalized
      case Refused(code) => return Denied(code);
      case Seats(seats) =>
        if !admitted.HasKey(now, cfg.screenings[screening], user) { return Denied("FORBIDDEN"); }
        if !(forall s :: s in seats ==> (screening, s) in cfg.seats) { return Denied("NO_SUCH_SEAT"); }
        if !(forall s :: s in seats ==> SeatFree(store.tables, screening, s)) { return Denied("CONFLICT"); }
        RefusedLockIsIdle(locks.State(), now, locks.ttl, screening, seats, user);
        var ok := locks.LockSeats(now, screening, seats, user);
        r := if ok then Done else Denied("CONFLICT");
    }

    /** release: no existence check and no gate; only the caller's own locks can go. */
    method Release(now: int, screening: string, raw: seq<string>, user: string) returns (r: Reply)
      modifies locks
      ensures r == match Normalize(raw, cfg.maxSeats) case Refused(code) => Denied(code) case Seats(_) => Done
      ensures locks.State() == match Normalize(raw, cfg.maxSeats)
                case Refused(_) => old(locks.State())
                case Seats(seats) => ReleaseMine(old(locks.State()), now, screening, seats, user)
    {
      var normalized := NormalizeRequest(raw, cfg.maxSeats);
      match normalized
      case Refused(code) => return Denied(code);
      case Seats(seats) =>
        locks.ReleaseSeats(now, screening, seats, user);
        r := Done;
    }
  }

  lemma RefusedLockIsIdle(l: Locks, now: int, ttl: int, screening: string, seats: seq<string>, user: string)
    ensures !LockAll(l, now, ttl, screening, seats, user).1 ==> LockAll(l, now, ttl, screening, seats, user).0 == l
  {
    LockIsAllOrNothing(l, now, ttl, screening, seats, user, "");
  }

  // ---- sold and locked ----

  /** The seats of a screening that count twice on the board. */
  function SoldAndLocked(t: Tables, l: Locks, now: int, screening: string): set<string> {
    SoldSeats(t.seats, screening) * Alive(l, now, screening)
  }

  lemma SoldMeans(t: Tables, screening: string, s: string)
    ensures s in SoldSeats(t.seats, screening) <==> !SeatFree(t, screening, s)
  {
    if !SeatFree(t, screening, s) {
      var r :| r in t.seats && r.screening == screening && r.seatNo == s;
    }
  }

  lemma AliveAfterLock(l: Locks, now: int, ttl: int, screening: string, seats: seq<string>, user: string)
    requires LockAll(l, now, ttl, screening, seats, user).1 && ttl > 0
    ensures Alive(LockAll(l, now, ttl, screening, seats, user).0, now, screening)
         == Alive(l, now, screening) + ToSet(seats)
  {
    var l' := LockAll(l, now, ttl, screening, seats, user).0;
    forall s ensures s in Alive(l', now, screening) <==> s in Alive(l, now, screening) || s in seats {
      LockIsAllOrNothing(l, now, ttl, screening, seats, user, SeatKey(screening, s));
      forall x | x in seats && SeatKey(screening, x) == SeatKey(screening, s) ensures x == s {
        SeatKeysDiffer(screening, x, s);
      }
    }
  }

  /** The lock of a select adds to the seats sold and locked exactly the seats sold since its check:
      it keeps the two apart if and only if nothing it asks for has been sold in between. */
  lemma LateLockOverlapsExactly(t: Tables, l: Locks, now: int, ttl: int, screening: string, seats: seq<string>,
                                user: string)
    requires LockAll(l, now, ttl, screening, seats, user).1 && ttl > 0 && SoldAndLocked(t, l, now, screening) == {}
    ensures var l' := LockAll(l, now, ttl, screening, seats, user).0;
            SoldAndLocked(t, l', now, screening) == {} <==> forall s :: s in seats ==> SeatFree(t, screening, s)
  {
    AliveAfterLock(l, now, ttl, screening, seats, user);
    hide Alive, LockAll, SoldSeats;
    var l' := LockAll(l, now, ttl, screening, seats, user).0;
    forall s | s in seats ensures s in SoldSeats(t.seats, screening) <==> !SeatFree(t, screening, s) {
      SoldMeans(t, screening, s);
    }
    forall s | s in seats && !SeatFree(t, screening, s) ensures s in SoldAndLocked(t, l', now, screening) {
      assert s in ToSet(seats);
    }
  }

  /** v checks A1 and finds it unsold; u, who holds it, commits and releases; v locks it. */
  lemma SoldWhileSelecting()
    ensures var open := Tables([], []);
            var sale := Booking("BK-1", "sc1", "u", 6000, "k");
            var sold := Persisted(open, sale, "sc1", ["A1"]);
            var (held, uLocks) := LockAll(NO_LOCKS, 0, 60, "sc1", ["A1"], "u");
            var (late, vLocks) := LockAll(ReleaseMine(held, 1, "sc1", ["A1"], "u"), 2, 60, "sc1", ["A1"], "v");
            && uLocks && SeatFree(open, "sc1", "A1") && CanPersist(open, sale, "sc1", ["A1"])
            && vLocks && "A1" in SoldAndLocked(sold, late, 2, "sc1")
  {
    var open := Tables([], []);
    var sale := Booking("BK-1", "sc1", "u", 6000, "k");
    var sold := Persisted(open, sale, "sc1", ["A1"]);
    var held := LockAll(NO_LOCKS, 0, 60, "sc1", ["A1"], "u").0;
    var freed := ReleaseMine(held, 1, "sc1", ["A1"], "u");
    LockIsAllOrNothing(NO_LOCKS, 0, 60, "sc1", ["A1"], "u", "");
    assert "A1" in ["A1"];
    ReleaseTakesOnlyMine(held, 1, "sc1", ["A1"], "u", SeatKey("sc1", "A1"));
    RowsAre("BK-1", "sc1", Sorted(["A1"]));
    SortedFacts(["A1"]);
    SameMultiset(Sorted(["A1"]), ["A1"]);
    assert SeatRow("BK-1", "sc1", "A1") in sold.seats;
    assert LockAll(freed, 2, 60, "sc1", ["A1"], "v").1;
    AliveAfterLock(freed, 2, 60, "sc1", ["A1"], "v");
    SoldMeans(sold, "sc1", "A1");
  }
}
