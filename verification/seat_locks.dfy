/** Seat locks: one key per seat with a lifetime, and per screening an index of what was locked. */
module SeatLocks {
  import opened SortedSets

  datatype Hold = Hold(owner: string, expiry: int)

  /** The seat keys, and the index sets by screening. */
  datatype Locks = Locks(keys: map<string, Hold>, index: map<string, set<string>>)

  const NO_LOCKS := Locks(map[], map[])

  function SeatKey(screening: string, seatNo: string): string { "seat:" + screening + ":" + seatNo }

  /** A key past its lifetime reads as absent. */
  predicate Exists(l: Locks, now: int, key: string) { key in l.keys && now < l.keys[key].expiry }

  predicate Mine(l: Locks, now: int, key: string, owner: string) {
    Exists(l, now, key) && l.keys[key].owner == owner
  }

  function Index(l: Locks, screening: string): set<string> {
    if screening in l.index then l.index[screening] else {}
  }

  // ---- the scripts ----

  function SetAll(keys: map<string, Hold>, screening: string, seats: seq<string>, h: Hold): map<string, Hold> {
    if |seats| == 0 then keys
    else SetAll(keys, screening, seats[..|seats| - 1], h)[SeatKey(screening, seats[|seats| - 1]) := h]
  }

  function LockAll(l: Locks, now: int, ttl: int, screening: string, seats: seq<string>, owner: string): (Locks, bool) {
    if exists s :: s in seats && Exists(l, now, SeatKey(screening, s)) then (l, false)
    else (Locks(SetAll(l.keys, screening, seats, Hold(owner, now + ttl)),
                l.index[screening := Index(l, screening) + ToSet(seats)]), true)
  }

  function ReleaseMine(l: Locks, now: int, screening: string, seats: seq<string>, owner: string): Locks {
    if |seats| == 0 then l
    else
      var p, s := ReleaseMine(l, now, screening, seats[..|seats| - 1], owner), seats[|seats| - 1];
      if Mine(p, now, SeatKey(screening, s), owner) then
        Locks(p.keys - {SeatKey(screening, s)}, p.index[screening := Index(p, screening) - {s}])
      else p
  }

  function RenewMine(l: Locks, now: int, ttl: int, screening: string, seats: seq<string>, owner: string): (Locks,
                     bool) {
    if forall s :: s in seats ==> Mine(l, now, SeatKey(screening, s), owner) then
      (l.(keys := SetAll(l.keys, screening, seats, Hold(owner, now + ttl))), true)
    else (l, false)
  }

  /** The indexed seats whose key still exists. */
  function Alive(l: Locks, now: int, screening: string): set<string> {
    set s | s in Index(l, screening) && Exists(l, now, SeatKey(screening, s))
  }

  function Cleaned(l: Locks, now: int, screening: string): Locks {
    l.(index := l.index[screening := Alive(l, now, screening)])
  }

  function CleanedAll(l: Locks, now: int, screenings: seq<string>): Locks {
    if |screenings| == 0 then l
    else Cleaned(CleanedAll(l, now, screenings[..|screenings| - 1]), now, screenings[|screenings| - 1])
  }

  // ---- what they do ----

  lemma SeatKeysDiffer(screening: string, s: string, t: string)
    ensures SeatKey(screening, s) == SeatKey(screening, t) ==> s == t
  {
    assert SeatKey(screening, s)[5 + |screening| + 1..] == s;
    assert SeatKey(screening, t)[5 + |screening| + 1..] == t;
  }

  predicate NoColon(screening: string) { ':' !in screening }

  /** b is a, a colon and more. */
  predicate Extends(a: string, b: string) { |a| < |b| && b[..|a| + 1] == a + ":" }

  /** Two ids share a seat key only if one extends the other. */
  lemma ApartKeysDiffer(a: string, b: string, s: string, t: string)
    requires !Extends(a, b) && !Extends(b, a) && SeatKey(a, s) == SeatKey(b, t)
    ensures a == b && s == t
  {
    var x, y := a + ":" + s, b + ":" + t;
    assert SeatKey(a, s)[5..] == x && SeatKey(b, t)[5..] == y;
    Starts(a, s, b, t);
    Starts(b, t, a, s);
    assert |a| == |b|;
    assert x[..|a|] == a && y[..|b|] == b;
    SeatKeysDiffer(a, s, t);
  }

  lemma Starts(a: string, s: string, b: string, t: string)
    requires a + ":" + s == b + ":" + t
    ensures |a| < |b| ==> Extends(a, b)
  {
    if |a| < |b| {
      assert (a + ":" + s)[..|a| + 1] == a + ":";
      assert (b + ":" + t)[..|a| + 1] == b[..|a| + 1];
    }
  }

  lemma ExtensionHasColon(a: string, b: string)
    ensures Extends(a, b) ==> !NoColon(b)
  {
    if Extends(a, b) { assert b[..|a| + 1][|a|] == (a + ":")[|a|]; }
  }

  /** So ids without a colon never share one. */
  lemma ScreeningKeysDiffer(a: string, b: string, s: string, t: string)
    requires NoColon(a) && NoColon(b) && SeatKey(a, s) == SeatKey(b, t)
    ensures a == b && s == t
  {
    ExtensionHasColon(a, b);
    ExtensionHasColon(b, a);
    ApartKeysDiffer(a, b, s, t);
  }

  lemma {:induction false} SetAllFacts(keys: map<string, Hold>, screening: string, seats: seq<string>, h: Hold,
                                       key: string)
    ensures var k := SetAll(keys, screening, seats, h);
            if exists s :: s in seats && SeatKey(screening, s) == key then key in k && k[key] == h
            else (key in k <==> key in keys) && (key in keys ==> k[key] == keys[key])
    decreases |seats|
  {
    if |seats| > 0 {
      var init, last := seats[..|seats| - 1], seats[|seats| - 1];
      assert seats == init + [last];
      SetAllFacts(keys, screening, init, h, key);
    }
  }

  /** All or nothing: a lock is refused, changing nothing, exactly when one of the seats is held by
      anyone; otherwise every seat is the caller's for a whole lifetime and in the index of its screening,
      and nothing else is touched. */
  lemma LockIsAllOrNothing(l: Locks, now: int, ttl: int, screening: string, seats: seq<string>, owner: string,
                           key: string)
    ensures var (l', ok) := LockAll(l, now, ttl, screening, seats, owner);
            && (ok <==> forall s :: s in seats ==> !Exists(l, now, SeatKey(screening, s)))
            && (!ok ==> l' == l)
            && (ok && ttl > 0 ==> forall s :: s in seats ==> Mine(l', now, SeatKey(screening, s), owner))
            && (ok ==> forall s :: s in seats ==>
                  SeatKey(screening, s) in l'.keys && l'.keys[SeatKey(screening, s)] == Hold(owner, now + ttl))
            && (ok ==> forall sc, s :: s in Index(l', sc) <==> s in Index(l, sc) || (sc == screening && s in seats))
            && (ok && (forall s :: s in seats ==> SeatKey(screening, s) != key) ==>
                  ((key in l'.keys <==> key in l.keys) && (key in l.keys ==> l'.keys[key] == l.keys[key])))
  {
    var h := Hold(owner, now + ttl);
    SetAllFacts(l.keys, screening, seats, h, key);
    forall s | s in seats ensures SeatKey(screening, s) in SetAll(l.keys, screening, seats, h)
        && SetAll(l.keys, screening, seats, h)[SeatKey(screening, s)] == h
    {
      SetAllFacts(l.keys, screening, seats, h, SeatKey(screening, s));
    }
  }

  /** Releasing removes exactly the caller's own live locks among the seats named: what another
      holds, and what is not named, stays as it is. */
  lemma {:induction false} ReleaseTakesOnlyMine(l: Locks, now: int, screening: string, seats: seq<string>,
                                                owner: string, key: string)
    ensures var l' := ReleaseMine(l, now, screening, seats, owner);
            if Mine(l, now, key, owner) && exists s :: s in seats && SeatKey(screening, s) == key then key !in l'.keys
            else (key in l'.keys <==> key in l.keys) && (key in l.keys ==> l'.keys[key] == l.keys[key])
    decreases |seats|
  {
    if |seats| > 0 {
      var init, last := seats[..|seats| - 1], seats[|seats| - 1];
      assert seats == init + [last];
      ReleaseTakesOnlyMine(l, now, screening, init, owner, key);
    }
  }

  lemma {:induction false} ReleaseIndex(l: Locks, now: int, screening: string, seats: seq<string>, owner: string,
                                        sc: string, s: string)
    ensures var l' := ReleaseMine(l, now, screening, seats, owner);
            s in Index(l', sc) <==>
              s in Index(l, sc) && !(sc == screening && s in seats && Mine(l, now, SeatKey(screening, s), owner))
    decreases |seats|
  {
    if |seats| > 0 {
      var init, last := seats[..|seats| - 1], seats[|seats| - 1];
      assert seats == init + [last];
      ReleaseIndex(l, now, screening, init, owner, sc, s);
      ReleaseTakesOnlyMine(l, now, screening, init, owner, SeatKey(screening, s));
      ReleaseTakesOnlyMine(l, now, screening, init, owner, SeatKey(screening, last));
      forall x | x in init && SeatKey(screening, x) == SeatKey(screening, last) ensures x == last {
        SeatKeysDiffer(screening, x, last);
      }
      SeatKeysDiffer(screening, last, s);
    }
  }

  /** Renewing succeeds exactly when every seat is the caller's and still live, and then only moves
      their expiry; otherwise nothing changes. */
  lemma RenewExtendsMine(l: Locks, now: int, ttl: int, screening: string, seats: seq<string>, owner: string,
                         key: string)
    ensures var (l', ok) := RenewMine(l, now, ttl, screening, seats, owner);
            && (ok <==> forall s :: s in seats ==> Mine(l, now, SeatKey(screening, s), owner))
            && (!ok ==> l' == l) && l'.index == l.index
            && (ok && (exists s :: s in seats && SeatKey(screening, s) == key) ==>
                  && key in l.keys && l.keys[key].owner == owner
                  && key in l'.keys && l'.keys[key] == Hold(owner, now + ttl))
            && (ok && (forall s :: s in seats ==> SeatKey(screening, s) != key) ==>
                  ((key in l'.keys <==> key in l.keys) && (key in l.keys ==> l'.keys[key] == l.keys[key])))
  {
    SetAllFacts(l.keys, screening, seats, Hold(owner, now + ttl), key);
  }

  // ---- any run ----

  datatype Op =
    | Lock(screening: string, seats: seq<string>, owner: string)
    | Release(screening: string, seats: seq<string>, owner: string)
    | Renew(screening: string, seats: seq<string>, owner: string)
    | Query(screening: string)
    | Count(screenings: seq<string>)

  /** Locking stays within the ids in use; anything may be released, renewed and asked for. */
  predicate Within(ids: set<string>, op: Op) { op.Lock? ==> op.screening in ids }

  ghost predicate AllWithin(ids: set<string>, ops: seq<(nat, Op)>) {
    forall i :: 0 <= i < |ops| ==> Within(ids, ops[i].1)
  }

  predicate Apart(ids: set<string>) { forall a, b :: a in ids && b in ids ==> !Extends(a, b) }

  function Apply(l: Locks, now: int, ttl: int, op: Op): Locks {
    match op
    case Lock(sc, seats, owner) => LockAll(l, now, ttl, sc, seats, owner).0
    case Release(sc, seats, owner) => ReleaseMine(l, now, sc, seats, owner)
    case Renew(sc, seats, owner) => RenewMine(l, now, ttl, sc, seats, owner).0
    case Query(sc) => Cleaned(l, now, sc)
    case Count(scs) => CleanedAll(l, now, scs)
  }

  /** Operations one after another, the clock moving on by the given waits in between. */
  function RunAll(l: Locks, now: int, ttl: int, ops: seq<(nat, Op)>): (Locks, int)
    decreases |ops|
  {
    if |ops| == 0 then (l, now)
    else RunAll(Apply(l, now + ops[0].0, ttl, ops[0].1), now + ops[0].0, ttl, ops[1..])
  }

  /** Every live lock of an id in use is in the index of that id. */
  ghost predicate Indexed(l: Locks, now: int, ids: set<string>) {
    forall sc, s :: sc in ids && Exists(l, now, SeatKey(sc, s)) ==> s in Index(l, sc)
  }

  lemma {:induction false} CleanedAllFacts(l: Locks, now: int, scs: seq<string>, sc: string)
    ensures CleanedAll(l, now, scs).keys == l.keys
    ensures Index(CleanedAll(l, now, scs), sc) == if sc in scs then Alive(l, now, sc) else Index(l, sc)
    ensures Alive(CleanedAll(l, now, scs), now, sc) == Alive(l, now, sc)
    decreases |scs|
  {
    if |scs| > 0 {
      var init, last := scs[..|scs| - 1], scs[|scs| - 1];
      assert scs == init + [last];
      CleanedAllFacts(l, now, init, sc);
    }
  }

  lemma ApplyKeepsIndexed(l: Locks, now: int, ttl: int, op: Op, ids: set<string>)
    requires Indexed(l, now, ids) && Within(ids, op) && Apart(ids)
    ensures Indexed(Apply(l, now, ttl, op), now, ids)
  {
    var l' := Apply(l, now, ttl, op);
    forall sc, s | sc in ids && Exists(l', now, SeatKey(sc, s)) ensures s in Index(l', sc) {
      LiveStaysIndexed(l, now, ttl, op, ids, sc, s);
    }
  }

  lemma LiveStaysIndexed(l: Locks, now: int, ttl: int, op: Op, ids: set<string>, sc: string, s: string)
    requires Indexed(l, now, ids) && Within(ids, op) && Apart(ids)
    requires sc in ids && Exists(Apply(l, now, ttl, op), now, SeatKey(sc, s))
    ensures s in Index(Apply(l, now, ttl, op), sc)
  {
    var key := SeatKey(sc, s);
    hide SeatKey, SetAll, ReleaseMine, CleanedAll;
    match op
    case Lock(t, seats, owner) =>
      SetAllFacts(l.keys, t, seats, Hold(owner, now + ttl), key);
      if x :| x in seats && SeatKey(t, x) == key { ApartKeysDiffer(t, sc, x, s); }
    case Release(t, seats, owner) =>
      ReleaseTakesOnlyMine(l, now, t, seats, owner, key);
      ReleaseIndex(l, now, t, seats, owner, sc, s);
    case Renew(t, seats, owner) => RenewExtendsMine(l, now, ttl, t, seats, owner, key);
    case Query(_) =>
    case Count(ts) => CleanedAllFacts(l, now, ts, sc);
  }

  lemma {:induction false} RunKeepsIndexed(l: Locks, now: int, ttl: int, ops: seq<(nat, Op)>, ids: set<string>)
    requires Indexed(l, now, ids) && AllWithin(ids, ops) && Apart(ids)
    ensures Indexed(RunAll(l, now, ttl, ops).0, RunAll(l, now, ttl, ops).1, ids)
    decreases |ops|
  {
    if |ops| > 0 {
      hide Within, Apply, Apart;
      var t := now + ops[0].0;
      ApplyKeepsIndexed(l, t, ttl, ops[0].1, ids);
      RunKeepsIndexed(Apply(l, t, ttl, ops[0].1), t, ttl, ops[1..], ids);
    }
  }

  /** What a query of sc would return is what is really locked. */
  ghost predicate Exact(l: Locks, now: int, sc: string) {
    forall s :: s in Alive(l, now, sc) <==> Exists(l, now, SeatKey(sc, s))
  }

  /** Through any locks, releases, renewals, queries and lapses, with ids that do not extend one
      another: the index holds every live lock, a query returns exactly the live seats and leaves
      the index equal to them, and asking for many screenings at once changes no answer. */
  lemma QueriesAreExact(ids: set<string>, now: int, ttl: int, ops: seq<(nat, Op)>, wait: nat, sc: string,
                        scs: seq<string>)
    requires AllWithin(ids, ops) && Apart(ids) && sc in ids
    ensures var (l, t) := RunAll(NO_LOCKS, now, ttl, ops);
            && Exact(l, t + wait, sc)
            && Alive(l, t + wait, sc) <= Index(l, sc)
            && Index(Cleaned(l, t + wait, sc), sc) == Alive(l, t + wait, sc)
            && Alive(CleanedAll(l, t + wait, scs), t + wait, sc) == Alive(l, t + wait, sc)
  {
    RunKeepsIndexed(NO_LOCKS, now, ttl, ops, ids);
    var r := RunAll(NO_LOCKS, now, ttl, ops);
    hide RunAll, Indexed, Apart, AllWithin, Exact, Alive, Cleaned, CleanedAll;
    IndexedIsExact(r.0, r.1, ids, wait, sc, scs);
  }

  lemma IndexedIsExact(l: Locks, t: int, ids: set<string>, wait: nat, sc: string, scs: seq<string>)
    requires Indexed(l, t, ids) && sc in ids
    ensures Exact(l, t + wait, sc)
    ensures Alive(l, t + wait, sc) <= Index(l, sc)
    ensures Index(Cleaned(l, t + wait, sc), sc) == Alive(l, t + wait, sc)
    ensures Alive(CleanedAll(l, t + wait, scs), t + wait, sc) == Alive(l, t + wait, sc)
  {
    CleanedAllFacts(l, t + wait, scs, sc);
    hide SeatKey;
    forall s ensures s in Alive(l, t + wait, sc) <==> Exists(l, t + wait, SeatKey(sc, s)) {
      assert Exists(l, t + wait, SeatKey(sc, s)) ==> Exists(l, t, SeatKey(sc, s));
    }
  }

  /** One lock under an id that extends another hides from the other's index. */
  lemma ExtendingIdHides(a: string, b: string)
    requires Extends(a, b)
    ensures var l := Apply(NO_LOCKS, 0, 60, Lock(b, ["c"], "u")); !Exact(l, 0, a)
  {
    var l := Apply(NO_LOCKS, 0, 60, Lock(b, ["c"], "u"));
    var s := b[|a| + 1..] + ":" + "c";
    assert b == a + ":" + b[|a| + 1..];
    assert SeatKey(a, s) == SeatKey(b, "c");
    SetAllFacts(map[], b, ["c"], Hold("u", 60), SeatKey(b, "c"));
    assert "c" in ["c"];
    assert LockAll(NO_LOCKS, 0, 60, b, ["c"], "u").1;
    assert Exists(l, 0, SeatKey(a, s)) && s !in Alive(l, 0, a);
  }

  lemma OneOp(op: Op)
    ensures RunAll(NO_LOCKS, 0, 60, [(0, op)]) == (Apply(NO_LOCKS, 0, 60, op), 0)
  {
    hide Apply;
    assert [(0, op)][1..] == [];
  }

  ghost predicate ExactAfter(now: int, ttl: int, ops: seq<(nat, Op)>, wait: nat, sc: string) {
    Exact(RunAll(NO_LOCKS, now, ttl, ops).0, RunAll(NO_LOCKS, now, ttl, ops).1 + wait, sc)
  }

  /** Every query of an id in use, at any moment after any operations, is exact. */
  ghost predicate AlwaysExact(ids: set<string>) {
    forall now, ttl, ops, wait, sc :: AllWithin(ids, ops) && sc in ids ==> ExactAfter(now, ttl, ops, wait, sc)
  }

  /** The lock index answers for the ids in use exactly when none of them is another one, a colon
      and more. */
  lemma IndexIsExact(ids: set<string>)
    ensures AlwaysExact(ids) <==> Apart(ids)
  {
    if Apart(ids) {
      forall now, ttl, ops, wait, sc | AllWithin(ids, ops) && sc in ids ensures ExactAfter(now, ttl, ops, wait, sc) {
        QueriesAreExact(ids, now, ttl, ops, wait, sc, []);
      }
    } else {
      var a, b :| a in ids && b in ids && Extends(a, b);
      var ops := [(0, Lock(b, ["c"], "u"))];
      ExtendingIdHides(a, b);
      OneOp(Lock(b, ["c"], "u"));
      hide Exact, Extends, Apply, RunAll;
      assert AllWithin(ids, ops) && !ExactAfter(0, 60, ops, 0, a);
    }
  }

  // ---- the scripts as they run ----

  lemma OneMoreSeat(seats: seq<string>, i: nat)
    requires i < |seats|
    ensures ToSet(seats[..i + 1]) == ToSet(seats[..i]) + {seats[i]}
  {
    assert seats[..i + 1] == seats[..i] + [seats[i]];
  }

  class SeatLockService {
    var keys: map<string, Hold>
    var index: map<string, set<string>>
    const ttl: int

    ghost function State(): Locks
      reads this
    {
      Locks(keys, index)
    }

    constructor (ttl: int)
      ensures State() == NO_LOCKS && this.ttl == ttl
    {
      keys, index := map[], map[];
      this.ttl := ttl;
    }

    predicate Get(now: int, key: string, owner: string)
      reads this
    {
      Mine(Locks(keys, index), now, key, owner)
    }

    predicate Has(now: int, key: string)
      reads this
    {
      Exists(Locks(keys, index), now, key)
    }

    function Members(screening: string): set<string>
      reads this
    {
      if screening in index then index[screening] else {}
    }

    method LockSeats(now: int, screening: string, seats: seq<string>, owner: string) returns (ok: bool)
      modifies this
      ensures (State(), ok) == LockAll(old(State()), now, ttl, screening, seats, owner)
    {
      for i := 0 to |seats|
        invariant forall s :: s in seats[..i] ==> !Exists(State(), now, SeatKey(screening, s))
        invariant State() == old(State())
      {
        if Has(now, SeatKey(screening, seats[i])) { return false; }
      }
      assert seats[..|seats|] == seats;
      ghost var l := State();
      for i := 0 to |seats|
        invariant keys == SetAll(l.keys, screening, seats[..i], Hold(owner, now + ttl)) && index == l.index
      {
        assert seats[..i + 1][..i] == seats[..i];
        keys := keys[SeatKey(screening, seats[i]) := Hold(owner, now + ttl)];
      }
      index := index[screening := Members(screening)];
      assert Index(l, screening) + ToSet(seats[..0]) == Index(l, screening);
      for i := 0 to |seats|
        invariant keys == SetAll(l.keys, screening, seats, Hold(owner, now + ttl))
        invariant index == l.index[screening := Index(l, screening) + ToSet(seats[..i])]
      {
        OneMoreSeat(seats, i);
        hide ToSet, SetAll;
        assert Members(screening) + {seats[i]} == Index(l, screening) + ToSet(seats[..i + 1]);
        index := index[screening := Members(screening) + {seats[i]}];
      }
      ok := true;
    }

    method ReleaseSeats(now: int, screening: string, seats: seq<string>, owner: string)
      modifies this
      ensures State() == ReleaseMine(old(State()), now, screening, seats, owner)
    {
      for i := 0 to |seats|
        invariant State() == ReleaseMine(old(State()), now, screening, seats[..i], owner)
      {
        assert seats[..i + 1][..i] == seats[..i];
        var key := SeatKey(screening, seats[i]);
        if Get(now, key, owner) {
          keys := keys - {key};
          index := index[screening := Members(screening) - {seats[i]}];
        }
      }
      assert seats[..|seats|] == seats;
    }

    method RenewSeats(now: int, screening: string, seats: seq<string>, owner: string) returns (ok: bool)
      modifies this
      ensures (State(), ok) == RenewMine(old(State()), now, ttl, screening, seats, owner)
    {
      for i := 0 to |seats|
        invariant forall s :: s in seats[..i] ==> Mine(State(), now, SeatKey(screening, s), owner)
        invariant State() == old(State())
      {
        if !Get(now, SeatKey(screening, seats[i]), owner) { return false; }
      }
      assert seats[..|seats|] == seats;
      for i := 0 to |seats|
        invariant keys == SetAll(old(keys), screening, seats[..i], Hold(owner, now + ttl)) && index == old(index)
      {
        assert seats[..i + 1][..i] == seats[..i];
        keys := keys[SeatKey(screening, seats[i]) := Hold(owner, now + ttl)];
      }
      ok := true;
    }

    /** Sorts indexed seats by whether their key still exists. */
    method Classify(now: int, screening: string, members: set<string>) returns (live: set<string>, stale: set<string>)
      ensures forall s :: s in live <==> s in members && Exists(State(), now, SeatKey(screening, s))
      ensures stale == members - live
    {
      live, stale := {}, {};
      var rest := members;
      while rest != {}
        invariant rest <= members && stale == (members - rest) - live && live <= members - rest
        invariant forall s :: s in members - rest ==> (s in live <==> Exists(State(), now, SeatKey(screening, s)))
        decreases |rest|
      {
        var m :| m in rest;
        hide SeatKey;
        if Has(now, SeatKey(screening, m)) { live := live + {m}; } else { stale := stale + {m}; }
        rest := rest - {m};
      }
    }

    /** The live seats of a screening; members whose key has lapsed leave the index. */
    method LockedSeatNos(now: int, screening: string) returns (live: set<string>)
      modifies this
      ensures live == Alive(old(State()), now, screening)
      ensures State() == Cleaned(old(State()), now, screening)
    {
      var stale;
      live, stale := Classify(now, screening, Members(screening));
      assert Members(screening) - stale == live;
      index := index[screening := Members(screening) - stale];
    }

    /** How many live locks each screening has, in one go. */
    method CountLockedByScreening(now: int, screenings: seq<string>) returns (out: map<string, nat>)
      modifies this
      ensures State() == CleanedAll(old(State()), now, screenings)
      ensures out.Keys == ToSet(screenings)
      ensures forall sc :: sc in out ==> out[sc] == |Alive(old(State()), now, sc)|
    {
      out := map[];
      for i := 0 to |screenings|
        invariant State() == CleanedAll(old(State()), now, screenings[..i])
        invariant out.Keys == ToSet(screenings[..i])
        invariant forall sc :: sc in out ==> out[sc] == |Alive(old(State()), now, sc)|
      {
        assert screenings[..i + 1] == screenings[..i] + [screenings[i]];
        CleanedAllFacts(old(State()), now, screenings[..i], screenings[i]);
        hide Alive, Cleaned;
        var live := LockedSeatNos(now, screenings[i]);
        out := out[screenings[i] := |live|];
      }
      assert screenings[..|screenings|] == screenings;
    }
  }
}
