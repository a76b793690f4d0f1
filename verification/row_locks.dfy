/** Booking transactions waiting for each other's rows: no cycle, always a way forward. */
module RowLocks {
  import opened SortedSets
  import opened BookingTables

  /** The unique rows a transaction inserts: its booking id, its key, then its seats. */
  datatype Row = IdRow(id: string) | KeyRow(key: string) | SeatPlace(screening: string, seatNo: string)

  /** Ids come before keys, keys before seats. */
  function Kind(a: Row): nat { match a case IdRow(_) => 0 case KeyRow(_) => 1 case SeatPlace(_, _) => 2 }

  predicate Less(a: Row, b: Row) {
    match (a, b)
    case (IdRow(k), IdRow(l)) => LexLess(k, l)
    case (KeyRow(k), KeyRow(l)) => LexLess(k, l)
    case (SeatPlace(s, m), SeatPlace(t, n)) => LexLess(s, t) || (s == t && LexLess(m, n))
    case _ => Kind(a) < Kind(b)
  }

  lemma LessTransitive(a: Row, b: Row, c: Row)
    requires Less(a, b) && Less(b, c)
    ensures Less(a, c)
  {
    hide LexLess;
    match (a, b, c)
    case (IdRow(k), IdRow(l), IdRow(m)) => LexLessTransitive(k, l, m);
    case (KeyRow(k), KeyRow(l), KeyRow(m)) => LexLessTransitive(k, l, m);
    case (SeatPlace(r, k), SeatPlace(s, l), SeatPlace(t, m)) =>
      if LexLess(r, s) && LexLess(s, t) { LexLessTransitive(r, s, t); }
      if r == s == t && LexLess(k, l) && LexLess(l, m) { LexLessTransitive(k, l, m); }
    case _ =>
  }

  lemma LessTrichotomy(a: Row, b: Row)
    ensures Less(a, b) || a == b || Less(b, a)
    ensures !(Less(a, b) && Less(b, a)) && !Less(a, a)
  {
    hide LexLess;
    match a {
      case IdRow(k) => LexLessTrichotomy(k, k);
      case KeyRow(k) => LexLessTrichotomy(k, k);
      case SeatPlace(s, m) => LexLessTrichotomy(s, s); LexLessTrichotomy(m, m);
    }
    match (a, b)
    case (IdRow(k), IdRow(l)) => LexLessTrichotomy(k, l);
    case (KeyRow(k), KeyRow(l)) => LexLessTrichotomy(k, l);
    case (SeatPlace(s, m), SeatPlace(t, n)) => LexLessTrichotomy(s, t); LexLessTrichotomy(m, n);
    case _ =>
  }

  // ---- transactions ----

  /** held: how many rows of the plan are inserted, so locked until the transaction ends. */
  datatype Tx = Tx(plan: seq<Row>, held: nat, done: bool)

  /** rows: what has been committed. */
  datatype Database = Database(txs: seq<Tx>, rows: set<Row>)

  datatype Step = Begin(plan: seq<Row>) | Run(t: nat) | Abort(t: nat)

  /** The rows in the order persist inserts them. */
  function Plan(id: string, key: string, screening: string, seats: seq<string>): seq<Row> {
    [IdRow(id), KeyRow(key)] + Places(screening, Sorted(seats))
  }

  function Places(screening: string, seats: seq<string>): (rows: seq<Row>)
    ensures |rows| == |seats|
  {
    seq(|seats|, i requires 0 <= i < |seats| => SeatPlace(screening, seats[i]))
  }

  predicate Unfinished(d: Database, t: nat) {
    t < |d.txs| && !d.txs[t].done && d.txs[t].held <= |d.txs[t].plan|
  }

  predicate Holds(x: Tx, r: Row) { !x.done && x.held <= |x.plan| && r in x.plan[..x.held] }

  /** The row a transaction wants next belongs to another one that has not ended. */
  predicate WaitsFor(d: Database, t: nat, o: nat) {
    && Unfinished(d, t) && o < |d.txs| && o != t
    && d.txs[t].held < |d.txs[t].plan| && Holds(d.txs[o], d.txs[t].plan[d.txs[t].held])
  }

  predicate Blocked(d: Database, t: nat) { exists o :: 0 <= o < |d.txs| && WaitsFor(d, t, o) }

  predicate CanStep(d: Database, s: Step) {
    match s
    case Begin(_) => true
    case Run(t) => Unfinished(d, t) && !Blocked(d, t)
    case Abort(t) => Unfinished(d, t)
  }

  /** Running inserts the next row, rolls back on a row already there, or commits. */
  function Do(d: Database, s: Step): Database
    requires CanStep(d, s)
  {
    match s
    case Begin(plan) => d.(txs := d.txs + [Tx(plan, 0, false)])
    case Abort(t) => d.(txs := d.txs[t := d.txs[t].(done := true)])
    case Run(t) =>
      var x := d.txs[t];
      if x.held == |x.plan| then
        Database(d.txs[t := x.(done := true)], d.rows + (set r | r in x.plan))
      else if x.plan[x.held] in d.rows || x.plan[x.held] in x.plan[..x.held] then
        d.(txs := d.txs[t := x.(done := true)])
      else
        d.(txs := d.txs[t := x.(held := x.held + 1)])
  }

  predicate Ascending(plan: seq<Row>) { forall i, j :: 0 <= i < j < |plan| ==> !Less(plan[j], plan[i]) }

  /** Any plan of persist climbs, whatever the order or repetition of the seats it was given. */
  lemma PlansAscend(id: string, key: string, screening: string, seats: seq<string>)
    ensures Ascending(Plan(id, key, screening, seats))
  {
    SortedFacts(seats);
    LexLessTrichotomy(screening, screening);
    var plan, s := Plan(id, key, screening, seats), Sorted(seats);
    hide LexLess, Sorted;
    assert forall i :: 2 <= i < |plan| ==> plan[i] == SeatPlace(screening, s[i - 2]);
    forall i, j | 0 <= i < j < |plan| ensures !Less(plan[j], plan[i]) {
      if i > 1 { assert !LexLess(s[j - 2], s[i - 2]); }
    }
  }

  // ---- what every run keeps ----

  ghost predicate Exclusive(d: Database) {
    forall i, j, r :: 0 <= i < |d.txs| && 0 <= j < |d.txs| && i != j && Holds(d.txs[i], r) ==> !Holds(d.txs[j], r)
  }

  ghost predicate LockInv(d: Database) {
    && Exclusive(d)
    && forall i :: 0 <= i < |d.txs| ==> d.txs[i].held <= |d.txs[i].plan| && Ascending(d.txs[i].plan)
  }

  ghost predicate Reaches(d: Database, steps: seq<Step>, d': Database)
    decreases |steps|
  {
    if |steps| == 0 then d' == d
    else CanStep(d, steps[0]) && Reaches(Do(d, steps[0]), steps[1..], d')
  }

  /** Every transaction that begins inserts its rows in ascending order. */
  ghost predicate Sound(steps: seq<Step>) { forall s :: s in steps && s.Begin? ==> Ascending(s.plan) }

  const NEW := Database([], {})

  lemma StepKeepsLockInv(d: Database, s: Step)
    requires LockInv(d) && CanStep(d, s) && (s.Begin? ==> Ascending(s.plan))
    ensures LockInv(Do(d, s))
  {
    hide Ascending;
    var d' := Do(d, s);
    forall i, j, r | 0 <= i < |d'.txs| && 0 <= j < |d'.txs| && i != j && Holds(d'.txs[i], r)
      ensures !Holds(d'.txs[j], r)
    {
      Gained(d, s, i, r);
      if j < |d.txs| && d.txs[j].held < |d.txs[j].plan| && Holds(d.txs[i], r) && d.txs[j].plan[d.txs[j].held] == r {
        assert Unfinished(d, j) ==> WaitsFor(d, j, i);
      }
      assert s == Run(i) && Holds(d.txs[j], r) && !Holds(d.txs[i], r) ==> WaitsFor(d, i, j);
      if Holds(d'.txs[j], r) { Gained(d, s, j, r); }
    }
  }

  lemma Gained(d: Database, s: Step, i: nat, r: Row)
    requires LockInv(d) && CanStep(d, s) && i < |Do(d, s).txs| && Holds(Do(d, s).txs[i], r)
    ensures i < |d.txs|
    ensures Holds(d.txs[i], r) || (s == Run(i) && d.txs[i].held < |d.txs[i].plan| && r == d.txs[i].plan[d.txs[i].held])
  {
    hide Ascending, Exclusive;
  }

  lemma {:induction false} ReachableLockInv(d: Database, steps: seq<Step>, d': Database)
    requires LockInv(d) && Reaches(d, steps, d') && Sound(steps)
    ensures LockInv(d')
    decreases |steps|
  {
    if |steps| > 0 {
      StepKeepsLockInv(d, steps[0]);
      ReachableLockInv(Do(d, steps[0]), steps[1..], d');
    }
  }

  // ---- no cycle ----

  function Wanted(d: Database, t: nat): Row
    requires Unfinished(d, t) && d.txs[t].held < |d.txs[t].plan|
  {
    d.txs[t].plan[d.txs[t].held]
  }

  /** Along a wait the wanted row climbs. */
  lemma WaitClimbs(d: Database, t: nat, o: nat)
    requires LockInv(d) && WaitsFor(d, t, o) && d.txs[o].held < |d.txs[o].plan|
    ensures Wanted(d, t) == Wanted(d, o) || Less(Wanted(d, t), Wanted(d, o))
    ensures Blocked(d, o) ==> Less(Wanted(d, t), Wanted(d, o))
  {
    var x, r := d.txs[o], Wanted(d, t);
    var i :| 0 <= i < x.held && x.plan[i] == r;
    LessTrichotomy(r, Wanted(d, o));
    if Blocked(d, o) {
      var p :| 0 <= p < |d.txs| && WaitsFor(d, o, p);
      assert Holds(x, r) && !Holds(x, Wanted(d, o));
    }
  }

  ghost predicate WaitChain(d: Database, ts: seq<nat>) {
    |ts| > 0 && forall i :: 0 <= i < |ts| - 1 ==> WaitsFor(d, ts[i], ts[i + 1])
  }

  lemma {:induction false} ChainClimbs(d: Database, ts: seq<nat>)
    requires LockInv(d) && WaitChain(d, ts) && |ts| > 1
    requires Blocked(d, ts[|ts| - 1])
    ensures Unfinished(d, ts[0]) && d.txs[ts[0]].held < |d.txs[ts[0]].plan|
    ensures Less(Wanted(d, ts[0]), Wanted(d, ts[|ts| - 1]))
    decreases |ts|
  {
    var n := |ts| - 1;
    assert WaitsFor(d, ts[0], ts[1]);
    assert Blocked(d, ts[1]) by {
      if n > 1 { assert WaitsFor(d, ts[1], ts[2]); }
    }
    WaitClimbs(d, ts[0], ts[1]);
    if n > 1 {
      forall i | 0 <= i < |ts[1..]| - 1 ensures WaitsFor(d, ts[1..][i], ts[1..][i + 1]) {
        assert WaitsFor(d, ts[i + 1], ts[i + 2]);
      }
      ChainClimbs(d, ts[1..]);
      LessTransitive(Wanted(d, ts[0]), Wanted(d, ts[1]), Wanted(d, ts[n]));
    }
  }

  /** Transactions that take their id and key first and their seats in order never wait in a circle. */
  lemma NoWaitCycle(steps: seq<Step>, d: Database, ts: seq<nat>)
    requires Reaches(NEW, steps, d) && Sound(steps) && WaitChain(d, ts) && |ts| > 1
    ensures ts[0] != ts[|ts| - 1]
  {
    ReachableLockInv(NEW, steps, d);
    if ts[0] == ts[|ts| - 1] {
      assert WaitsFor(d, ts[0], ts[1]);
      ChainClimbs(d, ts);
      LessTrichotomy(Wanted(d, ts[0]), Wanted(d, ts[0]));
    }
  }

  // ---- a way forward ----

  function Indices(n: nat): set<nat> { if n == 0 then {} else Indices(n - 1) + {n - 1} }

  lemma {:induction false} AllIndices(n: nat, i: nat)
    ensures i in Indices(n) <==> i < n
  {
    if n > 0 { AllIndices(n - 1, i); }
  }

  /** Some transaction not yet ended is not waiting. */
  lemma {:induction false} SomeoneRuns(d: Database, t: nat, seen: set<nat>) returns (r: nat)
    requires LockInv(d) && Unfinished(d, t)
    requires seen <= Indices(|d.txs|) && t !in seen
    requires forall o :: o in seen ==> Unfinished(d, o) && d.txs[o].held < |d.txs[o].plan|
    requires d.txs[t].held < |d.txs[t].plan| && Blocked(d, t) ==>
               forall o :: o in seen ==> Less(Wanted(d, o), Wanted(d, t))
    ensures CanStep(d, Run(r))
    decreases Indices(|d.txs|) - seen
  {
    if !Blocked(d, t) {
      r := t;
    } else {
      var o :| 0 <= o < |d.txs| && WaitsFor(d, t, o);
      if d.txs[o].held == |d.txs[o].plan| || !Blocked(d, o) {
        r := o;
      } else {
        WaitClimbs(d, t, o);
        LessTrichotomy(Wanted(d, o), Wanted(d, o));
        forall p | p in seen + {t} ensures Less(Wanted(d, p), Wanted(d, o)) {
          if p != t { LessTransitive(Wanted(d, p), Wanted(d, t), Wanted(d, o)); }
        }
        AllIndices(|d.txs|, t);
        r := SomeoneRuns(d, o, seen + {t});
      }
    }
  }

  function Left(x: Tx): nat { if x.done || x.held > |x.plan| then 0 else |x.plan| - x.held + 1 }

  function AllLeft(txs: seq<Tx>): nat { if |txs| == 0 then 0 else Left(txs[0]) + AllLeft(txs[1..]) }

  lemma {:induction false} AllLeftUpdate(txs: seq<Tx>, t: nat, x: Tx)
    requires t < |txs|
    ensures AllLeft(txs[t := x]) == AllLeft(txs) - Left(txs[t]) + Left(x)
  {
    if t == 0 {
      assert txs[t := x][1..] == txs[1..];
    } else {
      assert txs[t := x][1..] == txs[1..][t - 1 := x];
      AllLeftUpdate(txs[1..], t - 1, x);
    }
  }

  /** Running or aborting uses something up. */
  lemma StepUsesUp(d: Database, s: Step)
    requires CanStep(d, s) && !s.Begin?
    ensures AllLeft(Do(d, s).txs) < AllLeft(d.txs)
  {
    AllLeftUpdate(d.txs, s.t, Do(d, s).txs[s.t]);
  }

  /** From every reachable state the unfinished transactions can all be run to their end without
      one abort, in at most as many steps as there are rows and commits left. */
  lemma EveryoneFinishes(steps: seq<Step>, d: Database) returns (more: seq<Step>, d': Database)
    requires Reaches(NEW, steps, d) && Sound(steps)
    ensures Reaches(d, more, d') && |more| <= AllLeft(d.txs)
    ensures (forall s :: s in more ==> s.Run?) && forall t :: !Unfinished(d', t)
  {
    ReachableLockInv(NEW, steps, d);
    more, d' := RunOut(d);
  }

  lemma {:induction false} RunOut(d: Database) returns (more: seq<Step>, d': Database)
    requires LockInv(d)
    ensures Reaches(d, more, d') && |more| <= AllLeft(d.txs)
    ensures (forall s :: s in more ==> s.Run?) && forall t :: !Unfinished(d', t)
    decreases AllLeft(d.txs)
  {
    if t :| Unfinished(d, t) {
      var r := SomeoneRuns(d, t, {});
      StepUsesUp(d, Run(r));
      StepKeepsLockInv(d, Run(r));
      var rest;
      rest, d' := RunOut(Do(d, Run(r)));
      more := [Run(r)] + rest;
      assert more[1..] == rest;
    } else {
      more, d' := [], d;
    }
  }

  // ---- without the sorting ----

  lemma {:induction false} ReachesMore(d: Database, steps: seq<Step>, d1: Database, s: Step)
    requires Reaches(d, steps, d1) && CanStep(d1, s)
    ensures Reaches(d, steps + [s], Do(d1, s))
    decreases |steps|
  {
    if |steps| == 0 {
      assert [s][1..] == [];
    } else {
      assert (steps + [s])[1..] == steps[1..] + [s];
      ReachesMore(Do(d, steps[0]), steps[1..], d1, s);
    }
  }

  const FIRST := [IdRow("1"), KeyRow("k"), SeatPlace("s", "A1"), SeatPlace("s", "A2")]
  const SECOND := [IdRow("2"), KeyRow("l"), SeatPlace("s", "A2"), SeatPlace("s", "A1")]

  function Pair(m: nat, n: nat): Database { Database([Tx(FIRST, m, false), Tx(SECOND, n, false)], {}) }

  /** The first transaction takes its id, its key and A1, then the second its id, its key and A2. */
  lemma PairSteps(i: nat)
    requires i < 6
    ensures var (m, n) := if i < 3 then (i, 0) else (3, i - 3);
            var t := if i < 3 then 0 else 1;
            CanStep(Pair(m, n), Run(t)) && Do(Pair(m, n), Run(t)) == if t == 0 then Pair(m + 1, n) else Pair(m, n + 1)
  {
    assert FIRST[..3] == [IdRow("1"), KeyRow("k"), SeatPlace("s", "A1")];
    assert SECOND[..2] == [IdRow("2"), KeyRow("l")];
  }

  /** Inserting in the order of the request, [A1, A2] against [A2, A1] reaches a state where the
      two transactions wait for each other. */
  lemma RequestOrderDeadlocks() returns (steps: seq<Step>, d: Database)
    ensures Reaches(NEW, steps, d) && |d.txs| == 2 && d.txs[0].plan == FIRST && d.txs[1].plan == SECOND
    ensures WaitsFor(d, 0, 1) && WaitsFor(d, 1, 0)
  {
    ReachesMore(NEW, [], NEW, Begin(FIRST));
    ReachesMore(NEW, [] + [Begin(FIRST)], Do(NEW, Begin(FIRST)), Begin(SECOND));
    steps, d := [] + [Begin(FIRST)] + [Begin(SECOND)], Do(Do(NEW, Begin(FIRST)), Begin(SECOND));
    assert d == Pair(0, 0);
    for i := 0 to 6
      invariant Reaches(NEW, steps, d) && d == if i < 3 then Pair(i, 0) else Pair(3, i - 3)
    {
      PairSteps(i);
      var s := Run(if i < 3 then 0 else 1);
      hide Pair, Do, CanStep;
      ReachesMore(NEW, steps, d, s);
      steps, d := steps + [s], Do(d, s);
    }
    assert FIRST[..3] == [IdRow("1"), KeyRow("k"), SeatPlace("s", "A1")];
    assert SECOND[..3] == [IdRow("2"), KeyRow("l"), SeatPlace("s", "A2")];
  }
}
