/** All movies together: which ones every loop visits. */
module MovieTracking {
  import opened SortedSets
  import opened Queues
  import opened QueueSteps

  datatype Store = Store(queues: map<string, Queue>, activeMovies: set<string>, waitingMovies: set<string>)

  datatype Op = On(movie: string, script: Script) | Untrack(movie: string)

  const EMPTY_STORE := Store(map[], {}, {})

  /** Missing keys read as empty. */
  function QueueOf(s: Store, movie: string): Queue {
    if movie in s.queues then s.queues[movie] else EMPTY
  }

  predicate Idle(q: Queue) { q.active == [] && q.waiting == [] && q.pending == [] }

  function Do(s: Store, max: int, op: Op): Store {
    match op
    case On(m, script) =>
      var q := QueueOf(s, m);
      var s' := s.(queues := s.queues[m := Step(q, max, script)]);
      if !script.EnterUser? then s'
      else s'.(activeMovies := s.activeMovies + {m},
               waitingMovies := if Enter(q, max, script.user, script.now).1.Waiting? then s.waitingMovies + {m}
                                else s.waitingMovies)
    case Untrack(m) =>
      if Idle(QueueOf(s, m)) then s.(activeMovies := s.activeMovies - {m}, waitingMovies := s.waitingMovies - {m})
      else s
  }

  function DoAll(s: Store, max: int, ops: seq<Op>): Store
    decreases |ops|
  {
    if |ops| == 0 then s else DoAll(Do(s, max, ops[0]), max, ops[1..])
  }

  ghost predicate Tracked(s: Store) {
    forall m :: && (!Idle(QueueOf(s, m)) ==> m in s.activeMovies)
                && (QueueOf(s, m).waiting != [] ==> m in s.waitingMovies)
  }

  lemma NoMembers(z: Zset)
    ensures z == [] <==> Scores(z).Keys == {}
  {
    if |z| > 0 { assert z[0].member in Scores(z); }
  }

  /** A script other than enter adds no waiter, and wakes no idle movie. */
  lemma OnlyEnterWakes(q: Queue, max: int, s: Script)
    requires !s.EnterUser?
    ensures q.waiting == [] ==> Step(q, max, s).waiting == []
    ensures Idle(q) ==> Idle(Step(q, max, s))
  {
    var q' := Step(q, max, s);
    StepApplies(q, max, s);
    hide Step, Scores;
    NoMembers(q.waiting);
    NoMembers(q'.waiting);
    NoMembers(q.active);
    NoMembers(q'.active);
    NoMembers(q.pending);
    NoMembers(q'.pending);
    if q.waiting == [] && s.PromoteHead? { assert Promote(q, max, s.batch, s.now).1 == []; }
    if Idle(q) { IdleWritesNothing(q, max, s); }
  }

  lemma IdleWritesNothing(q: Queue, max: int, s: Script)
    requires Idle(q) && !s.EnterUser?
    ensures var c := ChangeOf(q, max, s); c.added == {} && c.admitted == {}
  {
    if s.PromoteHead? { assert Promote(q, max, s.batch, s.now).1 == []; }
    if s.ExpireSessions? { assert ExpireActive(q, s.cutoff, s.now).1 == []; }
  }

  lemma WaitingOnlyByReply(q: Queue, max: int, user: string, now: int)
    requires !Enter(q, max, user, now).1.Waiting?
    ensures Enter(q, max, user, now).0.waiting == q.waiting
  {}

  lemma DoKeepsTracked(s: Store, max: int, op: Op)
    requires Tracked(s)
    ensures Tracked(Do(s, max, op))
  {
    var s' := Do(s, max, op);
    forall m ensures (!Idle(QueueOf(s', m)) ==> m in s'.activeMovies)
                  && (QueueOf(s', m).waiting != [] ==> m in s'.waitingMovies) {
      assert QueueOf(s', m) == if op.On? && op.movie == m then Step(QueueOf(s, m), max, op.script) else QueueOf(s, m);
      if op.On? && op.movie == m {
        if op.script.EnterUser? {
          if !Enter(QueueOf(s, m), max, op.script.user, op.script.now).1.Waiting? {
            WaitingOnlyByReply(QueueOf(s, m), max, op.script.user, op.script.now);
          }
        } else {
          OnlyEnterWakes(QueueOf(s, m), max, op.script);
        }
      }
    }
  }

  lemma {:induction false} StaysOut(s: Store, max: int, ops: seq<Op>, m: string)
    requires m !in s.activeMovies && m !in s.waitingMovies
    requires forall op :: op in ops ==> !(op.On? && op.movie == m && op.script.EnterUser?)
    ensures var s' := DoAll(s, max, ops); m !in s'.activeMovies && m !in s'.waitingMovies
    decreases |ops|
  {
    if |ops| > 0 {
      hide Step, Enter;
      StaysOut(Do(s, max, ops[0]), max, ops[1..], m);
    }
  }

  /** The loops leave an idle movie alone from its untracking on, until somebody enters it; a movie with
      users or lines is not untracked. */
  lemma UntrackedUntilEntered(s: Store, max: int, ops: seq<Op>, m: string)
    requires forall op :: op in ops ==> !(op.On? && op.movie == m && op.script.EnterUser?)
    ensures Idle(QueueOf(s, m)) ==>
              var s' := DoAll(Do(s, max, Untrack(m)), max, ops); m !in s'.activeMovies && m !in s'.waitingMovies
    ensures !Idle(QueueOf(s, m)) ==> Do(s, max, Untrack(m)) == s
  {
    if Idle(QueueOf(s, m)) { StaysOut(Do(s, max, Untrack(m)), max, ops, m); }
  }

  lemma {:induction false} RunKeepsTracked(s: Store, max: int, ops: seq<Op>)
    requires Tracked(s)
    ensures Tracked(DoAll(s, max, ops))
    decreases |ops|
  {
    if |ops| > 0 {
      DoKeepsTracked(s, max, ops[0]);
      RunKeepsTracked(Do(s, max, ops[0]), max, ops[1..]);
    }
  }

  /** The two set replies merged without repeats, as every loop's list of movies. */
  method ActiveQueueMovies(active: seq<string>, waiting: seq<string>) returns (out: seq<string>)
    ensures forall m :: m in out <==> m in active || m in waiting
    ensures forall i, j :: 0 <= i < j < |out| ==> out[i] != out[j]
  {
    var all: set<string> := {};
    for i := 0 to |active|
      invariant forall m :: m in all <==> m in active[..i]
    {
      all := all + {active[i]};
    }
    for i := 0 to |waiting|
      invariant forall m :: m in all <==> m in active || m in waiting[..i]
    {
      all := all + {waiting[i]};
    }
    out := [];
    var left := all;
    while left != {}
      invariant forall m :: m in all <==> m in out || m in left
      invariant forall m :: m in out ==> m !in left
      invariant forall i, j :: 0 <= i < j < |out| ==> out[i] != out[j]
      decreases left
    {
      var m :| m in left;
      out := out + [m];
      left := left - {m};
    }
  }

  /** No movie is forgotten: after any history, a movie that has users or unpublished lines at
      the first read is in the list, whatever runs before the second read. */
  lemma NoMovieForgotten(max: int, before: seq<Op>, between: seq<Op>, m: string, out: seq<string>)
    requires var s1 := DoAll(EMPTY_STORE, max, before);
             var s2 := DoAll(s1, max, between);
             && (!Idle(QueueOf(s1, m)) || QueueOf(s2, m).waiting != [])
             && (forall x :: x in s1.activeMovies || x in s2.waitingMovies ==> x in out)
    ensures m in out
  {
    assert Tracked(EMPTY_STORE);
    RunKeepsTracked(EMPTY_STORE, max, before);
    RunKeepsTracked(DoAll(EMPTY_STORE, max, before), max, between);
  }
}
