/** Booking consumes the two topics apart: exactly when the order between them does not matter. */
module OutboxTopics {
  import opened SortedSets
  import opened Journal
  import opened Sweeps
  import opened Outbox
  import opened OutboxSafety
  import opened OutboxConvergence
  import opened OutboxGrace
  import opened OutboxRecovery
  import opened OutboxReentry

  function Rest(log: seq<Message>, i: nat): seq<Message>
    requires i < |log|
  {
    log[..i] + log[i + 1..]
  }

  /** Every message is consumed, in some order: each time the one at the given place of what is left.
      The messages of one user on one topic are alike, so their order among themselves is no matter. */
  ghost predicate ConsumedAnyhow(log: seq<Message>, admitted: set<string>, order: seq<nat>, ended: set<string>)
    decreases |log|
  {
    if |log| == 0 then ended == admitted
    else
      && |order| > 0 && order[0] < |log|
      && ConsumedAnyhow(Rest(log, order[0]), Applied(admitted, log[order[0]]), order[1..], ended)
  }

  /** The log holds messages of both topics about u. */
  ghost predicate OnBoth(log: seq<Message>, u: string) {
    Message(Admissions, u) in log && Message(Revoked, u) in log
  }

  lemma RestHas(log: seq<Message>, i: nat, m: Message)
    requires i < |log|
    ensures m in Rest(log, i) ==> m in log
    ensures m in log && m != log[i] ==> m in Rest(log, i)
  {
    if m in log && m != log[i] {
      var j :| 0 <= j < |log| && log[j] == m;
      assert j < i ==> Rest(log, i)[j] == m;
      assert j > i ==> Rest(log, i)[j - 1] == m;
    }
  }

  // ---- messages of one topic only ----

  lemma {:induction false} AnyOrderSettles(log: seq<Message>, admitted: set<string>, order: seq<nat>,
      ended: set<string>, u: string)
    requires ConsumedAnyhow(log, admitted, order, ended) && !OnBoth(log, u)
    ensures u in ended <==> Message(Admissions, u) in log || (u in admitted && Message(Revoked, u) !in log)
    decreases |log|
  {
    if |log| > 0 {
      var i := order[0];
      var m := log[i];
      RestHas(log, i, Message(Admissions, u));
      RestHas(log, i, Message(Revoked, u));
      AnyOrderSettles(Rest(log, i), Applied(admitted, m), order[1..], ended, u);
      assert m == Message(m.topic, m.user);
    }
  }

  lemma {:induction false} FinalOfOneTopic(log: seq<Message>, u: string, now: bool)
    requires !OnBoth(log, u)
    ensures Final(log, u, now) <==> Message(Admissions, u) in log || (now && Message(Revoked, u) !in log)
    decreases |log|
  {
    if |log| > 0 {
      assert log == [log[0]] + log[1..] && log[0] == Message(log[0].topic, log[0].user);
      FinalOfOneTopic(log[1..], u, if log[0].user == u then log[0].topic.Admissions? else now);
    }
  }

  // ---- messages of both topics ----

  /** Any message can be consumed last. */
  lemma {:induction false} LastWins(log: seq<Message>, admitted: set<string>, k: nat)
    returns (order: seq<nat>, ended: set<string>)
    requires k < |log|
    ensures ConsumedAnyhow(log, admitted, order, ended)
    ensures log[k].user in ended <==> log[k].topic.Admissions?
    decreases |log|
  {
    if |log| == 1 {
      order, ended := [0], Applied(admitted, log[0]);
      assert Rest(log, 0) == [];
    } else {
      var i := if k == 0 then 1 else 0;
      var k' := if k == 0 then 0 else k - 1;
      assert Rest(log, i)[k'] == log[k];
      var rest;
      rest, ended := LastWins(Rest(log, i), Applied(admitted, log[i]), k');
      order := [i] + rest;
      assert order[1..] == rest;
    }
  }

  // ---- exactly when the order is no matter ----

  ghost predicate AnyOrderAgrees(st: Sys) {
    forall order, ended :: ConsumedAnyhow(st.log, st.admitted, order, ended) ==> ended == Scores(st.q.active).Keys
  }

  /** With the journal published, the topics may be consumed in any order exactly when no user has
      messages on both: otherwise some order leaves that user admitted without a seat, or seated and
      not admitted. */
  lemma AnyOrderAgreesExactly(cfg: Config, st: Sys)
    requires SysInv(cfg, st) && st.q.pending == []
    ensures AnyOrderAgrees(st) <==> forall u :: !OnBoth(st.log, u)
  {
    InvAgrees(cfg, st);
    hide SysInv, Scores, ConsumedAnyhow;
    if u :| OnBoth(st.log, u) {
      WrongOrder(st, u);
    } else {
      forall order, ended | ConsumedAnyhow(st.log, st.admitted, order, ended)
        ensures ended == Scores(st.q.active).Keys
      {
        forall u ensures u in ended <==> u in Scores(st.q.active) {
          AnyOrderSettles(st.log, st.admitted, order, ended, u);
          FinalOfOneTopic(st.log, u, u in st.admitted);
        }
      }
    }
  }

  lemma WrongOrder(st: Sys, u: string)
    requires OnBoth(st.log, u)
    ensures !AnyOrderAgrees(st)
  {
    hide ConsumedAnyhow, Scores;
    var last := Message(if u in Scores(st.q.active) then Revoked else Admissions, u);
    var k :| 0 <= k < |st.log| && st.log[k] == last;
    var order, ended := LastWins(st.log, st.admitted, k);
    assert ended != Scores(st.q.active).Keys;
  }

  /** Entering and leaving reaches a state where the order decides: the journal is published, the user
      holds no seat, and the log holds both messages about them. */
  lemma BothIsReached(cfg: Config) returns (acts: seq<Action>, st: Sys)
    requires Sane(cfg)
    ensures Reaches(cfg, START, acts, st) && st.q.pending == [] && st.q.active == [] && OnBoth(st.log, U)
  {
    acts := SeatedAndLeft(cfg);
    var s := Sys(0, Left(0), map[0 := FirstBatch(true)], [Message(Admissions, U)], {});
    hide Reaches, RealIds, OwesRevoke, OwesAdmit, Encode, Settles, Left, FirstBatch, Scores;
    LeftQueue();
    OneRevoke(s.q);
    acts, st := PublishAll(cfg, START, acts, s);
    assert Message(Admissions, U) in s.log;
  }
}
