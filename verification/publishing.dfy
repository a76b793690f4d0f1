/** One publish call to the broker: what reaches the log, and what the caller is told. */
module Publishing {
  import opened Sweeps

  /** What a publish call may do: reach the broker whole and be confirmed, or report an error with
      any part of the batch in the log. */
  datatype Outcome = Delivered | Failed(landed: set<nat>)

  /** What reached the log: one message for each user whose message arrived and no other, in the
      order of the batch. `at` holds the places in the batch, ascending. */
  ghost predicate Arrived(added: seq<Message>, topic: Topic, users: seq<string>, outcome: Outcome, at: seq<nat>) {
    && |added| == |at|
    && (forall j, k :: 0 <= j < k < |at| ==> at[j] < at[k])
    && (forall k :: 0 <= k < |at| ==> at[k] < |users| && added[k] == Message(topic, users[at[k]]))
    && forall i :: 0 <= i < |users| ==> (i in at <==> outcome.Delivered? || i in outcome.landed)
  }

  /** The messages of a batch that are in the log after the call, in order. */
  function Written(msgs: seq<Message>, outcome: Outcome): seq<Message> {
    if outcome.Delivered? then msgs else Landed(msgs, outcome.landed)
  }

  function Landed(msgs: seq<Message>, landed: set<nat>): seq<Message> {
    if |msgs| == 0 then []
    else Landed(msgs[..|msgs| - 1], landed) + if |msgs| - 1 in landed then [msgs[|msgs| - 1]] else []
  }

  function Messages(topic: Topic, users: seq<string>): seq<Message> {
    if |users| == 0 then [] else Messages(topic, users[..|users| - 1]) + [Message(topic, users[|users| - 1])]
  }

  lemma {:induction false} MessagesAre(topic: Topic, users: seq<string>)
    ensures |Messages(topic, users)| == |users|
    ensures forall i :: 0 <= i < |users| ==> Messages(topic, users)[i] == Message(topic, users[i])
    decreases |users|
  {
    if |users| > 0 { MessagesAre(topic, users[..|users| - 1]); }
  }

  lemma MessagesGrow(topic: Topic, users: seq<string>)
    ensures Messages(topic, users[..0]) == []
    ensures forall i :: 0 <= i < |users| ==>
              Messages(topic, users[..i + 1]) == Messages(topic, users[..i]) + [Message(topic, users[i])]
  {
    forall i | 0 <= i < |users|
      ensures Messages(topic, users[..i + 1]) == Messages(topic, users[..i]) + [Message(topic, users[i])]
    {
      assert users[..i + 1][..i] == users[..i];
    }
  }

  lemma PublishMeans(log: seq<Message>, topic: Topic, users: seq<string>, outcome: Outcome)
    ensures var log' := log + Written(Messages(topic, users), outcome);
            && (outcome.Delivered? ==>
                  && |log'| == |log| + |users|
                  && (forall i :: 0 <= i < |users| ==> log'[|log| + i] == Message(topic, users[i]))
                  && (forall u :: u in users ==> Message(topic, u) in log'[|log|..]))
            && exists at :: Arrived(log'[|log|..], topic, users, outcome, at)
  {
    MessagesAre(topic, users);
    var added := Written(Messages(topic, users), outcome);
    var at := WrittenArrives(topic, users, outcome);
    assert (log + added)[|log|..] == added;
    hide Arrived, Messages;
    if outcome.Delivered? {
      forall u | u in users ensures Message(topic, u) in added {
        var i :| 0 <= i < |users| && users[i] == u;
        assert added[i] == Message(topic, u);
      }
    }
  }

  lemma WrittenArrives(topic: Topic, users: seq<string>, outcome: Outcome) returns (at: seq<nat>)
    ensures Arrived(Written(Messages(topic, users), outcome), topic, users, outcome, at)
  {
    if outcome.Delivered? {
      MessagesAre(topic, users);
      at := seq(|users|, i => i);
      assert forall i :: 0 <= i < |users| ==> at[i] == i && i in at;
    } else {
      at := LandedArrives(topic, users, outcome.landed);
    }
  }

  lemma {:induction false} LandedArrives(topic: Topic, users: seq<string>, landed: set<nat>) returns (at: seq<nat>)
    ensures Arrived(Landed(Messages(topic, users), landed), topic, users, Failed(landed), at)
    decreases |users|
  {
    if |users| == 0 {
      at := [];
    } else {
      var n := |users| - 1;
      var all := Messages(topic, users);
      assert all[..|all| - 1] == Messages(topic, users[..n]);
      MessagesAre(topic, users);
      var was := LandedArrives(topic, users[..n], landed);
      at := ArrivesOneMore(Landed(all[..|all| - 1], landed), topic, users, landed, was);
    }
  }

  lemma ArrivesOneMore(added: seq<Message>, topic: Topic, users: seq<string>, landed: set<nat>, was: seq<nat>)
    returns (at: seq<nat>)
    requires |users| > 0 && Arrived(added, topic, users[..|users| - 1], Failed(landed), was)
    ensures var n := |users| - 1;
            Arrived(added + if n in landed then [Message(topic, users[n])] else [], topic, users, Failed(landed), at)
  {
    var n := |users| - 1;
    if n in landed {
      at := was + [n];
      assert forall i :: i in at <==> i in was || i == n;
    } else {
      at := was;
      assert added + [] == added;
    }
  }

  lemma NothingWritten(outcome: Outcome)
    ensures Written([], outcome) == [] && forall t :: Messages(t, []) == []
  {}

  class Broker {
    var log: seq<Message>

    constructor ()
      ensures log == []
    {
      log := [];
    }

    /** One WriteMessages call for the whole batch: one message for each user, in order. Confirmed, all
        of them are behind the old log; reported failed, just those that landed are. */
    method PublishEvents(topic: Topic, users: seq<string>, outcome: Outcome) returns (ok: bool)
      modifies this
      ensures log == old(log) + Written(Messages(topic, users), outcome)
      ensures old(log) <= log
      ensures outcome.Delivered? ==>
                && |log| == |old(log)| + |users|
                && forall i :: 0 <= i < |users| ==> log[|old(log)| + i] == Message(topic, users[i])
      ensures exists at :: Arrived(log[|old(log)|..], topic, users, outcome, at)
      ensures ok == (outcome.Delivered? || |users| == 0)
      ensures ok ==> forall u :: u in users ==> Message(topic, u) in log[|old(log)|..]
    {
      PublishMeans(log, topic, users, outcome);
      NothingWritten(outcome);
      hide Arrived, Written, Messages;
      if |users| == 0 {
        assert users == [] && log + [] == log;
        return true;
      }
      MessagesGrow(topic, users);
      var msgs: seq<Message> := [];
      for i := 0 to |users|
        invariant msgs == Messages(topic, users[..i])
      {
        msgs := msgs + [Message(topic, users[i])];
      }
      assert users[..|users|] == users;
      log := log + Written(msgs, outcome);
      ok := outcome.Delivered?;
    }
  }
}
