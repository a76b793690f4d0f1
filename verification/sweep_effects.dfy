/** What one sweep of a movie sends and what it leaves in the journal. */
module SweepEffects {
  import opened SortedSets
  import opened Journal
  import opened Queues
  import opened Sweeps
  import opened Publishing

  /** The queue after a sweep that cleared the batches confirmed. */
  function Swept(q: Queue, s: Sifted, admitsCleared: bool, revokesCleared: bool): Queue {
    var q0 := Queues.ClearPending(Queues.ClearPending(q, s.malformed), s.unknown);
    var q1 := if admitsCleared then Queues.ClearPending(q0, s.admitLines) else q0;
    if revokesCleared then Queues.ClearPending(q1, s.revokeLines) else q1
  }

  lemma SweptIs(q: Queue, s: Sifted, admitsCleared: bool, revokesCleared: bool)
    ensures var q0 := Queues.ClearPending(Queues.ClearPending(q, s.malformed), s.unknown);
            var q1 := if admitsCleared then Queues.ClearPending(q0, s.admitLines) else q0;
            Swept(q, s, admitsCleared, revokesCleared)
            == if revokesCleared then Queues.ClearPending(q1, s.revokeLines) else q1
  {}

  /** What a sweep that read these lines leaves. Nothing but the journal changes, and it gains nothing:
      every line that was not read is still owed, with its time. Of those that were, the admissions go if
      and only if their batch was confirmed and cleared, the revokes likewise, and what nobody can use
      goes. */
  ghost predicate SweepLeaves(q: Queue, q': Queue, read: seq<string>, admitsGone: bool, revokesGone: bool) {
    && q' == q.(pending := q'.pending)
    && (forall k :: k in Scores(q'.pending) ==>
          k in Scores(q.pending) && Scores(q'.pending)[k] == Scores(q.pending)[k])
    && (forall k :: k in Scores(q.pending) && k !in read ==> k in Scores(q'.pending))
    && (forall n: Notice :: n.user != "" && Owes(q, n) && Encode(n) in read ==>
          (Owes(q', n) <==> !(if n.Admit? then admitsGone else revokesGone)))
    && (forall k :: k in read && Kind(k) != Some(KIND_ADMIT) && Kind(k) != Some(KIND_REVOKE) ==>
          k !in Scores(q'.pending))
  }

  /** What it sends: every message is that of a line read, on the topic of its kind, and a confirmed batch
      holds one for every notice read. */
  ghost predicate SweepSends(log: seq<Message>, log': seq<Message>, read: seq<string>, admitsSent: bool,
                             revokesSent: bool)
  {
    && log <= log'
    && var added := log'[|log|..];
    && (forall m :: m in added ==> exists k :: k in read && Asks(k, m))
    && (forall n: Notice :: n.user != "" && Encode(n) in read && (if n.Admit? then admitsSent else revokesSent) ==>
          Message(if n.Admit? then Admissions else Revoked, n.user) in added)
  }

  /** The line is of the message's kind and names its user. */
  predicate Asks(line: string, m: Message) {
    && Kind(line) == Some(if m.topic.Admissions? then KIND_ADMIT else KIND_REVOKE)
    && ParsePendingMember(line).requestId == m.user
  }

  lemma ClearedScores(q: Queue, lines: seq<string>)
    ensures var q' := Queues.ClearPending(q, lines);
            && q' == q.(pending := q'.pending)
            && (forall k :: k in Scores(q'.pending) <==> k in Scores(q.pending) && k !in lines)
            && (forall k :: k in Scores(q'.pending) ==> Scores(q'.pending)[k] == Scores(q.pending)[k])
  {
    hide Scores;
  }

  /** Which lines a sweep takes out, by membership alone. */
  lemma SweptScores(q: Queue, s: Sifted, admitsGone: bool, revokesGone: bool)
    ensures var q' := Swept(q, s, admitsGone, revokesGone);
            && q' == q.(pending := q'.pending)
            && (forall k :: k in Scores(q'.pending) <==>
                  && k in Scores(q.pending) && k !in s.malformed && k !in s.unknown
                  && !(admitsGone && k in s.admitLines) && !(revokesGone && k in s.revokeLines))
            && (forall k :: k in Scores(q'.pending) ==> Scores(q'.pending)[k] == Scores(q.pending)[k])
  {
    var a := Queues.ClearPending(q, s.malformed);
    var b := Queues.ClearPending(a, s.unknown);
    var c := if admitsGone then Queues.ClearPending(b, s.admitLines) else b;
    ClearedScores(q, s.malformed);
    ClearedScores(a, s.unknown);
    ClearedScores(b, s.admitLines);
    ClearedScores(c, s.revokeLines);
    hide Scores, Queues.ClearPending;
  }

  lemma SweptLeaves(q: Queue, read: seq<string>, admitsGone: bool, revokesGone: bool)
    ensures SweepLeaves(q, Swept(q, Sift(read), admitsGone, revokesGone), read, admitsGone, revokesGone)
  {
    var q' := Swept(q, Sift(read), admitsGone, revokesGone);
    SweptScores(q, Sift(read), admitsGone, revokesGone);
    SiftMembers(read);
    hide Scores, Swept, Sift, Encode, Kind;
    forall n: Notice | n.user != "" && Owes(q, n) && Encode(n) in read
      ensures Owes(q', n) <==> !(if n.Admit? then admitsGone else revokesGone)
    {
      KindOfNotice(n);
    }
  }

  lemma KindOfNotice(n: Notice)
    requires n.user != ""
    ensures Kind(Encode(n)) == Some(if n.Admit? then KIND_ADMIT else KIND_REVOKE)
    ensures ParsePendingMember(Encode(n)).requestId == n.user
    ensures KIND_ADMIT != KIND_REVOKE
  {
    EncodeParses(n);
    hide Encode, ParsePendingMember;
  }

  /** One batch of a sweep holds messages that lines read ask for, and confirmed all of its topic. */
  ghost predicate Answers(added: seq<Message>, read: seq<string>, topic: Topic, whole: bool) {
    && (forall m :: m in added ==> exists k :: k in read && Asks(k, m))
    && (whole ==> forall k, u :: k in read && Asks(k, Message(topic, u)) ==> Message(topic, u) in added)
  }

  lemma SweptSends(log: seq<Message>, read: seq<string>, admitOutcome: Outcome, revokeOutcome: Outcome)
    ensures var s := Sift(read);
            SweepSends(log, log + Written(Messages(Admissions, s.admits), admitOutcome)
                                + Written(Messages(Revoked, s.revokes), revokeOutcome),
                       read, admitOutcome.Delivered?, revokeOutcome.Delivered?)
  {
    var s := Sift(read);
    var admitAt, revokeAt := SiftInOrder(read);
    hide Sift, Written, Messages, Chosen, Answers, SweepSends;
    BatchAnswers(read, Admissions, s.admitLines, s.admits, admitAt, admitOutcome);
    BatchAnswers(read, Revoked, s.revokeLines, s.revokes, revokeAt, revokeOutcome);
    BothSent(log, Written(Messages(Admissions, s.admits), admitOutcome),
             Written(Messages(Revoked, s.revokes), revokeOutcome), read, admitOutcome.Delivered?,
             revokeOutcome.Delivered?);
  }

  lemma BothSent(log: seq<Message>, a: seq<Message>, b: seq<Message>, read: seq<string>, admitsSent: bool,
                 revokesSent: bool)
    requires Answers(a, read, Admissions, admitsSent) && Answers(b, read, Revoked, revokesSent)
    ensures SweepSends(log, log + a + b, read, admitsSent, revokesSent)
  {
    hide Encode, Asks;
    assert (log + a + b)[|log|..] == a + b;
    forall n: Notice | n.user != "" && Encode(n) in read && (if n.Admit? then admitsSent else revokesSent)
      ensures Message(if n.Admit? then Admissions else Revoked, n.user) in a + b
    {
      NoticeAsks(n);
    }
  }

  lemma NoticeAsks(n: Notice)
    requires n.user != ""
    ensures Asks(Encode(n), Message(if n.Admit? then Admissions else Revoked, n.user))
  {
    KindOfNotice(n);
    hide Encode, Kind, ParsePendingMember;
  }

  lemma BatchAnswers(read: seq<string>, topic: Topic, lines: seq<string>, users: seq<string>, at: seq<nat>,
                     outcome: Outcome)
    requires Chosen(read, if topic.Admissions? then KIND_ADMIT else KIND_REVOKE, lines, users, at)
    ensures Answers(Written(Messages(topic, users), outcome), read, topic, outcome.Delivered?)
  {
    var added := Written(Messages(topic, users), outcome);
    var places := WrittenArrives(topic, users, outcome);
    assert outcome.Delivered? ==> added == Messages(topic, users);
    MessagesAre(topic, users);
    hide Written, Messages, Chosen, Arrived, Asks;
    ForLinesRead(read, topic, lines, users, at, added, outcome, places);
    if outcome.Delivered? { ForAllOfTopic(read, topic, lines, users, at, added); }
  }

  lemma ForLinesRead(read: seq<string>, topic: Topic, lines: seq<string>, users: seq<string>, at: seq<nat>,
                     added: seq<Message>, outcome: Outcome, places: seq<nat>)
    requires Chosen(read, if topic.Admissions? then KIND_ADMIT else KIND_REVOKE, lines, users, at)
    requires Arrived(added, topic, users, outcome, places)
    ensures forall m :: m in added ==> exists k :: k in read && Asks(k, m)
  {
    hide Kind, ParsePendingMember;
    forall m | m in added ensures exists k :: k in read && Asks(k, m) {
      var j :| 0 <= j < |added| && added[j] == m;
      var line := lines[places[j]];
      assert line == read[at[places[j]]] && Asks(line, m);
    }
  }

  lemma ForAllOfTopic(read: seq<string>, topic: Topic, lines: seq<string>, users: seq<string>, at: seq<nat>,
                      added: seq<Message>)
    requires Chosen(read, if topic.Admissions? then KIND_ADMIT else KIND_REVOKE, lines, users, at)
    requires |added| == |users| && forall i :: 0 <= i < |users| ==> added[i] == Message(topic, users[i])
    ensures forall k, u :: k in read && Asks(k, Message(topic, u)) ==> Message(topic, u) in added
  {
    hide Kind, ParsePendingMember;
    forall k, u | k in read && Asks(k, Message(topic, u)) ensures Message(topic, u) in added {
      var i :| 0 <= i < |read| && read[i] == k;
      var j :| 0 <= j < |at| && at[j] == i;
      assert added[j] == Message(topic, users[j]);
    }
  }
}
