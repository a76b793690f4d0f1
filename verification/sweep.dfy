/** What the sweep reads from the journal and how it sorts the lines into two batches. */
module Sweeps {
  import opened SortedSets
  import opened Journal

  datatype Topic = Admissions | Revoked

  datatype Message = Message(topic: Topic, user: string)

  /** Lines and users of each kind, in journal order; lines that do not parse; lines of a kind
      the sweep does not know. */
  datatype Sifted = Sifted(admitLines: seq<string>, admits: seq<string>,
                           revokeLines: seq<string>, revokes: seq<string>,
                           malformed: seq<string>, unknown: seq<string>)

  const NOTHING := Sifted([], [], [], [], [], [])

  function SiftOne(s: Sifted, line: string): Sifted {
    var p := ParsePendingMember(line);
    if p.Malformed? then s.(malformed := s.malformed + [line])
    else if p.kind == KIND_ADMIT then s.(admitLines := s.admitLines + [line], admits := s.admits + [p.requestId])
    else if p.kind == KIND_REVOKE then s.(revokeLines := s.revokeLines + [line], revokes := s.revokes + [p.requestId])
    else s.(unknown := s.unknown + [line])
  }

  function Sift(lines: seq<string>): Sifted {
    if |lines| == 0 then NOTHING
    else SiftOne(Sift(lines[..|lines| - 1]), lines[|lines| - 1])
  }

  /** The kind of a line that parses. */
  function Kind(line: string): Option<string> {
    match ParsePendingMember(line) case Parsed(kind, _, _) => Some(kind) case Malformed => None
  }

  /** Sorting is by the kind a line parses to, and publishes the user each line of a kind names. */
  lemma {:induction false} SiftMembers(lines: seq<string>)
    ensures var s := Sift(lines);
            && (forall k :: k in s.admitLines <==> k in lines && Kind(k) == Some(KIND_ADMIT))
            && (forall k :: k in s.revokeLines <==> k in lines && Kind(k) == Some(KIND_REVOKE))
            && (forall k :: k in s.malformed <==> k in lines && Kind(k) == None)
            && (forall k :: k in s.unknown <==>
                  k in lines && Kind(k) != None && Kind(k) != Some(KIND_ADMIT) && Kind(k) != Some(KIND_REVOKE))
    decreases |lines|
  {
    if |lines| > 0 {
      var init, last := lines[..|lines| - 1], lines[|lines| - 1];
      SiftMembers(init);
      hide ParsePendingMember;
      assert lines == init + [last];
    }
  }

  /** The lines of one kind with the users they name, in the order of the journal: `at` holds the places
      of just these lines, ascending. */
  ghost predicate Chosen(lines: seq<string>, kind: string, out: seq<string>, users: seq<string>, at: seq<nat>) {
    && |out| == |users| == |at|
    && (forall j, k :: 0 <= j < k < |at| ==> at[j] < at[k])
    && (forall i :: 0 <= i < |lines| && Kind(lines[i]) == Some(kind) ==> i in at)
    && forall k :: 0 <= k < |at| ==>
         && at[k] < |lines| && out[k] == lines[at[k]] && Kind(out[k]) == Some(kind)
         && users[k] == ParsePendingMember(out[k]).requestId
  }

  lemma ChosenOneMore(lines: seq<string>, kind: string, out: seq<string>, users: seq<string>, at: seq<nat>,
                      line: string)
    returns (at': seq<nat>)
    requires Chosen(lines, kind, out, users, at)
    ensures if Kind(line) == Some(kind)
            then Chosen(lines + [line], kind, out + [line], users + [ParsePendingMember(line).requestId], at')
            else Chosen(lines + [line], kind, out, users, at')
  {
    hide ParsePendingMember;
    var n := |lines|;
    if Kind(line) == Some(kind) {
      at' := at + [n];
      assert forall i :: i in at ==> i in at';
      assert at'[|at|] == n;
    } else {
      at' := at;
    }
  }

  lemma {:induction false} SiftInOrder(lines: seq<string>) returns (admitAt: seq<nat>, revokeAt: seq<nat>)
    ensures Chosen(lines, KIND_ADMIT, Sift(lines).admitLines, Sift(lines).admits, admitAt)
    ensures Chosen(lines, KIND_REVOKE, Sift(lines).revokeLines, Sift(lines).revokes, revokeAt)
    decreases |lines|
  {
    if |lines| == 0 {
      admitAt, revokeAt := [], [];
    } else {
      var init, last := lines[..|lines| - 1], lines[|lines| - 1];
      assert lines == init + [last];
      var s := Sift(init);
      admitAt, revokeAt := SiftInOrder(init);
      hide Chosen, ParsePendingMember;
      admitAt := ChosenOneMore(init, KIND_ADMIT, s.admitLines, s.admits, admitAt, last);
      revokeAt := ChosenOneMore(init, KIND_REVOKE, s.revokeLines, s.revokes, revokeAt, last);
    }
  }

  /** The oldest `limit` lines whose time is at most cutoff. */
  function PendingBefore(z: Zset, cutoff: int, limit: nat): seq<string> {
    Names(z[..if UpTo(z, cutoff) < limit then UpTo(z, cutoff) else limit])
  }

  /** The sweep reads the oldest entries, in order: no more than the limit, none above the cutoff,
      and all of those unless the limit stops it. */
  lemma PendingBeforeOld(z: Zset, cutoff: int, limit: nat)
    ensures var lines := PendingBefore(z, cutoff, limit);
            && |lines| <= limit && |lines| <= |z|
            && (forall i :: 0 <= i < |lines| ==> lines[i] == z[i].member && z[i].score <= cutoff)
            && (|lines| < limit ==> forall i :: |lines| <= i < |z| ==> z[i].score > cutoff)
            && (forall k :: k in lines ==> k in Scores(z) && Scores(z)[k] <= cutoff)
  {
    var n := if UpTo(z, cutoff) < limit then UpTo(z, cutoff) else limit;
    NamesAt(z[..n]);
    UpToFacts(z, cutoff);
    ScoresFacts(z);
    forall k | k in PendingBefore(z, cutoff, limit) ensures k in Scores(z) && Scores(z)[k] <= cutoff {
      var i :| 0 <= i < n && Names(z[..n])[i] == k;
      assert z[i] in z;
    }
  }

  /** A line some script wrote for a real id. */
  ghost predicate RealLine(line: string) { exists n :: line == Encode(n) && n.user != "" }

  ghost predicate AllNotices(lines: seq<string>) { forall k :: k in lines ==> RealLine(k) }

  lemma LastLine(lines: seq<string>)
    requires |lines| > 0 && AllNotices(lines)
    ensures AllNotices(lines[..|lines| - 1]) && RealLine(lines[|lines| - 1])
    ensures lines == lines[..|lines| - 1] + [lines[|lines| - 1]]
  {
    hide RealLine;
    assert lines[|lines| - 1] in lines;
    assert forall k :: k in lines[..|lines| - 1] ==> k in lines;
  }

  /** Nothing is junk, each line goes to the topic of its kind, and the users published are
      exactly those of the lines. */
  ghost predicate Sorted(s: Sifted, lines: seq<string>) {
    && s.malformed == [] && s.unknown == []
    && (forall n :: Encode(n) in s.admitLines <==> n.Admit? && Encode(n) in lines)
    && (forall n :: Encode(n) in s.revokeLines <==> n.Revoke? && Encode(n) in lines)
    && (forall u :: u in s.admits <==> exists n :: Encode(n) in s.admitLines && n.user == u)
    && (forall u :: u in s.revokes <==> exists n :: Encode(n) in s.revokeLines && n.user == u)
  }

  /** So it is with every journal the scripts can write for real ids. */
  lemma {:induction false} SiftSorts(lines: seq<string>)
    requires AllNotices(lines)
    ensures Sorted(Sift(lines), lines)
    decreases |lines|
  {
    if |lines| > 0 {
      hide Sorted, SiftOne, Encode, AllNotices;
      var init, line := lines[..|lines| - 1], lines[|lines| - 1];
      LastLine(lines);
      var n :| line == Encode(n) && n.user != "";
      SiftSorts(init);
      SiftNotice(Sift(init), init, n);
    }
  }

  lemma NewLine(lines: seq<string>, n: Notice)
    ensures forall m: Notice :: Encode(m) in lines + [Encode(n)] <==> Encode(m) in lines || m == n
  {
    hide Encode, Decode;
  }

  lemma NewUser(lines: seq<string>, users: seq<string>, n: Notice)
    requires forall u :: u in users <==> exists m :: Encode(m) in lines && m.user == u
    ensures forall u :: u in users + [n.user] <==> exists m :: Encode(m) in lines + [Encode(n)] && m.user == u
  {
    NewLine(lines, n);
    hide Encode, Decode;
    forall u ensures u in users + [n.user] <==> exists m :: Encode(m) in lines + [Encode(n)] && m.user == u {
      if u == n.user { assert Encode(n) in lines + [Encode(n)]; }
    }
  }

  lemma SiftNotice(s: Sifted, init: seq<string>, n: Notice)
    requires Sorted(s, init) && n.user != ""
    ensures Sorted(SiftOne(s, Encode(n)), init + [Encode(n)])
  {
    EncodeParses(n);
    NewLine(init, n);
    hide Encode, Decode, ParsePendingMember;
    if n.Admit? {
      NewLine(s.admitLines, n);
      NewUser(s.admitLines, s.admits, n);
    } else {
      NewLine(s.revokeLines, n);
      NewUser(s.revokeLines, s.revokes, n);
    }
  }
}
