/** Booking's admission keys and the two consumers that keep them. */
module Admissions {
  import opened SeatLocks
  import opened Sweeps
  import opened Outbox

  datatype Admission = Admission(movie: string, user: string)

  /** A consumed record: unreadable, missing a field, or a whole event. */
  datatype Record = Garbled | Incomplete | Whole(event: Admission)

  function AdmissionKey(movie: string, user: string): string { "admitted:" + movie + ":" + user }

  lemma AdmissionKeysDiffer(a: Admission, b: Admission)
    requires NoColon(a.movie) && NoColon(b.movie)
    ensures AdmissionKey(a.movie, a.user) == AdmissionKey(b.movie, b.user) ==> a == b
  {
    var x, y := a.movie + ":" + a.user, b.movie + ":" + b.user;
    assert AdmissionKey(a.movie, a.user)[9..] == x && AdmissionKey(b.movie, b.user)[9..] == y;
    assert SeatKey(a.movie, a.user) == "seat:" + x && SeatKey(b.movie, b.user) == "seat:" + y;
    if AdmissionKey(a.movie, a.user) == AdmissionKey(b.movie, b.user) {
      ScreeningKeysDiffer(a.movie, b.movie, a.user, b.user);
    }
  }

  /** Expiry by key; a key past its time reads as absent. */
  predicate IsAdmitted(keys: map<string, int>, now: int, movie: string, user: string) {
    AdmissionKey(movie, user) in keys && now < keys[AdmissionKey(movie, user)]
  }

  function AddAll(keys: map<string, int>, expiry: int, batch: seq<Admission>): map<string, int> {
    if |batch| == 0 then keys
    else
      var a := batch[|batch| - 1];
      AddAll(keys, expiry, batch[..|batch| - 1])[AdmissionKey(a.movie, a.user) := expiry]
  }

  /** The events of a batch that can be used; poison records are skipped. */
  function Usable(records: seq<Record>): seq<Admission> {
    if |records| == 0 then []
    else
      var r := records[|records| - 1];
      Usable(records[..|records| - 1]) + if r.Whole? then [r.event] else []
  }

  /** The places of the whole records among the first n. */
  function Wholes(records: seq<Record>, n: nat): set<nat>
    requires n <= |records|
  {
    set i | 0 <= i < n && records[i].Whole?
  }

  /** The key of every whole record expires at `expiry`, and every other key is as it was. */
  ghost predicate Admits(keys: map<string, int>, keys': map<string, int>, records: seq<Record>, expiry: int) {
    && (forall e :: Whole(e) in records ==>
          AdmissionKey(e.movie, e.user) in keys' && keys'[AdmissionKey(e.movie, e.user)] == expiry)
    && (forall key :: (forall e :: Whole(e) in records ==> AdmissionKey(e.movie, e.user) != key) ==>
          (key in keys' <==> key in keys) && (key in keys ==> keys'[key] == keys[key]))
  }

  lemma AddNone(keys: map<string, int>, expiry: int, batch: seq<Admission>)
    requires batch == []
    ensures AddAll(keys, expiry, batch) == keys
  {}

  lemma AddOneMore(keys: map<string, int>, expiry: int, batch: seq<Admission>, i: nat)
    requires i < |batch|
    ensures AddAll(keys, expiry, batch[..i + 1])
         == AddAll(keys, expiry, batch[..i])[AdmissionKey(batch[i].movie, batch[i].user) := expiry]
  {
    assert batch[..i + 1][..i] == batch[..i];
  }

  lemma {:induction false} UsableMembers(records: seq<Record>)
    ensures forall e :: e in Usable(records) <==> Whole(e) in records
    decreases |records|
  {
    if |records| > 0 {
      var init, last := records[..|records| - 1], records[|records| - 1];
      assert records == init + [last];
      UsableMembers(init);
    }
  }

  lemma UsableMeans(keys: map<string, int>, records: seq<Record>, expiry: int)
    ensures Admits(keys, AddAll(keys, expiry, Usable(records)), records, expiry)
    ensures |Usable(records)| == 0 <==> forall r :: r in records ==> !r.Whole?
  {
    UsableMembers(records);
    hide Usable, AddAll, AdmissionKey;
    var batch := Usable(records);
    forall key ensures var k := AddAll(keys, expiry, batch);
        if exists a :: a in batch && AdmissionKey(a.movie, a.user) == key then key in k && k[key] == expiry
        else (key in k <==> key in keys) && (key in keys ==> k[key] == keys[key])
    {
      AddAllFacts(keys, expiry, batch, key);
    }
    if |batch| > 0 {
      assert batch[0] in batch;
      assert Whole(batch[0]) in records;
    }
  }

  /** What the consumer leaves, whole or cut short. */
  lemma ConsumerMeans(keys: map<string, int>, records: seq<Record>, expiry: int, reached: nat)
    ensures Admits(keys, AddAll(keys, expiry, Usable(records)), records, expiry)
    ensures |Usable(records)| == 0 <==> forall r :: r in records ==> !r.Whole?
    ensures var k := if reached > |Usable(records)| then |Usable(records)| else reached;
            exists n :: 0 <= n <= |records|
              && Admits(keys, AddAll(keys, expiry, Usable(records)[..k]), records[..n], expiry)
              && (|Wholes(records, n)| == reached || n == |records|)
  {
    UsableMeans(keys, records, expiry);
    var k := if reached > |Usable(records)| then |Usable(records)| else reached;
    var n := UsableUpTo(records, k);
    UsableMeans(keys, records[..n], expiry);
    hide Admits, Wholes, AddAll;
  }

  /** Any beginning of what can be used is what can be used of a beginning, of as many whole records. */
  lemma {:induction false} UsableUpTo(records: seq<Record>, k: nat) returns (n: nat)
    requires k <= |Usable(records)|
    ensures n <= |records| && Usable(records[..n]) == Usable(records)[..k] && |Wholes(records, n)| == k
    ensures k == |Usable(records)| ==> n == |records|
    decreases |records|
  {
    UsableCounts(records);
    if k == |Usable(records)| {
      n := |records|;
      assert records[..n] == records;
    } else {
      var init := records[..|records| - 1];
      n := UsableUpTo(init, k);
      UsableCounts(records[..n]);
      assert init[..n] == records[..n];
      assert Wholes(init, n) == Wholes(records, n);
    }
  }

  lemma {:induction false} UsableCounts(records: seq<Record>)
    ensures |Wholes(records, |records|)| == |Usable(records)|
    decreases |records|
  {
    if |records| > 0 {
      var n := |records| - 1;
      UsableCounts(records[..n]);
      assert Wholes(records, n + 1) == Wholes(records[..n], n) + if records[n].Whole? then {n} else {};
    }
  }

  lemma {:induction false} AddAllFacts(keys: map<string, int>, expiry: int, batch: seq<Admission>, key: string)
    ensures var k := AddAll(keys, expiry, batch);
            if exists a :: a in batch && AdmissionKey(a.movie, a.user) == key then key in k && k[key] == expiry
            else (key in k <==> key in keys) && (key in keys ==> k[key] == keys[key])
    decreases |batch|
  {
    if |batch| > 0 {
      var init, last := batch[..|batch| - 1], batch[|batch| - 1];
      assert batch == init + [last];
      AddAllFacts(keys, expiry, init, key);
    }
  }

  /** A batch that failed part of the way and is delivered again leaves what one delivery would
      have left: the retry wipes out every trace of the attempt. */
  lemma RedeliveryIsHarmless(keys: map<string, int>, first: int, second: int, batch: seq<Admission>, reached: nat)
    requires reached <= |batch|
    ensures AddAll(AddAll(keys, first, batch[..reached]), second, batch) == AddAll(keys, second, batch)
  {
    var x := AddAll(AddAll(keys, first, batch[..reached]), second, batch);
    var y := AddAll(keys, second, batch);
    forall key ensures (key in x <==> key in y) && (key in x ==> x[key] == y[key]) {
      AddAllFacts(keys, first, batch[..reached], key);
      AddAllFacts(AddAll(keys, first, batch[..reached]), second, batch, key);
      AddAllFacts(keys, second, batch, key);
    }
  }

  /** The keys follow the messages as the outbox has it: an admission adds its user, a revoke
      removes them, and nobody else's gate changes. */
  lemma KeysFollowMessages(keys: map<string, int>, now: int, expiry: int, movie: string, m: Message,
                           admitted: set<string>, u: string)
    requires NoColon(movie) && now < expiry
    requires u in admitted <==> IsAdmitted(keys, now, movie, u)
    ensures var keys' := if m.topic.Admissions? then AddAll(keys, expiry, [Admission(movie, m.user)])
                         else keys - {AdmissionKey(movie, m.user)};
            IsAdmitted(keys', now, movie, u) <==> u in Applied(admitted, m)
  {
    AdmissionKeysDiffer(Admission(movie, u), Admission(movie, m.user));
    AddAllFacts(keys, expiry, [Admission(movie, m.user)], AdmissionKey(movie, u));
    assert Admission(movie, m.user) in [Admission(movie, m.user)];
  }

  class AdmittedService {
    var keys: map<string, int>
    const ttl: int

    constructor (ttl: int)
      ensures keys == map[] && this.ttl == ttl
    {
      keys := map[];
      this.ttl := ttl;
    }

    predicate HasKey(now: int, movie: string, user: string)
      reads this
    {
      IsAdmitted(keys, now, movie, user)
    }

    method Remove(movie: string, user: string)
      modifies this
      ensures keys == old(keys) - {AdmissionKey(movie, user)}
    {
      keys := keys - {AdmissionKey(movie, user)};
    }

    /** The admissions consumer: collects what it can use, then writes it in one pipeline, of which
        only the first `reached` commands take effect when the connection fails. Acknowledged, the key
        of every whole record lives as long as one written now, and every other key is as it was;
        otherwise so it is with the records up to some place. */
    method OnAdmissions(records: seq<Record>, now: int, connected: bool, reached: nat) returns (acked: bool)
      modifies this
      ensures acked == (connected || |Usable(records)| == 0)
      ensures acked <==> connected || forall r :: r in records ==> !r.Whole?
      ensures acked ==> Admits(old(keys), keys, records, now + ttl)
      ensures !acked ==> exists n :: 0 <= n <= |records| && Admits(old(keys), keys, records[..n], now + ttl)
                                     && (|Wholes(records, n)| == reached || n == |records|)
      ensures keys == AddAll(old(keys), now + ttl,
                             if acked || reached > |Usable(records)| then Usable(records)
                             else Usable(records)[..reached])
    {
      ConsumerMeans(keys, records, now + ttl, reached);
      hide Admits, Wholes, AddAll;
      var valid: seq<Admission> := [];
      for i := 0 to |records|
        invariant valid == Usable(records[..i])
      {
        assert records[..i + 1][..i] == records[..i];
        match records[i]
        case Garbled =>
        case Incomplete =>
        case Whole(e) => valid := valid + [e];
      }
      assert records[..|records|] == records;
      acked := connected || |valid| == 0;
      var n := if acked || reached > |valid| then |valid| else reached;
      assert valid[..|valid|] == valid;
      AddNone(keys, now + ttl, valid[..0]);
      for i := 0 to n
        invariant keys == AddAll(old(keys), now + ttl, valid[..i])
      {
        AddOneMore(old(keys), now + ttl, valid, i);
        keys := keys[AdmissionKey(valid[i].movie, valid[i].user) := now + ttl];
      }
    }

    /** The revoke consumer. */
    method OnExpiry(r: Record)
      modifies this
      ensures keys == if r.Whole? then old(keys) - {AdmissionKey(r.event.movie, r.event.user)} else old(keys)
    {
      if r.Whole? { Remove(r.event.movie, r.event.user); }
    }
  }
}
