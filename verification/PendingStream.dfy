/** Facts about the pending Stream: what deleting the decodable or the undecodable
    records of a batch leaves behind, and what that leaves to replay. */
module PendingStream {
  import opened Blacklist
  import opened BlacklistSystem
  import R = RedisMachine

  predicate Ordered(stream: seq<R.Entry>) {
    forall i, j :: 0 <= i < j < |stream| ==> stream[i].id < stream[j].id
  }

  lemma {:induction false} PayloadsAppend(a: seq<R.Entry>, b: seq<R.Entry>)
    ensures Payloads(a + b) == Payloads(a) + Payloads(b)
    decreases |a|
  {
    if a == [] {
      assert a + b == b;
    } else {
      assert (a + b)[0] == a[0] && (a + b)[1..] == a[1..] + b;
      PayloadsAppend(a[1..], b);
      var first := if a[0].payload.Some? then [a[0].payload.value] else [];
      assert Payloads(a + b) == first + Payloads(a[1..] + b);
      assert first + (Payloads(a[1..]) + Payloads(b)) == (first + Payloads(a[1..])) + Payloads(b);
    }
  }

  lemma {:induction false} PayloadsRecords(first: nat, batch: seq<Mutation>)
    ensures Payloads(R.Records(first, batch)) == batch
    decreases |batch|
  {
    if batch != [] {
      assert R.Records(first, batch)[1..] == R.Records(first + 1, batch[1..]);
      PayloadsRecords(first + 1, batch[1..]);
    }
  }

  lemma {:induction false} GoodPayloads(b: seq<R.Entry>)
    ensures Payloads(Good(b)) == Payloads(b)
    decreases |b|
  {
    if b != [] {
      GoodPayloads(b[1..]);
      if b[0].payload.Some? {
        assert Good(b) == [b[0]] + Good(b[1..]) && Good(b)[1..] == Good(b[1..]);
      } else {
        assert Good(b) == Good(b[1..]) && Payloads(b) == Payloads(b[1..]);
      }
    }
  }

  lemma {:induction false} GoodMembers(b: seq<R.Entry>, e: R.Entry)
    ensures e in Good(b) <==> e in b && e.payload.Some?
    decreases |b|
  {
    if b != [] {
      GoodMembers(b[1..], e);
      assert e in b <==> e == b[0] || e in b[1..];
    }
  }

  lemma {:induction false} RemainingAppend(a: seq<R.Entry>, b: seq<R.Entry>, ids: set<nat>)
    ensures R.Remaining(a + b, ids) == R.Remaining(a, ids) + R.Remaining(b, ids)
    decreases |a|
  {
    if a == [] {
      assert a + b == b;
    } else {
      assert (a + b)[0] == a[0] && (a + b)[1..] == a[1..] + b;
      RemainingAppend(a[1..], b, ids);
    }
  }

  lemma {:induction false} RemainingUntouched(b: seq<R.Entry>, ids: set<nat>)
    requires forall e :: e in b ==> e.id !in ids
    ensures R.Remaining(b, ids) == b
    decreases |b|
  {
    if b != [] { RemainingUntouched(b[1..], ids); }
  }

  lemma {:induction false} RemainingDecodable(b: seq<R.Entry>, ids: set<nat>)
    requires forall e :: e in b ==> (e.id in ids <==> e.payload.None?)
    ensures R.Remaining(b, ids) == Good(b)
    decreases |b|
  {
    if b != [] {
      assert b[0] in b;
      RemainingDecodable(b[1..], ids);
    }
  }

  lemma {:induction false} RemainingGone(b: seq<R.Entry>, ids: set<nat>)
    requires forall e :: e in b ==> e.id in ids
    ensures R.Remaining(b, ids) == []
    decreases |b|
  {
    if b != [] {
      assert b[0] in b;
      RemainingGone(b[1..], ids);
    }
  }

  // Deleting the undecodable records of the batch at the front.
  lemma DeleteBadLeaves(stream: seq<R.Entry>, b: seq<R.Entry>)
    requires Ordered(stream) && b <= stream
    ensures R.Remaining(stream, BadIds(b)) == Good(b) + stream[|b|..]
  {
    var rest := stream[|b|..];
    assert stream == b + rest;
    forall e | e in b ensures e.id in BadIds(b) <==> e.payload.None? {
      if e.id in BadIds(b) {
        var x :| x in b && x.payload.None? && x.id == e.id;
        SameIdSameRecord(stream, x, e);
      }
    }
    forall e | e in rest ensures e.id !in BadIds(b) { LaterRecord(stream, b, e); }
    RemainingDecodable(b, BadIds(b));
    RemainingUntouched(rest, BadIds(b));
    RemainingAppend(b, rest, BadIds(b));
  }

  // Deleting the committed records once they are the ones at the front.
  lemma DeleteGoodLeaves(stream: seq<R.Entry>, b: seq<R.Entry>)
    requires Ordered(stream) && Good(b) <= stream
    ensures R.Remaining(stream, GoodIds(b)) == stream[|Good(b)|..]
  {
    var rest := stream[|Good(b)|..];
    assert stream == Good(b) + rest;
    forall e ensures e in Good(b) <==> e in b && e.payload.Some? { GoodMembers(b, e); }
    forall e | e in rest ensures e.id !in GoodIds(b) {
      if e.id in GoodIds(b) {
        var x :| x in b && x.payload.Some? && x.id == e.id;
        assert x in Good(b);
        LaterRecord(stream, Good(b), e);
      }
    }
    RemainingGone(Good(b), GoodIds(b));
    RemainingUntouched(rest, GoodIds(b));
    RemainingAppend(Good(b), rest, GoodIds(b));
  }

  lemma SameIdSameRecord(stream: seq<R.Entry>, x: R.Entry, y: R.Entry)
    requires Ordered(stream) && x in stream && y in stream && x.id == y.id
    ensures x == y
  {
    var i :| 0 <= i < |stream| && stream[i] == x;
    var j :| 0 <= j < |stream| && stream[j] == y;
    assert !(i < j) && !(j < i);
  }

  lemma LaterRecord(stream: seq<R.Entry>, b: seq<R.Entry>, e: R.Entry)
    requires Ordered(stream) && b <= stream && e in stream[|b|..]
    ensures forall x :: x in b ==> x.id < e.id
  {
    var j :| |b| <= j < |stream| && stream[j] == e;
    forall x | x in b ensures x.id < e.id {
      var i :| 0 <= i < |b| && b[i] == x;
      assert stream[i] == x;
    }
  }
}
