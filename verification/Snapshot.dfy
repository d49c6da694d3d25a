/** From HSCAN pages to the immutable in-memory snapshot: folding repeated fields,
    splitting off what has expired, and building the maps that requests look up. */
module Snapshot {
  import opened Wrappers
  import opened Blacklist

  type Field = (Key, nat)

  predicate Listed(fields: seq<Field>, k: Key) {
    exists i :: 0 <= i < |fields| && fields[i].0 == k
  }

  // t holds exactly the listed fields, and no field is listed with two values.
  ghost predicate Lists(fields: seq<Field>, t: Table) {
    (forall i :: 0 <= i < |fields| ==> fields[i].0 in t && t[fields[i].0] == fields[i].1) &&
    (forall k :: k in t ==> Listed(fields, k))
  }

  // The lookup a request makes.
  predicate Contains(t: Table, k: Key, now: nat) {
    k.id != "" && k in t && (t[k] == 0 || t[k] > now)
  }

  lemma ListsUnique(fields: seq<Field>, a: Table, b: Table)
    requires Lists(fields, a) && Lists(fields, b)
    ensures a == b
  {
    assert forall k :: k in a || k in b ==> Listed(fields, k);
  }

  lemma ListsGrows(fields: seq<Field>, t: Table, k: Key, e: nat)
    requires Lists(fields, t) && (k in t ==> t[k] == e)
    ensures Lists(fields + [(k, e)], t[k := e])
  {
    var more := fields + [(k, e)];
    forall x | x in t[k := e] ensures Listed(more, x) {
      if x == k {
        assert more[|fields|].0 == k;
      } else {
        assert Listed(fields, x);
        var i :| 0 <= i < |fields| && fields[i].0 == x;
        assert more[i].0 == x;
      }
    }
  }

  ghost predicate Clash(fields: seq<Field>) {
    exists i, j :: 0 <= i < j < |fields| && fields[i].0 == fields[j].0 && fields[i].1 != fields[j].1
  }

  /** HSCAN may return a field more than once: equal repeats fold into one entry, and
      unequal ones (never a single snapshot) give the round up. */
  method FoldScan(fields: seq<Field>) returns (unique: Option<Table>)
    ensures unique.None? <==> Clash(fields)
    ensures unique.Some? ==> Lists(fields, unique.value)
  {
    var t: Table := map[];
    for n := 0 to |fields|
      invariant Lists(fields[..n], t)
      invariant !Clash(fields[..n])
    {
      var (k, e) := fields[n];
      assert fields[..n + 1] == fields[..n] + [fields[n]];
      if k in t && t[k] != e {
        assert Listed(fields[..n], k);
        ghost var i :| 0 <= i < |fields[..n]| && fields[..n][i].0 == k;
        assert fields[i].0 == fields[n].0 && fields[i].1 != fields[n].1;
        return None;
      }
      ListsGrows(fields[..n], t, k, e);
      t := t[k := e];
    }
    assert fields[..|fields|] == fields;
    return Some(t);
  }

  /** The entries still in force and the entries to clean up, each exactly once. */
  method Split(unique: Table, now: nat) returns (active: seq<Field>, expired: seq<Field>)
    ensures Lists(active, LiveAt(unique, now)) && |active| == |LiveAt(unique, now)|
    ensures Lists(expired, ExpiredAt(unique, now)) && |expired| == |ExpiredAt(unique, now)|
  {
    active, expired := [], [];
    var todo := unique.Keys;
    while todo != {}
      invariant todo <= unique.Keys
      invariant Lists(active, LiveAt(unique - todo, now)) && |active| == |LiveAt(unique - todo, now)|
      invariant Lists(expired, ExpiredAt(unique - todo, now)) && |expired| == |ExpiredAt(unique - todo, now)|
      decreases |todo|
    {
      var k :| k in todo;
      assert unique - (todo - {k}) == (unique - todo)[k := unique[k]];
      LiveAtGrows(unique - todo, k, unique[k], now);
      ExpiredAtGrows(unique - todo, k, unique[k], now);
      if Expired(unique[k], now) {
        SizeGrows(ExpiredAt(unique - todo, now), k, unique[k]);
        ListsGrows(expired, ExpiredAt(unique - todo, now), k, unique[k]);
        expired := expired + [(k, unique[k])];
      } else {
        SizeGrows(LiveAt(unique - todo, now), k, unique[k]);
        ListsGrows(active, LiveAt(unique - todo, now), k, unique[k]);
        active := active + [(k, unique[k])];
      }
      todo := todo - {k};
    }
    assert unique - {} == unique;
  }

  lemma LiveAtGrows(t: Table, k: Key, e: nat, now: nat)
    requires k !in t
    ensures LiveAt(t[k := e], now) == if Expired(e, now) then LiveAt(t, now) else LiveAt(t, now)[k := e]
  {}

  lemma ExpiredAtGrows(t: Table, k: Key, e: nat, now: nat)
    requires k !in t
    ensures ExpiredAt(t[k := e], now) == if Expired(e, now) then ExpiredAt(t, now)[k := e] else ExpiredAt(t, now)
  {}

  lemma SizeGrows(t: Table, k: Key, e: nat)
    requires k !in t
    ensures |t[k := e]| == |t| + 1
  {
    assert t[k := e].Keys == t.Keys + {k};
  }

  function LaterExpiry(a: nat, b: nat): nat {
    if a == 0 || b == 0 then 0 else Max(a, b)
  }

  predicate ListedAs(entries: seq<Field>, k: Key, e: nat) {
    exists i :: 0 <= i < |entries| && entries[i] == (k, e)
  }

  // The longest-lived unexpired entry of each entity, 0 outliving all.
  ghost predicate BuiltFrom(t: Table, entries: seq<Field>, now: nat) {
    (forall k :: k in t ==> ListedAs(entries, k, t[k]) && !Expired(t[k], now)) &&
    (forall i :: 0 <= i < |entries| && !Expired(entries[i].1, now) ==>
      entries[i].0 in t && LaterExpiry(t[entries[i].0], entries[i].1) == t[entries[i].0])
  }

  method PrepareCandidate(entries: seq<Field>, now: nat) returns (candidate: Option<Table>)
    ensures candidate.None? <==> exists i :: 0 <= i < |entries| && entries[i].0.id == ""
    ensures candidate.Some? ==> BuiltFrom(candidate.value, entries, now)
  {
    for i := 0 to |entries|
      invariant forall j :: 0 <= j < i ==> entries[j].0.id != ""
    {
      if entries[i].0.id == "" {
        return None;
      }
    }
    var t: Table := map[];
    for n := 0 to |entries|
      invariant BuiltFrom(t, entries[..n], now)
    {
      var (k, e) := entries[n];
      ghost var before := t;
      assert entries[..n + 1] == entries[..n] + [entries[n]];
      if !Expired(e, now) {
        t := t[k := if k in t then LaterExpiry(t[k], e) else e];
      }
      forall x | x in t ensures ListedAs(entries[..n + 1], x, t[x]) && !Expired(t[x], now) {
        if x in before && t[x] == before[x] {
          assert ListedAs(entries[..n], x, before[x]);
          var i :| 0 <= i < |entries[..n]| && entries[..n][i] == (x, before[x]);
          assert entries[..n + 1][i] == (x, t[x]);
        } else {
          assert entries[..n + 1][n] == (x, t[x]);
        }
      }
    }
    assert entries[..|entries|] == entries;
    return Some(t);
  }

  lemma BuiltIsLive(t: Table, entries: seq<Field>, now: nat, published: Table)
    requires Lists(entries, LiveAt(t, now)) && BuiltFrom(published, entries, now)
    ensures published == LiveAt(t, now)
  {
    forall k | k in LiveAt(t, now) ensures k in published && published[k] == t[k] {
      assert Listed(entries, k);
      var i :| 0 <= i < |entries| && entries[i].0 == k;
      assert ListedAs(entries, k, published[k]);
    }
    forall k | k in published ensures k in LiveAt(t, now) {
      assert ListedAs(entries, k, published[k]);
    }
  }

  // A field without an id that has not expired: nothing is published then.
  predicate NamelessLive(fields: seq<Field>, now: nat) {
    exists i :: 0 <= i < |fields| && fields[i].0.id == "" && !Expired(fields[i].1, now)
  }

  lemma LivesOn(fields: seq<Field>, t: Table, active: seq<Field>, now: nat)
    requires Lists(fields, t) && Lists(active, LiveAt(t, now))
    ensures NamelessLive(fields, now) <==> exists i :: 0 <= i < |active| && active[i].0.id == ""
  {
    if NamelessLive(fields, now) {
      var i :| 0 <= i < |fields| && fields[i].0.id == "" && !Expired(fields[i].1, now);
      assert Listed(active, fields[i].0);
    }
    if j :| 0 <= j < |active| && active[j].0.id == "" {
      assert Listed(fields, active[j].0);
    }
  }

  /** From HSCAN pages to the snapshot to publish and the fields to clean up: exactly the
      live and the expired part of whatever table the pages list. */
  method Refresh(fields: seq<Field>, now: nat) returns (published: Option<Table>, expired: seq<Field>)
    ensures published.None? <==> Clash(fields) || NamelessLive(fields, now)
    ensures published.Some? ==> exists t :: Lists(fields, t)
    ensures published.Some? ==>
      forall t :: Lists(fields, t) ==> published.value == LiveAt(t, now) && Lists(expired, ExpiredAt(t, now))
  {
    expired := [];
    var unique := FoldScan(fields);
    if unique.None? {
      return None, [];
    }
    var active;
    active, expired := Split(unique.value, now);
    published := PrepareCandidate(active, now);
    LivesOn(fields, unique.value, active, now);
    if published.Some? {
      BuiltIsLive(unique.value, active, now, published.value);
      forall t | Lists(fields, t) ensures t == unique.value { ListsUnique(fields, t, unique.value); }
    }
  }

  /** A published snapshot answers, from now on, exactly as the scanned table would. */
  lemma PublishedAnswersLikeTable(t: Table, now: nat)
    requires forall k :: k in t ==> k.id != ""
    ensures forall k, at :: at >= now ==> Contains(LiveAt(t, now), k, at) == Live(t, k, at)
    ensures forall k, at :: Contains(LiveAt(t, now), k, at) == Live(LiveAt(t, now), k, at)
  {}
}
