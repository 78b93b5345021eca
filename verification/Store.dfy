/** The agreement store of the server: a capacity-bounded cache with a lookup table and
    a recency list, and the store of shared secrets on top of it. */
module Store {
  import opened Base
  import opened Paths
  import Lru

  // ----- the two fields of the cache against one sequence of entries -----

  ghost predicate Covers(values: map<string, Bytes>, q: seq<string>) {
    forall i :: 0 <= i < |q| ==> q[i] in values
  }

  ghost function Pairs(values: map<string, Bytes>, q: seq<string>): (c: Lru.Cache<string, Bytes>)
    requires Covers(values, q)
    ensures |c| == |q|
    ensures forall i :: 0 <= i < |q| ==> c[i] == Lru.Entry(q[i], values[q[i]])
  {
    if q == [] then [] else [Lru.Entry(q[0], values[q[0]])] + Pairs(values, q[1..])
  }

  function Drop(q: seq<string>, k: string): (r: seq<string>)
    ensures forall x :: x in r <==> x in q && x != k
  {
    if q == [] then []
    else
      assert q == [q[0]] + q[1..];
      if q[0] == k then Drop(q[1..], k) else [q[0]] + Drop(q[1..], k)
  }

  lemma {:induction false} PairsDrop(values: map<string, Bytes>, q: seq<string>, k: string)
    requires Covers(values, q)
    ensures Covers(values - {k}, Drop(q, k))
    ensures Pairs(values - {k}, Drop(q, k)) == Lru.Without(Pairs(values, q), k)
  {
    forall i | 0 <= i < |Drop(q, k)|
      ensures Drop(q, k)[i] in values - {k}
    {
      assert Drop(q, k)[i] in q;
    }
    if q != [] {
      PairsDrop(values, q[1..], k);
      assert Pairs(values, q)[1..] == Pairs(values, q[1..]);
      if q[0] != k {
        assert Drop(q, k)[1..] == Drop(q[1..], k);
      }
    }
  }

  lemma {:induction false} PairsLookup(values: map<string, Bytes>, q: seq<string>, k: string)
    requires Covers(values, q)
    ensures Lru.Lookup(Pairs(values, q), k) == if k in q then Some(values[k]) else None
  {
    if q != [] {
      assert q == [q[0]] + q[1..];
      PairsLookup(values, q[1..], k);
    }
  }

  lemma PairsExtend(values: map<string, Bytes>, q: seq<string>, k: string, v: Bytes)
    requires Covers(values, q) && k !in q
    ensures Covers(values[k := v], q + [k])
    ensures Pairs(values[k := v], q + [k]) == Pairs(values, q) + [Lru.Entry(k, v)]
  {
  }

  /** Moving a key to the end of the recency list. */
  lemma PairsRefresh(values: map<string, Bytes>, q: seq<string>, k: string)
    requires Covers(values, q) && k in q && k in values
    requires forall i, j :: 0 <= i < j < |q| ==> q[i] != q[j]
    ensures var r := Drop(q, k) + [k];
            && Covers(values, r) && |r| <= |q|
            && (forall i, j :: 0 <= i < j < |r| ==> r[i] != r[j])
            && (forall x :: x in r <==> x in q)
            && Pairs(values, r) == Lru.Without(Pairs(values, q), k) + [Lru.Entry(k, values[k])]
  {
    hide Covers, Pairs, Drop, Lru.Without;
    RefreshKeys(q, k);
    assert (values - {k})[k := values[k]] == values;
    PairsDrop(values, q, k);
    PairsExtend(values - {k}, Drop(q, k), k, values[k]);
  }

  lemma RefreshKeys(q: seq<string>, k: string)
    requires k in q
    requires forall i, j :: 0 <= i < j < |q| ==> q[i] != q[j]
    ensures var r := Drop(q, k) + [k];
            && |r| <= |q|
            && (forall i, j :: 0 <= i < j < |r| ==> r[i] != r[j])
            && (forall x :: x in r <==> x in q)
  {
    hide Drop;
    DropDistinct(q, k);
    var d := Drop(q, k);
    forall i | 0 <= i < |d|
      ensures d[i] != k
    {
      assert d[i] in d;
    }
  }

  /** The cache of the library: `get` and `put` refresh, `contains` does not. */
  class LruCache {
    const capacity: nat
    var values: map<string, Bytes>
    var recency: seq<string>  // least recently used first

    ghost predicate Valid()
      reads this
    {
      && capacity >= 1 && |recency| <= capacity
      && (forall i, j :: 0 <= i < j < |recency| ==> recency[i] != recency[j])
      && (forall k :: k in values <==> k in recency)
    }

    ghost function Contents(): (c: Lru.Cache<string, Bytes>)
      reads this
      requires Valid()
      ensures Lru.Wf(capacity, c)
    {
      Pairs(values, recency)
    }

    constructor (capacity: nat)
      requires capacity >= 1
      ensures Valid() && this.capacity == capacity && Contents() == []
    {
      this.capacity := capacity;
      values := map[];
      recency := [];
    }

    method Contains(k: string) returns (r: bool)
      requires Valid()
      ensures r <==> Lru.Lookup(Contents(), k).Some?
    {
      PairsLookup(values, recency, k);
      r := k in values;
    }

    /** Drops the least recently used key. */
    method Evict()
      requires Valid() && Contents() != []
      modifies this
      ensures Valid() && Contents() == old(Contents())[1..]
      ensures forall x :: x in recency ==> x in old(recency)
      ensures |recency| < capacity
    {
      PairsEvict(values, recency);
      assert recency == [recency[0]] + recency[1..];
      values, recency := values - {recency[0]}, recency[1..];
    }

    /** Inserts a key that is not there, evicting the least recently used one if full. */
    method Put(k: string, v: Bytes)
      requires Valid() && Lru.Lookup(Contents(), k).None?
      modifies this
      ensures Valid() && Contents() == Lru.Push(capacity, old(Contents()), k, v)
    {
      hide Pairs, Lru.Lookup, Lru.Wf;
      PairsLookup(values, recency, k);
      if |recency| >= capacity {
        Evict();
      }
      PairsExtend(values, recency, k, v);
      values, recency := values[k := v], recency + [k];
    }

    method Get(k: string) returns (r: Option<Bytes>)
      requires Valid()
      modifies this
      ensures Valid() && r == Lru.Lookup(old(Contents()), k)
      ensures Contents() == if r.Some? then Lru.Without(old(Contents()), k) + [Lru.Entry(k, r.value)] else old(Contents())
    {
      hide Pairs, Drop, Lru.Lookup, Lru.Without, Lru.Wf;
      PairsLookup(values, recency, k);
      if k in values {
        r := Some(values[k]);
        PairsRefresh(values, recency, k);
        recency := Drop(recency, k) + [k];
      } else {
        r := None;
      }
    }

    method Pop(k: string)
      requires Valid()
      modifies this
      ensures Valid() && Contents() == Lru.Without(old(Contents()), k)
    {
      PairsDrop(values, recency, k);
      DropDistinct(recency, k);
      values, recency := values - {k}, Drop(recency, k);
    }
  }

  lemma {:induction false} DropDistinct(q: seq<string>, k: string)
    requires forall i, j :: 0 <= i < j < |q| ==> q[i] != q[j]
    ensures var r := Drop(q, k);
            && (forall i, j :: 0 <= i < j < |r| ==> r[i] != r[j])
            && |r| <= |q| && (k in q ==> |r| < |q|)
  {
    if q != [] {
      DropDistinct(q[1..], k);
      var r := Drop(q[1..], k);
      forall j | 0 <= j < |r|
        ensures r[j] != q[0]
      {
        assert r[j] in q[1..];
      }
    }
  }

  lemma PairsEvict(values: map<string, Bytes>, q: seq<string>)
    requires q != [] && Covers(values, q)
    requires forall i, j :: 0 <= i < j < |q| ==> q[i] != q[j]
    ensures q[0] !in q[1..] && Covers(values - {q[0]}, q[1..])
    ensures Pairs(values - {q[0]}, q[1..]) == Pairs(values, q)[1..]
  {
  }

  // ----- requests as keys -----

  /** The same entries under the textual form of their keys. */
  ghost function Renamed(c: Lru.Cache<Uuid, Bytes>): (d: Lru.Cache<string, Bytes>)
    ensures |d| == |c|
  {
    if c == [] then [] else [Lru.Entry(Hyphenated(c[0].key), c[0].value)] + Renamed(c[1..])
  }

  lemma {:induction false} RenamedLookup(c: Lru.Cache<Uuid, Bytes>, u: Uuid)
    ensures Lru.Lookup(Renamed(c), Hyphenated(u)) == Lru.Lookup(c, u)
  {
    hide Hyphenated;
    if c != [] {
      NamesInjective(c[0].key, u);
      RenamedLookup(c[1..], u);
    }
  }

  lemma {:induction false} RenamedWithout(c: Lru.Cache<Uuid, Bytes>, u: Uuid)
    ensures Lru.Without(Renamed(c), Hyphenated(u)) == Renamed(Lru.Without(c, u))
  {
    hide Hyphenated;
    if c != [] {
      NamesInjective(c[0].key, u);
      RenamedWithout(c[1..], u);
    }
  }

  lemma {:induction false} RenamedAppend(c: Lru.Cache<Uuid, Bytes>, u: Uuid, v: Bytes)
    ensures Renamed(c + [Lru.Entry(u, v)]) == Renamed(c) + [Lru.Entry(Hyphenated(u), v)]
  {
    hide Hyphenated;
    if c != [] {
      assert (c + [Lru.Entry(u, v)])[1..] == c[1..] + [Lru.Entry(u, v)];
      RenamedAppend(c[1..], u, v);
    } else {
      assert c + [Lru.Entry(u, v)] == [Lru.Entry(u, v)];
    }
  }

  lemma RenamedPush(cap: nat, c: Lru.Cache<Uuid, Bytes>, u: Uuid, v: Bytes)
    ensures Lru.Push(cap, Renamed(c), Hyphenated(u), v) == Renamed(Lru.Push(cap, c, u, v))
  {
    hide Hyphenated;
    var kept := if c != [] && |c| >= cap then c[1..] else c;
    RenamedAppend(kept, u, v);
  }

  /** Shared secrets by request. The ghost field is the cache by identifier; the real one
      holds the same entries under their textual keys. */
  class LruStore {
    const cache: LruCache
    ghost var contents: Lru.Cache<Uuid, Bytes>

    ghost predicate Valid()
      reads this, cache
    {
      && cache.Valid()
      && cache.Contents() == Renamed(contents)
    }

    constructor (size: nat)
      requires size >= 1
      ensures Valid() && fresh(cache) && cache.capacity == size && contents == []
    {
      cache := new LruCache(size);
      contents := [];
    }

    method InsertNewAgreement(u: Uuid, secret: Bytes) returns (ok: bool)
      requires Valid()
      modifies this, cache
      ensures Valid()
      ensures contents == Lru.Apply(cache.capacity, old(contents), Lru.Insert(u, secret))
      ensures ok <==> Lru.Respond(old(contents), Lru.Insert(u, secret)).Inserted?
    {
      hide Hyphenated;
      RenamedLookup(contents, u);
      var present := cache.Contains(Hyphenated(u));
      if present {
        return false;
      }
      RenamedPush(cache.capacity, contents, u, secret);
      cache.Put(Hyphenated(u), secret);
      contents := Lru.Push(cache.capacity, contents, u, secret);
      ok := true;
    }

    method GetSharedSecret(u: Uuid) returns (r: Option<Bytes>)
      requires Valid()
      modifies this, cache
      ensures Valid()
      ensures contents == Lru.Apply(cache.capacity, old(contents), Lru.Read(u))
      ensures r == Lru.Lookup(old(contents), u)
    {
      hide Hyphenated;
      RenamedLookup(contents, u);
      RenamedWithout(contents, u);
      r := cache.Get(Hyphenated(u));
      if r.Some? {
        RenamedAppend(Lru.Without(contents, u), u, r.value);
        contents := Lru.Without(contents, u) + [Lru.Entry(u, r.value)];
      }
    }

    method RemoveAgreement(u: Uuid)
      requires Valid()
      modifies this, cache
      ensures Valid()
      ensures contents == Lru.Apply(cache.capacity, old(contents), Lru.Remove(u))
    {
      hide Hyphenated;
      RenamedWithout(contents, u);
      cache.Pop(Hyphenated(u));
      contents := Lru.Without(contents, u);
    }
  }
}
