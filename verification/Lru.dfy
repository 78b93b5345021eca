/** The agreement cache as a value: a sequence of entries, least recently used first.
    Duplicate inserts are rejected, a read refreshes, `contains` does not, and an
    insert into a full cache evicts the first entry. */
module Lru {
  import opened Base

  datatype Entry<K, V> = Entry(key: K, value: V)

  type Cache<K, V> = seq<Entry<K, V>>

  ghost function KeysOf<K, V>(c: Cache<K, V>): set<K> {
    set x | x in c :: x.key
  }

  ghost predicate Distinct<K, V>(c: Cache<K, V>) {
    forall i, j :: 0 <= i < j < |c| ==> c[i].key != c[j].key
  }

  ghost predicate Wf<K, V>(cap: nat, c: Cache<K, V>) {
    Distinct(c) && |c| <= cap
  }

  function Lookup<K(==), V>(c: Cache<K, V>, k: K): (r: Option<V>)
    ensures r.Some? <==> k in KeysOf(c)
  {
    if c == [] then None
    else if c[0].key == k then
      assert c[0] in c;
      Some(c[0].value)
    else
      assert c == [c[0]] + c[1..];
      Lookup(c[1..], k)
  }

  function Without<K(==), V>(c: Cache<K, V>, k: K): Cache<K, V> {
    if c == [] then []
    else if c[0].key == k then Without(c[1..], k)
    else [c[0]] + Without(c[1..], k)
  }

  function Push<K, V>(cap: nat, c: Cache<K, V>, k: K, v: V): Cache<K, V> {
    (if c != [] && |c| >= cap then c[1..] else c) + [Entry(k, v)]
  }

  // ----- the three operations of the store -----

  datatype Op<K, V> = Insert(key: K, value: V) | Read(key: K) | Remove(key: K)

  datatype Answer<V> = Inserted | Duplicate | Secret(found: Option<V>) | Removed

  function Apply<K(==), V>(cap: nat, c: Cache<K, V>, op: Op<K, V>): Cache<K, V> {
    match op
    case Insert(k, v) => if Lookup(c, k).Some? then c else Push(cap, c, k, v)
    case Read(k) =>
      var r := Lookup(c, k);
      if r.Some? then Without(c, k) + [Entry(k, r.value)] else c
    case Remove(k) => Without(c, k)
  }

  function Respond<K(==), V>(c: Cache<K, V>, op: Op<K, V>): Answer<V> {
    match op
    case Insert(k, v) => if Lookup(c, k).Some? then Duplicate else Inserted
    case Read(k) => Secret(Lookup(c, k))
    case Remove(k) => Removed
  }

  function Run<K(==), V>(cap: nat, c: Cache<K, V>, ops: seq<Op<K, V>>): Cache<K, V>
    decreases |ops|
  {
    if ops == [] then c else Run(cap, Apply(cap, c, ops[0]), ops[1..])
  }

  // ----- algebra of filtering and lookup -----

  lemma KeysConcat<K, V>(a: Cache<K, V>, b: Cache<K, V>)
    ensures KeysOf(a + b) == KeysOf(a) + KeysOf(b)
  {
    forall k | k in KeysOf(a) + KeysOf(b)
      ensures k in KeysOf(a + b)
    {
      var x :| x in a + b && x.key == k;
    }
  }

  lemma {:induction false} WithoutConcat<K, V>(a: Cache<K, V>, b: Cache<K, V>, k: K)
    ensures Without(a + b, k) == Without(a, k) + Without(b, k)
  {
    if a == [] {
      assert a + b == b;
    } else {
      assert (a + b)[1..] == a[1..] + b;
      WithoutConcat(a[1..], b, k);
    }
  }

  /** Filtering keeps the order, the distinctness and every other entry. */
  lemma {:induction false} WithoutFacts<K, V>(c: Cache<K, V>, k: K)
    ensures KeysOf(Without(c, k)) == KeysOf(c) - {k}
    ensures Distinct(c) ==> Distinct(Without(c, k))
    ensures |Without(c, k)| <= |c|
    ensures k in KeysOf(c) ==> |Without(c, k)| < |c|
    ensures forall x :: x in Without(c, k) ==> x in c
  {
    if c != [] {
      assert c == [c[0]] + c[1..];
      KeysConcat([c[0]], c[1..]);
      WithoutFacts(c[1..], k);
      if c[0].key != k {
        KeysConcat([c[0]], Without(c[1..], k));
        if Distinct(c) {
          var w := Without(c[1..], k);
          forall j | 0 <= j < |w|
            ensures w[j].key != c[0].key
          {
            assert w[j] in c[1..];
          }
        }
      }
    }
  }

  lemma {:induction false} LookupConcat<K, V>(a: Cache<K, V>, b: Cache<K, V>, k: K)
    ensures Lookup(a + b, k) == if k in KeysOf(a) then Lookup(a, k) else Lookup(b, k)
  {
    if a == [] {
      assert a + b == b;
    } else {
      assert (a + b)[1..] == a[1..] + b && a == [a[0]] + a[1..];
      KeysConcat([a[0]], a[1..]);
      LookupConcat(a[1..], b, k);
    }
  }

  lemma {:induction false} LookupWithout<K, V>(c: Cache<K, V>, k: K, x: K)
    ensures Lookup(Without(c, k), x) == if x == k then None else Lookup(c, x)
  {
    if c != [] {
      LookupWithout(c[1..], k, x);
      if c[0].key != k {
        assert Without(c, k)[1..] == Without(c[1..], k);
      }
    }
  }

  /** Each operation keeps the keys distinct and the capacity respected. */
  lemma ApplyWf<K, V>(cap: nat, c: Cache<K, V>, op: Op<K, V>)
    requires cap >= 1 && Wf(cap, c)
    ensures Wf(cap, Apply(cap, c, op))
  {
    WithoutFacts(c, op.key);
    var w := Without(c, op.key);
    forall j | 0 <= j < |w|
      ensures w[j].key != op.key
    {
      assert w[j] in w;
    }
    if op.Insert? && Lookup(c, op.key).None? {
      forall j | 0 <= j < |c|
        ensures c[j].key != op.key
      {
        assert c[j] in c;
      }
    }
  }

  /** An agreement is never overwritten while present: whatever one operation does,
      a key looked up afterwards has the value it had before, unless the operation
      inserted that key when it was absent. */
  lemma NeverOverwritten<K, V>(cap: nat, c: Cache<K, V>, op: Op<K, V>, x: K)
    requires Wf(cap, c)
    requires Lookup(Apply(cap, c, op), x).Some?
    ensures Lookup(c, x).Some? ==> Lookup(Apply(cap, c, op), x) == Lookup(c, x)
    ensures Lookup(c, x).None? ==> op.Insert? && op.key == x && Lookup(Apply(cap, c, op), x) == Some(op.value)
  {
    match op
    case Insert(k, v) =>
      if Lookup(c, k).None? {
        LookupPush(cap, c, k, v, x);
      }
    case Read(k) =>
      var r := Lookup(c, k);
      if r.Some? {
        LookupConcat(Without(c, k), [Entry(k, r.value)], x);
        WithoutFacts(c, k);
        LookupWithout(c, k, x);
      }
    case Remove(k) =>
      LookupWithout(c, k, x);
  }

  /** After a new key has come in, a lookup finds that key, what was there before, or
      nothing because it was evicted. */
  lemma LookupPush<K, V>(cap: nat, c: Cache<K, V>, k: K, v: V, x: K)
    requires Distinct(c) && Lookup(c, k).None?
    ensures Lookup(Push(cap, c, k, v), k) == Some(v)
    ensures x != k && Lookup(Push(cap, c, k, v), x).Some? ==> Lookup(Push(cap, c, k, v), x) == Lookup(c, x)
  {
    var kept := if c != [] && |c| >= cap then c[1..] else c;
    LookupConcat(kept, [Entry(k, v)], x);
    LookupConcat(kept, [Entry(k, v)], k);
    if kept != c {
      LookupTail(c, x);
      LookupTail(c, k);
    }
  }

  lemma LookupTail<K, V>(c: Cache<K, V>, x: K)
    requires c != [] && Distinct(c)
    ensures Lookup(c[1..], x) == if x == c[0].key then None else Lookup(c, x)
  {
    if Lookup(c[1..], x).Some? {
      var e :| e in c[1..] && e.key == x;
    }
  }

  // ----- survival under eviction -----

  /** The key an operation refreshes, if any: a successful insert or a successful read. */
  function Touches<K(==), V>(c: Cache<K, V>, op: Op<K, V>): set<K> {
    match op
    case Insert(k, _) => if Lookup(c, k).Some? then {} else {k}
    case Read(k) => if Lookup(c, k).Some? then {k} else {}
    case Remove(_) => {}
  }

  function Touched<K(==), V>(cap: nat, c: Cache<K, V>, ops: seq<Op<K, V>>): set<K>
    decreases |ops|
  {
    if ops == [] then {}
    else Touches(c, ops[0]) + Touched(cap, Apply(cap, c, ops[0]), ops[1..])
  }

  /** No operation of the window touches or removes `k`. */
  ghost predicate LeftAlone<K, V>(cap: nat, c: Cache<K, V>, ops: seq<Op<K, V>>, k: K) {
    k !in Touched(cap, c, ops) && forall i :: 0 <= i < |ops| ==> ops[i] != Remove(k)
  }

  ghost predicate NoRemovals<K, V>(ops: seq<Op<K, V>>) {
    forall i :: 0 <= i < |ops| ==> !ops[i].Remove?
  }

  lemma {:induction false} KeysSize<K, V>(c: Cache<K, V>)
    requires Distinct(c)
    ensures |KeysOf(c)| == |c|
  {
    if c != [] {
      assert c == [c[0]] + c[1..];
      KeysSize(c[1..]);
      KeysConcat([c[0]], c[1..]);
      assert KeysOf([c[0]]) == {c[0].key};
      assert c[0].key !in KeysOf(c[1..]);
    } else {
      assert KeysOf(c) == {};
    }
  }

  /** The entries around `e` have other keys than `e`. */
  lemma SplitDistinct<K, V>(a: Cache<K, V>, e: Entry<K, V>, b: Cache<K, V>)
    requires Distinct(a + [e] + b)
    ensures Distinct(b) && e.key !in KeysOf(a) && e.key !in KeysOf(b)
  {
    var c, n := a + [e] + b, |a|;
    assert c[n] == e;
    forall i | 0 <= i < n
      ensures a[i].key != e.key
    {
      assert a[i] == c[i];
    }
    forall i | 0 <= i < |b|
      ensures b[i].key != e.key
      ensures forall j :: i < j < |b| ==> b[i].key != b[j].key
    {
      assert b[i] == c[n + 1 + i];
      assert forall j :: i < j < |b| ==> b[j] == c[n + 1 + j];
    }
  }

  /** The step pushes the entry `e` out: a new key comes in while the cache is full and
      `e` is its oldest entry. */
  ghost predicate Evicts<K, V>(cap: nat, a: Cache<K, V>, e: Entry<K, V>, b: Cache<K, V>, op: Op<K, V>) {
    op.Insert? && Lookup(a + [e] + b, op.key).None? && a == [] && 1 + |b| == cap
  }

  lemma SplitWithout<K, V>(a: Cache<K, V>, e: Entry<K, V>, b: Cache<K, V>, k: K)
    requires k != e.key
    ensures Without(a + [e] + b, k) == Without(a, k) + [e] + Without(b, k)
    ensures KeysOf(Without(b, k)) == KeysOf(b) - {k}
  {
    WithoutConcat(a + [e], b, k);
    WithoutConcat(a, [e], k);
    assert Without([e], k) == [e];
    WithoutFacts(b, k);
  }

  lemma KeysAppend<K, V>(b: Cache<K, V>, k: K, v: V)
    ensures KeysOf(b + [Entry(k, v)]) == KeysOf(b) + {k}
  {
    KeysConcat(b, [Entry(k, v)]);
    assert KeysOf([Entry(k, v)]) == {k};
  }

  /** One operation on a cache split around the entry `e`: unless it evicts `e`, the
      entry stays, and the keys newer than it gain exactly the touched key and lose
      exactly the removed one. */
  lemma SplitStep<K, V>(cap: nat, a: Cache<K, V>, e: Entry<K, V>, b: Cache<K, V>, op: Op<K, V>) returns (a': Cache<K, V>, b': Cache<K, V>)
    requires cap >= 1 && Wf(cap, a + [e] + b)
    requires op.key != e.key && !Evicts(cap, a, e, b, op)
    ensures Apply(cap, a + [e] + b, op) == a' + [e] + b'
    ensures KeysOf(b') == if op.Remove? then KeysOf(b) - {op.key} else KeysOf(b) + Touches(a + [e] + b, op)
  {
    var c, k := a + [e] + b, op.key;
    a', b' := a, b;
    SplitWithout(a, e, b, k);
    match op
    case Remove(_) =>
      a', b' := Without(a, k), Without(b, k);
    case Read(_) =>
      var r := Lookup(c, k);
      if r.Some? {
        a', b' := Without(a, k), Without(b, k) + [Entry(k, r.value)];
        KeysAppend(Without(b, k), k, r.value);
      }
    case Insert(_, v) =>
      if Lookup(c, k).None? {
        KeysAppend(b, k, v);
        b' := b + [Entry(k, v)];
        if |c| >= cap {
          a' := a[1..];
          assert c[1..] == a[1..] + [e] + b;
        }
      }
  }

  /** A step that evicts `e`: by then a full cache of other keys is newer than it. */
  lemma SplitEvicted<K, V>(cap: nat, a: Cache<K, V>, e: Entry<K, V>, b: Cache<K, V>, op: Op<K, V>)
    requires cap >= 1 && Wf(cap, a + [e] + b)
    requires op.key != e.key && Evicts(cap, a, e, b, op)
    ensures Lookup(Apply(cap, a + [e] + b, op), e.key).None?
    ensures |KeysOf(b) + Touches(a + [e] + b, op)| >= cap
  {
    var c, k := a + [e] + b, op.key;
    assert c[1..] == b;
    assert Apply(cap, c, op) == b + [Entry(k, op.value)];
    KeysAppend(b, k, op.value);
    SplitDistinct(a, e, b);
    KeysSize(b);
    KeysConcat(a + [e], b);
    assert k !in KeysOf(b);
  }

  /** Once evicted and left alone, a key stays out. */
  lemma {:induction false} StaysOut<K, V>(cap: nat, c: Cache<K, V>, ops: seq<Op<K, V>>, k: K)
    requires cap >= 1 && Wf(cap, c)
    requires Lookup(c, k).None? && LeftAlone(cap, c, ops, k)
    ensures Lookup(Run(cap, c, ops), k).None?
    decreases |ops|
  {
    if ops != [] {
      var c' := Apply(cap, c, ops[0]);
      ApplyWf(cap, c, ops[0]);
      if Lookup(c', k).Some? {
        NeverOverwritten(cap, c, ops[0], k);
      }
      StaysOut(cap, c', ops[1..], k);
    }
  }

  /** Survival: the entry `e`, with the entries `b` newer than it, is still there after
      a window that leaves it alone and touches too few other keys to fill the cache. */
  lemma {:induction false} SurvivesFrom<K, V>(cap: nat, a: Cache<K, V>, e: Entry<K, V>, b: Cache<K, V>, ops: seq<Op<K, V>>)
    requires cap >= 1 && Wf(cap, a + [e] + b)
    requires LeftAlone(cap, a + [e] + b, ops, e.key)
    requires |KeysOf(b) + Touched(cap, a + [e] + b, ops)| < cap
    ensures Lookup(Run(cap, a + [e] + b, ops), e.key) == Some(e.value)
    decreases |ops|
  {
    var c := a + [e] + b;
    if ops == [] {
      SplitLookup(a, e, b);
    } else {
      var op, c' := ops[0], Apply(cap, c, ops[0]);
      ApplyWf(cap, c, op);
      SplitLookup(a, e, b);
      assert op.key != e.key || (op.Insert? && c' == c) by {
        if op.key == e.key { assert op.Insert?; }
      }
      var all_ := KeysOf(b) + Touched(cap, c, ops);
      if op.key == e.key {
        SurvivesFrom(cap, a, e, b, ops[1..]);
      } else {
        Smaller(KeysOf(b) + Touches(c, op), all_);
        if Evicts(cap, a, e, b, op) {
          SplitEvicted(cap, a, e, b, op);
          assert false;
        }
        var a', b' := SplitStep(cap, a, e, b, op);
        Smaller(KeysOf(b') + Touched(cap, c', ops[1..]), all_);
        SurvivesFrom(cap, a', e, b', ops[1..]);
      }
    }
  }

  lemma SplitLookup<K, V>(a: Cache<K, V>, e: Entry<K, V>, b: Cache<K, V>)
    requires Distinct(a + [e] + b)
    ensures Lookup(a + [e] + b, e.key) == Some(e.value)
  {
    SplitDistinct(a, e, b);
    LookupConcat(a + [e], b, e.key);
    LookupConcat(a, [e], e.key);
    KeysConcat(a, [e]);
    assert e in [e];
  }

  lemma Smaller<K>(s: set<K>, t: set<K>)
    requires s <= t
    ensures |s| <= |t|
  {
    assert t == s + (t - s);
  }

  /** Without removals the bound is exact. */
  lemma {:induction false} ExactFrom<K, V>(cap: nat, a: Cache<K, V>, e: Entry<K, V>, b: Cache<K, V>, ops: seq<Op<K, V>>)
    requires cap >= 1 && Wf(cap, a + [e] + b)
    requires LeftAlone(cap, a + [e] + b, ops, e.key) && NoRemovals(ops)
    ensures Lookup(Run(cap, a + [e] + b, ops), e.key).Some?
            <==> |KeysOf(b) + Touched(cap, a + [e] + b, ops)| < cap
    decreases |ops|
  {
    var c := a + [e] + b;
    SplitLookup(a, e, b);
    if ops == [] {
      BehindIsSmall(cap, a, e, b);
      assert KeysOf(b) + Touched(cap, c, ops) == KeysOf(b);
    } else {
      var op, c' := ops[0], Apply(cap, c, ops[0]);
      ApplyWf(cap, c, op);
      if op.key == e.key {
        ExactFrom(cap, a, e, b, ops[1..]);
      } else {
        if Evicts(cap, a, e, b, op) {
          SplitEvicted(cap, a, e, b, op);
          StaysOut(cap, c', ops[1..], e.key);
          Smaller(KeysOf(b) + Touches(c, op), KeysOf(b) + Touched(cap, c, ops));
        } else {
          var a', b' := SplitStep(cap, a, e, b, op);
          ExactFrom(cap, a', e, b', ops[1..]);
          assert KeysOf(b') + Touched(cap, c', ops[1..]) == KeysOf(b) + Touched(cap, c, ops);
        }
      }
    }
  }

  lemma BehindIsSmall<K, V>(cap: nat, a: Cache<K, V>, e: Entry<K, V>, b: Cache<K, V>)
    requires Wf(cap, a + [e] + b)
    ensures |KeysOf(b)| < cap
  {
    SplitDistinct(a, e, b);
    KeysSize(b);
  }

  /** The entry touched last is the last of the sequence; from there on it survives as
      long as fewer than `cap` other keys are touched. */
  lemma Survival<K, V>(cap: nat, a: Cache<K, V>, e: Entry<K, V>, ops: seq<Op<K, V>>)
    requires cap >= 1 && Wf(cap, a + [e])
    requires LeftAlone(cap, a + [e], ops, e.key)
    ensures |Touched(cap, a + [e], ops)| < cap ==> Lookup(Run(cap, a + [e], ops), e.key) == Some(e.value)
    ensures NoRemovals(ops) ==>
              (Lookup(Run(cap, a + [e], ops), e.key).Some? <==> |Touched(cap, a + [e], ops)| < cap)
  {
    var none: Cache<K, V> := [];
    assert a + [e] + none == a + [e];
    assert KeysOf(none) + Touched(cap, a + [e], ops) == Touched(cap, a + [e], ops);
    if |Touched(cap, a + [e], ops)| < cap {
      SurvivesFrom(cap, a, e, none, ops);
    }
    if NoRemovals(ops) {
      ExactFrom(cap, a, e, none, ops);
    }
  }

  /** A successful insert or read leaves its entry last. */
  lemma TouchedIsLast<K, V>(cap: nat, c: Cache<K, V>, op: Op<K, V>) returns (a: Cache<K, V>, e: Entry<K, V>)
    requires cap >= 1 && Wf(cap, c) && Touches(c, op) != {}
    ensures e.key == op.key && Apply(cap, c, op) == a + [e] && Wf(cap, a + [e])
    ensures Some(e.value) == if op.Insert? then Some(op.value) else Lookup(c, op.key)
  {
    ApplyWf(cap, c, op);
    var c' := Apply(cap, c, op);
    a, e := c'[..|c'| - 1], c'[|c'| - 1];
  }

  // ----- agreement with a map that never evicts -----

  function MapApply<K, V>(m: map<K, V>, op: Op<K, V>): map<K, V> {
    match op
    case Insert(k, v) => if k in m then m else m[k := v]
    case Read(_) => m
    case Remove(k) => m - {k}
  }

  function MapRespond<K, V>(m: map<K, V>, op: Op<K, V>): Answer<V> {
    match op
    case Insert(k, _) => if k in m then Duplicate else Inserted
    case Read(k) => Secret(if k in m then Some(m[k]) else None)
    case Remove(_) => Removed
  }

  function Answers<K(==), V>(cap: nat, c: Cache<K, V>, ops: seq<Op<K, V>>): seq<Answer<V>>
    decreases |ops|
  {
    if ops == [] then [] else [Respond(c, ops[0])] + Answers(cap, Apply(cap, c, ops[0]), ops[1..])
  }

  function MapAnswers<K, V>(m: map<K, V>, ops: seq<Op<K, V>>): seq<Answer<V>>
    decreases |ops|
  {
    if ops == [] then [] else [MapRespond(m, ops[0])] + MapAnswers(MapApply(m, ops[0]), ops[1..])
  }

  /** At no point of the trace are there more live agreements than the capacity. */
  ghost predicate Fits<K, V>(cap: nat, m: map<K, V>, ops: seq<Op<K, V>>)
    decreases |ops|
  {
    |m| <= cap && (ops == [] || Fits(cap, MapApply(m, ops[0]), ops[1..]))
  }

  ghost predicate Agrees<K(!new), V>(c: Cache<K, V>, m: map<K, V>) {
    forall k :: Lookup(c, k) == if k in m then Some(m[k]) else None
  }

  lemma AgreesSize<K(!new), V>(c: Cache<K, V>, m: map<K, V>)
    requires Distinct(c) && Agrees(c, m)
    ensures |c| == |m|
  {
    KeysSize(c);
    assert KeysOf(c) == m.Keys by {
      forall k
        ensures k in KeysOf(c) <==> k in m.Keys
      {
        assert Lookup(c, k).Some? <==> k in KeysOf(c);
      }
    }
  }

  /** Looking up after an operation that evicts nothing. */
  lemma LookupAfter<K, V>(cap: nat, c: Cache<K, V>, op: Op<K, V>, x: K)
    requires op.Insert? && Lookup(c, op.key).None? ==> |c| < cap
    ensures Lookup(Apply(cap, c, op), x) ==
            if x != op.key then Lookup(c, x)
            else if op.Remove? then None
            else if op.Insert? && Lookup(c, x).None? then Some(op.value)
            else Lookup(c, x)
  {
    var k := op.key;
    LookupWithout(c, k, x);
    match op
    case Insert(_, v) =>
      LookupConcat(c, [Entry(k, v)], x);
    case Read(_) =>
      if Lookup(c, k).Some? {
        WithoutFacts(c, k);
        LookupConcat(Without(c, k), [Entry(k, Lookup(c, k).value)], x);
      }
    case Remove(_) =>
  }

  lemma MapStep<K(!new), V>(cap: nat, c: Cache<K, V>, m: map<K, V>, op: Op<K, V>)
    requires cap >= 1 && Wf(cap, c) && Agrees(c, m)
    requires |MapApply(m, op)| <= cap
    ensures Agrees(Apply(cap, c, op), MapApply(m, op))
    ensures Respond(c, op) == MapRespond(m, op)
  {
    AgreesSize(c, m);
    assert Lookup(c, op.key) == if op.key in m then Some(m[op.key]) else None;
    if op.Insert? && op.key !in m {
      assert MapApply(m, op).Keys == m.Keys + {op.key};
    }
    forall x
      ensures Lookup(Apply(cap, c, op), x) == if x in MapApply(m, op) then Some(MapApply(m, op)[x]) else None
    {
      LookupAfter(cap, c, op, x);
      assert Lookup(c, x) == if x in m then Some(m[x]) else None;
    }
  }

  /** On every trace whose live agreements fit, the cache answers like a plain
      insert-if-absent map. */
  lemma {:induction false} AnswersLikeMap<K(!new), V>(cap: nat, c: Cache<K, V>, m: map<K, V>, ops: seq<Op<K, V>>)
    requires cap >= 1 && Wf(cap, c) && Agrees(c, m) && Fits(cap, m, ops)
    ensures Answers(cap, c, ops) == MapAnswers(m, ops)
    decreases |ops|
  {
    if ops != [] {
      MapStep(cap, c, m, ops[0]);
      ApplyWf(cap, c, ops[0]);
      AnswersLikeMap(cap, Apply(cap, c, ops[0]), MapApply(m, ops[0]), ops[1..]);
    }
  }
}
