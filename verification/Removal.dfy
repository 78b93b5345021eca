/** The removal on every exit of a `submit_request` call: which agreement it takes, and the
    race in which it takes one that no call has used. */
module Removal {
  import opened Base
  import opened Machine
  import opened Jobs
  import opened Sessions
  import opened Answers
  import opened Flow
  import opened Runs
  import opened Theorems
  import Lru

  /** The agreement present for `u`, as the position of the `hello` that made it. */
  ghost function Present(s: State, u: Uuid): Option<nat> {
    if Lru.Lookup(s.store, u).Some? then LastHello(s.log.hellos, u) else None
  }

  /** The agreement made last for the request of handler `id` when that handler looked for
      its key. */
  ghost function FoundBy(s: State, id: nat): Option<nat>
    requires At(s, id) && id in s.log.keyReads && s.log.keyReads[id] <= |s.log.hellos|
  {
    LastHello(s.log.hellos[..s.log.keyReads[id]], s.tasks[id].uuid)
  }

  ghost predicate HelloSince(hellos: seq<Agreement>, u: Uuid, n: nat) {
    exists j :: n <= j < |hellos| && hellos[j].uuid == u
  }

  /** The removal takes whatever agreement is present for its request, and no other. It is
      the one that was there when the call looked for its key, unless a `hello` has been
      accepted for the request since: then, and only then, it is one the call never saw. */
  lemma RemovalTakes(env: Env, start: State, actions: seq<Action>, id: nat)
    requires Init(start) && Valid(env, start, actions)
    requires var s := Final(env, start, actions); At(s, id) && s.tasks[id].Removing?
    ensures var s := Final(env, start, actions);
            var s', u := RemoveAgreement(s, id), s.tasks[id].uuid;
            && id in s.log.keyReads && s.log.keyReads[id] <= |s.log.hellos|
            && Present(s', u).None? && s'.tasks == s.tasks - {id}
            && s'.log.returned == s.log.returned + [Return(u, id, s.tasks[id].ok, |s.log.hellos|)]
            && (forall v :: v != u ==> Present(s', v) == Present(s, v))
            && (Lru.Lookup(s.store, u).Some? <==> Present(s, u).Some?)
            && (Present(s, u).Some? ==>
                  && s.log.hellos[Present(s, u).value] == Agreement(u, Lru.Lookup(s.store, u).value)
                  && (Present(s, u) != FoundBy(s, id) <==> HelloSince(s.log.hellos, u, s.log.keyReads[id]))
                  && (Present(s, u) != FoundBy(s, id) <==> Present(s, u).value >= s.log.keyReads[id]))
  {
    hide Valid, Final, Init, JobInv, FlowInv, AnswerInv, Lru.Lookup, Lru.Wf;
    Reached(env, start, actions);
    var s := Final(env, start, actions);
    var s', u := RemoveAgreement(s, id), s.tasks[id].uuid;
    forall v
      ensures Lru.Lookup(s'.store, v) == if v == u then None else Lru.Lookup(s.store, v)
    {
      Lru.LookupWithout(s.store, u, v);
    }
    LastHelloBefore(s.log.hellos, u, s.log.keyReads[id]);
  }

  /** The last `hello` lies beyond a point exactly when there is one beyond it, and is the
      last before that point otherwise. */
  lemma {:induction false} LastHelloBefore(hellos: seq<Agreement>, u: Uuid, n: nat)
    requires n <= |hellos|
    ensures HelloSince(hellos, u, n) <==> LastHello(hellos, u).Some? && LastHello(hellos, u).value >= n
    ensures !HelloSince(hellos, u, n) ==> LastHello(hellos[..n], u) == LastHello(hellos, u)
    decreases |hellos|
  {
    if n == |hellos| {
      assert hellos[..n] == hellos;
    } else {
      var m := |hellos| - 1;
      assert hellos[..m][..n] == hellos[..n];
      LastHelloBefore(hellos[..m], u, n);
      if HelloSince(hellos[..m], u, n) {
        var j :| n <= j < m && hellos[..m][j].uuid == u;
        assert hellos[j].uuid == u;
      }
    }
  }

  // ----- the race -----

  /** The part of a state the race is about. */
  ghost predicate Looks(s: State, store: Lru.Cache<Uuid, Bytes>, tasks: map<nat, Task>, nextId: nat,
      hellos: seq<Agreement>, keyReads: map<nat, nat>)
  {
    && s.store == store && s.tasks == tasks && s.nextId == nextId
    && s.log.hellos == hellos && s.log.keyReads == keyReads
  }

  /** The store that holds one agreement. */
  lemma OneAgreement(u: Uuid, secret: Bytes)
    ensures var c := [Lru.Entry(u, secret)];
            && Lru.Lookup(c, u) == Some(secret)
            && Lru.Apply(AGREEMENTS, [], Lru.Insert(u, secret)) == c
            && Lru.Apply(AGREEMENTS, c, Lru.Read(u)) == c
            && Lru.Apply(AGREEMENTS, c, Lru.Remove(u)) == []
  {
    var c := [Lru.Entry(u, secret)];
    assert c[1..] == [];
    assert Lru.Without(c, u) == [];
    assert [] + [Lru.Entry(u, secret)] == c;
  }

  lemma RaceHello(s: State, u: Uuid, secret: Bytes, tasks: map<nat, Task>, n: nat, hellos: seq<Agreement>, keyReads: map<nat, nat>)
    requires Looks(s, [], tasks, n, hellos, keyReads)
    ensures Looks(Hello(s, u, secret), [Lru.Entry(u, secret)], tasks, n, hellos + [Agreement(u, secret)], keyReads)
  {
    OneAgreement(u, secret);
  }

  lemma RaceSubmit(s: State, u: Uuid, call: Call, store: Lru.Cache<Uuid, Bytes>, tasks: map<nat, Task>, n: nat,
      hellos: seq<Agreement>, keyReads: map<nat, nat>)
    requires Looks(s, store, tasks, n, hellos, keyReads) && |call.nonce| == 12 && |call.tag| == 16
    ensures Looks(Submit(s, u, call), store, tasks[n := Reading(u, call)], n + 1, hellos, keyReads)
  {
  }

  lemma RaceRead(env: Env, s: State, id: nat, u: Uuid, store: Lru.Cache<Uuid, Bytes>, tasks: map<nat, Task>, n: nat,
      hellos: seq<Agreement>, keyReads: map<nat, nat>)
    requires Looks(s, store, tasks, n, hellos, keyReads)
    requires At(s, id) && s.tasks[id].Reading? && s.tasks[id].uuid == u
    requires Validate(env, s.tasks[id].call, Lru.Lookup(store, u)).None?
    requires Lru.Apply(AGREEMENTS, store, Lru.Read(u)) == store
    ensures Looks(ReadKey(env, s, id, s.log.clock), store, tasks[id := Removing(u, false)], n, hellos, keyReads[id := |hellos|])
  {
    hide Validate, Lru.Apply, Lru.Lookup;
  }

  lemma RaceReturn(s: State, id: nat, u: Uuid, secret: Bytes, tasks: map<nat, Task>, n: nat,
      hellos: seq<Agreement>, keyReads: map<nat, nat>)
    requires Looks(s, [Lru.Entry(u, secret)], tasks, n, hellos, keyReads)
    requires At(s, id) && s.tasks[id].Removing? && s.tasks[id].uuid == u
    ensures Looks(RemoveAgreement(s, id), [], tasks - {id}, n, hellos, keyReads)
  {
    hide Lru.Apply;
    OneAgreement(u, secret);
  }

  /** Two calls that do not decrypt are in flight for one request, and both have looked
      for their key. */
  lemma BothRefused(env: Env, start: State, u: Uuid, first: Bytes, a: Call, b: Call) returns (actions: seq<Action>)
    requires Init(start) && |a.nonce| == |b.nonce| == 12 && |a.tag| == |b.tag| == 16
    requires Validate(env, a, Some(first)).None? && Validate(env, b, Some(first)).None?
    ensures Valid(env, start, actions)
    ensures Looks(Final(env, start, actions), [Lru.Entry(u, first)], map[1 := Removing(u, false), 2 := Removing(u, false)], 3,
              [Agreement(u, first)], map[1 := 1, 2 := 1])
  {
    hide Validate, Lru.Apply, Lru.Lookup, Hello, Submit, ReadKey, Valid, Final;
    var store, hellos := [Lru.Entry(u, first)], [Agreement(u, first)];
    OneAgreement(u, first);
    var s := start;
    Nothing(env, s);
    actions := [];
    RaceHello(s, u, first, map[], 1, [], map[]);
    actions, s := Extend(env, start, actions, s, AHello(u, first));
    RaceSubmit(s, u, a, store, map[], 1, hellos, map[]);
    actions, s := Extend(env, start, actions, s, ASubmit(u, a));
    RaceSubmit(s, u, b, store, map[1 := Reading(u, a)], 2, hellos, map[]);
    actions, s := Extend(env, start, actions, s, ASubmit(u, b));
    var tasks := map[1 := Reading(u, a), 2 := Reading(u, b)];
    RaceRead(env, s, 1, u, store, tasks, 3, hellos, map[]);
    actions, s := Extend(env, start, actions, s, AReadKey(1, s.log.clock));
    tasks := tasks[1 := Removing(u, false)];
    RaceRead(env, s, 2, u, store, tasks, 3, hellos, map[1 := 1]);
    actions, s := Extend(env, start, actions, s, AReadKey(2, s.log.clock));
    assert tasks[2 := Removing(u, false)] == map[1 := Removing(u, false), 2 := Removing(u, false)];
  }

  lemma Nothing(env: Env, s: State)
    ensures Valid(env, s, []) && Final(env, s, []) == s
  {
  }

  lemma Extend(env: Env, start: State, actions: seq<Action>, s: State, a: Action) returns (longer: seq<Action>, s': State)
    requires Valid(env, start, actions) && Final(env, start, actions) == s && Enabled(env, s, a)
    ensures longer == actions + [a] && Valid(env, start, longer) && Final(env, start, longer) == s'
    ensures s' == Next(env, s, a)
  {
    hide Next, Enabled;
    OneMore(env, start, actions, a);
    longer, s' := actions + [a], Next(env, s, a);
  }

  /** The race: two calls that do not decrypt look for their key, one of them removes the
      agreement, a new `hello` is accepted, and the other call is about to remove an
      agreement that no call has read. */
  lemma RemovalRace(env: Env, start: State, u: Uuid, first: Bytes, second: Bytes, a: Call, b: Call) returns (actions: seq<Action>)
    requires Init(start) && |a.nonce| == |b.nonce| == 12 && |a.tag| == |b.tag| == 16
    requires Validate(env, a, Some(first)).None? && Validate(env, b, Some(first)).None?
    ensures Valid(env, start, actions)
    ensures var s := Final(env, start, actions);
            && Looks(s, [Lru.Entry(u, second)], map[1 := Removing(u, false)], 3,
                     [Agreement(u, first), Agreement(u, second)], map[1 := 1, 2 := 1])
            && Present(s, u) == Some(1) && FoundBy(s, 1) == Some(0)
  {
    hide Validate, Lru.Apply, Lru.Lookup, Hello, RemoveAgreement, Valid, Final;
    actions := BothRefused(env, start, u, first, a, b);
    var s := Final(env, start, actions);
    var keyReads := map[1 := 1, 2 := 1];
    RaceReturn(s, 2, u, first, map[1 := Removing(u, false), 2 := Removing(u, false)], 3, [Agreement(u, first)], keyReads);
    actions, s := Extend(env, start, actions, s, ARemoveAgreement(2));
    assert s.tasks == map[1 := Removing(u, false)];
    RaceHello(s, u, second, map[1 := Removing(u, false)], 3, [Agreement(u, first)], keyReads);
    actions, s := Extend(env, start, actions, s, AHello(u, second));
    OneAgreement(u, second);
    assert [Agreement(u, first)] + [Agreement(u, second)] == [Agreement(u, first), Agreement(u, second)];
    assert s.log.hellos[..1] == [Agreement(u, first)];
  }

  /** What the race costs: a call that is valid under the secret of the accepted `hello`
      comes after the removal, finds no key and is refused. */
  lemma RaceRefuses(env: Env, start: State, u: Uuid, first: Bytes, second: Bytes, a: Call, b: Call, c: Call) returns (actions: seq<Action>)
    requires Init(start) && |a.nonce| == |b.nonce| == |c.nonce| == 12 && |a.tag| == |b.tag| == |c.tag| == 16
    requires Validate(env, a, Some(first)).None? && Validate(env, b, Some(first)).None?
    requires Validate(env, c, Some(second)).Some?
    ensures Valid(env, start, actions)
    ensures var s := Final(env, start, actions);
            && s.log.hellos == [Agreement(u, first), Agreement(u, second)]
            && s.tasks == map[3 := Removing(u, false)] && s.log.keyReads == map[1 := 1, 2 := 1, 3 := 2]
  {
    hide Lru.Apply, Lru.Lookup, Submit, ReadKey, RemoveAgreement, Valid, Final;
    actions := RemovalRace(env, start, u, first, second, a, b);
    var s := Final(env, start, actions);
    var hellos, keyReads := [Agreement(u, first), Agreement(u, second)], map[1 := 1, 2 := 1];
    RaceReturn(s, 1, u, second, map[1 := Removing(u, false)], 3, hellos, keyReads);
    actions, s := Extend(env, start, actions, s, ARemoveAgreement(1));
    assert s.tasks == map[];
    RaceSubmit(s, u, c, [], map[], 3, hellos, keyReads);
    actions, s := Extend(env, start, actions, s, ASubmit(u, c));
    NoAgreement(u);
    RaceRead(env, s, 3, u, [], map[3 := Reading(u, c)], 4, hellos, keyReads);
    actions, s := Extend(env, start, actions, s, AReadKey(3, s.log.clock));
  }

  lemma NoAgreement(u: Uuid)
    ensures Lru.Lookup<Uuid, Bytes>([], u).None? && Lru.Apply<Uuid, Bytes>(AGREEMENTS, [], Lru.Read(u)) == []
  {
  }
}
