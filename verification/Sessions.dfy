/** Session keys: where the key of an admitted request comes from, and what a returned
    call has done to the agreement of its request. */
module Sessions {
  import opened Base
  import opened Proofs
  import opened Machine
  import opened Flow
  import Lru

  /** The position of the last successful `hello` for `u`. */
  ghost function LastHello(hellos: seq<Agreement>, u: Uuid): (r: Option<nat>)
    ensures r.Some? ==> r.value < |hellos| && hellos[r.value].uuid == u
    ensures forall j :: 0 <= j < |hellos| && hellos[j].uuid == u ==> r.Some? && j <= r.value
  {
    if hellos == [] then None
    else
      var n := |hellos| - 1;
      if hellos[n].uuid == u then Some(n) else LastHello(hellos[..n], u)
  }

  lemma LastHelloAppend(hellos: seq<Agreement>, h: Agreement, u: Uuid)
    ensures LastHello(hellos + [h], u) == if h.uuid == u then Some(|hellos|) else LastHello(hellos, u)
  {
    assert (hellos + [h])[..|hellos|] == hellos;
  }

  /** `key` is the secret of the latest successful `hello` for `u` among the first `n`. */
  ghost predicate LatestSecret(hellos: seq<Agreement>, u: Uuid, key: Bytes, n: nat) {
    && n <= |hellos|
    && LastHello(hellos[..n], u).Some?
    && hellos[LastHello(hellos[..n], u).value].secret == key
  }

  lemma LatestSecretStable(hellos: seq<Agreement>, h: Agreement, u: Uuid, key: Bytes, n: nat)
    requires LatestSecret(hellos, u, key, n)
    ensures LatestSecret(hellos + [h], u, key, n)
  {
    assert (hellos + [h])[..n] == hellos[..n];
  }

  /** The handler `id` read `key` when it was the latest secret of `u`. */
  ghost predicate ReadBy(log: History, id: nat, u: Uuid, key: Bytes) {
    id in log.keyReads && LatestSecret(log.hellos, u, key, log.keyReads[id])
  }

  ghost predicate InsertingOk(env: Env, log: History, id: nat, t: Task)
    requires t.Inserting?
  {
    ReadBy(log, id, t.uuid, t.key) && Validate(env, t.call, Some(t.key)) == Some(t.submit)
  }

  /** A handler reads its key once; its number is not given out again. */
  ghost predicate ReadersOk(s: State) {
    && s.nextId >= 1
    && (forall id :: id in s.log.keyReads ==> id < s.nextId)
    && (forall id :: id in s.tasks ==> id < s.nextId && (s.tasks[id].Reading? ==> id !in s.log.keyReads))
    && (forall id :: id in s.tasks && HandlerTask(s.tasks[id]) && !s.tasks[id].Reading? ==>
          id in s.log.keyReads && s.log.keyReads[id] <= |s.log.hellos|)
  }

  ghost predicate HandlersOk(env: Env, s: State) {
    forall id :: id in s.tasks && s.tasks[id].Inserting? ==> InsertingOk(env, s.log, id, s.tasks[id])
  }

  ghost predicate AdmittedOk(s: State) {
    forall u :: u in s.log.admitted ==>
      ReadBy(s.log, s.log.admitted[u].reader, u, s.log.admitted[u].key)
  }

  /** A stored agreement is the one its last `hello` made. */
  ghost predicate StoredOk(store: Lru.Cache<Uuid, Bytes>, hellos: seq<Agreement>) {
    forall u :: Lru.Lookup(store, u).Some? ==>
      LastHello(hellos, u).Some? && hellos[LastHello(hellos, u).value].secret == Lru.Lookup(store, u).value
  }

  /** The call `r` has consumed its agreement: one that is there now was made later. */
  ghost predicate Consumed(store: Lru.Cache<Uuid, Bytes>, hellos: seq<Agreement>, r: Return) {
    && r.removedAt <= |hellos|
    && (Lru.Lookup(store, r.uuid).Some? ==>
          LastHello(hellos, r.uuid).Some? && LastHello(hellos, r.uuid).value >= r.removedAt)
  }

  ghost predicate ReturnedOk(s: State) {
    forall i :: 0 <= i < |s.log.returned| ==> Consumed(s.store, s.log.hellos, s.log.returned[i])
  }

  ghost predicate SessionInv(env: Env, s: State) {
    && Lru.Wf(AGREEMENTS, s.store)
    && StoredOk(s.store, s.log.hellos)
    && HandlersOk(env, s)
    && ReadersOk(s)
    && AdmittedOk(s)
    && ReturnedOk(s)
  }

  /** A step that has no business with sessions. */
  lemma SessionFrame(env: Env, s: State, s': State)
    requires SessionInv(env, s)
    requires Apart(s, s')
    ensures SessionInv(env, s')
  {
  }

  /** A step of the store that inserts nothing: what can still be looked up is as before. */
  lemma ShrinkOk(store: Lru.Cache<Uuid, Bytes>, hellos: seq<Agreement>, returned: seq<Return>, op: Lru.Op<Uuid, Bytes>)
    requires Lru.Wf(AGREEMENTS, store) && StoredOk(store, hellos)
    requires forall i :: 0 <= i < |returned| ==> Consumed(store, hellos, returned[i])
    requires !op.Insert?
    ensures var store' := Lru.Apply(AGREEMENTS, store, op);
            && Lru.Wf(AGREEMENTS, store') && StoredOk(store', hellos)
            && forall i :: 0 <= i < |returned| ==> Consumed(store', hellos, returned[i])
  {
    hide Lru.Apply, Lru.Lookup;
    var store' := Lru.Apply(AGREEMENTS, store, op);
    Lru.ApplyWf(AGREEMENTS, store, op);
    forall u | Lru.Lookup(store', u).Some?
      ensures Lru.Lookup(store, u) == Lru.Lookup(store', u)
    {
      Lru.NeverOverwritten(AGREEMENTS, store, op, u);
    }
  }

  lemma HelloSessions(env: Env, s: State, u: Uuid, secret: Bytes)
    requires SessionInv(env, s)
    ensures SessionInv(env, Hello(s, u, secret))
  {
    hide Lru.Apply, Lru.Lookup, Validate;
    var s', op, h := Hello(s, u, secret), Lru.Insert(u, secret), Agreement(u, secret);
    Lru.ApplyWf(AGREEMENTS, s.store, op);
    HelloStored(s, u, secret);
    if Lru.Respond(s.store, op).Inserted? {
      forall v, key, n | LatestSecret(s.log.hellos, v, key, n)
        ensures LatestSecret(s'.log.hellos, v, key, n)
      {
        LatestSecretStable(s.log.hellos, h, v, key, n);
      }
    }
  }

  lemma HelloStored(s: State, u: Uuid, secret: Bytes)
    requires Lru.Wf(AGREEMENTS, s.store) && StoredOk(s.store, s.log.hellos) && ReturnedOk(s)
    ensures StoredOk(Hello(s, u, secret).store, Hello(s, u, secret).log.hellos) && ReturnedOk(Hello(s, u, secret))
  {
    hide Lru.Lookup;
    var s', op, h := Hello(s, u, secret), Lru.Insert(u, secret), Agreement(u, secret);
    if Lru.Respond(s.store, op).Inserted? {
      forall v | Lru.Lookup(s'.store, v).Some?
        ensures LastHello(s'.log.hellos, v) == if v == u then Some(|s.log.hellos|) else LastHello(s.log.hellos, v)
        ensures Lru.Lookup(s'.store, v) == if v == u then Some(secret) else Lru.Lookup(s.store, v)
      {
        Lru.NeverOverwritten(AGREEMENTS, s.store, op, v);
        LastHelloAppend(s.log.hellos, h, v);
      }
    }
  }

  lemma ReadKeySessions(env: Env, s: State, id: nat, now: nat)
    requires SessionInv(env, s) && At(s, id) && s.tasks[id].Reading?
    ensures SessionInv(env, ReadKey(env, s, id, now))
  {
    hide Lru.Apply, Lru.Lookup;
    var t, s' := s.tasks[id], ReadKey(env, s, id, now);
    ShrinkOk(s.store, s.log.hellos, s.log.returned, Lru.Read(t.uuid));
    assert s.log.hellos[..|s.log.hellos|] == s.log.hellos;
  }

  lemma RemoveAgreementSessions(env: Env, s: State, id: nat)
    requires SessionInv(env, s) && At(s, id) && s.tasks[id].Removing?
    ensures SessionInv(env, RemoveAgreement(s, id))
  {
    hide Lru.Lookup, Validate;
    var u, s' := s.tasks[id].uuid, RemoveAgreement(s, id);
    ShrinkOk(s.store, s.log.hellos, s.log.returned, Lru.Remove(u));
    Lru.LookupWithout(s.store, u, u);
  }

  lemma InsertRowSessions(env: Env, s: State, id: nat, dbOk: bool)
    requires SessionInv(env, s) && At(s, id) && s.tasks[id].Inserting?
    ensures SessionInv(env, InsertRow(s, id, dbOk))
  {
    hide Validate, StoredOk, Consumed;
  }

  lemma SendFileSessions(env: Env, s: State, id: nat)
    requires SessionInv(env, s) && At(s, id) && s.tasks[id].Sending?
    ensures SessionInv(env, SendFile(s, id))
  {
    hide Validate, StoredOk, Consumed;
  }

  // ----- actions apart from sessions -----

  ghost predicate SessionAction(a: Action) {
    a.AHello? || a.AReadKey? || a.AInsertRow? || a.ASendFile? || a.ARemoveAgreement?
  }

  /** Nothing of a session differs. */
  ghost predicate Apart(s: State, s': State) {
    && s'.store == s.store && s'.log.hellos == s.log.hellos
    && s'.log.returned == s.log.returned && s'.log.admitted == s.log.admitted
    && s'.log.prior == s.log.prior && s'.log.keyReads == s.log.keyReads
    && s.nextId <= s'.nextId
    && forall id :: id in s'.tasks ==>
         && (id in s.tasks || id == WORKER || s.nextId <= id < s'.nextId)
         && (HandlerTask(s'.tasks[id]) ==>
               || (s.nextId <= id < s'.nextId && s'.tasks[id].Reading?)
               || (id in s.tasks && s'.tasks[id] == s.tasks[id]))
  }

  /** No handler is new, none is gone, and none has changed. */
  ghost predicate NoArrivals(s: State, s': State) {
    && s'.log.calls == s.log.calls && s'.log.clockReads == s.log.clockReads
    && (forall id :: id in s'.tasks && HandlerTask(s'.tasks[id]) ==> id in s.tasks && s'.tasks[id] == s.tasks[id])
    && (forall id :: id in s.tasks && id < s.nextId && HandlerTask(s.tasks[id]) ==> id in s'.tasks && s'.tasks[id] == s.tasks[id])
  }

  ghost predicate ArrivalAction(a: Action) {
    a.ASubmit? || a.ARecvFile?
  }

  ghost predicate FolderAction(a: Action) {
    a.AMakeDir? || a.AMakeInput? || a.AWriteInput?
  }

  ghost predicate HandoverAction(a: Action) {
    a.ASendWitness? || a.ARecvWitness? || a.ASendProof? || a.ARecvProof?
  }

  ghost predicate LaunchAction(a: Action) {
    a.AChmod? || a.AStartWitness? || a.AStartProof?
  }

  ghost predicate EndingAction(a: Action) {
    a.AAwaitWitness? || a.AAwaitProof?
  }

  ghost predicate StatementAction(a: Action) {
    a.AMarkWitness? || a.AStoreProof? || a.AFailRow?
  }

  lemma ArrivalApart(env: Env, s: State, a: Action)
    requires Enabled(env, s, a) && ArrivalAction(a)
    ensures Apart(s, Next(env, s, a)) && (!a.ASubmit? ==> NoArrivals(s, Next(env, s, a)))
  {
  }

  lemma SendApart(s: State, id: nat)
    requires At(s, id)
    ensures s.tasks[id].SendWitness? ==> Apart(s, DoSendWitness(s, id)) && NoArrivals(s, DoSendWitness(s, id))
    ensures s.tasks[id].SendProof? ==> Apart(s, DoSendProof(s, id)) && NoArrivals(s, DoSendProof(s, id))
  {
  }

  lemma ReceiveApart(s: State)
    ensures s.witnessQ.Ready() ==> Apart(s, RecvWitness(s)) && NoArrivals(s, RecvWitness(s))
    ensures s.proofQ.Ready() && WORKER !in s.tasks ==> Apart(s, RecvProof(s)) && NoArrivals(s, RecvProof(s))
  {
  }

  lemma HandoverApart(env: Env, s: State, a: Action)
    requires Enabled(env, s, a) && HandoverAction(a)
    ensures Apart(s, Next(env, s, a)) && NoArrivals(s, Next(env, s, a))
  {
    hide DoSendWitness, DoSendProof, RecvWitness, RecvProof, Apart, NoArrivals;
    if a.ASendWitness? || a.ASendProof? { SendApart(s, a.id); } else { ReceiveApart(s); }
  }

  lemma StageApart(s: State, s': State, id: nat)
    requires At(s, id) && StageMoves(s, s', id)
    ensures Apart(s, s') && NoArrivals(s, s')
  {
  }

  lemma AwaitWitnessApart(env: Env, s: State, id: nat, err: Option<string>, out: Option<Wtns>, now: nat)
    requires At(s, id) && s.tasks[id].AwaitWitness?
    ensures Apart(s, DoAwaitWitness(env, s, id, err, out, now)) && NoArrivals(s, DoAwaitWitness(env, s, id, err, out, now))
  {
    hide LeaveWitness;
  }

  lemma MarkApart(s: State, id: nat, dbErr: Option<string>)
    requires At(s, id) && s.tasks[id].MarkWitness?
    ensures Apart(s, DoMarkWitness(s, id, dbErr)) && NoArrivals(s, DoMarkWitness(s, id, dbErr))
  {
    hide Update;
  }

  lemma StoreApart(s: State, id: nat, dbErr: Option<string>)
    requires At(s, id) && s.tasks[id].StoreProof?
    ensures Apart(s, DoStoreProof(s, id, dbErr)) && NoArrivals(s, DoStoreProof(s, id, dbErr))
  {
    hide Update;
  }

  lemma FailApart(s: State, id: nat, dbOk: bool)
    requires At(s, id) && s.tasks[id].FailRow?
    ensures Apart(s, DoFailRow(s, id, dbOk)) && NoArrivals(s, DoFailRow(s, id, dbOk))
  {
    hide Update;
  }

  lemma RemoveDirApart(s: State, id: nat, left: Option<Dir>)
    requires At(s, id) && s.tasks[id].RemoveDir?
    ensures Apart(s, DoRemoveDir(s, id, left)) && NoArrivals(s, DoRemoveDir(s, id, left))
  {
  }

  lemma ClosingApart(env: Env, s: State, a: Action)
    requires Enabled(env, s, a) && (StatementAction(a) || a.ARemoveDir? || EndingAction(a))
    ensures Apart(s, Next(env, s, a)) && NoArrivals(s, Next(env, s, a))
  {
    hide DoMarkWitness, DoStoreProof, DoFailRow, DoRemoveDir, DoAwaitWitness, DoAwaitProof, Apart, NoArrivals, StageMoves;
    match a
    case AAwaitWitness(id, err, out, now) => AwaitWitnessApart(env, s, id, err, out, now);
    case AAwaitProof(id, err, p, q, now) =>
      AwaitProofMoves(env, s, id, err, p, q, now);
      StageApart(s, DoAwaitProof(env, s, id, err, p, q, now), id);
    case AMarkWitness(id, dbErr) => MarkApart(s, id, dbErr);
    case AStoreProof(id, dbErr) => StoreApart(s, id, dbErr);
    case AFailRow(id, dbOk) => FailApart(s, id, dbOk);
    case ARemoveDir(id, left) => RemoveDirApart(s, id, left);
  }

  lemma ActionApart(env: Env, s: State, a: Action)
    requires Enabled(env, s, a) && !SessionAction(a)
    ensures Apart(s, Next(env, s, a)) && (!a.ASubmit? ==> NoArrivals(s, Next(env, s, a)))
  {
    hide Next, Apart, NoArrivals, StageMoves;
    if {
      case ArrivalAction(a) => ArrivalApart(env, s, a);
      case HandoverAction(a) => HandoverApart(env, s, a);
      case FolderAction(a) =>
        FileTaskMoves(env, s, a);
        StageApart(s, Next(env, s, a), a.id);
      case LaunchAction(a) =>
        ProgramTaskMoves(env, s, a);
        StageApart(s, Next(env, s, a), a.id);
      case StatementAction(a) || a.ARemoveDir? || EndingAction(a) => ClosingApart(env, s, a);
    }
  }

  lemma PriorKept(env: Env, s: State, a: Action)
    requires Enabled(env, s, a)
    ensures Next(env, s, a).log.prior == s.log.prior
  {
    if SessionAction(a) {
      hide Lru.Apply, Lru.Lookup, Validate;
    } else {
      hide Next, Enabled;
      ActionApart(env, s, a);
    }
  }

  // ----- the store within a run -----

  /** What an action does to the agreement store, as operations of the cache. */
  ghost function StoreOps(env: Env, s: State, a: Action): (ops: seq<Lru.Op<Uuid, Bytes>>)
    requires Enabled(env, s, a)
  {
    match a
    case AHello(u, secret) => [Lru.Insert(u, secret)]
    case AReadKey(id, _) => [Lru.Read(s.tasks[id].uuid)]
    case ARemoveAgreement(id) => [Lru.Remove(s.tasks[id].uuid)]
    case _ => []
  }

  ghost function StoreTrace(env: Env, s: State, actions: seq<Action>): (ops: seq<Lru.Op<Uuid, Bytes>>)
    requires Valid(env, s, actions)
    decreases |actions|
  {
    if actions == [] then []
    else StoreOps(env, s, actions[0]) + StoreTrace(env, Next(env, s, actions[0]), actions[1..])
  }

  lemma StoreStep(env: Env, s: State, a: Action)
    requires Enabled(env, s, a)
    ensures Next(env, s, a).store == Lru.Run(AGREEMENTS, s.store, StoreOps(env, s, a))
  {
    hide Lru.Apply;
    if SessionAction(a) {
      SessionStore(env, s, a);
    } else {
      hide Next, Enabled;
      ActionApart(env, s, a);
    }
  }

  lemma SessionStore(env: Env, s: State, a: Action)
    requires Enabled(env, s, a) && SessionAction(a)
    ensures Next(env, s, a).store == Lru.Run(AGREEMENTS, s.store, StoreOps(env, s, a))
  {
    hide Lru.Apply, Lru.Lookup, Validate;
  }

  /** Along a run the store is driven by nothing but these operations, so the survival
      and plain-map theorems about traces of the cache speak about every run. */
  lemma {:induction false} StoreOfRun(env: Env, s: State, actions: seq<Action>)
    requires Valid(env, s, actions)
    ensures Final(env, s, actions).store == Lru.Run(AGREEMENTS, s.store, StoreTrace(env, s, actions))
    decreases |actions|
  {
    hide Next, Enabled;
    if actions != [] {
      var s' := Next(env, s, actions[0]);
      StoreStep(env, s, actions[0]);
      StoreOfRun(env, s', actions[1..]);
      RunConcat(s.store, StoreOps(env, s, actions[0]), StoreTrace(env, s', actions[1..]));
    }
  }

  lemma {:induction false} RunConcat(c: Lru.Cache<Uuid, Bytes>, a: seq<Lru.Op<Uuid, Bytes>>, b: seq<Lru.Op<Uuid, Bytes>>)
    ensures Lru.Run(AGREEMENTS, c, a + b) == Lru.Run(AGREEMENTS, Lru.Run(AGREEMENTS, c, a), b)
    decreases |a|
  {
    hide Lru.Apply;
    if a == [] {
      assert a + b == b;
    } else {
      assert (a + b)[1..] == a[1..] + b;
      RunConcat(Lru.Apply(AGREEMENTS, c, a[0]), a[1..], b);
    }
  }
}
