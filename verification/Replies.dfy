/** Replies: what happens to a call from its arrival to its answer. */
module Replies {
  import opened Base
  import opened Proofs
  import opened Machine
  import opened Jobs
  import opened Flow
  import opened Frames
  import opened Sessions
  import opened Answers
  import opened Runs
  import opened Handlers
  import opened Theorems
  import opened Drain
  import Lru

  // ----- every call is answered -----

  /** The handler has answered at most once. */
  ghost predicate OnceBy(returned: seq<Return>, id: nat) {
    forall i, j :: 0 <= i < j < |returned| ==> returned[i].handler != id || returned[j].handler != id
  }

  /** No call is lost: a call with the right lengths is still in the hands of its handler
      or has been answered, never both and never twice; in an idle server all have been.
      In particular a handler that has looked for its key goes on until it answers. */
  lemma CallsAnswered(env: Env, start: State, actions: seq<Action>, id: nat)
    requires Init(start) && Valid(env, start, actions)
    requires id in Final(env, start, actions).log.calls
    ensures var s := Final(env, start, actions);
            && |s.log.calls[id].call.nonce| == 12 && |s.log.calls[id].call.tag| == 16
            && (AtWork(s, id) <==> !Answered(s.log.returned, id))
            && OnceBy(s.log.returned, id)
            && (forall i :: 0 <= i < |s.log.returned| && s.log.returned[i].handler == id ==>
                  s.log.returned[i].uuid == s.log.calls[id].uuid)
            && (Idle(s) ==> Answered(s.log.returned, id))
    ensures var s := Final(env, start, actions);
            && s.log.keyReads.Keys <= s.log.calls.Keys
            && (forall j :: j in s.tasks && HandlerTask(s.tasks[j]) ==> j in s.log.calls)
            && (forall j :: j in s.tasks && (s.tasks[j].Reading? || s.tasks[j].Inserting?) ==>
                  j in s.log.calls && s.tasks[j].call == s.log.calls[j].call)
  {
    hide Valid, Final, Init, Inv;
    Reached(env, start, actions);
    CallsOfRun(env, start, actions);
    var s := Final(env, start, actions);
    AnsweredOnce(env, s, id);
    HandlersKnown(s);
  }

  lemma AnsweredOnce(env: Env, s: State, id: nat)
    requires Inv(env, s) && CallInv(s) && id in s.log.calls
    ensures RightLengths(s.log.calls[id].call)
    ensures AtWork(s, id) <==> !Answered(s.log.returned, id)
    ensures OnceBy(s.log.returned, id)
    ensures forall i :: 0 <= i < |s.log.returned| && s.log.returned[i].handler == id ==>
              s.log.returned[i].uuid == s.log.calls[id].uuid
  {
    hide JobInv, SessionInv, FlowInv, HandlerOk, KnownTask, KnownAdmission;
    assert CallOk(s, id);
    if Answered(s.log.returned, id) {
      var i :| 0 <= i < |s.log.returned| && s.log.returned[i].handler == id;
      assert ReturnOk(s, s.log.returned[i]);
    }
    forall i | 0 <= i < |s.log.returned| && s.log.returned[i].handler == id
      ensures s.log.returned[i].uuid == s.log.calls[id].uuid
    {
      assert KnownReturn(s.log, s.log.returned[i]);
    }
  }

  lemma HandlersKnown(s: State)
    requires CallInv(s)
    ensures s.log.keyReads.Keys <= s.log.calls.Keys
    ensures forall j :: j in s.tasks && HandlerTask(s.tasks[j]) ==> j in s.log.calls
    ensures forall j :: j in s.tasks && (s.tasks[j].Reading? || s.tasks[j].Inserting?) ==>
              j in s.log.calls && s.tasks[j].call == s.log.calls[j].call
  {
    hide CallOk, KnownAdmission, KnownReturn;
    forall j | j in s.tasks && HandlerTask(s.tasks[j])
      ensures KnownTask(s.log, j, s.tasks[j])
    {
    }
  }

  /** Success is delivered: the handler of an admitted call is on its way to answer with
      success, or has done so; in an idle server it has, and no agreement it could have
      left behind is older than its removal. */
  lemma AdmittedAnswered(env: Env, start: State, actions: seq<Action>, u: Uuid)
    requires Init(start) && Valid(env, start, actions)
    requires u in Final(env, start, actions).log.admitted
    ensures var s := Final(env, start, actions);
            var id := s.log.admitted[u].reader;
            || SucceededAt(s, u, id)
            || (!Idle(s) && At(s, id) && s.tasks[id].uuid == u &&
                 (s.tasks[id].Sending? || s.tasks[id] == Removing(u, true)))
  {
    hide Valid, Final, Init, Inv;
    Reached(env, start, actions);
    CallsOfRun(env, start, actions);
    var s := Final(env, start, actions);
    AdmittedCall(s, u);
    AnsweredOnce(env, s, s.log.admitted[u].reader);
    AdmittedHandler(env, s, u);
  }

  /** The call of handler `id` for `u` was answered with success. */
  ghost predicate SucceededAt(s: State, u: Uuid, id: nat) {
    exists i :: 0 <= i < |s.log.returned| && s.log.returned[i].handler == id && s.log.returned[i].uuid == u && s.log.returned[i].ok
  }

  lemma AdmittedHandler(env: Env, s: State, u: Uuid)
    requires Inv(env, s) && u in s.log.admitted
    requires var id := s.log.admitted[u].reader;
             && id in s.log.calls && s.log.calls[id].uuid == u
             && (AtWork(s, id) <==> !Answered(s.log.returned, id))
             && (forall i :: 0 <= i < |s.log.returned| && s.log.returned[i].handler == id ==> s.log.returned[i].uuid == u)
    ensures var id := s.log.admitted[u].reader;
            if AtWork(s, id) then s.tasks[id].Sending? || s.tasks[id] == Removing(u, true) else SucceededAt(s, u, id)
  {
    hide JobInv, SessionInv, FlowInv;
    var id := s.log.admitted[u].reader;
    assert AdmittedBy(s.log.admitted, u, id);
    if AtWork(s, id) {
      assert HandlerOk(s.log.admitted, id, s.tasks[id]);
    } else {
      var i :| 0 <= i < |s.log.returned| && s.log.returned[i].handler == id;
      assert ReturnOk(s, s.log.returned[i]);
    }
  }

  // ----- valid calls are accepted -----

  /** The call decrypts with the key that is there to the submission `sub`, which is of an
      admitted type and for a known circuit. */
  ghost predicate Accepts(env: Env, key: Option<Bytes>, call: Call, sub: SubmitRequest) {
    && key.Some? && |key.value| == 32
    && env.decrypt(key.value, call.nonce, call.cipher, call.tag).Some?
    && env.parse(env.decrypt(key.value, call.nonce, call.cipher, call.tag).value) == Some(sub)
    && env.admits(sub.request.proofType)
    && sub.request.circuit.name in env.zkeys
  }

  ghost predicate Acceptable(env: Env, key: Option<Bytes>, call: Call) {
    exists sub :: Accepts(env, key, call, sub)
  }

  /** Validation accepts exactly the valid calls. */
  lemma ValidateAccepts(env: Env, call: Call, key: Option<Bytes>, sub: SubmitRequest)
    ensures Validate(env, call, key) == Some(sub) <==> Accepts(env, key, call, sub)
  {
  }

  /** A call whose key is read goes on to the INSERT with its submission, its key and the
      time read if and only if it is valid, and is refused otherwise. */
  lemma ReadOutcome(env: Env, s: State, id: nat, now: nat)
    requires At(s, id) && s.tasks[id].Reading? && now >= s.log.clock
    ensures Enabled(env, s, AReadKey(id, now))
    ensures var s', u, call := Next(env, s, AReadKey(id, now)), s.tasks[id].uuid, s.tasks[id].call;
            var key := Lru.Lookup(s.store, u);
            && (forall sub :: Accepts(env, key, call, sub) ==>
                  s'.tasks == s.tasks[id := Inserting(u, call, sub, key.value, now)])
            && (!Acceptable(env, key, call) ==> s'.tasks == s.tasks[id := Removing(u, false)])
  {
    hide Lru.Lookup, Lru.Apply, Validate, Accepts;
    var key, call := Lru.Lookup(s.store, s.tasks[id].uuid), s.tasks[id].call;
    forall sub
      ensures Validate(env, call, key) == Some(sub) <==> Accepts(env, key, call, sub)
    {
      ValidateAccepts(env, call, key, sub);
    }
  }

  ghost predicate Inserts(a: Action, id: nat) {
    a.AInsertRow? && a.id == id
  }

  /** A handler waits for its own INSERT, whatever else happens. */
  lemma WaitsForInsert(env: Env, s: State, a: Action, id: nat)
    requires Inv(env, s) && Enabled(env, s, a) && At(s, id) && s.tasks[id].Inserting? && !Inserts(a, id)
    ensures At(Next(env, s, a), id) && Next(env, s, a).tasks[id] == s.tasks[id]
  {
    hide JobInv, SessionInv, FlowInv, OneReturn, ReturnOk, HandlerOk;
    if SessionAction(a) || a.ASubmit? {
      OtherHandler(env, s, a, id);
    } else {
      hide Next, Enabled, Apart;
      ActionApart(env, s, a);
    }
  }

  lemma OtherHandler(env: Env, s: State, a: Action, id: nat)
    requires Enabled(env, s, a) && (SessionAction(a) || a.ASubmit?)
    requires At(s, id) && id < s.nextId && s.tasks[id].Inserting? && !Inserts(a, id)
    ensures At(Next(env, s, a), id) && Next(env, s, a).tasks[id] == s.tasks[id]
  {
    hide Lru.Apply, Lru.Lookup, Validate, Insert, NewRow;
  }

  lemma {:induction false} WaitsInRun(env: Env, s: State, actions: seq<Action>, id: nat)
    requires Inv(env, s) && Valid(env, s, actions) && At(s, id) && s.tasks[id].Inserting?
    requires forall i :: 0 <= i < |actions| ==> !Inserts(actions[i], id)
    ensures var last := Final(env, s, actions); At(last, id) && last.tasks[id] == s.tasks[id]
    decreases |actions|
  {
    hide Next, Enabled, Inv, Inserts;
    if actions != [] {
      WaitsForInsert(env, s, actions[0], id);
      InvKept(env, s, actions[0]);
      WaitsInRun(env, Next(env, s, actions[0]), actions[1..], id);
    }
  }

  /** An INSERT that the database carries out for a request without a row admits it; any
      other is refused without a trace in the table. */
  lemma InsertOutcome(env: Env, s: State, id: nat, dbOk: bool)
    requires At(s, id) && s.tasks[id].Inserting?
    ensures Enabled(env, s, AInsertRow(id, dbOk))
    ensures var s', t := Next(env, s, AInsertRow(id, dbOk)), s.tasks[id];
            if dbOk && t.uuid !in s.table.rows then
              && s'.tasks == s.tasks[id := Sending(t.uuid, t.submit.request)]
              && t.uuid in s'.log.admitted
              && s'.log.admitted[t.uuid] == Admission(t.call, t.submit, t.key, id, t.now)
              && t.uuid in s'.table.rows && s'.table.rows[t.uuid].status == Pending
              && s'.table.rows[t.uuid].createdAt == t.now && Describes(s'.table.rows[t.uuid], t.submit)
            else
              s'.tasks == s.tasks[id := Removing(t.uuid, false)] && s'.table == s.table && s'.log == s.log
  {
  }

  /** An admission is for good. */
  lemma AdmissionKept(env: Env, s: State, a: Action, u: Uuid)
    requires Enabled(env, s, a) && s.log.admitted.Keys <= s.table.rows.Keys && u in s.log.admitted
    ensures u in Next(env, s, a).log.admitted && Next(env, s, a).log.admitted[u] == s.log.admitted[u]
  {
    hide InsertRow, SameMarks;
    if a.AInsertRow? {
      InsertKeeps(s, a.id, a.dbOk, u);
    } else {
      hide Next, Enabled;
      if SessionAction(a) { HandlerQuiet(env, s, a); } else { ActionApart(env, s, a); }
      MarksAdmitted(Next(env, s, a).log, s.log);
    }
  }

  lemma MarksAdmitted(a: History, b: History)
    ensures SameMarks(a, b) ==> a.admitted == b.admitted
  {
  }

  lemma InsertKeeps(s: State, id: nat, dbOk: bool, u: Uuid)
    requires At(s, id) && s.tasks[id].Inserting? && s.log.admitted.Keys <= s.table.rows.Keys && u in s.log.admitted
    ensures var s' := InsertRow(s, id, dbOk); u in s'.log.admitted && s'.log.admitted[u] == s.log.admitted[u]
  {
    hide Insert, NewRow;
  }

  lemma {:induction false} AdmissionStays(env: Env, s: State, actions: seq<Action>, u: Uuid)
    requires Inv(env, s) && Valid(env, s, actions) && u in s.log.admitted
    ensures u in Final(env, s, actions).log.admitted && Final(env, s, actions).log.admitted[u] == s.log.admitted[u]
    decreases |actions|
  {
    hide Next, Enabled, JobInv, SessionInv, AnswerInv, FlowInv;
    if actions != [] {
      RowsOfAdmitted(env, s);
      AdmissionKept(env, s, actions[0], u);
      InvKept(env, s, actions[0]);
      AdmissionStays(env, Next(env, s, actions[0]), actions[1..], u);
    }
  }

  /** A valid call succeeds: it reads its key, and anything may happen until its INSERT. If
      its request has no row by then and the database carries the INSERT out, the call is
      admitted, with what it decrypts to and the time it read, and from any run after that
      it is answered with success by the time the server is idle. */
  lemma ValidCall(env: Env, start: State, before: seq<Action>, id: nat, now: nat, sub: SubmitRequest,
      between: seq<Action>)
    requires Init(start) && Valid(env, start, before)
    requires var s := Final(env, start, before);
             && At(s, id) && s.tasks[id].Reading? && now >= s.log.clock
             && Accepts(env, Lru.Lookup(s.store, s.tasks[id].uuid), s.tasks[id].call, sub)
    requires Valid(env, Next(env, Final(env, start, before), AReadKey(id, now)), between)
    requires forall i :: 0 <= i < |between| ==> !Inserts(between[i], id)
    requires var s := Final(env, start, before);
             s.tasks[id].uuid !in Final(env, Next(env, s, AReadKey(id, now)), between).table.rows
    ensures var s := Final(env, start, before);
            var s2, u := Final(env, Next(env, s, AReadKey(id, now)), between), s.tasks[id].uuid;
            && Enabled(env, s2, AInsertRow(id, true))
            && Valid(env, start, before + [AReadKey(id, now)] + between + [AInsertRow(id, true)])
            && var s3 := Final(env, start, before + [AReadKey(id, now)] + between + [AInsertRow(id, true)]);
            && s3 == Next(env, s2, AInsertRow(id, true))
            && u in s3.log.admitted
            && s3.log.admitted[u] == Admission(s.tasks[id].call, sub, Lru.Lookup(s.store, u).value, id, now)
            && (forall after :: Valid(env, s3, after) && Idle(Final(env, s3, after)) ==> SucceededAt(Final(env, s3, after), u, id))
  {
    hide Valid, Final, Init, Inv, Enabled, Next, Accepts, Inserts, Idle, SucceededAt, Lru.Lookup;
    Reached(env, start, before);
    var s := Final(env, start, before);
    var u, read, insert := s.tasks[id].uuid, AReadKey(id, now), AInsertRow(id, true);
    ReadOutcome(env, s, id, now);
    var s1 := Next(env, s, read);
    InvKept(env, s, read);
    WaitsInRun(env, s1, between, id);
    InsertOutcome(env, Final(env, s1, between), id, true);
    var run := before + [read];
    OneMore(env, start, before, read);
    RunInTwo(env, start, run, between);
    OneMore(env, start, run + between, insert);
    var whole := run + between + [insert];
    Reached(env, start, whole);
    forall after | Valid(env, Final(env, start, whole), after) && Idle(Final(env, Final(env, start, whole), after))
      ensures SucceededAt(Final(env, Final(env, start, whole), after), u, id)
    {
      RunInTwo(env, start, whole, after);
      AdmissionStays(env, Final(env, start, whole), after, u);
      AdmittedAnswered(env, start, whole + after, u);
    }
  }
}
