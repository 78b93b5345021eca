/** Calls of `submit_request`: each that passes the length checks has a handler of its own,
    which keeps the call until it has answered. */
module Handlers {
  import opened Base
  import opened Proofs
  import opened Machine
  import opened Jobs
  import opened Flow
  import opened Sessions
  import opened Answers
  import opened Runs
  import Lru

  ghost predicate RightLengths(call: Call) {
    |call.nonce| == 12 && |call.tag| == 16
  }

  /** The handler is still at work on its call. */
  ghost predicate AtWork(s: State, id: nat)
    requires id in s.log.calls
  {
    id in s.tasks && HandlerTask(s.tasks[id]) && s.tasks[id].uuid == s.log.calls[id].uuid
  }

  ghost predicate Answered(returned: seq<Return>, id: nat) {
    exists i :: 0 <= i < |returned| && returned[i].handler == id
  }

  ghost predicate CallOk(s: State, id: nat)
    requires id in s.log.calls
  {
    && 1 <= id < s.nextId && RightLengths(s.log.calls[id].call)
    && (AtWork(s, id) || Answered(s.log.returned, id))
  }

  /** A handler works on the call it was made for, with the time it has read. */
  ghost predicate KnownTask(log: History, id: nat, t: Task) {
    && id in log.calls && log.calls[id].uuid == t.uuid
    && (t.Reading? || t.Inserting? ==> t.call == log.calls[id].call)
    && (t.Inserting? ==> id in log.clockReads && log.clockReads[id] == t.now)
  }

  ghost predicate KnownAdmission(log: History, u: Uuid)
    requires u in log.admitted
  {
    var adm := log.admitted[u];
    && adm.reader in log.calls && log.calls[adm.reader] == Asked(u, adm.call)
    && adm.reader in log.clockReads && log.clockReads[adm.reader] == adm.at
  }

  ghost predicate KnownReturn(log: History, r: Return) {
    r.handler in log.calls && log.calls[r.handler].uuid == r.uuid
  }

  ghost predicate CallInv(s: State) {
    && (forall id :: id in s.log.calls ==> CallOk(s, id))
    && (forall id :: id in s.tasks && HandlerTask(s.tasks[id]) ==> KnownTask(s.log, id, s.tasks[id]))
    && (forall u :: u in s.log.admitted ==> KnownAdmission(s.log, u))
    && (forall i :: 0 <= i < |s.log.returned| ==> KnownReturn(s.log, s.log.returned[i]))
    && (forall id :: id in s.log.keyReads ==> id in s.log.calls)
  }

  lemma CallFrame(s: State, s': State)
    requires CallInv(s) && Apart(s, s') && NoArrivals(s, s')
    ensures CallInv(s')
  {
    forall id | id in s'.log.calls
      ensures CallOk(s', id)
    {
      assert CallOk(s, id);
    }
  }

  /** A call with a nonce or tag of the wrong length has no effect; any other gets a handler
      of its own, and nothing else changes. */
  lemma SubmitOutcome(env: Env, s: State, u: Uuid, call: Call)
    ensures var s' := Next(env, s, ASubmit(u, call));
            if |call.nonce| == 12 && |call.tag| == 16 then
              s' == s.(
                tasks := s.tasks[s.nextId := Reading(u, call)], nextId := s.nextId + 1,
                log := s.log.(calls := s.log.calls[s.nextId := Asked(u, call)]))
            else s' == s
  {
  }

  lemma SubmitCalls(s: State, u: Uuid, call: Call)
    requires CallInv(s) && AnswerInv(s)
    ensures CallInv(Submit(s, u, call))
  {
    var s' := Submit(s, u, call);
    if s' != s {
      hide AnswerInv, Submit;
      SubmitKeeps(s, u, call);
      FreshHandler(s);
      forall id | id in s'.log.calls
        ensures CallOk(s', id)
      {
        if id != s.nextId { assert CallOk(s, id); }
      }
      forall id | id in s'.tasks && HandlerTask(s'.tasks[id])
        ensures KnownTask(s'.log, id, s'.tasks[id])
      {
        if id != s.nextId { assert KnownTask(s.log, id, s.tasks[id]); }
      }
      forall v | v in s'.log.admitted
        ensures KnownAdmission(s'.log, v)
      {
        assert KnownAdmission(s.log, v);
      }
      forall i | 0 <= i < |s'.log.returned|
        ensures KnownReturn(s'.log, s'.log.returned[i])
      {
        assert KnownReturn(s.log, s.log.returned[i]);
      }
    }
  }

  lemma SubmitKeeps(s: State, u: Uuid, call: Call)
    requires Submit(s, u, call) != s
    ensures var s' := Submit(s, u, call);
            && RightLengths(call) && s'.tasks == s.tasks[s.nextId := Reading(u, call)] && s'.nextId == s.nextId + 1
            && s'.log == s.log.(calls := s.log.calls[s.nextId := Asked(u, call)])
  {
  }

  lemma FreshHandler(s: State)
    requires CallInv(s) && AnswerInv(s)
    ensures s.nextId !in s.log.calls && s.nextId >= 1
  {
    hide OneReturn, ReturnOk, HandlerOk, KnownTask, KnownAdmission, KnownReturn;
    assert s.nextId in s.log.calls ==> CallOk(s, s.nextId);
  }

  lemma HelloCalls(s: State, u: Uuid, secret: Bytes)
    requires CallInv(s)
    ensures CallInv(Hello(s, u, secret))
  {
    hide Lru.Apply, Lru.Lookup;
    var s' := Hello(s, u, secret);
    forall id | id in s'.log.calls
      ensures CallOk(s', id)
    {
      assert CallOk(s, id);
    }
  }

  lemma ReadKeyCalls(env: Env, s: State, id: nat, now: nat)
    requires CallInv(s) && AnswerInv(s) && At(s, id) && s.tasks[id].Reading?
    ensures CallInv(ReadKey(env, s, id, now))
  {
    hide AnswerInv, ReadKey, CallOk, KnownAdmission, KnownReturn;
    var s' := ReadKey(env, s, id, now);
    ReadKeyKeeps(env, s, id, now);
    assert KnownTask(s.log, id, s.tasks[id]);
    forall j | j in s'.log.calls
      ensures CallOk(s', j)
    {
      assert CallOk(s, j);
      StillCalled(s, s', j, id);
    }
    forall u | u in s'.log.admitted
      ensures KnownAdmission(s'.log, u)
    {
      HandlerUnknown(s, id);
      OtherReader(s.log, s'.log, u, id);
    }
    forall i | 0 <= i < |s'.log.returned|
      ensures KnownReturn(s'.log, s'.log.returned[i])
    {
      SameReturn(s.log, s'.log, s.log.returned[i]);
    }
  }

  /** A step of the handler `id` that stays with its request loses no call. */
  lemma StillCalled(s: State, s': State, j: nat, id: nat)
    requires j in s.log.calls && CallOk(s, j) && At(s, id) && At(s', id)
    requires s'.tasks == s.tasks[id := s'.tasks[id]] && s'.nextId == s.nextId
    requires HandlerTask(s'.tasks[id]) && s'.tasks[id].uuid == s.tasks[id].uuid
    requires s'.log.calls == s.log.calls && s'.log.returned == s.log.returned
    ensures CallOk(s', j)
  {
  }

  lemma OtherReader(log: History, log': History, u: Uuid, id: nat)
    requires u in log.admitted && KnownAdmission(log, u) && !AdmittedBy(log.admitted, u, id)
    requires log'.admitted == log.admitted && log'.calls == log.calls
    requires forall j :: j != id && j in log.clockReads ==> j in log'.clockReads && log'.clockReads[j] == log.clockReads[j]
    ensures KnownAdmission(log', u)
  {
  }

  lemma SameReturn(log: History, log': History, r: Return)
    requires KnownReturn(log, r) && log'.calls == log.calls
    ensures KnownReturn(log', r)
  {
  }

  lemma ReadKeyKeeps(env: Env, s: State, id: nat, now: nat)
    requires At(s, id) && s.tasks[id].Reading?
    ensures var t, s' := s.tasks[id], ReadKey(env, s, id, now);
            && At(s', id) && s'.tasks == s.tasks[id := s'.tasks[id]] && s'.nextId == s.nextId
            && s'.log == s.log.(keyReads := s.log.keyReads[id := |s.log.hellos|], clockReads := s'.log.clockReads, clock := s'.log.clock)
            && s'.tasks[id].uuid == t.uuid
            && ((s'.tasks[id].Removing? && s'.log.clockReads == s.log.clockReads) ||
                (s'.tasks[id].Inserting? && s'.tasks[id].call == t.call && s'.tasks[id].now == now &&
                 s'.log.clockReads == s.log.clockReads[id := now]))
  {
    hide Lru.Apply, Lru.Lookup, Validate;
  }

  lemma HandlerUnknown(s: State, id: nat)
    requires AnswerInv(s) && At(s, id) && s.tasks[id].Reading?
    ensures forall u :: !AdmittedBy(s.log.admitted, u, id)
  {
    hide OneReturn, ReturnOk;
    assert HandlerOk(s.log.admitted, id, s.tasks[id]);
  }

  lemma InsertRowCalls(s: State, id: nat, dbOk: bool)
    requires CallInv(s) && At(s, id) && s.tasks[id].Inserting?
    ensures CallInv(InsertRow(s, id, dbOk))
  {
    hide Insert, NewRow;
    var s' := InsertRow(s, id, dbOk);
    assert KnownTask(s.log, id, s.tasks[id]);
    forall j | j in s'.log.calls
      ensures CallOk(s', j)
    {
      assert CallOk(s, j);
    }
    forall u | u in s'.log.admitted
      ensures KnownAdmission(s'.log, u)
    {
      if u in s.log.admitted { assert KnownAdmission(s.log, u); }
    }
  }

  lemma SendFileCalls(s: State, id: nat)
    requires CallInv(s) && At(s, id) && s.tasks[id].Sending?
    ensures CallInv(SendFile(s, id))
  {
    var s' := SendFile(s, id);
    assert KnownTask(s.log, id, s.tasks[id]);
    forall j | j in s'.log.calls
      ensures CallOk(s', j)
    {
      assert CallOk(s, j);
    }
  }

  lemma RemoveAgreementCalls(s: State, id: nat)
    requires CallInv(s) && At(s, id) && s.tasks[id].Removing?
    ensures CallInv(RemoveAgreement(s, id))
  {
    hide Lru.Apply;
    var s' := RemoveAgreement(s, id);
    var n := |s.log.returned|;
    assert KnownTask(s.log, id, s.tasks[id]);
    assert s'.log.returned[n].handler == id;
    forall j | j in s'.log.calls
      ensures CallOk(s', j)
    {
      assert CallOk(s, j);
      if Answered(s.log.returned, j) {
        var i :| 0 <= i < n && s.log.returned[i].handler == j;
        assert s'.log.returned[i].handler == j;
      }
    }
  }

  lemma CallsKept(env: Env, s: State, a: Action)
    requires CallInv(s) && AnswerInv(s) && Enabled(env, s, a)
    ensures CallInv(Next(env, s, a))
  {
    hide CallInv, AnswerInv, Hello, Submit, ReadKey, InsertRow, SendFile, RemoveAgreement;
    match a
    case AHello(u, secret) => HelloCalls(s, u, secret);
    case ASubmit(u, call) => SubmitCalls(s, u, call);
    case AReadKey(id, now) => ReadKeyCalls(env, s, id, now);
    case AInsertRow(id, dbOk) => InsertRowCalls(s, id, dbOk);
    case ASendFile(id) => SendFileCalls(s, id);
    case ARemoveAgreement(id) => RemoveAgreementCalls(s, id);
    case _ =>
      hide Next, Enabled;
      ActionApart(env, s, a);
      CallFrame(s, Next(env, s, a));
  }

  lemma {:induction false} CallsInRun(env: Env, s: State, actions: seq<Action>)
    requires Inv(env, s) && CallInv(s) && Valid(env, s, actions)
    ensures CallInv(Final(env, s, actions))
    decreases |actions|
  {
    hide Next, Enabled, JobInv, SessionInv, AnswerInv, FlowInv, CallInv;
    if actions != [] {
      CallsKept(env, s, actions[0]);
      InvKept(env, s, actions[0]);
      CallsInRun(env, Next(env, s, actions[0]), actions[1..]);
    }
  }

  /** Every reachable state knows all its calls. */
  lemma CallsOfRun(env: Env, start: State, actions: seq<Action>)
    requires Init(start) && Valid(env, start, actions)
    ensures CallInv(Final(env, start, actions))
  {
    hide Valid, Final, Inv;
    InitInv(env, start);
    CallsInRun(env, start, actions);
  }
}
