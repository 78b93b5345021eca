/** The traffic of the pipeline: bounded queues, a single proof worker that serves them
    in order, one admission a request, and time stamps that never run ahead of the clock. */
module Flow {
  import opened Base
  import opened Paths
  import opened Proofs
  import opened Machine

  /** Task numbers are below the next one to be given out; only the worker proves. */
  ghost predicate TasksOk(s: State) {
    && s.nextId >= 1
    && forall id :: id in s.tasks ==>
         id < s.nextId && if id == WORKER then WorkerStage(s.tasks[id]) else !WorkerOnly(s.tasks[id])
  }

  ghost predicate QueuesOk(s: State) {
    s.fileQ.Ok() && s.witnessQ.Ok() && s.proofQ.Ok()
  }

  ghost function Uuids(q: seq<ProofGenerator>): seq<Uuid> {
    seq(|q|, i requires 0 <= i < |q| => q[i].uuid)
  }

  /** The requests the worker has been given are those it is done with, in the same
      order, and then the one it works on. */
  ghost predicate OrderOk(s: State) {
    && s.proofQ.taken <= |s.proofQ.sent|
    && Uuids(s.proofQ.sent[..s.proofQ.taken]) ==
       s.log.proved + if WORKER in s.tasks then [s.tasks[WORKER].uuid] else []
  }

  /** At most one submission was ever admitted for a request. */
  ghost predicate AdmissionsOk(log: History) {
    NoDup(log.admissions) && forall u :: u in log.admissions <==> u in log.admitted
  }

  ghost predicate StampedBy(r: Row, clock: nat) {
    && r.createdAt <= clock
    && (r.witnessAt.Some? ==> r.witnessAt.value <= clock)
    && (r.proofAt.Some? ==> r.proofAt.value <= clock)
  }

  ghost predicate TimesOk(t: Table, log: History) {
    forall u :: u in log.admitted ==> u in t.rows && StampedBy(t.rows[u], log.clock)
  }

  /** The time a task has read for the statement it is about to make. */
  function Stamp(t: Task): nat {
    if t.Inserting? || t.MarkWitness? || t.StoreProof? then t.now else 0
  }

  ghost predicate StampsOk(tasks: map<nat, Task>, clock: nat) {
    forall id :: id in tasks ==> Stamp(tasks[id]) <= clock
  }

  ghost predicate FlowInv(s: State) {
    && TasksOk(s) && QueuesOk(s) && OrderOk(s)
    && AdmissionsOk(s.log) && TimesOk(s.table, s.log) && StampsOk(s.tasks, s.log.clock)
  }

  lemma UuidsAppend(q: seq<ProofGenerator>, g: ProofGenerator)
    ensures Uuids(q + [g]) == Uuids(q) + [g.uuid]
  {
  }

  /** A step within one task that writes no row and leaves queues and history alone. */
  lemma FlowWithin(s: State, s': State, id: nat, t: Task)
    requires FlowInv(s) && At(s, id) && t.uuid == s.tasks[id].uuid
    requires if id == WORKER then WorkerStage(t) else !WorkerOnly(t)
    requires s'.tasks == s.tasks[id := t] && s'.nextId == s.nextId
    requires s'.fileQ == s.fileQ && s'.witnessQ == s.witnessQ && s'.proofQ == s.proofQ
    requires s'.log.proved == s.log.proved && s'.log.admissions == s.log.admissions && s'.log.admitted == s.log.admitted
    requires TimesOk(s'.table, s'.log) && Stamp(t) <= s'.log.clock && s.log.clock <= s'.log.clock
    ensures FlowInv(s')
  {
    hide TimesOk;
  }

  lemma UpdateTimes(t: Table, log: History, u: Uuid, row: Row)
    requires TimesOk(t, log)
    requires u in log.admitted ==> StampedBy(row, log.clock)
    ensures TimesOk(Update(t, u, row), log)
  {
  }

  lemma LaterTimes(t: Table, log: History, log': History)
    requires TimesOk(t, log) && log'.admitted == log.admitted && log'.clock >= log.clock
    ensures TimesOk(t, log')
  {
  }

  lemma HelloFlow(s: State, u: Uuid, secret: Bytes)
    requires FlowInv(s)
    ensures FlowInv(Hello(s, u, secret))
  {
    hide Uuids;
  }

  lemma SubmitFlow(s: State, u: Uuid, call: Call)
    requires FlowInv(s)
    ensures FlowInv(Submit(s, u, call))
  {
    hide TimesOk, Uuids;
    LaterTimes(s.table, s.log, Submit(s, u, call).log);
  }

  lemma ReadKeyFlow(env: Env, s: State, id: nat, now: nat)
    requires FlowInv(s) && At(s, id) && s.tasks[id].Reading? && now >= s.log.clock
    ensures FlowInv(ReadKey(env, s, id, now))
  {
    hide Validate, AdmissionsOk, OrderOk, QueuesOk, StampsOk, TimesOk;
    var s' := ReadKey(env, s, id, now);
    LaterTimes(s.table, s.log, s'.log);
    FlowWithin(s, s', id, s'.tasks[id]);
  }

  lemma InsertRowFlow(s: State, id: nat, dbOk: bool)
    requires FlowInv(s) && At(s, id) && s.tasks[id].Inserting?
    ensures FlowInv(InsertRow(s, id, dbOk))
  {
    var t, s' := s.tasks[id], InsertRow(s, id, dbOk);
    if !dbOk || t.uuid in s.table.rows {
      FlowWithin(s, s', id, s'.tasks[id]);
    } else {
      InsertedAdmissions(s.log, t.uuid, Admission(t.call, t.submit, t.key, id, t.now));
    }
  }

  lemma InsertedAdmissions(log: History, u: Uuid, adm: Admission)
    requires AdmissionsOk(log) && u !in log.admitted
    ensures AdmissionsOk(log.(admitted := log.admitted[u := adm], admissions := log.admissions + [u]))
  {
    forall i | 0 <= i < |log.admissions|
      ensures log.admissions[i] != u
    {
      assert log.admissions[i] in log.admissions;
    }
    assert forall v :: v in log.admissions + [u] <==> v in log.admissions || v == u;
  }

  lemma SendFileFlow(s: State, id: nat)
    requires FlowInv(s) && At(s, id) && s.tasks[id].Sending? && s.fileQ.Room()
    ensures FlowInv(SendFile(s, id))
  {
    hide TimesOk, AdmissionsOk;
  }

  lemma RemoveAgreementFlow(s: State, id: nat)
    requires FlowInv(s) && At(s, id) && s.tasks[id].Removing?
    ensures FlowInv(RemoveAgreement(s, id))
  {
    hide Uuids;
  }

  lemma RecvFlow(s: State)
    requires FlowInv(s)
    ensures s.fileQ.Ready() ==> FlowInv(RecvFile(s))
    ensures s.witnessQ.Ready() ==> FlowInv(RecvWitness(s))
  {
    hide TimesOk, AdmissionsOk;
  }

  lemma SendWitnessFlow(s: State, id: nat)
    requires FlowInv(s) && At(s, id) && s.tasks[id].SendWitness? && s.witnessQ.Room()
    ensures FlowInv(DoSendWitness(s, id))
  {
    hide TimesOk, AdmissionsOk;
  }

  lemma SendProofFlow(s: State, id: nat)
    requires FlowInv(s) && At(s, id) && s.tasks[id].SendProof? && s.proofQ.Room()
    ensures FlowInv(DoSendProof(s, id))
  {
    hide TimesOk, AdmissionsOk;
    var q, q' := s.proofQ, DoSendProof(s, id).proofQ;
    assert q'.sent[..q.taken] == q.sent[..q.taken];
  }

  lemma RecvProofFlow(s: State)
    requires FlowInv(s) && s.proofQ.Ready() && WORKER !in s.tasks
    ensures FlowInv(RecvProof(s))
  {
    hide TimesOk, AdmissionsOk;
    var q := s.proofQ;
    UuidsAppend(q.sent[..q.taken], q.sent[q.taken]);
    assert q.sent[..q.taken + 1] == q.sent[..q.taken] + [q.sent[q.taken]];
  }

  lemma MarkWitnessFlow(s: State, id: nat, dbErr: Option<string>)
    requires FlowInv(s) && At(s, id) && s.tasks[id].MarkWitness?
    ensures FlowInv(DoMarkWitness(s, id, dbErr))
  {
    hide AdmissionsOk, OrderOk, QueuesOk;
    var t, s' := s.tasks[id], DoMarkWitness(s, id, dbErr);
    if dbErr.None? && t.uuid in s.table.rows {
      UpdateTimes(s.table, s.log, t.uuid, WitnessRow(s.table.rows[t.uuid], t.now));
    }
    FlowWithin(s, s', id, s'.tasks[id]);
  }

  lemma StoreProofFlow(s: State, id: nat, dbErr: Option<string>)
    requires FlowInv(s) && At(s, id) && s.tasks[id].StoreProof?
    ensures FlowInv(DoStoreProof(s, id, dbErr))
  {
    hide AdmissionsOk, OrderOk, QueuesOk;
    var t, s' := s.tasks[id], DoStoreProof(s, id, dbErr);
    if dbErr.None? && t.uuid in s.table.rows {
      UpdateTimes(s.table, s.log, t.uuid, ProofRow(s.table.rows[t.uuid], t.now, t.proof, t.publicInputs));
    }
    FlowWithin(s, s', id, s'.tasks[id]);
  }

  lemma FailRowFlow(s: State, id: nat, dbOk: bool)
    requires FlowInv(s) && At(s, id) && s.tasks[id].FailRow?
    ensures FlowInv(DoFailRow(s, id, dbOk))
  {
    hide AdmissionsOk, OrderOk, QueuesOk;
    var t, s' := s.tasks[id], DoFailRow(s, id, dbOk);
    if dbOk && t.uuid in s.table.rows {
      UpdateTimes(s.table, s.log, t.uuid, FailedRow(s.table.rows[t.uuid], t.reason));
    }
    FlowWithin(s, s', id, s'.tasks[id]);
  }

  /** The worker is done with a request when its folder is gone. */
  lemma RemoveDirFlow(s: State, id: nat, left: Option<Dir>)
    requires FlowInv(s) && At(s, id) && s.tasks[id].RemoveDir?
    ensures FlowInv(DoRemoveDir(s, id, left))
  {
    hide Uuids;
  }

  // ----- steps within one task -----

  /** Nothing of the traffic changes but the stage of the task `id`; on the way its
      fault, its witness and the time may be noted. */
  ghost predicate StageMoves(s: State, s': State, id: nat)
    requires At(s, id)
  {
    && At(s', id) && s'.tasks[id].uuid == s.tasks[id].uuid
    && (WorkerStage(s.tasks[id]) ==> WorkerStage(s'.tasks[id]))
    && (!WorkerOnly(s.tasks[id]) ==> !WorkerOnly(s'.tasks[id]))
    && s'.tasks == s.tasks[id := s'.tasks[id]] && s'.nextId == s.nextId
    && s'.fileQ == s.fileQ && s'.witnessQ == s.witnessQ && s'.proofQ == s.proofQ
    && s'.table == s.table && s'.store == s.store
    && s'.log == s.log.(reported := s'.log.reported, witnessed := s'.log.witnessed, finished := s'.log.finished, clock := s'.log.clock)
    && s.log.clock <= s'.log.clock
    && !HandlerTask(s.tasks[id]) && !HandlerTask(s'.tasks[id]) && Stamp(s'.tasks[id]) <= s'.log.clock
  }

  lemma MakeDirMoves(s: State, id: nat, err: Option<string>)
    requires At(s, id) && s.tasks[id].MakeDir?
    ensures StageMoves(s, DoMakeDir(s, id, err), id)
  {
  }

  lemma MakeInputMoves(s: State, id: nat, err: Option<string>)
    requires At(s, id) && s.tasks[id].MakeInput? && FileOk(s, id, err)
    ensures StageMoves(s, DoMakeInput(s, id, err), id)
  {
  }

  lemma WriteInputMoves(s: State, id: nat, err: Option<string>)
    requires At(s, id) && s.tasks[id].WriteInput? && FileOk(s, id, err)
    ensures StageMoves(s, DoWriteInput(s, id, err), id)
  {
  }

  lemma FileTaskMoves(env: Env, s: State, a: Action)
    requires Enabled(env, s, a) && (a.AMakeDir? || a.AMakeInput? || a.AWriteInput?)
    ensures At(s, a.id) && StageMoves(s, Next(env, s, a), a.id)
  {
    hide DoMakeDir, DoMakeInput, DoWriteInput, StageMoves;
    match a
    case AMakeDir(id, err) => MakeDirMoves(s, id, err);
    case AMakeInput(id, err) => MakeInputMoves(s, id, err);
    case AWriteInput(id, err) => WriteInputMoves(s, id, err);
  }

  lemma ChmodMoves(s: State, id: nat, err: Option<string>)
    requires At(s, id) && s.tasks[id].Chmod?
    ensures StageMoves(s, DoChmod(s, id, err), id)
  {
  }

  lemma StartMoves(s: State, id: nat)
    requires At(s, id)
    ensures s.tasks[id].StartWitness? ==> StageMoves(s, DoStartWitness(s, id), id)
    ensures s.tasks[id].StartProof? ==> StageMoves(s, DoStartProof(s, id), id)
  {
    hide GetDir;
  }

  lemma ProgramTaskMoves(env: Env, s: State, a: Action)
    requires Enabled(env, s, a) && (a.AChmod? || a.AStartWitness? || a.AStartProof?)
    ensures At(s, a.id) && StageMoves(s, Next(env, s, a), a.id)
  {
    hide DoChmod, DoStartWitness, DoStartProof, StageMoves;
    match a
    case AChmod(id, err) => ChmodMoves(s, id, err);
    case AStartWitness(id) => StartMoves(s, id);
    case AStartProof(id) => StartMoves(s, id);
  }

  lemma AwaitWitnessMoves(env: Env, s: State, id: nat, err: Option<string>, out: Option<Wtns>, now: nat)
    requires At(s, id) && s.tasks[id].AwaitWitness? && now >= s.log.clock
    requires err.Some? || s.tasks[id].name in env.zkeys
    ensures StageMoves(s, DoAwaitWitness(env, s, id, err, out, now), id)
  {
    hide DoAwaitWitness, WorkerStage, WorkerOnly, HandlerTask;
    AwaitWitnessTask(env, s, id, err, out, now);
    AwaitWitnessLeaves(env, s, id, err, out, now);
  }

  lemma AwaitWitnessTask(env: Env, s: State, id: nat, err: Option<string>, out: Option<Wtns>, now: nat)
    requires At(s, id) && s.tasks[id].AwaitWitness? && now >= s.log.clock
    requires err.Some? || s.tasks[id].name in env.zkeys
    ensures var t, s' := s.tasks[id], DoAwaitWitness(env, s, id, err, out, now);
            && At(s', id) && s'.tasks == s.tasks[id := s'.tasks[id]] && s'.tasks[id].uuid == t.uuid
            && !WorkerStage(t) && !WorkerOnly(s'.tasks[id]) && !HandlerTask(t) && !HandlerTask(s'.tasks[id])
            && s.log.clock <= s'.log.clock && Stamp(s'.tasks[id]) <= s'.log.clock
  {
    hide Join, LeaveWitness, WithFault;
  }

  lemma AwaitWitnessLeaves(env: Env, s: State, id: nat, err: Option<string>, out: Option<Wtns>, now: nat)
    requires At(s, id) && s.tasks[id].AwaitWitness?
    requires err.Some? || s.tasks[id].name in env.zkeys
    ensures var s' := DoAwaitWitness(env, s, id, err, out, now);
            && s'.nextId == s.nextId && s'.fileQ == s.fileQ && s'.witnessQ == s.witnessQ && s'.proofQ == s.proofQ
            && s'.table == s.table && s'.store == s.store
            && s'.log == s.log.(reported := s'.log.reported, witnessed := s'.log.witnessed, finished := s'.log.finished, clock := s'.log.clock)
  {
    hide Join, LeaveWitness, WithFault;
  }

  lemma AwaitProofMoves(env: Env, s: State, id: nat, err: Option<string>, proof: Option<string>, publics: Option<string>, now: nat)
    requires At(s, id) && s.tasks[id].AwaitProof? && now >= s.log.clock
    ensures StageMoves(s, DoAwaitProof(env, s, id, err, proof, publics, now), id)
  {
    hide ProverFault, Parsed, LeaveProof;
  }

  lemma StageFlow(s: State, s': State, id: nat)
    requires FlowInv(s) && At(s, id) && StageMoves(s, s', id)
    ensures FlowInv(s')
  {
    hide QueuesOk, OrderOk, AdmissionsOk, StampsOk, TimesOk;
    LaterTimes(s.table, s.log, s'.log);
    FlowWithin(s, s', id, s'.tasks[id]);
  }

  /** The end of a witness program; a panic would only end the task. */
  lemma AwaitWitnessFlow(env: Env, s: State, id: nat, err: Option<string>, out: Option<Wtns>, now: nat)
    requires FlowInv(s) && At(s, id) && s.tasks[id].AwaitWitness? && now >= s.log.clock
    ensures FlowInv(DoAwaitWitness(env, s, id, err, out, now))
  {
    hide Uuids, Join, LeaveWitness, StageMoves;
    if err.Some? || s.tasks[id].name in env.zkeys {
      hide DoAwaitWitness;
      AwaitWitnessMoves(env, s, id, err, out, now);
      StageFlow(s, DoAwaitWitness(env, s, id, err, out, now), id);
    }
  }

  lemma AwaitProofFlow(env: Env, s: State, id: nat, err: Option<string>, proof: Option<string>, publics: Option<string>, now: nat)
    requires FlowInv(s) && At(s, id) && s.tasks[id].AwaitProof? && now >= s.log.clock
    ensures FlowInv(DoAwaitProof(env, s, id, err, proof, publics, now))
  {
    hide FlowInv, DoAwaitProof, StageMoves;
    AwaitProofMoves(env, s, id, err, proof, publics, now);
    StageFlow(s, DoAwaitProof(env, s, id, err, proof, publics, now), id);
  }

  /** The remaining steps within one task. */
  lemma TaskFlow(env: Env, s: State, a: Action)
    requires FlowInv(s) && Enabled(env, s, a)
    requires a.AMakeDir? || a.AMakeInput? || a.AWriteInput? || a.AChmod? || a.AStartWitness? || a.AStartProof?
    ensures FlowInv(Next(env, s, a))
  {
    hide FlowInv, Next, Enabled, StageMoves;
    if a.AMakeDir? || a.AMakeInput? || a.AWriteInput? {
      FileTaskMoves(env, s, a);
    } else {
      ProgramTaskMoves(env, s, a);
    }
    StageFlow(s, Next(env, s, a), a.id);
  }
}
