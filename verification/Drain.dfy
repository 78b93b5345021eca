/** Termination: without new calls, every schedule ends, and it ends with nothing in
    flight. */
module Drain {
  import opened Base
  import opened Proofs
  import opened Machine
  import opened Jobs
  import opened Sessions
  import opened Answers
  import opened Flow
  import opened Runs
  import Lru

  // ----- a measure of outstanding work -----

  function Weight(t: Task): (w: nat)
    ensures w >= 1
  {
    match t
    case Reading(_, _) => 21
    case Inserting(_, _, _, _, _) => 20
    case Sending(_, _) => 19
    case Removing(_, _) => 1
    case MakeDir(_, _) => 16
    case MakeInput(_, _) => 15
    case WriteInput(_, _) => 14
    case SendWitness(_, _) => 13
    case Chmod(_, _) => 11
    case StartWitness(_, _) => 10
    case AwaitWitness(_, _, _) => 9
    case MarkWitness(_, _, _) => 8
    case SendProof(_, _) => 7
    case StartProof(_, _) => 5
    case AwaitProof(_, _, _) => 4
    case StoreProof(_, _, _, _) => 3
    case FailRow(_, _) => 2
    case RemoveDir(_) => 1
  }

  function WorkAt(tasks: map<nat, Task>, id: nat): nat {
    if id in tasks then Weight(tasks[id]) else 0
  }

  function TaskWork(tasks: map<nat, Task>, n: nat): nat {
    if n == 0 then 0 else TaskWork(tasks, n - 1) + WorkAt(tasks, n - 1)
  }

  ghost function Waiting<T>(q: Chan<T>): nat {
    if q.taken <= |q.sent| then |q.sent| - q.taken else 0
  }

  ghost function Measure(s: State): nat {
    17 * Waiting(s.fileQ) + 12 * Waiting(s.witnessQ) + 6 * Waiting(s.proofQ) + TaskWork(s.tasks, s.nextId)
  }

  /** Two maps of tasks that differ at one place. */
  lemma {:induction false} WorkDiffers(a: map<nat, Task>, b: map<nat, Task>, n: nat, id: nat)
    requires forall j :: j != id ==> WorkAt(a, j) == WorkAt(b, j)
    ensures TaskWork(b, n) - TaskWork(a, n) == if id < n then WorkAt(b, id) - WorkAt(a, id) else 0
  {
    if n > 0 {
      WorkDiffers(a, b, n - 1, id);
    }
  }

  /** What a step within the task `id` does to the measure. */
  lemma WithinTask(s: State, s': State, id: nat)
    requires id < s.nextId && s'.nextId == s.nextId
    requires forall j :: j != id ==> WorkAt(s.tasks, j) == WorkAt(s'.tasks, j)
    ensures Measure(s') - Measure(s) ==
            17 * (Waiting(s'.fileQ) - Waiting(s.fileQ)) + 12 * (Waiting(s'.witnessQ) - Waiting(s.witnessQ)) +
            6 * (Waiting(s'.proofQ) - Waiting(s.proofQ)) + WorkAt(s'.tasks, id) - WorkAt(s.tasks, id)
  {
    WorkDiffers(s.tasks, s'.tasks, s.nextId, id);
  }

  /** Receiving: what leaves the queue weighs more than the task it becomes. */
  lemma ReceiveDecreases(env: Env, s: State, a: Action)
    requires FlowInv(s) && Enabled(env, s, a) && (a.ARecvFile? || a.ARecvWitness? || a.ARecvProof?)
    ensures Measure(Next(env, s, a)) < Measure(s)
  {
    hide RecvFile, RecvWitness, RecvProof, Measure, FlowInv;
    match a
    case ARecvFile => SpawnDecreases(s);
    case ARecvWitness => SpawnDecreases(s);
    case ARecvProof => WorkerDecreases(s);
  }

  lemma SpawnDecreases(s: State)
    requires FlowInv(s)
    ensures s.fileQ.Ready() ==> Measure(RecvFile(s)) < Measure(s)
    ensures s.witnessQ.Ready() ==> Measure(RecvWitness(s)) < Measure(s)
  {
    hide OrderOk, AdmissionsOk, TimesOk, StampsOk;
    if s.fileQ.Ready() { WorkDiffers(s.tasks, RecvFile(s).tasks, s.nextId, s.nextId); }
    if s.witnessQ.Ready() { WorkDiffers(s.tasks, RecvWitness(s).tasks, s.nextId, s.nextId); }
  }

  lemma WorkerDecreases(s: State)
    requires FlowInv(s) && s.proofQ.Ready() && WORKER !in s.tasks
    ensures Measure(RecvProof(s)) < Measure(s)
  {
    hide OrderOk, AdmissionsOk, TimesOk, StampsOk, TaskWork;
    WithinTask(s, RecvProof(s), WORKER);
  }

  lemma HandlerDecreases(env: Env, s: State, a: Action)
    requires FlowInv(s) && Enabled(env, s, a) && (a.AReadKey? || a.AInsertRow? || a.ASendFile? || a.ARemoveAgreement?)
    ensures Measure(Next(env, s, a)) < Measure(s)
  {
    hide OrderOk, AdmissionsOk, TimesOk, StampsOk, Measure, ReadKey, InsertRow, SendFile, RemoveAgreement;
    match a
    case AReadKey(id, now) => ReadKeyDecreases(env, s, id, now);
    case AInsertRow(id, dbOk) => InsertDecreases(s, id, dbOk);
    case ASendFile(id) => SendFileDecreases(s, id);
    case ARemoveAgreement(id) => ReturnDecreases(s, id);
  }

  lemma ReadKeyDecreases(env: Env, s: State, id: nat, now: nat)
    requires TasksOk(s) && At(s, id) && s.tasks[id].Reading?
    ensures Measure(ReadKey(env, s, id, now)) < Measure(s)
  {
    hide Validate, Lru.Apply, Lru.Lookup, TaskWork;
    WithinTask(s, ReadKey(env, s, id, now), id);
  }

  lemma InsertDecreases(s: State, id: nat, dbOk: bool)
    requires TasksOk(s) && At(s, id) && s.tasks[id].Inserting?
    ensures Measure(InsertRow(s, id, dbOk)) < Measure(s)
  {
    hide TaskWork, Insert, NewRow;
    WithinTask(s, InsertRow(s, id, dbOk), id);
  }

  lemma SendFileDecreases(s: State, id: nat)
    requires TasksOk(s) && QueuesOk(s) && At(s, id) && s.tasks[id].Sending?
    ensures Measure(SendFile(s, id)) < Measure(s)
  {
    hide TaskWork;
    WithinTask(s, SendFile(s, id), id);
  }

  lemma ReturnDecreases(s: State, id: nat)
    requires TasksOk(s) && At(s, id) && s.tasks[id].Removing?
    ensures Measure(RemoveAgreement(s, id)) < Measure(s)
  {
    hide Lru.Apply, TaskWork;
    WithinTask(s, RemoveAgreement(s, id), id);
  }

  /** A step of one task that touches no queue and leaves the task lighter. */
  lemma TaskAdvances(s: State, s': State, id: nat)
    requires TasksOk(s) && id in s.tasks && s'.nextId == s.nextId
    requires s'.fileQ == s.fileQ && s'.witnessQ == s.witnessQ && s'.proofQ == s.proofQ
    requires forall j :: j != id ==> (j in s'.tasks <==> j in s.tasks) && (j in s.tasks ==> s'.tasks[j] == s.tasks[j])
    requires id in s'.tasks ==> Weight(s'.tasks[id]) < Weight(s.tasks[id])
    ensures Measure(s') < Measure(s)
  {
    WithinTask(s, s', id);
  }

  lemma FolderLighter(env: Env, s: State, a: Action)
    requires Enabled(env, s, a) && FolderAction(a)
    ensures At(Next(env, s, a), a.id) && Weight(Next(env, s, a).tasks[a.id]) < Weight(s.tasks[a.id])
  {
    hide DoMakeDir, DoMakeInput, DoWriteInput, Weight;
    if a.AMakeDir? { MakeDirLighter(s, a.id, a.err); } else { InputLighter(s, a.id, a.err); }
  }

  lemma MakeDirLighter(s: State, id: nat, err: Option<string>)
    requires At(s, id) && s.tasks[id].MakeDir?
    ensures var s' := DoMakeDir(s, id, err); At(s', id) && Weight(s'.tasks[id]) < Weight(s.tasks[id])
  {
  }

  lemma InputLighter(s: State, id: nat, err: Option<string>)
    requires At(s, id) && FileOk(s, id, err)
    ensures s.tasks[id].MakeInput? ==>
              var s' := DoMakeInput(s, id, err); At(s', id) && Weight(s'.tasks[id]) < Weight(s.tasks[id])
    ensures s.tasks[id].WriteInput? ==>
              var s' := DoWriteInput(s, id, err); At(s', id) && Weight(s'.tasks[id]) < Weight(s.tasks[id])
  {
  }

  lemma ChmodLighter(s: State, id: nat, err: Option<string>)
    requires At(s, id) && s.tasks[id].Chmod?
    ensures var s' := DoChmod(s, id, err); At(s', id) && Weight(s'.tasks[id]) < Weight(s.tasks[id])
  {
  }

  lemma StartLighter(s: State, id: nat)
    requires At(s, id)
    ensures s.tasks[id].StartWitness? ==>
              var s' := DoStartWitness(s, id); At(s', id) && Weight(s'.tasks[id]) < Weight(s.tasks[id])
    ensures s.tasks[id].StartProof? ==>
              var s' := DoStartProof(s, id); At(s', id) && Weight(s'.tasks[id]) < Weight(s.tasks[id])
  {
    hide GetDir;
  }

  lemma LaunchLighter(env: Env, s: State, a: Action)
    requires Enabled(env, s, a) && LaunchAction(a)
    ensures At(Next(env, s, a), a.id) && Weight(Next(env, s, a).tasks[a.id]) < Weight(s.tasks[a.id])
  {
    hide DoChmod, DoStartWitness, DoStartProof, Weight;
    if a.AChmod? { ChmodLighter(s, a.id, a.err); } else { StartLighter(s, a.id); }
  }

  lemma StageDecreases(env: Env, s: State, a: Action)
    requires FlowInv(s) && Enabled(env, s, a) && (FolderAction(a) || LaunchAction(a))
    ensures Measure(Next(env, s, a)) < Measure(s)
  {
    hide OrderOk, AdmissionsOk, TimesOk, QueuesOk, TaskWork, Weight, Next;
    if FolderAction(a) {
      FolderLighter(env, s, a);
      FileTaskMoves(env, s, a);
    } else {
      LaunchLighter(env, s, a);
      ProgramTaskMoves(env, s, a);
    }
    TaskAdvances(s, Next(env, s, a), a.id);
  }

  lemma SendDecreases(env: Env, s: State, a: Action)
    requires FlowInv(s) && Enabled(env, s, a) && (a.ASendWitness? || a.ASendProof?)
    ensures Measure(Next(env, s, a)) < Measure(s)
  {
    hide OrderOk, AdmissionsOk, TimesOk, TaskWork;
    WithinTask(s, Next(env, s, a), a.id);
  }

  lemma WitnessDecreases(env: Env, s: State, id: nat, err: Option<string>, out: Option<Wtns>, now: nat)
    requires TasksOk(s) && At(s, id) && s.tasks[id].AwaitWitness?
    ensures Measure(DoAwaitWitness(env, s, id, err, out, now)) < Measure(s)
  {
    hide TaskWork, LeaveWitness;
    TaskAdvances(s, DoAwaitWitness(env, s, id, err, out, now), id);
  }

  lemma ProverDecreases(env: Env, s: State, id: nat, err: Option<string>, proof: Option<string>, publics: Option<string>, now: nat)
    requires TasksOk(s) && At(s, id) && s.tasks[id].AwaitProof?
    ensures Measure(DoAwaitProof(env, s, id, err, proof, publics, now)) < Measure(s)
  {
    hide TaskWork, LeaveProof, ProverFault, Parsed;
    TaskAdvances(s, DoAwaitProof(env, s, id, err, proof, publics, now), id);
  }

  lemma ProgramDecreases(env: Env, s: State, a: Action)
    requires FlowInv(s) && Enabled(env, s, a) && EndingAction(a)
    ensures Measure(Next(env, s, a)) < Measure(s)
  {
    hide OrderOk, AdmissionsOk, TimesOk, QueuesOk, Measure, DoAwaitWitness, DoAwaitProof;
    match a
    case AAwaitWitness(id, err, out, now) => WitnessDecreases(env, s, id, err, out, now);
    case AAwaitProof(id, err, p, q, now) => ProverDecreases(env, s, id, err, p, q, now);
  }

  lemma MarkDecreases(s: State, id: nat, dbErr: Option<string>)
    requires TasksOk(s) && At(s, id) && s.tasks[id].MarkWitness?
    ensures Measure(DoMarkWitness(s, id, dbErr)) < Measure(s)
  {
    hide TaskWork, Update;
    TaskAdvances(s, DoMarkWitness(s, id, dbErr), id);
  }

  lemma StoreDecreases(s: State, id: nat, dbErr: Option<string>)
    requires TasksOk(s) && At(s, id) && s.tasks[id].StoreProof?
    ensures Measure(DoStoreProof(s, id, dbErr)) < Measure(s)
  {
    hide TaskWork, Update;
    TaskAdvances(s, DoStoreProof(s, id, dbErr), id);
  }

  lemma FailDecreases(s: State, id: nat, dbOk: bool)
    requires TasksOk(s) && At(s, id) && s.tasks[id].FailRow?
    ensures Measure(DoFailRow(s, id, dbOk)) < Measure(s)
  {
    hide TaskWork, Update;
    TaskAdvances(s, DoFailRow(s, id, dbOk), id);
  }

  lemma StatementDecreases(env: Env, s: State, a: Action)
    requires FlowInv(s) && Enabled(env, s, a) && StatementAction(a)
    ensures Measure(Next(env, s, a)) < Measure(s)
  {
    hide OrderOk, AdmissionsOk, TimesOk, QueuesOk, Measure, DoMarkWitness, DoStoreProof, DoFailRow;
    match a
    case AMarkWitness(id, dbErr) => MarkDecreases(s, id, dbErr);
    case AStoreProof(id, dbErr) => StoreDecreases(s, id, dbErr);
    case AFailRow(id, dbOk) => FailDecreases(s, id, dbOk);
  }

  lemma RemoveDirDecreases(env: Env, s: State, a: Action)
    requires FlowInv(s) && Enabled(env, s, a) && a.ARemoveDir?
    ensures Measure(Next(env, s, a)) < Measure(s)
  {
    hide OrderOk, AdmissionsOk, TimesOk, QueuesOk, TaskWork;
    TaskAdvances(s, Next(env, s, a), a.id);
  }

  /** Every action other than a new call leaves less work. */
  lemma StepDecreases(env: Env, s: State, a: Action)
    requires FlowInv(s) && Enabled(env, s, a) && !Calls(a)
    ensures Measure(Next(env, s, a)) < Measure(s)
  {
    hide FlowInv, Enabled, Next, Measure;
    if {
      case a.ARecvFile? || a.ARecvWitness? || a.ARecvProof? => ReceiveDecreases(env, s, a);
      case a.AReadKey? || a.AInsertRow? || a.ASendFile? || a.ARemoveAgreement? => HandlerDecreases(env, s, a);
      case FolderAction(a) || LaunchAction(a) => StageDecreases(env, s, a);
      case a.ASendWitness? || a.ASendProof? => SendDecreases(env, s, a);
      case EndingAction(a) => ProgramDecreases(env, s, a);
      case StatementAction(a) => StatementDecreases(env, s, a);
      case a.ARemoveDir? => RemoveDirDecreases(env, s, a);
    }
  }

  /** Termination: a run without new calls is no longer than the work there is. */
  lemma {:induction false} RunsEnd(env: Env, s: State, actions: seq<Action>)
    requires Inv(env, s) && Valid(env, s, actions)
    requires forall i :: 0 <= i < |actions| ==> !Calls(actions[i])
    ensures |actions| <= Measure(s) - Measure(Final(env, s, actions))
    decreases |actions|
  {
    hide Next, Enabled, JobInv, SessionInv, AnswerInv, FlowInv, Measure;
    if actions != [] {
      StepDecreases(env, s, actions[0]);
      InvKept(env, s, actions[0]);
      RunsEnd(env, Next(env, s, actions[0]), actions[1..]);
    }
  }

  // ----- progress -----

  ghost predicate Idle(s: State) {
    s.tasks == map[] && !s.fileQ.Ready() && !s.witnessQ.Ready() && !s.proofQ.Ready()
  }

  /** The task waits for room in a queue. */
  predicate Blocked(s: State, id: nat)
    requires id in s.tasks
  {
    match s.tasks[id]
    case Sending(_, _) => !s.fileQ.Room()
    case SendWitness(_, _) => !s.witnessQ.Room()
    case SendProof(_, _) => !s.proofQ.Room()
    case _ => false
  }

  /** Who can go on: a loop whose queue has an entry, or a task that is not blocked. */
  ghost predicate CanGoOn(s: State) {
    || s.fileQ.Ready() || s.witnessQ.Ready()
    || (s.proofQ.Ready() && WORKER !in s.tasks)
    || exists id :: id in s.tasks && !Blocked(s, id)
  }

  /** Downstream first: the worker never waits for room, so the third queue empties; the
      two loops before it only spawn. Hence something can always go on. */
  lemma NotStuck(s: State)
    requires FlowInv(s) && !Idle(s)
    ensures CanGoOn(s)
  {
    hide OrderOk, AdmissionsOk, TimesOk;
    if WORKER in s.tasks {
      assert !Blocked(s, WORKER);
    } else if !s.fileQ.Ready() && !s.witnessQ.Ready() && !s.proofQ.Ready() {
      assert s.tasks != map[];
      var id :| id in s.tasks;
      assert !Blocked(s, id);
    }
  }

  /** One way in which the outside world may answer: programs, files and statements all
      fail, so it is always allowed. */
  ghost function FailingStep(s: State, id: nat): Action
    requires id in s.tasks
  {
    var e := Some("failed");
    match s.tasks[id]
    case Reading(_, _) => AReadKey(id, s.log.clock)
    case Inserting(_, _, _, _, _) => AInsertRow(id, false)
    case Sending(_, _) => ASendFile(id)
    case Removing(_, _) => ARemoveAgreement(id)
    case MakeDir(_, _) => AMakeDir(id, e)
    case MakeInput(_, _) => AMakeInput(id, e)
    case WriteInput(_, _) => AWriteInput(id, e)
    case SendWitness(_, _) => ASendWitness(id)
    case Chmod(_, _) => AChmod(id, e)
    case StartWitness(_, _) => AStartWitness(id)
    case AwaitWitness(_, _, _) => AAwaitWitness(id, e, None, s.log.clock)
    case MarkWitness(_, _, _) => AMarkWitness(id, e)
    case SendProof(_, _) => ASendProof(id)
    case StartProof(_, _) => AStartProof(id)
    case AwaitProof(_, _, _) => AAwaitProof(id, e, None, None, s.log.clock)
    case StoreProof(_, _, _, _) => AStoreProof(id, e)
    case FailRow(_, _) => AFailRow(id, false)
    case RemoveDir(_) => ARemoveDir(id, None)
  }

  lemma FailingEnabled(env: Env, s: State, id: nat)
    requires id in s.tasks && !Blocked(s, id)
    ensures Enabled(env, s, FailingStep(s, id)) && !Calls(FailingStep(s, id))
  {
  }

  /** A send waits for room and for nothing else: it is enabled exactly while fewer than ten
      entries wait in its queue. The statements and the removal of a folder wait for
      nothing and may go either way. */
  lemma SendsAndStatements(env: Env, s: State, id: nat)
    requires At(s, id)
    ensures s.tasks[id].Sending? ==> (Enabled(env, s, ASendFile(id)) <==> |s.fileQ.sent| - s.fileQ.taken < 10)
    ensures s.tasks[id].SendWitness? ==> (Enabled(env, s, ASendWitness(id)) <==> |s.witnessQ.sent| - s.witnessQ.taken < 10)
    ensures s.tasks[id].SendProof? ==> (Enabled(env, s, ASendProof(id)) <==> |s.proofQ.sent| - s.proofQ.taken < 10)
    ensures s.tasks[id].Inserting? ==> forall ok :: Enabled(env, s, AInsertRow(id, ok))
    ensures s.tasks[id].MarkWitness? ==> forall err :: Enabled(env, s, AMarkWitness(id, err))
    ensures s.tasks[id].StoreProof? ==> forall err :: Enabled(env, s, AStoreProof(id, err))
    ensures s.tasks[id].FailRow? ==> forall ok :: Enabled(env, s, AFailRow(id, ok))
    ensures s.tasks[id].RemoveDir? ==> forall left :: Enabled(env, s, ARemoveDir(id, left))
  {
  }

  /** Progress: while anything is in flight, some action other than a call is enabled. */
  lemma Progress(env: Env, s: State) returns (a: Action)
    requires FlowInv(s) && !Idle(s)
    ensures Enabled(env, s, a) && !Calls(a)
  {
    hide FlowInv, Blocked, FailingStep;
    NotStuck(s);
    if s.fileQ.Ready() {
      a := ARecvFile;
    } else if s.witnessQ.Ready() {
      a := ARecvWitness;
    } else if s.proofQ.Ready() && WORKER !in s.tasks {
      a := ARecvProof;
    } else {
      var id :| id in s.tasks && !Blocked(s, id);
      a := FailingStep(s, id);
      FailingEnabled(env, s, id);
    }
  }

  /** The actions are those that `pick` chooses, one state after the other, none of the
      states being idle before the last. */
  ghost predicate PickedBy(env: Env, s: State, pick: State -> Action, actions: seq<Action>)
    requires Valid(env, s, actions)
    decreases |actions|
  {
    actions == [] ||
    (!Idle(s) && actions[0] == pick(s) && PickedBy(env, Next(env, s, actions[0]), pick, actions[1..]))
  }

  /** Draining: whatever scheduler and outside world `pick` stands for, following it
      without new calls comes to an idle state within the work there was. */
  lemma {:induction false} Drains(env: Env, s: State, pick: State -> Action) returns (actions: seq<Action>)
    requires Inv(env, s)
    requires forall t :: Inv(env, t) && !Idle(t) ==> Enabled(env, t, pick(t)) && !Calls(pick(t))
    ensures Valid(env, s, actions) && PickedBy(env, s, pick, actions) && |actions| <= Measure(s)
    ensures forall i :: 0 <= i < |actions| ==> !Calls(actions[i])
    ensures Idle(Final(env, s, actions)) && Inv(env, Final(env, s, actions))
    decreases Measure(s)
  {
    hide Next, Enabled, JobInv, SessionInv, AnswerInv, FlowInv, Measure, Idle;
    if Idle(s) {
      actions := [];
    } else {
      var a := pick(s);
      StepDecreases(env, s, a);
      InvKept(env, s, a);
      var rest := Drains(env, Next(env, s, a), pick);
      actions := [a] + rest;
      assert actions[0] == a && actions[1..] == rest;
    }
  }

  /** The drained server: a row of this run is terminal if and only if the database did
      not refuse to fail it, and carries a proof if and only if its request met no fault;
      its folder is left if and only if it could not be removed; every job has ended. */
  lemma Drained(env: Env, s: State, u: Uuid)
    requires Inv(env, s) && Idle(s) && u !in s.log.prior
    ensures u in s.table.rows ==> u in s.log.ended
    ensures u in s.table.rows ==> (Terminal(s.table.rows[u]) <==> u !in s.log.unfailed)
    ensures u in s.table.rows ==> (s.table.rows[u].status == ProofGenerated <==> u !in s.log.reported)
    ensures u in s.dirs <==> u in s.log.leaked
    ensures |s.log.proved| == |s.proofQ.sent|
  {
    hide JobOk, RecordOk, Mirrored, SessionInv, FlowInv, NoDup, StatusHistory;
    assert forall sl :: Held(s, sl).None?;
    assert u !in s.table.rows ==> Untouched(Look(s, u));
    WorkerDone(s);
  }

  lemma WorkerDone(s: State)
    requires FlowInv(s) && Idle(s)
    ensures |s.log.proved| == |s.proofQ.sent|
  {
    assert s.proofQ.sent[..s.proofQ.taken] == s.proofQ.sent;
  }
}
