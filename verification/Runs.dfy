/** The invariant over whole runs, and what it says of every reachable state. */
module Runs {
  import opened Proofs
  import opened Machine
  import opened Jobs
  import opened Sessions
  import opened Answers
  import opened Flow
  import JobSteps

  ghost predicate Inv(env: Env, s: State) {
    JobInv(env, s) && SessionInv(env, s) && AnswerInv(s) && FlowInv(s)
  }

  // ----- one step -----

  lemma JobsKept(env: Env, s: State, a: Action)
    requires Inv(env, s) && Enabled(env, s, a)
    ensures JobInv(env, Next(env, s, a))
  {
    hide JobInv, AnswerInv, AdmissionsOk, OrderOk, StoredOk, ReturnedOk, AdmittedOk;
    hide Hello, Submit, ReadKey, InsertRow, SendFile, RemoveAgreement;
    match a
    case AHello(u, secret) => JobSteps.HelloJobs(env, s, u, secret);
    case ASubmit(u, call) => JobSteps.SubmitJobs(env, s, u, call);
    case AReadKey(id, now) => JobSteps.ReadKeyJobs(env, s, id, now);
    case AInsertRow(id, dbOk) => JobSteps.InsertRowJobs(env, s, id, dbOk);
    case ASendFile(id) => JobSteps.SendFileJobs(env, s, id);
    case ARemoveAgreement(id) => JobSteps.RemoveAgreementJobs(env, s, id);
    case _ =>
      hide Next, Enabled;
      PipelineKept(env, s, a);
  }

  lemma PipelineKept(env: Env, s: State, a: Action)
    requires JobInv(env, s) && FlowInv(s) && Enabled(env, s, a) && !SessionAction(a) && !a.ASubmit?
    ensures JobInv(env, Next(env, s, a))
  {
    hide JobInv, AdmissionsOk, OrderOk, StampsOk;
    hide RecvFile, DoMakeDir, DoMakeInput, DoWriteInput, DoSendWitness, RecvWitness, DoChmod, DoStartWitness;
    hide DoAwaitWitness, DoMarkWitness, DoSendProof, RecvProof, DoStartProof, DoAwaitProof, DoStoreProof;
    hide DoFailRow, DoRemoveDir, WitnessOk, ProverOk;
    match a
    case ARecvFile => JobSteps.RecvFileJobs(env, s);
    case AMakeDir(id, err) => JobSteps.MakeDirJobs(env, s, id, err);
    case AMakeInput(id, err) => JobSteps.MakeInputJobs(env, s, id, err);
    case AWriteInput(id, err) => JobSteps.WriteInputJobs(env, s, id, err);
    case ASendWitness(id) => JobSteps.SendWitnessJobs(env, s, id);
    case ARecvWitness => JobSteps.RecvWitnessJobs(env, s);
    case AChmod(id, err) => JobSteps.ChmodJobs(env, s, id, err);
    case AStartWitness(id) => JobSteps.StartWitnessJobs(env, s, id);
    case AAwaitWitness(id, err, out, now) => JobSteps.AwaitWitnessJobs(env, s, id, err, out, now);
    case AMarkWitness(id, dbErr) => JobSteps.MarkWitnessJobs(env, s, id, dbErr);
    case ASendProof(id) => JobSteps.SendProofJobs(env, s, id);
    case ARecvProof => JobSteps.RecvProofJobs(env, s);
    case AStartProof(id) => JobSteps.StartProofJobs(env, s, id);
    case AAwaitProof(id, err, p, q, now) => JobSteps.AwaitProofJobs(env, s, id, err, p, q, now);
    case AStoreProof(id, dbErr) => JobSteps.StoreProofJobs(env, s, id, dbErr);
    case AFailRow(id, dbOk) => JobSteps.FailRowJobs(env, s, id, dbOk);
    case ARemoveDir(id, left) => JobSteps.RemoveDirJobs(env, s, id, left);
  }

  lemma SessionsKept(env: Env, s: State, a: Action)
    requires SessionInv(env, s) && Enabled(env, s, a)
    ensures SessionInv(env, Next(env, s, a))
  {
    if SessionAction(a) {
      SessionsChanged(env, s, a);
    } else {
      ActionApart(env, s, a);
      SessionFrame(env, s, Next(env, s, a));
    }
  }

  lemma SessionsChanged(env: Env, s: State, a: Action)
    requires SessionInv(env, s) && Enabled(env, s, a) && SessionAction(a)
    ensures SessionInv(env, Next(env, s, a))
  {
    hide SessionInv, Hello, ReadKey, InsertRow, SendFile, RemoveAgreement;
    match a
    case AHello(u, secret) => HelloSessions(env, s, u, secret);
    case AReadKey(id, now) => ReadKeySessions(env, s, id, now);
    case AInsertRow(id, dbOk) => InsertRowSessions(env, s, id, dbOk);
    case ASendFile(id) => SendFileSessions(env, s, id);
    case ARemoveAgreement(id) => RemoveAgreementSessions(env, s, id);
  }

  lemma AnswersKept(env: Env, s: State, a: Action)
    requires AnswerInv(s) && s.log.admitted.Keys <= s.table.rows.Keys && Enabled(env, s, a)
    ensures AnswerInv(Next(env, s, a))
  {
    hide AnswerInv, Hello, ReadKey, InsertRow, SendFile, RemoveAgreement;
    if a.AHello? {
      HelloAnswers(s, a.uuid, a.secret);
    } else if a.AReadKey? {
      ReadKeyAnswers(env, s, a.id, a.now);
    } else if a.AInsertRow? {
      InsertRowAnswers(s, a.id, a.dbOk);
    } else if a.ASendFile? {
      SendFileAnswers(s, a.id);
    } else if a.ARemoveAgreement? {
      RemoveAgreementAnswers(s, a.id);
    } else {
      hide Next, Enabled;
      ActionApart(env, s, a);
      AnswerFrame(s, Next(env, s, a));
    }
  }

  lemma FlowKept(env: Env, s: State, a: Action)
    requires FlowInv(s) && Enabled(env, s, a)
    ensures FlowInv(Next(env, s, a))
  {
    hide FlowInv;
    hide Hello, Submit, ReadKey, InsertRow, SendFile, RemoveAgreement, RecvFile, DoMakeDir, DoMakeInput, DoWriteInput;
    hide DoSendWitness, RecvWitness, DoChmod, DoStartWitness, DoAwaitWitness, DoMarkWitness, DoSendProof, RecvProof;
    hide DoStartProof, DoAwaitProof, DoStoreProof, DoFailRow, DoRemoveDir;
    match a
    case AHello(u, secret) => HelloFlow(s, u, secret);
    case ASubmit(u, call) => SubmitFlow(s, u, call);
    case AReadKey(id, now) => ReadKeyFlow(env, s, id, now);
    case AInsertRow(id, dbOk) => InsertRowFlow(s, id, dbOk);
    case ASendFile(id) => SendFileFlow(s, id);
    case ARemoveAgreement(id) => RemoveAgreementFlow(s, id);
    case ARecvFile => RecvFlow(s);
    case ASendWitness(id) => SendWitnessFlow(s, id);
    case ARecvWitness => RecvFlow(s);
    case AAwaitWitness(id, err, out, now) => AwaitWitnessFlow(env, s, id, err, out, now);
    case AMarkWitness(id, dbErr) => MarkWitnessFlow(s, id, dbErr);
    case ASendProof(id) => SendProofFlow(s, id);
    case ARecvProof => RecvProofFlow(s);
    case AAwaitProof(id, err, p, q, now) => AwaitProofFlow(env, s, id, err, p, q, now);
    case AStoreProof(id, dbErr) => StoreProofFlow(s, id, dbErr);
    case AFailRow(id, dbOk) => FailRowFlow(s, id, dbOk);
    case ARemoveDir(id, left) => RemoveDirFlow(s, id, left);
    case _ => TaskFlow(env, s, a);
  }

  lemma RowsOfAdmitted(env: Env, s: State)
    requires JobInv(env, s)
    ensures s.log.admitted.Keys <= s.table.rows.Keys
  {
    hide SingleOwner, JobsOk, RecordsOk, NoneLost, CleanOk, Mirrored, NoDup;
  }

  /** Every action keeps the whole invariant. */
  lemma InvKept(env: Env, s: State, a: Action)
    requires Inv(env, s) && Enabled(env, s, a)
    ensures Inv(env, Next(env, s, a))
  {
    hide Next, Enabled, JobInv, SessionInv, AnswerInv, FlowInv;
    JobsKept(env, s, a);
    SessionsKept(env, s, a);
    RowsOfAdmitted(env, s);
    AnswersKept(env, s, a);
    FlowKept(env, s, a);
  }

  lemma InitInv(env: Env, s: State)
    requires Init(s)
    ensures Inv(env, s)
  {
    hide JobInv, SessionInv, AnswerInv, FlowInv;
    InitJobs(env, s);
    InitFlow(s);
    InitSessions(env, s);
  }

  lemma InitJobs(env: Env, s: State)
    requires Init(s)
    ensures JobInv(env, s)
  {
    hide JobOk, RecordOk;
    assert forall sl :: Held(s, sl).None?;
  }

  lemma InitFlow(s: State)
    requires Init(s)
    ensures FlowInv(s)
  {
  }

  lemma InitSessions(env: Env, s: State)
    requires Init(s)
    ensures SessionInv(env, s) && AnswerInv(s)
  {
    hide Validate;
  }

  /** Every reachable state satisfies the invariant, whatever the schedule, the callers,
      the database and the foreign programs do. */
  lemma {:induction false} RunInv(env: Env, s: State, actions: seq<Action>)
    requires Inv(env, s) && Valid(env, s, actions)
    ensures Inv(env, Final(env, s, actions))
    decreases |actions|
  {
    hide Next, Enabled, Inv;
    if actions != [] {
      InvKept(env, s, actions[0]);
      RunInv(env, Next(env, s, actions[0]), actions[1..]);
    }
  }

  // ----- putting runs together -----

  lemma {:induction false} RunInTwo(env: Env, s: State, a: seq<Action>, b: seq<Action>)
    requires Valid(env, s, a) && Valid(env, Final(env, s, a), b)
    ensures Valid(env, s, a + b) && Final(env, s, a + b) == Final(env, Final(env, s, a), b)
    decreases |a|
  {
    hide Next, Enabled;
    if a == [] {
      assert a + b == b;
    } else {
      assert (a + b)[0] == a[0] && (a + b)[1..] == a[1..] + b;
      RunInTwo(env, Next(env, s, a[0]), a[1..], b);
    }
  }

  lemma OneMore(env: Env, s: State, actions: seq<Action>, a: Action)
    requires Valid(env, s, actions) && Enabled(env, Final(env, s, actions), a)
    ensures Valid(env, s, actions + [a]) && Final(env, s, actions + [a]) == Next(env, Final(env, s, actions), a)
  {
    hide Next, Enabled;
    var t := Final(env, s, actions);
    assert [a][1..] == [];
    assert Valid(env, t, [a]) && Final(env, t, [a]) == Next(env, t, a);
    RunInTwo(env, s, actions, [a]);
  }
}
