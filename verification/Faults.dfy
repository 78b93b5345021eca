/** Faults: a request fails only through a fault of its own job, and a run without faults
    proves everything it admits. */
module Faults {
  import opened Base
  import opened Paths
  import opened Proofs
  import opened Machine
  import opened Jobs
  import opened Sessions
  import opened Answers
  import opened Flow
  import opened Frames
  import opened Runs
  import opened Theorems
  import opened Drain
  import Lru

  /** The requests for which some action of the run reports that a program, a file
      operation or a statement has failed, or that an output is missing or malformed. */
  ghost function FaultsOf(env: Env, s: State, actions: seq<Action>): set<Uuid>
    requires Valid(env, s, actions)
    decreases |actions|
  {
    if actions == [] then {}
    else
      (if Faulty(env, actions[0]) && Actor(s, actions[0]).Some? then {Actor(s, actions[0]).value} else {}) +
      FaultsOf(env, Next(env, s, actions[0]), actions[1..])
  }

  lemma {:induction false} FaultsNoted(env: Env, s: State, actions: seq<Action>)
    requires Valid(env, s, actions)
    ensures Final(env, s, actions).log.reported.Keys == s.log.reported.Keys + FaultsOf(env, s, actions)
    decreases |actions|
  {
    hide Next, Enabled, Actor, Faulty, Fault;
    if actions != [] {
      StepNotes(env, s, actions[0]);
      if Actor(s, actions[0]).Some? { FaultIsFaulty(env, Actor(s, actions[0]).value, actions[0]); }
      FaultsNoted(env, Next(env, s, actions[0]), actions[1..]);
    }
  }

  /** Blame: a row of this run is `Failed` only if an action of its own job reported a
      fault, and carries a proof only if none did. Once its job has ended this is exact: it
      carries a proof if and only if none did, and is `Failed` if and only if one did and
      the database did not refuse to say so. */
  lemma Blame(env: Env, start: State, actions: seq<Action>, u: Uuid)
    requires Init(start) && Valid(env, start, actions)
    requires var s := Final(env, start, actions); u in s.table.rows && u !in start.table.rows
    ensures var s, faults := Final(env, start, actions), FaultsOf(env, start, actions);
            var status := s.table.rows[u].status;
            && (status == Failed ==> u in faults)
            && (status == ProofGenerated ==> u !in faults)
            && (u in s.log.ended ==>
                  && (status == ProofGenerated <==> u !in faults)
                  && (status == Failed <==> u in faults && u !in s.log.unfailed))
  {
    hide Valid, Final, Init, Inv, RecordOk, Settled, FaultsOf;
    Reached(env, start, actions);
    FaultsNoted(env, start, actions);
    NoFaultsAtFirst(start);
    var s := Final(env, start, actions);
    EndedRows(env, s);
    RecordFaults(env, s, u);
    if u in s.log.ended {
      HeldOrEnded(env, s, u);
      SettledFaults(Look(s, u));
    }
  }

  lemma NoFaultsAtFirst(start: State)
    requires Init(start)
    ensures start.log.reported == map[]
  {
  }

  lemma RecordFaults(env: Env, s: State, u: Uuid)
    requires Inv(env, s) && u in s.log.admitted
    ensures u in s.table.rows
    ensures s.table.rows[u].status == Failed ==> u in s.log.reported
    ensures s.table.rows[u].status == ProofGenerated ==> u !in s.log.reported
  {
    hide SessionInv, FlowInv, AnswerInv, JobsOk, NoneLost, SingleOwner, CleanOk, RowsOk, Proven, Validate, StatusHistory;
    assert RecordOk(env, Look(s, u));
  }

  lemma SettledFaults(v: View)
    requires Settled(v)
    ensures v.row.value.status == ProofGenerated <==> v.reported.None?
    ensures v.row.value.status == Failed <==> v.reported.Some? && !v.unfailed
  {
  }

  /** Completion: when a run without faults has come to rest, every row of the run carries
      a proof made for its submission, and no folder is left but those that could not be
      removed. */
  lemma FaultFree(env: Env, start: State, actions: seq<Action>, u: Uuid)
    requires Init(start) && Valid(env, start, actions)
    requires forall i :: 0 <= i < |actions| ==> !Faulty(env, actions[i])
    requires Idle(Final(env, start, actions)) && u !in start.table.rows
    ensures var s := Final(env, start, actions);
            && (u in s.table.rows ==>
                  && s.table.rows[u].status == ProofGenerated && u in s.log.admitted
                  && Proven(env, s.log.admitted[u].submit.request, s.table.rows[u]))
            && (u in s.dirs <==> u in s.log.leaked)
  {
    hide Valid, Final, Init, Inv, Idle, Faulty, FaultsOf, Proven;
    Reached(env, start, actions);
    FaultsNoted(env, start, actions);
    NoFaultsAtFirst(start);
    NoneFaulty(env, start, actions);
    Drained(env, Final(env, start, actions), u);
    if u in Final(env, start, actions).table.rows {
      Provenance(env, start, actions, u);
    }
  }

  lemma {:induction false} NoneFaulty(env: Env, s: State, actions: seq<Action>)
    requires Valid(env, s, actions)
    requires forall i :: 0 <= i < |actions| ==> !Faulty(env, actions[i])
    ensures FaultsOf(env, s, actions) == {}
    decreases |actions|
  {
    hide Next, Enabled, Actor, Faulty;
    if actions != [] {
      NoneFaulty(env, Next(env, s, actions[0]), actions[1..]);
    }
  }

  // ----- requests that can be proved -----

  ghost predicate HasWitness(env: Env, req: ProofRequest) {
    exists w :: IsWitness(env, req, w)
  }

  /** The prover can make a well-formed proof of the witness with the key. */
  ghost predicate HasProof(env: Env, zkey: string, w: Wtns) {
    exists p, q :: env.proves(zkey, w, p, q) && Parsed(env, Some(p), Some(q)).Some?
  }

  /** The foreign programs can do their work for this request: its circuit is known, its
      inputs have a witness, and every witness they have can be proved. */
  ghost predicate Solvable(env: Env, req: ProofRequest) {
    && req.circuit.name in env.zkeys
    && HasWitness(env, req)
    && (forall w :: IsWitness(env, req, w) ==> HasProof(env, ZkeyPath(env, req.circuit.name), w))
  }

  /** What a handler that has not read its key would admit, if it did so now, is solvable. */
  ghost predicate CallSolvable(env: Env, store: Lru.Cache<Uuid, Bytes>, t: Task)
    requires t.Reading?
  {
    var submit := Validate(env, t.call, Lru.Lookup(store, t.uuid));
    submit.Some? ==> Solvable(env, submit.value.request)
  }

  /** The requests in flight are solvable, and so are those about to be admitted. Nothing
      is asked of other inputs, nor of requests that are done. */
  ghost predicate AllSolvable(env: Env, s: State) {
    && (forall u :: u in s.log.admitted && u !in s.log.ended ==> Solvable(env, s.log.admitted[u].submit.request))
    && (forall id :: id in s.tasks && s.tasks[id].Inserting? ==> Solvable(env, s.tasks[id].submit.request))
    && (forall id :: id in s.tasks && s.tasks[id].Reading? ==> CallSolvable(env, s.store, s.tasks[id]))
  }

  /** A request of which no witness has a well-formed proof never gets one, whatever the
      server does: its row carries no proof, and its job ends by a fault of its own. */
  lemma NeverProven(env: Env, start: State, actions: seq<Action>, u: Uuid)
    requires Init(start) && Valid(env, start, actions) && u in Final(env, start, actions).log.admitted
    requires var req := Final(env, start, actions).log.admitted[u].submit.request;
             req.circuit.name in env.zkeys ==>
               forall w :: IsWitness(env, req, w) ==> !HasProof(env, ZkeyPath(env, req.circuit.name), w)
    ensures var s := Final(env, start, actions);
            && u in s.table.rows && s.table.rows[u].status != ProofGenerated
            && (u in s.log.ended ==> u in FaultsOf(env, start, actions))
  {
    hide Valid, Final, Init, Inv, Proven, FaultsOf, RecordOk;
    Reached(env, start, actions);
    var s := Final(env, start, actions);
    AdmittedIsNew(env, s, u);
    Blame(env, start, actions, u);
    if s.table.rows[u].status == ProofGenerated {
      Provenance(env, start, actions, u);
      ProofNeeds(env, s.log.admitted[u].submit.request, s.table.rows[u]);
    }
  }

  lemma AdmittedIsNew(env: Env, s: State, u: Uuid)
    requires Inv(env, s) && u in s.log.admitted
    ensures u in s.table.rows && u !in s.log.prior
  {
    hide SessionInv, FlowInv, AnswerInv, SingleOwner, JobsOk, RecordsOk, NoneLost, CleanOk, Mirrored, NoDup;
  }

  lemma ProofNeeds(env: Env, req: ProofRequest, r: Row)
    requires Proven(env, req, r)
    ensures req.circuit.name in env.zkeys
    ensures exists w :: IsWitness(env, req, w) && HasProof(env, ZkeyPath(env, req.circuit.name), w)
  {
    hide CircuitExe, ZkeyPath;
    var w, p, q :| ProvenBy(env, req, w, p, q) && env.parseProof(p).Some? && env.parsePublics(q).Some?;
    assert Parsed(env, Some(p), Some(q)).Some?;
    assert IsWitness(env, req, w) && HasProof(env, ZkeyPath(env, req.circuit.name), w);
  }

  // ----- solvable work stays solvable -----

  lemma ReadKeySolvable(env: Env, s: State, id: nat, now: nat)
    requires Lru.Wf(AGREEMENTS, s.store) && AllSolvable(env, s) && At(s, id) && s.tasks[id].Reading?
    ensures AllSolvable(env, ReadKey(env, s, id, now))
  {
    hide Validate, Solvable, Lru.Apply, Lru.Lookup, Lru.Wf;
    var t, s' := s.tasks[id], ReadKey(env, s, id, now);
    assert CallSolvable(env, s.store, t);
    StoreOnlyLoses(env, s, s', Lru.Read(t.uuid));
  }

  lemma InsertRowSolvable(env: Env, s: State, id: nat, dbOk: bool)
    requires AllSolvable(env, s) && At(s, id) && s.tasks[id].Inserting?
    ensures AllSolvable(env, InsertRow(s, id, dbOk))
  {
    hide Validate, Solvable, CallSolvable, Insert, NewRow;
  }

  lemma SendFileSolvable(env: Env, s: State, id: nat)
    requires AllSolvable(env, s) && At(s, id) && s.tasks[id].Sending?
    ensures AllSolvable(env, SendFile(s, id))
  {
    hide Solvable, CallSolvable;
  }

  lemma ReturnSolvable(env: Env, s: State, id: nat)
    requires Lru.Wf(AGREEMENTS, s.store) && AllSolvable(env, s) && At(s, id) && s.tasks[id].Removing?
    ensures AllSolvable(env, RemoveAgreement(s, id))
  {
    hide Validate, Solvable, Lru.Apply, Lru.Lookup, Lru.Wf;
    StoreOnlyLoses(env, s, RemoveAgreement(s, id), Lru.Remove(s.tasks[id].uuid));
  }

  /** Without a new `hello`, a call still waiting to be read decrypts with the key it would
      have had before, or finds none. */
  lemma StoreOnlyLoses(env: Env, s: State, s': State, op: Lru.Op<Uuid, Bytes>)
    requires Lru.Wf(AGREEMENTS, s.store) && !op.Insert? && s'.store == Lru.Apply(AGREEMENTS, s.store, op)
    ensures forall t: Task :: t.Reading? && CallSolvable(env, s.store, t) ==> CallSolvable(env, s'.store, t)
  {
    hide Solvable, Lru.Apply, Lru.Lookup, Lru.Wf;
    forall t: Task | t.Reading? && CallSolvable(env, s.store, t)
      ensures CallSolvable(env, s'.store, t)
    {
      if Lru.Lookup(s'.store, t.uuid).Some? {
        Lru.NeverOverwritten(AGREEMENTS, s.store, op, t.uuid);
      }
    }
  }

  lemma HandlerSolvable(env: Env, s: State, a: Action)
    requires Lru.Wf(AGREEMENTS, s.store) && AllSolvable(env, s) && Enabled(env, s, a)
    requires SessionAction(a) && !Calls(a)
    ensures AllSolvable(env, Next(env, s, a))
  {
    hide AllSolvable, ReadKey, InsertRow, SendFile, RemoveAgreement, Lru.Wf;
    match a
    case AReadKey(id, now) => ReadKeySolvable(env, s, id, now);
    case AInsertRow(id, dbOk) => InsertRowSolvable(env, s, id, dbOk);
    case ASendFile(id) => SendFileSolvable(env, s, id);
    case ARemoveAgreement(id) => ReturnSolvable(env, s, id);
  }

  /** Only new calls can bring in work that is not solvable. */
  lemma SolvableKept(env: Env, s: State, a: Action)
    requires Inv(env, s) && AllSolvable(env, s) && Enabled(env, s, a) && !Calls(a)
    ensures AllSolvable(env, Next(env, s, a))
  {
    hide Next, Enabled, JobInv, AnswerInv, FlowInv, StoredOk, HandlersOk, ReadersOk, AdmittedOk, ReturnedOk;
    hide Solvable, CallSolvable, Lru.Wf;
    if SessionAction(a) {
      hide AllSolvable;
      HandlerSolvable(env, s, a);
    } else {
      ActionApart(env, s, a);
      StepNotes(env, s, a);
      StillEnded(s.log.ended, Next(env, s, a).log.ended);
    }
  }

  lemma StillEnded(ended: seq<Uuid>, ended': seq<Uuid>)
    requires ended <= ended'
    ensures forall u :: u in ended ==> u in ended'
  {
  }

  // ----- progress and completion -----

  /** The action goes on with the work, and reports no fault. */
  ghost predicate GoesWell(env: Env, s: State, a: Action) {
    Enabled(env, s, a) && !Calls(a) && !Faulty(env, a)
  }

  /** What a task may report when all goes well, where `FailingStep` reports a fault. */
  ghost predicate Succeeds(env: Env, t: Task, id: nat, a: Action) {
    match t
    case MakeDir(_, _) => a == AMakeDir(id, None)
    case MakeInput(_, _) => a == AMakeInput(id, None)
    case WriteInput(_, _) => a == AWriteInput(id, None)
    case Chmod(_, _) => a == AChmod(id, None)
    case AwaitWitness(_, name, input) =>
      && a.AAwaitWitness? && a.id == id && a.err.None? && a.out.Some? && input.Some?
      && env.witnesses(CircuitExe(env.circuitFolder, name), input.value, a.out.value)
    case MarkWitness(_, _, _) => a == AMarkWitness(id, None)
    case AwaitProof(_, zkey, w) =>
      && a.AAwaitProof? && a.id == id && a.err.None? && a.proof.Some? && a.publics.Some?
      && env.proves(zkey, w, a.proof.value, a.publics.value) && Parsed(env, a.proof, a.publics).Some?
    case StoreProof(_, _, _, _) => a == AStoreProof(id, None)
    case _ => false
  }

  lemma SuccessEnabled(env: Env, s: State, id: nat, a: Action)
    requires id in s.tasks && Succeeds(env, s.tasks[id], id, a)
    requires a.AMakeInput? || a.AWriteInput? ==> GetDir(s, s.tasks[id].uuid).Some?
    requires a.AAwaitWitness? || a.AAwaitProof? ==> a.now >= s.log.clock
    ensures GoesWell(env, s, a)
  {
    hide CircuitExe, Parsed, GetDir;
  }

  /** What a job in order asks for exists, if its request is solvable. */
  lemma AskedOf(env: Env, t: Task, v: View)
    requires JobOk(env, t, v) && RecordOk(env, v) && Solvable(env, v.adm.value.submit.request)
    ensures t.MakeInput? || t.WriteInput? ==> v.dir.Some?
    ensures t.AwaitWitness? ==>
              t.input.Some? && exists w :: env.witnesses(CircuitExe(env.circuitFolder, t.name), t.input.value, w)
    ensures t.AwaitProof? ==> HasProof(env, t.zkey, t.wtns)
  {
    hide Proven, Made, Lifecycle, StatusColumns, HasProof, CircuitExe, ZkeyPath, Validate;
    if t.AwaitWitness? {
      var w :| IsWitness(env, v.adm.value.submit.request, w);
      assert env.witnesses(CircuitExe(env.circuitFolder, t.name), t.input.value, w);
    }
  }

  lemma SucceedingStep(env: Env, s: State, id: nat) returns (a: Action)
    requires Inv(env, s) && AllSolvable(env, s) && id in s.tasks && Faulty(env, FailingStep(s, id))
    ensures GoesWell(env, s, a)
  {
    hide Inv, JobOk, RecordOk, Solvable, CallSolvable, CircuitExe, Parsed, GoesWell;
    var t, now := s.tasks[id], s.log.clock;
    HeldOk(env, s, TaskSlot(id));
    HeldNotEnded(env, t, Look(s, t.uuid));
    assert GetDir(s, t.uuid) == Look(s, t.uuid).dir;
    AskedOf(env, t, Look(s, t.uuid));
    a := FailingStep(s, id);
    match t {
      case MakeDir(_, _) => a := AMakeDir(id, None);
      case MakeInput(_, _) => a := AMakeInput(id, None);
      case WriteInput(_, _) => a := AWriteInput(id, None);
      case Chmod(_, _) => a := AChmod(id, None);
      case AwaitWitness(_, name, input) =>
        var w :| env.witnesses(CircuitExe(env.circuitFolder, name), input.value, w);
        a := AAwaitWitness(id, None, Some(w), now);
      case MarkWitness(_, _, _) => a := AMarkWitness(id, None);
      case AwaitProof(_, zkey, w) =>
        var p, q :| env.proves(zkey, w, p, q) && Parsed(env, Some(p), Some(q)).Some?;
        a := AAwaitProof(id, None, Some(p), Some(q), now);
      case StoreProof(_, _, _, _) => a := AStoreProof(id, None);
      case _ =>
    }
    SuccessEnabled(env, s, id, a);
  }

  lemma HeldNotEnded(env: Env, t: Task, v: View)
    requires JobOk(env, t, v)
    ensures !v.ended
  {
  }

  /** While anything is in flight and what is in flight is solvable, some action other
      than a call is enabled that reports no fault. */
  lemma FaultlessProgress(env: Env, s: State) returns (a: Action)
    requires Inv(env, s) && AllSolvable(env, s) && !Idle(s)
    ensures GoesWell(env, s, a)
  {
    hide JobInv, SessionInv, AnswerInv, FlowInv, AllSolvable, Blocked, FailingStep;
    NotStuck(s);
    if s.fileQ.Ready() {
      a := ARecvFile;
    } else if s.witnessQ.Ready() {
      a := ARecvWitness;
    } else if s.proofQ.Ready() && WORKER !in s.tasks {
      a := ARecvProof;
    } else {
      var id :| id in s.tasks && !Blocked(s, id);
      a := FailingStep(s, id);
      if Faulty(env, a) {
        a := SucceedingStep(env, s, id);
      } else {
        FailingEnabled(env, s, id);
      }
    }
  }

  /** `pick` goes on without faults, as long as what is in flight is solvable. */
  ghost predicate Diligent(env: Env, pick: State -> Action) {
    forall t :: Inv(env, t) && AllSolvable(env, t) && !Idle(t) ==> GoesWell(env, t, pick(t))
  }

  lemma {:induction false} DrainsWell(env: Env, s: State, pick: State -> Action) returns (rest: seq<Action>)
    requires Inv(env, s) && AllSolvable(env, s) && Diligent(env, pick)
    ensures Valid(env, s, rest) && PickedBy(env, s, pick, rest) && |rest| <= Measure(s)
    ensures forall i :: 0 <= i < |rest| ==> !Calls(rest[i]) && !Faulty(env, rest[i])
    ensures Idle(Final(env, s, rest))
    decreases Measure(s)
  {
    hide Next, Enabled, JobInv, SessionInv, AnswerInv, FlowInv, AllSolvable, Measure, Idle;
    if Idle(s) {
      rest := [];
    } else {
      var a := pick(s);
      assert GoesWell(env, s, a);
      StepDecreases(env, s, a);
      InvKept(env, s, a);
      SolvableKept(env, s, a);
      var more := DrainsWell(env, Next(env, s, a), pick);
      rest := [a] + more;
      assert rest[0] == a && rest[1..] == more;
    }
  }

  /** Completion under any diligent scheduler: after a run without faults that has left
      only solvable work, following it brings the server to rest, within the work there
      was, with a proof in every row of the run. */
  lemma CompletesUnder(env: Env, start: State, actions: seq<Action>, pick: State -> Action) returns (rest: seq<Action>)
    requires Init(start) && Valid(env, start, actions)
    requires forall i :: 0 <= i < |actions| ==> !Faulty(env, actions[i])
    requires AllSolvable(env, Final(env, start, actions)) && Diligent(env, pick)
    ensures Valid(env, start, actions + rest) && |rest| <= Measure(Final(env, start, actions))
    ensures PickedFrom(env, Final(env, start, actions), pick, rest)
    ensures AllProven(env, start, Final(env, start, actions + rest))
    ensures forall i :: 0 <= i < |rest| ==> !Calls(rest[i]) && !Faulty(env, rest[i])
  {
    hide Valid, Final, Init, Inv, AllSolvable, Idle, Diligent, PickedBy, Faulty, Measure, Proven;
    Reached(env, start, actions);
    rest := DrainsWell(env, Final(env, start, actions), pick);
    RunInTwo(env, start, actions, rest);
    var s := Final(env, start, actions + rest);
    forall u | u in s.table.rows && u !in start.table.rows
      ensures s.table.rows[u].status == ProofGenerated && u in s.log.admitted
      ensures Proven(env, s.log.admitted[u].submit.request, s.table.rows[u])
    {
      FaultFree(env, start, actions + rest, u);
    }
  }

  ghost predicate PickedFrom(env: Env, s: State, pick: State -> Action, actions: seq<Action>) {
    Valid(env, s, actions) && PickedBy(env, s, pick, actions)
  }

  /** The server is at rest, and every row of the run carries a proof made for its
      submission. */
  ghost predicate AllProven(env: Env, start: State, s: State) {
    && Idle(s)
    && (forall u :: u in s.table.rows && u !in start.table.rows ==>
          && s.table.rows[u].status == ProofGenerated && u in s.log.admitted
          && Proven(env, s.log.admitted[u].submit.request, s.table.rows[u]))
  }

  /** A diligent scheduler, so that there is one. */
  ghost function Choose(env: Env, s: State): Action {
    if exists a :: GoesWell(env, s, a) then
      var a :| GoesWell(env, s, a);
      a
    else ARecvFile
  }

  lemma ChooseDiligent(env: Env)
    ensures Diligent(env, s => Choose(env, s))
  {
    hide Inv, AllSolvable, Idle, GoesWell;
    forall t | Inv(env, t) && AllSolvable(env, t) && !Idle(t)
      ensures GoesWell(env, t, Choose(env, t))
    {
      var a := FaultlessProgress(env, t);
    }
  }

  /** Every admitted request can be proved: a run without faults that has left only
      solvable work can be completed without new calls and without faults, within the
      work there was, so that every row of the run carries a proof. */
  lemma Completes(env: Env, start: State, actions: seq<Action>) returns (rest: seq<Action>)
    requires Init(start) && Valid(env, start, actions)
    requires forall i :: 0 <= i < |actions| ==> !Faulty(env, actions[i])
    requires AllSolvable(env, Final(env, start, actions))
    ensures Valid(env, start, actions + rest) && |rest| <= Measure(Final(env, start, actions))
    ensures AllProven(env, start, Final(env, start, actions + rest))
    ensures forall i :: 0 <= i < |rest| ==> !Calls(rest[i]) && !Faulty(env, rest[i])
  {
    hide Valid, Final, Init, AllSolvable, Diligent, Measure, AllProven, Faulty, PickedFrom;
    ChooseDiligent(env);
    rest := CompletesUnder(env, start, actions, s => Choose(env, s));
  }
}
