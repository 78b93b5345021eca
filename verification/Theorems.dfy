/** The main results. Those about states hold in every state that any run reaches from
    a start of the server; those about steps hold for every step out of such a state. */
module Theorems {
  import opened Base
  import opened Paths
  import opened Proofs
  import opened Machine
  import opened Jobs
  import opened Sessions
  import opened Answers
  import opened Flow
  import opened Frames
  import opened Runs
  import opened Handlers
  import JobSteps
  import Lru

  lemma {:induction false} PriorOfRun(env: Env, s: State, actions: seq<Action>)
    requires Valid(env, s, actions)
    ensures Final(env, s, actions).log.prior == s.log.prior
    decreases |actions|
  {
    hide Next, Enabled;
    if actions != [] {
      PriorKept(env, s, actions[0]);
      PriorOfRun(env, Next(env, s, actions[0]), actions[1..]);
    }
  }

  lemma Reached(env: Env, start: State, actions: seq<Action>)
    requires Init(start) && Valid(env, start, actions)
    ensures Inv(env, Final(env, start, actions))
    ensures Final(env, start, actions).log.prior == start.table.rows
  {
    hide Valid, Final, Inv;
    InitInv(env, start);
    RunInv(env, start, actions);
    PriorOfRun(env, start, actions);
  }

  // ----- states -----

  /** Provenance: a row with a proof is a row of an earlier run, unchanged, or its proof
      and public inputs were made by the prover, with the key of the circuit named in
      the one submission admitted for it, from a witness for the inputs of that
      submission. */
  lemma Provenance(env: Env, start: State, actions: seq<Action>, u: Uuid)
    requires Init(start) && Valid(env, start, actions)
    requires var s := Final(env, start, actions); u in s.table.rows && s.table.rows[u].status == ProofGenerated
    ensures var s := Final(env, start, actions);
            || (u in start.table.rows && s.table.rows[u] == start.table.rows[u])
            || (u in s.log.admitted && Proven(env, s.log.admitted[u].submit.request, s.table.rows[u]))
  {
    hide Valid, Final, Init, Proven, SessionInv, FlowInv;
    Reached(env, start, actions);
    var s := Final(env, start, actions);
    if u in s.log.admitted {
      assert RecordOk(env, Look(s, u));
    }
  }

  /** Single ownership: no two places of the pipeline hold the same request, and no
      request was admitted twice. */
  lemma Ownership(env: Env, start: State, actions: seq<Action>)
    requires Init(start) && Valid(env, start, actions)
    ensures var s := Final(env, start, actions);
            && (forall a, b, u :: Holds(s, a, u) && Holds(s, b, u) ==> a == b)
            && NoDup(s.log.admissions)
            && (forall u :: u in s.log.admissions <==> u in s.table.rows && u !in start.table.rows)
  {
    hide Valid, Final, Init, JobOk, RecordOk;
    Reached(env, start, actions);
  }

  /** Lifecycle: the statuses a row has gone through are those of one of the three
      allowed histories, and its columns are filled exactly as its status says. */
  lemma LifecycleAndColumns(env: Env, start: State, actions: seq<Action>, u: Uuid)
    requires Init(start) && Valid(env, start, actions)
    requires var s := Final(env, start, actions); u in s.table.rows && u !in start.table.rows
    ensures var s := Final(env, start, actions);
            && StatusHistory(s.table.writes, u) == Lifecycle(s.table.rows[u])
            && StatusColumns(s.table.rows[u])
            && StampedBy(s.table.rows[u], s.log.clock)
            && u in s.log.admitted && Describes(s.table.rows[u], s.log.admitted[u].submit)
  {
    hide Valid, Final, Init, JobOk;
    Reached(env, start, actions);
    assert RecordOk(env, Look(Final(env, start, actions), u));
  }

  /** Conservation: the rows of this run are partitioned into those that one place of the
      pipeline holds and those whose job has ended; the ended ones are exactly the settled
      ones, and each job ends once. A row that is neither terminal nor given up by a
      refused `fail_proof` is held, and what is held and not yet cleaned up is neither. */
  lemma Conservation(env: Env, start: State, actions: seq<Action>, u: Uuid)
    requires Init(start) && Valid(env, start, actions)
    requires var s := Final(env, start, actions); u in s.table.rows && u !in start.table.rows
    ensures var s := Final(env, start, actions);
            && (Live(s, u) <==> u !in s.log.ended)
            && (forall a, b :: Holds(s, a, u) && Holds(s, b, u) ==> a == b)
            && (Settled(Look(s, u)) <==> u in s.log.ended)
            && NoDup(s.log.ended)
            && (forall v :: v in s.log.ended ==> v in s.table.rows && v !in start.table.rows)
            && (!Terminal(s.table.rows[u]) && u !in s.log.unfailed ==> Live(s, u))
            && (forall sl :: Holds(s, sl, u) && !Held(s, sl).value.RemoveDir? ==>
                  !Terminal(s.table.rows[u]) && u !in s.log.unfailed)
  {
    hide Valid, Final, Init, Inv, Settled, NoDup;
    Reached(env, start, actions);
    var s := Final(env, start, actions);
    EndedRows(env, s);
    HeldOrEnded(env, s, u);
    if Settled(Look(s, u)) { SettledMeans(s, u); }
    forall sl | Holds(s, sl, u) && !Held(s, sl).value.RemoveDir?
      ensures !Terminal(s.table.rows[u]) && u !in s.log.unfailed
    {
      HeldOk(env, s, sl);
      BusyMeans(env, Held(s, sl).value, Look(s, u));
    }
  }

  lemma EndedRows(env: Env, s: State)
    requires Inv(env, s)
    ensures NoDup(s.log.ended)
    ensures s.table.rows.Keys == s.log.prior.Keys + s.log.admitted.Keys
    ensures forall v :: v in s.log.ended ==> v in s.table.rows && v !in s.log.prior
  {
    hide SessionInv, FlowInv, SingleOwner, JobsOk, RecordsOk, NoneLost, CleanOk, Mirrored, NoDup;
  }

  /** Never both, never neither. */
  lemma HeldOrEnded(env: Env, s: State, u: Uuid)
    requires Inv(env, s) && u in s.log.admitted
    ensures Live(s, u) <==> u !in s.log.ended
    ensures forall a, b :: Holds(s, a, u) && Holds(s, b, u) ==> a == b
    ensures Settled(Look(s, u)) <==> u in s.log.ended
  {
    hide SessionInv, FlowInv, RecordsOk, CleanOk, RowsOk;
    if Live(s, u) {
      var sl :| Holds(s, sl, u);
      assert JobOk(env, Held(s, sl).value, Look(s, u));
    }
  }

  lemma SettledMeans(s: State, u: Uuid)
    requires Settled(Look(s, u)) && u in s.table.rows
    ensures Terminal(s.table.rows[u]) <==> u !in s.log.unfailed
  {
  }

  lemma BusyMeans(env: Env, t: Task, v: View)
    requires JobOk(env, t, v) && !t.RemoveDir?
    ensures !Terminal(v.row.value) && !v.unfailed
  {
    hide ZkeyOf, IsWitness, Made;
  }

  /** Replay: every statement was notified, and the last payload per request rebuilds
      the table from the rows the run started with. */
  lemma NotificationReplay(env: Env, start: State, actions: seq<Action>)
    requires Init(start) && Valid(env, start, actions)
    ensures var s := Final(env, start, actions);
            s.table.notes == s.table.writes && Replay(start.table.rows, s.table.notes) == s.table.rows
  {
    hide Valid, Final, Init, JobOk, RecordOk, Replay;
    Reached(env, start, actions);
  }

  /** No leftovers: but for requests of earlier runs, a folder whose request nobody holds
      any more is exactly one whose removal failed. */
  lemma NoLeftovers(env: Env, start: State, actions: seq<Action>, u: Uuid)
    requires Init(start) && Valid(env, start, actions)
    ensures var s := Final(env, start, actions);
            u !in start.table.rows ==> (u in s.dirs && !Live(s, u) <==> u in s.log.leaked)
  {
    hide Valid, Final, Init, Inv, Settled, NoDup;
    Reached(env, start, actions);
    var s := Final(env, start, actions);
    EndedRows(env, s);
    if u in s.log.admitted {
      FolderOfRequest(env, s, u);
    } else if u !in start.table.rows {
      RowlessIsClean(env, s, u);
    }
  }

  lemma FolderOfRequest(env: Env, s: State, u: Uuid)
    requires Inv(env, s) && u in s.log.admitted
    ensures if Live(s, u) then u !in s.log.leaked else Settled(Look(s, u)) && (u in s.dirs <==> u in s.log.leaked)
  {
    hide SessionInv, FlowInv, AnswerInv, SingleOwner, RecordsOk, CleanOk, RowsOk, StatusHistory;
    if Live(s, u) {
      var sl :| Holds(s, sl, u);
      assert JobOk(env, Held(s, sl).value, Look(s, u));
    }
  }

  lemma RowlessIsClean(env: Env, s: State, u: Uuid)
    requires Inv(env, s) && u !in s.table.rows
    ensures u !in s.dirs && u !in s.log.leaked
  {
    hide SessionInv, FlowInv, AnswerInv, SingleOwner, JobsOk, RecordsOk, NoneLost, RowsOk, StatusHistory;
    assert Untouched(Look(s, u));
  }

  /** Freshness and stability of files: a job that has not made its folder finds none,
      and from the moment the input is written until the folder is removed on success,
      the folder holds exactly the submitted input. */
  lemma FreshFolders(env: Env, start: State, actions: seq<Action>, sl: Slot)
    requires Init(start) && Valid(env, start, actions)
    requires Held(Final(env, start, actions), sl).Some?
    ensures var s := Final(env, start, actions);
            var t := Held(s, sl).value;
            && t.uuid in s.log.admitted
            && (t.Sending? || t.MakeDir? ==> t.uuid !in s.dirs)
            && (t.SendWitness? || t.Chmod? || t.StartWitness? || t.AwaitWitness? || t.MarkWitness? || t.SendProof?
                || t.StartProof? || t.AwaitProof? || t.StoreProof? ==>
                  t.uuid in s.dirs && s.dirs[t.uuid].input == Some(s.log.admitted[t.uuid].submit.request.circuit.inputs))
            && (t.AwaitProof? ==> s.dirs[t.uuid].wtns == Some(t.wtns))
  {
    hide Valid, Final, Init, Inv, JobOk;
    Reached(env, start, actions);
    var s := Final(env, start, actions);
    var u := Held(s, sl).value.uuid;
    HeldOk(env, s, sl);
    FilesOfJob(env, Held(s, sl).value, Look(s, u));
  }

  lemma HeldOk(env: Env, s: State, sl: Slot)
    requires Inv(env, s) && Held(s, sl).Some?
    ensures JobOk(env, Held(s, sl).value, Look(s, Held(s, sl).value.uuid))
    ensures RecordOk(env, Look(s, Held(s, sl).value.uuid)) && Held(s, sl).value.uuid in s.log.admitted
  {
    hide SessionInv, FlowInv, JobInv;
    JobSteps.Known(env, s, sl, Held(s, sl).value.uuid);
  }

  lemma FilesOfJob(env: Env, t: Task, v: View)
    requires JobOk(env, t, v)
    ensures t.Sending? || t.MakeDir? ==> v.dir.None?
    ensures t.SendWitness? || t.Chmod? || t.StartWitness? || t.AwaitWitness? || t.MarkWitness? || t.SendProof?
            || t.StartProof? || t.AwaitProof? || t.StoreProof? ==>
              HasInput(v.dir, v.adm.value.submit.request.circuit.inputs)
    ensures t.AwaitProof? ==> v.dir.value.wtns == Some(t.wtns)
  {
    hide ZkeyOf, IsWitness, Made;
  }

  /** Session keys: what was admitted is what the secret of the latest successful `hello`
      for that request, at the time of reading, decrypts the call to. */
  lemma SessionKey(env: Env, start: State, actions: seq<Action>, u: Uuid)
    requires Init(start) && Valid(env, start, actions)
    requires u in Final(env, start, actions).log.admitted
    ensures var s := Final(env, start, actions);
            var adm := s.log.admitted[u];
            && adm.reader in s.log.calls && s.log.calls[adm.reader] == Asked(u, adm.call)
            && |adm.call.nonce| == 12 && |adm.call.tag| == 16
            && ReadBy(s.log, adm.reader, u, adm.key)
            && |adm.key| == 32
            && var text := env.decrypt(adm.key, adm.call.nonce, adm.call.cipher, adm.call.tag);
            && text.Some? && env.parse(text.value) == Some(adm.submit)
            && env.admits(adm.submit.request.proofType) && adm.submit.request.circuit.name in env.zkeys
  {
    hide Valid, Final, Init, Inv, RecordOk, ReadBy, Validate;
    Reached(env, start, actions);
    CallsOfRun(env, start, actions);
    var s := Final(env, start, actions);
    AdmittedCall(s, u);
    AdmittedRecord(env, s, u);
    RecordValidated(env, Look(s, u));
    ValidatedMeans(env, s.log.admitted[u]);
  }

  lemma AdmittedCall(s: State, u: Uuid)
    requires CallInv(s) && u in s.log.admitted
    ensures var adm := s.log.admitted[u];
            && adm.reader in s.log.calls && s.log.calls[adm.reader] == Asked(u, adm.call) && RightLengths(adm.call)
            && adm.reader in s.log.clockReads && s.log.clockReads[adm.reader] == adm.at
  {
    assert KnownAdmission(s.log, u) && CallOk(s, s.log.admitted[u].reader);
  }

  lemma AdmittedRecord(env: Env, s: State, u: Uuid)
    requires Inv(env, s) && u in s.log.admitted
    ensures RecordOk(env, Look(s, u)) && ReadBy(s.log, s.log.admitted[u].reader, u, s.log.admitted[u].key)
  {
    hide FlowInv, AnswerInv, SingleOwner, JobsOk, NoneLost, RowsOk, CleanOk, RecordOk;
    hide StoredOk, HandlersOk, ReadersOk, ReturnedOk, ReadBy, Look;
  }

  lemma RecordValidated(env: Env, v: View)
    requires RecordOk(env, v)
    ensures Validate(env, v.adm.value.call, Some(v.adm.value.key)) == Some(v.adm.value.submit)
  {
    hide Validate;
  }

  lemma ValidatedMeans(env: Env, adm: Admission)
    requires Validate(env, adm.call, Some(adm.key)) == Some(adm.submit)
    ensures |adm.key| == 32
    ensures var text := env.decrypt(adm.key, adm.call.nonce, adm.call.cipher, adm.call.tag);
            && text.Some? && env.parse(text.value) == Some(adm.submit)
            && env.admits(adm.submit.request.proofType) && adm.submit.request.circuit.name in env.zkeys
  {
  }

  /** Answers: a call is answered with success if and only if it is the one whose
      submission was admitted, so of all calls for a request, racing or not, at most one
      ever is; and the rows of this run are exactly those of admitted calls. */
  lemma OneSuccess(env: Env, start: State, actions: seq<Action>, i: nat)
    requires Init(start) && Valid(env, start, actions)
    requires i < |Final(env, start, actions).log.returned|
    ensures var s := Final(env, start, actions);
            var r := s.log.returned[i];
            && (r.ok <==> r.uuid in s.log.admitted && s.log.admitted[r.uuid].reader == r.handler)
            && (r.ok ==> r.uuid in s.table.rows && r.uuid !in start.table.rows)
            && (forall j :: 0 <= j < |s.log.returned| && j != i && s.log.returned[j].uuid == r.uuid && r.ok ==> !s.log.returned[j].ok)
  {
    hide Valid, Final, Init, JobOk, RecordOk, SessionInv, FlowInv;
    Reached(env, start, actions);
    var s := Final(env, start, actions);
    assert ReturnOk(s, s.log.returned[i]);
    forall j | 0 <= j < |s.log.returned| && j != i
      ensures ReturnOk(s, s.log.returned[j]) && s.log.returned[j].handler != s.log.returned[i].handler
    {
    }
  }

  /** Consumption: an agreement present for the request of a returned call was made by a
      `hello` after that call had removed the one it used. */
  lemma AgreementConsumed(env: Env, start: State, actions: seq<Action>, i: nat)
    requires Init(start) && Valid(env, start, actions)
    requires i < |Final(env, start, actions).log.returned|
    ensures var s := Final(env, start, actions);
            var r := s.log.returned[i];
            Lru.Lookup(s.store, r.uuid).Some? ==>
              exists j :: r.removedAt <= j < |s.log.hellos| && s.log.hellos[j] == Agreement(r.uuid, Lru.Lookup(s.store, r.uuid).value)
  {
    hide Valid, Final, Init, JobInv, Lru.Lookup;
    Reached(env, start, actions);
    var s := Final(env, start, actions);
    var r := s.log.returned[i];
    assert Consumed(s.store, s.log.hellos, r);
    if Lru.Lookup(s.store, r.uuid).Some? {
      var j := LastHello(s.log.hellos, r.uuid).value;
      assert s.log.hellos[j] == Agreement(r.uuid, Lru.Lookup(s.store, r.uuid).value);
    }
  }

  ghost predicate NamesCircuit(t: Task) {
    t.SendWitness? || t.Chmod? || t.StartWitness? || t.AwaitWitness?
  }

  ghost predicate NamesKey(t: Task) {
    t.MarkWitness? || t.SendProof? || t.StartProof? || t.AwaitProof?
  }

  /** Artifacts: the lookup that could panic never does; a job up to it carries the name
      of the circuit that was admitted, and a job past it the key path of that circuit. */
  lemma NoPanic(env: Env, start: State, actions: seq<Action>, sl: Slot)
    requires Init(start) && Valid(env, start, actions)
    ensures Final(env, start, actions).log.panicked == {}
    ensures var s := Final(env, start, actions);
            var t := Held(s, sl);
            t.Some? ==>
              t.value.uuid in s.log.admitted &&
              var name := s.log.admitted[t.value.uuid].submit.request.circuit.name;
              && name in env.zkeys
              && (NamesCircuit(t.value) ==> t.value.name == name)
              && (NamesKey(t.value) ==> t.value.zkey == ZkeyPath(env, name))
  {
    hide Valid, Final, Init, JobOk, RecordOk, JobsOk, RecordsOk, NoneLost, SingleOwner, CleanOk, Mirrored, SessionInv, FlowInv;
    Reached(env, start, actions);
    var s := Final(env, start, actions);
    if Held(s, sl).Some? {
      var u := Held(s, sl).value.uuid;
      HeldOk(env, s, sl);
      CircuitOfJob(env, Held(s, sl).value, Look(s, u));
    }
  }

  lemma CircuitOfJob(env: Env, t: Task, v: View)
    requires JobOk(env, t, v) && RecordOk(env, v)
    ensures var name := v.adm.value.submit.request.circuit.name;
            && name in env.zkeys
            && (NamesCircuit(t) ==> t.name == name)
            && (NamesKey(t) ==> t.zkey == ZkeyPath(env, name))
  {
    hide Proven, AfterWitness, Made, Lifecycle, StatusColumns, ZkeyPath, OnTrack;
  }

  /** Queues and order: no queue holds more than ten entries, only the worker proves, and
      it finishes requests in the order in which they entered its queue. */
  lemma BoundedAndOrdered(env: Env, start: State, actions: seq<Action>)
    requires Init(start) && Valid(env, start, actions)
    ensures var s := Final(env, start, actions);
            && 0 <= |s.fileQ.sent| - s.fileQ.taken <= 10
            && 0 <= |s.witnessQ.sent| - s.witnessQ.taken <= 10
            && 0 <= |s.proofQ.sent| - s.proofQ.taken <= 10
            && (forall id :: id in s.tasks && WorkerOnly(s.tasks[id]) ==> id == WORKER)
            && s.log.proved <= Uuids(s.proofQ.sent)
            && s.proofQ.taken - 1 <= |s.log.proved| <= s.proofQ.taken
  {
    hide Valid, Final, Init, JobInv, SessionInv;
    Reached(env, start, actions);
    var s := Final(env, start, actions);
    assert Uuids(s.proofQ.sent[..s.proofQ.taken]) == Uuids(s.proofQ.sent)[..s.proofQ.taken];
    assert s.log.proved == Uuids(s.proofQ.sent)[..|s.log.proved|];
  }

  /** The key given to the prover is the path whose existence startup checked exactly
      when the folder of keys is absolute (or empty): the path is joined twice. */
  lemma ProverKey(env: Env, start: State, actions: seq<Action>, sl: Slot)
    requires Init(start) && Valid(env, start, actions)
    requires forall name :: name in env.zkeys ==>
               env.zkeys[name] == Join(env.zkeyFolder, ZkeyFile(name)) && !Absolute(ZkeyFile(name))
    requires Held(Final(env, start, actions), sl).Some? && NamesKey(Held(Final(env, start, actions), sl).value)
    ensures var s := Final(env, start, actions);
            var t := Held(s, sl).value;
            && t.uuid in s.log.admitted && s.log.admitted[t.uuid].submit.request.circuit.name in env.zkeys
            && (t.zkey == env.zkeys[s.log.admitted[t.uuid].submit.request.circuit.name]
                <==> Absolute(env.zkeyFolder) || env.zkeyFolder == "")
  {
    hide Valid, Final, Init, Held, Join, ZkeyFile, Absolute;
    NoPanic(env, start, actions, sl);
    var s := Final(env, start, actions);
    var name := s.log.admitted[Held(s, sl).value.uuid].submit.request.circuit.name;
    DoubleJoin(env.zkeyFolder, ZkeyFile(name));
  }

  /** The task `t`, for the circuit `name`, works with what startup saw. */
  ghost predicate HasArtifacts(env: Env, dirs: seq<string>, files: set<string>, t: Task, name: string) {
    && (NamesCircuit(t) ==> t.name == name && RunsListed(env.circuitFolder, dirs, t.name))
    && (NamesKey(t) ==>
          && name in env.zkeys && env.zkeys[name] in files
          && env.zkeys[name] == Join(env.zkeyFolder, name + ".zkey")
          && (t.zkey == env.zkeys[name] <==> Absolute(env.zkeyFolder) || env.zkeyFolder == ""))
  }

  /** What startup saw, for a server whose table of keys was built by the startup loop
      from the circuit folders `dirs` and the files `files`. A job on its way to the
      witness is for a circuit of which a folder was listed, and the program it runs is
      the one in that folder exactly when the folder is named with the suffix. A job past
      it has a key that existed, and is given the path of that key exactly when the folder
      of keys is absolute or empty. */
  lemma RunArtifacts(env: Env, dirs: seq<string>, files: set<string>, start: State, actions: seq<Action>, sl: Slot)
    requires ZkeyTable(dirs, |dirs|, env.zkeyFolder, files, env.zkeys)
    requires forall i :: 0 <= i < |dirs| && |dirs[i]| >= 4 ==> dirs[i][0] != '/'
    requires Init(start) && Valid(env, start, actions)
    requires Held(Final(env, start, actions), sl).Some?
    ensures var s := Final(env, start, actions);
            var t := Held(s, sl).value;
            && t.uuid in s.log.admitted
            && HasArtifacts(env, dirs, files, t, s.log.admitted[t.uuid].submit.request.circuit.name)
  {
    hide Valid, Final, Init, Held, Join, ZkeyFile, Absolute, CircuitName, RunsListed, SpelledOut;
    NoPanic(env, start, actions, sl);
    KeysRelative(dirs, env.zkeyFolder, files, env.zkeys);
    ListedCircuit(env.circuitFolder, dirs, env.zkeyFolder, files, env.zkeys);
    if NamesKey(Held(Final(env, start, actions), sl).value) {
      TableSpelledOut(dirs, env.zkeyFolder, files, env.zkeys);
      var s := Final(env, start, actions);
      EntryOf(dirs, env.zkeyFolder, files, env.zkeys, s.log.admitted[Held(s, sl).value.uuid].submit.request.circuit.name);
      ProverKey(env, start, actions, sl);
    }
  }

  lemma KeysRelative(dirs: seq<string>, zkeyFolder: string, files: set<string>, zkeys: map<string, string>)
    requires ZkeyTable(dirs, |dirs|, zkeyFolder, files, zkeys)
    requires forall i :: 0 <= i < |dirs| && |dirs[i]| >= 4 ==> dirs[i][0] != '/'
    ensures forall name :: name in zkeys ==>
              zkeys[name] == Join(zkeyFolder, ZkeyFile(name)) && zkeys[name] in files && !Absolute(ZkeyFile(name))
  {
    hide Join, ZkeyFile, Absolute, CircuitName;
    forall name | name in zkeys
      ensures !Absolute(ZkeyFile(name))
    {
      var i :| 0 <= i < |dirs| && Names(dirs[i], name);
      NameRelative(dirs[i]);
    }
  }

  // ----- the agreement store within a run -----

  /** The request whose agreement a step makes or reads with success. */
  ghost function AgreementTouched(s: State, a: Action): Option<Uuid> {
    match a
    case AHello(u, _) => if Lru.Lookup(s.store, u).None? then Some(u) else None
    case AReadKey(id, _) =>
      if At(s, id) && Lru.Lookup(s.store, s.tasks[id].uuid).Some? then Some(s.tasks[id].uuid) else None
    case _ => None
  }

  /** Survival within a run: after a `hello` that was accepted or a read that succeeded,
      the agreement is still there, with the same secret, at the end of any stretch of the
      run that neither touches nor removes it and in which fewer than a thousand other
      requests were agreed on or read; in a stretch without removals, exactly then. */
  lemma AgreementSurvives(env: Env, s: State, a: Action, u: Uuid, actions: seq<Action>)
    requires Inv(env, s) && Enabled(env, s, a) && AgreementTouched(s, a) == Some(u)
    requires Valid(env, Next(env, s, a), actions)
    requires Lru.LeftAlone(AGREEMENTS, Next(env, s, a).store, StoreTrace(env, Next(env, s, a), actions), u)
    ensures var s' := Next(env, s, a);
            var trace, last := StoreTrace(env, s', actions), Final(env, s', actions);
            && Lru.Lookup(s'.store, u) == (if a.AHello? then Some(a.secret) else Lru.Lookup(s.store, u))
            && Lru.Lookup(s'.store, u).Some?
            && (|Lru.Touched(AGREEMENTS, s'.store, trace)| < 1000 ==> Lru.Lookup(last.store, u) == Lru.Lookup(s'.store, u))
            && (Lru.NoRemovals(trace) ==>
                  (Lru.Lookup(last.store, u).Some? <==> |Lru.Touched(AGREEMENTS, s'.store, trace)| < 1000))
  {
    hide Valid, Final, JobInv, FlowInv, Lru.Lookup, Lru.Touched, StoreTrace, Lru.LeftAlone, Lru.Apply, Next;
    var s' := Next(env, s, a);
    var op := if a.AHello? then Lru.Insert(u, a.secret) else Lru.Read(u);
    StoreStep(env, s, a);
    assert StoreOps(env, s, a) == [op];
    RunOne(s.store, op);
    hide Lru.Run;
    StoreOfRun(env, s', actions);
    var older, e := Lru.TouchedIsLast(AGREEMENTS, s.store, op);
    Lru.SplitLookup(older, e, []);
    assert older + [e] + [] == older + [e];
    Lru.Survival(AGREEMENTS, older, e, StoreTrace(env, s', actions));
  }

  lemma RunOne(c: Lru.Cache<Uuid, Bytes>, op: Lru.Op<Uuid, Bytes>)
    ensures Lru.Run(AGREEMENTS, c, [op]) == Lru.Apply(AGREEMENTS, c, op)
  {
    hide Lru.Apply;
    assert Lru.Run(AGREEMENTS, Lru.Apply(AGREEMENTS, c, op), []) == Lru.Apply(AGREEMENTS, c, op);
  }

  /** What a step learns from the store: whether a `hello` was accepted, which secret a
      `submit_request` found. */
  ghost function StoreAnswers(env: Env, s: State, a: Action): seq<Lru.Answer<Bytes>>
    requires Enabled(env, s, a)
  {
    match a
    case AHello(u, _) => [if |Next(env, s, a).log.hellos| > |s.log.hellos| then Lru.Inserted else Lru.Duplicate]
    case AReadKey(id, _) => [Lru.Secret(Lru.Lookup(s.store, s.tasks[id].uuid))]
    case ARemoveAgreement(_) => [Lru.Removed]
    case _ => []
  }

  ghost function AnswersOfRun(env: Env, s: State, actions: seq<Action>): seq<Lru.Answer<Bytes>>
    requires Valid(env, s, actions)
    decreases |actions|
  {
    if actions == [] then []
    else StoreAnswers(env, s, actions[0]) + AnswersOfRun(env, Next(env, s, actions[0]), actions[1..])
  }

  lemma AnswersOfStep(env: Env, s: State, a: Action)
    requires Enabled(env, s, a)
    ensures StoreAnswers(env, s, a) == Lru.Answers(AGREEMENTS, s.store, StoreOps(env, s, a))
  {
    hide Lru.Apply, Lru.Lookup, Validate;
    var ops := StoreOps(env, s, a);
    if ops != [] {
      assert Lru.Answers(AGREEMENTS, Lru.Apply(AGREEMENTS, s.store, ops[0]), []) == [];
      assert ops[1..] == [];
    }
  }

  lemma {:induction false} AnswersConcat(c: Lru.Cache<Uuid, Bytes>, a: seq<Lru.Op<Uuid, Bytes>>, b: seq<Lru.Op<Uuid, Bytes>>)
    ensures Lru.Answers(AGREEMENTS, c, a + b) ==
            Lru.Answers(AGREEMENTS, c, a) + Lru.Answers(AGREEMENTS, Lru.Run(AGREEMENTS, c, a), b)
    decreases |a|
  {
    hide Lru.Apply;
    if a == [] {
      assert a + b == b;
    } else {
      assert (a + b)[1..] == a[1..] + b;
      AnswersConcat(Lru.Apply(AGREEMENTS, c, a[0]), a[1..], b);
    }
  }

  lemma {:induction false} AnswersOfTrace(env: Env, s: State, actions: seq<Action>)
    requires Valid(env, s, actions)
    ensures AnswersOfRun(env, s, actions) == Lru.Answers(AGREEMENTS, s.store, StoreTrace(env, s, actions))
    decreases |actions|
  {
    hide Next, Enabled, Lru.Apply, StoreAnswers, StoreOps;
    if actions != [] {
      var s' := Next(env, s, actions[0]);
      AnswersOfStep(env, s, actions[0]);
      StoreStep(env, s, actions[0]);
      AnswersOfTrace(env, s', actions[1..]);
      AnswersConcat(s.store, StoreOps(env, s, actions[0]), StoreTrace(env, s', actions[1..]));
    }
  }

  /** A run in which no more than a thousand agreements are ever live is one in which
      eviction cannot be noticed: handlers are answered as by a plain map that refuses
      to overwrite. */
  lemma RunLikeMap(env: Env, start: State, actions: seq<Action>)
    requires Init(start) && Valid(env, start, actions)
    requires Lru.Fits(AGREEMENTS, map[], StoreTrace(env, start, actions))
    ensures AnswersOfRun(env, start, actions) == Lru.MapAnswers(map[], StoreTrace(env, start, actions))
  {
    hide Valid, StoreTrace, AnswersOfRun, Lru.Fits, Lru.Answers, Lru.MapAnswers;
    AnswersOfTrace(env, start, actions);
    Lru.AnswersLikeMap(AGREEMENTS, start.store, map[], StoreTrace(env, start, actions));
  }

  // ----- steps -----

  /** Isolation: an action on behalf of one request leaves the row, the folder, the
      history, the admission and the marks of every other request as they are. */
  lemma Isolation(env: Env, s: State, a: Action, u: Uuid)
    requires Enabled(env, s, a) && Some(u) != Actor(s, a)
    ensures Look(Next(env, s, a), u) == Look(s, u)
  {
    hide Next, Enabled, Look;
    if DirAction(a) {
      DirLook(env, s, a, u);
    } else if RowAction(a) {
      RowLook(env, s, a, u);
    } else {
      QuietLook(env, s, a);
    }
  }

  ghost predicate Follows(a: Status, b: Status) {
    match a
    case Pending => b == WitnessGenerated || b == Failed
    case WitnessGenerated => b == ProofGenerated || b == Failed
    case ProofGenerated => false
    case Failed => false
  }

  /** Rows move only along the lifecycle: a step leaves a row as it is or takes its
      status one allowed step on. In particular terminal rows, and all rows of earlier
      runs, never change, although no UPDATE looks at the old status. */
  lemma RowMoves(env: Env, s: State, a: Action, u: Uuid)
    requires Inv(env, s) && Enabled(env, s, a) && u in s.table.rows
    ensures u in Next(env, s, a).table.rows
    ensures var r, r' := s.table.rows[u], Next(env, s, a).table.rows[u];
            r' == r || (u in s.log.admitted && Follows(r.status, r'.status))
  {
    hide Next, Enabled, Look, RecordOk;
    if !RowAction(a) {
      if DirAction(a) { DirLook(env, s, a, u); } else { QuietLook(env, s, a); }
    } else if Some(u) == Actor(s, a) {
      RowMovesOwn(env, s, a, u);
    } else {
      RowLook(env, s, a, u);
      LookMeans(s, Next(env, s, a), u);
    }
  }

  lemma RowMovesOwn(env: Env, s: State, a: Action, u: Uuid)
    requires Inv(env, s) && Enabled(env, s, a) && u in s.table.rows && RowAction(a) && Some(u) == Actor(s, a)
    ensures u in Next(env, s, a).table.rows
    ensures var r, r' := s.table.rows[u], Next(env, s, a).table.rows[u];
            r' == r || (u in s.log.admitted && Follows(r.status, r'.status))
  {
    hide SessionInv, FlowInv, JobInv, AnswerInv, JobOk, RecordOk, StatusHistory, RowsOk, Next;
    StatementRow(env, s, a, u);
    if !a.AInsertRow? {
      assert Holds(s, TaskSlot(a.id), u);
      JobSteps.Known(env, s, TaskSlot(a.id), u);
      StatementStatus(env, s.tasks[a.id], Look(s, u));
    }
  }

  lemma StatementStatus(env: Env, t: Task, v: View)
    requires JobOk(env, t, v)
    ensures t.MarkWitness? ==> v.row.value.status == Pending
    ensures t.StoreProof? ==> v.row.value.status == WitnessGenerated
    ensures t.FailRow? ==> v.row.value.status == Pending || v.row.value.status == WitnessGenerated
  {
    hide Made, IsWitness, ZkeyOf;
  }

  /** Stability of files: `input.json` changes only while its own file task writes it,
      and `output.wtns` only when its own witness program ends, until the folder goes. */
  lemma FilesStable(env: Env, s: State, a: Action, u: Uuid)
    requires Enabled(env, s, a) && u in s.dirs
    requires !(a.ARemoveDir? && Actor(s, a) == Some(u))
    ensures var s' := Next(env, s, a);
            && u in s'.dirs
            && (s'.dirs[u].input != s.dirs[u].input ==> Actor(s, a) == Some(u) && (a.AMakeInput? || a.AWriteInput?))
            && (s'.dirs[u].wtns != s.dirs[u].wtns ==> Actor(s, a) == Some(u) && a.AAwaitWitness?)
            && (s'.dirs[u].proof != s.dirs[u].proof || s'.dirs[u].publics != s.dirs[u].publics ==>
                  Actor(s, a) == Some(u) && a.AAwaitProof?)
  {
    hide Next, Enabled;
    if RowAction(a) {
      RowDirs(env, s, a);
    } else if !DirAction(a) {
      QuietLook(env, s, a);
    } else if Some(u) != Actor(s, a) {
      DirLook(env, s, a, u);
      LookMeans(s, Next(env, s, a), u);
    } else if FolderAction(a) {
      FolderFiles(env, s, a, u);
    } else {
      ProgramFiles(env, s, a, u);
    }
  }

  // ----- the witness between its program and the prover -----

  /** What a successful witness program left is noted once and for all. */
  lemma WitnessNoted(env: Env, s: State, a: Action, u: Uuid)
    requires Inv(env, s) && Enabled(env, s, a) && u in s.log.witnessed
    ensures u in Next(env, s, a).log.witnessed && Next(env, s, a).log.witnessed[u] == s.log.witnessed[u]
  {
    hide Next, Enabled, Inv;
    if a.AAwaitWitness? && Actor(s, a) == Some(u) {
      NotedIsLater(env, s, a, u);
    } else if Actor(s, a) != Some(u) {
      Isolation(env, s, a, u);
      LookMeans(s, Next(env, s, a), u);
    } else {
      StepNotes(env, s, a);
    }
  }

  lemma NotedIsLater(env: Env, s: State, a: Action, u: Uuid)
    requires Inv(env, s) && Enabled(env, s, a) && a.AAwaitWitness? && Actor(s, a) == Some(u)
    ensures u !in s.log.witnessed
  {
    hide Inv, JobOk, RecordOk, WitnessOk;
    HeldOk(env, s, TaskSlot(a.id));
    JobSteps.BeforeWitness(env, s.tasks[a.id], Look(s, u));
  }

  lemma {:induction false} WitnessNotedInRun(env: Env, s: State, actions: seq<Action>, u: Uuid)
    requires Inv(env, s) && Valid(env, s, actions) && u in s.log.witnessed
    ensures var last := Final(env, s, actions);
            Inv(env, last) && u in last.log.witnessed && last.log.witnessed[u] == s.log.witnessed[u]
    decreases |actions|
  {
    hide Next, Enabled, Inv;
    if actions != [] {
      WitnessNoted(env, s, actions[0], u);
      InvKept(env, s, actions[0]);
      WitnessNotedInRun(env, Next(env, s, actions[0]), actions[1..], u);
    }
  }

  /** The witness that is proved: from the end of the witness program to the start of the
      prover, `output.wtns` is the file that program left, whatever runs in between; and
      it is the file that the prover has read. */
  lemma WitnessStable(env: Env, start: State, actions: seq<Action>, id: nat, out: Option<Wtns>, now: nat, more: seq<Action>, sl: Slot)
    requires Init(start) && Valid(env, start, actions)
    requires Enabled(env, Final(env, start, actions), AAwaitWitness(id, None, out, now))
    requires Valid(env, Next(env, Final(env, start, actions), AAwaitWitness(id, None, out, now)), more)
    requires var s := Final(env, start, actions);
             var t := Held(Final(env, Next(env, s, AAwaitWitness(id, None, out, now)), more), sl);
             t.Some? && t.value.uuid == s.tasks[id].uuid && NamesKey(t.value)
    ensures var s := Final(env, start, actions);
            var last := Final(env, Next(env, s, AAwaitWitness(id, None, out, now)), more);
            var u, t := s.tasks[id].uuid, Held(last, sl).value;
            u in last.dirs && last.dirs[u].wtns == out && (t.AwaitProof? ==> out == Some(t.wtns))
  {
    hide Valid, Final, Init, Inv, Enabled, Next, JobOk, RecordOk, Held;
    var s, a := Final(env, start, actions), AAwaitWitness(id, None, out, now);
    Reached(env, start, actions);
    ProgramNoted(env, s, id, out, now);
    var u, s' := s.tasks[id].uuid, Next(env, s, a);
    InvKept(env, s, a);
    WitnessNotedInRun(env, s', more, u);
    HeldOk(env, Final(env, s', more), sl);
    WitnessOfJob(env, Held(Final(env, s', more), sl).value, Look(Final(env, s', more), u));
  }

  lemma ProgramNoted(env: Env, s: State, id: nat, out: Option<Wtns>, now: nat)
    requires Inv(env, s) && Enabled(env, s, AAwaitWitness(id, None, out, now))
    ensures At(s, id) && s.tasks[id].uuid in Next(env, s, AAwaitWitness(id, None, out, now)).log.witnessed
    ensures Next(env, s, AAwaitWitness(id, None, out, now)).log.witnessed[s.tasks[id].uuid] == Left(out, now)
  {
    hide Inv, JobOk, RecordOk, WitnessOk, LeaveWitness, Join;
    HeldOk(env, s, TaskSlot(id));
    CircuitOfJob(env, s.tasks[id], Look(s, s.tasks[id].uuid));
  }

  lemma WitnessOfJob(env: Env, t: Task, v: View)
    requires JobOk(env, t, v) && NamesKey(t)
    ensures v.dir.Some? && v.left.Some? && v.left.value.wtns == v.dir.value.wtns
    ensures t.AwaitProof? ==> v.dir.value.wtns == Some(t.wtns)
  {
    hide ZkeyOf, IsWitness, Made;
  }
}
