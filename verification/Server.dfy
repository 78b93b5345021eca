/** The server as an object: its tasks work on shared objects in place. Every `On...` method
    but `OnFault` is one action; its contract is that the value of the server changes as the
    step machine says, so the theorems about runs of the machine hold of this object. */
module Server {
  import opened Base
  import opened Paths
  import opened Proofs
  import opened Machine
  import opened Parts
  import opened Store
  import opened Runs
  import Lru

  class Server {
    const env: Env
    const store: LruStore
    const table: ProofsTable
    const disk: Workspace
    const fileQ: Channel<FileGenerator>
    const witnessQ: Channel<WitnessGenerator>
    const proofQ: Channel<ProofGenerator>
    var tasks: map<nat, Task>
    var nextId: nat
    ghost var log: History

    ghost predicate Valid()
      reads this, store, store.cache, table, disk, fileQ, witnessQ, proofQ
    {
      && store.Valid() && store.cache.capacity == AGREEMENTS
      && disk.Valid() && fileQ.Valid() && witnessQ.Valid() && proofQ.Valid()
      && fileQ as object != witnessQ && fileQ as object != proofQ && witnessQ as object != proofQ
    }

    /** The server as a state of the step machine. */
    ghost function Value(): State
      reads this, store, table, disk, fileQ, witnessQ, proofQ
    {
      State(store.contents, table.Value(), disk.dirs, fileQ.Value(), witnessQ.Value(), proofQ.Value(), tasks, nextId, log)
    }

    /** A server that finds the given rows in its table and the given folders in its
        directory, left behind by requests of earlier runs. */
    constructor (env: Env, rows: map<Uuid, Row>, dirs: map<Uuid, Dir>)
      requires dirs.Keys <= rows.Keys
      ensures Valid() && this.env == env && Init(Value()) && Value().table.rows == rows && Value().dirs == dirs
      ensures fresh(store) && fresh(store.cache) && fresh(table) && fresh(disk)
      ensures fresh(fileQ) && fresh(witnessQ) && fresh(proofQ)
    {
      this.env := env;
      store := new LruStore(AGREEMENTS);
      table := new ProofsTable(rows);
      disk := new Workspace(dirs);
      fileQ := new Channel<FileGenerator>();
      witnessQ := new Channel<WitnessGenerator>();
      proofQ := new Channel<ProofGenerator>();
      tasks := map[];
      nextId := 1;
      log := History(rows, map[], [], [], map[], map[], map[], [], [], [], map[], map[], map[], {}, {}, {}, 0);
    }

    // ----- RPC handlers -----

    method OnHello(u: Uuid, secret: Bytes) returns (ok: bool)
      requires Valid()
      modifies this`log, store, store.cache
      ensures Valid() && Value() == Hello(old(Value()), u, secret)
      ensures ok <==> Lru.Lookup(old(store.contents), u).None?
    {
      hide Lru.Lookup;
      ok := store.InsertNewAgreement(u, secret);
      if ok {
        log := log.(hellos := log.hellos + [Agreement(u, secret)]);
      }
    }

    method OnSubmit(u: Uuid, call: Call)
      requires Valid()
      modifies this`tasks, this`nextId, this`log
      ensures Valid() && Value() == Submit(old(Value()), u, call)
    {
      if |call.nonce| == 12 && |call.tag| == 16 {
        tasks := tasks[nextId := Reading(u, call)];
        log := log.(calls := log.calls[nextId := Asked(u, call)]);
        nextId := nextId + 1;
      }
    }

    method OnReadKey(id: nat, now: nat)
      requires Valid() && id in tasks && tasks[id].Reading?
      modifies this`tasks, this`log, store, store.cache
      ensures Valid() && Value() == ReadKey(env, old(Value()), id, now)
    {
      hide Workspace.Valid, LruStore.Valid, LruCache.Valid;
      hide Lru.Apply, Lru.Lookup;
      var t := tasks[id];
      var key := store.GetSharedSecret(t.uuid);
      log := log.(keyReads := log.keyReads[id := |log.hellos|]);
      var submit := Validate(env, t.call, key);
      if submit.None? {
        tasks := tasks[id := Removing(t.uuid, false)];
      } else {
        tasks := tasks[id := Inserting(t.uuid, t.call, submit.value, key.value, now)];
        log := log.(clockReads := log.clockReads[id := now], clock := now);
      }
    }

    method OnInsertRow(id: nat, dbOk: bool)
      requires Valid() && id in tasks && tasks[id].Inserting?
      modifies this`tasks, this`log, table
      ensures Valid() && Value() == InsertRow(old(Value()), id, dbOk)
    {
      var t := tasks[id];
      var ok := table.CreateProofStatus(t.uuid, t.submit, t.now, dbOk);
      if !ok {
        tasks := tasks[id := Removing(t.uuid, false)];
      } else {
        tasks := tasks[id := Sending(t.uuid, t.submit.request)];
        log := log.(
          admitted := log.admitted[t.uuid := Admission(t.call, t.submit, t.key, id, t.now)],
          admissions := log.admissions + [t.uuid]);
      }
    }

    method OnSendFile(id: nat)
      requires Valid() && id in tasks && tasks[id].Sending? && fileQ.Value().Room()
      modifies this`tasks, fileQ
      ensures Valid() && Value() == SendFile(old(Value()), id)
    {
      var t := tasks[id];
      fileQ.Send(FileGenerator(t.uuid, t.request));
      tasks := tasks[id := Removing(t.uuid, true)];
    }

    method OnRemoveAgreement(id: nat)
      requires Valid() && id in tasks && tasks[id].Removing?
      modifies this`tasks, this`log, store, store.cache
      ensures Valid() && Value() == RemoveAgreement(old(Value()), id)
    {
      hide Lru.Apply;
      var u := tasks[id].uuid;
      ghost var ok := tasks[id].ok;
      store.RemoveAgreement(u);
      tasks := tasks - {id};
      log := log.(returned := log.returned + [Return(u, id, ok, |log.hellos|)]);
    }

    /** A fault sends the task on to the cleanup. */
    method OnFault(id: nat, reason: string)
      requires Valid() && id in tasks
      modifies this`tasks, this`log
      ensures Valid() && Value() == Fail(old(Value()), id, reason)
    {
      var u := tasks[id].uuid;
      tasks := tasks[id := FailRow(u, reason)];
      log := log.(reported := log.reported[u := reason]);
    }

    // ----- the loop and tasks of the file stage -----

    method OnRecvFile()
      requires Valid() && fileQ.Value().Ready()
      modifies this`tasks, this`nextId, fileQ
      ensures Valid() && Value() == RecvFile(old(Value()))
    {
      var g := fileQ.Receive();
      tasks := tasks[nextId := MakeDir(g.uuid, g.request)];
      nextId := nextId + 1;
    }

    method OnMakeDir(id: nat, err: Option<string>)
      requires Valid() && id in tasks && tasks[id].MakeDir?
      modifies this`tasks, this`log, disk
      ensures Valid() && Value() == DoMakeDir(old(Value()), id, err)
    {
      hide Workspace.Valid, LruStore.Valid, LruCache.Valid;
      var t := tasks[id];
      if err.Some? {
        OnFault(id, err.value);
        return;
      }
      var d := disk.Read(t.uuid);
      if d.None? {
        disk.Write(t.uuid, EMPTY_DIR);
      }
      tasks := tasks[id := MakeInput(t.uuid, t.request)];
    }

    method OnMakeInput(id: nat, err: Option<string>)
      requires Valid() && id in tasks && tasks[id].MakeInput? && FileOk(Value(), id, err)
      modifies this`tasks, this`log, disk
      ensures Valid() && Value() == DoMakeInput(old(Value()), id, err)
    {
      hide Workspace.Valid, LruStore.Valid, LruCache.Valid;
      var t := tasks[id];
      if err.Some? {
        OnFault(id, err.value);
        return;
      }
      var d := disk.Read(t.uuid);
      disk.Write(t.uuid, d.value.(input := Some("")));
      tasks := tasks[id := WriteInput(t.uuid, t.request)];
    }

    method OnWriteInput(id: nat, err: Option<string>)
      requires Valid() && id in tasks && tasks[id].WriteInput? && FileOk(Value(), id, err)
      modifies this`tasks, this`log, disk
      ensures Valid() && Value() == DoWriteInput(old(Value()), id, err)
    {
      hide Workspace.Valid, LruStore.Valid, LruCache.Valid;
      var t := tasks[id];
      if err.Some? {
        OnFault(id, err.value);
        return;
      }
      var d := disk.Read(t.uuid);
      disk.Write(t.uuid, d.value.(input := Some(t.request.circuit.inputs)));
      tasks := tasks[id := SendWitness(t.uuid, t.request.circuit.name)];
    }

    method OnSendWitness(id: nat)
      requires Valid() && id in tasks && tasks[id].SendWitness? && witnessQ.Value().Room()
      modifies this`tasks, witnessQ
      ensures Valid() && Value() == DoSendWitness(old(Value()), id)
    {
      var t := tasks[id];
      witnessQ.Send(WitnessGenerator(t.uuid, t.name));
      tasks := tasks - {id};
    }

    // ----- the loop and tasks of the witness stage -----

    method OnRecvWitness()
      requires Valid() && witnessQ.Value().Ready()
      modifies this`tasks, this`nextId, witnessQ
      ensures Valid() && Value() == RecvWitness(old(Value()))
    {
      var g := witnessQ.Receive();
      tasks := tasks[nextId := Chmod(g.uuid, g.name)];
      nextId := nextId + 1;
    }

    method OnChmod(id: nat, err: Option<string>)
      requires Valid() && id in tasks && tasks[id].Chmod?
      modifies this`tasks, this`log
      ensures Valid() && Value() == DoChmod(old(Value()), id, err)
    {
      if err.Some? {
        OnFault(id, err.value);
        return;
      }
      tasks := tasks[id := StartWitness(tasks[id].uuid, tasks[id].name)];
    }

    method OnStartWitness(id: nat)
      requires Valid() && id in tasks && tasks[id].StartWitness?
      modifies this`tasks
      ensures Valid() && Value() == DoStartWitness(old(Value()), id)
    {
      var t := tasks[id];
      var d := disk.Read(t.uuid);
      tasks := tasks[id := AwaitWitness(t.uuid, t.name, if d.Some? then d.value.input else None)];
    }

    /** What the witness program writes into the folder of `u`. */
    method WriteWitness(u: Uuid, out: Option<Wtns>)
      requires Valid()
      modifies disk
      ensures Valid() && disk.dirs == LeaveWitness(old(disk.dirs), u, out)
    {
      hide Workspace.Valid, LruStore.Valid, LruCache.Valid;
      var d := disk.Read(u);
      if out.Some? && d.Some? {
        disk.Write(u, d.value.(wtns := out));
      }
    }

    method OnAwaitWitness(id: nat, err: Option<string>, out: Option<Wtns>, now: nat)
      requires Valid() && id in tasks && tasks[id].AwaitWitness?
      modifies this`tasks, this`log, disk
      ensures Valid() && Value() == DoAwaitWitness(env, old(Value()), id, err, out, now)
    {
      hide Workspace.Valid, LruStore.Valid, LruCache.Valid, Join, LeaveWitness, WithFault;
      var t := tasks[id];
      WriteWitness(t.uuid, out);
      var fault := if err.Some? then err else if out.None? then Some(NO_WITNESS) else None;
      var ok := err.None? && t.name in env.zkeys;
      if err.Some? {
        tasks := tasks[id := FailRow(t.uuid, err.value)];
      } else if ok {
        tasks := tasks[id := MarkWitness(t.uuid, Join(env.zkeyFolder, env.zkeys[t.name]), now)];
      } else {
        tasks := tasks - {id};
      }
      log := log.(
        reported := WithFault(log.reported, t.uuid, fault),
        witnessed := if ok then log.witnessed[t.uuid := Left(out, now)] else log.witnessed,
        panicked := log.panicked + if err.None? && !ok then {t.uuid} else {},
        clock := if ok then now else log.clock);
    }

    method OnMarkWitness(id: nat, dbErr: Option<string>)
      requires Valid() && id in tasks && tasks[id].MarkWitness?
      modifies this`tasks, this`log, table
      ensures Valid() && Value() == DoMarkWitness(old(Value()), id, dbErr)
    {
      var t := tasks[id];
      if dbErr.Some? {
        OnFault(id, dbErr.value);
        return;
      }
      table.SetWitnessGenerated(t.uuid, t.now);
      tasks := tasks[id := SendProof(t.uuid, t.zkey)];
    }

    method OnSendProof(id: nat)
      requires Valid() && id in tasks && tasks[id].SendProof? && proofQ.Value().Room()
      modifies this`tasks, proofQ
      ensures Valid() && Value() == DoSendProof(old(Value()), id)
    {
      var t := tasks[id];
      proofQ.Send(ProofGenerator(t.uuid, t.zkey));
      tasks := tasks - {id};
    }

    // ----- the proof worker -----

    method OnRecvProof()
      requires Valid() && proofQ.Value().Ready() && WORKER !in tasks
      modifies this`tasks, proofQ
      ensures Valid() && Value() == RecvProof(old(Value()))
    {
      var g := proofQ.Receive();
      tasks := tasks[WORKER := StartProof(g.uuid, g.zkey)];
    }

    method OnStartProof(id: nat)
      requires Valid() && id in tasks && tasks[id].StartProof?
      modifies this`tasks
      ensures Valid() && Value() == DoStartProof(old(Value()), id)
    {
      hide Workspace.Valid, LruStore.Valid, LruCache.Valid;
      var t := tasks[id];
      var d := disk.Read(t.uuid);
      if d.None? || d.value.wtns.None? {
        tasks := tasks[id := FailRow(t.uuid, NO_WITNESS)];
      } else {
        tasks := tasks[id := AwaitProof(t.uuid, t.zkey, d.value.wtns.value)];
      }
    }

    /** What the prover writes into the folder of `u`. */
    method WriteProof(u: Uuid, proof: Option<string>, publics: Option<string>)
      requires Valid()
      modifies disk
      ensures Valid() && disk.dirs == LeaveProof(old(disk.dirs), u, proof, publics)
    {
      hide Workspace.Valid, LruStore.Valid, LruCache.Valid;
      var d := disk.Read(u);
      if d.Some? {
        disk.Write(u, d.value.(
          proof := if proof.Some? then proof else d.value.proof,
          publics := if publics.Some? then publics else d.value.publics));
      }
    }

    method OnAwaitProof(id: nat, err: Option<string>, proof: Option<string>, publics: Option<string>, now: nat)
      requires Valid() && id in tasks && tasks[id].AwaitProof?
      modifies this`tasks, this`log, disk
      ensures Valid() && Value() == DoAwaitProof(env, old(Value()), id, err, proof, publics, now)
    {
      hide Workspace.Valid, LruStore.Valid, LruCache.Valid, ReadError, LeaveProof;
      var t := tasks[id];
      WriteProof(t.uuid, proof, publics);
      var files := disk.Read(t.uuid);
      var d := if files.Some? then files.value else EMPTY_DIR;
      var fault := ProverFault(env, t.uuid, err, d.proof, d.publics);
      log := log.(reported := WithFault(log.reported, t.uuid, ProverFault(env, t.uuid, err, proof, publics)));
      if fault.Some? {
        tasks := tasks[id := FailRow(t.uuid, fault.value)];
        return;
      }
      var pq := Parsed(env, d.proof, d.publics);
      tasks := tasks[id := StoreProof(t.uuid, pq.value.0, pq.value.1, now)];
      log := log.(finished := log.finished[t.uuid := Finish(pq.value.0, pq.value.1, now)], clock := now);
    }

    method OnStoreProof(id: nat, dbErr: Option<string>)
      requires Valid() && id in tasks && tasks[id].StoreProof?
      modifies this`tasks, this`log, table
      ensures Valid() && Value() == DoStoreProof(old(Value()), id, dbErr)
    {
      hide Update;
      var t := tasks[id];
      if dbErr.Some? {
        OnFault(id, "Could not update proof: " + dbErr.value);
        return;
      }
      table.UpdateProof(t.uuid, t.now, t.proof, t.publicInputs);
      tasks := tasks[id := RemoveDir(t.uuid)];
    }

    // ----- cleanup -----

    method OnFailRow(id: nat, dbOk: bool)
      requires Valid() && id in tasks && tasks[id].FailRow?
      modifies this`tasks, this`log, table
      ensures Valid() && Value() == DoFailRow(old(Value()), id, dbOk)
    {
      var t := tasks[id];
      if dbOk {
        table.FailProof(t.uuid, t.reason);
      } else {
        log := log.(unfailed := log.unfailed + {t.uuid});
      }
      tasks := tasks[id := RemoveDir(t.uuid)];
    }

    method OnRemoveDir(id: nat, left: Option<Dir>)
      requires Valid() && id in tasks && tasks[id].RemoveDir?
      modifies this`tasks, this`log, disk
      ensures Valid() && Value() == DoRemoveDir(old(Value()), id, left)
    {
      hide Workspace.Valid, LruStore.Valid, LruCache.Valid;
      var u := tasks[id].uuid;
      var d := disk.Read(u);
      if d.Some? && left.Some? {
        disk.Write(u, left.value);
      } else {
        disk.Remove(u);
      }
      tasks := tasks - {id};
      log := log.(
        ended := log.ended + [u],
        proved := log.proved + if id == WORKER then [u] else [],
        leaked := log.leaked + if u in old(disk.dirs) && left.Some? then {u} else {});
    }

    // ----- whole runs -----

    /** One action of the pipeline behind the handlers. */
    method PerformJob(a: Action)
      requires Valid() && Enabled(env, Value(), a)
      requires !Calls(a) && !a.AReadKey? && !a.AInsertRow? && !a.ASendFile? && !a.ARemoveAgreement?
      modifies this, table, disk, fileQ, witnessQ, proofQ
      ensures Valid() && Value() == Next(env, old(Value()), a)
    {
      hide Valid;
      hide RecvFile, DoMakeDir, DoMakeInput, DoWriteInput, DoSendWitness, RecvWitness, DoChmod, DoStartWitness;
      hide DoAwaitWitness, DoMarkWitness, DoSendProof, RecvProof, DoStartProof, DoAwaitProof, DoStoreProof;
      hide DoFailRow, DoRemoveDir, WitnessOk, ProverOk;
      match a
      case ARecvFile => OnRecvFile();
      case AMakeDir(id, err) => OnMakeDir(id, err);
      case AMakeInput(id, err) => OnMakeInput(id, err);
      case AWriteInput(id, err) => OnWriteInput(id, err);
      case ASendWitness(id) => OnSendWitness(id);
      case ARecvWitness => OnRecvWitness();
      case AChmod(id, err) => OnChmod(id, err);
      case AStartWitness(id) => OnStartWitness(id);
      case AAwaitWitness(id, err, out, now) => OnAwaitWitness(id, err, out, now);
      case AMarkWitness(id, dbErr) => OnMarkWitness(id, dbErr);
      case ASendProof(id) => OnSendProof(id);
      case ARecvProof => OnRecvProof();
      case AStartProof(id) => OnStartProof(id);
      case AAwaitProof(id, err, p, q, now) => OnAwaitProof(id, err, p, q, now);
      case AStoreProof(id, dbErr) => OnStoreProof(id, dbErr);
      case AFailRow(id, dbOk) => OnFailRow(id, dbOk);
      case ARemoveDir(id, left) => OnRemoveDir(id, left);
    }

    /** One action of a handler. */
    method PerformHandler(a: Action)
      requires Valid() && Enabled(env, Value(), a)
      requires Calls(a) || a.AReadKey? || a.AInsertRow? || a.ASendFile? || a.ARemoveAgreement?
      modifies this, store, store.cache, table, fileQ
      ensures Valid() && Value() == Next(env, old(Value()), a)
    {
      hide Valid;
      hide Hello, Submit, ReadKey, InsertRow, SendFile, RemoveAgreement;
      match a
      case AHello(u, secret) => var _ := OnHello(u, secret);
      case ASubmit(u, call) => OnSubmit(u, call);
      case AReadKey(id, now) => OnReadKey(id, now);
      case AInsertRow(id, dbOk) => OnInsertRow(id, dbOk);
      case ASendFile(id) => OnSendFile(id);
      case ARemoveAgreement(id) => OnRemoveAgreement(id);
    }

    /** One action, chosen from outside. */
    method Perform(a: Action)
      requires Valid() && Enabled(env, Value(), a)
      modifies this, store, store.cache, table, disk, fileQ, witnessQ, proofQ
      ensures Valid() && Value() == Next(env, old(Value()), a)
    {
      hide Valid, Value, Next, Enabled;
      if Calls(a) || a.AReadKey? || a.AInsertRow? || a.ASendFile? || a.ARemoveAgreement? {
        PerformHandler(a);
      } else {
        PerformJob(a);
      }
    }

    /** A whole run under any schedule; the invariant holds throughout. */
    method Run(actions: seq<Action>)
      requires Valid() && Inv(env, Value()) && Machine.Valid(env, Value(), actions)
      modifies this, store, store.cache, table, disk, fileQ, witnessQ, proofQ
      ensures Valid() && Inv(env, Value())
      ensures Value() == Final(env, old(Value()), actions)
    {
      hide Inv, Next, Enabled;
      for i := 0 to |actions|
        invariant Valid() && Inv(env, Value())
        invariant Machine.Valid(env, Value(), actions[i..])
        invariant Final(env, Value(), actions[i..]) == Final(env, old(Value()), actions)
      {
        ghost var rest := actions[i..];
        assert rest[0] == actions[i] && rest[1..] == actions[i + 1..];
        InvKept(env, Value(), actions[i]);
        Perform(actions[i]);
      }
    }
  }
}
