/** The server as one step machine: RPC handlers, three bounded queues, spawned file
    and witness tasks and one proof worker, all sharing the agreement store, the
    `proofs` table and the working directory. One action is what one task does between
    two points at which it may be suspended. */
module Machine {
  import opened Base
  import opened Paths
  import opened Proofs
  import Lru

  const AGREEMENTS: nat := 1000
  const QUEUE: nat := 10

  /** The entry of the proof worker in the map of tasks. */
  const WORKER: nat := 0

  /** What the machine cannot see into: library calls, foreign programs, configuration.
      `witnesses(exe, input, w)` and `proves(zkey, w, proof, publics)` are relations, as a
      program may answer differently each time it runs. `proofError` and `publicsError`
      are the texts with which a malformed file is refused. */
  datatype Env = Env(
    decrypt: (Bytes, Bytes, Bytes, Bytes) -> Option<string>,
    parse: string -> Option<SubmitRequest>,
    admits: int -> bool,
    circuitFolder: string,
    zkeyFolder: string,
    zkeys: map<string, string>,
    witnesses: (string, string, Wtns) -> bool,
    proves: (string, Wtns, string, string) -> bool,
    parseProof: string -> Option<Proof>,
    parsePublics: string -> Option<PublicInputs>,
    proofError: string -> string,
    publicsError: string -> string)

  // ----- the working directory: the folder `./tmp_<uuid>` of each request -----

  datatype Dir = Dir(input: Option<string>, wtns: Option<Wtns>, proof: Option<string>, publics: Option<string>)

  const EMPTY_DIR := Dir(None, None, None, None)

  // ----- queues -----

  /** A channel, by everything ever sent into it and how much of that was received. */
  datatype Chan<T> = Chan(sent: seq<T>, taken: nat)
  {
    ghost predicate Ok() { taken <= |sent| && |sent| - taken <= QUEUE }

    predicate Room() { |sent| - taken < QUEUE }

    predicate Ready() { taken < |sent| }

    function Send(x: T): Chan<T> { Chan(sent + [x], taken) }

    function Take(): Chan<T> { Chan(sent, taken + 1) }
  }

  datatype FileGenerator = FileGenerator(uuid: Uuid, request: ProofRequest)
  datatype WitnessGenerator = WitnessGenerator(uuid: Uuid, name: string)
  datatype ProofGenerator = ProofGenerator(uuid: Uuid, zkey: string)

  // ----- tasks, by what they do next -----

  datatype Call = Call(nonce: Bytes, cipher: Bytes, tag: Bytes)

  /** A statement that stores a time is preceded by reading the clock: `now` is what the
      task has read, and the statement may be carried out any time later. */
  datatype Task =
    // RPC handlers
    | Reading(uuid: Uuid, call: Call)
    | Inserting(uuid: Uuid, call: Call, submit: SubmitRequest, key: Bytes, now: nat)
    | Sending(uuid: Uuid, request: ProofRequest)
    | Removing(uuid: Uuid, ok: bool)   // the answer it will give
    // file tasks
    | MakeDir(uuid: Uuid, request: ProofRequest)
    | MakeInput(uuid: Uuid, request: ProofRequest)
    | WriteInput(uuid: Uuid, request: ProofRequest)
    | SendWitness(uuid: Uuid, name: string)
    // witness tasks
    | Chmod(uuid: Uuid, name: string)
    | StartWitness(uuid: Uuid, name: string)
    | AwaitWitness(uuid: Uuid, name: string, input: Option<string>)
    | MarkWitness(uuid: Uuid, zkey: string, now: nat)
    | SendProof(uuid: Uuid, zkey: string)
    // the proof worker
    | StartProof(uuid: Uuid, zkey: string)
    | AwaitProof(uuid: Uuid, zkey: string, wtns: Wtns)
    | StoreProof(uuid: Uuid, proof: Proof, publicInputs: PublicInputs, now: nat)
    // cleanup, and the last step of a success
    | FailRow(uuid: Uuid, reason: string)
    | RemoveDir(uuid: Uuid)

  /** The task is the one place where a row of the table is being worked on. */
  predicate Owns(t: Task) {
    !t.Reading? && !t.Inserting? && !t.Removing?
  }

  predicate HandlerTask(t: Task) {
    t.Reading? || t.Inserting? || t.Sending? || t.Removing?
  }

  predicate WorkerOnly(t: Task) {
    t.StartProof? || t.AwaitProof? || t.StoreProof?
  }

  predicate WorkerStage(t: Task) {
    WorkerOnly(t) || t.FailRow? || t.RemoveDir?
  }

  // ----- history, kept beside the state -----

  datatype Agreement = Agreement(uuid: Uuid, secret: Bytes)

  /** A `submit_request` call with the right lengths. */
  datatype Asked = Asked(uuid: Uuid, call: Call)

  /** An admitted submission: the call, its decrypted content, the key that decrypted
      it, the handler that had read that key, and the time this handler read. */
  datatype Admission = Admission(call: Call, submit: SubmitRequest, key: Bytes, reader: nat, at: nat)

  /** What a successful witness program left, and the time read then. */
  datatype Left = Left(wtns: Option<Wtns>, now: nat)

  /** What was read back after a successful prover, and the time read then. */
  datatype Finish = Finish(proof: Proof, publicInputs: PublicInputs, now: nat)

  /** A `submit_request` call that has returned: its handler, whether it answered with
      success, and how many agreements had been made when it removed its own. */
  datatype Return = Return(uuid: Uuid, handler: nat, ok: bool, removedAt: nat)

  datatype History = History(
    prior: map<Uuid, Row>,            // rows of earlier runs
    admitted: map<Uuid, Admission>,
    admissions: seq<Uuid>,            // in order
    hellos: seq<Agreement>,           // successful `hello` calls, in order
    calls: map<nat, Asked>,           // for each handler: its call
    keyReads: map<nat, nat>,          // for each handler: agreements made when it read its key
    clockReads: map<nat, nat>,        // for each handler with a valid call: the time it read
    returned: seq<Return>,
    proved: seq<Uuid>,                // requests the proof worker is done with, in order
    ended: seq<Uuid>,                 // requests whose last task has ended, in order
    witnessed: map<Uuid, Left>,
    finished: map<Uuid, Finish>,
    reported: map<Uuid, string>,      // the last fault of the request, if it met any
    unfailed: set<Uuid>,              // `fail_proof` was refused by the database
    leaked: set<Uuid>,                // the folder could not be removed
    panicked: set<Uuid>,              // the task was lost in a panic
    clock: nat)                       // the last time that was read

  ghost predicate NoDup(q: seq<Uuid>) {
    forall i, j :: 0 <= i < j < |q| ==> q[i] != q[j]
  }

  datatype State = State(
    store: Lru.Cache<Uuid, Bytes>,
    table: Table,
    dirs: map<Uuid, Dir>,
    fileQ: Chan<FileGenerator>,
    witnessQ: Chan<WitnessGenerator>,
    proofQ: Chan<ProofGenerator>,
    tasks: map<nat, Task>,
    nextId: nat,
    log: History)

  // ----- small state changes -----

  ghost function SetTask(s: State, id: nat, t: Task): State {
    s.(tasks := s.tasks[id := t])
  }

  ghost function Spawn(s: State, t: Task): State {
    s.(tasks := s.tasks[s.nextId := t], nextId := s.nextId + 1)
  }

  ghost function GetDir(s: State, u: Uuid): Option<Dir> {
    if u in s.dirs then Some(s.dirs[u]) else None
  }

  ghost predicate At(s: State, id: nat) {
    id in s.tasks
  }

  ghost function WithFault(reported: map<Uuid, string>, u: Uuid, fault: Option<string>): map<Uuid, string> {
    if fault.Some? then reported[u := fault.value] else reported
  }

  /** The task has met a fault and goes on to the cleanup. */
  ghost function Fail(s: State, id: nat, reason: string): State
    requires At(s, id)
  {
    var u := s.tasks[id].uuid;
    s.(tasks := s.tasks[id := FailRow(u, reason)], log := s.log.(reported := s.log.reported[u := reason]))
  }

  // ----- RPC handlers -----

  /** `hello`, from the point where the agreement is stored. */
  ghost function Hello(s: State, u: Uuid, secret: Bytes): State {
    var op := Lru.Insert(u, secret);
    var s' := s.(store := Lru.Apply(AGREEMENTS, s.store, op));
    if Lru.Respond(s.store, op).Inserted?
    then s'.(log := s.log.(hellos := s.log.hellos + [Agreement(u, secret)]))
    else s'
  }

  /** A call with a nonce or tag of the wrong length is answered without any effect. */
  ghost function Submit(s: State, u: Uuid, call: Call): State {
    if |call.nonce| != 12 || |call.tag| != 16 then s
    else
      s.(tasks := s.tasks[s.nextId := Reading(u, call)], nextId := s.nextId + 1,
         log := s.log.(calls := s.log.calls[s.nextId := Asked(u, call)]))
  }

  /** Everything between reading the key and the INSERT: key length, decryption,
      parsing, admission of the proof type, known circuit. `None` is a refusal. */
  function Validate(env: Env, call: Call, key: Option<Bytes>): (r: Option<SubmitRequest>)
  {
    if key.None? || |key.value| != 32 then None
    else
      var text := env.decrypt(key.value, call.nonce, call.cipher, call.tag);
      if text.None? then None
      else
        var submit := env.parse(text.value);
        if submit.None? then None
        else if !env.admits(submit.value.request.proofType) then None
        else if submit.value.request.circuit.name !in env.zkeys then None
        else submit
  }

  /** When the call is valid, the clock is read for the row to come. */
  ghost function ReadKey(env: Env, s: State, id: nat, now: nat): State
    requires At(s, id) && s.tasks[id].Reading?
  {
    var t := s.tasks[id];
    var key := Lru.Lookup(s.store, t.uuid);
    var store := Lru.Apply(AGREEMENTS, s.store, Lru.Read(t.uuid));
    var submit := Validate(env, t.call, key);
    var task :=
      if submit.None? then Removing(t.uuid, false)
      else Inserting(t.uuid, t.call, submit.value, key.value, now);
    s.(store := store, tasks := s.tasks[id := task],
       log := s.log.(
         keyReads := s.log.keyReads[id := |s.log.hellos|],
         clockReads := if submit.None? then s.log.clockReads else s.log.clockReads[id := now],
         clock := if submit.None? then s.log.clock else now))
  }

  /** The INSERT: refused by the primary key when the row exists. */
  ghost function InsertRow(s: State, id: nat, dbOk: bool): State
    requires At(s, id) && s.tasks[id].Inserting?
  {
    var t := s.tasks[id];
    if !dbOk || t.uuid in s.table.rows then SetTask(s, id, Removing(t.uuid, false))
    else
      s.(tasks := s.tasks[id := Sending(t.uuid, t.submit.request)],
         table := Proofs.Insert(s.table, t.uuid, NewRow(t.submit, t.now)),
         log := s.log.(
           admitted := s.log.admitted[t.uuid := Admission(t.call, t.submit, t.key, id, t.now)],
           admissions := s.log.admissions + [t.uuid]))
  }

  ghost function SendFile(s: State, id: nat): State
    requires At(s, id) && s.tasks[id].Sending?
  {
    var t := s.tasks[id];
    s.(tasks := s.tasks[id := Removing(t.uuid, true)], fileQ := s.fileQ.Send(FileGenerator(t.uuid, t.request)))
  }

  /** The removal on every exit after the length checks, and the return. */
  ghost function RemoveAgreement(s: State, id: nat): State
    requires At(s, id) && s.tasks[id].Removing?
  {
    var u, ok := s.tasks[id].uuid, s.tasks[id].ok;
    s.(tasks := s.tasks - {id},
       store := Lru.Apply(AGREEMENTS, s.store, Lru.Remove(u)),
       log := s.log.(returned := s.log.returned + [Return(u, id, ok, |s.log.hellos|)]))
  }

  // ----- file tasks -----

  ghost function RecvFile(s: State): State
    requires s.fileQ.Ready()
  {
    var g := s.fileQ.sent[s.fileQ.taken];
    Spawn(s, MakeDir(g.uuid, g.request)).(fileQ := s.fileQ.Take())
  }

  /** `create_dir_all`: a folder that is already there is left as it is. */
  ghost function DoMakeDir(s: State, id: nat, err: Option<string>): State
    requires At(s, id) && s.tasks[id].MakeDir?
  {
    var t := s.tasks[id];
    if err.Some? then Fail(s, id, err.value)
    else
      s.(tasks := s.tasks[id := MakeInput(t.uuid, t.request)],
         dirs := if t.uuid in s.dirs then s.dirs else s.dirs[t.uuid := EMPTY_DIR])
  }

  /** `File::create` truncates. */
  ghost function DoMakeInput(s: State, id: nat, err: Option<string>): State
    requires At(s, id) && s.tasks[id].MakeInput?
    requires err.None? ==> GetDir(s, s.tasks[id].uuid).Some?
  {
    var t := s.tasks[id];
    if err.Some? then Fail(s, id, err.value)
    else
      var d := GetDir(s, t.uuid).value;
      s.(tasks := s.tasks[id := WriteInput(t.uuid, t.request)], dirs := s.dirs[t.uuid := d.(input := Some(""))])
  }

  ghost function DoWriteInput(s: State, id: nat, err: Option<string>): State
    requires At(s, id) && s.tasks[id].WriteInput?
    requires err.None? ==> GetDir(s, s.tasks[id].uuid).Some?
  {
    var t := s.tasks[id];
    if err.Some? then Fail(s, id, err.value)
    else
      var d := GetDir(s, t.uuid).value;
      var text := t.request.circuit.inputs;
      s.(tasks := s.tasks[id := SendWitness(t.uuid, t.request.circuit.name)], dirs := s.dirs[t.uuid := d.(input := Some(text))])
  }

  ghost function DoSendWitness(s: State, id: nat): State
    requires At(s, id) && s.tasks[id].SendWitness?
  {
    var t := s.tasks[id];
    s.(tasks := s.tasks - {id}, witnessQ := s.witnessQ.Send(WitnessGenerator(t.uuid, t.name)))
  }

  // ----- witness tasks -----

  ghost function RecvWitness(s: State): State
    requires s.witnessQ.Ready()
  {
    var g := s.witnessQ.sent[s.witnessQ.taken];
    Spawn(s, Chmod(g.uuid, g.name)).(witnessQ := s.witnessQ.Take())
  }

  /** The existence check of the executable and `chmod`. */
  ghost function DoChmod(s: State, id: nat, err: Option<string>): State
    requires At(s, id) && s.tasks[id].Chmod?
  {
    var t := s.tasks[id];
    if err.Some? then Fail(s, id, err.value)
    else SetTask(s, id, StartWitness(t.uuid, t.name))
  }

  /** The witness program starts and reads `input.json`. */
  ghost function DoStartWitness(s: State, id: nat): State
    requires At(s, id) && s.tasks[id].StartWitness?
  {
    var t := s.tasks[id];
    var d := GetDir(s, t.uuid);
    SetTask(s, id, AwaitWitness(t.uuid, t.name, if d.Some? then d.value.input else None))
  }

  /** The folders after the witness program of `u`, if it wrote at all. */
  ghost function LeaveWitness(dirs: map<Uuid, Dir>, u: Uuid, out: Option<Wtns>): map<Uuid, Dir> {
    if out.Some? && u in dirs then dirs[u := dirs[u].(wtns := out)] else dirs
  }

  /** The program ends; `out` is what it left in `output.wtns`, if it wrote there. On
      success the key lookup follows, whose failure would panic the task, and then the
      clock is read. */
  ghost function DoAwaitWitness(env: Env, s: State, id: nat, err: Option<string>, out: Option<Wtns>, now: nat): State
    requires At(s, id) && s.tasks[id].AwaitWitness?
  {
    var t := s.tasks[id];
    var dirs := LeaveWitness(s.dirs, t.uuid, out);
    var fault := if err.Some? then err else if out.None? then Some(NO_WITNESS) else None;
    var ok := err.None? && t.name in env.zkeys;
    s.(dirs := dirs,
       tasks :=
         if err.Some? then s.tasks[id := FailRow(t.uuid, err.value)]
         else if ok then s.tasks[id := MarkWitness(t.uuid, Join(env.zkeyFolder, env.zkeys[t.name]), now)]
         else s.tasks - {id},
       log := s.log.(
         reported := WithFault(s.log.reported, t.uuid, fault),
         witnessed := if ok then s.log.witnessed[t.uuid := Left(out, now)] else s.log.witnessed,
         panicked := s.log.panicked + if err.None? && !ok then {t.uuid} else {},
         clock := if ok then now else s.log.clock))
  }

  ghost function DoMarkWitness(s: State, id: nat, dbErr: Option<string>): State
    requires At(s, id) && s.tasks[id].MarkWitness?
  {
    var t := s.tasks[id];
    if dbErr.Some? then Fail(s, id, dbErr.value)
    else
      s.(tasks := s.tasks[id := SendProof(t.uuid, t.zkey)],
         table := if t.uuid in s.table.rows
                  then Proofs.Update(s.table, t.uuid, WitnessRow(s.table.rows[t.uuid], t.now))
                  else s.table)
  }

  ghost function DoSendProof(s: State, id: nat): State
    requires At(s, id) && s.tasks[id].SendProof?
  {
    var t := s.tasks[id];
    s.(tasks := s.tasks - {id}, proofQ := s.proofQ.Send(ProofGenerator(t.uuid, t.zkey)))
  }

  // ----- the proof worker -----

  ghost function RecvProof(s: State): State
    requires s.proofQ.Ready() && WORKER !in s.tasks
  {
    var g := s.proofQ.sent[s.proofQ.taken];
    s.(tasks := s.tasks[WORKER := StartProof(g.uuid, g.zkey)], proofQ := s.proofQ.Take())
  }

  const NO_WITNESS := "Witness file does not exist"

  /** The witness file must exist; then the prover starts and reads it. */
  ghost function DoStartProof(s: State, id: nat): State
    requires At(s, id) && s.tasks[id].StartProof?
  {
    var t := s.tasks[id];
    var d := GetDir(s, t.uuid);
    if d.None? || d.value.wtns.None? then SetTask(s, id, FailRow(t.uuid, NO_WITNESS))
    else SetTask(s, id, AwaitProof(t.uuid, t.zkey, d.value.wtns.value))
  }

  /** The folders after the prover of `u`, in each file if it wrote there at all. */
  ghost function LeaveProof(dirs: map<Uuid, Dir>, u: Uuid, proof: Option<string>, publics: Option<string>): map<Uuid, Dir> {
    if u in dirs then
      dirs[u := dirs[u].(
        proof := if proof.Some? then proof else dirs[u].proof,
        publics := if publics.Some? then publics else dirs[u].publics)]
    else dirs
  }

  /** The two files of the prover, parsed. */
  function Parsed(env: Env, proof: Option<string>, publics: Option<string>): Option<(Proof, PublicInputs)> {
    if proof.None? || publics.None? then None
    else
      var p, q := env.parseProof(proof.value), env.parsePublics(publics.value);
      if p.None? || q.None? then None else Some((p.value, q.value))
  }

  /** Why the files could not be read back: the first of the four steps that fails. */
  function ReadError(env: Env, u: Uuid, proof: Option<string>, publics: Option<string>): string {
    if proof.None? then "Could not read proof from path: " + Join(TmpFolder(u), "proof.json")
    else if publics.None? then "Could not read public inputs from path: " + Join(TmpFolder(u), "public_inputs.json")
    else if env.parseProof(proof.value).None? then "Could not deserialize proof: " + env.proofError(proof.value)
    else "Could not deserialize public inputs: " + env.publicsError(publics.value)
  }

  /** The fault with which the prover's end sends a job to the cleanup, if any. */
  function ProverFault(env: Env, u: Uuid, err: Option<string>, proof: Option<string>, publics: Option<string>): Option<string> {
    if err.Some? then err
    else if Parsed(env, proof, publics).None? then Some(ReadError(env, u, proof, publics))
    else None
  }

  /** The prover ends; `proof` and `publics` are what it left in the two files, where it
      wrote at all. On success both files are read back and parsed at once, and the clock
      is read. */
  ghost function DoAwaitProof(env: Env, s: State, id: nat, err: Option<string>, proof: Option<string>, publics: Option<string>, now: nat): State
    requires At(s, id) && s.tasks[id].AwaitProof?
  {
    var t := s.tasks[id];
    var dirs := LeaveProof(s.dirs, t.uuid, proof, publics);
    var d := if t.uuid in dirs then dirs[t.uuid] else EMPTY_DIR;
    var fault := ProverFault(env, t.uuid, err, d.proof, d.publics);
    var pq := Parsed(env, d.proof, d.publics);
    s.(dirs := dirs,
       tasks := s.tasks[id :=
         if fault.Some? then FailRow(t.uuid, fault.value)
         else StoreProof(t.uuid, pq.value.0, pq.value.1, now)],
       log := s.log.(
         reported := WithFault(s.log.reported, t.uuid, ProverFault(env, t.uuid, err, proof, publics)),
         finished := if fault.None? then s.log.finished[t.uuid := Finish(pq.value.0, pq.value.1, now)] else s.log.finished,
         clock := if fault.None? then now else s.log.clock))
  }

  ghost function DoStoreProof(s: State, id: nat, dbErr: Option<string>): State
    requires At(s, id) && s.tasks[id].StoreProof?
  {
    var t := s.tasks[id];
    if dbErr.Some? then Fail(s, id, "Could not update proof: " + dbErr.value)
    else
      s.(tasks := s.tasks[id := RemoveDir(t.uuid)],
         table := if t.uuid in s.table.rows
                  then Proofs.Update(s.table, t.uuid, ProofRow(s.table.rows[t.uuid], t.now, t.proof, t.publicInputs))
                  else s.table)
  }

  // ----- cleanup -----

  ghost function DoFailRow(s: State, id: nat, dbOk: bool): State
    requires At(s, id) && s.tasks[id].FailRow?
  {
    var t := s.tasks[id];
    var s' := SetTask(s, id, RemoveDir(t.uuid));
    if !dbOk then s'.(log := s.log.(unfailed := s.log.unfailed + {t.uuid}))
    else if t.uuid !in s.table.rows then s'
    else s'.(table := Proofs.Update(s.table, t.uuid, FailedRow(s.table.rows[t.uuid], t.reason)))
  }

  /** `remove_dir_all`; `left` is what remains of the folder when removal fails. */
  ghost function DoRemoveDir(s: State, id: nat, left: Option<Dir>): State
    requires At(s, id) && s.tasks[id].RemoveDir?
  {
    var u := s.tasks[id].uuid;
    var leaks := u in s.dirs && left.Some?;
    s.(tasks := s.tasks - {id},
       dirs := if leaks then s.dirs[u := left.value] else s.dirs - {u},
       log := s.log.(
         ended := s.log.ended + [u],
         proved := s.log.proved + if id == WORKER then [u] else [],
         leaked := s.log.leaked + if leaks then {u} else {}))
  }

  // ----- actions -----

  datatype Action =
    | AHello(uuid: Uuid, secret: Bytes)
    | ASubmit(uuid: Uuid, call: Call)
    | AReadKey(id: nat, now: nat)
    | AInsertRow(id: nat, dbOk: bool)
    | ASendFile(id: nat)
    | ARemoveAgreement(id: nat)
    | ARecvFile
    | AMakeDir(id: nat, err: Option<string>)
    | AMakeInput(id: nat, err: Option<string>)
    | AWriteInput(id: nat, err: Option<string>)
    | ASendWitness(id: nat)
    | ARecvWitness
    | AChmod(id: nat, err: Option<string>)
    | AStartWitness(id: nat)
    | AAwaitWitness(id: nat, err: Option<string>, out: Option<Wtns>, now: nat)
    | AMarkWitness(id: nat, dbErr: Option<string>)
    | ASendProof(id: nat)
    | ARecvProof
    | AStartProof(id: nat)
    | AAwaitProof(id: nat, err: Option<string>, proof: Option<string>, publics: Option<string>, now: nat)
    | AStoreProof(id: nat, dbErr: Option<string>)
    | AFailRow(id: nat, dbOk: bool)
    | ARemoveDir(id: nat, left: Option<Dir>)

  predicate Calls(a: Action) {
    a.AHello? || a.ASubmit?
  }

  /** The request on whose behalf an action runs. */
  ghost function Actor(s: State, a: Action): Option<Uuid> {
    match a
    case AHello(u, _) => Some(u)
    case ASubmit(u, _) => Some(u)
    case ARecvFile => None
    case ARecvWitness => None
    case ARecvProof => None
    case _ => if a.id in s.tasks then Some(s.tasks[a.id].uuid) else None
  }

  /** The action reports that a program, a file operation or a statement has failed, or
      that an output is missing or does not parse. */
  predicate Faulty(env: Env, a: Action) {
    match a
    case AMakeDir(_, err) => err.Some?
    case AMakeInput(_, err) => err.Some?
    case AWriteInput(_, err) => err.Some?
    case AChmod(_, err) => err.Some?
    case AAwaitWitness(_, err, out, _) => err.Some? || out.None?
    case AMarkWitness(_, dbErr) => dbErr.Some?
    case AAwaitProof(_, err, proof, publics, _) => err.Some? || Parsed(env, proof, publics).None?
    case AStoreProof(_, dbErr) => dbErr.Some?
    case _ => false
  }

  /** The file system: a file can be created or written only in a folder that exists. */
  ghost predicate FileOk(s: State, id: nat, err: Option<string>)
    requires At(s, id)
  {
    err.None? ==> GetDir(s, s.tasks[id].uuid).Some?
  }

  /** The witness program: when it reports success and wrote a file, that file is a
      witness for the input it read. */
  ghost predicate WitnessOk(env: Env, t: Task, err: Option<string>, out: Option<Wtns>)
    requires t.AwaitWitness?
  {
    err.None? && out.Some? ==>
      t.input.Some? && env.witnesses(CircuitExe(env.circuitFolder, t.name), t.input.value, out.value)
  }

  /** The prover: when it reports success and wrote both files, they are a proof and its
      public inputs for the witness it read. */
  ghost predicate ProverOk(env: Env, t: Task, err: Option<string>, proof: Option<string>, publics: Option<string>)
    requires t.AwaitProof?
  {
    err.None? && proof.Some? && publics.Some? ==> env.proves(t.zkey, t.wtns, proof.value, publics.value)
  }

  ghost predicate Enabled(env: Env, s: State, a: Action) {
    match a
    case AHello(_, _) => true
    case ASubmit(_, _) => true
    case AReadKey(id, now) => At(s, id) && s.tasks[id].Reading? && now >= s.log.clock
    case AInsertRow(id, _) => At(s, id) && s.tasks[id].Inserting?
    case ASendFile(id) => At(s, id) && s.tasks[id].Sending? && s.fileQ.Room()
    case ARemoveAgreement(id) => At(s, id) && s.tasks[id].Removing?
    case ARecvFile => s.fileQ.Ready()
    case AMakeDir(id, _) => At(s, id) && s.tasks[id].MakeDir?
    case AMakeInput(id, err) => At(s, id) && s.tasks[id].MakeInput? && FileOk(s, id, err)
    case AWriteInput(id, err) => At(s, id) && s.tasks[id].WriteInput? && FileOk(s, id, err)
    case ASendWitness(id) => At(s, id) && s.tasks[id].SendWitness? && s.witnessQ.Room()
    case ARecvWitness => s.witnessQ.Ready()
    case AChmod(id, _) => At(s, id) && s.tasks[id].Chmod?
    case AStartWitness(id) => At(s, id) && s.tasks[id].StartWitness?
    case AAwaitWitness(id, err, out, now) =>
      At(s, id) && s.tasks[id].AwaitWitness? && WitnessOk(env, s.tasks[id], err, out) && now >= s.log.clock
    case AMarkWitness(id, _) => At(s, id) && s.tasks[id].MarkWitness?
    case ASendProof(id) => At(s, id) && s.tasks[id].SendProof? && s.proofQ.Room()
    case ARecvProof => s.proofQ.Ready() && WORKER !in s.tasks
    case AStartProof(id) => At(s, id) && s.tasks[id].StartProof?
    case AAwaitProof(id, err, p, q, now) =>
      At(s, id) && s.tasks[id].AwaitProof? && ProverOk(env, s.tasks[id], err, p, q) && now >= s.log.clock
    case AStoreProof(id, _) => At(s, id) && s.tasks[id].StoreProof?
    case AFailRow(id, _) => At(s, id) && s.tasks[id].FailRow?
    case ARemoveDir(id, _) => At(s, id) && s.tasks[id].RemoveDir?
  }

  ghost function Next(env: Env, s: State, a: Action): State
    requires Enabled(env, s, a)
  {
    match a
    case AHello(u, secret) => Hello(s, u, secret)
    case ASubmit(u, call) => Submit(s, u, call)
    case AReadKey(id, now) => ReadKey(env, s, id, now)
    case AInsertRow(id, dbOk) => InsertRow(s, id, dbOk)
    case ASendFile(id) => SendFile(s, id)
    case ARemoveAgreement(id) => RemoveAgreement(s, id)
    case ARecvFile => RecvFile(s)
    case AMakeDir(id, err) => DoMakeDir(s, id, err)
    case AMakeInput(id, err) => DoMakeInput(s, id, err)
    case AWriteInput(id, err) => DoWriteInput(s, id, err)
    case ASendWitness(id) => DoSendWitness(s, id)
    case ARecvWitness => RecvWitness(s)
    case AChmod(id, err) => DoChmod(s, id, err)
    case AStartWitness(id) => DoStartWitness(s, id)
    case AAwaitWitness(id, err, out, now) => DoAwaitWitness(env, s, id, err, out, now)
    case AMarkWitness(id, dbErr) => DoMarkWitness(s, id, dbErr)
    case ASendProof(id) => DoSendProof(s, id)
    case ARecvProof => RecvProof(s)
    case AStartProof(id) => DoStartProof(s, id)
    case AAwaitProof(id, err, p, q, now) => DoAwaitProof(env, s, id, err, p, q, now)
    case AStoreProof(id, dbErr) => DoStoreProof(s, id, dbErr)
    case AFailRow(id, dbOk) => DoFailRow(s, id, dbOk)
    case ARemoveDir(id, left) => DoRemoveDir(s, id, left)
  }

  // ----- runs -----

  ghost predicate Init(s: State) {
    && s.store == [] && s.tasks == map[] && s.nextId == 1
    && s.fileQ == Chan([], 0) && s.witnessQ == Chan([], 0) && s.proofQ == Chan([], 0)
    && s.table.writes == [] && s.table.notes == []
    && s.log == History(
         s.table.rows, map[], [], [], map[], map[], map[], [], [], [], map[], map[], map[], {}, {}, {}, s.log.clock)
    // a folder left behind belongs to a request that has a row
    && s.dirs.Keys <= s.table.rows.Keys
  }

  ghost predicate Valid(env: Env, s: State, actions: seq<Action>)
    decreases |actions|
  {
    actions == [] ||
    (Enabled(env, s, actions[0]) && Valid(env, Next(env, s, actions[0]), actions[1..]))
  }

  ghost function Final(env: Env, s: State, actions: seq<Action>): State
    requires Valid(env, s, actions)
    decreases |actions|
  {
    if actions == [] then s else Final(env, Next(env, s, actions[0]), actions[1..])
  }
}
