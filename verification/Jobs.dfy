/** Who works on a request, what that place in the pipeline implies for the row and the
    folder of the request, and the general lemma by which a step keeps all of it. */
module Jobs {
  import opened Base
  import opened Paths
  import opened Proofs
  import opened Machine

  // ----- places at which a request can be held -----

  /** A place that can hold a request; queue entries are numbered by their position in
      everything ever sent, so that receiving does not renumber the others. */
  datatype Slot = TaskSlot(id: nat) | FileSlot(n: nat) | WitnessSlot(n: nat) | ProofSlot(n: nat)

  /** The task at a slot. An entry of a queue counts as the task its receiver will be. */
  ghost function Held(s: State, sl: Slot): Option<Task> {
    match sl
    case TaskSlot(id) =>
      if id in s.tasks && Owns(s.tasks[id]) then Some(s.tasks[id]) else None
    case FileSlot(n) =>
      if s.fileQ.taken <= n < |s.fileQ.sent|
      then Some(MakeDir(s.fileQ.sent[n].uuid, s.fileQ.sent[n].request)) else None
    case WitnessSlot(n) =>
      if s.witnessQ.taken <= n < |s.witnessQ.sent|
      then Some(Chmod(s.witnessQ.sent[n].uuid, s.witnessQ.sent[n].name)) else None
    case ProofSlot(n) =>
      if s.proofQ.taken <= n < |s.proofQ.sent|
      then Some(StartProof(s.proofQ.sent[n].uuid, s.proofQ.sent[n].zkey)) else None
  }

  ghost predicate Holds(s: State, sl: Slot, u: Uuid) {
    Held(s, sl).Some? && Held(s, sl).value.uuid == u
  }

  ghost predicate Live(s: State, u: Uuid) {
    exists sl :: Holds(s, sl, u)
  }

  ghost predicate SingleOwner(s: State) {
    forall a, b, u :: Holds(s, a, u) && Holds(s, b, u) ==> a == b
  }

  // ----- what concerns one request -----

  datatype View = View(
    adm: Option<Admission>,
    row: Option<Row>,
    dir: Option<Dir>,
    history: seq<Status>,
    ended: bool,
    left: Option<Left>,
    finished: Option<Finish>,
    reported: Option<string>,
    unfailed: bool,
    leaked: bool)

  ghost function ViewOf(t: Table, dirs: map<Uuid, Dir>, log: History, u: Uuid): View {
    View(
      if u in log.admitted then Some(log.admitted[u]) else None,
      if u in t.rows then Some(t.rows[u]) else None,
      if u in dirs then Some(dirs[u]) else None,
      StatusHistory(t.writes, u),
      u in log.ended,
      if u in log.witnessed then Some(log.witnessed[u]) else None,
      if u in log.finished then Some(log.finished[u]) else None,
      if u in log.reported then Some(log.reported[u]) else None,
      u in log.unfailed,
      u in log.leaked)
  }

  ghost function Look(s: State, u: Uuid): View {
    ViewOf(s.table, s.dirs, s.log, u)
  }

  ghost predicate Terminal(r: Row) {
    r.status == ProofGenerated || r.status == Failed
  }

  // ----- provenance -----

  /** The path of the proving key given to the prover for a circuit. */
  ghost function ZkeyPath(env: Env, name: string): string
    requires name in env.zkeys
  {
    Join(env.zkeyFolder, env.zkeys[name])
  }

  ghost predicate IsWitness(env: Env, req: ProofRequest, w: Wtns) {
    env.witnesses(CircuitExe(env.circuitFolder, req.circuit.name), req.circuit.inputs, w)
  }

  ghost predicate ProvenBy(env: Env, req: ProofRequest, w: Wtns, proof: string, publics: string) {
    && req.circuit.name in env.zkeys
    && IsWitness(env, req, w)
    && env.proves(ZkeyPath(env, req.circuit.name), w, proof, publics)
  }

  /** `p` and `q` are a proof and public inputs made from the inputs of `req`, for its
      circuit. */
  ghost predicate Made(env: Env, req: ProofRequest, p: Proof, q: PublicInputs) {
    exists w, proof, publics ::
      && ProvenBy(env, req, w, proof, publics)
      && env.parseProof(proof) == Some(p) && env.parsePublics(publics) == Some(q)
  }

  /** The row carries a proof made from the inputs of `req`, for its circuit. */
  ghost predicate Proven(env: Env, req: ProofRequest, r: Row) {
    r.proof.Some? && r.publicInputs.Some? && Made(env, req, r.proof.value, r.publicInputs.value)
  }

  // ----- what a row looks like -----

  ghost predicate Describes(r: Row, submit: SubmitRequest) {
    && r.proofType == submit.request.proofType
    && r.circuitName == submit.request.circuit.name
    && r.onchain == submit.onchain
    && r.endpointType == submit.request.endpointType
    && r.endpoint == submit.request.endpoint
  }

  ghost predicate StatusColumns(r: Row) {
    && (r.proof.Some? <==> r.status == ProofGenerated)
    && (r.publicInputs.Some? <==> r.status == ProofGenerated)
    && (r.proofAt.Some? <==> r.status == ProofGenerated)
    && (r.reason.Some? <==> r.status == Failed)
    && (r.status == Pending ==> r.witnessAt.None?)
    && (r.status == WitnessGenerated || r.status == ProofGenerated ==> r.witnessAt.Some?)
    && (r.witnessAt.Some? ==> r.createdAt <= r.witnessAt.value)
    && (r.proofAt.Some? ==> r.witnessAt.Some? && r.witnessAt.value <= r.proofAt.value)
  }

  ghost function Lifecycle(r: Row): seq<Status> {
    match r.status
    case Pending => [Pending]
    case WitnessGenerated => [Pending, WitnessGenerated]
    case ProofGenerated => [Pending, WitnessGenerated, ProofGenerated]
    case Failed => if r.witnessAt.Some? then [Pending, WitnessGenerated, Failed] else [Pending, Failed]
  }

  ghost predicate RecordOk(env: Env, v: View) {
    && v.adm.Some? && v.row.Some?
    && var adm, r := v.adm.value, v.row.value;
    && Validate(env, adm.call, Some(adm.key)) == Some(adm.submit)
    && Describes(r, adm.submit)
    && StatusColumns(r)
    && v.history == Lifecycle(r)
    && (r.status == ProofGenerated ==> Proven(env, adm.submit.request, r) && v.reported.None?)
    && Sourced(r, v)
  }

  /** What the statements wrote comes from where it should: the times are those that the
      job read, the proof is what it read back, and the reason is the fault it met. */
  ghost predicate Sourced(r: Row, v: View) {
    && v.adm.Some? && r.createdAt == v.adm.value.at
    && (r.witnessAt.Some? ==> v.left.Some? && r.witnessAt == Some(v.left.value.now))
    && (r.proofAt.Some? ==>
          && v.finished.Some? && r.proofAt == Some(v.finished.value.now)
          && r.proof == Some(v.finished.value.proof) && r.publicInputs == Some(v.finished.value.publicInputs))
    && (r.reason.Some? ==> r.reason == v.reported)
  }

  // ----- what the place of a request in the pipeline implies -----

  ghost predicate HasInput(d: Option<Dir>, inputs: string) {
    d.Some? && d.value.input == Some(inputs)
  }

  /** A request before the end of its witness program. */
  ghost predicate OnTrack(v: View) {
    v.row.Some? && v.row.value.status == Pending && v.left.None? && v.reported.None? && !v.unfailed
  }

  /** A request whose witness program has succeeded: the file it left is still there, and
      the only fault there can be is that it left none. */
  ghost predicate AfterWitness(env: Env, req: ProofRequest, v: View) {
    && !v.unfailed
    && HasInput(v.dir, req.circuit.inputs)
    && v.dir.value.proof.None? && v.dir.value.publics.None?
    && v.left.Some? && v.left.value.wtns == v.dir.value.wtns
    && v.reported == (if v.dir.value.wtns.None? then Some(NO_WITNESS) else None)
    && (v.dir.value.wtns.Some? ==> IsWitness(env, req, v.dir.value.wtns.value))
  }

  ghost predicate ZkeyOf(env: Env, req: ProofRequest, zkey: string) {
    req.circuit.name in env.zkeys && zkey == ZkeyPath(env, req.circuit.name)
  }

  ghost predicate JobOk(env: Env, t: Task, v: View) {
    && v.adm.Some? && v.row.Some? && !v.leaked && !v.ended
    && var req, r, d := v.adm.value.submit.request, v.row.value, v.dir;
    match t
    case Sending(_, pr) => OnTrack(v) && pr == req && d.None?
    case MakeDir(_, pr) => OnTrack(v) && pr == req && d.None?
    case MakeInput(_, pr) => OnTrack(v) && pr == req && d == Some(EMPTY_DIR)
    case WriteInput(_, pr) => OnTrack(v) && pr == req && d == Some(EMPTY_DIR.(input := Some("")))
    case SendWitness(_, name) => OnTrack(v) && name == req.circuit.name && d == Some(EMPTY_DIR.(input := Some(req.circuit.inputs)))
    case Chmod(_, name) => OnTrack(v) && name == req.circuit.name && d == Some(EMPTY_DIR.(input := Some(req.circuit.inputs)))
    case StartWitness(_, name) => OnTrack(v) && name == req.circuit.name && d == Some(EMPTY_DIR.(input := Some(req.circuit.inputs)))
    case AwaitWitness(_, name, input) =>
      && OnTrack(v) && name == req.circuit.name && input == Some(req.circuit.inputs)
      && d == Some(EMPTY_DIR.(input := Some(req.circuit.inputs)))
    case MarkWitness(_, zkey, now) =>
      r.status == Pending && ZkeyOf(env, req, zkey) && AfterWitness(env, req, v)
      && v.left.value.now == now && r.createdAt <= now
    case SendProof(_, zkey) => r.status == WitnessGenerated && ZkeyOf(env, req, zkey) && AfterWitness(env, req, v)
    case StartProof(_, zkey) => r.status == WitnessGenerated && ZkeyOf(env, req, zkey) && AfterWitness(env, req, v)
    case AwaitProof(_, zkey, w) =>
      && r.status == WitnessGenerated && ZkeyOf(env, req, zkey) && AfterWitness(env, req, v)
      && d.value.wtns == Some(w)
    case StoreProof(_, p, q, now) =>
      && r.status == WitnessGenerated && v.reported.None? && !v.unfailed
      && HasInput(d, req.circuit.inputs) && Made(env, req, p, q)
      && v.finished == Some(Finish(p, q, now)) && r.witnessAt.Some? && r.witnessAt.value <= now
    case FailRow(_, reason) => v.reported == Some(reason) && !v.unfailed && (r.status == Pending || r.status == WitnessGenerated)
    case RemoveDir(_) => (Terminal(r) <==> !v.unfailed) && (v.reported.Some? <==> r.status != ProofGenerated)
    case _ => false
  }

  /** Nothing is left to do for the request: its last task has ended. Its row is terminal
      unless the database refused to fail it, it carries a proof unless a fault was met,
      and its folder is gone unless it could not be removed. */
  ghost predicate Settled(v: View) {
    && v.ended && v.row.Some?
    && (Terminal(v.row.value) <==> !v.unfailed)
    && (v.reported.Some? <==> v.row.value.status != ProofGenerated)
    && (v.dir.Some? <==> v.leaked)
  }

  // ----- the table and the folders as a whole -----

  ghost predicate RowsOk(t: Table, log: History) {
    && t.rows.Keys == log.prior.Keys + log.admitted.Keys
    && log.prior.Keys !! log.admitted.Keys
    && (forall u :: u in log.prior ==> t.rows[u] == log.prior[u])
    && Mirrored(log.prior, t)
    && log.panicked == {}
    && NoDup(log.ended) && (forall u :: u in log.ended ==> u in log.admitted)
  }

  ghost predicate JobsOk(env: Env, s: State) {
    forall sl :: Held(s, sl).Some? ==> JobOk(env, Held(s, sl).value, Look(s, Held(s, sl).value.uuid))
  }

  ghost predicate RecordsOk(env: Env, s: State) {
    forall u :: u in s.log.admitted ==> RecordOk(env, Look(s, u))
  }

  /** No admitted request is forgotten: someone still holds it, or it is settled; never
      both, as what is held has not ended and what is settled has. */
  ghost predicate NoneLost(s: State) {
    forall u :: u in s.log.admitted ==> Live(s, u) || Settled(Look(s, u))
  }

  /** The state of a request that has no row: no folder, no history, no marks. */
  ghost predicate Untouched(v: View) {
    v == View(None, None, None, [], false, None, None, None, false, false)
  }

  ghost predicate CleanOk(s: State) {
    forall u :: u !in s.table.rows ==> Untouched(Look(s, u))
  }

  ghost predicate JobInv(env: Env, s: State) {
    && SingleOwner(s)
    && JobsOk(env, s)
    && RecordsOk(env, s)
    && NoneLost(s)
    && RowsOk(s.table, s.log)
    && CleanOk(s)
  }

  // ----- frames: one request's row and folder -----

  lemma RowFrame(t: Table, dirs: map<Uuid, Dir>, log: History, u: Uuid, row: Row)
    requires u in t.rows
    ensures forall v :: v != u ==> ViewOf(Update(t, u, row), dirs, log, v) == ViewOf(t, dirs, log, v)
    ensures ViewOf(Update(t, u, row), dirs, log, u) ==
            ViewOf(t, dirs, log, u).(row := Some(row), history := StatusHistory(t.writes, u) + [row.status])
  {
    hide StatusHistory, Update;
    forall v
      ensures v != u ==> ViewOf(Update(t, u, row), dirs, log, v) == ViewOf(t, dirs, log, v)
    {
      RowWritten(t, u, row, v);
    }
    RowWritten(t, u, row, u);
  }

  lemma RowWritten(t: Table, u: Uuid, row: Row, v: Uuid)
    requires u in t.rows
    ensures Update(t, u, row).rows == t.rows[u := row]
    ensures StatusHistory(Update(t, u, row).writes, v) ==
            StatusHistory(t.writes, v) + if u == v then [row.status] else []
  {
    hide StatusHistory, Replay;
    AppendWrite(map[], t.writes, Write(u, row), v);
  }

  lemma RowInserted(t: Table, u: Uuid, row: Row, v: Uuid)
    requires u !in t.rows
    ensures Insert(t, u, row).rows == t.rows[u := row]
    ensures StatusHistory(Insert(t, u, row).writes, v) ==
            StatusHistory(t.writes, v) + if u == v then [row.status] else []
  {
    hide StatusHistory, Replay;
    AppendWrite(map[], t.writes, Write(u, row), v);
  }

  lemma UpdateRowsOk(t: Table, log: History, u: Uuid, row: Row)
    requires RowsOk(t, log) && u in log.admitted && row.status != t.rows[u].status
    ensures RowsOk(Update(t, u, row), log)
  {
    UpdateMirrored(log.prior, t, u, row);
  }

  // ----- steps -----

  /** The request `u` moves from one slot to another, or to none; no other slot changes. */
  ghost predicate Moves(s: State, s': State, u: Uuid, from: Slot, to: Option<Slot>) {
    && Holds(s, from, u)
    && (forall sl :: sl != from && Some(sl) != to ==> Held(s', sl) == Held(s, sl))
    && (to != Some(from) ==> Held(s', from).None?)
    && (to.Some? ==> Holds(s', to.value, u) && (to.value == from || Held(s, to.value).None?))
  }

  /** Only the row, the folder and the marks of `u` differ. */
  ghost predicate Confined(s: State, s': State, u: Uuid) {
    && (forall v :: v != u ==> Look(s', v) == Look(s, v))
    && s'.log.admitted == s.log.admitted
    && s'.table.rows.Keys == s.table.rows.Keys
  }

  lemma OwnerStep(s: State, s': State, u: Uuid, from: Slot, to: Option<Slot>)
    requires SingleOwner(s) && Moves(s, s', u, from, to)
    ensures SingleOwner(s')
  {
    forall a, b, v | Holds(s', a, v) && Holds(s', b, v)
      ensures a == b
    {
      assert v != u ==> Holds(s, a, v) && Holds(s, b, v);
      assert Some(a) != to ==> Holds(s, a, v);
      assert Some(b) != to ==> Holds(s, b, v);
    }
  }

  lemma JobsStep(env: Env, s: State, s': State, u: Uuid, from: Slot, to: Option<Slot>)
    requires SingleOwner(s) && JobsOk(env, s) && Moves(s, s', u, from, to)
    requires forall v :: v != u ==> Look(s', v) == Look(s, v)
    requires to.Some? ==> JobOk(env, Held(s', to.value).value, Look(s', u))
    ensures JobsOk(env, s')
  {
    forall sl | Held(s', sl).Some?
      ensures JobOk(env, Held(s', sl).value, Look(s', Held(s', sl).value.uuid))
    {
      if Some(sl) != to {
        assert Held(s', sl) == Held(s, sl);
        var v := Held(s, sl).value.uuid;
        assert Holds(s, sl, v);
        assert Look(s', v) == Look(s, v);
      }
    }
  }

  lemma LiveStep(s: State, s': State, u: Uuid, from: Slot, to: Option<Slot>, v: Uuid)
    requires Moves(s, s', u, from, to) && v != u && Live(s, v)
    ensures Live(s', v)
  {
    var sl :| Holds(s, sl, v);
    assert Holds(s', sl, v);
  }

  lemma NoneLostStep(s: State, s': State, u: Uuid, from: Slot, to: Option<Slot>)
    requires NoneLost(s) && Moves(s, s', u, from, to) && Confined(s, s', u)
    requires to.None? ==> Settled(Look(s', u))
    ensures NoneLost(s')
  {
    forall v | v in s'.log.admitted
      ensures Live(s', v) || Settled(Look(s', v))
    {
      if v == u {
        if to.Some? { assert Holds(s', to.value, u); }
      } else if Live(s, v) {
        LiveStep(s, s', u, from, to, v);
      } else {
        assert Look(s', v) == Look(s, v);
      }
    }
  }

  lemma RecordsStep(env: Env, s: State, s': State, u: Uuid)
    requires RecordsOk(env, s) && Confined(s, s', u) && RecordOk(env, Look(s', u))
    ensures RecordsOk(env, s')
  {
    forall v | v in s'.log.admitted
      ensures RecordOk(env, Look(s', v))
    {
      assert v != u ==> Look(s', v) == Look(s, v);
    }
  }

  /** A step that moves the job of `u` and touches nothing of any other request keeps
      the invariant, if it leaves `u` itself in order. */
  lemma JobStep(env: Env, s: State, s': State, u: Uuid, from: Slot, to: Option<Slot>)
    requires JobInv(env, s)
    requires Moves(s, s', u, from, to) && Confined(s, s', u)
    requires RowsOk(s'.table, s'.log)
    requires RecordOk(env, Look(s', u))
    requires to.Some? ==> JobOk(env, Held(s', to.value).value, Look(s', u))
    requires to.None? ==> Settled(Look(s', u))
    ensures JobInv(env, s')
  {
    OwnerStep(s, s', u, from, to);
    JobsStep(env, s, s', u, from, to);
    RecordsStep(env, s, s', u);
    NoneLostStep(s, s', u, from, to);
    assert Look(s, u).adm.Some?;
    CleanStep(s, s', u);
  }

  lemma CleanStep(s: State, s': State, u: Uuid)
    requires CleanOk(s) && Confined(s, s', u) && u in s.table.rows
    ensures CleanOk(s')
  {
    forall v | v !in s'.table.rows
      ensures Untouched(Look(s', v))
    {
      assert Look(s', v) == Look(s, v);
    }
  }

  /** The marks of the history that say something about a request. */
  ghost predicate SameMarks(a: History, b: History) {
    && a.prior == b.prior && a.admitted == b.admitted
    && a.ended == b.ended && a.witnessed == b.witnessed
    && a.finished == b.finished && a.reported == b.reported
    && a.unfailed == b.unfailed && a.leaked == b.leaked && a.panicked == b.panicked
  }

  /** A step that leaves every slot and every request as it was. */
  lemma QuietStep(env: Env, s: State, s': State)
    requires JobInv(env, s)
    requires forall sl :: Held(s', sl) == Held(s, sl)
    requires s'.table == s.table && s'.dirs == s.dirs && SameMarks(s'.log, s.log)
    ensures JobInv(env, s')
  {
    hide JobOk, RecordOk, Settled, Mirrored, StatusHistory, Held;
    forall u
      ensures Look(s', u) == Look(s, u)
      ensures Live(s, u) ==> Live(s', u)
    {
      if Live(s, u) {
        var sl :| Holds(s, sl, u);
        assert Holds(s', sl, u);
      }
    }
    QuietOwner(s, s');
    assert NoneLost(s');
  }

  lemma QuietOwner(s: State, s': State)
    requires SingleOwner(s)
    requires forall sl :: Held(s', sl) == Held(s, sl)
    ensures SingleOwner(s')
  {
    forall a, b, v | Holds(s', a, v) && Holds(s', b, v)
      ensures a == b
    {
      assert Holds(s, a, v) && Holds(s, b, v);
    }
  }
}
