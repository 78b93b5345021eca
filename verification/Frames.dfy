/** Frames: what each action leaves alone, for the request on whose behalf it runs and for
    all others. */
module Frames {
  import opened Base
  import opened Paths
  import opened Proofs
  import opened Machine
  import opened Jobs
  import opened Sessions
  import JobSteps
  import Lru

  /** An action that may change a folder, or note a fault without a statement. */
  ghost predicate DirAction(a: Action) {
    FolderAction(a) || EndingAction(a) || a.AChmod? || a.ARemoveDir?
  }

  ghost predicate RowAction(a: Action) {
    a.AInsertRow? || a.AMarkWitness? || a.AStoreProof? || a.AFailRow?
  }

  lemma HandlerQuiet(env: Env, s: State, a: Action)
    requires Enabled(env, s, a) && !a.AInsertRow? && (SessionAction(a) || a.ASubmit?)
    ensures Next(env, s, a).table == s.table && Next(env, s, a).dirs == s.dirs && SameMarks(Next(env, s, a).log, s.log)
  {
    hide Lru.Apply, Lru.Lookup, Validate;
  }

  lemma PassQuiet(env: Env, s: State, a: Action)
    requires Enabled(env, s, a) && (HandoverAction(a) || a.ARecvFile?)
    ensures Next(env, s, a).table == s.table && Next(env, s, a).dirs == s.dirs && Next(env, s, a).log == s.log
  {
    hide RecvFile, RecvWitness, RecvProof, DoSendWitness, DoSendProof;
    if a.ASendWitness? || a.ASendProof? { SendQuiet(s, a.id); } else { ReceiveQuiet(s); }
  }

  lemma SendQuiet(s: State, id: nat)
    requires At(s, id)
    ensures s.tasks[id].SendWitness? ==>
              var s' := DoSendWitness(s, id); s'.table == s.table && s'.dirs == s.dirs && s'.log == s.log
    ensures s.tasks[id].SendProof? ==>
              var s' := DoSendProof(s, id); s'.table == s.table && s'.dirs == s.dirs && s'.log == s.log
  {
  }

  lemma ReceiveQuiet(s: State)
    ensures s.fileQ.Ready() ==>
              var s' := RecvFile(s); s'.table == s.table && s'.dirs == s.dirs && s'.log == s.log
    ensures s.witnessQ.Ready() ==>
              var s' := RecvWitness(s); s'.table == s.table && s'.dirs == s.dirs && s'.log == s.log
    ensures s.proofQ.Ready() && WORKER !in s.tasks ==>
              var s' := RecvProof(s); s'.table == s.table && s'.dirs == s.dirs && s'.log == s.log
  {
  }

  lemma StartQuiet(env: Env, s: State, a: Action)
    requires Enabled(env, s, a) && (a.AStartWitness? || a.AStartProof?)
    ensures Next(env, s, a).table == s.table && Next(env, s, a).dirs == s.dirs && Next(env, s, a).log == s.log
  {
    hide GetDir;
  }

  lemma QuietLook(env: Env, s: State, a: Action)
    requires Enabled(env, s, a) && !DirAction(a) && !RowAction(a)
    ensures forall u :: Look(Next(env, s, a), u) == Look(s, u)
    ensures Next(env, s, a).table == s.table && Next(env, s, a).dirs == s.dirs && SameMarks(Next(env, s, a).log, s.log)
  {
    hide Next, Enabled, StatusHistory;
    if {
      case SessionAction(a) || a.ASubmit? => HandlerQuiet(env, s, a);
      case HandoverAction(a) || a.ARecvFile? => PassQuiet(env, s, a);
      case a.AStartWitness? || a.AStartProof? => StartQuiet(env, s, a);
    }
  }

  lemma DirLook(env: Env, s: State, a: Action, u: Uuid)
    requires Enabled(env, s, a) && DirAction(a)
    ensures Some(u) != Actor(s, a) ==> Look(Next(env, s, a), u) == Look(s, u)
    ensures Next(env, s, a).table == s.table
  {
    hide Look, DoRemoveDir, DoAwaitWitness, DoAwaitProof, DoChmod;
    match a
    case ARemoveDir(id, left) => RemovalLook(s, id, left, u);
    case AChmod(id, err) => ChmodLook(s, id, err, u);
    case AAwaitWitness(id, err, out, now) => WitnessLook(env, s, id, err, out, now, u);
    case AAwaitProof(id, err, p, q, now) => ProverLook(env, s, id, err, p, q, now, u);
    case _ =>
      hide Next;
      FolderLook(env, s, a, u);
  }

  lemma FolderLook(env: Env, s: State, a: Action, u: Uuid)
    requires Enabled(env, s, a) && FolderAction(a)
    ensures Some(u) != Actor(s, a) ==> Look(Next(env, s, a), u) == Look(s, u)
    ensures Next(env, s, a).table == s.table
  {
    hide StatusHistory, Next;
    FolderWrites(env, s, a);
  }

  /** Only the folder of `u` may differ, and a fault of `u` may be noted. */
  ghost predicate WritesOwn(s: State, s': State, u: Uuid, fault: Option<string>) {
    && s'.table == s.table
    && s'.log == s.log.(reported := WithFault(s.log.reported, u, fault))
    && (forall v :: v != u ==> (v in s'.dirs <==> v in s.dirs) && (v in s.dirs ==> s'.dirs[v] == s.dirs[v]))
  }

  lemma MakeDirWrites(s: State, id: nat, err: Option<string>)
    requires At(s, id) && s.tasks[id].MakeDir?
    ensures WritesOwn(s, DoMakeDir(s, id, err), s.tasks[id].uuid, err)
  {
  }

  lemma InputWrites(s: State, id: nat, err: Option<string>)
    requires At(s, id) && FileOk(s, id, err)
    ensures s.tasks[id].MakeInput? ==> WritesOwn(s, DoMakeInput(s, id, err), s.tasks[id].uuid, err)
    ensures s.tasks[id].WriteInput? ==> WritesOwn(s, DoWriteInput(s, id, err), s.tasks[id].uuid, err)
  {
  }

  lemma FolderWrites(env: Env, s: State, a: Action)
    requires Enabled(env, s, a) && FolderAction(a)
    ensures WritesOwn(s, Next(env, s, a), s.tasks[a.id].uuid, a.err)
  {
    hide DoMakeDir, DoMakeInput, DoWriteInput, WritesOwn;
    if a.AMakeDir? { MakeDirWrites(s, a.id, a.err); } else { InputWrites(s, a.id, a.err); }
  }

  lemma ChmodLook(s: State, id: nat, err: Option<string>, u: Uuid)
    requires At(s, id) && s.tasks[id].Chmod?
    ensures u != s.tasks[id].uuid ==> Look(DoChmod(s, id, err), u) == Look(s, u)
    ensures DoChmod(s, id, err).table == s.table
  {
    hide StatusHistory;
  }

  lemma WitnessLook(env: Env, s: State, id: nat, err: Option<string>, out: Option<Wtns>, now: nat, u: Uuid)
    requires At(s, id) && s.tasks[id].AwaitWitness?
    ensures var s' := DoAwaitWitness(env, s, id, err, out, now);
            && (u != s.tasks[id].uuid ==> Look(s', u) == Look(s, u))
            && s'.table == s.table && s'.dirs == LeaveWitness(s.dirs, s.tasks[id].uuid, out)
  {
    hide StatusHistory, Join;
  }

  lemma ProverLook(env: Env, s: State, id: nat, err: Option<string>, proof: Option<string>, publics: Option<string>, now: nat, u: Uuid)
    requires At(s, id) && s.tasks[id].AwaitProof?
    ensures var s' := DoAwaitProof(env, s, id, err, proof, publics, now);
            && (u != s.tasks[id].uuid ==> Look(s', u) == Look(s, u))
            && s'.table == s.table && s'.dirs == LeaveProof(s.dirs, s.tasks[id].uuid, proof, publics)
  {
    hide StatusHistory, LeaveProof, DoAwaitProof;
    ProverWrites(env, s, id, err, proof, publics, now);
    ProverElsewhere(s.dirs, s.tasks[id].uuid, proof, publics);
  }

  lemma ProverWrites(env: Env, s: State, id: nat, err: Option<string>, proof: Option<string>, publics: Option<string>, now: nat)
    requires At(s, id) && s.tasks[id].AwaitProof?
    ensures var u, s' := s.tasks[id].uuid, DoAwaitProof(env, s, id, err, proof, publics, now);
            && s'.table == s.table && s'.dirs == LeaveProof(s.dirs, u, proof, publics)
            && s'.log == s.log.(reported := s'.log.reported, finished := s'.log.finished, clock := s'.log.clock)
            && s'.log.reported == WithFault(s.log.reported, u, ProverFault(env, u, err, proof, publics))
            && (s'.log.finished == s.log.finished ||
                  (err.None? && u in s'.log.finished && s'.log.finished == s.log.finished[u := s'.log.finished[u]]))
  {
    hide ReadError, Parsed, LeaveProof;
  }

  lemma ProverElsewhere(dirs: map<Uuid, Dir>, u: Uuid, proof: Option<string>, publics: Option<string>)
    ensures var dirs' := LeaveProof(dirs, u, proof, publics);
            dirs'.Keys == dirs.Keys && forall v :: v in dirs && v != u ==> dirs'[v] == dirs[v]
  {
  }

  lemma RemovalLook(s: State, id: nat, left: Option<Dir>, u: Uuid)
    requires At(s, id) && s.tasks[id].RemoveDir?
    ensures u != s.tasks[id].uuid ==> Look(DoRemoveDir(s, id, left), u) == Look(s, u)
    ensures DoRemoveDir(s, id, left).table == s.table
  {
    hide StatusHistory;
    var ended := s.log.ended;
    assert forall v :: v in ended + [s.tasks[id].uuid] <==> v in ended || v == s.tasks[id].uuid;
  }

  lemma InsertRowLook(s: State, id: nat, dbOk: bool, u: Uuid)
    requires At(s, id) && s.tasks[id].Inserting? && u != s.tasks[id].uuid
    ensures Look(InsertRow(s, id, dbOk), u) == Look(s, u)
  {
    if dbOk && s.tasks[id].uuid !in s.table.rows {
      JobSteps.InsertLook(s, id, u);
    }
  }

  lemma MarkWitnessLook(s: State, id: nat, dbErr: Option<string>, u: Uuid)
    requires At(s, id) && s.tasks[id].MarkWitness? && u != s.tasks[id].uuid
    ensures Look(DoMarkWitness(s, id, dbErr), u) == Look(s, u)
  {
    hide Update, StatusHistory;
    var t := s.tasks[id];
    if t.uuid in s.table.rows {
      RowFrame(s.table, s.dirs, s.log, t.uuid, WitnessRow(s.table.rows[t.uuid], t.now));
    }
  }

  lemma StoreProofLook(s: State, id: nat, dbErr: Option<string>, u: Uuid)
    requires At(s, id) && s.tasks[id].StoreProof? && u != s.tasks[id].uuid
    ensures Look(DoStoreProof(s, id, dbErr), u) == Look(s, u)
  {
    hide Update, StatusHistory;
    var t := s.tasks[id];
    if t.uuid in s.table.rows {
      RowFrame(s.table, s.dirs, s.log, t.uuid, ProofRow(s.table.rows[t.uuid], t.now, t.proof, t.publicInputs));
    }
  }

  lemma FailRowLook(s: State, id: nat, dbOk: bool, u: Uuid)
    requires At(s, id) && s.tasks[id].FailRow? && u != s.tasks[id].uuid
    ensures Look(DoFailRow(s, id, dbOk), u) == Look(s, u)
  {
    hide Update, StatusHistory;
    var t := s.tasks[id];
    if t.uuid in s.table.rows {
      RowFrame(s.table, s.dirs, s.log, t.uuid, FailedRow(s.table.rows[t.uuid], t.reason));
    }
  }

  lemma RowLook(env: Env, s: State, a: Action, u: Uuid)
    requires Enabled(env, s, a) && RowAction(a) && Some(u) != Actor(s, a)
    ensures Look(Next(env, s, a), u) == Look(s, u)
  {
    hide Look, InsertRow, DoMarkWitness, DoStoreProof, DoFailRow;
    match a
    case AInsertRow(id, dbOk) => InsertRowLook(s, id, dbOk, u);
    case AMarkWitness(id, dbErr) => MarkWitnessLook(s, id, dbErr, u);
    case AStoreProof(id, dbErr) => StoreProofLook(s, id, dbErr, u);
    case AFailRow(id, dbOk) => FailRowLook(s, id, dbOk, u);
  }

  lemma LookMeans(s: State, s': State, u: Uuid)
    requires Look(s', u) == Look(s, u)
    ensures u in s.table.rows ==> u in s'.table.rows && s'.table.rows[u] == s.table.rows[u]
    ensures u in s.dirs ==> u in s'.dirs && s'.dirs[u] == s.dirs[u]
    ensures u in s.log.witnessed ==> u in s'.log.witnessed && s'.log.witnessed[u] == s.log.witnessed[u]
  {
    hide StatusHistory;
  }

  // ----- rows and files of the own request -----

  /** What a statement makes of the row of its own request. */
  lemma StatementRow(env: Env, s: State, a: Action, u: Uuid)
    requires Enabled(env, s, a) && u in s.table.rows && RowAction(a) && Some(u) == Actor(s, a)
    ensures u in Next(env, s, a).table.rows
    ensures var r, r' := s.table.rows[u], Next(env, s, a).table.rows[u];
            || r' == r
            || (a.AMarkWitness? && r'.status == WitnessGenerated)
            || (a.AStoreProof? && r'.status == ProofGenerated)
            || (a.AFailRow? && r'.status == Failed)
  {
    hide StatusHistory, Fail;
    if a.AMarkWitness? || a.AStoreProof? { FailKeepsRows(s, a.id); }
  }

  lemma FailKeepsRows(s: State, id: nat)
    requires At(s, id)
    ensures forall reason :: Fail(s, id, reason).table == s.table && Fail(s, id, reason).dirs == s.dirs
  {
  }

  lemma RowDirs(env: Env, s: State, a: Action)
    requires Enabled(env, s, a) && RowAction(a)
    ensures Next(env, s, a).dirs == s.dirs
  {
    hide Update, Insert, Fail;
    if a.AMarkWitness? || a.AStoreProof? { FailKeepsRows(s, a.id); }
  }

  lemma FolderFiles(env: Env, s: State, a: Action, u: Uuid)
    requires Enabled(env, s, a) && FolderAction(a) && u in s.dirs && Actor(s, a) == Some(u)
    ensures var s' := Next(env, s, a);
            && u in s'.dirs
            && s'.dirs[u] == s.dirs[u].(input := s'.dirs[u].input)
            && (s'.dirs[u].input != s.dirs[u].input ==> !a.AMakeDir?)
  {
  }

  lemma ProgramFiles(env: Env, s: State, a: Action, u: Uuid)
    requires Enabled(env, s, a) && (EndingAction(a) || a.AChmod?) && u in s.dirs && Actor(s, a) == Some(u)
    ensures var s' := Next(env, s, a);
            && u in s'.dirs
            && s'.dirs[u].input == s.dirs[u].input
            && (s'.dirs[u].wtns != s.dirs[u].wtns ==> a.AAwaitWitness?)
            && (s'.dirs[u].proof != s.dirs[u].proof || s'.dirs[u].publics != s.dirs[u].publics ==> a.AAwaitProof?)
  {
    hide DoAwaitWitness, DoAwaitProof;
    match a
    case AAwaitWitness(id, err, out, now) => WitnessLook(env, s, id, err, out, now, u);
    case AAwaitProof(id, err, p, q, now) => ProverLook(env, s, id, err, p, q, now, u);
    case _ =>
  }

  // ----- faults and witnesses -----

  /** The fault that an action of the request `u` reports, in the words of the row. */
  ghost function Fault(env: Env, u: Uuid, a: Action): Option<string> {
    match a
    case AMakeDir(_, err) => err
    case AMakeInput(_, err) => err
    case AWriteInput(_, err) => err
    case AChmod(_, err) => err
    case AAwaitWitness(_, err, out, _) =>
      if err.Some? then err else if out.None? then Some("Witness file does not exist") else None
    case AMarkWitness(_, dbErr) => dbErr
    case AAwaitProof(_, err, proof, publics, _) =>
      if err.Some? then err
      else if proof.None? then Some("Could not read proof from path: " + (TmpFolder(u) + "/proof.json"))
      else if publics.None? then Some("Could not read public inputs from path: " + (TmpFolder(u) + "/public_inputs.json"))
      else if env.parseProof(proof.value).None? then Some("Could not deserialize proof: " + env.proofError(proof.value))
      else if env.parsePublics(publics.value).None? then Some("Could not deserialize public inputs: " + env.publicsError(publics.value))
      else None
    case AStoreProof(_, dbErr) => if dbErr.Some? then Some("Could not update proof: " + dbErr.value) else None
    case _ => None
  }

  lemma FaultIsFaulty(env: Env, u: Uuid, a: Action)
    ensures Fault(env, u, a).Some? <==> Faulty(env, a)
  {
  }

  lemma ProverFaultMeans(env: Env, u: Uuid, id: nat, err: Option<string>, proof: Option<string>, publics: Option<string>, now: nat)
    ensures ProverFault(env, u, err, proof, publics) == Fault(env, u, AAwaitProof(id, err, proof, publics, now))
  {
    hide TmpFolder, Join;
    InFolder(u, "proof.json");
    InFolder(u, "public_inputs.json");
    assert "/" + "proof.json" == "/proof.json" && "/" + "public_inputs.json" == "/public_inputs.json";
  }

  ghost function Also(marks: set<Uuid>, u: Option<Uuid>, more: bool): set<Uuid> {
    if u.Some? && more then marks + {u.value} else marks
  }

  /** An action notes a fault of its request if and only if it reports one, with the words
      it reports; a refused failing and a failed removal likewise; nothing but the ends of
      the two programs is noted as one; and a job that has ended stays so. */
  ghost predicate Notes(env: Env, s: State, a: Action, s': State) {
    && s.log.ended <= s'.log.ended
    && s'.log.reported ==
         (if Actor(s, a).Some? then WithFault(s.log.reported, Actor(s, a).value, Fault(env, Actor(s, a).value, a)) else s.log.reported)
    && s'.log.unfailed == Also(s.log.unfailed, Actor(s, a), a.AFailRow? && !a.dbOk)
    && s'.log.leaked == Also(s.log.leaked, Actor(s, a), Leaks(s, a))
    && (s'.log.witnessed == s.log.witnessed || NotesWitness(s, a, s'))
    && (s'.log.finished == s.log.finished || NotesFinish(s, a, s'))
  }

  /** The folder of the request is there and cannot be removed. */
  ghost predicate Leaks(s: State, a: Action) {
    a.ARemoveDir? && a.left.Some? && Actor(s, a).Some? && Actor(s, a).value in s.dirs
  }

  ghost predicate NotesWitness(s: State, a: Action, s': State) {
    && a.AAwaitWitness? && a.err.None? && Actor(s, a).Some?
    && s'.log.witnessed == s.log.witnessed[Actor(s, a).value := Left(a.out, a.now)]
  }

  ghost predicate NotesFinish(s: State, a: Action, s': State) {
    && a.AAwaitProof? && a.err.None? && Actor(s, a).Some? && Actor(s, a).value in s'.log.finished
    && s'.log.finished == s.log.finished[Actor(s, a).value := s'.log.finished[Actor(s, a).value]]
  }

  lemma RowNotes(env: Env, s: State, a: Action)
    requires Enabled(env, s, a) && RowAction(a)
    ensures Notes(env, s, a, Next(env, s, a))
  {
    hide InsertRow, DoMarkWitness, DoStoreProof, DoFailRow, Notes;
    match a
    case AInsertRow(id, dbOk) => InsertRowNotes(env, s, id, dbOk);
    case AMarkWitness(id, dbErr) => MarkWitnessNotes(env, s, id, dbErr);
    case AStoreProof(id, dbErr) => StoreProofNotes(env, s, id, dbErr);
    case AFailRow(id, dbOk) => FailRowNotes(env, s, id, dbOk);
  }

  lemma InsertRowNotes(env: Env, s: State, id: nat, dbOk: bool)
    requires At(s, id) && s.tasks[id].Inserting?
    ensures Notes(env, s, AInsertRow(id, dbOk), InsertRow(s, id, dbOk))
  {
    hide Insert, NewRow;
  }

  lemma MarkWitnessNotes(env: Env, s: State, id: nat, dbErr: Option<string>)
    requires At(s, id) && s.tasks[id].MarkWitness?
    ensures Notes(env, s, AMarkWitness(id, dbErr), DoMarkWitness(s, id, dbErr))
  {
    hide Update;
  }

  lemma StoreProofNotes(env: Env, s: State, id: nat, dbErr: Option<string>)
    requires At(s, id) && s.tasks[id].StoreProof?
    ensures Notes(env, s, AStoreProof(id, dbErr), DoStoreProof(s, id, dbErr))
  {
    hide Update;
  }

  lemma FailRowNotes(env: Env, s: State, id: nat, dbOk: bool)
    requires At(s, id) && s.tasks[id].FailRow?
    ensures Notes(env, s, AFailRow(id, dbOk), DoFailRow(s, id, dbOk))
  {
    hide Update;
  }

  lemma EndingNotes(env: Env, s: State, a: Action)
    requires Enabled(env, s, a) && EndingAction(a)
    ensures Notes(env, s, a, Next(env, s, a))
  {
    hide DoAwaitWitness, DoAwaitProof, Parsed, LeaveProof;
    match a
    case AAwaitWitness(id, err, out, now) => WitnessNotes(env, s, id, err, out, now);
    case AAwaitProof(id, err, p, q, now) =>
      ProverWrites(env, s, id, err, p, q, now);
      ProverFaultMeans(env, s.tasks[id].uuid, id, err, p, q, now);
  }

  lemma WitnessNotes(env: Env, s: State, id: nat, err: Option<string>, out: Option<Wtns>, now: nat)
    requires At(s, id) && s.tasks[id].AwaitWitness?
    ensures Notes(env, s, AAwaitWitness(id, err, out, now), DoAwaitWitness(env, s, id, err, out, now))
  {
    hide LeaveWitness, Join;
  }

  lemma FolderNotes(env: Env, s: State, a: Action)
    requires Enabled(env, s, a) && FolderAction(a)
    ensures Notes(env, s, a, Next(env, s, a))
  {
    hide Next;
    FolderWrites(env, s, a);
  }

  lemma OtherNotes(env: Env, s: State, a: Action)
    requires Enabled(env, s, a) && (a.AChmod? || a.ARemoveDir?)
    ensures Notes(env, s, a, Next(env, s, a))
  {
    hide DoChmod, DoRemoveDir, Notes;
    match a
    case AChmod(id, err) => ChmodNotes(env, s, id, err);
    case ARemoveDir(id, left) => RemoveDirNotes(env, s, id, left);
  }

  lemma ChmodNotes(env: Env, s: State, id: nat, err: Option<string>)
    requires At(s, id) && s.tasks[id].Chmod?
    ensures Notes(env, s, AChmod(id, err), DoChmod(s, id, err))
  {
  }

  lemma RemoveDirNotes(env: Env, s: State, id: nat, left: Option<Dir>)
    requires At(s, id) && s.tasks[id].RemoveDir?
    ensures Notes(env, s, ARemoveDir(id, left), DoRemoveDir(s, id, left))
  {
  }

  lemma QuietNotes(env: Env, s: State, a: Action)
    requires Enabled(env, s, a) && !RowAction(a) && !DirAction(a)
    ensures Notes(env, s, a, Next(env, s, a))
  {
    hide Next, Enabled, Look, Actor;
    QuietLook(env, s, a);
  }

  lemma StepNotes(env: Env, s: State, a: Action)
    requires Enabled(env, s, a)
    ensures Notes(env, s, a, Next(env, s, a))
  {
    hide Next, Enabled, Notes;
    if {
      case RowAction(a) => RowNotes(env, s, a);
      case EndingAction(a) => EndingNotes(env, s, a);
      case FolderAction(a) => FolderNotes(env, s, a);
      case a.AChmod? || a.ARemoveDir? => OtherNotes(env, s, a);
      case !RowAction(a) && !DirAction(a) => QuietNotes(env, s, a);
    }
  }
}
