/** Every action keeps the invariant about rows, folders and the tasks that hold them:
    one lemma an action. */
module JobSteps {
  import opened Base
  import opened Paths
  import opened Proofs
  import opened Machine
  import opened Jobs
  import opened Flow

  // ----- how slots change -----

  ghost predicate SameQueues(s: State, s': State) {
    s'.fileQ == s.fileQ && s'.witnessQ == s.witnessQ && s'.proofQ == s.proofQ
  }

  lemma SameRowsOk(t: Table, log: History, log': History)
    requires RowsOk(t, log)
    requires log'.prior == log.prior && log'.admitted == log.admitted && log'.panicked == log.panicked
    requires log'.ended == log.ended
    ensures RowsOk(t, log')
  {
  }

  /** What the invariant says of the request at a slot. */
  lemma Known(env: Env, s: State, sl: Slot, u: Uuid)
    requires JobInv(env, s) && Holds(s, sl, u)
    ensures JobOk(env, Held(s, sl).value, Look(s, u))
    ensures u in s.log.admitted && u in s.table.rows && RecordOk(env, Look(s, u))
    ensures RowsOk(s.table, s.log)
  {
    assert Look(s, u).adm.Some?;
  }

  /** A task that goes on as `t` and changes nothing but itself and its own request. */
  lemma GoesOn(env: Env, s: State, s': State, id: nat, t: Task)
    requires JobInv(env, s) && At(s, id) && Owns(s.tasks[id])
    requires Owns(t) && t.uuid == s.tasks[id].uuid
    requires s'.tasks == s.tasks[id := t] && SameQueues(s, s')
    requires Confined(s, s', t.uuid) && RowsOk(s'.table, s'.log)
    requires RecordOk(env, Look(s', t.uuid)) && JobOk(env, t, Look(s', t.uuid))
    ensures JobInv(env, s')
  {
    hide JobInv, JobOk, RecordOk, RowsOk;
    var sl := TaskSlot(id);
    assert Held(s, sl).Some? && Held(s', sl) == Some(t);
    assert Moves(s, s', t.uuid, sl, Some(sl));
    JobStep(env, s, s', t.uuid, sl, Some(sl));
  }

  /** A task that only changes itself. */
  lemma JustGoesOn(env: Env, s: State, id: nat, t: Task)
    requires JobInv(env, s) && At(s, id) && Owns(s.tasks[id])
    requires Owns(t) && t.uuid == s.tasks[id].uuid
    requires JobOk(env, t, Look(s, t.uuid))
    ensures JobInv(env, SetTask(s, id, t))
  {
    hide JobInv, JobOk, RecordOk, RowsOk;
    assert Holds(s, TaskSlot(id), t.uuid);
    Known(env, s, TaskSlot(id), t.uuid);
    GoesOn(env, s, SetTask(s, id, t), id, t);
  }

  /** A task that meets a fault, before anything has gone wrong for its request. */
  lemma Fails(env: Env, s: State, id: nat, reason: string)
    requires JobInv(env, s) && At(s, id) && Owns(s.tasks[id])
    requires !s.tasks[id].FailRow? && !s.tasks[id].RemoveDir?
    ensures JobInv(env, Fail(s, id, reason))
  {
    hide JobInv, JobOk, RecordOk, RowsOk;
    var t, s' := s.tasks[id], Fail(s, id, reason);
    assert Holds(s, TaskSlot(id), t.uuid);
    Known(env, s, TaskSlot(id), t.uuid);
    assert Look(s', t.uuid) == Look(s, t.uuid).(reported := Some(reason));
    FaultMet(env, t, Look(s, t.uuid), reason);
    SameRowsOk(s.table, s.log, s'.log);
    GoesOn(env, s, s', id, FailRow(t.uuid, reason));
  }

  lemma FaultMet(env: Env, t: Task, v: View, reason: string)
    requires JobOk(env, t, v) && RecordOk(env, v) && !t.FailRow? && !t.RemoveDir?
    ensures JobOk(env, FailRow(t.uuid, reason), v.(reported := Some(reason))) && RecordOk(env, v.(reported := Some(reason)))
  {
    hide Validate, Proven, Made, IsWitness, ZkeyOf;
  }

  /** A task that writes into its own folder. */
  lemma WritesDir(env: Env, s: State, id: nat, t: Task, d: Dir)
    requires JobInv(env, s) && At(s, id) && Owns(s.tasks[id])
    requires Owns(t) && t.uuid == s.tasks[id].uuid
    requires JobOk(env, t, Look(s, t.uuid).(dir := Some(d)))
    ensures JobInv(env, s.(tasks := s.tasks[id := t], dirs := s.dirs[t.uuid := d]))
  {
    hide JobInv, JobOk, RecordOk, RowsOk, StatusHistory;
    var s' := s.(tasks := s.tasks[id := t], dirs := s.dirs[t.uuid := d]);
    assert Holds(s, TaskSlot(id), t.uuid);
    Known(env, s, TaskSlot(id), t.uuid);
    assert Look(s', t.uuid) == Look(s, t.uuid).(dir := Some(d));
    RecordIgnoresDir(env, Look(s, t.uuid), Look(s', t.uuid));
    GoesOn(env, s, s', id, t);
  }

  /** A task that updates its own row. */
  lemma WritesRow(env: Env, s: State, id: nat, t: Task, row: Row)
    requires JobInv(env, s) && At(s, id) && Owns(s.tasks[id])
    requires Owns(t) && t.uuid == s.tasks[id].uuid
    requires t.uuid in s.table.rows && row.status != s.table.rows[t.uuid].status
    requires var v := Look(s, t.uuid).(row := Some(row), history := Look(s, t.uuid).history + [row.status]);
             JobOk(env, t, v) && RecordOk(env, v)
    ensures JobInv(env, s.(tasks := s.tasks[id := t], table := Update(s.table, t.uuid, row)))
  {
    hide JobInv, JobOk, RecordOk, RowsOk;
    var s' := s.(tasks := s.tasks[id := t], table := Update(s.table, t.uuid, row));
    assert Holds(s, TaskSlot(id), t.uuid);
    Known(env, s, TaskSlot(id), t.uuid);
    RowFrame(s.table, s.dirs, s.log, t.uuid, row);
    UpdateRowsOk(s.table, s.log, t.uuid, row);
    forall v
      ensures Look(s', v) == ViewOf(Update(s.table, t.uuid, row), s.dirs, s.log, v)
    {
    }
    GoesOn(env, s, s', id, t);
  }

  // ----- RPC handlers -----

  lemma HelloJobs(env: Env, s: State, u: Uuid, secret: Bytes)
    requires JobInv(env, s)
    ensures JobInv(env, Hello(s, u, secret))
  {
    hide JobInv;
    QuietStep(env, s, Hello(s, u, secret));
  }

  lemma SubmitJobs(env: Env, s: State, u: Uuid, call: Call)
    requires JobInv(env, s) && s.nextId !in s.tasks
    ensures JobInv(env, Submit(s, u, call))
  {
    hide JobInv;
    QuietStep(env, s, Submit(s, u, call));
  }

  lemma ReadKeyJobs(env: Env, s: State, id: nat, now: nat)
    requires JobInv(env, s) && At(s, id) && s.tasks[id].Reading?
    ensures JobInv(env, ReadKey(env, s, id, now))
  {
    hide JobInv;
    QuietStep(env, s, ReadKey(env, s, id, now));
  }

  lemma RemoveAgreementJobs(env: Env, s: State, id: nat)
    requires JobInv(env, s) && At(s, id) && s.tasks[id].Removing?
    ensures JobInv(env, RemoveAgreement(s, id))
  {
    hide JobInv;
    QuietStep(env, s, RemoveAgreement(s, id));
  }

  /** The primary key is what makes the new job the only one: a request that anyone
      holds already has a row. */
  lemma NobodyHolds(env: Env, s: State, u: Uuid)
    requires JobInv(env, s) && u !in s.table.rows
    ensures forall sl :: !Holds(s, sl, u)
  {
    hide JobInv, JobOk, RecordOk, RowsOk;
    forall sl
      ensures !Holds(s, sl, u)
    {
      if Holds(s, sl, u) {
        Known(env, s, sl, u);
        assert false;
      }
    }
  }

  lemma InsertOwner(s: State, id: nat)
    requires SingleOwner(s) && At(s, id) && s.tasks[id].Inserting?
    requires s.tasks[id].uuid !in s.table.rows
    requires forall sl :: !Holds(s, sl, s.tasks[id].uuid)
    ensures SingleOwner(InsertRow(s, id, true))
  {
    hide NewRow, Insert;
    var s' := InsertRow(s, id, true);
    forall a, b, v | Holds(s', a, v) && Holds(s', b, v)
      ensures a == b
    {
      assert a != TaskSlot(id) ==> Holds(s, a, v);
      assert b != TaskSlot(id) ==> Holds(s, b, v);
    }
  }

  lemma NewRowPending(submit: SubmitRequest, now: nat)
    ensures NewRow(submit, now).status == Pending
  {
  }

  lemma InsertLook(s: State, id: nat, v: Uuid)
    requires At(s, id) && s.tasks[id].Inserting? && s.tasks[id].uuid !in s.table.rows
    ensures var t, s' := s.tasks[id], InsertRow(s, id, true);
            if v != t.uuid then Look(s', v) == Look(s, v)
            else Look(s', v) == Look(s, v).(
              adm := Some(Admission(t.call, t.submit, t.key, id, t.now)),
              row := Some(NewRow(t.submit, t.now)), history := Look(s, v).history + [Pending])
  {
    hide StatusHistory, Insert, NewRow;
    var t := s.tasks[id];
    assert NewRow(t.submit, t.now).status == Pending by { NewRowPending(t.submit, t.now); }
    RowInserted(s.table, t.uuid, NewRow(t.submit, t.now), v);
  }

  lemma InsertRowJobs(env: Env, s: State, id: nat, dbOk: bool)
    requires JobInv(env, s) && At(s, id) && s.tasks[id].Inserting?
    requires var t := s.tasks[id]; Validate(env, t.call, Some(t.key)) == Some(t.submit)
    ensures JobInv(env, InsertRow(s, id, dbOk))
  {
    hide SingleOwner, JobsOk, RecordsOk, NoneLost, Mirrored, Validate, Look;
    var t, s' := s.tasks[id], InsertRow(s, id, dbOk);
    if !dbOk || t.uuid in s.table.rows {
      QuietStep(env, s, s');
    } else {
      NobodyHolds(env, s, t.uuid);
      InsertOwner(s, id);
      InsertMirrored(s.log.prior, s.table, t.uuid, NewRow(t.submit, t.now));
      InsertedJobs(env, s, id);
      InsertedRecords(env, s, id);
      InsertedClean(s, id);
    }
  }

  lemma InsertedClean(s: State, id: nat)
    requires CleanOk(s) && At(s, id) && s.tasks[id].Inserting? && s.tasks[id].uuid !in s.table.rows
    ensures CleanOk(InsertRow(s, id, true))
  {
    hide Look;
    var s' := InsertRow(s, id, true);
    forall v | v !in s'.table.rows
      ensures Untouched(Look(s', v))
    {
      InsertLook(s, id, v);
    }
  }

  lemma InsertedJobs(env: Env, s: State, id: nat)
    requires JobInv(env, s) && At(s, id) && s.tasks[id].Inserting? && s.tasks[id].uuid !in s.table.rows
    requires Untouched(Look(s, s.tasks[id].uuid))
    ensures JobsOk(env, InsertRow(s, id, true))
  {
    hide JobInv, JobOk, RecordOk, RowsOk, Look, Validate;
    var t, u, s' := s.tasks[id], s.tasks[id].uuid, InsertRow(s, id, true);
    InsertLook(s, id, u);
    NewJobOk(env, s, id);
    forall sl | Held(s', sl).Some?
      ensures JobOk(env, Held(s', sl).value, Look(s', Held(s', sl).value.uuid))
    {
      if sl != TaskSlot(id) {
        assert Held(s', sl) == Held(s, sl);
        var v := Held(s, sl).value.uuid;
        Known(env, s, sl, v);
        InsertLook(s, id, v);
      }
    }
  }

  lemma NewJobOk(env: Env, s: State, id: nat)
    requires At(s, id) && s.tasks[id].Inserting? && s.tasks[id].uuid !in s.table.rows
    requires Untouched(Look(s, s.tasks[id].uuid))
    ensures var s' := InsertRow(s, id, true);
            JobOk(env, s'.tasks[id], Look(s', s.tasks[id].uuid))
  {
    InsertLook(s, id, s.tasks[id].uuid);
  }

  lemma InsertedRecords(env: Env, s: State, id: nat)
    requires JobInv(env, s) && At(s, id) && s.tasks[id].Inserting? && s.tasks[id].uuid !in s.table.rows
    requires var t := s.tasks[id]; Validate(env, t.call, Some(t.key)) == Some(t.submit)
    requires Untouched(Look(s, s.tasks[id].uuid))
    ensures RecordsOk(env, InsertRow(s, id, true)) && NoneLost(InsertRow(s, id, true))
  {
    hide SingleOwner, JobsOk, RowsOk, Look, RecordOk, Settled, CleanOk, Insert, NewRow;
    var u, s' := s.tasks[id].uuid, InsertRow(s, id, true);
    assert Holds(s', TaskSlot(id), u);
    NewRecordOk(env, s, id);
    forall v | v in s'.log.admitted
      ensures RecordOk(env, Look(s', v)) && (Live(s', v) || Settled(Look(s', v)))
    {
      InsertLook(s, id, v);
      if v != u && Live(s, v) {
        var sl :| Holds(s, sl, v);
        assert Holds(s', sl, v);
      }
    }
  }

  lemma NewRecordOk(env: Env, s: State, id: nat)
    requires At(s, id) && s.tasks[id].Inserting? && s.tasks[id].uuid !in s.table.rows
    requires var t := s.tasks[id]; Validate(env, t.call, Some(t.key)) == Some(t.submit)
    requires Untouched(Look(s, s.tasks[id].uuid))
    ensures RecordOk(env, Look(InsertRow(s, id, true), s.tasks[id].uuid))
  {
    hide Look, Validate, InsertRow;
    InsertLook(s, id, s.tasks[id].uuid);
  }

  lemma SendFileJobs(env: Env, s: State, id: nat)
    requires JobInv(env, s) && QueuesOk(s) && At(s, id) && s.tasks[id].Sending?
    ensures JobInv(env, SendFile(s, id))
  {
    hide JobInv, RecordOk, RowsOk;
    var t, s' := s.tasks[id], SendFile(s, id);
    var a, b := TaskSlot(id), FileSlot(|s.fileQ.sent|);
    assert Holds(s, a, t.uuid);
    Known(env, s, a, t.uuid);
    assert Held(s', b) == Some(MakeDir(t.uuid, t.request));
    assert Moves(s, s', t.uuid, a, Some(b));
    JobStep(env, s, s', t.uuid, a, Some(b));
  }

  // ----- file tasks -----

  lemma RecvFileJobs(env: Env, s: State)
    requires JobInv(env, s) && QueuesOk(s) && s.fileQ.Ready() && s.nextId !in s.tasks
    ensures JobInv(env, RecvFile(s))
  {
    hide JobInv, RecordOk, RowsOk;
    var g, s' := s.fileQ.sent[s.fileQ.taken], RecvFile(s);
    var a, b := FileSlot(s.fileQ.taken), TaskSlot(s.nextId);
    assert Holds(s, a, g.uuid);
    Known(env, s, a, g.uuid);
    assert Held(s', b) == Some(MakeDir(g.uuid, g.request));
    assert Moves(s, s', g.uuid, a, Some(b));
    JobStep(env, s, s', g.uuid, a, Some(b));
  }

  lemma MakeDirJobs(env: Env, s: State, id: nat, err: Option<string>)
    requires JobInv(env, s) && At(s, id) && s.tasks[id].MakeDir?
    ensures JobInv(env, DoMakeDir(s, id, err))
  {
    hide JobInv, RowsOk;
    var t := s.tasks[id];
    if err.Some? {
      Fails(env, s, id, err.value);
    } else {
      assert Holds(s, TaskSlot(id), t.uuid);
      Known(env, s, TaskSlot(id), t.uuid);
      WritesDir(env, s, id, MakeInput(t.uuid, t.request), EMPTY_DIR);
    }
  }

  lemma MakeInputJobs(env: Env, s: State, id: nat, err: Option<string>)
    requires JobInv(env, s) && At(s, id) && s.tasks[id].MakeInput? && FileOk(s, id, err)
    ensures JobInv(env, DoMakeInput(s, id, err))
  {
    hide JobInv, RowsOk;
    var t := s.tasks[id];
    if err.Some? {
      Fails(env, s, id, err.value);
    } else {
      assert Holds(s, TaskSlot(id), t.uuid);
      Known(env, s, TaskSlot(id), t.uuid);
      WritesDir(env, s, id, WriteInput(t.uuid, t.request), EMPTY_DIR.(input := Some("")));
    }
  }

  lemma WriteInputJobs(env: Env, s: State, id: nat, err: Option<string>)
    requires JobInv(env, s) && At(s, id) && s.tasks[id].WriteInput? && FileOk(s, id, err)
    ensures JobInv(env, DoWriteInput(s, id, err))
  {
    hide JobInv, RowsOk;
    var t := s.tasks[id];
    if err.Some? {
      Fails(env, s, id, err.value);
    } else {
      assert Holds(s, TaskSlot(id), t.uuid);
      Known(env, s, TaskSlot(id), t.uuid);
      WritesDir(env, s, id, SendWitness(t.uuid, t.request.circuit.name), EMPTY_DIR.(input := Some(t.request.circuit.inputs)));
    }
  }

  lemma SendWitnessJobs(env: Env, s: State, id: nat)
    requires JobInv(env, s) && QueuesOk(s) && At(s, id) && s.tasks[id].SendWitness?
    ensures JobInv(env, DoSendWitness(s, id))
  {
    hide JobInv, RecordOk, RowsOk;
    var t, s' := s.tasks[id], DoSendWitness(s, id);
    var a, b := TaskSlot(id), WitnessSlot(|s.witnessQ.sent|);
    assert Holds(s, a, t.uuid);
    Known(env, s, a, t.uuid);
    assert Held(s', b) == Some(Chmod(t.uuid, t.name));
    assert Moves(s, s', t.uuid, a, Some(b));
    JobStep(env, s, s', t.uuid, a, Some(b));
  }

  // ----- witness tasks -----

  lemma RecvWitnessJobs(env: Env, s: State)
    requires JobInv(env, s) && QueuesOk(s) && s.witnessQ.Ready() && s.nextId !in s.tasks
    ensures JobInv(env, RecvWitness(s))
  {
    hide JobInv, RecordOk, RowsOk;
    var g, s' := s.witnessQ.sent[s.witnessQ.taken], RecvWitness(s);
    var a, b := WitnessSlot(s.witnessQ.taken), TaskSlot(s.nextId);
    assert Holds(s, a, g.uuid);
    Known(env, s, a, g.uuid);
    assert Held(s', b) == Some(Chmod(g.uuid, g.name));
    assert Moves(s, s', g.uuid, a, Some(b));
    JobStep(env, s, s', g.uuid, a, Some(b));
  }

  lemma ChmodJobs(env: Env, s: State, id: nat, err: Option<string>)
    requires JobInv(env, s) && At(s, id) && s.tasks[id].Chmod?
    ensures JobInv(env, DoChmod(s, id, err))
  {
    hide JobInv, RowsOk;
    var t := s.tasks[id];
    if err.Some? {
      Fails(env, s, id, err.value);
    } else {
      assert Holds(s, TaskSlot(id), t.uuid);
      Known(env, s, TaskSlot(id), t.uuid);
      JustGoesOn(env, s, id, StartWitness(t.uuid, t.name));
    }
  }

  lemma StartWitnessJobs(env: Env, s: State, id: nat)
    requires JobInv(env, s) && At(s, id) && s.tasks[id].StartWitness?
    ensures JobInv(env, DoStartWitness(s, id))
  {
    hide JobInv, RowsOk;
    var t := s.tasks[id];
    assert Holds(s, TaskSlot(id), t.uuid);
    Known(env, s, TaskSlot(id), t.uuid);
    assert Look(s, t.uuid).dir == GetDir(s, t.uuid);
    JustGoesOn(env, s, id, DoStartWitness(s, id).tasks[id]);
  }

  /** The view of a request after its witness program. */
  ghost function WitnessView(v: View, err: Option<string>, out: Option<Wtns>, now: nat): View
    requires v.dir.Some?
  {
    v.(dir := Some(v.dir.value.(wtns := out)),
       reported := if err.Some? then err else if out.None? then Some(NO_WITNESS) else None,
       left := if err.Some? then None else Some(Left(out, now)))
  }

  /** What the end of a witness program means for its request. */
  lemma WitnessEnds(env: Env, t: Task, v: View, err: Option<string>, out: Option<Wtns>, now: nat)
    requires t.AwaitWitness? && JobOk(env, t, v) && RecordOk(env, v) && WitnessOk(env, t, err, out)
    requires v.row.value.createdAt <= now
    ensures v.dir.Some? && t.name in env.zkeys
    ensures var v' := WitnessView(v, err, out, now);
            && RecordOk(env, v')
            && JobOk(env, if err.Some? then FailRow(t.uuid, err.value) else MarkWitness(t.uuid, ZkeyPath(env, t.name), now), v')
  {
    hide CircuitExe, Join, Made;
  }

  lemma AwaitWitnessLook(env: Env, s: State, id: nat, err: Option<string>, out: Option<Wtns>, now: nat)
    requires At(s, id) && s.tasks[id].AwaitWitness? && s.tasks[id].name in env.zkeys
    requires var v := Look(s, s.tasks[id].uuid);
             v.dir.Some? && v.dir.value.wtns.None? && v.left.None? && v.reported.None?
    ensures var u, s' := s.tasks[id].uuid, DoAwaitWitness(env, s, id, err, out, now);
            && Confined(s, s', u)
            && Look(s', u) == WitnessView(Look(s, u), err, out, now)
            && s'.tasks == s.tasks[id :=
                 if err.Some? then FailRow(u, err.value) else MarkWitness(u, ZkeyPath(env, s.tasks[id].name), now)]
            && SameQueues(s, s') && s'.table == s.table
            && s'.log == s.log.(reported := s'.log.reported, witnessed := s'.log.witnessed, clock := s'.log.clock)
  {
    hide StatusHistory, Join;
  }

  lemma AwaitWitnessJobs(env: Env, s: State, id: nat, err: Option<string>, out: Option<Wtns>, now: nat)
    requires JobInv(env, s) && At(s, id) && s.tasks[id].AwaitWitness? && WitnessOk(env, s.tasks[id], err, out)
    requires forall u :: u in s.log.admitted ==> s.table.rows[u].createdAt <= now
    ensures JobInv(env, DoAwaitWitness(env, s, id, err, out, now))
  {
    hide JobInv, RowsOk, JobOk, RecordOk, WitnessOk, ZkeyPath, DoAwaitWitness, Confined, StatusHistory, SameQueues, WitnessView;
    var t, s' := s.tasks[id], DoAwaitWitness(env, s, id, err, out, now);
    var v := Look(s, t.uuid);
    assert Holds(s, TaskSlot(id), t.uuid);
    Known(env, s, TaskSlot(id), t.uuid);
    WitnessEnds(env, t, v, err, out, now);
    BeforeWitness(env, t, v);
    AwaitWitnessLook(env, s, id, err, out, now);
    SameRowsOk(s.table, s.log, s'.log);
    GoesOn(env, s, s', id, s'.tasks[id]);
  }

  lemma BeforeWitness(env: Env, t: Task, v: View)
    requires t.AwaitWitness? && JobOk(env, t, v)
    ensures v.dir.Some? && v.dir.value.wtns.None? && v.left.None? && v.reported.None?
  {
  }

  lemma MarkWitnessJobs(env: Env, s: State, id: nat, dbErr: Option<string>)
    requires JobInv(env, s) && At(s, id) && s.tasks[id].MarkWitness?
    ensures JobInv(env, DoMarkWitness(s, id, dbErr))
  {
    hide JobInv, JobOk, RecordOk, RowsOk;
    var t := s.tasks[id];
    if dbErr.Some? {
      Fails(env, s, id, dbErr.value);
    } else {
      assert Holds(s, TaskSlot(id), t.uuid);
      Known(env, s, TaskSlot(id), t.uuid);
      WitnessMarked(env, t, Look(s, t.uuid));
      WritesRow(env, s, id, SendProof(t.uuid, t.zkey), WitnessRow(s.table.rows[t.uuid], t.now));
    }
  }

  lemma WitnessMarked(env: Env, t: Task, v: View)
    requires t.MarkWitness? && JobOk(env, t, v) && RecordOk(env, v)
    ensures var row := WitnessRow(v.row.value, t.now);
            var v' := v.(row := Some(row), history := v.history + [WitnessGenerated]);
            row.status != v.row.value.status && JobOk(env, SendProof(t.uuid, t.zkey), v') && RecordOk(env, v')
  {
    hide Validate, Made, IsWitness, ZkeyOf;
  }

  lemma SendProofJobs(env: Env, s: State, id: nat)
    requires JobInv(env, s) && QueuesOk(s) && At(s, id) && s.tasks[id].SendProof?
    ensures JobInv(env, DoSendProof(s, id))
  {
    hide JobInv, RecordOk, RowsOk, Moves, Confined, AfterWitness, ZkeyOf;
    var t, s' := s.tasks[id], DoSendProof(s, id);
    var a, b := TaskSlot(id), ProofSlot(|s.proofQ.sent|);
    assert Holds(s, a, t.uuid);
    Known(env, s, a, t.uuid);
    SendProofMoves(s, id);
    JobStep(env, s, s', t.uuid, a, Some(b));
  }

  lemma SendProofMoves(s: State, id: nat)
    requires QueuesOk(s) && At(s, id) && s.tasks[id].SendProof?
    ensures var t, s', b := s.tasks[id], DoSendProof(s, id), ProofSlot(|s.proofQ.sent|);
            && Moves(s, s', t.uuid, TaskSlot(id), Some(b)) && Confined(s, s', t.uuid)
            && Held(s', b) == Some(StartProof(t.uuid, t.zkey)) && Look(s', t.uuid) == Look(s, t.uuid)
  {
  }

  // ----- the proof worker -----

  lemma RecvProofJobs(env: Env, s: State)
    requires JobInv(env, s) && QueuesOk(s) && s.proofQ.Ready() && WORKER !in s.tasks
    ensures JobInv(env, RecvProof(s))
  {
    hide JobInv, RecordOk, RowsOk;
    var g, s' := s.proofQ.sent[s.proofQ.taken], RecvProof(s);
    var a, b := ProofSlot(s.proofQ.taken), TaskSlot(WORKER);
    assert Holds(s, a, g.uuid);
    Known(env, s, a, g.uuid);
    assert Held(s', b) == Some(StartProof(g.uuid, g.zkey));
    assert Moves(s, s', g.uuid, a, Some(b));
    JobStep(env, s, s', g.uuid, a, Some(b));
  }

  lemma StartProofJobs(env: Env, s: State, id: nat)
    requires JobInv(env, s) && At(s, id) && s.tasks[id].StartProof?
    ensures JobInv(env, DoStartProof(s, id))
  {
    hide JobInv, RowsOk;
    var t := s.tasks[id];
    assert Holds(s, TaskSlot(id), t.uuid);
    Known(env, s, TaskSlot(id), t.uuid);
    assert Look(s, t.uuid).dir == GetDir(s, t.uuid);
    JustGoesOn(env, s, id, DoStartProof(s, id).tasks[id]);
  }

  /** The view of a request after its prover, and the task it goes on as. */
  ghost function ProverView(env: Env, u: Uuid, v: View, err: Option<string>, proof: Option<string>, publics: Option<string>, now: nat): View
    requires v.dir.Some?
  {
    var fault, pq := ProverFault(env, u, err, proof, publics), Parsed(env, proof, publics);
    v.(dir := Some(v.dir.value.(proof := proof, publics := publics)), reported := fault,
       finished := if fault.None? then Some(Finish(pq.value.0, pq.value.1, now)) else v.finished)
  }

  ghost function AfterProver(env: Env, u: Uuid, err: Option<string>, proof: Option<string>, publics: Option<string>, now: nat): Task {
    var fault, pq := ProverFault(env, u, err, proof, publics), Parsed(env, proof, publics);
    if fault.Some? then FailRow(u, fault.value) else StoreProof(u, pq.value.0, pq.value.1, now)
  }

  /** What the end of the prover means for its request. */
  lemma ProverEnds(env: Env, t: Task, v: View, err: Option<string>, proof: Option<string>, publics: Option<string>, now: nat)
    requires t.AwaitProof? && JobOk(env, t, v) && RecordOk(env, v) && ProverOk(env, t, err, proof, publics)
    requires v.row.value.witnessAt.Some? ==> v.row.value.witnessAt.value <= now
    ensures v.dir.Some? && v.dir.value.proof.None? && v.dir.value.publics.None? && v.reported.None?
    ensures var v' := ProverView(env, t.uuid, v, err, proof, publics, now);
            RecordOk(env, v') && JobOk(env, AfterProver(env, t.uuid, err, proof, publics, now), v')
  {
    hide CircuitExe, Join, Proven, Validate;
    if err.None? && Parsed(env, proof, publics).Some? {
      assert ProvenBy(env, v.adm.value.submit.request, t.wtns, proof.value, publics.value);
    }
  }

  lemma AwaitProofLook(env: Env, s: State, id: nat, err: Option<string>, proof: Option<string>, publics: Option<string>, now: nat)
    requires At(s, id) && s.tasks[id].AwaitProof?
    requires var v := Look(s, s.tasks[id].uuid);
             v.dir.Some? && v.dir.value.proof.None? && v.dir.value.publics.None? && v.reported.None?
    ensures var u, s' := s.tasks[id].uuid, DoAwaitProof(env, s, id, err, proof, publics, now);
            && Confined(s, s', u)
            && Look(s', u) == ProverView(env, u, Look(s, u), err, proof, publics, now)
            && s'.tasks == s.tasks[id := AfterProver(env, u, err, proof, publics, now)]
            && SameQueues(s, s') && s'.table == s.table
            && s'.log == s.log.(reported := s'.log.reported, finished := s'.log.finished, clock := s'.log.clock)
  {
    hide StatusHistory, Parsed, ReadError;
  }

  lemma AwaitProofJobs(env: Env, s: State, id: nat, err: Option<string>, proof: Option<string>, publics: Option<string>, now: nat)
    requires JobInv(env, s) && At(s, id) && s.tasks[id].AwaitProof? && ProverOk(env, s.tasks[id], err, proof, publics)
    requires forall u :: u in s.log.admitted ==>
               s.table.rows[u].witnessAt.Some? ==> s.table.rows[u].witnessAt.value <= now
    ensures JobInv(env, DoAwaitProof(env, s, id, err, proof, publics, now))
  {
    hide JobInv, RowsOk, JobOk, RecordOk, ProverOk, DoAwaitProof, Parsed, Confined, StatusHistory, SameQueues;
    var t, s' := s.tasks[id], DoAwaitProof(env, s, id, err, proof, publics, now);
    assert Holds(s, TaskSlot(id), t.uuid);
    Known(env, s, TaskSlot(id), t.uuid);
    ProverEnds(env, t, Look(s, t.uuid), err, proof, publics, now);
    AwaitProofLook(env, s, id, err, proof, publics, now);
    SameRowsOk(s.table, s.log, s'.log);
    GoesOn(env, s, s', id, s'.tasks[id]);
  }

  lemma StoreProofJobs(env: Env, s: State, id: nat, dbErr: Option<string>)
    requires JobInv(env, s) && At(s, id) && s.tasks[id].StoreProof?
    ensures JobInv(env, DoStoreProof(s, id, dbErr))
  {
    hide JobInv, JobOk, RecordOk, RowsOk;
    var t := s.tasks[id];
    if dbErr.Some? {
      Fails(env, s, id, "Could not update proof: " + dbErr.value);
    } else {
      assert Holds(s, TaskSlot(id), t.uuid);
      Known(env, s, TaskSlot(id), t.uuid);
      ProofStored(env, t, Look(s, t.uuid));
      WritesRow(env, s, id, RemoveDir(t.uuid), ProofRow(s.table.rows[t.uuid], t.now, t.proof, t.publicInputs));
    }
  }

  lemma ProofStored(env: Env, t: Task, v: View)
    requires t.StoreProof? && JobOk(env, t, v) && RecordOk(env, v)
    ensures var row := ProofRow(v.row.value, t.now, t.proof, t.publicInputs);
            var v' := v.(row := Some(row), history := v.history + [ProofGenerated]);
            row.status != v.row.value.status && JobOk(env, RemoveDir(t.uuid), v') && RecordOk(env, v')
  {
    hide Validate, Made;
  }

  // ----- cleanup -----

  lemma FailRowJobs(env: Env, s: State, id: nat, dbOk: bool)
    requires JobInv(env, s) && At(s, id) && s.tasks[id].FailRow?
    ensures JobInv(env, DoFailRow(s, id, dbOk))
  {
    hide JobInv, RowsOk, JobOk, RecordOk, StatusHistory;
    var t := s.tasks[id];
    assert Holds(s, TaskSlot(id), t.uuid);
    Known(env, s, TaskSlot(id), t.uuid);
    FailingEnds(env, t, Look(s, t.uuid));
    if dbOk {
      WritesRow(env, s, id, RemoveDir(t.uuid), FailedRow(s.table.rows[t.uuid], t.reason));
    } else {
      FailingRefused(env, s, id);
    }
  }

  lemma FailingRefused(env: Env, s: State, id: nat)
    requires JobInv(env, s) && At(s, id) && s.tasks[id].FailRow?
    ensures JobInv(env, DoFailRow(s, id, false))
  {
    hide JobInv, RowsOk, JobOk, RecordOk, StatusHistory;
    var t, s' := s.tasks[id], DoFailRow(s, id, false);
    assert Holds(s, TaskSlot(id), t.uuid);
    Known(env, s, TaskSlot(id), t.uuid);
    FailingEnds(env, t, Look(s, t.uuid));
    assert Look(s', t.uuid) == Look(s, t.uuid).(unfailed := true);
    SameRowsOk(s.table, s.log, s'.log);
    GoesOn(env, s, s', id, RemoveDir(t.uuid));
  }

  /** What either outcome of `fail_proof` means for its request. */
  lemma FailingEnds(env: Env, t: Task, v: View)
    requires t.FailRow? && JobOk(env, t, v) && RecordOk(env, v)
    ensures var v' := v.(unfailed := true);
            JobOk(env, RemoveDir(t.uuid), v') && RecordOk(env, v')
    ensures var row := FailedRow(v.row.value, t.reason);
            var v' := v.(row := Some(row), history := v.history + [Failed]);
            row.status != v.row.value.status && JobOk(env, RemoveDir(t.uuid), v') && RecordOk(env, v')
  {
    hide Validate, Proven;
  }

  lemma RemoveDirJobs(env: Env, s: State, id: nat, left: Option<Dir>)
    requires JobInv(env, s) && At(s, id) && s.tasks[id].RemoveDir?
    ensures JobInv(env, DoRemoveDir(s, id, left))
  {
    hide JobInv, RowsOk, RecordOk, JobOk, Confined, Settled;
    var u, s' := s.tasks[id].uuid, DoRemoveDir(s, id, left);
    assert Holds(s, TaskSlot(id), u);
    Known(env, s, TaskSlot(id), u);
    RemoveDirLook(env, s, id, left);
    RemoveDirRows(s, id, left);
    assert Moves(s, s', u, TaskSlot(id), None);
    JobStep(env, s, s', u, TaskSlot(id), None);
  }

  lemma RemoveDirRows(s: State, id: nat, left: Option<Dir>)
    requires At(s, id) && s.tasks[id].RemoveDir? && RowsOk(s.table, s.log)
    requires s.tasks[id].uuid in s.log.admitted && s.tasks[id].uuid !in s.log.ended
    ensures RowsOk(s.table, DoRemoveDir(s, id, left).log)
  {
    hide Mirrored, NoDup;
    EndedOnce(s.log.ended, s.tasks[id].uuid);
  }

  lemma EndedOnce(ended: seq<Uuid>, u: Uuid)
    requires NoDup(ended) && u !in ended
    ensures NoDup(ended + [u]) && forall v :: v in ended + [u] <==> v in ended || v == u
  {
    forall i | 0 <= i < |ended|
      ensures ended[i] != u
    {
      assert ended[i] in ended;
    }
  }

  lemma RemoveDirLook(env: Env, s: State, id: nat, left: Option<Dir>)
    requires At(s, id) && s.tasks[id].RemoveDir?
    requires JobOk(env, s.tasks[id], Look(s, s.tasks[id].uuid)) && RecordOk(env, Look(s, s.tasks[id].uuid))
    ensures s.tasks[id].uuid !in s.log.ended
    ensures var u, s' := s.tasks[id].uuid, DoRemoveDir(s, id, left);
            Confined(s, s', u) && RecordOk(env, Look(s', u)) && Settled(Look(s', u))
  {
    hide RecordOk, StatusHistory, DoRemoveDir, Look, Confined;
    var u, s' := s.tasks[id].uuid, DoRemoveDir(s, id, left);
    RemovedLook(s, id, left);
    RecordIgnoresDir(env, Look(s, u), Look(s', u));
    NotEnded(s, u);
  }

  lemma NotEnded(s: State, u: Uuid)
    ensures Look(s, u).ended <==> u in s.log.ended
    ensures Look(s, u).dir == if u in s.dirs then Some(s.dirs[u]) else None
  {
    hide StatusHistory;
  }

  lemma RemovedLook(s: State, id: nat, left: Option<Dir>)
    requires At(s, id) && s.tasks[id].RemoveDir? && !Look(s, s.tasks[id].uuid).leaked
    ensures var u, s' := s.tasks[id].uuid, DoRemoveDir(s, id, left);
            && Confined(s, s', u)
            && Look(s', u) == Look(s, u).(
                 dir := if u in s.dirs then left else None, leaked := u in s.dirs && left.Some?, ended := true)
  {
    hide StatusHistory;
    var u, s' := s.tasks[id].uuid, DoRemoveDir(s, id, left);
    assert forall v :: v in s'.log.ended <==> v in s.log.ended || v == u;
  }

  lemma RecordIgnoresDir(env: Env, v: View, v': View)
    requires RecordOk(env, v)
    requires v'.adm == v.adm && v'.row == v.row && v'.history == v.history
    requires v'.reported == v.reported && v'.left == v.left && v'.finished == v.finished
    ensures RecordOk(env, v')
  {
  }
}
