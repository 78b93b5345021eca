/** Sources: where the times, the proof and the reason in a row come from, and what is left
    behind by whom, told by the actions of the run. */
module Sources {
  import opened Base
  import opened Paths
  import opened Proofs
  import opened Machine
  import opened Jobs
  import opened Sessions
  import opened Frames
  import opened Runs
  import opened Handlers
  import opened Theorems
  import JobSteps
  import Lru

  /** At some point of the run, an action of which `what` holds is taken. */
  ghost predicate Happens(env: Env, s: State, actions: seq<Action>, what: (State, Action) -> bool)
    requires Valid(env, s, actions)
    decreases |actions|
  {
    actions != [] && (what(s, actions[0]) || Happens(env, Next(env, s, actions[0]), actions[1..], what))
  }

  // ----- kinds of actions -----

  /** The handler reads its key and this time. */
  ghost function ReadsClock(id: nat, now: nat): (State, Action) -> bool {
    (t: State, a: Action) => a == AReadKey(id, now)
  }

  /** The witness program of `u` ends with success at this time. */
  ghost function EndsWitness(u: Uuid, now: nat): (State, Action) -> bool {
    (t: State, a: Action) => a.AAwaitWitness? && a.err.None? && a.now == now && Actor(t, a) == Some(u)
  }

  /** The prover of `u` ends with success at this time, having written the two texts whose
      contents are the given ones. */
  ghost function EndsProver(env: Env, u: Uuid, p: Proof, q: PublicInputs, now: nat): (State, Action) -> bool {
    (t: State, a: Action) =>
      && a.AAwaitProof? && a.err.None? && a.now == now && Actor(t, a) == Some(u)
      && a.proof.Some? && env.parseProof(a.proof.value) == Some(p)
      && a.publics.Some? && env.parsePublics(a.publics.value) == Some(q)
  }

  /** The database refuses to fail the row of `u`. */
  ghost function RefusesFailing(u: Uuid): (State, Action) -> bool {
    (t: State, a: Action) => a.AFailRow? && !a.dbOk && Actor(t, a) == Some(u)
  }

  /** The folder of `u` is there and cannot be removed. */
  ghost function FailsRemoval(u: Uuid): (State, Action) -> bool {
    (t: State, a: Action) => a.ARemoveDir? && a.left.Some? && Actor(t, a) == Some(u) && u in t.dirs
  }

  /** The words of the last fault that an action of `u` reports in the run. */
  ghost function LastFault(env: Env, s: State, actions: seq<Action>, u: Uuid): Option<string>
    requires Valid(env, s, actions)
    decreases |actions|
  {
    if actions == [] then None
    else
      var later := LastFault(env, Next(env, s, actions[0]), actions[1..], u);
      if later.Some? then later
      else if Actor(s, actions[0]) == Some(u) then Fault(env, u, actions[0])
      else None
  }

  // ----- what is noted has happened -----

  ghost function Reported(log: History, u: Uuid): Option<string> {
    if u in log.reported then Some(log.reported[u]) else None
  }

  lemma {:induction false} ReportedIsLast(env: Env, s: State, actions: seq<Action>, u: Uuid)
    requires Valid(env, s, actions)
    ensures var last := LastFault(env, s, actions, u);
            Reported(Final(env, s, actions).log, u) == if last.Some? then last else Reported(s.log, u)
    decreases |actions|
  {
    hide Next, Enabled, Fault, Actor;
    if actions != [] {
      StepNotes(env, s, actions[0]);
      ReportedIsLast(env, Next(env, s, actions[0]), actions[1..], u);
    }
  }

  lemma {:induction false} RefusalsNoted(env: Env, s: State, actions: seq<Action>, u: Uuid)
    requires Valid(env, s, actions)
    ensures u in Final(env, s, actions).log.unfailed <==> u in s.log.unfailed || Happens(env, s, actions, RefusesFailing(u))
    decreases |actions|
  {
    hide Next, Enabled, Fault, Actor;
    if actions != [] {
      StepNotes(env, s, actions[0]);
      RefusalsNoted(env, Next(env, s, actions[0]), actions[1..], u);
    }
  }

  lemma {:induction false} LeaksNoted(env: Env, s: State, actions: seq<Action>, u: Uuid)
    requires Valid(env, s, actions)
    ensures u in Final(env, s, actions).log.leaked <==> u in s.log.leaked || Happens(env, s, actions, FailsRemoval(u))
    decreases |actions|
  {
    hide Next, Enabled, Fault, Actor;
    if actions != [] {
      StepNotes(env, s, actions[0]);
      LeaksNoted(env, Next(env, s, actions[0]), actions[1..], u);
    }
  }

  ghost function WitnessTime(log: History, u: Uuid): Option<nat> {
    if u in log.witnessed then Some(log.witnessed[u].now) else None
  }

  lemma {:induction false} WitnessTimeRead(env: Env, s: State, actions: seq<Action>, u: Uuid, now: nat)
    requires Valid(env, s, actions)
    requires WitnessTime(Final(env, s, actions).log, u) == Some(now) != WitnessTime(s.log, u)
    ensures Happens(env, s, actions, EndsWitness(u, now))
    decreases |actions|
  {
    hide Next, Enabled, Fault, Actor;
    if actions != [] {
      var s' := Next(env, s, actions[0]);
      StepNotes(env, s, actions[0]);
      if WitnessTime(s'.log, u) != Some(now) {
        WitnessTimeRead(env, s', actions[1..], u, now);
      }
    }
  }

  ghost function ClockRead(log: History, id: nat): Option<nat> {
    if id in log.clockReads then Some(log.clockReads[id]) else None
  }

  /** Only reading a key reads the clock for a handler. */
  lemma ClockNotes(env: Env, s: State, a: Action, id: nat)
    requires Enabled(env, s, a)
    ensures var read := ClockRead(Next(env, s, a).log, id);
            read == ClockRead(s.log, id) || (read.Some? && a == AReadKey(id, read.value))
  {
    if SessionAction(a) || a.ASubmit? {
      hide Lru.Apply, Lru.Lookup, Validate, Insert, NewRow;
    } else {
      hide Next, Enabled, Apart;
      ActionApart(env, s, a);
    }
  }

  lemma {:induction false} ClockWasRead(env: Env, s: State, actions: seq<Action>, id: nat, now: nat)
    requires Valid(env, s, actions)
    requires ClockRead(Final(env, s, actions).log, id) == Some(now) != ClockRead(s.log, id)
    ensures Happens(env, s, actions, ReadsClock(id, now))
    decreases |actions|
  {
    hide Next, Enabled;
    if actions != [] {
      var s' := Next(env, s, actions[0]);
      ClockNotes(env, s, actions[0], id);
      if ClockRead(s'.log, id) != Some(now) {
        ClockWasRead(env, s', actions[1..], id, now);
      }
    }
  }

  ghost function Finished(log: History, u: Uuid): Option<Finish> {
    if u in log.finished then Some(log.finished[u]) else None
  }

  /** What is noted of a prover is what its two files contain. */
  lemma ProverNotes(env: Env, s: State, a: Action, u: Uuid)
    requires Inv(env, s) && Enabled(env, s, a)
    ensures var f := Finished(Next(env, s, a).log, u);
            f == Finished(s.log, u) ||
            (f.Some? && EndsProver(env, u, f.value.proof, f.value.publicInputs, f.value.now)(s, a))
  {
    hide Inv, Next, Enabled;
    StepNotes(env, s, a);
    if Finished(Next(env, s, a).log, u) != Finished(s.log, u) {
      ProverFinishes(env, s, a, u);
    }
  }

  lemma ProverFinishes(env: Env, s: State, a: Action, u: Uuid)
    requires Inv(env, s) && Enabled(env, s, a) && a.AAwaitProof? && a.err.None? && Actor(s, a) == Some(u)
    ensures var f := Finished(Next(env, s, a).log, u);
            f == Finished(s.log, u) ||
            (f.Some? && EndsProver(env, u, f.value.proof, f.value.publicInputs, f.value.now)(s, a))
  {
    hide Inv, DoAwaitProof, JobOk, RecordOk, ProverOk, Confined, StatusHistory, ReadError;
    HeldOk(env, s, TaskSlot(a.id));
    BeforeProver(env, s.tasks[a.id], Look(s, u));
    JobSteps.AwaitProofLook(env, s, a.id, a.err, a.proof, a.publics, a.now);
    assert Look(Next(env, s, a), u).finished == Finished(Next(env, s, a).log, u);
    assert Look(s, u).finished == Finished(s.log, u);
  }

  lemma BeforeProver(env: Env, t: Task, v: View)
    requires t.AwaitProof? && JobOk(env, t, v)
    ensures v.dir.Some? && v.dir.value.proof.None? && v.dir.value.publics.None? && v.reported.None?
  {
    hide IsWitness, ZkeyOf, Made;
  }

  lemma {:induction false} ProverHasEnded(env: Env, s: State, actions: seq<Action>, u: Uuid, f: Finish)
    requires Inv(env, s) && Valid(env, s, actions)
    requires Finished(Final(env, s, actions).log, u) == Some(f) != Finished(s.log, u)
    ensures Happens(env, s, actions, EndsProver(env, u, f.proof, f.publicInputs, f.now))
    decreases |actions|
  {
    hide Next, Enabled, Inv, EndsProver;
    if actions != [] {
      var s' := Next(env, s, actions[0]);
      ProverNotes(env, s, actions[0], u);
      InvKept(env, s, actions[0]);
      if Finished(s'.log, u) != Some(f) {
        ProverHasEnded(env, s', actions[1..], u, f);
      }
    }
  }

  // ----- outcomes -----

  /** The file system, when it obliges: an existing folder is left as it is, a created file
      is empty whatever was there, a written one holds the submitted inputs; and a folder
      is removed, or what is left of it stays. */
  lemma FileOutcomes(env: Env, s: State, id: nat, left: Option<Dir>)
    requires At(s, id)
    ensures var u := s.tasks[id].uuid;
            s.tasks[id].MakeDir? ==>
              Next(env, s, AMakeDir(id, None)).dirs == if u in s.dirs then s.dirs else s.dirs[u := Dir(None, None, None, None)]
    ensures var u := s.tasks[id].uuid;
            s.tasks[id].MakeInput? && u in s.dirs ==>
              Next(env, s, AMakeInput(id, None)).dirs == s.dirs[u := s.dirs[u].(input := Some(""))]
    ensures var u := s.tasks[id].uuid;
            s.tasks[id].WriteInput? && u in s.dirs ==>
              Next(env, s, AWriteInput(id, None)).dirs == s.dirs[u := s.dirs[u].(input := Some(s.tasks[id].request.circuit.inputs))]
    ensures var u := s.tasks[id].uuid;
            s.tasks[id].RemoveDir? ==>
              Next(env, s, ARemoveDir(id, left)).dirs ==
              if u in s.dirs && left.Some? then s.dirs[u := left.value] else s.dirs - {u}
  {
  }

  // ----- results -----

  /** Where a row of this run has its contents from: its creation time is what the handler
      of the admitted call read with its key; its witness time was read when its witness
      program ended; its proof, its public inputs and its proof time are what its prover
      left and what was read then; and its reason is the last fault reported by an action
      of its own, in the words of that action. */
  lemma RowSources(env: Env, start: State, actions: seq<Action>, u: Uuid)
    requires Init(start) && Valid(env, start, actions)
    requires var s := Final(env, start, actions); u in s.table.rows && u !in start.table.rows
    ensures var s := Final(env, start, actions);
            var r := s.table.rows[u];
            && u in s.log.admitted
            && Happens(env, start, actions, ReadsClock(s.log.admitted[u].reader, r.createdAt))
            && (r.witnessAt.Some? ==> Happens(env, start, actions, EndsWitness(u, r.witnessAt.value)))
            && (r.proofAt.Some? ==>
                  && r.proof.Some? && r.publicInputs.Some?
                  && Happens(env, start, actions, EndsProver(env, u, r.proof.value, r.publicInputs.value, r.proofAt.value)))
            && (r.status == Failed ==> r.reason.Some? && r.reason == LastFault(env, start, actions, u))
  {
    hide Valid, Final, Init, Inv, RecordOk, Happens, LastFault, ReadsClock, EndsWitness, EndsProver;
    Reached(env, start, actions);
    CallsOfRun(env, start, actions);
    NothingAtFirst(start, u);
    InitInv(env, start);
    var s := Final(env, start, actions);
    EndedRows(env, s);
    AdmittedCall(s, u);
    AdmittedRecord(env, s, u);
    var id, r := s.log.admitted[u].reader, s.table.rows[u];
    RecordSourced(env, Look(s, u));
    NothingRead(start, id);
    ClockWasRead(env, start, actions, id, r.createdAt);
    if r.witnessAt.Some? {
      WitnessTimeRead(env, start, actions, u, r.witnessAt.value);
    }
    if r.proofAt.Some? {
      ProverHasEnded(env, start, actions, u, s.log.finished[u]);
    }
    ReportedIsLast(env, start, actions, u);
  }

  lemma NothingAtFirst(start: State, u: Uuid)
    requires Init(start)
    ensures WitnessTime(start.log, u).None? && Finished(start.log, u).None? && Reported(start.log, u).None?
    ensures u !in start.log.unfailed && u !in start.log.leaked
  {
  }

  lemma NothingRead(start: State, id: nat)
    requires Init(start)
    ensures ClockRead(start.log, id).None?
  {
  }

  lemma RecordSourced(env: Env, v: View)
    requires RecordOk(env, v)
    ensures Sourced(v.row.value, v)
    ensures v.row.value.status == Failed ==> v.row.value.reason.Some?
    ensures v.row.value.proofAt.Some? ==> v.row.value.proof.Some? && v.row.value.publicInputs.Some?
  {
    hide Proven, Validate, Describes;
  }

  /** What is left behind, by whom: a folder that nobody holds is left exactly if an action
      of the run failed to remove it, and a row whose job has ended is not terminal exactly
      if the database refused to fail it. */
  lemma LeftBehind(env: Env, start: State, actions: seq<Action>, u: Uuid)
    requires Init(start) && Valid(env, start, actions) && u !in start.table.rows
    ensures var s := Final(env, start, actions);
            && (u in s.dirs && !Live(s, u) <==> Happens(env, start, actions, FailsRemoval(u)))
            && (u in s.log.ended ==>
                  u in s.table.rows && (!Terminal(s.table.rows[u]) <==> Happens(env, start, actions, RefusesFailing(u))))
  {
    hide Valid, Final, Init, Inv, Happens, Settled, Live, RefusesFailing, FailsRemoval;
    Reached(env, start, actions);
    NothingAtFirst(start, u);
    RefusalsNoted(env, start, actions, u);
    LeaksNoted(env, start, actions, u);
    NoLeftovers(env, start, actions, u);
    var s := Final(env, start, actions);
    EndedRows(env, s);
    if u in s.log.ended {
      HeldOrEnded(env, s, u);
      SettledMeans(s, u);
    }
  }

  /** The end of a prover that succeeded: its two files, if both are there and parse, go on
      to be stored with the time read; otherwise the job goes on to the cleanup, with the
      first of the four things that went wrong. */
  lemma ProverOutcome(env: Env, s: State, id: nat, proof: Option<string>, publics: Option<string>, now: nat)
    requires Inv(env, s) && Enabled(env, s, AAwaitProof(id, None, proof, publics, now))
    ensures var s', u := Next(env, s, AAwaitProof(id, None, proof, publics, now)), s.tasks[id].uuid;
            && (forall p, q :: proof.Some? && env.parseProof(proof.value) == Some(p)
                               && publics.Some? && env.parsePublics(publics.value) == Some(q) ==>
                  s'.tasks == s.tasks[id := StoreProof(u, p, q, now)])
            && (Fault(env, u, AAwaitProof(id, None, proof, publics, now)).Some? ==>
                  s'.tasks == s.tasks[id := FailRow(u, Fault(env, u, AAwaitProof(id, None, proof, publics, now)).value)])
  {
    hide Inv, DoAwaitProof, JobOk, RecordOk, ProverOk, Confined, StatusHistory, ReadError, TmpFolder;
    var u := s.tasks[id].uuid;
    HeldOk(env, s, TaskSlot(id));
    BeforeProver(env, s.tasks[id], Look(s, u));
    JobSteps.AwaitProofLook(env, s, id, None, proof, publics, now);
    ProverFaultMeans(env, u, id, None, proof, publics, now);
  }
}
