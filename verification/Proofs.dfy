/** The `proofs` table as a value: rows under their primary key, the log of every
    write, and the log of what the status trigger sent out. */
module Proofs {
  import opened Base

  datatype Status = Pending | WitnessGenerated | ProofGenerated | Failed

  datatype Row = Row(
    proofType: int,
    status: Status,
    circuitName: string,
    onchain: bool,
    createdAt: nat,
    witnessAt: Option<nat>,
    proofAt: Option<nat>,
    proof: Option<Proof>,
    endpointType: Option<string>,
    endpoint: Option<string>,
    publicInputs: Option<PublicInputs>,
    reason: Option<string>)

  /** A row as it stood right after a statement; also the payload of a notification. */
  datatype Write = Write(uuid: Uuid, row: Row)

  datatype Table = Table(rows: map<Uuid, Row>, writes: seq<Write>, notes: seq<Write>)

  // ----- the four statements -----

  function NewRow(submit: SubmitRequest, now: nat): Row {
    Row(submit.request.proofType, Pending, submit.request.circuit.name, submit.onchain, now,
        None, None, None, submit.request.endpointType, submit.request.endpoint, None, None)
  }

  function WitnessRow(r: Row, now: nat): Row {
    r.(status := WitnessGenerated, witnessAt := Some(now))
  }

  function ProofRow(r: Row, now: nat, proof: Proof, publicInputs: PublicInputs): Row {
    r.(proof := Some(proof), status := ProofGenerated, proofAt := Some(now), publicInputs := Some(publicInputs))
  }

  function FailedRow(r: Row, reason: string): Row {
    r.(status := Failed, reason := Some(reason))
  }

  /** INSERT: the trigger fires on every inserted row. */
  function Insert(t: Table, u: Uuid, row: Row): Table
    requires u !in t.rows
  {
    Table(t.rows[u := row], t.writes + [Write(u, row)], t.notes + [Write(u, row)])
  }

  /** UPDATE ... WHERE request_id = u: no condition on the old status; the trigger
      sends the row out only when the status has changed. */
  function Update(t: Table, u: Uuid, row: Row): Table {
    if u !in t.rows then t
    else
      Table(t.rows[u := row], t.writes + [Write(u, row)],
            if row.status != t.rows[u].status then t.notes + [Write(u, row)] else t.notes)
  }

  // ----- what a listener can rebuild -----

  /** The last payload per key, on top of the rows the listener started from. */
  function Replay(base: map<Uuid, Row>, log: seq<Write>): map<Uuid, Row> {
    if log == [] then base
    else Replay(base, log[..|log| - 1])[log[|log| - 1].uuid := log[|log| - 1].row]
  }

  function StatusHistory(log: seq<Write>, u: Uuid): seq<Status> {
    if log == [] then []
    else
      StatusHistory(log[..|log| - 1], u) +
      if log[|log| - 1].uuid == u then [log[|log| - 1].row.status] else []
  }

  lemma AppendWrite(base: map<Uuid, Row>, log: seq<Write>, w: Write, u: Uuid)
    ensures Replay(base, log + [w]) == Replay(base, log)[w.uuid := w.row]
    ensures StatusHistory(log + [w], u) ==
            StatusHistory(log, u) + if w.uuid == u then [w.row.status] else []
  {
    assert (log + [w])[..|log + [w]| - 1] == log;
  }

  /** Every statement so far was notified, and the notifications rebuild the table. */
  ghost predicate Mirrored(base: map<Uuid, Row>, t: Table) {
    t.notes == t.writes && Replay(base, t.notes) == t.rows
  }

  lemma InsertMirrored(base: map<Uuid, Row>, t: Table, u: Uuid, row: Row)
    requires Mirrored(base, t) && u !in t.rows
    ensures Mirrored(base, Insert(t, u, row))
  {
    AppendWrite(base, t.notes, Write(u, row), u);
  }

  /** An UPDATE keeps the listener's copy exact just when it changes the status of the
      row, or changes nothing in it: the trigger is silent about every other column. */
  lemma UpdateReplay(base: map<Uuid, Row>, t: Table, u: Uuid, row: Row)
    requires u in t.rows && Replay(base, t.notes) == t.rows
    ensures Replay(base, Update(t, u, row).notes) == Update(t, u, row).rows
            <==> row.status != t.rows[u].status || row == t.rows[u]
  {
    AppendWrite(base, t.notes, Write(u, row), u);
    if row.status == t.rows[u].status {
      assert Update(t, u, row).rows[u] == row;
      if row == t.rows[u] {
        assert t.rows[u := row] == t.rows;
      }
    }
  }

  lemma UpdateMirrored(base: map<Uuid, Row>, t: Table, u: Uuid, row: Row)
    requires Mirrored(base, t) && u in t.rows && row.status != t.rows[u].status
    ensures Mirrored(base, Update(t, u, row))
  {
    AppendWrite(base, t.notes, Write(u, row), u);
  }
}
