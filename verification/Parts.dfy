/** The shared objects of the server beside the agreement store: the working directory,
    the database table and the channels. */
module Parts {
  import opened Base
  import opened Paths
  import opened Proofs
  import opened Machine

  /** The directory tree, by path. The ghost field is the same tree by request. */
  class Workspace {
    var paths: map<string, Dir>
    ghost var dirs: map<Uuid, Dir>

    ghost predicate Valid()
      reads this
    {
      && (forall u :: u in dirs ==> TmpFolder(u) in paths && paths[TmpFolder(u)] == dirs[u])
      && (forall p :: p in paths ==> exists u: Uuid :: u in dirs && TmpFolder(u) == p)
    }

    /** The tree as it is found: a folder for each of the given requests. */
    constructor (dirs: map<Uuid, Dir>)
      ensures Valid() && this.dirs == dirs
    {
      hide TmpFolder;
      forall u, v | u in dirs && v in dirs && TmpFolder(u) == TmpFolder(v)
        ensures u == v
      {
        NamesInjective(u, v);
      }
      paths := map u | u in dirs :: TmpFolder(u) := dirs[u];
      this.dirs := dirs;
    }

    /** Two requests never meet in one folder. */
    lemma Present(u: Uuid)
      requires Valid()
      ensures TmpFolder(u) in paths <==> u in dirs
      ensures forall v :: v in dirs && v != u ==> TmpFolder(v) != TmpFolder(u)
    {
      hide TmpFolder;
      forall v | v in dirs
        ensures TmpFolder(v) == TmpFolder(u) ==> v == u
      {
        NamesInjective(v, u);
      }
    }

    method Read(u: Uuid) returns (d: Option<Dir>)
      requires Valid()
      ensures d == if u in dirs then Some(dirs[u]) else None
    {
      hide TmpFolder;
      Present(u);
      var p := TmpFolder(u);
      d := if p in paths then Some(paths[p]) else None;
    }

    method Write(u: Uuid, d: Dir)
      requires Valid()
      modifies this
      ensures Valid() && dirs == old(dirs)[u := d]
    {
      hide TmpFolder;
      Present(u);
      paths := paths[TmpFolder(u) := d];
      dirs := dirs[u := d];
      forall p | p in paths
        ensures exists v: Uuid :: v in dirs && TmpFolder(v) == p
      {
        if p == TmpFolder(u) {
          assert u in dirs;
        } else {
          var v: Uuid :| v in old(dirs) && TmpFolder(v) == p;
          assert v in dirs;
        }
      }
    }

    method Remove(u: Uuid)
      requires Valid()
      modifies this
      ensures Valid() && dirs == old(dirs) - {u}
    {
      hide TmpFolder;
      Present(u);
      paths := paths - {TmpFolder(u)};
      dirs := dirs - {u};
      forall p | p in paths
        ensures exists v: Uuid :: v in dirs && TmpFolder(v) == p
      {
        var v: Uuid :| v in old(dirs) && TmpFolder(v) == p;
        assert v in dirs;
      }
    }
  }

  /** The table with its trigger. `dbOk` says whether the database carried a statement
      out; a refused one has no effect. */
  class ProofsTable {
    var rows: map<Uuid, Row>
    var notes: seq<Write>
    ghost var writes: seq<Write>

    ghost function Value(): Table
      reads this
    {
      Table(rows, writes, notes)
    }

    constructor (rows: map<Uuid, Row>)
      ensures Value() == Table(rows, [], [])
    {
      this.rows := rows;
      notes, writes := [], [];
    }

    /** UPDATE of one row: the trigger compares the statuses. */
    method UpdateRow(u: Uuid, row: Row)
      requires u in rows
      modifies this
      ensures Value() == Update(old(Value()), u, row)
    {
      var before := rows[u];
      rows := rows[u := row];
      writes := writes + [Write(u, row)];
      if row.status != before.status {
        notes := notes + [Write(u, row)];
      }
    }

    method CreateProofStatus(u: Uuid, submit: SubmitRequest, now: nat, dbOk: bool) returns (ok: bool)
      modifies this
      ensures ok <==> dbOk && u !in old(rows)
      ensures Value() == if dbOk && u !in old(rows) then Insert(old(Value()), u, NewRow(submit, now)) else old(Value())
    {
      if !dbOk || u in rows {
        return false;
      }
      var row := NewRow(submit, now);
      rows := rows[u := row];
      writes := writes + [Write(u, row)];
      notes := notes + [Write(u, row)];
      ok := true;
    }

    method SetWitnessGenerated(u: Uuid, now: nat)
      modifies this
      ensures Value() == if u in old(rows) then Update(old(Value()), u, WitnessRow(old(rows)[u], now)) else old(Value())
    {
      if u in rows {
        UpdateRow(u, WitnessRow(rows[u], now));
      }
    }

    method UpdateProof(u: Uuid, now: nat, proof: Proof, publicInputs: PublicInputs)
      modifies this
      ensures Value() == if u in old(rows) then Update(old(Value()), u, ProofRow(old(rows)[u], now, proof, publicInputs)) else old(Value())
    {
      if u in rows {
        UpdateRow(u, ProofRow(rows[u], now, proof, publicInputs));
      }
    }

    method FailProof(u: Uuid, reason: string)
      modifies this
      ensures Value() == if u in old(rows) then Update(old(Value()), u, FailedRow(old(rows)[u], reason)) else old(Value())
    {
      if u in rows {
        UpdateRow(u, FailedRow(rows[u], reason));
      }
    }
  }

  /** A bounded channel: its buffer, and as ghosts all that was sent and how much of it
      was received. */
  class Channel<T> {
    var buffer: seq<T>
    ghost var sent: seq<T>
    ghost var taken: nat

    ghost predicate Valid()
      reads this
    {
      taken <= |sent| && buffer == sent[taken..] && |buffer| <= QUEUE
    }

    ghost function Value(): Chan<T>
      reads this
    {
      Chan(sent, taken)
    }

    constructor ()
      ensures Valid() && Value() == Chan([], 0)
    {
      buffer, sent, taken := [], [], 0;
    }

    method Send(x: T)
      requires Valid() && Value().Room()
      modifies this
      ensures Valid() && Value() == old(Value()).Send(x)
    {
      buffer := buffer + [x];
      sent := sent + [x];
    }

    method Receive() returns (x: T)
      requires Valid() && Value().Ready()
      modifies this
      ensures Valid() && Value() == old(Value()).Take()
      ensures x == old(sent)[old(taken)]
    {
      x := buffer[0];
      buffer := buffer[1..];
      taken := taken + 1;
    }
  }
}
