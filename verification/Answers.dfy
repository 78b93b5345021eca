/** What callers are told: of all the calls for one request, racing or not, exactly the
    one that was admitted is answered with success. */
module Answers {
  import opened Base
  import opened Machine
  import opened Proofs
  import opened Sessions
  import Lru

  ghost predicate AdmittedBy(admitted: map<Uuid, Admission>, u: Uuid, id: nat) {
    u in admitted && admitted[u].reader == id
  }

  /** A handler up to its INSERT has had nothing admitted; afterwards it knows. */
  ghost predicate HandlerOk(admitted: map<Uuid, Admission>, id: nat, t: Task) {
    match t
    case Reading(_, _) => forall u :: !AdmittedBy(admitted, u, id)
    case Inserting(_, _, _, _, _) => forall u :: !AdmittedBy(admitted, u, id)
    case Sending(u, _) => AdmittedBy(admitted, u, id)
    case Removing(u, ok) => ok <==> AdmittedBy(admitted, u, id)
    case _ => true
  }

  ghost predicate ReturnOk(s: State, r: Return) {
    && 1 <= r.handler < s.nextId && r.handler !in s.tasks
    && (r.ok <==> AdmittedBy(s.log.admitted, r.uuid, r.handler))
  }

  /** Every call has its own handler. */
  ghost predicate OneReturn(returned: seq<Return>) {
    forall i, j :: 0 <= i < j < |returned| ==> returned[i].handler != returned[j].handler
  }

  ghost predicate AnswerInv(s: State) {
    && s.nextId >= 1
    && (forall id :: id in s.tasks && HandlerTask(s.tasks[id]) ==> 1 <= id < s.nextId && HandlerOk(s.log.admitted, id, s.tasks[id]))
    && (forall u :: u in s.log.admitted ==> s.log.admitted[u].reader < s.nextId)
    && (forall i :: 0 <= i < |s.log.returned| ==> ReturnOk(s, s.log.returned[i]))
    && OneReturn(s.log.returned)
  }

  lemma AnswerFrame(s: State, s': State)
    requires AnswerInv(s) && Apart(s, s')
    ensures AnswerInv(s')
  {
    hide OneReturn;
    forall id | id in s'.tasks && HandlerTask(s'.tasks[id])
      ensures 1 <= id < s'.nextId && HandlerOk(s'.log.admitted, id, s'.tasks[id])
    {
      if id in s.tasks && s'.tasks[id] == s.tasks[id] {
        assert HandlerOk(s.log.admitted, id, s.tasks[id]);
      } else {
        assert id >= s.nextId && s'.tasks[id].Reading?;
      }
    }
    forall i | 0 <= i < |s'.log.returned|
      ensures ReturnOk(s', s'.log.returned[i])
    {
      assert ReturnOk(s, s.log.returned[i]);
    }
  }

  lemma HelloAnswers(s: State, u: Uuid, secret: Bytes)
    requires AnswerInv(s)
    ensures AnswerInv(Hello(s, u, secret))
  {
    hide OneReturn, Lru.Apply, Lru.Lookup;
    var s' := Hello(s, u, secret);
    forall i | 0 <= i < |s'.log.returned|
      ensures ReturnOk(s', s'.log.returned[i])
    {
      assert ReturnOk(s, s.log.returned[i]);
    }
  }

  lemma ReadKeyAnswers(env: Env, s: State, id: nat, now: nat)
    requires AnswerInv(s) && At(s, id) && s.tasks[id].Reading?
    ensures AnswerInv(ReadKey(env, s, id, now))
  {
    hide OneReturn, Lru.Apply, Lru.Lookup, Validate;
    var s' := ReadKey(env, s, id, now);
    assert HandlerOk(s.log.admitted, id, s.tasks[id]);
    forall i | 0 <= i < |s'.log.returned|
      ensures ReturnOk(s', s'.log.returned[i])
    {
      assert ReturnOk(s, s.log.returned[i]);
    }
  }

  /** Admitting a request for one handler changes nothing for another. */
  lemma AdmittedOthers(admitted: map<Uuid, Admission>, admitted': map<Uuid, Admission>, u: Uuid, adm: Admission, j: nat, t: Task)
    requires u !in admitted && admitted' == admitted[u := adm] && j != adm.reader
    ensures forall v :: AdmittedBy(admitted', v, j) <==> AdmittedBy(admitted, v, j)
    ensures HandlerOk(admitted, j, t) ==> HandlerOk(admitted', j, t)
  {
    if HandlerOk(admitted, j, t) && (t.Reading? || t.Inserting?) {
      forall v
        ensures !AdmittedBy(admitted', v, j)
      {
        assert !AdmittedBy(admitted, v, j);
      }
    }
  }

  /** What the INSERT makes of its own handler. */
  lemma InsertRowOwn(s: State, id: nat, dbOk: bool)
    requires At(s, id) && s.tasks[id].Inserting? && HandlerOk(s.log.admitted, id, s.tasks[id])
    requires s.log.admitted.Keys <= s.table.rows.Keys
    ensures var t, s' := s.tasks[id], InsertRow(s, id, dbOk);
            && At(s', id) && HandlerOk(s'.log.admitted, id, s'.tasks[id])
            && s'.tasks == s.tasks[id := s'.tasks[id]] && s'.nextId == s.nextId && s'.log.returned == s.log.returned
            && (s'.log.admitted == s.log.admitted ||
                 (t.uuid !in s.log.admitted &&
                  s'.log.admitted == s.log.admitted[t.uuid := Admission(t.call, t.submit, t.key, id, t.now)]))
  {
    hide Insert, NewRow;
    var t := s.tasks[id];
    assert forall v :: !AdmittedBy(s.log.admitted, v, id);
  }

  lemma InsertRowAnswers(s: State, id: nat, dbOk: bool)
    requires AnswerInv(s) && At(s, id) && s.tasks[id].Inserting?
    requires s.log.admitted.Keys <= s.table.rows.Keys
    ensures AnswerInv(InsertRow(s, id, dbOk))
  {
    hide OneReturn, InsertRow, HandlerOk;
    var t, s' := s.tasks[id], InsertRow(s, id, dbOk);
    var adm := Admission(t.call, t.submit, t.key, id, t.now);
    InsertRowOwn(s, id, dbOk);
    forall j | j in s'.tasks && HandlerTask(s'.tasks[j])
      ensures 1 <= j < s'.nextId && HandlerOk(s'.log.admitted, j, s'.tasks[j])
    {
      if j != id && s'.log.admitted != s.log.admitted {
        AdmittedOthers(s.log.admitted, s'.log.admitted, t.uuid, adm, j, s.tasks[j]);
      }
    }
    forall i | 0 <= i < |s'.log.returned|
      ensures ReturnOk(s', s'.log.returned[i])
    {
      var r := s.log.returned[i];
      assert ReturnOk(s, r) && r.handler != id;
      if s'.log.admitted != s.log.admitted {
        AdmittedOthers(s.log.admitted, s'.log.admitted, t.uuid, adm, r.handler, t);
      }
    }
  }

  lemma SendFileAnswers(s: State, id: nat)
    requires AnswerInv(s) && At(s, id) && s.tasks[id].Sending?
    ensures AnswerInv(SendFile(s, id))
  {
    hide OneReturn;
    var s' := SendFile(s, id);
    assert HandlerOk(s.log.admitted, id, s.tasks[id]);
    forall i | 0 <= i < |s'.log.returned|
      ensures ReturnOk(s', s'.log.returned[i])
    {
      assert ReturnOk(s, s.log.returned[i]);
    }
  }

  lemma RemoveAgreementAnswers(s: State, id: nat)
    requires AnswerInv(s) && At(s, id) && s.tasks[id].Removing?
    ensures AnswerInv(RemoveAgreement(s, id))
  {
    hide Lru.Apply;
    var s' := RemoveAgreement(s, id);
    assert HandlerOk(s.log.admitted, id, s.tasks[id]);
    forall i | 0 <= i < |s.log.returned|
      ensures ReturnOk(s', s.log.returned[i]) && s.log.returned[i].handler != id
    {
      assert ReturnOk(s, s.log.returned[i]);
    }
  }
}
