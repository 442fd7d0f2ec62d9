/** Use case: assemble the raw data of the final report of a closed, planned
    investigation. Nothing is saved. */
module GenerateReport {
  import opened Common
  import opened Investigations
  import opened Persons
  import opened Evidences
  import opened Repositories

  /** One evidence entry of the report: the record's fields, copied as stored
      (the fingerprint is copied, never recomputed). */
  datatype EvidenceEntry = EvidenceEntry(
    id: Uuid,
    tipo: EvidenceType,
    fonte: string,
    dado: Payload,
    coletadoPor: string,
    dataColeta: Timestamp,
    hashIntegridade: Digest)

  function EntryOf(e: Evidence): EvidenceEntry {
    EvidenceEntry(e.id, e.tipo, e.fonte, e.dado, e.coletadoPor, e.dataColeta, e.hashIntegridade)
  }

  /** The assembled data: the investigation, its persons, its evidence in saved
      order, and the entries of the evidence that names a person, grouped by
      that person's id. */
  datatype Report = Report(
    investigation: Investigation,
    persons: set<Person>,
    evidences: seq<Evidence>,
    porPessoa: map<Uuid, seq<EvidenceEntry>>)

  /** The entries grouped under `pid`, or none. */
  function Lookup(m: map<Uuid, seq<EvidenceEntry>>, pid: Uuid): seq<EvidenceEntry> {
    if pid in m then m[pid] else []
  }

  /** The grouping loop: each record that names a person appends its entry to
      that person's list, creating the list on first use. */
  function Group(evs: seq<Evidence>, acc: map<Uuid, seq<EvidenceEntry>>): map<Uuid, seq<EvidenceEntry>>
    decreases |evs|
  {
    if evs == [] then acc
    else
      var e := evs[0];
      var acc' := if e.personId.Some? then acc[e.personId.value := Lookup(acc, e.personId.value) + [EntryOf(e)]]
                  else acc;
      Group(evs[1..], acc')
  }

  /** Reference definition: the entries of the records that name `pid`, in order
      (`ForPersonMembers` states which entries these are). */
  function ForPerson(evs: seq<Evidence>, pid: Uuid): (r: seq<EvidenceEntry>)
    ensures |r| <= |evs|
  {
    if evs == [] then []
    else (if evs[0].personId == Some(pid) then [EntryOf(evs[0])] else []) + ForPerson(evs[1..], pid)
  }

  /** The reference holds the entry of every record that names `pid`, and
      nothing else. */
  lemma {:induction false} ForPersonMembers(evs: seq<Evidence>, pid: Uuid)
    ensures forall x :: x in ForPerson(evs, pid) ==>
              exists e :: e in evs && e.personId == Some(pid) && x == EntryOf(e)
    ensures forall e :: e in evs && e.personId == Some(pid) ==> EntryOf(e) in ForPerson(evs, pid)
    decreases |evs|
  {
    if evs != [] {
      var head := if evs[0].personId == Some(pid) then [EntryOf(evs[0])] else [];
      var rest := ForPerson(evs[1..], pid);
      assert ForPerson(evs, pid) == head + rest;
      ForPersonMembers(evs[1..], pid);
      forall x | x in ForPerson(evs, pid)
        ensures exists e :: e in evs && e.personId == Some(pid) && x == EntryOf(e)
      {
        if x in head {
          assert evs[0] in evs;
        } else {
          assert x in rest;
          var e :| e in evs[1..] && e.personId == Some(pid) && x == EntryOf(e);
          assert e in evs;
        }
      }
      forall e | e in evs && e.personId == Some(pid)
        ensures EntryOf(e) in ForPerson(evs, pid)
      {
        if e != evs[0] {
          assert e in evs[1..];
        }
      }
    }
  }

  /** The grouping loop agrees with the reference: after it, the list under each
      person is the earlier list followed by that person's entries in order, and
      a person has a list exactly when it had one or some record names it. */
  lemma {:induction false} GroupIsForPerson(evs: seq<Evidence>, acc: map<Uuid, seq<EvidenceEntry>>,
                                            pid: Uuid)
    ensures Lookup(Group(evs, acc), pid) == Lookup(acc, pid) + ForPerson(evs, pid)
    ensures pid in Group(evs, acc) <==> pid in acc || ForPerson(evs, pid) != []
    decreases |evs|
  {
    if evs == [] {
      assert Lookup(acc, pid) + [] == Lookup(acc, pid);
    } else {
      var e := evs[0];
      var acc' := if e.personId.Some? then acc[e.personId.value := Lookup(acc, e.personId.value) + [EntryOf(e)]]
                  else acc;
      var head := if e.personId == Some(pid) then [EntryOf(e)] else [];
      var rest := ForPerson(evs[1..], pid);
      assert Group(evs, acc) == Group(evs[1..], acc');
      assert ForPerson(evs, pid) == head + rest;
      assert Lookup(acc', pid) == Lookup(acc, pid) + head;
      assert pid in acc' <==> pid in acc || head != [];
      GroupIsForPerson(evs[1..], acc', pid);
      assert (Lookup(acc, pid) + head) + rest == Lookup(acc, pid) + (head + rest);
    }
  }

  /** The guards, in order, then the assembly. The store is never changed. */
  function Execute(st: Store, investigationId: Uuid): (r: Outcome<Report>)
    ensures r.store == st
    ensures investigationId !in st.investigations ==> r == Failed(st, InvestigationNotFound)
    ensures investigationId in st.investigations ==>
      var inv := st.investigations[investigationId];
      && (EstaAtiva(inv) ==> r == Failed(st, StillOpen))
      && (!EstaAtiva(inv) && !PlanejamentoDefinido(inv) ==> r == Failed(st, NotPlanned))
      && (r.Done? <==> !EstaAtiva(inv) && PlanejamentoDefinido(inv))
      && (r.Done? ==>
            && r.value.investigation == inv
            && r.value.persons == PersonsOf(st, inv.id)
            && r.value.evidences == EvidencesOf(st.evidences, inv.id)
            && forall pid :: Lookup(r.value.porPessoa, pid) == ForPerson(r.value.evidences, pid)
                             && (pid in r.value.porPessoa <==> ForPerson(r.value.evidences, pid) != []))
  {
    if investigationId !in st.investigations then Failed(st, InvestigationNotFound)
    else
      var inv := st.investigations[investigationId];
      if EstaAtiva(inv) then Failed(st, StillOpen)
      else if !PlanejamentoDefinido(inv) then Failed(st, NotPlanned)
      else
        var evidences := EvidencesOf(st.evidences, inv.id);
        var grouped := Group(evidences, map[]);
        assert forall pid :: Lookup(grouped, pid) == ForPerson(evidences, pid)
                             && (pid in grouped <==> ForPerson(evidences, pid) != []) by {
          forall pid
            ensures Lookup(grouped, pid) == ForPerson(evidences, pid)
                    && (pid in grouped <==> ForPerson(evidences, pid) != [])
          {
            GroupIsForPerson(evidences, map[], pid);
          }
        }
        Done(st, Report(inv, PersonsOf(st, inv.id), evidences, grouped))
  }

  /** Every entry of the report is the verbatim copy of a stored record of the
      investigation that names that person; with a valid store, the copied
      fingerprint still verifies against the copied fields. */
  lemma EntriesAreStoredRecords(st: Store, investigationId: Uuid, pid: Uuid, x: EvidenceEntry, h: Hasher)
    requires Valid(st, h)
    requires Execute(st, investigationId).Done?
    requires pid in Execute(st, investigationId).value.porPessoa
    requires x in Execute(st, investigationId).value.porPessoa[pid]
    ensures exists e :: && e in st.evidences
                        && e.investigationId == st.investigations[investigationId].id
                        && e.personId == Some(pid)
                        && x == EntryOf(e)
                        && Verifies(e, h)
  {
    var rep := Execute(st, investigationId).value;
    assert Lookup(rep.porPessoa, pid) == ForPerson(rep.evidences, pid);
    ForPersonMembers(rep.evidences, pid);
    var e :| e in rep.evidences && e.personId == Some(pid) && x == EntryOf(e);
    assert EvidenceOk(st, e, h);
  }
}
