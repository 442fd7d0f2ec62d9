/** Use case: record a piece of evidence by hand during an open investigation. */
module AddManualEvidence {
  import opened Common
  import opened Investigations
  import opened Evidences
  import opened Repositories

  /** The input names a description and a source; the evidence entity needs a
      type, a payload and a collector, which the input does not name. How they
      arise from the description is a parameter of the model (`Derive`). */
  datatype Input = Input(investigationId: Uuid, description: string, source: string,
                         personId: Option<Uuid>)

  datatype ManualFields = ManualFields(tipo: EvidenceType, dado: Payload, coletadoPor: string)

  type Derive = string -> ManualFields

  /** The evidence the use case builds once every guard has passed. */
  function Build(input: Input, derive: Derive, evidenceId: Uuid, now: Timestamp, h: Hasher)
    : Result<Evidence>
  {
    var f := derive(input.description);
    NewEvidence(Some(input.investigationId), f.tipo, input.source, f.dado, f.coletadoPor,
                input.personId, evidenceId, now, h)
  }

  /** Look the investigation up and refuse it when missing or closed; when a
      person is named, the person repository must be configured and hold the
      person; then build the evidence and save it. Whether a person repository
      was configured is the boolean `personRepository`. */
  function Execute(st: Store, input: Input, personRepository: bool, derive: Derive,
                   evidenceId: Uuid, now: Timestamp, h: Hasher): (r: Outcome<Evidence>)
    ensures input.investigationId !in st.investigations ==> r == Failed(st, InvestigationNotFound)
    ensures input.investigationId in st.investigations ==>
      var inv := st.investigations[input.investigationId];
      && (!EstaAtiva(inv) ==> r == Failed(st, InvestigationClosed))
      && (EstaAtiva(inv) && input.personId.Some? && !personRepository ==>
            r == Failed(st, PersonRepositoryMissing))
      && ((EstaAtiva(inv) && input.personId.Some? && personRepository
           && input.personId.value !in st.persons) ==> r == Failed(st, PersonNotFound))
    ensures r.Failed? ==> r.store == st
    ensures r.Done? <==>
      && input.investigationId in st.investigations
      && EstaAtiva(st.investigations[input.investigationId])
      && (input.personId.Some? ==> personRepository && input.personId.value in st.persons)
      && Build(input, derive, evidenceId, now, h).Ok?
    ensures r.Done? ==>
      && r.store == SaveEvidence(st, r.value)
      && r.store.log == st.log + [EvidenceSaved(r.value)]
      && r.value.investigationId == input.investigationId
      && r.value.personId == input.personId
      && r.value.id == evidenceId
      && r.value.dataColeta == now
      && EvidenceOk(st, r.value, h)
  {
    if input.investigationId !in st.investigations then Failed(st, InvestigationNotFound)
    else
      var inv := st.investigations[input.investigationId];
      if !EstaAtiva(inv) then Failed(st, InvestigationClosed)
      else if input.personId.Some? && !personRepository then Failed(st, PersonRepositoryMissing)
      else if input.personId.Some? && input.personId.value !in st.persons then Failed(st, PersonNotFound)
      else
        match Build(input, derive, evidenceId, now, h)
        case Err(e) => Failed(st, e)
        case Ok(evidence) => Done(SaveEvidence(st, evidence), evidence)
  }

  /** Recording evidence keeps the store invariant, and the new record verifies
      against its fingerprint. */
  lemma ExecuteKeepsValid(st: Store, input: Input, personRepository: bool, derive: Derive,
                          evidenceId: Uuid, now: Timestamp, h: Hasher)
    requires Valid(st, h)
    ensures var r := Execute(st, input, personRepository, derive, evidenceId, now, h);
            Valid(r.store, h) && (r.Done? ==> Verifies(r.value, h))
  {
    var r := Execute(st, input, personRepository, derive, evidenceId, now, h);
    if r.Done? {
      SaveEvidenceKeepsValid(st, r.value, h);
    }
  }

  /** The named person is only looked up, not matched against the investigation:
      evidence may point at a person of another investigation. */
  lemma PersonOfAnotherInvestigationAccepted(st: Store, input: Input, derive: Derive,
                                             evidenceId: Uuid, now: Timestamp, h: Hasher)
    requires input.investigationId in st.investigations
    requires EstaAtiva(st.investigations[input.investigationId])
    requires input.personId.Some? && input.personId.value in st.persons
    requires st.persons[input.personId.value].investigationId != input.investigationId
    requires Build(input, derive, evidenceId, now, h).Ok?
    ensures Execute(st, input, true, derive, evidenceId, now, h).Done?
  {
  }
}
