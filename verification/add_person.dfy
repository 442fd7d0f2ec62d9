/** Use case: add a person of interest to an open investigation. */
module AddPersonToInvestigation {
  import opened Common
  import opened Text
  import opened Investigations
  import opened Persons
  import opened Repositories
  import Evidences

  /** The display name maps onto the entity's `nome`. It is absent by default;
      the constructor strips the name before validating it, and stripping an
      absent name fails (`PersonNameMissing`) before any validation. */
  datatype Input = Input(investigationId: Uuid, displayName: Option<string>)

  /** Look the investigation up, refuse it when missing or closed, then build the
      person under the investigation's id and save it. The person's id and
      creation instant are inputs. */
  function Execute(st: Store, input: Input, personId: Uuid, now: Timestamp): (r: Outcome<Person>)
    ensures input.investigationId !in st.investigations ==> r == Failed(st, InvestigationNotFound)
    ensures input.investigationId in st.investigations ==>
      var inv := st.investigations[input.investigationId];
      && (!EstaAtiva(inv) ==> r == Failed(st, InvestigationClosed))
      && (EstaAtiva(inv) && input.displayName.None? ==> r == Failed(st, PersonNameMissing))
      && (EstaAtiva(inv) && input.displayName.Some? && AllSpace(input.displayName.value) ==>
            r == Failed(st, PersonNameBlank))
      && (r.Done? <==> EstaAtiva(inv) && input.displayName.Some? && !AllSpace(input.displayName.value))
      && (r.Done? ==> && r.value.investigationId == inv.id
                      && r.value.id == personId
                      && r.value.nome == Trim(input.displayName.value)
                      && r.value.identificadores == [])
    ensures r.Failed? ==> r.store == st
    ensures r.Done? ==> r.store == SavePerson(st, r.value)
                        && r.store.log == st.log + [PersonSaved(r.value)]
  {
    if input.investigationId !in st.investigations then Failed(st, InvestigationNotFound)
    else
      var inv := st.investigations[input.investigationId];
      if !EstaAtiva(inv) then Failed(st, InvestigationClosed)
      else if input.displayName.None? then Failed(st, PersonNameMissing)
      else
        match NewPerson(Some(inv.id), input.displayName.value, personId, [], now)
        case Err(e) => Failed(st, e)
        case Ok(p) => Done(SavePerson(st, p), p)
  }

  /** Adding a person keeps the store invariant. */
  lemma ExecuteKeepsValid(st: Store, input: Input, personId: Uuid, now: Timestamp,
                          h: Evidences.Hasher)
    requires Valid(st, h)
    ensures Valid(Execute(st, input, personId, now).store, h)
  {
    var r := Execute(st, input, personId, now);
    if r.Done? {
      assert InvestigationOk(st, input.investigationId);
      SavePersonKeepsValid(st, r.value, h);
    }
  }
}
