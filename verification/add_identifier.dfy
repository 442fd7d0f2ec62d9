/** Use case: attach an identifier to a person of interest. */
module AddIdentifierToPerson {
  import opened Common
  import opened Identifiers
  import opened Persons
  import opened Repositories
  import Evidences

  /** The input's type and value map onto the entity's `tipo` and `valor`; the
      person id selects the person and the source is not stored by the entity. */
  datatype Input = Input(personId: Uuid, identifierType: IdentifierType, value: string, source: string)

  /** Look the person up, build the identifier (which may be refused), attach it
      to the person (a duplicate is silently ignored), then save the identifier
      and after it the person. The registration instant is an input. */
  function Execute(st: Store, input: Input, now: Timestamp): (r: Outcome<Identifier>)
    ensures input.personId !in st.persons ==> r == Failed(st, PersonNotFound)
    ensures input.personId in st.persons ==>
      && (r.Done? <==> NewIdentifier(input.identifierType, input.value, now).Ok?)
      && (r.Failed? ==> r.error == NewIdentifier(input.identifierType, input.value, now).error)
    ensures r.Failed? ==> r.store == st
    ensures r.Done? ==>
      && input.personId in st.persons
      && var before := st.persons[input.personId];
         var after := AdicionarIdentificador(before, r.value);
         && r.value == NewIdentifier(input.identifierType, input.value, now).value
         && PossuiIdentificador(after, r.value)
         && r.store == SavePerson(SaveIdentifier(st, r.value), after)
         && r.store.log == st.log + [IdentifierSaved(r.value), PersonSaved(after)]
  {
    if input.personId !in st.persons then Failed(st, PersonNotFound)
    else
      var person := st.persons[input.personId];
      match NewIdentifier(input.identifierType, input.value, now)
      case Err(e) => Failed(st, e)
      case Ok(identifier) =>
        var person' := AdicionarIdentificador(person, identifier);
        Done(SavePerson(SaveIdentifier(st, identifier), person'), identifier)
  }

  /** Adding an identifier keeps the store invariant: the person's list stays
      free of duplicates and every stored identifier is well-formed. */
  lemma ExecuteKeepsValid(st: Store, input: Input, now: Timestamp, h: Evidences.Hasher)
    requires Valid(st, h)
    ensures Valid(Execute(st, input, now).store, h)
  {
    var r := Execute(st, input, now);
    if r.Done? {
      var person := st.persons[input.personId];
      assert PersonOk(st, input.personId);
      var after := AdicionarIdentificador(person, r.value);
      var s1 := SaveIdentifier(st, r.value);
      SaveIdentifierKeepsValid(st, r.value, h);
      assert after.identificadores == person.identificadores
          || after.identificadores == person.identificadores + [r.value];
      SavePersonKeepsValid(s1, after, h);
    }
  }

  /** A duplicate is stored again in the identifier repository, while the person
      is saved unchanged. */
  lemma DuplicateLeavesPersonUnchanged(st: Store, input: Input, now: Timestamp)
    requires input.personId in st.persons && st.persons[input.personId].id == input.personId
    requires NewIdentifier(input.identifierType, input.value, now).Ok?
    requires PossuiIdentificador(st.persons[input.personId],
                                 NewIdentifier(input.identifierType, input.value, now).value)
    ensures Execute(st, input, now).store.persons == st.persons
    ensures Execute(st, input, now).store.identifiers ==
              st.identifiers + [NewIdentifier(input.identifierType, input.value, now).value]
  {
    var person := st.persons[input.personId];
    var i := NewIdentifier(input.identifierType, input.value, now).value;
    assert AdicionarIdentificador(person, i) == person;
    assert st.persons[person.id := person] == st.persons;
  }
}
