/** A person of interest inside one investigation: an aggregate that owns an
    ordered list of identifiers, kept free of duplicates by silently ignoring an
    identifier equal to one already held. */
module Persons {
  import opened Common
  import opened Text
  import opened Identifiers

  datatype Person = Person(
    id: Uuid,
    investigationId: Uuid,
    nome: string,
    identificadores: seq<Identifier>,
    dataCriacao: Timestamp)

  /** No two identifiers of the list are equal by (type, value). */
  predicate NoDuplicates(ids: seq<Identifier>) {
    forall j, k :: 0 <= j < k < |ids| ==> !SameIdentifier(ids[j], ids[k])
  }

  /** Membership under identifier equality, as Python's `in` on the list. */
  function Contains(ids: seq<Identifier>, i: Identifier): (r: bool)
    ensures r <==> exists j :: 0 <= j < |ids| && SameIdentifier(ids[j], i)
  {
    if ids == [] then false
    else if SameIdentifier(ids[0], i) then true
    else
      var r := Contains(ids[1..], i);
      assert forall j :: 1 <= j < |ids| ==> ids[j] == ids[1..][j - 1];
      r
  }

  /** `possui_identificador`. */
  function PossuiIdentificador(p: Person, i: Identifier): bool {
    Contains(p.identificadores, i)
  }

  /** The constructor: the name is stored stripped; a missing investigation is
      rejected first, then a blank name. The initial list is kept as given. */
  function NewPerson(investigationId: Option<Uuid>, nome: string, id: Uuid,
                     identificadores: seq<Identifier>, now: Timestamp): (r: Result<Person>)
    ensures investigationId == None ==> r == Err(PersonWithoutInvestigation)
    ensures investigationId.Some? && AllSpace(nome) ==> r == Err(PersonNameBlank)
    ensures r.Ok? <==> investigationId.Some? && !AllSpace(nome)
    ensures r.Ok? ==> && r.value.id == id
                      && r.value.investigationId == investigationId.value
                      && r.value.nome == Trim(nome) && r.value.nome != []
                      && r.value.identificadores == identificadores
                      && r.value.dataCriacao == now
  {
    TrimEmptyIffBlank(nome);
    if investigationId.None? then Err(PersonWithoutInvestigation)
    else if Trim(nome) == [] then Err(PersonNameBlank)
    else Ok(Person(id, investigationId.value, Trim(nome), identificadores, now))
  }

  /** `adicionar_identificador`: afterwards the person holds the identifier, the
      earlier list is an unchanged prefix, at most one entry was added, and a
      duplicate-free list stays duplicate-free. Nothing else changes. */
  function AdicionarIdentificador(p: Person, i: Identifier): (r: Person)
    ensures PossuiIdentificador(r, i)
    ensures |p.identificadores| <= |r.identificadores| <= |p.identificadores| + 1
    ensures r.identificadores[..|p.identificadores|] == p.identificadores
    ensures NoDuplicates(p.identificadores) ==> NoDuplicates(r.identificadores)
    ensures r.(identificadores := p.identificadores) == p
  {
    if PossuiIdentificador(p, i) then p
    else
      var ids := p.identificadores + [i];
      assert ids[|p.identificadores|] == i;
      p.(identificadores := ids)
  }

  // ---------------------------------------------------------------------------
  // Properties
  // ---------------------------------------------------------------------------

  /** Adding an identifier equal to one already held changes nothing. */
  lemma AddingDuplicateIsNoop(p: Person, i: Identifier, j: Identifier)
    requires j in p.identificadores && SameIdentifier(i, j)
    ensures AdicionarIdentificador(p, i) == p
  {
    var k :| 0 <= k < |p.identificadores| && p.identificadores[k] == j;
    assert SameIdentifier(p.identificadores[k], i);
  }

  /** Adding a new identifier appends it at the end. */
  lemma AddingNewAppends(p: Person, i: Identifier)
    requires !PossuiIdentificador(p, i)
    ensures AdicionarIdentificador(p, i).identificadores == p.identificadores + [i]
  {
  }

  /** Adding the same identifier twice gives the same person as adding it once. */
  lemma AddingIsIdempotent(p: Person, i: Identifier)
    ensures AdicionarIdentificador(AdicionarIdentificador(p, i), i) == AdicionarIdentificador(p, i)
  {
  }

  /** Membership is decided by (type, value) alone: an identifier that differs
      from a held one only in its registration instant is held too. */
  lemma MembershipIgnoresRegistration(p: Person, i: Identifier, t: Timestamp)
    ensures PossuiIdentificador(p, i) <==> PossuiIdentificador(p, i.(dataRegistro := t))
  {
    if PossuiIdentificador(p, i) {
      var k :| 0 <= k < |p.identificadores| && SameIdentifier(p.identificadores[k], i);
      assert SameIdentifier(p.identificadores[k], i.(dataRegistro := t));
    }
    if PossuiIdentificador(p, i.(dataRegistro := t)) {
      var k :| 0 <= k < |p.identificadores| && SameIdentifier(p.identificadores[k], i.(dataRegistro := t));
      assert SameIdentifier(p.identificadores[k], i);
    }
  }
}
