/** The repository ports, as one immutable record: investigations and persons are
    maps from id (read by id, saved by upsert); identifiers and evidence, whose
    ports only save and list, are append-only sequences. Every save is also
    appended to a log, so that the order of writes can be stated. */
module Repositories {
  import opened Common
  import opened Text
  import LegalBasis
  import Identifiers
  import opened Investigations
  import opened Persons
  import opened Evidences

  datatype SaveEvent =
    | InvestigationSaved(investigation: Investigation)
    | PersonSaved(person: Person)
    | IdentifierSaved(identifier: Identifiers.Identifier)
    | EvidenceSaved(evidence: Evidence)

  datatype Store = Store(
    investigations: map<Uuid, Investigation>,
    persons: map<Uuid, Person>,
    identifiers: seq<Identifiers.Identifier>,
    evidences: seq<Evidence>,
    log: seq<SaveEvent>)

  /** What a use case leaves behind: the repositories after it ran, and either its
      result or the failure it raised. A failure carries a store because a
      failure part-way through a loop does not undo earlier saves. */
  datatype Outcome<+T> = Done(store: Store, value: T) | Failed(store: Store, error: Error)

  const Empty: Store := Store(map[], map[], [], [], [])

  function SaveInvestigation(st: Store, inv: Investigation): Store {
    st.(investigations := st.investigations[inv.id := inv],
        log := st.log + [InvestigationSaved(inv)])
  }

  function SavePerson(st: Store, p: Person): Store {
    st.(persons := st.persons[p.id := p], log := st.log + [PersonSaved(p)])
  }

  function SaveIdentifier(st: Store, i: Identifiers.Identifier): Store {
    st.(identifiers := st.identifiers + [i], log := st.log + [IdentifierSaved(i)])
  }

  function SaveEvidence(st: Store, e: Evidence): Store {
    st.(evidences := st.evidences + [e], log := st.log + [EvidenceSaved(e)])
  }

  /** The log events of saving `es` one after another. */
  function EvidenceEvents(es: seq<Evidence>): seq<SaveEvent> {
    seq(|es|, j requires 0 <= j < |es| => EvidenceSaved(es[j]))
  }

  /** `list_by_investigation` of the evidence port: the evidence of one
      investigation, in the order it was saved. */
  function EvidencesOf(evs: seq<Evidence>, investigationId: Uuid): (r: seq<Evidence>)
    ensures |r| <= |evs|
    ensures forall e :: e in r <==> e in evs && e.investigationId == investigationId
  {
    if evs == [] then []
    else (if evs[0].investigationId == investigationId then [evs[0]] else [])
         + EvidencesOf(evs[1..], investigationId)
  }

  /** Listing keeps the saved order: the listing of a concatenation is the
      concatenation of the listings, so a record saved later is listed later. */
  lemma {:induction false} EvidencesOfAppend(a: seq<Evidence>, b: seq<Evidence>, investigationId: Uuid)
    ensures EvidencesOf(a + b, investigationId)
         == EvidencesOf(a, investigationId) + EvidencesOf(b, investigationId)
  {
    if a == [] {
      assert a + b == b;
    } else {
      assert (a + b)[0] == a[0];
      assert (a + b)[1..] == a[1..] + b;
      EvidencesOfAppend(a[1..], b, investigationId);
    }
  }

  /** `list_by_investigation` of the person port. */
  function PersonsOf(st: Store, investigationId: Uuid): set<Person> {
    set p | p in st.persons.Values && p.investigationId == investigationId
  }

  // ---------------------------------------------------------------------------
  // The store invariant
  // ---------------------------------------------------------------------------

  predicate InvestigationOk(st: Store, k: Uuid)
    requires k in st.investigations
  {
    var inv := st.investigations[k];
    && inv.id == k
    && Investigations.WellFormed(inv)
    && LegalBasis.WellFormed(inv.baseLegal)
    && (inv.status == Encerrada ==> PlanejamentoDefinido(inv))
  }

  predicate PersonOk(st: Store, k: Uuid)
    requires k in st.persons
  {
    var p := st.persons[k];
    && p.id == k
    && p.nome != [] && IsTrimmed(p.nome)
    && p.investigationId in st.investigations
    && NoDuplicates(p.identificadores)
    && (forall i :: i in p.identificadores ==> Identifiers.WellFormed(i))
  }

  predicate EvidenceOk(st: Store, e: Evidence, h: Hasher) {
    && Evidences.WellFormed(e)
    && Verifies(e, h)
    && e.investigationId in st.investigations
    && (e.personId.Some? ==> e.personId.value in st.persons)
  }

  /** The invariant every use case keeps: each repository entry is stored under
      its own id and satisfies its entity's rules; a closed investigation was
      planned; persons and evidence point at entities that exist; every piece of
      evidence still verifies against its fingerprint. */
  predicate Valid(st: Store, h: Hasher) {
    && (forall k :: k in st.investigations ==> InvestigationOk(st, k))
    && (forall k :: k in st.persons ==> PersonOk(st, k))
    && (forall i :: i in st.identifiers ==> Identifiers.WellFormed(i))
    && (forall e :: e in st.evidences ==> EvidenceOk(st, e, h))
  }

  /** Investigations are stored under their own ids. */
  predicate Keyed(st: Store) {
    forall k :: k in st.investigations ==> st.investigations[k].id == k
  }

  lemma EmptyIsValid(h: Hasher)
    ensures Valid(Empty, h)
  {
  }

  // ---------------------------------------------------------------------------
  // Saves that keep the invariant
  // ---------------------------------------------------------------------------

  /** Saving an investigation that satisfies the rules keeps the invariant. */
  lemma SaveInvestigationKeepsValid(st: Store, inv: Investigation, h: Hasher)
    requires Valid(st, h)
    requires Investigations.WellFormed(inv) && LegalBasis.WellFormed(inv.baseLegal)
    requires inv.status == Encerrada ==> PlanejamentoDefinido(inv)
    ensures Valid(SaveInvestigation(st, inv), h)
  {
    var s := SaveInvestigation(st, inv);
    forall k | k in s.investigations
      ensures InvestigationOk(s, k)
    {
      if k != inv.id {
        assert InvestigationOk(st, k);
      }
    }
    forall k | k in s.persons
      ensures PersonOk(s, k)
    {
      assert PersonOk(st, k);
    }
    forall e | e in s.evidences
      ensures EvidenceOk(s, e, h)
    {
      assert EvidenceOk(st, e, h);
    }
  }

  /** Saving a person that satisfies the rules and belongs to a stored
      investigation keeps the invariant. */
  lemma SavePersonKeepsValid(st: Store, p: Person, h: Hasher)
    requires Valid(st, h)
    requires p.nome != [] && IsTrimmed(p.nome) && p.investigationId in st.investigations
    requires NoDuplicates(p.identificadores)
    requires forall i :: i in p.identificadores ==> Identifiers.WellFormed(i)
    ensures Valid(SavePerson(st, p), h)
  {
    var s := SavePerson(st, p);
    forall k | k in s.investigations
      ensures InvestigationOk(s, k)
    {
      assert InvestigationOk(st, k);
    }
    forall k | k in s.persons
      ensures PersonOk(s, k)
    {
      if k != p.id {
        assert PersonOk(st, k);
      }
    }
    forall e | e in s.evidences
      ensures EvidenceOk(s, e, h)
    {
      assert EvidenceOk(st, e, h);
    }
  }

  /** Saving a well-formed identifier keeps the invariant. */
  lemma SaveIdentifierKeepsValid(st: Store, i: Identifiers.Identifier, h: Hasher)
    requires Valid(st, h)
    requires Identifiers.WellFormed(i)
    ensures Valid(SaveIdentifier(st, i), h)
  {
    var s := SaveIdentifier(st, i);
    forall k | k in s.investigations
      ensures InvestigationOk(s, k)
    {
      assert InvestigationOk(st, k);
    }
    forall k | k in s.persons
      ensures PersonOk(s, k)
    {
      assert PersonOk(st, k);
    }
    forall e | e in s.evidences
      ensures EvidenceOk(s, e, h)
    {
      assert EvidenceOk(st, e, h);
    }
  }

  /** Saving evidence that satisfies the rules, verifies, and points at stored
      entities keeps the invariant. */
  lemma SaveEvidenceKeepsValid(st: Store, e: Evidence, h: Hasher)
    requires Valid(st, h)
    requires EvidenceOk(st, e, h)
    ensures Valid(SaveEvidence(st, e), h)
  {
    var s := SaveEvidence(st, e);
    forall k | k in s.investigations
      ensures InvestigationOk(s, k)
    {
      assert InvestigationOk(st, k);
    }
    forall k | k in s.persons
      ensures PersonOk(s, k)
    {
      assert PersonOk(st, k);
    }
    forall x | x in s.evidences
      ensures EvidenceOk(s, x, h)
    {
      if x != e {
        assert EvidenceOk(st, x, h);
      }
    }
  }
}
