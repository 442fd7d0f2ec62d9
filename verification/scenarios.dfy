/** Concrete runs of the use cases, end to end, from empty repositories. */
module Scenarios {
  import opened Common
  import opened Text
  import opened LegalBasis
  import opened Identifiers
  import opened Investigations
  import opened Evidences
  import opened Repositories
  import CreateInvestigation
  import PlanInvestigation
  import CloseInvestigation
  import AddPersonToInvestigation
  import AddIdentifierToPerson
  import AddManualEvidence
  import CollectPersonOsint

  const CaseId: Uuid := 1
  const PersonId: Uuid := 2

  const Opening := CreateInvestigation.Input("Caso", "Apurar", ObrigacaoLegal, "Lei", false)
  const Plan := PlanInvestigation.Input(CaseId, "Mapear", "Perfis", ["google"], None)

  /** The repositories after creating the case. */
  function Created(): Store {
    CreateInvestigation.Execute(Empty, Opening, CaseId, 0).store
  }

  /** ... and after planning it. */
  function PlannedStore(): Store {
    PlanInvestigation.Execute(Created(), Plan).store
  }

  lemma CreatedCase()
    ensures CreateInvestigation.Execute(Empty, Opening, CaseId, 0).Done?
    ensures CaseId in Created().investigations
    ensures EstaAtiva(Created().investigations[CaseId])
    ensures !PlanejamentoDefinido(Created().investigations[CaseId])
  {
    assert !AllSpace("Lei") by { assert !IsSpace("Lei"[0]); }
    assert !AllSpace("Caso") by { assert !IsSpace("Caso"[0]); }
    assert !AllSpace("Apurar") by { assert !IsSpace("Apurar"[0]); }
  }

  lemma PlannedCase()
    ensures PlanInvestigation.Execute(Created(), Plan).Done?
    ensures CaseId in PlannedStore().investigations
    ensures EstaAtiva(PlannedStore().investigations[CaseId])
    ensures PlanejamentoDefinido(PlannedStore().investigations[CaseId])
    ensures AllowedSources(PlannedStore().investigations[CaseId]) == ["google"]
    ensures PlannedStore().investigations[CaseId].id == CaseId
  {
    CreatedCase();
  }

  /** Closing an unplanned case fails; once planned, closing succeeds; after
      that, manual evidence for the case is refused and nothing is saved. */
  lemma CloseNeedsPlanScenario(derive: AddManualEvidence.Derive, h: Hasher)
    ensures CloseInvestigation.Execute(Created(), CaseId, 1) == Failed(Created(), NotPlanned)
    ensures CloseInvestigation.Execute(PlannedStore(), CaseId, 2).Done?
    ensures var closed := CloseInvestigation.Execute(PlannedStore(), CaseId, 2).store;
            AddManualEvidence.Execute(closed, AddManualEvidence.Input(CaseId, "Captura", "site", None),
                                      false, derive, 9, 3, h)
              == Failed(closed, InvestigationClosed)
  {
    CreatedCase();
    PlannedCase();
  }

  lemma LeakDbUnauthorized()
    ensures CollectPersonOsint.Unauthorized(["google", "leak_db"], ["google"]) == {"leak_db"}
  {
    assert "leak_db" != "google" by { assert "leak_db"[0] != "google"[0]; }
    assert "google" in ["google", "leak_db"] && "leak_db" in ["google", "leak_db"];
  }

  /** A collection that asks for a source outside the plan fails before any
      save and reports exactly the sources the plan does not allow. */
  lemma UnauthorisedSourceScenario(collector: string, osint: CollectPersonOsint.OsintPort,
                                   ids: nat -> Uuid, clock: nat -> Timestamp, h: Hasher)
    ensures var s := PlannedStore();
            CollectPersonOsint.Execute(s, CollectPersonOsint.Input(CaseId, PersonId, ["google", "leak_db"]),
                                       collector, osint, ids, clock, h)
              == Failed(s, UnauthorizedSources({"leak_db"}))
  {
    PlannedCase();
    LeakDbUnauthorized();
  }

  /** The case is stored under its own id, open and planned with "google". */
  predicate OpenAndPlanned(s: Store) {
    && CaseId in s.investigations
    && s.investigations[CaseId].id == CaseId
    && EstaAtiva(s.investigations[CaseId])
    && PlanejamentoDefinido(s.investigations[CaseId])
    && AllowedSources(s.investigations[CaseId]) == ["google"]
  }

  /** The person is stored under its own id and belongs to the case. */
  predicate HoldsPerson(s: Store) {
    PersonId in s.persons && s.persons[PersonId].id == PersonId && s.persons[PersonId].investigationId == CaseId
  }

  const Fulano := AddPersonToInvestigation.Input(CaseId, Some("Fulano"))
  const Address := AddIdentifierToPerson.Input(PersonId, Email, "x@y.com", "manual")
  const FromGoogle := CollectPersonOsint.Input(CaseId, PersonId, ["google"])

  lemma PersonAdded(s: Store)
    requires OpenAndPlanned(s)
    ensures AddPersonToInvestigation.Execute(s, Fulano, PersonId, 4).Done?
    ensures var s' := AddPersonToInvestigation.Execute(s, Fulano, PersonId, 4).store;
            OpenAndPlanned(s') && HoldsPerson(s')
  {
    assert !AllSpace("Fulano") by { assert !IsSpace("Fulano"[0]); }
  }

  /** An address that starts with a visible character and holds `@` is accepted. */
  lemma VisibleAddressAccepted(v: string, now: Timestamp)
    requires v != [] && !IsSpace(v[0]) && '@' in v
    ensures NewIdentifier(Email, v, now).Ok?
  {
    EmailAcceptance(v, now);
  }

  /** The e-mail address the scenario registers is accepted. */
  lemma AddressAccepted(now: Timestamp)
    ensures NewIdentifier(Email, "x@y.com", now).Ok?
  {
    var v := "x@y.com";
    assert v[1] == '@';
    VisibleAddressAccepted(v, now);
  }

  /** Registering an accepted identifier for the person succeeds and leaves the
      case and the person in place. */
  lemma IdentifierAdded(s: Store, address: AddIdentifierToPerson.Input, now: Timestamp)
    requires OpenAndPlanned(s) && HoldsPerson(s)
    requires address.personId == PersonId
    requires NewIdentifier(address.identifierType, address.value, now).Ok?
    ensures AddIdentifierToPerson.Execute(s, address, now).Done?
    ensures var s' := AddIdentifierToPerson.Execute(s, address, now).store;
            OpenAndPlanned(s') && HoldsPerson(s')
  {
  }

  /** With the case open and planned with "google" and the person in it, a
      collection from "google" passes every guard whatever the port answers,
      and every saved record is automated collection for that person. */
  lemma CollectFromGoogle(s: Store, collector: string, osint: CollectPersonOsint.OsintPort,
                          ids: nat -> Uuid, clock: nat -> Timestamp, h: Hasher)
    requires OpenAndPlanned(s) && HoldsPerson(s)
    ensures var r := CollectPersonOsint.Execute(s, FromGoogle, collector, osint, ids, clock, h);
            && CollectPersonOsint.Passes(s, FromGoogle)
            && CollectPersonOsint.Grows(s, r.store)
            && forall e :: e in CollectPersonOsint.Added(s, r.store) ==>
                 e.tipo == OsintAutomated && e.investigationId == CaseId && e.personId == Some(PersonId)
  {
    assert CollectPersonOsint.Unauthorized(["google"], ["google"]) == {};
  }

  /** End to end: create, plan with "google", add a person, give the person an
      e-mail address, collect from "google". Every step succeeds up to the
      collection, which saves only automated records for that person. */
  lemma CollectScenario(collector: string, osint: CollectPersonOsint.OsintPort,
                        ids: nat -> Uuid, clock: nat -> Timestamp, h: Hasher)
    ensures var s1 := AddPersonToInvestigation.Execute(PlannedStore(), Fulano, PersonId, 4).store;
            var s2 := AddIdentifierToPerson.Execute(s1, Address, 5).store;
            var r := CollectPersonOsint.Execute(s2, FromGoogle, collector, osint, ids, clock, h);
            && CollectPersonOsint.Passes(s2, FromGoogle)
            && forall e :: e in CollectPersonOsint.Added(s2, r.store) ==> e.tipo == OsintAutomated
  {
    PlannedCase();
    var s1 := AddPersonToInvestigation.Execute(PlannedStore(), Fulano, PersonId, 4).store;
    PersonAdded(PlannedStore());
    var s2 := AddIdentifierToPerson.Execute(s1, Address, 5).store;
    AddressAccepted(5);
    IdentifierAdded(s1, Address, 5);
    CollectFromGoogle(s2, collector, osint, ids, clock, h);
  }
}
