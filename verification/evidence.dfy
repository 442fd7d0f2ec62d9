/** A piece of evidence: a validated, write-once fact record tied to an
    investigation (and optionally a person) that carries an integrity fingerprint
    computed once, at construction, over a canonical tuple of its committed fields. */
module Evidences {
  import opened Common
  import opened Text

  /** The evidence types the use cases name; every other member of the closed
      enumeration is represented by its name. */
  datatype EvidenceType = Manual | OsintAutomated | OtherEvidenceType(name: string)

  /** A JSON-serialisable value: what the structured payload may hold. */
  datatype JsonValue =
    | JNull
    | JBool(b: bool)
    | JNumber(n: int)
    | JString(s: string)
    | JArray(items: seq<JsonValue>)
    | JObject(fields: map<string, JsonValue>)

  /** The structured payload (`dado`): a map from keys to JSON values. */
  type Payload = map<string, JsonValue>

  /** Exactly the fields the fingerprint commits to, in the role of the payload
      dictionary that is serialised with sorted keys. */
  datatype Canonical = Canonical(
    investigationId: Uuid,
    personId: Option<Uuid>,
    tipo: EvidenceType,
    fonte: string,
    dado: Payload,
    coletadoPor: string,
    dataColeta: Timestamp)

  /** A hex digest. */
  type Digest = string

  /** Canonical serialisation followed by SHA-256, kept uninterpreted: any total
      function from the canonical tuple to a digest. */
  type Hasher = Canonical -> Digest

  datatype Evidence = Evidence(
    id: Uuid,
    investigationId: Uuid,
    personId: Option<Uuid>,
    tipo: EvidenceType,
    fonte: string,
    dado: Payload,
    coletadoPor: string,
    dataColeta: Timestamp,
    hashIntegridade: Digest)

  /** The canonical tuple of a stored record. */
  function CanonicalOf(e: Evidence): Canonical {
    Canonical(e.investigationId, e.personId, e.tipo, e.fonte, e.dado, e.coletadoPor, e.dataColeta)
  }

  /** Recompute the fingerprint from the stored fields and compare it with the
      stored one: the audit check a chain of custody relies on. */
  predicate Verifies(e: Evidence, h: Hasher) {
    h(CanonicalOf(e)) == e.hashIntegridade
  }

  /** What every constructed record satisfies, apart from its fingerprint. */
  predicate WellFormed(e: Evidence) {
    && e.fonte != [] && IsTrimmed(e.fonte)
    && |e.dado| > 0
    && e.coletadoPor != [] && IsTrimmed(e.coletadoPor)
  }

  /** The constructor: source and collector are stored stripped; a missing
      investigation is rejected first, then a blank source, an empty payload and a
      blank collector. Only a record that passed every check is fingerprinted. */
  function NewEvidence(investigationId: Option<Uuid>, tipo: EvidenceType, fonte: string,
                       dado: Payload, coletadoPor: string, personId: Option<Uuid>,
                       evidenceId: Uuid, dataColeta: Timestamp, h: Hasher): (r: Result<Evidence>)
    ensures investigationId == None ==> r == Err(EvidenceWithoutInvestigation)
    ensures investigationId.Some? && AllSpace(fonte) ==> r == Err(EvidenceSourceBlank)
    ensures investigationId.Some? && !AllSpace(fonte) && |dado| == 0 ==>
              r == Err(EvidencePayloadEmpty)
    ensures investigationId.Some? && !AllSpace(fonte) && |dado| > 0 && AllSpace(coletadoPor) ==>
              r == Err(EvidenceCollectorBlank)
    ensures r.Ok? <==> Admissible(investigationId, fonte, dado, coletadoPor)
    ensures r.Ok? ==> && r.value.id == evidenceId
                      && r.value.investigationId == investigationId.value
                      && r.value.personId == personId
                      && r.value.tipo == tipo
                      && r.value.fonte == Trim(fonte)
                      && r.value.dado == dado
                      && r.value.coletadoPor == Trim(coletadoPor)
                      && r.value.dataColeta == dataColeta
                      && WellFormed(r.value)
                      && Verifies(r.value, h)
  {
    TrimEmptyIffBlank(fonte);
    TrimEmptyIffBlank(coletadoPor);
    var f := Trim(fonte);
    var c := Trim(coletadoPor);
    if investigationId.None? then Err(EvidenceWithoutInvestigation)
    else if f == [] then Err(EvidenceSourceBlank)
    else if |dado| == 0 then Err(EvidencePayloadEmpty)
    else if c == [] then Err(EvidenceCollectorBlank)
    else
      var fingerprint := h(Canonical(investigationId.value, personId, tipo, f, dado, c, dataColeta));
      Ok(Evidence(evidenceId, investigationId.value, personId, tipo, f, dado, c, dataColeta, fingerprint))
  }

  /** The inputs the constructor accepts. */
  predicate Admissible(investigationId: Option<Uuid>, fonte: string, dado: Payload, coletadoPor: string) {
    investigationId.Some? && !AllSpace(fonte) && |dado| > 0 && !AllSpace(coletadoPor)
  }

  // ---------------------------------------------------------------------------
  // Properties
  // ---------------------------------------------------------------------------

  /** The canonical tuple holds exactly the seven committed fields: two records
      have the same tuple if and only if they agree on investigation, person,
      type, source, payload, collector and collection instant. */
  lemma CanonicalFieldsExactly(a: Evidence, b: Evidence)
    ensures CanonicalOf(a) == CanonicalOf(b) <==>
      && a.investigationId == b.investigationId
      && a.personId == b.personId
      && a.tipo == b.tipo
      && a.fonte == b.fonte
      && a.dado == b.dado
      && a.coletadoPor == b.coletadoPor
      && a.dataColeta == b.dataColeta
  {
  }

  /** The fingerprint is deterministic: two constructions from the same committed
      inputs carry the same fingerprint, whatever their evidence ids, and inputs
      that differ only in the white space around source or collector do too. */
  lemma FingerprintDeterministic(investigationId: Uuid, tipo: EvidenceType,
                                 f1: string, f2: string, dado: Payload, c1: string, c2: string,
                                 personId: Option<Uuid>, id1: Uuid, id2: Uuid,
                                 dataColeta: Timestamp, h: Hasher)
    requires Trim(f1) == Trim(f2) && Trim(c1) == Trim(c2)
    requires NewEvidence(Some(investigationId), tipo, f1, dado, c1, personId, id1, dataColeta, h).Ok?
    ensures NewEvidence(Some(investigationId), tipo, f2, dado, c2, personId, id2, dataColeta, h).Ok?
    ensures NewEvidence(Some(investigationId), tipo, f1, dado, c1, personId, id1, dataColeta, h)
              .value.hashIntegridade ==
            NewEvidence(Some(investigationId), tipo, f2, dado, c2, personId, id2, dataColeta, h)
              .value.hashIntegridade
  {
    TrimEmptyIffBlank(f1);
    TrimEmptyIffBlank(f2);
    TrimEmptyIffBlank(c1);
    TrimEmptyIffBlank(c2);
  }

  /** The evidence id and the stored fingerprint are not committed: changing the
      id leaves a record verifying exactly as before. */
  lemma IdNotCommitted(e: Evidence, newId: Uuid, h: Hasher)
    ensures CanonicalOf(e.(id := newId)) == CanonicalOf(e)
    ensures Verifies(e.(id := newId), h) <==> Verifies(e, h)
  {
  }

  /** A record whose committed fields were altered after construction verifies
      only if the hasher happens to give the altered tuple the same digest as
      the original one: a collision. A hasher without collisions rejects it. */
  lemma TamperedRecordNeedsCollision(e: Evidence, tampered: Evidence, h: Hasher)
    requires Verifies(e, h)
    requires tampered.hashIntegridade == e.hashIntegridade
    requires CanonicalOf(tampered) != CanonicalOf(e)
    ensures Verifies(tampered, h) <==> h(CanonicalOf(tampered)) == h(CanonicalOf(e))
    ensures (forall c1, c2 :: h(c1) == h(c2) ==> c1 == c2) ==> !Verifies(tampered, h)
  {
  }
}
