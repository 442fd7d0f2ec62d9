/** Shared vocabulary of the case-file domain: opaque identities and instants,
    optional values, and the typed failures that stand in for the domain's single
    validation exception. */
module Common {

  /** An opaque identity (a UUID in the system). Identities are supplied by the
      caller; nothing in the model generates them. */
  type Uuid = nat

  /** An opaque instant. Instants are supplied by the caller; nothing in the model
      reads a clock. */
  type Timestamp = nat

  datatype Option<+T> = None | Some(value: T)

  /** The failures a use case can end with: one kind per distinct check that
      raises the domain's validation error (a check repeated by several use
      cases, such as "investigation not found", shares one kind); the
      unauthorised-source failure carries the offending set of sources. Two
      kinds stand for runtime errors instead: an absent person name, on which
      `strip` fails, and a collection-port call that raises. */
  datatype Error =
    // Identifier
    | IdentifierEmpty
    | InvalidEmail
    | InvalidPhone
    // BaseLegal
    | LegalBasisDescriptionBlank
    | ConsentRequired
    // Investigation
    | TitleBlank
    | ObjectiveBlank
    | AlreadyClosed
    // Person
    | PersonWithoutInvestigation
    | PersonNameBlank
    | PersonNameMissing
    // Evidence
    | EvidenceWithoutInvestigation
    | EvidenceSourceBlank
    | EvidencePayloadEmpty
    | EvidenceCollectorBlank
    // Use-case guards
    | InvestigationNotFound
    | InvestigationClosed
    | AlreadyPlanned
    | NotPlanned
    | StillOpen
    | UnauthorizedSources(sources: set<string>)
    | PersonNotFound
    | PersonRepositoryMissing
    | PersonNotInInvestigation
    // The external collection port raised
    | CollectionFailed

  /** The value of a constructor that may reject its input. */
  datatype Result<+T> = Ok(value: T) | Err(error: Error)
}
