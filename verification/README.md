# OSINT investigation framework — domain and use-case core in Dafny

This project models the domain layer and the use-case orchestrators of an OSINT
(open-source intelligence) investigation system. It also proves properties of
that model.

The case file is an `Investigation`. It rests on a legal basis (`BaseLegal`,
drawn from Brazil's LGPD, Lei 13.709/2018). It is planned at most once, with a
list of allowed sources, and it moves one way only, from ABERTA to ENCERRADA, as
long as every new id is fresh (which `uuid4` provides in practice).
Each `Person` of interest belongs to one investigation and owns a list of
normalised `Identifier`s, kept free of duplicates. An `Evidence` record is
validated when it is built. At the same moment it gets an integrity fingerprint
over a canonical tuple of its fields.

Eight use cases work on four repositories:

- CreateInvestigation
- PlanInvestigation
- CloseInvestigation
- AddPersonToInvestigation
- AddIdentifierToPerson
- AddManualEvidence
- CollectPersonOsint: the authorisation-gated collection loop
- GenerateReport

How the model is built:

- **Repositories.** They are one immutable `Store`. Investigations and persons
  are maps from id, saved by upsert. Identifiers and evidence are append-only
  sequences.
- **Save log.** Every save is also appended to a log, so the order of writes can
  be stated.
- **Use cases.** Each one is a pure function from a store and its input to an
  `Outcome`. An `Outcome` is either `Done(store, value)` or
  `Failed(store, error)`.
- **Failures.** The single validation exception of the source becomes one
  `Error` kind per distinct check. Use cases that repeat a check, such as
  "investigation not found", share its kind. Two kinds stand for runtime
  errors rather than the validation exception:
  - `PersonNameMissing`: stripping an absent person name fails.
  - `CollectionFailed`: a collection-port call raises.
- **Inputs the source takes from the environment.** Ids, instants, the
  fingerprint function (canonical JSON followed by SHA-256) and the collection
  port are all parameters.
- **Strings.** `strip`, `lower` and the `isdigit` filter are modelled over ASCII
  in `Text`. Their characterisations are proved there.

Files:

- `common.dfy`, `text.dfy`: shared types and string primitives.
- `identifier.dfy`, `base_legal.dfy`, `investigation.dfy`, `person.dfy`,
  `evidence.dfy`: one module per entity or value object.
- `store.dfy`: the repositories and the store invariant `Valid`, with one lemma
  per save showing that the save keeps it.
- One file per use case.
- `commands.dfy`: the eight use cases as one command language. It proves the
  properties that hold over any sequence of commands:
  - the invariant is kept;
  - the log is never rewritten;
  - a closed investigation is frozen.
- `scenarios.dfy`: end-to-end runs.

## Model

| member | source | states |
|---|---|---|
| Text.Trim | app/domain/entities/identifier.py:36 | `strip` returns a string with no white space at either end, no longer than its input |
| Text.TrimIsInfix | app/domain/entities/identifier.py:36 | the stripped string is a contiguous infix of the input, and everything cut on either side is white space |
| Text.TrimEmptyIffBlank | app/domain/value_objects/base_legal.py:29-44 | stripping yields the empty string exactly when the input is all white space, which is what every "required" check after a strip tests |
| Text.TrimFixesTrimmed | app/domain/entities/identifier.py:36 | a string with no white space at either end is left unchanged by `strip` |
| Text.TrimIdempotent | app/domain/entities/identifier.py:36 | stripping twice is stripping once |
| Text.Lower | app/domain/entities/identifier.py:42 | `lower` keeps the length, maps each of 'A'..'Z' to the letter 32 code points above it ('a'..'z'), keeps every other character, and so leaves no upper-case letter and keeps white space where it was |
| Text.LowerIdempotent | app/domain/entities/identifier.py:42 | lower-casing twice is lower-casing once |
| Text.LowerKeepsNonLetters | app/domain/entities/identifier.py:42 | a non-letter such as `@` occurs in the lower-cased string exactly when it occurs in the input |
| Text.Digits | app/domain/entities/identifier.py:45 | the digit filter keeps every digit of the input as often as it occurs and drops every other character; it is no longer than its input and leaves a string of digits unchanged |
| Text.DigitsConcat | app/domain/entities/identifier.py:45 | the digit filter distributes over concatenation, keeping the digits in order |
| Text.DigitsIgnoreTrim | app/domain/entities/identifier.py:36-45 | stripping before filtering digits changes nothing |
| Identifiers.Normalize | app/domain/entities/identifier.py:30-47 | every normal form has no white space at either end |
| Identifiers.NewIdentifier | app/domain/entities/identifier.py:14-67 | a value is accepted exactly when its normal form is non-empty, holds `@` for an e-mail and has at least eight characters for a phone; the three refusals come in that order; an accepted identifier holds the normal form and the given instant and is well-formed |
| Identifiers.NormalFormByType | app/domain/entities/identifier.py:30-47 | e-mail and user name are stripped and lower-cased; a phone number is the digits of the raw input; any other type is only stripped |
| Identifiers.NormalizeIdempotent | app/domain/entities/identifier.py:30-47 | normalising an already normalised value returns it unchanged |
| Identifiers.AtSurvivesTrim | app/domain/entities/identifier.py:36 | stripping neither removes nor adds an `@` |
| Identifiers.PhoneAcceptance | app/domain/entities/identifier.py:44-67 | a phone number is accepted exactly when the raw input holds at least eight digits anywhere |
| Identifiers.EmailAcceptance | app/domain/entities/identifier.py:36-64 | an e-mail is accepted exactly when the raw input is not blank and contains `@` |
| Identifiers.OtherAcceptance | app/domain/entities/identifier.py:36-60 | any other type is accepted exactly when the raw input is not blank |
| Identifiers.SameIdentifierIsEquivalence | app/domain/entities/identifier.py:73-77 | identifier equality `SameIdentifier` is reflexive, symmetric and transitive |
| Identifiers.EqualityIgnoresRegistration | app/domain/entities/identifier.py:73-80 | `SameIdentifier` holds exactly when the (type, value) keys agree; equal identifiers get the same `Hash` under any hash function; the registration instant affects neither |
| Identifiers.SameNormalFormSameIdentifier | app/domain/entities/identifier.py:14-24 | two inputs with the same normal form build equal identifiers or fail with the same error, whatever their instants |
| Identifiers.EmailIgnoresCaseAndPadding | app/domain/entities/identifier.py:36-42 | e-mail inputs that differ only in letter case and surrounding white space build equal identifiers |
| LegalBasis.NewBaseLegal | app/domain/value_objects/base_legal.py:21-49 | a blank description is refused first, then the consent ground without consent; otherwise the result holds the stripped description, the ground, the flag and the instant, and is well-formed |
| LegalBasis.ConsentGroundNeedsConsent | app/domain/value_objects/base_legal.py:25-49 | the consent ground fails with the default flag and succeeds with explicit consent and a non-blank description |
| LegalBasis.OtherGroundsIgnoreConsent | app/domain/value_objects/base_legal.py:46-49 | every other ground accepts either flag, and the two results differ only in the flag |
| LegalBasis.ConstructedIsValid | app/domain/value_objects/base_legal.py:51-52 | `IsValida` (`is_valida`) and the structural rules hold of every constructed legal basis |
| LegalBasis.EqualityIgnoresRegistration | app/domain/value_objects/base_legal.py:58-66 | constructions that differ only in instant or in the white space around the description are equal under `SameBaseLegal` |
| LegalBasis.ConsentExamples | app/domain/value_objects/base_legal.py:43-49 | consent without the flag fails, consent with it succeeds, legal obligation without it succeeds |
| Investigations.NewInvestigation | app/domain/entities/investigation.py:20-48 | a blank title is refused first, then a blank objective; a new investigation holds the stripped texts, is open, unclosed and unplanned, and is well-formed |
| Investigations.Encerrar | app/domain/entities/investigation.py:56-61 | closing a closed investigation fails; closing an open one stamps the closing instant and keeps identity, texts, legal basis and plan |
| Investigations.DefinirPlanejamento | app/use_cases/investigation/plan_investigation.py:48-53 | the plan is recorded exactly as given, and nothing else changes |
| Investigations.ActiveIffNotClosed | app/domain/entities/investigation.py:33-64 | `EstaAtiva` holds of a well-formed investigation exactly when it has no closing instant |
| Investigations.OperationsKeepWellFormed | app/domain/entities/investigation.py:56-61 | closing and planning keep an investigation well-formed |
| Investigations.ClosedIsTerminal | app/domain/entities/investigation.py:56-61 | no operation reopens a closed investigation, and a second close is refused |
| Persons.Contains | app/domain/entities/person.py:53-54 | `PossuiIdentificador` (membership under identifier equality) holds exactly when some held identifier equals the given one |
| Persons.NewPerson | app/domain/entities/person.py:14-42 | a missing investigation is refused first, then a blank name; a person holds the stripped, non-empty name and the list as given |
| Persons.AdicionarIdentificador | app/domain/entities/person.py:44-51 | afterwards the person holds the identifier; the old list is an unchanged prefix; at most one entry was added; a duplicate-free list stays duplicate-free; no other field changes |
| Persons.AddingDuplicateIsNoop | app/domain/entities/person.py:48-49 | adding an identifier equal to a held one leaves the person unchanged |
| Persons.AddingNewAppends | app/domain/entities/person.py:51 | adding an identifier not yet held appends it at the end |
| Persons.AddingIsIdempotent | app/domain/entities/person.py:44-51 | adding the same identifier twice equals adding it once |
| Persons.MembershipIgnoresRegistration | app/domain/entities/person.py:53-54 | whether a person holds an identifier does not depend on its registration instant |
| Evidences.NewEvidence | app/domain/entities/evidence.py:17-67 | refusals come in order: missing investigation, blank source, empty payload, blank collector; it succeeds exactly on admissible input; a record holds the stripped source and collector, the given ids and instant, is well-formed and verifies against its fingerprint |
| Evidences.CanonicalFieldsExactly | app/domain/entities/evidence.py:74-82 | the fingerprinted tuple agrees exactly when investigation, person, type, source, payload, collector and instant agree |
| Evidences.FingerprintDeterministic | app/domain/entities/evidence.py:69-88 | constructions from the same committed inputs, even with different evidence ids or padding, carry the same fingerprint |
| Evidences.IdNotCommitted | app/domain/entities/evidence.py:74-82 | the evidence id is outside the fingerprint: changing it leaves verification unchanged |
| Evidences.TamperedRecordNeedsCollision | app/domain/entities/evidence.py:69-88 | a record whose committed fields were altered still verifies only if the hash gives the altered tuple the same digest; under a hash without collisions it never verifies |
| Repositories.EvidencesOf | app/use_cases/investigation/generate_report.py:57-59 | listing by investigation returns exactly the stored records of that investigation |
| Repositories.EvidencesOfAppend | app/use_cases/investigation/generate_report.py:57-59 | `EvidencesOf` keeps saved order: listing a concatenation gives the two listings concatenated |
| CreateInvestigation.Execute | app/use_cases/investigation/create_investigation.py:25-44 | failures come in order: blank description, missing consent, blank title, blank objective; each failure saves nothing; success saves exactly the new open, unplanned investigation built from the stripped inputs |
| CreateInvestigation.ExecuteKeepsValid | app/use_cases/investigation/create_investigation.py:25-44 | creating keeps the store invariant |
| PlanInvestigation.Execute | app/use_cases/investigation/plan_investigation.py:26-56 | failures come in order: not found, closed, already planned; each saves nothing; success saves the same open investigation with exactly the given plan |
| PlanInvestigation.PlanAtMostOnce | app/use_cases/investigation/plan_investigation.py:41-45 | after a successful plan, planning the same investigation again fails whatever the arguments |
| PlanInvestigation.ExecuteKeepsValid | app/use_cases/investigation/plan_investigation.py:26-56 | planning keeps the store invariant |
| CloseInvestigation.Execute | app/use_cases/investigation/close_investigation.py:22-47 | failures come in order: not found, already closed, unplanned; each saves nothing; success saves the investigation closed at the given instant with content and plan unchanged |
| CloseInvestigation.CloseTwiceFails | app/use_cases/investigation/close_investigation.py:31-35 | a second close after a successful one fails and changes nothing |
| CloseInvestigation.ExecuteKeepsValid | app/use_cases/investigation/close_investigation.py:37-47 | closing keeps the store invariant, in particular that every closed investigation was planned |
| AddPersonToInvestigation.Execute | app/use_cases/person/add_person.py:31-56 | failures come in order: not found, closed, absent name (stripping `None` fails), blank name; each saves nothing; success saves one person of that investigation with the stripped name and no identifiers |
| AddPersonToInvestigation.ExecuteKeepsValid | app/use_cases/person/add_person.py:46-53 | adding a person keeps the store invariant |
| AddIdentifierToPerson.Execute | app/use_cases/identifier/add_identifier.py:33-56 | an unknown person fails first, then an invalid identifier, and each failure saves nothing; success saves the identifier, then the person holding it, in that order |
| AddIdentifierToPerson.ExecuteKeepsValid | app/use_cases/identifier/add_identifier.py:48-53 | adding an identifier keeps every person's list duplicate-free and every stored identifier well-formed |
| AddIdentifierToPerson.DuplicateLeavesPersonUnchanged | app/use_cases/identifier/add_identifier.py:48-53 | a duplicate is stored again in the identifier repository while the person is saved unchanged |
| AddManualEvidence.Execute | app/use_cases/evidence/add_manual_evidence.py:36-74 | failures come in order: not found, closed, then for a named person a missing person repository and an unknown person; each saves nothing; success occurs exactly when every guard passes and the record is admissible, and saves exactly that record, which points at stored entities and verifies |
| AddManualEvidence.ExecuteKeepsValid | app/use_cases/evidence/add_manual_evidence.py:62-71 | recording evidence keeps the store invariant, and the saved record verifies |
| AddManualEvidence.PersonOfAnotherInvestigationAccepted | app/use_cases/evidence/add_manual_evidence.py:51-60 | the named person is only looked up: a person of another investigation is accepted |
| CollectPersonOsint.AuthorisedIffListed | app/use_cases/person/collect_person_osint.py:62-70 | the unauthorised set is empty exactly when every requested source is in the plan |
| CollectPersonOsint.MakeEvidenceRefuses | app/use_cases/person/collect_person_osint.py:93-100 | a result is refused exactly when it is unusable, with the blank-source, empty-payload or blank-collector error in that order |
| CollectPersonOsint.FirstUnusable | app/use_cases/person/collect_person_osint.py:92-103 | every result before the returned position is usable and the one at it is not |
| CollectPersonOsint.SaveResults | app/use_cases/person/collect_person_osint.py:92-103 | the inner loop only appends records collected for the run, one per result up to the first refused one, built from the results in order with consecutive ids and instants, and fails with that refusal |
| CollectPersonOsint.GatherCallsEachInOrder | app/use_cases/person/collect_person_osint.py:86-90 | the port is asked once per identifier, in list order, with the requested sources; the run is complete exactly when every call answers, and the results are all answers concatenated |
| CollectPersonOsint.SaveResultsAppend | app/use_cases/person/collect_person_osint.py:92-103 | saving two batches equals saving the first and then, if it finished, the second |
| CollectPersonOsint.CollectFromIsReference | app/use_cases/person/collect_person_osint.py:83-105 | the nested loop `CollectFrom` equals gathering all results first and then saving them one by one |
| CollectPersonOsint.Execute | app/use_cases/person/collect_person_osint.py:42-105 | failures come in order: not found, closed, unplanned, unauthorised sources (with exactly that set), unknown person, person of another investigation; each saves nothing; a passing run only appends automated records of this investigation, person and collector, one per gathered result in order up to the first refused one; it returns them exactly when nothing was refused and the port never failed |
| CollectPersonOsint.ExecuteKeepsValid | app/use_cases/person/collect_person_osint.py:83-105 | collecting keeps the store invariant, even when a run fails part-way |
| CollectPersonOsint.NoIdentifiersNoEvidence | app/use_cases/person/collect_person_osint.py:83-105 | a person without identifiers yields an empty result and no save |
| GenerateReport.ForPersonMembers | app/use_cases/investigation/generate_report.py:65-78 | the reference list for a person holds the entry of every record naming that person, and nothing else |
| GenerateReport.GroupIsForPerson | app/use_cases/investigation/generate_report.py:61-78 | the grouping loop `Group` gives each person the earlier list followed by that person's entries in order, and creates a list exactly for the persons some record names |
| GenerateReport.Execute | app/use_cases/investigation/generate_report.py:32-78 | the store never changes; failures come in order: not found, still open, unplanned; a report holds the investigation, its persons, its evidence in saved order, and per person exactly the entries of the records naming that person |
| GenerateReport.EntriesAreStoredRecords | app/use_cases/investigation/generate_report.py:66-74 | every report entry copies a stored record of the investigation naming that person, and its fingerprint still verifies |
| Commands.StepKeepsValid | app/use_cases/investigation/close_investigation.py:37-47 | every use case keeps the store invariant, whatever it saves: the investigation (create_investigation.py:41, plan_investigation.py:56, close_investigation.py:47), the person (add_person.py:53, add_identifier.py:53), the identifier (add_identifier.py:52) or evidence (add_manual_evidence.py:71, collect_person_osint.py:102) |
| Commands.RunKeepsValid | app/use_cases/investigation/close_investigation.py:37-47 | any sequence of use cases keeps the store invariant through all of the saves listed for `StepKeepsValid`: entries satisfy their entity rules, closed investigations were planned, references resolve, evidence verifies |
| Commands.StepExtendsLog | app/use_cases/identifier/add_identifier.py:51-53 | no use case, not even a failing one, removes or rewrites an earlier save |
| Commands.RunExtendsLog | app/use_cases/identifier/add_identifier.py:51-53 | over any sequence of use cases the save log only grows |
| Commands.CreateKeepsClosedFrozen | app/use_cases/investigation/create_investigation.py:25-44 | creating under another id leaves a closed investigation as it was |
| Commands.PlanKeepsClosedFrozen | app/use_cases/investigation/plan_investigation.py:35-39 | planning leaves a closed investigation as it was |
| Commands.CloseKeepsClosedFrozen | app/use_cases/investigation/close_investigation.py:31-35 | closing leaves a closed investigation as it was |
| Commands.AddPersonKeepsClosedFrozen | app/use_cases/person/add_person.py:40-44 | adding a person under a fresh id adds none to a closed investigation and takes none from it |
| Commands.AddIdentifierKeepsClosedFrozen | app/use_cases/identifier/add_identifier.py:33-53 | adding an identifier moves no person between investigations and adds no evidence |
| Commands.AddEvidenceKeepsClosedFrozen | app/use_cases/evidence/add_manual_evidence.py:45-49 | manual evidence is never added to a closed investigation |
| Commands.CollectKeepsClosedFrozen | app/use_cases/person/collect_person_osint.py:51-55 | collection adds no evidence to a closed investigation |
| Commands.ReportKeepsClosedFrozen | app/use_cases/investigation/generate_report.py:16-20 | generating a report changes nothing |
| Commands.StepKeepsClosedFrozen | app/use_cases/investigation/close_investigation.py:13-17 | any use case drawing fresh ids leaves a closed investigation as it was, with no new evidence, no new person and none of its persons lost |
| Commands.RunKeepsClosedFrozen | app/use_cases/investigation/close_investigation.py:13-17 | over any sequence of use cases drawing fresh ids, a closed investigation stays exactly as it was, gains no evidence and no person, and keeps every person it had |
| Commands.AddIdentifierIgnoresClosure | app/use_cases/identifier/add_identifier.py:33-53 | a person of a closed investigation still gains identifiers, because only the person is looked up |
| Scenarios.CreatedCase | app/use_cases/investigation/create_investigation.py:25-44 | creating a case from the empty store succeeds and leaves it open and unplanned |
| Scenarios.PlannedCase | app/use_cases/investigation/plan_investigation.py:26-56 | planning the new case succeeds and records "google" as its only allowed source |
| Scenarios.CloseNeedsPlanScenario | app/use_cases/investigation/close_investigation.py:31-44 | closing before planning fails; after planning it succeeds; then manual evidence is refused as closed |
| Scenarios.LeakDbUnauthorized | app/use_cases/person/collect_person_osint.py:63-65 | requesting "google" and "leak_db" under a plan of "google" leaves exactly "leak_db" unauthorised |
| Scenarios.UnauthorisedSourceScenario | app/use_cases/person/collect_person_osint.py:62-70 | such a request fails before any save, naming exactly the unauthorised set |
| Scenarios.PersonAdded | app/use_cases/person/add_person.py:31-56 | adding a named person to the open, planned case succeeds |
| Scenarios.VisibleAddressAccepted | app/domain/entities/identifier.py:57-64 | an e-mail input that starts with a visible character and holds `@` is accepted |
| Scenarios.AddressAccepted | app/domain/entities/identifier.py:57-64 | the scenario's e-mail address is accepted |
| Scenarios.IdentifierAdded | app/use_cases/identifier/add_identifier.py:33-56 | registering an accepted identifier for the person succeeds and keeps case and person in place |
| Scenarios.CollectFromGoogle | app/use_cases/person/collect_person_osint.py:62-81 | collecting from "google" for the person passes every guard, and every saved record is automated collection for that case and person |
| Scenarios.CollectScenario | app/use_cases/person/collect_person_osint.py:42-105 | create, plan, add a person, add an e-mail, then collect: every guard passes and only automated records are saved |

## Left out

- I/O, persistence back ends and concurrency are not modelled. Each repository is one immutable value, and a use case is one atomic function.
- Ids (`uuid4`), clocks (`utcnow`) and the fingerprint are inputs, not computed. CreateInvestigation reads the clock twice, for the legal basis (`base_legal.py` line 31) and for the investigation (`investigation.py` line 34); the model gives both the same instant. The fingerprint is canonical JSON with sorted keys followed by SHA-256; it is any function from the committed tuple to a digest, so properties that need collision resistance are stated as "unless the hash collides".
- The collection port is a function parameter. A call that raises is modelled as `None`, and it ends the run with what was already saved.
- Strings are ASCII: `strip`, `isspace`, `lower` and `isdigit` follow Python on code points below 128 only. Unicode white space, digits and case mapping are out.
- The `isinstance` checks on the type enumerations, the payload dictionary and the entity classes are guaranteed by the Dafny types, so their error paths are absent.
- The constructors' truthiness checks on a missing investigation id are modelled as `Option` absence. A real UUID is always truthy.
- The payload is a map from string keys to JSON values whose numbers are integers, so it is never anything but a dictionary and always serialisable. The serialisation in the evidence fingerprint (`evidence.py` lines 84-86) can raise in Python for a value JSON cannot hold (a datetime, a set, bytes), for keys of mixed types under sorted keys, or for a circular payload. That failure is not modelled, and neither are floating-point payload values.
- Ids are fresh: saves are upserts keyed by id, and the model takes every new id as a parameter. `Commands.FreshIds` and `Commands.FreshRun` state the freshness that `uuid4` gives: a new investigation's id is no stored investigation's, and a new person's id is no stored person's. The properties over command sequences assume it. Without it, a reused id overwrites the entry stored under it, which can move a person between investigations or reset an investigation.
- GenerateReport: the source file ends part-way through the grouping loop (`generate_report.py` line 78). The model covers the per-person grouping up to that point. The list of evidence naming no person, and the report dictionary itself, are not part of this model.
- AddManualEvidence: the use case calls the evidence constructor with `description=` and `source=`, keywords the constructor does not declare. It does not supply type, payload or collector. The model takes the source as the evidence source and obtains type, payload and collector from the description through a parameter (`Derive`).
- Keyword and attribute names the use cases use but the entities do not declare are mapped onto the entity's own names:
  - AddPersonToInvestigation: `display_name=` for `nome`. An absent display name, the default, makes the constructor's `strip` fail; the model gives it its own failure, `PersonNameMissing`.
  - AddIdentifierToPerson: `person_id=`, `identifier_type=`, `value=` and `source=` for `tipo`/`valor`. The person id and source are dropped.
  - AddIdentifierToPerson: `person.add_identifier` for `adicionar_identificador`.
  - CollectPersonOsint: `person.identifiers` for `identificadores`, and `investigation.allowed_sources` for the plan's allowed sources.

  As written, those calls would raise a Python `TypeError` or `AttributeError`. The model follows the evident intent instead.
- Planning: `definir_planejamento`, `planejamento_definido` and the planning fields are not part of the investigation entity's source. They are modelled with the behaviour the use cases rely on: the plan is recorded as given, at most once, with no validation of its own. The stricter checks a design might add (blank objective or scope, empty source list) are not invented.
- Duplicate identifiers: the model follows the code, which silently ignores a duplicate (`person.py` lines 48-49). A policy that fails on duplicates would differ. AddIdentifierToPerson still saves the duplicate to the identifier repository.
- AddIdentifierToPerson does not check that the person's investigation is open, as in the code. `Commands.AddIdentifierIgnoresClosure` states this.
- Phone numbers need at least eight digits, as in the code (`identifier.py` line 66). A weaker "at least one digit" rule is not modelled.
- CollectPersonOsint.Execute: of the exceptions that can end a run part-way, only two are modelled: a result the evidence constructor refuses, and a port call that raises. A payload the fingerprint's JSON serialisation refuses (see the payload line above) and runtime failures of the repositories are not modelled.
- The collector: the use case records the collector it was configured with, `OSINT_AUTOMATED` by default (`collect_person_osint.py` line 34). `Commands.Collect` takes an optional configured collector and falls back to `CollectPersonOsint.DefaultCollector`. The use case itself takes the collector as a parameter.
