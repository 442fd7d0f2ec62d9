/** The eight use cases as one command language over the repositories, and the
    properties that hold across any sequence of them. */
module Commands {
  import opened Common
  import opened LegalBasis
  import opened Investigations
  import opened Evidences
  import opened Repositories
  import opened Persons
  import Identifiers
  import CreateInvestigation
  import PlanInvestigation
  import CloseInvestigation
  import AddPersonToInvestigation
  import AddIdentifierToPerson
  import AddManualEvidence
  import CollectPersonOsint
  import GenerateReport

  /** One use-case call, with everything it takes besides the repositories and
      the fingerprint function. */
  datatype Command =
    | Create(create: CreateInvestigation.Input, id: Uuid, now: Timestamp)
    | Plan(plan: PlanInvestigation.Input)
    | Close(closeId: Uuid, closedAt: Timestamp)
    | AddPerson(person: AddPersonToInvestigation.Input, personId: Uuid, personAt: Timestamp)
    | AddIdentifier(identifier: AddIdentifierToPerson.Input, identifierAt: Timestamp)
    | AddEvidence(evidence: AddManualEvidence.Input, personRepository: bool,
                  derive: AddManualEvidence.Derive, evidenceId: Uuid, evidenceAt: Timestamp)
    | Collect(collect: CollectPersonOsint.Input, collector: Option<string>, osint: CollectPersonOsint.OsintPort,
              ids: nat -> Uuid, clock: nat -> Timestamp)
    | Report(reportId: Uuid)

  /** The repositories after one command, whether it succeeded or failed. */
  function Step(st: Store, cmd: Command, h: Hasher): Store {
    match cmd
    case Create(input, id, now) => CreateInvestigation.Execute(st, input, id, now).store
    case Plan(input) => PlanInvestigation.Execute(st, input).store
    case Close(k, now) => CloseInvestigation.Execute(st, k, now).store
    case AddPerson(input, pid, now) => AddPersonToInvestigation.Execute(st, input, pid, now).store
    case AddIdentifier(input, now) => AddIdentifierToPerson.Execute(st, input, now).store
    case AddEvidence(input, configured, derive, eid, now) =>
      AddManualEvidence.Execute(st, input, configured, derive, eid, now, h).store
    case Collect(input, collector, osint, ids, clock) =>
      CollectPersonOsint.Execute(st, input, CollectPersonOsint.CollectorOf(collector), osint, ids, clock, h).store
    case Report(k) => GenerateReport.Execute(st, k).store
  }

  /** The repositories after a sequence of commands. */
  function Run(st: Store, cmds: seq<Command>, h: Hasher): Store
    decreases |cmds|
  {
    if cmds == [] then st else Run(Step(st, cmds[0], h), cmds[1..], h)
  }

  // ---------------------------------------------------------------------------
  // The store invariant
  // ---------------------------------------------------------------------------

  /** Every command keeps the store invariant. */
  lemma StepKeepsValid(st: Store, cmd: Command, h: Hasher)
    requires Valid(st, h)
    ensures Valid(Step(st, cmd, h), h)
  {
    match cmd
    case Create(input, id, now) => CreateInvestigation.ExecuteKeepsValid(st, input, id, now, h);
    case Plan(input) => PlanInvestigation.ExecuteKeepsValid(st, input, h);
    case Close(k, now) => CloseInvestigation.ExecuteKeepsValid(st, k, now, h);
    case AddPerson(input, pid, now) => AddPersonToInvestigation.ExecuteKeepsValid(st, input, pid, now, h);
    case AddIdentifier(input, now) => AddIdentifierToPerson.ExecuteKeepsValid(st, input, now, h);
    case AddEvidence(input, configured, derive, eid, now) =>
      AddManualEvidence.ExecuteKeepsValid(st, input, configured, derive, eid, now, h);
    case Collect(input, collector, osint, ids, clock) =>
      CollectPersonOsint.ExecuteKeepsValid(st, input, CollectPersonOsint.CollectorOf(collector),
                                           osint, ids, clock, h);
    case Report(k) =>
  }

  /** Any sequence of commands from the empty repositories leaves a valid store:
      every entry satisfies its entity's rules, every closed investigation was
      planned, every reference resolves, and all evidence verifies. */
  lemma {:induction false} RunKeepsValid(st: Store, cmds: seq<Command>, h: Hasher)
    requires Valid(st, h)
    ensures Valid(Run(st, cmds, h), h)
    decreases |cmds|
  {
    if cmds != [] {
      StepKeepsValid(st, cmds[0], h);
      RunKeepsValid(Step(st, cmds[0], h), cmds[1..], h);
    }
  }

  // ---------------------------------------------------------------------------
  // The save log only grows
  // ---------------------------------------------------------------------------

  predicate LogExtends(before: Store, after: Store) {
    |before.log| <= |after.log| && after.log[..|before.log|] == before.log
  }

  /** No command removes or rewrites an earlier save, not even a failing one. */
  lemma StepExtendsLog(st: Store, cmd: Command, h: Hasher)
    ensures LogExtends(st, Step(st, cmd, h))
  {
    var s := Step(st, cmd, h);
    match cmd
    case Collect(input, collector, osint, ids, clock) =>
      if CollectPersonOsint.Passes(st, input) {
        assert s.log == st.log + EvidenceEvents(CollectPersonOsint.Added(st, s));
      }
    case AddIdentifier(input, now) =>
      var r := AddIdentifierToPerson.Execute(st, input, now);
      if r.Done? {
        assert s.log == st.log + s.log[|st.log|..];
      }
    case _ =>
  }

  lemma {:induction false} RunExtendsLog(st: Store, cmds: seq<Command>, h: Hasher)
    ensures LogExtends(st, Run(st, cmds, h))
    decreases |cmds|
  {
    if cmds != [] {
      var s1 := Step(st, cmds[0], h);
      StepExtendsLog(st, cmds[0], h);
      RunExtendsLog(s1, cmds[1..], h);
      var s := Run(s1, cmds[1..], h);
      assert s.log[..|st.log|] == s.log[..|s1.log|][..|st.log|];
    }
  }

  // ---------------------------------------------------------------------------
  // A closed investigation is frozen
  // ---------------------------------------------------------------------------

  /** The investigation `k` is closed, and nothing afterwards changes it or adds
      evidence or persons to it. */
  predicate Frozen(st: Store, after: Store, k: Uuid)
    requires k in st.investigations
  {
    && k in after.investigations
    && after.investigations[k] == st.investigations[k]
    && (forall e :: e in after.evidences && e.investigationId == k ==> e in st.evidences)
    && (forall pid :: pid in after.persons && after.persons[pid].investigationId == k ==>
          pid in st.persons && st.persons[pid].investigationId == k)
    && (forall pid :: pid in st.persons && st.persons[pid].investigationId == k ==>
          pid in after.persons && after.persons[pid].investigationId == k)
  }

  // ---------------------------------------------------------------------------
  // Fresh ids
  // ---------------------------------------------------------------------------

  /** The ids a command draws from `uuid4` are unused: a new investigation's id
      is no stored investigation's, a new person's no stored person's. Saves are
      upserts, so a reused id would overwrite the entry stored under it. */
  predicate FreshIds(st: Store, cmd: Command) {
    && (cmd.Create? ==> cmd.id !in st.investigations)
    && (cmd.AddPerson? ==> cmd.personId !in st.persons)
  }

  /** Every command of the sequence draws fresh ids against the repositories it
      runs on. */
  predicate FreshRun(st: Store, cmds: seq<Command>, h: Hasher)
    decreases |cmds|
  {
    cmds != [] ==> FreshIds(st, cmds[0]) && FreshRun(Step(st, cmds[0], h), cmds[1..], h)
  }

  /** A command with fresh ids leaves a closed investigation `k` as it was: it
      cannot be reopened, re-planned or closed again, it receives no new
      evidence and no new person, and it loses none of its persons. */
  lemma StepKeepsClosedFrozen(st: Store, cmd: Command, h: Hasher, k: Uuid)
    requires Valid(st, h)
    requires k in st.investigations && st.investigations[k].status == Encerrada
    requires FreshIds(st, cmd)
    ensures Frozen(st, Step(st, cmd, h), k)
  {
    match cmd
    case Create(input, id, now) => CreateKeepsClosedFrozen(st, input, id, now, k);
    case Plan(input) => PlanKeepsClosedFrozen(st, input, h, k);
    case Close(j, now) => CloseKeepsClosedFrozen(st, j, now, h, k);
    case AddPerson(input, pid, now) => AddPersonKeepsClosedFrozen(st, input, pid, now, h, k);
    case AddIdentifier(input, now) => AddIdentifierKeepsClosedFrozen(st, input, now, h, k);
    case AddEvidence(input, configured, derive, eid, now) =>
      AddEvidenceKeepsClosedFrozen(st, input, configured, derive, eid, now, h, k);
    case Collect(input, collector, osint, ids, clock) =>
      CollectKeepsClosedFrozen(st, input, CollectPersonOsint.CollectorOf(collector), osint, ids, clock, h, k);
    case Report(j) => ReportKeepsClosedFrozen(st, j, k);
  }

  lemma CreateKeepsClosedFrozen(st: Store, input: CreateInvestigation.Input, id: Uuid, now: Timestamp,
                                k: Uuid)
    requires k in st.investigations && id != k
    ensures Frozen(st, CreateInvestigation.Execute(st, input, id, now).store, k)
  {
  }

  lemma PlanKeepsClosedFrozen(st: Store, input: PlanInvestigation.Input, h: Hasher, k: Uuid)
    requires Valid(st, h)
    requires k in st.investigations && st.investigations[k].status == Encerrada
    ensures Frozen(st, PlanInvestigation.Execute(st, input).store, k)
  {
    if input.investigationId in st.investigations {
      assert InvestigationOk(st, input.investigationId);
    }
  }

  lemma CloseKeepsClosedFrozen(st: Store, j: Uuid, now: Timestamp, h: Hasher, k: Uuid)
    requires Valid(st, h)
    requires k in st.investigations && st.investigations[k].status == Encerrada
    ensures Frozen(st, CloseInvestigation.Execute(st, j, now).store, k)
  {
    if j in st.investigations {
      assert InvestigationOk(st, j);
    }
  }

  lemma AddPersonKeepsClosedFrozen(st: Store, input: AddPersonToInvestigation.Input, pid: Uuid,
                                   now: Timestamp, h: Hasher, k: Uuid)
    requires Valid(st, h)
    requires k in st.investigations && st.investigations[k].status == Encerrada
    requires pid !in st.persons
    ensures Frozen(st, AddPersonToInvestigation.Execute(st, input, pid, now).store, k)
  {
    if input.investigationId in st.investigations {
      assert InvestigationOk(st, input.investigationId);
    }
  }

  lemma AddIdentifierKeepsClosedFrozen(st: Store, input: AddIdentifierToPerson.Input, now: Timestamp,
                                       h: Hasher, k: Uuid)
    requires Valid(st, h)
    requires k in st.investigations
    ensures Frozen(st, AddIdentifierToPerson.Execute(st, input, now).store, k)
  {
    var r := AddIdentifierToPerson.Execute(st, input, now);
    if r.Done? {
      assert PersonOk(st, input.personId);
      var after := AdicionarIdentificador(st.persons[input.personId], r.value);
      assert after.id == input.personId;
      assert after.investigationId == st.persons[input.personId].investigationId;
    }
  }

  lemma AddEvidenceKeepsClosedFrozen(st: Store, input: AddManualEvidence.Input, configured: bool,
                                     derive: AddManualEvidence.Derive, eid: Uuid, now: Timestamp,
                                     h: Hasher, k: Uuid)
    requires k in st.investigations && st.investigations[k].status == Encerrada
    ensures Frozen(st, AddManualEvidence.Execute(st, input, configured, derive, eid, now, h).store, k)
  {
  }

  lemma ReportKeepsClosedFrozen(st: Store, j: Uuid, k: Uuid)
    requires k in st.investigations
    ensures Frozen(st, GenerateReport.Execute(st, j).store, k)
  {
  }

  /** Appending evidence of other investigations only leaves `k` frozen. */
  lemma GrowingElsewhereKeepsFrozen(st: Store, s: Store, k: Uuid)
    requires k in st.investigations
    requires CollectPersonOsint.Grows(st, s)
    requires forall e :: e in CollectPersonOsint.Added(st, s) ==> e.investigationId != k
    ensures Frozen(st, s, k)
  {
    var added := CollectPersonOsint.Added(st, s);
    assert s.evidences == st.evidences + added by {
      assert s.evidences == s.evidences[..|st.evidences|] + added;
    }
  }

  lemma CollectKeepsClosedFrozen(st: Store, input: CollectPersonOsint.Input, collector: string,
                                 osint: CollectPersonOsint.OsintPort, ids: nat -> Uuid,
                                 clock: nat -> Timestamp, h: Hasher, k: Uuid)
    requires Valid(st, h)
    requires k in st.investigations && st.investigations[k].status == Encerrada
    ensures Frozen(st, CollectPersonOsint.Execute(st, input, collector, osint, ids, clock, h).store, k)
  {
    var s := CollectPersonOsint.Execute(st, input, collector, osint, ids, clock, h).store;
    if CollectPersonOsint.Passes(st, input) {
      assert InvestigationOk(st, input.investigationId);
      var ctx := CollectPersonOsint.ContextOf(st, input, collector, osint, ids, clock, h);
      assert ctx.investigationId == input.investigationId != k;
      assert forall e :: e in CollectPersonOsint.Added(st, s) ==> CollectPersonOsint.Collected(ctx, e);
      GrowingElsewhereKeepsFrozen(st, s, k);
    }
  }

  /** Over any sequence of commands with fresh ids, a closed investigation `k`
      stays exactly as it was, gains no evidence and no person, and keeps all
      of its persons. */
  lemma {:induction false} RunKeepsClosedFrozen(st: Store, cmds: seq<Command>, h: Hasher, k: Uuid)
    requires Valid(st, h)
    requires k in st.investigations && st.investigations[k].status == Encerrada
    requires FreshRun(st, cmds, h)
    ensures Frozen(st, Run(st, cmds, h), k)
    decreases |cmds|
  {
    if cmds != [] {
      var s1 := Step(st, cmds[0], h);
      StepKeepsClosedFrozen(st, cmds[0], h, k);
      StepKeepsValid(st, cmds[0], h);
      RunKeepsClosedFrozen(s1, cmds[1..], h, k);
    }
  }

  /** Adding an identifier looks only at the person, not at the investigation:
      a person of a closed investigation still gains identifiers. */
  lemma AddIdentifierIgnoresClosure(st: Store, input: AddIdentifierToPerson.Input, now: Timestamp)
    requires input.personId in st.persons
    requires st.persons[input.personId].investigationId in st.investigations
    requires st.investigations[st.persons[input.personId].investigationId].status == Encerrada
    requires Identifiers.NewIdentifier(input.identifierType, input.value, now).Ok?
    ensures AddIdentifierToPerson.Execute(st, input, now).Done?
  {
  }
}
