/** Use case: automated open-source collection for one person, restricted to the
    sources the investigation's plan allows. Every result the collection port
    returns for every identifier of the person becomes one saved piece of
    evidence; a failure part-way through keeps what was already saved. */
module CollectPersonOsint {
  import opened Common
  import opened Text
  import opened Identifiers
  import opened Investigations
  import opened Persons
  import opened Evidences
  import opened Repositories

  datatype Input = Input(investigationId: Uuid, personId: Uuid, requestedSources: seq<string>)

  /** One result of the collection port: the source it came from and its payload. */
  datatype CollectionResult = CollectionResult(source: string, data: Payload)

  /** The collection port: the results for one identifier over the requested
      sources, or `None` when the call raises. */
  type OsintPort = (Identifier, seq<string>) -> Option<seq<CollectionResult>>

  /** The collector recorded on every piece of evidence unless configured otherwise. */
  const DefaultCollector: string := "OSINT_AUTOMATED"

  /** The collector a run records: the configured one, or `DefaultCollector`
      when none was configured. */
  function CollectorOf(configured: Option<string>): string {
    if configured.Some? then configured.value else DefaultCollector
  }

  /** The requested sources the plan does not allow, as a set. */
  function Unauthorized(requested: seq<string>, allowed: seq<string>): set<string> {
    set s | s in requested && s !in allowed
  }

  /** Everything the loop needs besides the store: the investigation and person
      the evidence is tied to, the collector, the requested sources, the port,
      and the sources of fresh ids, instants (both indexed by the number of
      records made so far) and fingerprints. */
  datatype Context = Context(
    investigationId: Uuid,
    personId: Uuid,
    collector: string,
    sources: seq<string>,
    osint: OsintPort,
    ids: nat -> Uuid,
    clock: nat -> Timestamp,
    h: Hasher)

  /** The `n`-th record of a run, built from one result. */
  function MakeEvidence(ctx: Context, res: CollectionResult, n: nat): Result<Evidence> {
    NewEvidence(Some(ctx.investigationId), OsintAutomated, res.source, res.data, ctx.collector,
                Some(ctx.personId), ctx.ids(n), ctx.clock(n), ctx.h)
  }

  /** The failure the evidence constructor raises for a result it refuses: a
      blank source first, then an empty payload, then a blank collector. */
  function Refusal(ctx: Context, res: CollectionResult): Error {
    if AllSpace(res.source) then EvidenceSourceBlank
    else if |res.data| == 0 then EvidencePayloadEmpty
    else EvidenceCollectorBlank
  }

  /** The constructor refuses exactly the unusable results, with `Refusal`. */
  lemma MakeEvidenceRefuses(ctx: Context, res: CollectionResult, n: nat)
    ensures MakeEvidence(ctx, res, n).Ok? <==> Usable(ctx, res)
    ensures !Usable(ctx, res) ==> MakeEvidence(ctx, res, n) == Err(Refusal(ctx, res))
  {
  }

  /** A result the evidence constructor accepts. */
  predicate Usable(ctx: Context, res: CollectionResult) {
    Admissible(Some(ctx.investigationId), res.source, res.data, ctx.collector)
  }

  /** The position of the first result the constructor refuses (`|results|` when
      there is none). */
  function FirstUnusable(ctx: Context, results: seq<CollectionResult>): (k: nat)
    ensures k <= |results|
    ensures forall j :: 0 <= j < k ==> Usable(ctx, results[j])
    ensures k < |results| ==> !Usable(ctx, results[k])
  {
    if results == [] then 0
    else if !Usable(ctx, results[0]) then 0
    else
      var k := FirstUnusable(ctx, results[1..]);
      assert forall j :: 1 <= j < 1 + k ==> results[j] == results[1..][j - 1];
      1 + k
  }

  /** What every record of a run satisfies: it is well-formed, verifies, is typed
      as automated collection, and is tied to the run's investigation, person and
      (stripped) collector. */
  predicate Collected(ctx: Context, e: Evidence) {
    && Evidences.WellFormed(e)
    && Verifies(e, ctx.h)
    && e.tipo == OsintAutomated
    && e.investigationId == ctx.investigationId
    && e.personId == Some(ctx.personId)
    && e.coletadoPor == Trim(ctx.collector)
  }

  /** The record `e` was built from result `res`: its source is the result's,
      stripped, and its payload is the result's. */
  predicate Matches(e: Evidence, res: CollectionResult) {
    e.fonte == Trim(res.source) && e.dado == res.data
  }

  /** The record `e` is the `n`-th of a run: it carries the `n`-th fresh id and
      the `n`-th instant. */
  predicate Stamped(ctx: Context, e: Evidence, n: nat) {
    e.id == ctx.ids(n) && e.dataColeta == ctx.clock(n)
  }

  /** `after` is `before` with evidence appended and nothing else changed: no
      earlier save is undone and the log records exactly the new saves. */
  predicate Grows(before: Store, after: Store) {
    && after.investigations == before.investigations
    && after.persons == before.persons
    && after.identifiers == before.identifiers
    && |before.evidences| <= |after.evidences|
    && after.evidences[..|before.evidences|] == before.evidences
    && after.log == before.log + EvidenceEvents(after.evidences[|before.evidences|..])
  }

  /** The evidence appended between two stores. */
  function Added(before: Store, after: Store): seq<Evidence>
    requires |before.evidences| <= |after.evidences|
  {
    after.evidences[|before.evidences|..]
  }

  lemma EvidenceEventsAppend(a: seq<Evidence>, b: seq<Evidence>)
    ensures EvidenceEvents(a + b) == EvidenceEvents(a) + EvidenceEvents(b)
  {
    var l, r := EvidenceEvents(a + b), EvidenceEvents(a) + EvidenceEvents(b);
    assert |l| == |r|;
    forall j | 0 <= j < |l|
      ensures l[j] == r[j]
    {
      if j < |a| {
        assert (a + b)[j] == a[j];
      } else {
        assert (a + b)[j] == b[j - |a|];
      }
    }
  }

  /** Saving one record and then growing further is growing by that record first. */
  lemma GrowsAfterSave(st: Store, e: Evidence, after: Store)
    requires Grows(SaveEvidence(st, e), after)
    ensures Grows(st, after)
    ensures Added(st, after) == [e] + Added(SaveEvidence(st, e), after)
  {
    var s1 := SaveEvidence(st, e);
    var n := |st.evidences|;
    var all := after.evidences;
    var rest := all[n + 1..];
    assert all[..n + 1] == st.evidences + [e];
    assert all[..n] == st.evidences by {
      assert all[..n] == all[..n + 1][..n];
    }
    assert all[n..] == [e] + rest by {
      assert all[n] == (st.evidences + [e])[n];
    }
    assert after.log == s1.log + EvidenceEvents(rest);
    assert Added(st, after) == [e] + rest;
    calc {
      after.log;
      s1.log + EvidenceEvents(rest);
      st.log + [EvidenceSaved(e)] + EvidenceEvents(rest);
      { EvidenceEventsAppend([e], rest); }
      st.log + EvidenceEvents([e] + rest);
    }
  }

  /** The store only grew, and by records collected for this run. */
  predicate GrewByCollected(st: Store, ctx: Context, after: Store) {
    && Grows(st, after)
    && (forall e :: e in Added(st, after) ==> Collected(ctx, e))
  }

  /** One record was saved per result up to the first result the constructor
      refuses; the run finished exactly when no result was refused, and
      otherwise failed with the refusal of the first one. */
  predicate StoppedAtFirstRefusal(st: Store, acc: seq<Evidence>, ctx: Context,
                                  results: seq<CollectionResult>, r: Outcome<seq<Evidence>>)
    requires |st.evidences| <= |r.store.evidences|
  {
    var k := FirstUnusable(ctx, results);
    && |Added(st, r.store)| == k
    && (r.Done? <==> k == |results|)
    && (r.Failed? ==> k < |results| && r.error == Refusal(ctx, results[k]))
  }

  /** The records `es` were built from `results` pairwise, in order. */
  predicate AllMatch(es: seq<Evidence>, results: seq<CollectionResult>)
    decreases |es|
  {
    && |es| <= |results|
    && (es != [] ==> Matches(es[0], results[0]) && AllMatch(es[1..], results[1..]))
  }

  /** The records `es` are the `n`-th, `n + 1`-th, ... of a run. */
  predicate AllStamped(ctx: Context, es: seq<Evidence>, n: nat)
    decreases |es|
  {
    es != [] ==> Stamped(ctx, es[0], n) && AllStamped(ctx, es[1..], n + 1)
  }

  /** The pairing, read off at one position. */
  lemma {:induction false} AllMatchAt(es: seq<Evidence>, results: seq<CollectionResult>, j: nat)
    requires AllMatch(es, results) && j < |es|
    ensures j < |results| && Matches(es[j], results[j])
    decreases j
  {
    if j > 0 {
      AllMatchAt(es[1..], results[1..], j - 1);
      assert es[1..][j - 1] == es[j] && results[1..][j - 1] == results[j];
    }
  }

  /** The numbering, read off at one position. */
  lemma {:induction false} AllStampedAt(ctx: Context, es: seq<Evidence>, n: nat, j: nat)
    requires AllStamped(ctx, es, n) && j < |es|
    ensures Stamped(ctx, es[j], n + j)
    decreases j
  {
    if j > 0 {
      AllStampedAt(ctx, es[1..], n + 1, j - 1);
      assert es[1..][j - 1] == es[j] && n + 1 + (j - 1) == n + j;
    }
  }

  /** The saved records were built from the results in order, and a finished
      run returns the earlier records followed by the saved ones. */
  predicate BuiltInOrder(st: Store, acc: seq<Evidence>, ctx: Context,
                         results: seq<CollectionResult>, r: Outcome<seq<Evidence>>)
    requires |st.evidences| <= |r.store.evidences|
  {
    && AllMatch(Added(st, r.store), results)
    && AllStamped(ctx, Added(st, r.store), |acc|)
    && (r.Done? ==> r.value == acc + Added(st, r.store))
  }

  /** The inner loop: build and save one record per result, in order, and stop
      at the first result the constructor refuses. `acc` holds the records of
      the run so far. */
  function SaveResults(st: Store, acc: seq<Evidence>, ctx: Context, results: seq<CollectionResult>)
    : (r: Outcome<seq<Evidence>>)
    ensures GrewByCollected(st, ctx, r.store)
    ensures StoppedAtFirstRefusal(st, acc, ctx, results, r)
    ensures BuiltInOrder(st, acc, ctx, results, r)
    decreases |results|
  {
    if results == [] then
      assert Added(st, st) == [];
      Done(st, acc)
    else
      match MakeEvidence(ctx, results[0], |acc|)
      case Err(e) =>
        MakeEvidenceRefuses(ctx, results[0], |acc|);
        assert Added(st, st) == [];
        Failed(st, e)
      case Ok(ev) =>
        var r := SaveResults(SaveEvidence(st, ev), acc + [ev], ctx, results[1..]);
        StepGrows(st, ctx, results[0], |acc|, ev, r.store);
        MakeEvidenceRefuses(ctx, results[0], |acc|);
        StepStops(st, acc, ctx, results, ev, r);
        MadeMatches(ctx, results[0], |acc|, ev);
        StepInOrder(st, acc, ctx, results, ev, r);
        r
  }

  /** A record made from a result is collected for the run and matches it. */
  lemma MadeMatches(ctx: Context, res: CollectionResult, n: nat, ev: Evidence)
    requires MakeEvidence(ctx, res, n) == Ok(ev)
    ensures Collected(ctx, ev) && Matches(ev, res) && Stamped(ctx, ev, n)
  {
  }

  lemma StepGrows(st: Store, ctx: Context, res: CollectionResult, n: nat, ev: Evidence, after: Store)
    requires MakeEvidence(ctx, res, n) == Ok(ev)
    requires GrewByCollected(SaveEvidence(st, ev), ctx, after)
    ensures GrewByCollected(st, ctx, after)
    ensures Added(st, after) == [ev] + Added(SaveEvidence(st, ev), after)
  {
    GrowsAfterSave(st, ev, after);
  }

  lemma StepStops(st: Store, acc: seq<Evidence>, ctx: Context, results: seq<CollectionResult>,
                  ev: Evidence, r: Outcome<seq<Evidence>>)
    requires results != [] && Usable(ctx, results[0])
    requires |st.evidences| + 1 <= |r.store.evidences|
    requires StoppedAtFirstRefusal(SaveEvidence(st, ev), acc + [ev], ctx, results[1..], r)
    ensures StoppedAtFirstRefusal(st, acc, ctx, results, r)
  {
    var k := FirstUnusable(ctx, results[1..]);
    assert FirstUnusable(ctx, results) == 1 + k;
    if k < |results[1..]| {
      assert results[1 + k] == results[1..][k];
    }
  }

  lemma StepInOrder(st: Store, acc: seq<Evidence>, ctx: Context, results: seq<CollectionResult>,
                    ev: Evidence, r: Outcome<seq<Evidence>>)
    requires results != [] && Matches(ev, results[0]) && Stamped(ctx, ev, |acc|)
    requires |st.evidences| + 1 <= |r.store.evidences|
    requires Added(st, r.store) == [ev] + Added(SaveEvidence(st, ev), r.store)
    requires BuiltInOrder(SaveEvidence(st, ev), acc + [ev], ctx, results[1..], r)
    ensures BuiltInOrder(st, acc, ctx, results, r)
  {
    var added := Added(st, r.store);
    var rest := Added(SaveEvidence(st, ev), r.store);
    assert added[0] == ev && added[1..] == rest;
    if r.Done? {
      assert r.value == (acc + [ev]) + rest;
    }
  }

  /** The outer loop: ask the port for each identifier in turn and save its
      results; a raising port ends the run with what was saved so far. */
  function CollectFrom(st: Store, acc: seq<Evidence>, ctx: Context, idents: seq<Identifier>)
    : Outcome<seq<Evidence>>
    decreases |idents|
  {
    if idents == [] then Done(st, acc)
    else
      match ctx.osint(idents[0], ctx.sources)
      case None => Failed(st, CollectionFailed)
      case Some(results) =>
        match SaveResults(st, acc, ctx, results)
        case Failed(s, e) => Failed(s, e)
        case Done(s, acc') => CollectFrom(s, acc', ctx, idents[1..])
  }

  // ---------------------------------------------------------------------------
  // A reference definition of the loop: gather first, then save
  // ---------------------------------------------------------------------------

  /** The results the port returns for the identifiers in order, up to the first
      identifier for which it raises, and whether it never raised. */
  datatype Gathering = Gathering(results: seq<CollectionResult>, complete: bool)

  function Gather(osint: OsintPort, idents: seq<Identifier>, sources: seq<string>): Gathering
    decreases |idents|
  {
    if idents == [] then Gathering([], true)
    else
      match osint(idents[0], sources)
      case None => Gathering([], false)
      case Some(rs) =>
        var rest := Gather(osint, idents[1..], sources);
        Gathering(rs + rest.results, rest.complete)
  }

  /** The answers of the port for each identifier, asked with the same sources. */
  function Calls(osint: OsintPort, idents: seq<Identifier>, sources: seq<string>)
    : seq<Option<seq<CollectionResult>>>
  {
    seq(|idents|, i requires 0 <= i < |idents| => osint(idents[i], sources))
  }

  /** The results of successful answers, concatenated in order. */
  function Concat(answers: seq<Option<seq<CollectionResult>>>): seq<CollectionResult>
    decreases |answers|
  {
    if answers == [] then []
    else (if answers[0].Some? then answers[0].value else []) + Concat(answers[1..])
  }

  /** Gathering asks the port once per identifier, in list order, each time
      with exactly the requested sources: it is complete exactly when every
      call answers, and then its results are all answers concatenated. */
  lemma {:induction false} GatherCallsEachInOrder(osint: OsintPort, idents: seq<Identifier>,
                                                  sources: seq<string>)
    ensures Gather(osint, idents, sources).complete <==>
              forall i :: 0 <= i < |idents| ==> osint(idents[i], sources).Some?
    ensures Gather(osint, idents, sources).complete ==>
              Gather(osint, idents, sources).results == Concat(Calls(osint, idents, sources))
    decreases |idents|
  {
    if idents != [] {
      GatherCallsEachInOrder(osint, idents[1..], sources);
      assert Calls(osint, idents, sources)[1..] == Calls(osint, idents[1..], sources);
      assert forall i :: 1 <= i < |idents| ==> idents[i] == idents[1..][i - 1];
    }
  }

  /** Save every gathered result, then report a port failure if there was one. */
  function Reference(st: Store, acc: seq<Evidence>, ctx: Context, idents: seq<Identifier>)
    : Outcome<seq<Evidence>>
  {
    var g := Gather(ctx.osint, idents, ctx.sources);
    match SaveResults(st, acc, ctx, g.results)
    case Failed(s, e) => Failed(s, e)
    case Done(s, v) => if g.complete then Done(s, v) else Failed(s, CollectionFailed)
  }

  /** Saving two batches of results is saving the first and, if that finished,
      the second from where it stopped. */
  lemma {:induction false} SaveResultsAppend(st: Store, acc: seq<Evidence>, ctx: Context,
                                             a: seq<CollectionResult>, b: seq<CollectionResult>)
    ensures SaveResults(st, acc, ctx, a + b) ==
              match SaveResults(st, acc, ctx, a)
              case Failed(s, e) => Failed(s, e)
              case Done(s, v) => SaveResults(s, v, ctx, b)
    decreases |a|
  {
    if a == [] {
      assert a + b == b;
    } else {
      assert (a + b)[0] == a[0];
      assert (a + b)[1..] == a[1..] + b;
      match MakeEvidence(ctx, a[0], |acc|)
      case Err(e) =>
      case Ok(ev) =>
        SaveResultsAppend(SaveEvidence(st, ev), acc + [ev], ctx, a[1..], b);
    }
  }

  /** The loop as written equals the reference: gathering every result and then
      saving them one after another. */
  lemma {:induction false} CollectFromIsReference(st: Store, acc: seq<Evidence>, ctx: Context,
                                                  idents: seq<Identifier>)
    ensures CollectFrom(st, acc, ctx, idents) == Reference(st, acc, ctx, idents)
    decreases |idents|
  {
    if idents != [] {
      match ctx.osint(idents[0], ctx.sources)
      case None =>
      case Some(results) =>
        var rest := Gather(ctx.osint, idents[1..], ctx.sources);
        SaveResultsAppend(st, acc, ctx, results, rest.results);
        match SaveResults(st, acc, ctx, results)
        case Failed(s, e) =>
        case Done(s, acc') =>
          CollectFromIsReference(s, acc', ctx, idents[1..]);
    }
  }

  // ---------------------------------------------------------------------------
  // The use case
  // ---------------------------------------------------------------------------

  /** Every guard passes: the investigation exists, is open and planned, every
      requested source is allowed, and the person exists and belongs to it. */
  predicate Passes(st: Store, input: Input) {
    && input.investigationId in st.investigations
    && var inv := st.investigations[input.investigationId];
       && EstaAtiva(inv)
       && PlanejamentoDefinido(inv)
       && Unauthorized(input.requestedSources, AllowedSources(inv)) == {}
       && input.personId in st.persons
       && st.persons[input.personId].investigationId == inv.id
  }

  /** The context of a run that passed the guards. */
  function ContextOf(st: Store, input: Input, collector: string, osint: OsintPort,
                     ids: nat -> Uuid, clock: nat -> Timestamp, h: Hasher): Context
    requires Passes(st, input)
  {
    Context(st.investigations[input.investigationId].id, st.persons[input.personId].id,
            collector, input.requestedSources, osint, ids, clock, h)
  }

  /** The guards, in order, then the loop over the person's identifiers. The
      collector, the port and the sources of ids, instants and fingerprints are
      parameters. */
  function Execute(st: Store, input: Input, collector: string, osint: OsintPort,
                   ids: nat -> Uuid, clock: nat -> Timestamp, h: Hasher)
    : (r: Outcome<seq<Evidence>>)
    ensures input.investigationId !in st.investigations ==> r == Failed(st, InvestigationNotFound)
    ensures input.investigationId in st.investigations ==>
      var inv := st.investigations[input.investigationId];
      && (!EstaAtiva(inv) ==> r == Failed(st, InvestigationClosed))
      && (EstaAtiva(inv) && !PlanejamentoDefinido(inv) ==> r == Failed(st, NotPlanned))
      && ((EstaAtiva(inv) && PlanejamentoDefinido(inv)
           && Unauthorized(input.requestedSources, AllowedSources(inv)) != {}) ==>
            r == Failed(st, UnauthorizedSources(Unauthorized(input.requestedSources, AllowedSources(inv)))))
      && ((EstaAtiva(inv) && PlanejamentoDefinido(inv)
           && Unauthorized(input.requestedSources, AllowedSources(inv)) == {}
           && input.personId !in st.persons) ==> r == Failed(st, PersonNotFound))
      && ((EstaAtiva(inv) && PlanejamentoDefinido(inv)
           && Unauthorized(input.requestedSources, AllowedSources(inv)) == {}
           && input.personId in st.persons
           && st.persons[input.personId].investigationId != inv.id) ==>
            r == Failed(st, PersonNotInInvestigation))
    ensures !Passes(st, input) ==> r.Failed? && r.store == st
    // The run: records are only appended, each one collected for this person.
    ensures Passes(st, input) ==>
      var ctx := ContextOf(st, input, collector, osint, ids, clock, h);
      var g := Gather(osint, st.persons[input.personId].identificadores, input.requestedSources);
      var k := FirstUnusable(ctx, g.results);
      && Grows(st, r.store)
      && (forall e :: e in Added(st, r.store) ==> Collected(ctx, e))
      && |Added(st, r.store)| == k
      && AllMatch(Added(st, r.store), g.results)
      && AllStamped(ctx, Added(st, r.store), 0)
      && (r.Done? <==> g.complete && k == |g.results|)
      && (r.Done? ==> r.value == Added(st, r.store))
      && (r.Failed? && k < |g.results| ==> r.error == Refusal(ctx, g.results[k]))
      && (r.Failed? && k == |g.results| ==> r.error == CollectionFailed)
  {
    if input.investigationId !in st.investigations then Failed(st, InvestigationNotFound)
    else
      var inv := st.investigations[input.investigationId];
      if !EstaAtiva(inv) then Failed(st, InvestigationClosed)
      else if !PlanejamentoDefinido(inv) then Failed(st, NotPlanned)
      else
        var bad := Unauthorized(input.requestedSources, AllowedSources(inv));
        if bad != {} then Failed(st, UnauthorizedSources(bad))
        else if input.personId !in st.persons then Failed(st, PersonNotFound)
        else
          var person := st.persons[input.personId];
          if person.investigationId != inv.id then Failed(st, PersonNotInInvestigation)
          else
            var ctx := ContextOf(st, input, collector, osint, ids, clock, h);
            CollectFromIsReference(st, [], ctx, person.identificadores);
            CollectFrom(st, [], ctx, person.identificadores)
  }

  // ---------------------------------------------------------------------------
  // Properties
  // ---------------------------------------------------------------------------

  /** A source is refused exactly when it was requested and the plan does not
      list it; a request inside the plan, the empty one in particular, passes. */
  lemma AuthorisedIffListed(requested: seq<string>, allowed: seq<string>)
    ensures Unauthorized(requested, allowed) == {} <==> forall s :: s in requested ==> s in allowed
    ensures Unauthorized([], allowed) == {}
  {
    if exists s :: s in requested && s !in allowed {
      var s :| s in requested && s !in allowed;
      assert s in Unauthorized(requested, allowed);
    }
  }

  /** Appending evidence that satisfies the rules and points at stored entities
      keeps the store invariant. */
  lemma GrowsKeepsValid(st: Store, after: Store, h: Hasher)
    requires Valid(st, h)
    requires Grows(st, after)
    requires forall e :: e in Added(st, after) ==> EvidenceOk(st, e, h)
    ensures Valid(after, h)
  {
    forall k | k in after.investigations
      ensures InvestigationOk(after, k)
    {
      assert InvestigationOk(st, k);
    }
    forall k | k in after.persons
      ensures PersonOk(after, k)
    {
      assert PersonOk(st, k);
    }
    assert after.evidences == st.evidences + Added(st, after) by {
      assert after.evidences == after.evidences[..|st.evidences|] + Added(st, after);
    }
    forall e | e in after.evidences
      ensures EvidenceOk(after, e, h)
    {
      if e in st.evidences {
        assert EvidenceOk(st, e, h);
      } else {
        assert e in Added(st, after);
      }
    }
  }

  /** Collecting keeps the store invariant, even when the run fails part-way. */
  lemma ExecuteKeepsValid(st: Store, input: Input, collector: string, osint: OsintPort,
                          ids: nat -> Uuid, clock: nat -> Timestamp, h: Hasher)
    requires Valid(st, h)
    ensures Valid(Execute(st, input, collector, osint, ids, clock, h).store, h)
  {
    if Passes(st, input) {
      var r := Execute(st, input, collector, osint, ids, clock, h);
      var ctx := ContextOf(st, input, collector, osint, ids, clock, h);
      assert InvestigationOk(st, input.investigationId);
      assert PersonOk(st, input.personId);
      forall e | e in Added(st, r.store)
        ensures EvidenceOk(st, e, h)
      {
        assert Collected(ctx, e);
      }
      GrowsKeepsValid(st, r.store, h);
    }
  }

  /** A person without identifiers yields no evidence and no save. */
  lemma NoIdentifiersNoEvidence(st: Store, input: Input, collector: string, osint: OsintPort,
                                ids: nat -> Uuid, clock: nat -> Timestamp, h: Hasher)
    requires Passes(st, input)
    requires st.persons[input.personId].identificadores == []
    ensures Execute(st, input, collector, osint, ids, clock, h) == Done(st, [])
  {
  }
}
