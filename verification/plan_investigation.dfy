/** Use case: record the collection plan of an open investigation, once. */
module PlanInvestigation {
  import opened Common
  import opened Investigations
  import opened Repositories
  import Evidences

  datatype Input = Input(
    investigationId: Uuid,
    objective: string,
    scope: string,
    allowedSources: seq<string>,
    legalNotes: Option<string>)

  /** The investigation as the plan step leaves it. */
  function Planned(inv: Investigation, input: Input): Investigation {
    DefinirPlanejamento(inv, input.objective, input.scope, input.allowedSources, input.legalNotes)
  }

  /** Look the investigation up, refuse it when missing, closed or already planned
      (in that order), then record the plan and save it. */
  function Execute(st: Store, input: Input): (r: Outcome<()>)
    ensures input.investigationId !in st.investigations ==> r == Failed(st, InvestigationNotFound)
    ensures input.investigationId in st.investigations ==>
      var inv := st.investigations[input.investigationId];
      && (!EstaAtiva(inv) ==> r == Failed(st, InvestigationClosed))
      && (EstaAtiva(inv) && PlanejamentoDefinido(inv) ==> r == Failed(st, AlreadyPlanned))
      && (r.Done? <==> EstaAtiva(inv) && !PlanejamentoDefinido(inv))
      && (r.Done? ==>
            inv.id in r.store.investigations &&
            var saved := r.store.investigations[inv.id];
            && r.store == SaveInvestigation(st, saved)
            && r.store.log == st.log + [InvestigationSaved(saved)]
            && saved.planejamento == Some(Planning(input.objective, input.scope,
                                                   input.allowedSources, input.legalNotes))
            && SameContent(saved, inv) && EstaAtiva(saved))
    ensures r.Failed? ==> r.store == st
  {
    if input.investigationId !in st.investigations then Failed(st, InvestigationNotFound)
    else
      var inv := st.investigations[input.investigationId];
      if !EstaAtiva(inv) then Failed(st, InvestigationClosed)
      else if PlanejamentoDefinido(inv) then Failed(st, AlreadyPlanned)
      else Done(SaveInvestigation(st, Planned(inv, input)), ())
  }

  /** Planning happens at most once: after a successful plan, planning the same
      investigation again fails, whatever the new arguments. */
  lemma PlanAtMostOnce(st: Store, first: Input, second: Input)
    requires Keyed(st)
    requires Execute(st, first).Done?
    requires second.investigationId == first.investigationId
    ensures Execute(Execute(st, first).store, second) == Failed(Execute(st, first).store, AlreadyPlanned)
  {
  }

  /** Planning keeps the store invariant. */
  lemma ExecuteKeepsValid(st: Store, input: Input, h: Evidences.Hasher)
    requires Valid(st, h)
    ensures Valid(Execute(st, input).store, h)
  {
    var r := Execute(st, input);
    if r.Done? {
      var inv := st.investigations[input.investigationId];
      assert InvestigationOk(st, input.investigationId);
      SaveInvestigationKeepsValid(st, Planned(inv, input), h);
    }
  }
}
