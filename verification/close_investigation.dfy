/** Use case: close a planned, open investigation for good. */
module CloseInvestigation {
  import opened Common
  import opened Investigations
  import opened Repositories
  import Evidences

  /** Look the investigation up, refuse it when missing, already closed or never
      planned (in that order), then close it and save it. The closing instant is
      an input. */
  function Execute(st: Store, investigationId: Uuid, now: Timestamp): (r: Outcome<()>)
    ensures investigationId !in st.investigations ==> r == Failed(st, InvestigationNotFound)
    ensures investigationId in st.investigations ==>
      var inv := st.investigations[investigationId];
      && (!EstaAtiva(inv) ==> r == Failed(st, InvestigationClosed))
      && (EstaAtiva(inv) && !PlanejamentoDefinido(inv) ==> r == Failed(st, NotPlanned))
      && (r.Done? <==> EstaAtiva(inv) && PlanejamentoDefinido(inv))
      && (r.Done? ==>
            inv.id in r.store.investigations &&
            var saved := r.store.investigations[inv.id];
            && r.store == SaveInvestigation(st, saved)
            && r.store.log == st.log + [InvestigationSaved(saved)]
            && saved.status == Encerrada && saved.dataEncerramento == Some(now)
            && SameContent(saved, inv) && saved.planejamento == inv.planejamento)
    ensures r.Failed? ==> r.store == st
  {
    if investigationId !in st.investigations then Failed(st, InvestigationNotFound)
    else
      var inv := st.investigations[investigationId];
      if !EstaAtiva(inv) then Failed(st, InvestigationClosed)
      else if !PlanejamentoDefinido(inv) then Failed(st, NotPlanned)
      else
        match Encerrar(inv, now)
        case Err(e) => assert false; Failed(st, e)
        case Ok(closed) => Done(SaveInvestigation(st, closed), ())
  }

  /** A successful close followed by a second close fails, and the second attempt
      changes nothing. */
  lemma CloseTwiceFails(st: Store, investigationId: Uuid, now: Timestamp, later: Timestamp)
    requires Keyed(st)
    requires Execute(st, investigationId, now).Done?
    ensures var s := Execute(st, investigationId, now).store;
            Execute(s, investigationId, later) == Failed(s, InvestigationClosed)
  {
  }

  /** Closing keeps the store invariant; in particular a closed investigation is
      always a planned one. */
  lemma ExecuteKeepsValid(st: Store, investigationId: Uuid, now: Timestamp, h: Evidences.Hasher)
    requires Valid(st, h)
    ensures Valid(Execute(st, investigationId, now).store, h)
  {
    var r := Execute(st, investigationId, now);
    if r.Done? {
      var inv := st.investigations[investigationId];
      assert InvestigationOk(st, investigationId);
      SaveInvestigationKeepsValid(st, Encerrar(inv, now).value, h);
    }
  }
}
