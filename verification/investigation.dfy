/** The investigation (case file): the aggregate root that owns the legal basis,
    the one-time collection plan and the two-state lifecycle ABERTA -> ENCERRADA. */
module Investigations {
  import opened Common
  import opened Text
  import LegalBasis

  datatype InvestigationStatus = Aberta | Encerrada

  /** The collection plan: objective, scope, the sources collection may use, and
      optional legal notes. */
  datatype Planning = Planning(
    objective: string,
    scope: string,
    allowedSources: seq<string>,
    legalNotes: Option<string>)

  datatype Investigation = Investigation(
    id: Uuid,
    titulo: string,
    objetivo: string,
    baseLegal: LegalBasis.BaseLegal,
    status: InvestigationStatus,
    dataCriacao: Timestamp,
    dataEncerramento: Option<Timestamp>,
    planejamento: Option<Planning>)

  /** What every investigation the domain builds and changes satisfies: title and
      objective stored stripped and non-empty, a closing instant exactly when it
      is closed. */
  predicate WellFormed(inv: Investigation) {
    && inv.titulo != [] && IsTrimmed(inv.titulo)
    && inv.objetivo != [] && IsTrimmed(inv.objetivo)
    && (inv.status == Encerrada <==> inv.dataEncerramento.Some?)
  }

  /** `esta_ativa`. */
  predicate EstaAtiva(inv: Investigation) {
    inv.status == Aberta
  }

  /** `planejamento_definido`: the plan has been recorded. */
  predicate PlanejamentoDefinido(inv: Investigation) {
    inv.planejamento.Some?
  }

  /** `allowed_sources` of a planned investigation. */
  function AllowedSources(inv: Investigation): seq<string>
    requires PlanejamentoDefinido(inv)
  {
    inv.planejamento.value.allowedSources
  }

  /** The constructor: title and objective are stored stripped; a blank title is
      rejected first, then a blank objective. A new investigation is open, has no
      closing instant and no plan. */
  function NewInvestigation(titulo: string, objetivo: string, baseLegal: LegalBasis.BaseLegal,
                            id: Uuid, now: Timestamp): (r: Result<Investigation>)
    ensures AllSpace(titulo) ==> r == Err(TitleBlank)
    ensures !AllSpace(titulo) && AllSpace(objetivo) ==> r == Err(ObjectiveBlank)
    ensures r.Ok? <==> !AllSpace(titulo) && !AllSpace(objetivo)
    ensures r.Ok? ==> && r.value.id == id
                      && r.value.titulo == Trim(titulo)
                      && r.value.objetivo == Trim(objetivo)
                      && r.value.baseLegal == baseLegal
                      && r.value.dataCriacao == now
                      && EstaAtiva(r.value)
                      && r.value.dataEncerramento == None
                      && !PlanejamentoDefinido(r.value)
                      && WellFormed(r.value)
  {
    TrimEmptyIffBlank(titulo);
    TrimEmptyIffBlank(objetivo);
    var t := Trim(titulo);
    var o := Trim(objetivo);
    if t == [] then Err(TitleBlank)
    else if o == [] then Err(ObjectiveBlank)
    else Ok(Investigation(id, t, o, baseLegal, Aberta, now, None, None))
  }

  /** `encerrar`: closing an open investigation stamps the closing instant and
      touches nothing else; closing a closed one fails. */
  function Encerrar(inv: Investigation, now: Timestamp): (r: Result<Investigation>)
    ensures inv.status == Encerrada ==> r == Err(AlreadyClosed)
    ensures inv.status == Aberta ==> r.Ok?
    ensures r.Ok? ==> && r.value.status == Encerrada
                      && r.value.dataEncerramento == Some(now)
                      && SameContent(inv, r.value)
                      && r.value.planejamento == inv.planejamento
  {
    if inv.status == Encerrada then Err(AlreadyClosed)
    else Ok(inv.(status := Encerrada, dataEncerramento := Some(now)))
  }

  /** `definir_planejamento`: records the plan exactly as given (no validation of
      its own) and touches nothing else. */
  function DefinirPlanejamento(inv: Investigation, objective: string, scope: string,
                               allowedSources: seq<string>, legalNotes: Option<string>)
    : (r: Investigation)
    ensures PlanejamentoDefinido(r)
    ensures r.planejamento.value == Planning(objective, scope, allowedSources, legalNotes)
    ensures SameContent(inv, r) && r.status == inv.status && r.dataEncerramento == inv.dataEncerramento
  {
    inv.(planejamento := Some(Planning(objective, scope, allowedSources, legalNotes)))
  }

  /** Identity, title, objective, legal basis and creation instant agree. */
  predicate SameContent(a: Investigation, b: Investigation) {
    && a.id == b.id && a.titulo == b.titulo && a.objetivo == b.objetivo
    && a.baseLegal == b.baseLegal && a.dataCriacao == b.dataCriacao
  }

  // ---------------------------------------------------------------------------
  // Properties
  // ---------------------------------------------------------------------------

  /** A well-formed investigation is active exactly when it has no closing instant. */
  lemma ActiveIffNotClosed(inv: Investigation)
    requires WellFormed(inv)
    ensures EstaAtiva(inv) <==> inv.dataEncerramento == None
  {
  }

  /** Both operations keep an investigation well-formed. */
  lemma OperationsKeepWellFormed(inv: Investigation, now: Timestamp, objective: string,
                                 scope: string, sources: seq<string>, notes: Option<string>)
    requires WellFormed(inv)
    ensures Encerrar(inv, now).Ok? ==> WellFormed(Encerrar(inv, now).value)
    ensures WellFormed(DefinirPlanejamento(inv, objective, scope, sources, notes))
  {
  }

  /** There is no way back: no operation turns a closed investigation into an open
      one, and closing is refused a second time. */
  lemma ClosedIsTerminal(inv: Investigation, now: Timestamp, later: Timestamp, objective: string,
                         scope: string, sources: seq<string>, notes: Option<string>)
    ensures inv.status == Encerrada ==>
              DefinirPlanejamento(inv, objective, scope, sources, notes).status == Encerrada
    ensures Encerrar(inv, now).Ok? ==> Encerrar(Encerrar(inv, now).value, later) == Err(AlreadyClosed)
  {
  }
}
