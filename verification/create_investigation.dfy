/** Use case: open a new investigation under a legal basis. */
module CreateInvestigation {
  import opened Common
  import opened Text
  import opened LegalBasis
  import opened Investigations
  import opened Repositories
  import Evidences

  datatype Input = Input(
    titulo: string,
    objetivo: string,
    fundamentoLegal: LegalBasisType,
    descricaoBaseLegal: string,
    consentimento: bool)

  /** The legal-basis part of the input is acceptable. */
  predicate BasisAccepted(input: Input) {
    !AllSpace(input.descricaoBaseLegal) && (input.fundamentoLegal == Consentimento ==> input.consentimento)
  }

  /** Build the legal basis, then the investigation, then save it. The new
      investigation's id and the instant both constructors stamp are inputs. */
  function Execute(st: Store, input: Input, id: Uuid, now: Timestamp): (r: Outcome<Investigation>)
    // Guards, in order; each failure leaves the repositories and the log untouched.
    ensures AllSpace(input.descricaoBaseLegal) ==> r == Failed(st, LegalBasisDescriptionBlank)
    ensures (!AllSpace(input.descricaoBaseLegal) && input.fundamentoLegal == Consentimento
             && !input.consentimento) ==> r == Failed(st, ConsentRequired)
    ensures (BasisAccepted(input) && AllSpace(input.titulo)) ==> r == Failed(st, TitleBlank)
    ensures (BasisAccepted(input) && !AllSpace(input.titulo) && AllSpace(input.objetivo)) ==>
              r == Failed(st, ObjectiveBlank)
    ensures r.Failed? ==> r.store == st
    ensures r.Done? <==> BasisAccepted(input) && !AllSpace(input.titulo) && !AllSpace(input.objetivo)
    // Effect: exactly one save, of the investigation that is returned.
    ensures r.Done? ==> && r.store == SaveInvestigation(st, r.value)
                        && r.store.log == st.log + [InvestigationSaved(r.value)]
                        && r.value.id == id
                        && r.value.titulo == Trim(input.titulo)
                        && r.value.objetivo == Trim(input.objetivo)
                        && EstaAtiva(r.value) && !PlanejamentoDefinido(r.value)
                        && r.value.dataEncerramento == None
                        && r.value.baseLegal.fundamento == input.fundamentoLegal
                        && r.value.baseLegal.descricao == Trim(input.descricaoBaseLegal)
                        && r.value.baseLegal.consentimento == input.consentimento
  {
    match NewBaseLegal(input.fundamentoLegal, input.descricaoBaseLegal, input.consentimento, now)
    case Err(e) => Failed(st, e)
    case Ok(baseLegal) =>
      match NewInvestigation(input.titulo, input.objetivo, baseLegal, id, now)
      case Err(e) => Failed(st, e)
      case Ok(inv) => Done(SaveInvestigation(st, inv), inv)
  }

  /** Creating keeps the store invariant. */
  lemma ExecuteKeepsValid(st: Store, input: Input, id: Uuid, now: Timestamp, h: Evidences.Hasher)
    requires Valid(st, h)
    ensures Valid(Execute(st, input, id, now).store, h)
  {
    var r := Execute(st, input, id, now);
    if r.Done? {
      SaveInvestigationKeepsValid(st, r.value, h);
    }
  }
}
