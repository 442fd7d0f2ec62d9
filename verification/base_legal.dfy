/** The legal ground an investigation rests on: a value object drawn from a closed
    subset of the bases for processing personal data listed in Article 7 of
    Brazil's general data-protection law (LGPD, Lei 13.709/2018). */
module LegalBasis {
  import opened Common
  import opened Text

  datatype LegalBasisType =
    | Consentimento
    | LegitimoInteresse
    | ObrigacaoLegal
    | ExercicioRegularDireito
    | ProtecaoCredito

  datatype BaseLegal = BaseLegal(
    fundamento: LegalBasisType,
    descricao: string,
    consentimento: bool,
    dataRegistro: Timestamp)

  /** The consent flag a caller gets when it passes none. */
  const DefaultConsent: bool := false

  /** What every constructed legal basis satisfies. */
  predicate WellFormed(b: BaseLegal) {
    && b.descricao != []
    && IsTrimmed(b.descricao)
    && (b.fundamento == Consentimento ==> b.consentimento)
  }

  /** The constructor: the description is stored stripped; a blank description is
      rejected first, then a consent ground without explicit consent. */
  function NewBaseLegal(fundamento: LegalBasisType, descricao: string, consentimento: bool,
                        now: Timestamp): (r: Result<BaseLegal>)
    ensures AllSpace(descricao) ==> r == Err(LegalBasisDescriptionBlank)
    ensures !AllSpace(descricao) && fundamento == Consentimento && !consentimento ==>
              r == Err(ConsentRequired)
    ensures r.Ok? <==> !AllSpace(descricao) && (fundamento == Consentimento ==> consentimento)
    ensures r.Ok? ==> && r.value.fundamento == fundamento
                      && r.value.descricao == Trim(descricao)
                      && r.value.consentimento == consentimento
                      && r.value.dataRegistro == now
                      && WellFormed(r.value)
  {
    var d := Trim(descricao);
    TrimEmptyIffBlank(descricao);
    if d == [] then Err(LegalBasisDescriptionBlank)
    else if fundamento == Consentimento && !consentimento then Err(ConsentRequired)
    else Ok(BaseLegal(fundamento, d, consentimento, now))
  }

  /** `is_valida`: a constructed legal basis is always valid. */
  function IsValida(b: BaseLegal): bool {
    true
  }

  /** `__eq__`: ground, description and consent flag; the registration instant
      plays no part. */
  predicate SameBaseLegal(a: BaseLegal, b: BaseLegal) {
    a.fundamento == b.fundamento && a.descricao == b.descricao && a.consentimento == b.consentimento
  }

  // ---------------------------------------------------------------------------
  // Properties
  // ---------------------------------------------------------------------------

  /** The consent ground is refused without explicit consent, which is also what
      a caller gets by default. */
  lemma ConsentGroundNeedsConsent(descricao: string, now: Timestamp)
    ensures NewBaseLegal(Consentimento, descricao, DefaultConsent, now).Err?
    ensures !AllSpace(descricao) ==>
              NewBaseLegal(Consentimento, descricao, true, now).Ok?
  {
  }

  /** Every ground other than consent accepts either value of the consent flag,
      and the two results differ only in that flag. */
  lemma OtherGroundsIgnoreConsent(fundamento: LegalBasisType, descricao: string, now: Timestamp)
    requires fundamento != Consentimento
    ensures NewBaseLegal(fundamento, descricao, true, now).Ok? <==>
            NewBaseLegal(fundamento, descricao, false, now).Ok?
    ensures NewBaseLegal(fundamento, descricao, false, now).Ok? ==>
            NewBaseLegal(fundamento, descricao, true, now).value ==
            NewBaseLegal(fundamento, descricao, false, now).value.(consentimento := true)
  {
  }

  /** `is_valida` holds of every successfully constructed legal basis, and so
      does the structural invariant. */
  lemma ConstructedIsValid(fundamento: LegalBasisType, descricao: string, consentimento: bool,
                           now: Timestamp)
    ensures NewBaseLegal(fundamento, descricao, consentimento, now).Ok? ==>
              var b := NewBaseLegal(fundamento, descricao, consentimento, now).value;
              IsValida(b) && WellFormed(b)
  {
  }

  /** Equality ignores the registration instant and the surrounding white space
      of the description: two constructions that differ only there are equal. */
  lemma EqualityIgnoresRegistration(fundamento: LegalBasisType, d1: string, d2: string,
                                    consentimento: bool, t1: Timestamp, t2: Timestamp)
    requires Trim(d1) == Trim(d2)
    requires NewBaseLegal(fundamento, d1, consentimento, t1).Ok?
    ensures NewBaseLegal(fundamento, d2, consentimento, t2).Ok?
    ensures SameBaseLegal(NewBaseLegal(fundamento, d1, consentimento, t1).value,
                          NewBaseLegal(fundamento, d2, consentimento, t2).value)
  {
    TrimEmptyIffBlank(d1);
    TrimEmptyIffBlank(d2);
  }

  /** The three consent examples: consent ground without consent fails, with
      consent succeeds; legal obligation without consent succeeds. */
  lemma ConsentExamples(now: Timestamp)
    ensures NewBaseLegal(Consentimento, "desc", false, now).Err?
    ensures NewBaseLegal(Consentimento, "desc", true, now).Ok?
    ensures NewBaseLegal(ObrigacaoLegal, "desc", false, now).Ok?
  {
    assert !IsSpace("desc"[0]);
  }
}
