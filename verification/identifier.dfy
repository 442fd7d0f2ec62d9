/** An observable attribute of a person (e-mail, phone, user name, ...): a value
    object normalised per type at construction and compared by (type, value). */
module Identifiers {
  import opened Common
  import opened Text

  /** The identifier types the rules single out; every other member of the
      closed enumeration is represented by its name. */
  datatype IdentifierType = Email | Telefone | Username | OtherType(name: string)

  datatype Identifier = Identifier(tipo: IdentifierType, valor: string, dataRegistro: Timestamp)

  /** Per-type normal form: strip; then lower-case for e-mail and user name; then
      keep only the digits for a phone number. */
  function Normalize(tipo: IdentifierType, valor: string): (r: string)
    ensures IsTrimmed(r)
  {
    var v := Trim(valor);
    var v := if tipo == Email || tipo == Username then Lower(v) else v;
    if tipo == Telefone then
      DigitsAreTrimmed(Digits(v));
      Digits(v)
    else
      LowerKeepsTrimmed(Trim(valor));
      v
  }

  /** The minimum rules a normalised value must meet for its type. */
  predicate Acceptable(tipo: IdentifierType, v: string) {
    && v != []
    && (tipo == Email ==> '@' in v)
    && (tipo == Telefone ==> |v| >= 8)
  }

  /** What every constructed identifier satisfies: its value is in normal form
      for its type and meets the type's minimum rules. */
  predicate WellFormed(i: Identifier) {
    i.valor == Normalize(i.tipo, i.valor) && Acceptable(i.tipo, i.valor)
  }

  /** The constructor: normalise, then reject an empty value, an e-mail without
      `@`, or a phone number of fewer than eight digits, in that order. */
  function NewIdentifier(tipo: IdentifierType, valor: string, now: Timestamp): (r: Result<Identifier>)
    ensures r.Ok? <==> Acceptable(tipo, Normalize(tipo, valor))
    ensures r.Ok? ==> r.value.tipo == tipo && r.value.valor == Normalize(tipo, valor)
                      && r.value.dataRegistro == now && WellFormed(r.value)
    ensures Normalize(tipo, valor) == [] ==> r == Err(IdentifierEmpty)
    ensures Normalize(tipo, valor) != [] && tipo == Email && '@' !in Normalize(tipo, valor) ==>
              r == Err(InvalidEmail)
    ensures Normalize(tipo, valor) != [] && tipo == Telefone && |Normalize(tipo, valor)| < 8 ==>
              r == Err(InvalidPhone)
  {
    var v := Normalize(tipo, valor);
    NormalizeIdempotent(tipo, valor);
    if v == [] then Err(IdentifierEmpty)
    else if tipo == Email && '@' !in v then Err(InvalidEmail)
    else if tipo == Telefone && |v| < 8 then Err(InvalidPhone)
    else Ok(Identifier(tipo, v, now))
  }

  // ---------------------------------------------------------------------------
  // Value-object equality
  // ---------------------------------------------------------------------------

  /** `__eq__`: same type and same normalised value; the registration instant
      plays no part. */
  predicate SameIdentifier(a: Identifier, b: Identifier) {
    a.tipo == b.tipo && a.valor == b.valor
  }

  /** The tuple `__hash__` hashes. */
  function Key(i: Identifier): (IdentifierType, string) {
    (i.tipo, i.valor)
  }

  /** `__hash__`, for any hash function on the key tuple. */
  function Hash(i: Identifier, hashKey: ((IdentifierType, string)) -> int): int {
    hashKey(Key(i))
  }

  // ---------------------------------------------------------------------------
  // Properties
  // ---------------------------------------------------------------------------

  /** The normal form of each type of identifier, stated on the raw input:
      e-mail and user name are stripped and lower-cased; a phone number is the
      digits of the input in order (stripping removes no digit); any other
      type is only stripped, so its case is kept. */
  lemma NormalFormByType(tipo: IdentifierType, valor: string)
    ensures tipo == Email || tipo == Username ==>
      var r := Normalize(tipo, valor);
      r == Lower(Trim(valor)) && NoUpper(r) && IsTrimmed(r)
    ensures tipo == Telefone ==> Normalize(tipo, valor) == Digits(valor)
    ensures tipo.OtherType? ==> Normalize(tipo, valor) == Trim(valor)
  {
    DigitsIgnoreTrim(valor);
  }

  /** Normalising a value already in normal form for its type returns it unchanged. */
  lemma NormalizeIdempotent(tipo: IdentifierType, valor: string)
    ensures Normalize(tipo, Normalize(tipo, valor)) == Normalize(tipo, valor)
  {
    var t := Trim(valor);
    var n := Normalize(tipo, valor);
    TrimFixesTrimmed(n);
    if tipo == Telefone {
      assert Digits(Digits(t)) == Digits(t);
    } else if tipo == Email || tipo == Username {
      LowerIdempotent(t);
    }
  }

  /** Stripping removes no `@`. */
  lemma AtSurvivesTrim(valor: string)
    ensures '@' in Trim(valor) <==> '@' in valor
  {
    var t := Trim(valor);
    var i, j := TrimIsInfix(valor);
    if '@' in valor {
      var k :| 0 <= k < |valor| && valor[k] == '@';
      assert t[k - i] == '@';
    }
    if '@' in t {
      var k :| 0 <= k < |t| && t[k] == '@';
      assert valor[i + k] == '@';
    }
  }

  /** A phone number is accepted exactly when the raw input holds at least eight
      digits, wherever they stand. */
  lemma PhoneAcceptance(valor: string, now: Timestamp)
    ensures NewIdentifier(Telefone, valor, now).Ok? <==> |Digits(valor)| >= 8
  {
    NormalFormByType(Telefone, valor);
  }

  /** An e-mail is accepted exactly when the raw input is not blank and holds an `@`. */
  lemma EmailAcceptance(valor: string, now: Timestamp)
    ensures NewIdentifier(Email, valor, now).Ok? <==> !AllSpace(valor) && '@' in valor
  {
    TrimEmptyIffBlank(valor);
    LowerKeepsNonLetters(Trim(valor), '@');
    AtSurvivesTrim(valor);
  }

  /** Any type other than e-mail and phone is accepted exactly when the raw input
      is not blank. */
  lemma OtherAcceptance(tipo: IdentifierType, valor: string, now: Timestamp)
    requires tipo != Email && tipo != Telefone
    ensures NewIdentifier(tipo, valor, now).Ok? <==> !AllSpace(valor)
  {
    TrimEmptyIffBlank(valor);
  }

  /** Identifier equality is an equivalence relation. */
  lemma SameIdentifierIsEquivalence(a: Identifier, b: Identifier, c: Identifier)
    ensures SameIdentifier(a, a)
    ensures SameIdentifier(a, b) ==> SameIdentifier(b, a)
    ensures SameIdentifier(a, b) && SameIdentifier(b, c) ==> SameIdentifier(a, c)
  {
  }

  /** Equality and the hash depend only on (type, value): equal identifiers have
      equal keys and equal hashes under any hash function, and moving the
      registration instant changes neither. */
  lemma EqualityIgnoresRegistration(a: Identifier, b: Identifier, t: Timestamp,
                                    hashKey: ((IdentifierType, string)) -> int)
    ensures SameIdentifier(a, b) <==> Key(a) == Key(b)
    ensures SameIdentifier(a, b) ==> Hash(a, hashKey) == Hash(b, hashKey)
    ensures SameIdentifier(a, a.(dataRegistro := t))
    ensures Hash(a.(dataRegistro := t), hashKey) == Hash(a, hashKey)
  {
  }

  /** Two inputs with the same normal form build equal identifiers, whatever
      their registration instants, or are both refused with the same error. */
  lemma SameNormalFormSameIdentifier(tipo: IdentifierType, a: string, b: string,
                                     t1: Timestamp, t2: Timestamp)
    requires Normalize(tipo, a) == Normalize(tipo, b)
    ensures NewIdentifier(tipo, a, t1).Ok? <==> NewIdentifier(tipo, b, t2).Ok?
    ensures NewIdentifier(tipo, a, t1).Ok? ==>
              SameIdentifier(NewIdentifier(tipo, a, t1).value, NewIdentifier(tipo, b, t2).value)
    ensures NewIdentifier(tipo, a, t1).Err? ==>
              NewIdentifier(tipo, a, t1).error == NewIdentifier(tipo, b, t2).error
  {
  }

  /** E-mail addresses that differ only in letter case and in the white space
      around them build equal identifiers. */
  lemma EmailIgnoresCaseAndPadding(a: string, b: string, t1: Timestamp, t2: Timestamp)
    requires Lower(Trim(a)) == Lower(Trim(b))
    ensures NewIdentifier(Email, a, t1).Ok? <==> NewIdentifier(Email, b, t2).Ok?
    ensures NewIdentifier(Email, a, t1).Ok? ==>
              SameIdentifier(NewIdentifier(Email, a, t1).value, NewIdentifier(Email, b, t2).value)
  {
    NormalFormByType(Email, a);
    NormalFormByType(Email, b);
    SameNormalFormSameIdentifier(Email, a, b, t1, t2);
  }
}
