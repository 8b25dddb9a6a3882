/** The form's label and error-message table: a built-in English default for
    each of its 18 keys, overridden key by key by whatever the caller supplies. */
module Translations {
  import CardTypes

  /** The keys of `TranslationsNonNull`. */
  datatype Key =
    | CardNumber
    | CardHolderName
    | NameSurname
    | MmYY
    | Expiration
    | SecurityCode
    | ZipCode
    | Next
    | Done
    | CardNumberRequired
    | CardNumberInvalid
    | CardHolderNameRequired
    | CardHolderNameInvalid
    | ExpirationRequired
    | ExpirationInvalid
    | SecurityCodeRequired
    | SecurityCodeInvalid
    | ZipCodeRequired

  /** A caller's `Translations` object: any subset of the keys may be present. */
  type Table = map<Key, string>

  /** A `TranslationsNonNull` value: every key is present. */
  ghost predicate Complete(t: Table) {
    forall k: Key :: k in t
  }

  /** The built-in English table. */
  function Defaults(): (d: Table)
    ensures Complete(d)
  {
    var d := map[
      CardNumber := "Card Number",
      CardHolderName := "Name on card",
      NameSurname := "Name Surname",
      MmYY := "MM/YY",
      Expiration := "Expiration date (MM/YY)",
      SecurityCode := "CVV",
      ZipCode := "Zip code",
      Next := "Next",
      Done := "Done",
      CardNumberRequired := "Card number is required.",
      CardNumberInvalid := "This card number looks invalid.",
      CardHolderNameRequired := "Cardholder name is required.",
      CardHolderNameInvalid := "This cardholder name looks invalid.",
      ExpirationRequired := "Expiration date is required.",
      ExpirationInvalid := "This expiration date looks invalid.",
      SecurityCodeRequired := "Security code is required.",
      SecurityCodeInvalid := "This security date looks invalid.",
      ZipCodeRequired := "Zip code is required."
    ];
    assert forall k: Key :: k in d <== (
      || k.CardNumber? || k.CardHolderName? || k.NameSurname? || k.MmYY?
      || k.Expiration? || k.SecurityCode? || k.ZipCode? || k.Next? || k.Done?
      || k.CardNumberRequired? || k.CardNumberInvalid? || k.CardHolderNameRequired?
      || k.CardHolderNameInvalid? || k.ExpirationRequired? || k.ExpirationInvalid?
      || k.SecurityCodeRequired? || k.SecurityCodeInvalid? || k.ZipCodeRequired?);
    d
  }

  /** The override actually used: an omitted argument stands for `{}`. */
  function Supplied(translations: CardTypes.Option<Table>): (t: Table)
    ensures translations.Some? ==> t == translations.value
    ensures translations.None? ==> t == map[]
  {
    match translations
    case None => map[]
    case Some(t) => t
  }

  /** `getTranslations`: the default table with the caller's keys spread over it. */
  function GetTranslations(translations: CardTypes.Option<Table>): (r: Table)
    ensures Complete(r)
    ensures forall k :: k in Supplied(translations) ==> r[k] == Supplied(translations)[k]
    ensures forall k :: k !in Supplied(translations) ==> r[k] == Defaults()[k]
  {
    Defaults() + Supplied(translations)
  }

  /** Called without an argument, the result is the English table. */
  lemma NoArgumentGivesDefaults()
    ensures GetTranslations(CardTypes.None) == Defaults()
  {
  }

  /** Passing `{}` is the same as passing nothing. */
  lemma EmptyOverrideIsNoArgument()
    ensures GetTranslations(CardTypes.Some(map[])) == GetTranslations(CardTypes.None)
  {
  }

  /** Feeding a result back in changes nothing. */
  lemma GetTranslationsIdempotent(translations: CardTypes.Option<Table>)
    ensures GetTranslations(CardTypes.Some(GetTranslations(translations))) == GetTranslations(translations)
  {
  }

  /** A complete override replaces the whole table. */
  lemma CompleteOverrideReplacesDefaults(t: Table)
    requires Complete(t)
    ensures GetTranslations(CardTypes.Some(t)) == t
  {
  }

  /** The merge is per key: two overrides that agree on a key give results
      that agree on that key, whatever the other keys hold. */
  lemma PerKeyMerge(a: CardTypes.Option<Table>, b: CardTypes.Option<Table>, k: Key)
    requires k in Supplied(a) <==> k in Supplied(b)
    requires k in Supplied(a) ==> Supplied(a)[k] == Supplied(b)[k]
    ensures GetTranslations(a)[k] == GetTranslations(b)[k]
  {
  }
}
