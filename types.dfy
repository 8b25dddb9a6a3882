/** Types shared by the credit-card form and its translation table. */
module CardTypes {

  /** A value that may be absent (`undefined` / `null` in the component's props). */
  datatype Option<+T> = None | Some(value: T)

  /** The `CardFields` enum: the five inputs of the form, in declaration order. */
  datatype CardField = CardNumber | CardHolderName | Expiration | CVV | ZipCode

  /** The number TypeScript gives each enum member: its position in the declaration. */
  function Ordinal(f: CardField): (n: nat)
    ensures n < 5
    ensures f == ZipCode <==> n == 4
  {
    match f
    case CardNumber => 0
    case CardHolderName => 1
    case Expiration => 2
    case CVV => 3
    case ZipCode => 4
  }

  /** The fields of the `FormModel` interface, the form's stored values. */
  const FORM_MODEL_KEYS: set<string> := {"holderName", "cardNumber", "expiration", "cvv", "zipCode"}

  /** The name under which each input is registered with the form state
      (the `name` prop of its text field). */
  function FormKey(f: CardField): (k: string)
    ensures k in FORM_MODEL_KEYS
  {
    match f
    case CardNumber => "cardNumber"
    case CardHolderName => "holderName"
    case Expiration => "expiration"
    case CVV => "cvv"
    case ZipCode => "zipCode"
  }

  /** No two inputs share a form key, and every `FormModel` field belongs to
      an input. */
  lemma FormKeyInjective(f: CardField, g: CardField)
    ensures FormKey(f) == FormKey(g) ==> f == g
    ensures forall k | k in FORM_MODEL_KEYS :: exists h: CardField :: FormKey(h) == k
  {
    assert FormKey(CardNumber) == "cardNumber" && FormKey(CardHolderName) == "holderName";
    assert FormKey(Expiration) == "expiration" && FormKey(CVV) == "cvv" && FormKey(ZipCode) == "zipCode";
  }

  /** The field that follows `f` in the advance order, none after the zip code.
      Defined by cases, independently of the ordinals. */
  function Successor(f: CardField): (r: Option<CardField>)
    ensures r.None? <==> f == ZipCode
    ensures r.Some? ==> Ordinal(r.value) == Ordinal(f) + 1
  {
    match f
    case CardNumber => Some(CardHolderName)
    case CardHolderName => Some(Expiration)
    case Expiration => Some(CVV)
    case CVV => Some(ZipCode)
    case ZipCode => None
  }
}
