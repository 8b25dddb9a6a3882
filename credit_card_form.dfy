/** The credit-card form component: the rules each input is given, the
    defaulting of fonts and style overrides, and the sequencer that validates
    the focused input and moves focus to the next one. */
module CreditCardForm {
  import opened CardTypes
  import Tr = Translations

  // ---------------------------------------------------------------------
  // Layout mode at mount

  /** The values of `Platform.OS`. */
  datatype PlatformOS = IOS | Android | Windows | MacOS | Web

  /** Initial `isHorizontal`: the paged layout is used only on iOS, and only
      when `horizontalStart` (true when omitted) asks for it. */
  function InitialHorizontal(horizontalStart: Option<bool>, os: PlatformOS): (r: bool)
    ensures r <==> os == IOS && horizontalStart != Some(false)
  {
    var start := match horizontalStart case None => true case Some(b) => b;
    start && os == IOS
  }

  // ---------------------------------------------------------------------
  // Per-input rules

  /** `cvvLength`: four digits for an American Express card, three otherwise. */
  function CvvLength(isAmex: bool): (n: nat)
    ensures n == 4 <==> isAmex
    ensures n == 3 <==> !isAmex
  {
    if isAmex then 4 else 3
  }

  /** The `maxLength` prop of each input: every input has one, the holder
      name's being the longest, and only the security code's depends on the
      brand. */
  function MaxLength(f: CardField, isAmex: bool): (n: nat)
    ensures 0 < n <= 100
    ensures f == CVV ==> n == CvvLength(isAmex)
    ensures n == 100 <==> f == CardHolderName
    ensures f == CVV <==> n < 5
  {
    match f
    case CardNumber => 19
    case CardHolderName => 100
    case Expiration => 5
    case CVV => CvvLength(isAmex)
    case ZipCode => 10
  }

  /** Which prop of an input calls `goNext`. */
  datatype Handler = OnValid | OnSubmitEditing

  /** The wiring of `goNext` to the inputs: as the component has it, where the
      zip-code input calls nothing, or corrected, where submitting the zip
      code calls `goNext` as submitting the holder name does. */
  datatype Wiring = AsWritten | Corrected

  function AdvanceHandler(w: Wiring, f: CardField): (r: Option<Handler>)
    // the zip code, as written, is the one input that never calls `goNext`
    ensures r.None? <==> w.AsWritten? && f == ZipCode
    // the holder name and, corrected, the zip code advance on submit; the
    // others when they reach their validation length
    ensures r == Some(OnSubmitEditing) <==> f == CardHolderName || (w == Corrected && f == ZipCode)
  {
    match f
    case CardNumber => Some(OnValid)
    case CardHolderName => Some(OnSubmitEditing)
    case Expiration => Some(OnValid)
    case CVV => Some(OnValid)
    case ZipCode => if w == Corrected then Some(OnSubmitEditing) else None
  }

  /** The `validationLength` prop: the input length at which the input checks
      itself and, when valid, fires `onValid`. */
  function ValidationLength(f: CardField, isAmex: bool): (r: Option<nat>)
    // present exactly on the inputs that advance through `onValid`
    ensures forall w: Wiring :: r.Some? <==> AdvanceHandler(w, f) == Some(OnValid)
    // never more than the input can hold
    ensures r.Some? ==> 0 < r.value <= MaxLength(f, isAmex)
    // the security code advances once it is full
    ensures f == CVV ==> r == Some(MaxLength(CVV, isAmex))
    // the card number needs 18 characters for American Express, 19 otherwise
    ensures f == CardNumber ==> (r == Some(18) <==> isAmex) && (r == Some(19) <==> !isAmex)
  {
    match f
    case CardNumber => Some(if isAmex then 18 else 19)
    case CardHolderName => None
    case Expiration => Some(5)
    case CVV => Some(CvvLength(isAmex))
    case ZipCode => None
  }

  /** The minimum length of the zip code. */
  const ZIP_MIN_LENGTH: nat := 2

  /** The `minLength` rule: only the zip code has one. */
  function MinLength(f: CardField): (r: Option<nat>)
    ensures r.Some? <==> f == ZipCode
    ensures r.Some? ==> r.value <= MaxLength(f, false) && r.value <= MaxLength(f, true)
  {
    if f == ZipCode then Some(ZIP_MIN_LENGTH) else None
  }

  const ZIP_MIN_LENGTH_MESSAGE :=
    "Enter a zip code with at least 2 characters and at most 10 characters containing letters, digits, spaces and - only."

  /** The message of the `minLength` rule, a literal with no translation key,
      given where the rule's minimum is 2 and the input's maximum is 10. */
  function MinLengthMessage(f: CardField): (r: Option<string>)
    ensures r.Some? <==> MinLength(f).Some?
    ensures r.Some? ==> MinLength(f) == Some(2) && MaxLength(f, false) == 10 && MaxLength(f, true) == 10
    ensures r.Some? ==> forall k: Tr.Key :: r.value != Tr.Defaults()[k]
  {
    if f == ZipCode then Some(ZIP_MIN_LENGTH_MESSAGE) else None
  }

  /** The brand changes the security code's two lengths and the card
      number's validation length, and nothing else. */
  lemma LengthRules(isAmex: bool)
    ensures MaxLength(CardNumber, isAmex) == 19
    ensures MaxLength(CVV, isAmex) == (if isAmex then 4 else 3)
    ensures ValidationLength(CVV, isAmex) == Some(if isAmex then 4 else 3)
    ensures ValidationLength(CardNumber, isAmex) == Some(if isAmex then 18 else 19)
    ensures ValidationLength(Expiration, isAmex) == Some(5) && MaxLength(Expiration, isAmex) == 5
    ensures forall f: CardField :: f != CVV ==> MaxLength(f, isAmex) == MaxLength(f, !isAmex)
    ensures forall f: CardField :: f != CVV && f != CardNumber ==>
      ValidationLength(f, isAmex) == ValidationLength(f, !isAmex)
  {
  }

  // ---------------------------------------------------------------------
  // Error messages of the rules

  const HOLDER_NAME_INVALID := "This cardholder name looks invalid."
  const SECURITY_CODE_REQUIRED := "Security code is required."
  const SECURITY_CODE_INVALID := "This security code looks invalid."

  /** The translation key of each input's "required" message. */
  function RequiredKey(f: CardField): (k: Tr.Key) {
    match f
    case CardNumber => Tr.CardNumberRequired
    case CardHolderName => Tr.CardHolderNameRequired
    case Expiration => Tr.ExpirationRequired
    case CVV => Tr.SecurityCodeRequired
    case ZipCode => Tr.ZipCodeRequired
  }

  /** The translation key of each input's "invalid" message; the zip code has
      no validity check. */
  function InvalidKey(f: CardField): (k: Option<Tr.Key>) {
    match f
    case CardNumber => Some(Tr.CardNumberInvalid)
    case CardHolderName => Some(Tr.CardHolderNameInvalid)
    case Expiration => Some(Tr.ExpirationInvalid)
    case CVV => Some(Tr.SecurityCodeInvalid)
    case ZipCode => None
  }

  /** The "required" message as the component has it: the security code's is
      a literal. */
  function RequiredMessageAsWritten(f: CardField, tr: Tr.Table): (r: string)
    requires Tr.Complete(tr)
    ensures f != CVV ==> r == tr[RequiredKey(f)]
    ensures f == CVV ==> r == SECURITY_CODE_REQUIRED
  {
    match f
    case CardNumber => tr[Tr.CardNumberRequired]
    case CardHolderName => tr[Tr.CardHolderNameRequired]
    case Expiration => tr[Tr.ExpirationRequired]
    case CVV => SECURITY_CODE_REQUIRED
    case ZipCode => tr[Tr.ZipCodeRequired]
  }

  /** The "invalid" message as the component has it: the holder name's and the
      security code's are literals. */
  function InvalidMessageAsWritten(f: CardField, tr: Tr.Table): (r: Option<string>)
    requires Tr.Complete(tr)
    ensures r.None? <==> InvalidKey(f).None?
    ensures f == CardNumber || f == Expiration ==> r == Some(tr[InvalidKey(f).value])
    ensures f == CardHolderName ==> r == Some(HOLDER_NAME_INVALID)
    ensures f == CVV ==> r == Some(SECURITY_CODE_INVALID)
  {
    match f
    case CardNumber => Some(tr[Tr.CardNumberInvalid])
    case CardHolderName => Some(HOLDER_NAME_INVALID)
    case Expiration => Some(tr[Tr.ExpirationInvalid])
    case CVV => Some(SECURITY_CODE_INVALID)
    case ZipCode => None
  }

  /** The "required" message taken from the translation table for every input. */
  function RequiredMessage(f: CardField, tr: Tr.Table): (m: string)
    requires Tr.Complete(tr)
  {
    tr[RequiredKey(f)]
  }

  /** The "invalid" message taken from the translation table for every input. */
  function InvalidMessage(f: CardField, tr: Tr.Table): (m: Option<string>)
    requires Tr.Complete(tr)
  {
    match InvalidKey(f)
    case None => None
    case Some(k) => Some(tr[k])
  }

  /** Every message shown is the caller's translation when one is supplied
      and the English default otherwise. */
  lemma MessagesFollowTranslations(f: CardField, overrides: Tr.Table)
    ensures var tr := Tr.GetTranslations(Some(overrides));
      RequiredMessage(f, tr) ==
        (if RequiredKey(f) in overrides then overrides[RequiredKey(f)] else Tr.Defaults()[RequiredKey(f)])
    ensures InvalidKey(f).Some? ==>
      var tr := Tr.GetTranslations(Some(overrides));
      var k := InvalidKey(f).value;
      InvalidMessage(f, tr) == Some(if k in overrides then overrides[k] else Tr.Defaults()[k])
    ensures InvalidKey(f).None? ==> InvalidMessage(f, Tr.GetTranslations(Some(overrides))) == None
  {
  }

  /** With the English table the corrected messages are the ones shown today,
      except the security code's "invalid" message, whose default text reads
      "security date". */
  lemma CorrectedMessagesAgreeOnDefaults(f: CardField)
    ensures RequiredMessage(f, Tr.Defaults()) == RequiredMessageAsWritten(f, Tr.Defaults())
    ensures f != CVV ==> InvalidMessage(f, Tr.Defaults()) == InvalidMessageAsWritten(f, Tr.Defaults())
    ensures InvalidMessage(CVV, Tr.Defaults()) != InvalidMessageAsWritten(CVV, Tr.Defaults())
  {
  }

  /** As written, a caller's translations of the holder name's "invalid" and the
      security code's "required" and "invalid" messages never reach the form. */
  lemma AsWrittenIgnoresMessageOverrides()
    ensures var o := map[
        Tr.CardHolderNameInvalid := "Nom invalide",
        Tr.SecurityCodeRequired := "Code requis",
        Tr.SecurityCodeInvalid := "Code invalide"];
      var tr := Tr.GetTranslations(Some(o));
      && InvalidMessageAsWritten(CardHolderName, tr) == Some(HOLDER_NAME_INVALID)
      && RequiredMessageAsWritten(CVV, tr) == SECURITY_CODE_REQUIRED
      && InvalidMessageAsWritten(CVV, tr) == Some(SECURITY_CODE_INVALID)
      && InvalidMessage(CardHolderName, tr) == Some("Nom invalide")
      && RequiredMessage(CVV, tr) == "Code requis"
      && InvalidMessage(CVV, tr) == Some("Code invalide")
  {
  }

  // ---------------------------------------------------------------------
  // Fonts and style overrides handed to the inputs

  /** The optional `fonts` prop. */
  datatype Fonts = Fonts(regular: Option<string>, bold: Option<string>)

  /** The fonts the inputs are rendered with. */
  datatype ResolvedFonts = ResolvedFonts(regular: string, bold: string)

  const DEFAULT_REGULAR_FONT := "RobotoMono_400Regular"
  const DEFAULT_BOLD_FONT := "RobotoMono_700Bold"

  /** JavaScript's `s || fallback` for an optional string: a missing or empty
      string gives the fallback. */
  function OrElse(s: Option<string>, fallback: string): (r: string)
    ensures s.Some? && s.value != "" ==> r == s.value
    ensures s.None? || s.value == "" ==> r == fallback
  {
    match s
    case Some(v) => if v != "" then v else fallback
    case None => fallback
  }

  /** `props.fonts?.regular`: absent when the `fonts` prop is. */
  function RegularGiven(fonts: Option<Fonts>): (r: Option<string>)
    ensures fonts.None? ==> r.None?
    ensures fonts.Some? ==> r == fonts.value.regular
  {
    match fonts case None => None case Some(f) => f.regular
  }

  /** `props.fonts?.bold`: absent when the `fonts` prop is. */
  function BoldGiven(fonts: Option<Fonts>): (r: Option<string>)
    ensures fonts.None? ==> r.None?
    ensures fonts.Some? ==> r == fonts.value.bold
  {
    match fonts case None => None case Some(f) => f.bold
  }

  /** Each font is the caller's when given and non-empty, the Roboto Mono
      default otherwise; neither is ever empty. */
  function ResolveFonts(fonts: Option<Fonts>): (r: ResolvedFonts)
    ensures r.regular != "" && r.bold != ""
    ensures RegularGiven(fonts).Some? && RegularGiven(fonts).value != "" ==> r.regular == RegularGiven(fonts).value
    ensures RegularGiven(fonts).None? || RegularGiven(fonts).value == "" ==> r.regular == DEFAULT_REGULAR_FONT
    ensures BoldGiven(fonts).Some? && BoldGiven(fonts).value != "" ==> r.bold == BoldGiven(fonts).value
    ensures BoldGiven(fonts).None? || BoldGiven(fonts).value == "" ==> r.bold == DEFAULT_BOLD_FONT
  {
    ResolvedFonts(
      OrElse(RegularGiven(fonts), DEFAULT_REGULAR_FONT),
      OrElse(BoldGiven(fonts), DEFAULT_BOLD_FONT))
  }

  /** Resolving fonts that are already resolved changes nothing. */
  lemma ResolveFontsIdempotent(fonts: Option<Fonts>)
    ensures var r := ResolveFonts(fonts);
      ResolveFonts(Some(Fonts(Some(r.regular), Some(r.bold)))) == r
  {
  }

  /** The style slots of the `overrides` prop. */
  datatype OverrideSlot =
    | CardPreview | LabelText | CardHolderPreview | ExpirationPreview | Outline
    | Input | LabelContainer | InputLabel | ErrorText

  /** `props.overrides || {}`: an absent object becomes the empty one. */
  function ResolveOverrides<S>(overrides: Option<map<OverrideSlot, S>>): (r: map<OverrideSlot, S>)
    ensures overrides.Some? ==> r == overrides.value
    ensures overrides.None? ==> r == map[]
  {
    match overrides
    case None => map[]
    case Some(o) => o
  }

  /** The props of the component that reach the shared library context. */
  datatype LibraryProps<S> = LibraryProps(
    horizontalStart: Option<bool>,
    translations: Option<Tr.Table>,
    fonts: Option<Fonts>,
    overrides: Option<map<OverrideSlot, S>>)

  /** The value the component provides to its inputs. */
  datatype ContextValue<S> = ContextValue(
    overrides: map<OverrideSlot, S>,
    fonts: ResolvedFonts,
    translations: Tr.Table)

  /** The overrides, fonts and translations are each defaulted on their own. */
  function LibraryContextValue<S>(props: LibraryProps<S>): (v: ContextValue<S>)
    ensures Tr.Complete(v.translations)
    ensures v.fonts.regular != "" && v.fonts.bold != ""
    ensures props.overrides.None? ==> v.overrides == map[]
    ensures props.translations.None? ==> v.translations == Tr.Defaults()
    // each field is its own prop, defaulted on its own
    ensures v.overrides == ResolveOverrides(props.overrides)
    ensures v.fonts == ResolveFonts(props.fonts)
    ensures v.translations == Tr.GetTranslations(props.translations)
  {
    Tr.NoArgumentGivesDefaults();
    ContextValue(
      ResolveOverrides(props.overrides),
      ResolveFonts(props.fonts),
      Tr.GetTranslations(props.translations))
  }

  // ---------------------------------------------------------------------
  // The focus sequencer

  /** What `goNext` asks of the outside world, in order: validate a form key
      (`trigger`), scroll the paged view, focus an input, hide the keyboard. */
  datatype Effect =
    | Validate(formKey: string)
    | ScrollTo(x: real)
    | RequestFocus(field: CardField)
    | DismissKeyboard

  /** The component's `focusedField` and `isHorizontal`. */
  datatype SequencerState = SequencerState(focused: Option<CardField>, horizontal: bool)

  /** A new state together with the effects requested on the way there. */
  datatype Transition = Transition(state: SequencerState, effects: seq<Effect>)

  /** The horizontal padding around an input: 36 on each side. */
  const INPUT_PADDING: real := 72.0

  /** The width of one input, and of one page of the paged layout: the window
      less the padding on both sides. Widths are JavaScript numbers, so they
      may be fractional. */
  function InputWidth(windowWidth: real): (w: real)
    ensures 36.0 + w + 36.0 == windowWidth
  {
    windowWidth - INPUT_PADDING
  }

  /** Where the page after `f`'s begins in the paged layout: one input width
      per page. */
  function PageOffset(f: CardField, inputWidth: real): (x: real)
    ensures f == CardNumber ==> x == inputWidth
  {
    (Ordinal(f) + 1) as real * inputWidth
  }

  /** Each step of the sequence scrolls exactly one page further. */
  lemma PageOffsetsAdvanceByOnePage(f: CardField, inputWidth: real)
    requires f != ZipCode
    ensures PageOffset(Successor(f).value, inputWidth) == PageOffset(f, inputWidth) + inputWidth
  {
  }

  /** The list of form keys that `goNext` indexes by the focused field. */
  function FieldNames(): (names: seq<string>)
    ensures |names| == 5
    ensures forall f: CardField :: names[Ordinal(f)] == FormKey(f)
  {
    ["cardNumber", "holderName", "expiration", "cvv", "zipCode"]
  }

  /** The list of input refs that `goNext` indexes by the focused field plus
      one; each ref stands for the input it is attached to. */
  function InputRefs(): (refs: seq<CardField>)
    ensures |refs| == 5
    ensures forall f: CardField :: refs[Ordinal(f)] == f
  {
    [CardNumber, CardHolderName, Expiration, CVV, ZipCode]
  }

  /** The ref one past a field's own is that of its successor. */
  lemma NextRefIsSuccessor(f: CardField)
    requires f != ZipCode
    ensures Ordinal(f) + 1 < |InputRefs()|
    ensures InputRefs()[Ordinal(f) + 1] == Successor(f).value
  {
  }

  /** `goNext`, given the awaited result of validating the focused input
      (consulted only in the paged layout) and the current input width. */
  function Advance(s: SequencerState, valid: bool, inputWidth: real): (r: Transition)
    // with no focused field nothing at all happens
    ensures s.focused.None? ==> r == Transition(s, [])
    // the paged layout is only ever switched off
    ensures r.state.horizontal ==> s.horizontal
    // a field other than the zip code leaves the state as it was
    ensures s.focused.Some? && s.focused != Some(ZipCode) ==> r.state == s
    // the keyboard is dismissed only when leaving the zip code
    ensures DismissKeyboard in r.effects ==> s.focused == Some(ZipCode)
    // the free-scroll layout neither validates nor scrolls
    ensures !s.horizontal ==> forall e | e in r.effects :: !e.Validate? && !e.ScrollTo?
    // the paged layout first asks to validate the focused field's form key
    ensures s.focused.Some? && s.horizontal ==>
      |r.effects| > 0 && r.effects[0] == Validate(FormKey(s.focused.value))
    // ... and, when it is invalid, stops there
    ensures s.focused.Some? && s.horizontal && !valid ==>
      r == Transition(s, [Validate(FormKey(s.focused.value))])
    // ... and, when it is valid, scrolls to the next page before anything else
    ensures s.focused.Some? && s.horizontal && valid ==>
      |r.effects| == 3 && r.effects[1] == ScrollTo(PageOffset(s.focused.value, inputWidth))
    // leaving the zip code ends the sequence and the paged layout, focusing nothing
    ensures s.focused == Some(ZipCode) && (valid || !s.horizontal) ==>
      && r.state == SequencerState(None, false)
      && |r.effects| > 0 && r.effects[|r.effects| - 1] == DismissKeyboard
      && forall e | e in r.effects :: !e.RequestFocus?
    // ... and in the free-scroll layout it only dismisses the keyboard
    ensures s.focused == Some(ZipCode) && !s.horizontal ==> |r.effects| == 1 && r.effects[0] == DismissKeyboard
    // leaving any other field focuses its successor, once, as the last request
    ensures s.focused.Some? && s.focused != Some(ZipCode) && (valid || !s.horizontal) ==>
      && |r.effects| > 0
      && r.effects[|r.effects| - 1] == RequestFocus(Successor(s.focused.value).value)
      && forall i | 0 <= i < |r.effects| - 1 :: !r.effects[i].RequestFocus?
  {
    match s.focused
    case None => Transition(s, [])
    case Some(f) =>
      var field := FieldNames()[Ordinal(f)];
      if s.horizontal && !valid then
        Transition(s, [Validate(field)])
      else
        var paging := if s.horizontal then [Validate(field), ScrollTo(PageOffset(f, inputWidth))] else [];
        if f == ZipCode then
          Transition(SequencerState(None, false), paging + [DismissKeyboard])
        else
          NextRefIsSuccessor(f);
          Transition(s, paging + [RequestFocus(InputRefs()[Ordinal(f) + 1])])
  }

  /** The component's sequencing state and the effects it has requested. */
  class FormController {
    var focusedField: Option<CardField>
    var isHorizontal: bool
    var inputWidth: real
    var effects: seq<Effect>
    /** `isHorizontal` as it was at mount. */
    ghost const horizontalAtMount: bool

    /** The paged layout is never entered after mount. */
    ghost predicate Valid()
      reads this
    {
      isHorizontal ==> horizontalAtMount
    }

    function State(): SequencerState
      reads this
    {
      SequencerState(focusedField, isHorizontal)
    }

    /** Mounting: nothing focused yet, layout mode from the props and platform. */
    constructor (horizontalStart: Option<bool>, os: PlatformOS, windowWidth: real)
      ensures Valid()
      ensures focusedField == None
      ensures isHorizontal == InitialHorizontal(horizontalStart, os)
      ensures horizontalAtMount == isHorizontal
      ensures inputWidth == InputWidth(windowWidth)
      ensures effects == []
    {
      focusedField := None;
      isHorizontal := InitialHorizontal(horizontalStart, os);
      horizontalAtMount := InitialHorizontal(horizontalStart, os);
      inputWidth := InputWidth(windowWidth);
      effects := [];
    }

    /** The mount effect: focus the card-number input. */
    method Mount()
      requires Valid()
      modifies this`effects
      ensures Valid()
      ensures effects == old(effects) + [RequestFocus(CardNumber)]
    {
      effects := effects + [RequestFocus(CardNumber)];
    }

    /** A new window width. */
    method Resize(windowWidth: real)
      requires Valid()
      modifies this`inputWidth
      ensures Valid()
      ensures inputWidth == InputWidth(windowWidth)
    {
      inputWidth := InputWidth(windowWidth);
    }

    /** An input's `onFocus`: it becomes the focused field, nothing else changes. */
    method OnFocus(f: CardField)
      requires Valid()
      modifies this`focusedField
      ensures Valid()
      ensures focusedField == Some(f)
    {
      focusedField := Some(f);
    }

    /** `goNext`, in its three phases: validate (paged layout only), scroll
        (paged layout only), then either finish or focus the next input. */
    method GoNext(valid: bool)
      requires Valid()
      modifies this`focusedField, this`isHorizontal, this`effects
      ensures Valid()
      ensures State() == Advance(old(State()), valid, inputWidth).state
      ensures effects == old(effects) + Advance(old(State()), valid, inputWidth).effects
    {
      if focusedField.None? {
        return;
      }
      var f := focusedField.value;
      var field := FieldNames()[Ordinal(f)];
      ghost var paging: seq<Effect> := [];
      if isHorizontal {
        effects := effects + [Validate(field)];
        if !valid {
          return;
        }
        effects := effects + [ScrollTo(PageOffset(f, inputWidth))];
        paging := [Validate(field), ScrollTo(PageOffset(f, inputWidth))];
      }
      assert effects == old(effects) + paging;
      if f == ZipCode {
        focusedField := None;
        isHorizontal := false;
        effects := effects + [DismissKeyboard];
        return;
      }
      var refs := InputRefs();
      effects := effects + [RequestFocus(refs[Ordinal(f) + 1])];
    }
  }

  // ---------------------------------------------------------------------
  // Runs of events

  /** What the user does: focus an input (by tapping it or because focus was
      requested), or complete one (reach its validation length, or submit it),
      together with the awaited validation result. */
  datatype Event = FocusGained(field: CardField) | FieldCompleted(field: CardField, valid: bool)

  /** One event: a focus sets the focused field; completing an input calls
      `goNext` when the input is wired to it. */
  function Step(w: Wiring, s: SequencerState, e: Event, inputWidth: real): (r: Transition)
    ensures r.state.horizontal ==> s.horizontal
    ensures e.FocusGained? ==> r == Transition(SequencerState(Some(e.field), s.horizontal), [])
    ensures e.FieldCompleted? && AdvanceHandler(w, e.field).None? ==> r == Transition(s, [])
    ensures e.FieldCompleted? && AdvanceHandler(w, e.field).Some? ==> r == Advance(s, e.valid, inputWidth)
  {
    match e
    case FocusGained(f) => Transition(SequencerState(Some(f), s.horizontal), [])
    case FieldCompleted(f, valid) =>
      if AdvanceHandler(w, f).Some? then Advance(s, valid, inputWidth) else Transition(s, [])
  }

  /** A run of events from a state: the final state and every effect, in order. */
  function Run(w: Wiring, s: SequencerState, events: seq<Event>, inputWidth: real): (r: Transition)
    decreases |events|
  {
    if events == [] then Transition(s, [])
    else
      var first := Step(w, s, events[0], inputWidth);
      var rest := Run(w, first.state, events[1..], inputWidth);
      Transition(rest.state, first.effects + rest.effects)
  }

  /** Running two stretches of events one after the other. */
  lemma {:induction false} RunAppend(w: Wiring, s: SequencerState, a: seq<Event>, b: seq<Event>, inputWidth: real)
    ensures var ra := Run(w, s, a, inputWidth);
      var rb := Run(w, ra.state, b, inputWidth);
      Run(w, s, a + b, inputWidth) == Transition(rb.state, ra.effects + rb.effects)
    decreases |a|
  {
    if a == [] {
      assert a + b == b;
    } else {
      assert (a + b)[0] == a[0];
      assert (a + b)[1..] == a[1..] + b;
      var first := Step(w, s, a[0], inputWidth);
      RunAppend(w, first.state, a[1..], b, inputWidth);
      var ra := Run(w, first.state, a[1..], inputWidth);
      var rb := Run(w, ra.state, b, inputWidth);
      assert first.effects + (ra.effects + rb.effects) == (first.effects + ra.effects) + rb.effects;
    }
  }

  /** Once the paged layout is left, no run of events brings it back. */
  lemma {:induction false} RunNeverReentersPagedMode(w: Wiring, s: SequencerState, events: seq<Event>, inputWidth: real)
    ensures Run(w, s, events, inputWidth).state.horizontal ==> s.horizontal
    decreases |events|
  {
    if events != [] {
      var first := Step(w, s, events[0], inputWidth);
      RunNeverReentersPagedMode(w, first.state, events[1..], inputWidth);
    }
  }

  /** In the free-scroll layout no run of events validates or scrolls. */
  lemma {:induction false} FreeScrollNeverValidatesOrScrolls(w: Wiring, s: SequencerState, events: seq<Event>, inputWidth: real)
    requires !s.horizontal
    ensures forall e | e in Run(w, s, events, inputWidth).effects :: !e.Validate? && !e.ScrollTo?
    decreases |events|
  {
    if events != [] {
      var first := Step(w, s, events[0], inputWidth);
      FreeScrollNeverValidatesOrScrolls(w, first.state, events[1..], inputWidth);
      var rest := Run(w, first.state, events[1..], inputWidth);
      assert Run(w, s, events, inputWidth).effects == first.effects + rest.effects;
    }
  }

  /** The user completes only the input that has focus. */
  ghost predicate Attentive(w: Wiring, s: SequencerState, events: seq<Event>, inputWidth: real)
    decreases |events|
  {
    events == [] ||
    ((events[0].FieldCompleted? ==> s.focused == Some(events[0].field)) &&
     Attentive(w, Step(w, s, events[0], inputWidth).state, events[1..], inputWidth))
  }

  /** The first stretch of an attentive run leaves an attentive rest. */
  lemma {:induction false} AttentiveSuffix(w: Wiring, s: SequencerState, a: seq<Event>, b: seq<Event>, inputWidth: real)
    requires Attentive(w, s, a + b, inputWidth)
    ensures Attentive(w, Run(w, s, a, inputWidth).state, b, inputWidth)
    decreases |a|
  {
    if a == [] {
      assert a + b == b;
    } else {
      assert (a + b)[0] == a[0];
      assert (a + b)[1..] == a[1..] + b;
      AttentiveSuffix(w, Step(w, s, a[0], inputWidth).state, a[1..], b, inputWidth);
    }
  }

  /** As wired in the component, no attentive run ever takes `goNext`'s
      zip-code branch: the layout mode never changes and the keyboard is
      never dismissed. */
  lemma {:induction false} AsWrittenNeverLeavesPagedMode(s: SequencerState, events: seq<Event>, inputWidth: real)
    requires Attentive(AsWritten, s, events, inputWidth)
    ensures Run(AsWritten, s, events, inputWidth).state.horizontal == s.horizontal
    ensures DismissKeyboard !in Run(AsWritten, s, events, inputWidth).effects
    decreases |events|
  {
    if events != [] {
      var first := Step(AsWritten, s, events[0], inputWidth);
      assert first.state.horizontal == s.horizontal;
      assert DismissKeyboard !in first.effects;
      AsWrittenNeverLeavesPagedMode(first.state, events[1..], inputWidth);
      var rest := Run(AsWritten, first.state, events[1..], inputWidth);
      assert Run(AsWritten, s, events, inputWidth).effects == first.effects + rest.effects;
    }
  }

  /** With the zip code's submit wired to `goNext`, an attentive run that ends
      by submitting a valid zip code ends the sequence and the paged layout,
      whatever came before. */
  lemma {:induction false} CorrectedZipSubmitEndsSequence(s: SequencerState, events: seq<Event>, inputWidth: real)
    requires Attentive(Corrected, s, events + [FieldCompleted(ZipCode, true)], inputWidth)
    ensures Run(Corrected, s, events + [FieldCompleted(ZipCode, true)], inputWidth).state == SequencerState(None, false)
  {
    var last := [FieldCompleted(ZipCode, true)];
    RunAppend(Corrected, s, events, last, inputWidth);
    var mid := Run(Corrected, s, events, inputWidth).state;
    AttentiveSuffix(Corrected, s, events, last, inputWidth);
    assert mid.focused == Some(ZipCode);
    assert Run(Corrected, mid, last, inputWidth).state == Advance(mid, true, inputWidth).state;
  }

  /** Filling in the five inputs one after the other, each valid. */
  function FillInAll(): (events: seq<Event>) {
    [ FocusGained(CardNumber), FieldCompleted(CardNumber, true),
      FocusGained(CardHolderName), FieldCompleted(CardHolderName, true),
      FocusGained(Expiration), FieldCompleted(Expiration, true),
      FocusGained(CVV), FieldCompleted(CVV, true),
      FocusGained(ZipCode), FieldCompleted(ZipCode, true) ]
  }

  /** As written, filling in the whole form in the paged layout leaves the
      zip code focused and the layout paged. */
  lemma AsWrittenFillInStaysPaged(inputWidth: real)
    ensures Attentive(AsWritten, SequencerState(None, true), FillInAll(), inputWidth)
    ensures Run(AsWritten, SequencerState(None, true), FillInAll(), inputWidth).state
      == SequencerState(Some(ZipCode), true)
  {
    var evs := FillInAll();
    var zip := SequencerState(Some(ZipCode), true);
    assert Run(AsWritten, zip, evs[9..], inputWidth).state == zip;
    assert Run(AsWritten, zip, evs[8..], inputWidth).state == zip;
    var cvv := SequencerState(Some(CVV), true);
    assert Run(AsWritten, cvv, evs[7..], inputWidth).state == zip;
    assert Run(AsWritten, cvv, evs[6..], inputWidth).state == zip;
    var exp := SequencerState(Some(Expiration), true);
    assert Run(AsWritten, exp, evs[5..], inputWidth).state == zip;
    assert Run(AsWritten, exp, evs[4..], inputWidth).state == zip;
    var holder := SequencerState(Some(CardHolderName), true);
    assert Run(AsWritten, holder, evs[3..], inputWidth).state == zip;
    assert Run(AsWritten, holder, evs[2..], inputWidth).state == zip;
    var card := SequencerState(Some(CardNumber), true);
    assert Run(AsWritten, card, evs[1..], inputWidth).state == zip;
    assert Attentive(AsWritten, zip, evs[9..], inputWidth);
    assert Attentive(AsWritten, zip, evs[8..], inputWidth);
    assert Attentive(AsWritten, cvv, evs[7..], inputWidth);
    assert Attentive(AsWritten, cvv, evs[6..], inputWidth);
    assert Attentive(AsWritten, exp, evs[5..], inputWidth);
    assert Attentive(AsWritten, exp, evs[4..], inputWidth);
    assert Attentive(AsWritten, holder, evs[3..], inputWidth);
    assert Attentive(AsWritten, holder, evs[2..], inputWidth);
    assert Attentive(AsWritten, card, evs[1..], inputWidth);
  }

  /** Corrected, the same run ends the sequence and leaves the paged layout. */
  lemma CorrectedFillInCompletes(inputWidth: real)
    ensures Run(Corrected, SequencerState(None, true), FillInAll(), inputWidth).state
      == SequencerState(None, false)
  {
  }
}
