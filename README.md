# rn-credit-card: the focus sequencer and the translation table, in Dafny

This project models the logic inside the `CreditCardForm` React Native component of
rn-credit-card. It does not model the rendering. The five inputs are card number,
holder name, expiration date, security code (CVV) and zip code. Two pieces of state
drive them:

- `focusedField`: the input that has focus, or none.
- `isHorizontal`: true while the form is in the paged layout, where one input is shown
  per page.

The model has three parts:

- **The sequencer** (`goNext`, `onFocus` and the mount effect). It validates the
  focused input, scrolls the paged view one page on, and requests focus on the next
  input. After the zip code it ends the sequence and switches the paged layout off.
  The awaited result of the form library's `trigger` call is a parameter. The
  requests to the outside world are recorded as effects, in order: validate, scroll,
  focus, dismiss the keyboard.
- **The per-input configuration**:
  - The brand-dependent lengths: CVV 4 or 3, card-number validation length 18 or 19.
    Whether the card is American Express is an input.
  - The required and invalid messages.
  - The defaulting of fonts and style overrides.
- **`getTranslations`**: a default English table of 18 keys, with the caller's keys
  spread over it.

Files:

- `types.dfy` (module `CardTypes`) holds the `CardFields` enum, its ordinals, the form
  keys and the advance order.
- `translations.dfy` (module `Translations`) holds the key set, the default table,
  `GetTranslations` and its lemmas.
- `credit_card_form.dfy` (module `CreditCardForm`) holds:
  - the configuration functions;
  - the spec function `Advance`, which is `goNext` as a function of the state;
  - the class `FormController`, whose methods are the component's events, each proved
    against `Advance` or its direct effect;
  - lemmas over runs of events.

How the code behaves at the points where a reader might expect otherwise:

- `focusedField` starts as `null`. The mount effect requests focus on the card-number
  input, whose `onFocus` then sets it. `FormController.constructor` and
  `FormController.Mount` model this.
- `scrollTo` and `focus()` are issued one after the other, without waiting for the
  scroll. The model records them as two ordered effects.
- Any input's `onFocus` can set `focusedField`. Only `goNext`'s own focus requests
  follow the order, and `Advance` proves that they always target the successor.
- The zip-code input calls nothing when it is completed or submitted (see Findings).
- Window width, input width and scroll offsets are JavaScript numbers and may be
  fractional. The model uses `real` for them.

## Model

| member | source | states |
|---|---|---|
| `CardTypes.Ordinal` | src/types.ts:11-17 | every field's ordinal is below 5, and it is 4 exactly for the zip code |
| `CardTypes.Successor` | src/types.ts:11-17 | only the zip code has no successor; every other field's successor has the next ordinal |
| `CardTypes.FormKey` | src/components/CreditCardForm.tsx:116-213 | each input is registered under one of the `FormModel` fields (src/types.ts:3-9) |
| `CardTypes.FormKeyInjective` | src/types.ts:3-9 | no two inputs are registered under the same form key, and every `FormModel` field belongs to an input |
| `Translations.Defaults` | src/utils/translations.ts:6-24 | the English table defines all 18 keys |
| `Translations.Supplied` | src/utils/translations.ts:4 | an omitted argument is the empty override, a given one is used as it is |
| `Translations.GetTranslations` | src/utils/translations.ts:3-27 | the result defines every key; a key the caller supplies keeps the caller's text; any other key has its English default |
| `Translations.NoArgumentGivesDefaults` | src/utils/translations.ts:4-24 | called with no argument, the result is the English table |
| `Translations.EmptyOverrideIsNoArgument` | src/utils/translations.ts:4 | passing `{}` gives the same table as passing nothing |
| `Translations.GetTranslationsIdempotent` | src/utils/translations.ts:6-25 | feeding a result back in gives the same result |
| `Translations.CompleteOverrideReplacesDefaults` | src/utils/translations.ts:25 | an override that defines every key is returned unchanged |
| `Translations.PerKeyMerge` | src/utils/translations.ts:25 | each key of the result depends only on that key of the override |
| `CreditCardForm.InitialHorizontal` | src/components/CreditCardForm.tsx:25-35 | the paged layout starts on exactly when the platform is iOS and `horizontalStart` is not false (it defaults to true) |
| `CreditCardForm.CvvLength` | src/components/CreditCardForm.tsx:30-31 | the security code is 4 characters exactly for American Express, otherwise 3 |
| `CreditCardForm.MaxLength` | src/components/CreditCardForm.tsx:119-223 | every input has a maximum length of at most 100; the holder name alone has 100; the CVV's is `cvvLength` and it alone is below 5 |
| `CreditCardForm.AdvanceHandler` | src/components/CreditCardForm.tsx:134-226 | as written, the zip code is the only input wired to nothing; the holder name advances on submit, the card number, expiration and CVV on `onValid`; the corrected wiring adds the zip code's submit |
| `CreditCardForm.ValidationLength` | src/components/CreditCardForm.tsx:119-194 | exactly the inputs that advance through `onValid` have a validation length; it is never more than the input's maximum; the CVV's equals its maximum; the card number's is 18 exactly for American Express and 19 otherwise |
| `CreditCardForm.MinLength` | src/components/CreditCardForm.tsx:217-220 | only the zip code has a minimum length, and it fits within the zip code's maximum |
| `CreditCardForm.MinLengthMessage` | src/components/CreditCardForm.tsx:217-220 | only the zip code has a minimum-length message; where it has one, the rule's minimum is 2 and the input's maximum is 10; the message is none of the translation table's texts |
| `CreditCardForm.LengthRules` | src/components/CreditCardForm.tsx:119-194 | the card number's maximum is 19 for every brand; the CVV's maximum and validation length are 4 or 3; the brand changes no other length |
| `CreditCardForm.RequiredMessageAsWritten` | src/components/CreditCardForm.tsx:122-216 | as written, every required message but the CVV's is the table's text for that input's key; the CVV's is a literal |
| `CreditCardForm.InvalidMessageAsWritten` | src/components/CreditCardForm.tsx:127-201 | as written, the zip code has no invalid message; the card number's and expiration's come from the table; the holder name's and the CVV's are literals |
| `CreditCardForm.MessagesFollowTranslations` | src/components/CreditCardForm.tsx:121-216 | with the corrected rules, each required or invalid message is the caller's translation when one is given and the English default otherwise |
| `CreditCardForm.CorrectedMessagesAgreeOnDefaults` | src/components/CreditCardForm.tsx:143-205 | with the English table, the corrected messages equal the ones the component shows, except the CVV's invalid message |
| `CreditCardForm.AsWrittenIgnoresMessageOverrides` | src/components/CreditCardForm.tsx:143-205 | as written, overrides of the holder name's invalid message and of the CVV's required and invalid messages do not reach the form; the corrected rules show them |
| `CreditCardForm.OrElse` | src/components/CreditCardForm.tsx:97-98 | JavaScript `||` on a string: a missing or empty string gives the fallback, any other string is kept |
| `CreditCardForm.RegularGiven` | src/components/CreditCardForm.tsx:97 | `props.fonts?.regular`: absent when `fonts` is, otherwise the caller's regular font as given |
| `CreditCardForm.BoldGiven` | src/components/CreditCardForm.tsx:98 | `props.fonts?.bold`: absent when `fonts` is, otherwise the caller's bold font as given |
| `CreditCardForm.ResolveFonts` | src/components/CreditCardForm.tsx:96-99 | each font is the caller's when given and not empty, otherwise Roboto Mono regular or bold; neither is ever empty |
| `CreditCardForm.ResolveFontsIdempotent` | src/components/CreditCardForm.tsx:96-99 | resolving fonts that are already resolved changes nothing |
| `CreditCardForm.ResolveOverrides` | src/components/CreditCardForm.tsx:95 | missing style overrides become the empty object; given ones pass through unchanged |
| `CreditCardForm.LibraryContextValue` | src/components/CreditCardForm.tsx:92-101 | the context carries the caller's overrides or `{}`, the resolved fonts and the merged translation table, each defaulted on its own; the table is always complete and the fonts never empty |
| `CreditCardForm.InputWidth` | src/components/CreditCardForm.tsx:37-39 | an input is the window width less 36 on each side |
| `CreditCardForm.PageOffset` | src/components/CreditCardForm.tsx:75 | the page after a field's begins (ordinal + 1) input widths in; after the card number, one input width |
| `CreditCardForm.PageOffsetsAdvanceByOnePage` | src/components/CreditCardForm.tsx:75 | the scroll target after a field's successor is one input width past the one after the field |
| `CreditCardForm.FieldNames` | src/components/CreditCardForm.tsx:68-70 | indexing the name list by a field's ordinal gives that field's registered form key |
| `CreditCardForm.InputRefs` | src/components/CreditCardForm.tsx:85-87 | indexing the ref list by a field's ordinal gives that field's own input |
| `CreditCardForm.NextRefIsSuccessor` | src/components/CreditCardForm.tsx:85-87 | for every field but the zip code, the index ordinal + 1 is in bounds and gives the successor's input |
| `CreditCardForm.Advance` | src/components/CreditCardForm.tsx:65-89 | with no focused field nothing happens; in the paged layout the focused field is validated first, an invalid field stops everything, and a valid one scrolls to `(ordinal + 1) * inputWidth` before any focus request; the free-scroll layout neither validates nor scrolls; leaving the zip code clears the focus, ends the paged layout, dismisses the keyboard and focuses nothing, and in the free-scroll layout does nothing but dismiss the keyboard; leaving any other field requests focus exactly once, on its successor; the paged layout is never switched on |
| `CreditCardForm.FormController.constructor` | src/components/CreditCardForm.tsx:33-48 | at mount nothing is focused, the layout mode is `InitialHorizontal`, and the input width is the window width minus 72 |
| `CreditCardForm.FormController.Mount` | src/components/CreditCardForm.tsx:50-54 | the mount effect requests focus on the card-number input |
| `CreditCardForm.FormController.Resize` | src/components/CreditCardForm.tsx:37-39 | the input width follows the window width, less 72 |
| `CreditCardForm.FormController.OnFocus` | src/components/CreditCardForm.tsx:134-225 | an input's `onFocus` makes it the focused field and changes nothing else |
| `CreditCardForm.FormController.GoNext` | src/components/CreditCardForm.tsx:65-89 | the phased method leaves the state and effect log exactly as `Advance` says, and the paged layout is never re-entered after mount |
| `CreditCardForm.Step` | src/components/CreditCardForm.tsx:134-225 | a focus event sets the focused field without effects; completing an input wired to `goNext` runs `Advance` on the awaited result; completing one not wired does nothing; no event switches the paged layout on |
| `CreditCardForm.RunNeverReentersPagedMode` | src/components/CreditCardForm.tsx:33-83 | over any run of events, once the paged layout is off it stays off |
| `CreditCardForm.FreeScrollNeverValidatesOrScrolls` | src/components/CreditCardForm.tsx:72-76 | over any run that starts in the free-scroll layout, nothing is validated or scrolled |
| `CreditCardForm.AsWrittenNeverLeavesPagedMode` | src/components/CreditCardForm.tsx:210-226 | with the inputs wired as written and the user completing only the focused input, the layout mode never changes and the keyboard is never dismissed |
| `CreditCardForm.CorrectedZipSubmitEndsSequence` | src/components/CreditCardForm.tsx:78-83 | with the zip code's submit wired to `goNext`, a run that ends with a valid zip-code submit clears the focus and ends the paged layout |
| `CreditCardForm.AsWrittenFillInStaysPaged` | src/components/CreditCardForm.tsx:210-226 | as written, filling in all five inputs in the paged layout leaves the zip code focused and the layout paged |
| `CreditCardForm.CorrectedFillInCompletes` | src/components/CreditCardForm.tsx:65-89 | with the corrected wiring, the same run ends with nothing focused and the paged layout off |

## Findings

| source | as written | input that shows it | evidently intended | confidence | as-written member | corrected member |
|---|---|---|---|---|---|---|
| src/components/CreditCardForm.tsx:210-226 | The zip-code input has neither `onValid` nor `onSubmitEditing`. So `goNext`'s zip-code branch (lines 78-83) never runs when `goNext` is fired by the focused input's own handler, and the paged layout is never left. | On iOS with default props: focus and validly complete card number, holder name, expiration and CVV, then submit the zip code. `focusedField` stays `ZipCode` and `isHorizontal` stays true. | Submitting the zip code calls `goNext`, which clears the focus, ends the paged layout and dismisses the keyboard. | not executed; medium: `FormTextField`, which fires these handlers, is not part of this model | `CreditCardForm.AsWrittenNeverLeavesPagedMode` | `CreditCardForm.CorrectedZipSubmitEndsSequence` |
| src/components/CreditCardForm.tsx:143-205 | Three messages are string literals: the holder name's invalid message and the CVV's required and invalid messages. The translation keys `cardHolderNameInvalid`, `securityCodeRequired` and `securityCodeInvalid` are not read by this component. | `translations = { cardHolderNameInvalid: "Nom invalide" }`: an invalid holder name still shows "This cardholder name looks invalid." | Every message comes from the translation table, as the other inputs' messages do. | not executed; high | `CreditCardForm.AsWrittenIgnoresMessageOverrides` | `CreditCardForm.MessagesFollowTranslations` |

The corrected CVV invalid message would show the table's default text, "This security
date looks invalid.". That text reads like a slip for "security code".
`CreditCardForm.CorrectedMessagesAgreeOnDefaults` records that this is the one message
that changes.

## Left out

- Rendering, layout, `StyleSheet` styles and the `LibraryContext.Provider` plumbing. They
  are UI with no stated behaviour. Only the context value's overrides, fonts and
  translations are modelled.
- The `card-validator` library: brand detection and the number, holder-name,
  expiration and CVV checks. It is a foreign library. Its answers are inputs: `isAmex`,
  and `valid` for the awaited `trigger` result.
- The formatters `cardNumberFormatter` and `expirationDateFormatter`. `src/utils/formatters`
  is not part of this model.
- `FormTextField`, which decides when `onValid` fires. It is not part of this model.
  Completing an input is an event of the run model.
- The form library's `trigger` and `watch`, and their asynchronous scheduling. `goNext`
  is modelled as running to completion on the result it awaited. A later event arriving
  during the await, and the stale state a React closure could then hold, are not
  modelled.
- `scrollTo`, `focus()` and `Keyboard.dismiss()`: only the requests are recorded. A ref
  whose `current` is still null (optional chaining) is assumed mounted.
- Translation overrides whose value is explicitly `undefined`. JavaScript's spread would
  copy that value over the default. The model treats a key as present with a string, or
  absent.
- The other props that `...props` passes into the context (`horizontalStart`,
  `inputColors`, `backgroundImage`, `LottieView`) are passed through untouched and not modelled.
- The zip code's character set. The `minLength` message says letters, digits, spaces and
  `-` only, but the input's `validate` is empty and it has no pattern rule, so nothing
  in this component checks the characters. The model has no such check either:
  `InvalidMessageAsWritten(ZipCode, tr)` is none.
- A `horizontalStart` of `null` is not modelled: the prop is typed `boolean | undefined`.
