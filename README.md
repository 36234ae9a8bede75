# Portfolio page script: contact-form validator and page markers

A Dafny model of `script.js`, the one script of a personal portfolio page. It
covers the three behaviours the script attaches to the page:

- the **contact-form validator** (`validateForm` with `displayErrorMessage`,
  `clearErrorMessage` and `isValidEmail`): on submission each of the name,
  email and message controls is trimmed and checked in that order, each gets
  an error message or a cleared error, a single `isValid` flag collects the
  result without short-circuiting, and only an accepted form shows the success
  alert and is reset;
- the **project-card reveal**: one observer watching every card, a mobile
  set-up that gives each card an alternating `slide-in-left` /
  `slide-in-right` class on viewports at most 991 pixels wide and a private
  observer of its own, and the one-shot callback that adds `visible` and stops
  observing;
- the **menu toggle**, which flips the `show` class of the navigation links.

Modules, one per component:

- `Text` (`text.dfy`): the whitespace set shared by `\s` and `trim()`, and
  `Trim` with the facts the validator relies on.
- `Email` (`email.dfy`): `IsValidEmail`, the language of
  `^[^\s@]+@[^\s@]+\.[^\s@]+$` stated directly as "some split into three
  `[^\s@]+` runs around an '@' and a '.'", proved equal to the field-by-field
  description (no whitespace, exactly one '@', a non-empty local part, a '.'
  inside the domain at neither end).
- `Form` (`form.dfy`): a `Field` class per control (value, whether an
  `error-message` span follows it, that span's text, the `invalid` class), the
  imperative `ValidateForm` and its helpers, and a value-level specification
  `Validate` that `ValidateForm` is proved to implement and about which the
  validator's promises are proved as lemmas.
- `Cards` (`cards.dfy`): `Card` and `Observer` classes, the two set-up loops
  and the intersection callback.
- `Menu` (`menu.dfy`): `NavLinks` and `ToggleMenu`.

The viewport width and each entry's `isIntersecting` are inputs. Each card is
watched by two observers (the shared one and its own mobile one), so instead of
one "observed" flag per card each `Observer` keeps the set of cards it still
watches. The three sections of `validateForm` (name, email, message) are
written as three methods, `CheckName`, `CheckEmail` and `CheckMessage`, each of
which may clear the running `isValid` flag; `ValidateForm` runs all three in
the source's order and then the final step. The success
alert is the `submitted` result of `ValidateForm`.

Two details of the code the model follows:

- The `invalid` class mirrors a non-empty error text only on a control that is
  followed by an `error-message` span; on a control without one, both display
  and clear leave the control exactly as it was (`InvalidMirrorsErrorText`
  is stated for controls with a span only).
- The form reset on success changes the control values only. Error spans and
  `invalid` classes are not touched by it; they are already clear because
  every check passed.

## Model

| member | source | states |
|---|---|---|
| `Text.Trim` | script.js:109 | definition: `value.trim()` is the leading-whitespace cut followed by the trailing-whitespace cut, over the ECMAScript whitespace set |
| `Text.TrimStart` | script.js:109 | the leading-whitespace cut of `trim()` leaves a suffix of the value that does not start with whitespace, and everything it dropped is whitespace |
| `Text.TrimEnd` | script.js:109 | the trailing-whitespace cut of `trim()` leaves a prefix of the value that does not end with whitespace, and everything it dropped is whitespace |
| `Text.TrimSlice` | script.js:109 | `value.trim()` is a slice of the value with only whitespace cut from each end, and it neither starts nor ends with whitespace |
| `Text.TrimEmptyIff` | script.js:109 | a value trims to the empty string exactly when it is empty or all whitespace |
| `Text.TrimKeeps` | script.js:109 | a value with no whitespace at either end is unchanged by trimming |
| `Text.TrimIdempotent` | script.js:109 | trimming an already trimmed value changes nothing |
| `Email.IsValidEmail` | script.js:182-187 | definition: some split of the string into three `[^\s@]+` runs (non-empty, no whitespace, no '@') around an '@' and a '.', covering the whole string |
| `Email.EmailCharacterization` | script.js:182-187 | the pattern accepts exactly the strings with no whitespace, exactly one '@', a non-empty part before it, and a '.' in the domain that is neither its first nor its last character |
| `Email.MatchHasShape` | script.js:186 | every match of the pattern has the field-by-field shape, and its '@' is the first and only one |
| `Email.ShapeMatches` | script.js:186 | every string of that shape is matched, and the split at its only '@' and any '.' strictly inside the domain is one the pattern accepts |
| `Email.AcceptsPlainAddress` | script.js:186 | "user@example.com" is accepted |
| `Email.RejectsMalformedAddresses` | script.js:186 | "a@b", "abc.com" and "a@b@c.com" are rejected |
| `Form.Annotate` | script.js:155-179 | on a control followed by an error span, a shown error sets the text and `invalid`, a cleared one empties the text and removes `invalid`; a control without a span is returned unchanged; the value is never touched |
| `Form.NameVerdict` | script.js:109-117 | definition: a name that trims to the empty string shows "Name cannot be empty.", any other name clears the error |
| `Form.EmailVerdict` | script.js:120-131 | definition: an email that trims to the empty string shows "Email cannot be empty."; otherwise one whose trimmed form fails `IsValidEmail` shows "Please enter a valid email address."; otherwise the error is cleared |
| `Form.MessageVerdict` | script.js:134-141 | definition: a message that trims to the empty string shows "Message cannot be empty.", any other message clears the error |
| `Form.Validate` | script.js:102-152 | definition: each control is annotated with its own verdict, all three regardless of the others; only when all three verdicts clear are the three values emptied and the submission accepted |
| `Form.DisplayErrorMessage` | script.js:155-166 | with an `error-message` span after the control, the span's text becomes the message and the control is `invalid`; without one nothing changes; the value is never touched |
| `Form.ClearErrorMessage` | script.js:169-179 | with an `error-message` span after the control, its text becomes empty and the control is no longer `invalid`; without one nothing changes |
| `Form.ResetForm` | script.js:150 | the three values become empty and every error span and `invalid` class is left as it was |
| `Form.CheckName` | script.js:107-117 | the name control is annotated with the name verdict and the running flag is cleared exactly when the name is blank |
| `Form.CheckEmail` | script.js:119-131 | the email control is annotated with the email verdict and the running flag is cleared exactly when the email is blank or malformed |
| `Form.CheckMessage` | script.js:133-141 | the message control is annotated with the message verdict and the running flag is cleared exactly when the message is blank |
| `Form.ValidateForm` | script.js:102-152 | the three controls and the success signal end exactly as `Validate` of their starting states says |
| `Form.EmailVerdictCases` | script.js:120-131 | an empty or whitespace-only email gets "Email cannot be empty.", any other email whose trimmed form fails the pattern gets "Please enter a valid email address.", and the error is cleared exactly when the trimmed email matches |
| `Form.SubmittedIff` | script.js:102-145 | the form is accepted exactly when the name and the message are not blank and the trimmed email matches the pattern |
| `Form.NameAlwaysChecked` | script.js:107-117 | the name control's error text and `invalid` class afterwards depend on the name alone, whatever the other fields hold |
| `Form.EmailAlwaysChecked` | script.js:119-131 | the email control's error text and `invalid` class afterwards depend on the email alone, even when the name failed |
| `Form.MessageAlwaysChecked` | script.js:133-141 | the message control's error text and `invalid` class afterwards depend on the message alone, even when the name or email failed |
| `Form.InvalidMirrorsErrorText` | script.js:155-179 | after validation a control with an error span is `invalid` exactly when its error text is not empty |
| `Form.SuccessClearsAndResets` | script.js:145-151 | an accepted form has all three values empty and no error shown on any control that has an error span |
| `Form.FailureKeepsValues` | script.js:143-151 | a rejected form keeps all three values as they were |
| `Form.BlankFormRejected` | script.js:107-141 | whitespace-only name, email and message each get their "cannot be empty" error and the form is rejected |
| `Form.AcceptsExampleSubmission` | script.js:102-151 | name "Ada", email "user@example.com" and message "Hello" are accepted, the email error is cleared and the values are reset |
| `Cards.Observer.Observe` | script.js:39 | the card joins the observer's watched set |
| `Cards.Observer.Unobserve` | script.js:33 | the card leaves the observer's watched set and nothing else changes |
| `Cards.Observer.OnEntries` | script.js:22-36 | every card reported intersecting gains `visible` and is no longer observed; cards reported only as not intersecting keep their classes and stay observed |
| `Cards.ObserveCards` | script.js:18-39 | a fresh observer watches exactly the page's cards |
| `Cards.SetUpMobileCards` | script.js:45-76 | each card gains exactly its direction classes, and gets a fresh observer of its own that watches only it |
| `Cards.IsMobile` | script.js:48 | definition: a viewport counts as mobile when its width is at most 991 pixels |
| `Cards.Direction` | script.js:55 | definition: on mobile, `slide-in-left` at an even index and `slide-in-right` at an odd one; off mobile the empty string |
| `Cards.DirectionClasses` | script.js:55-57 | definition: on mobile the card gains the one class `Direction` picks; off mobile it gains none |
| `Cards.DirectionByWidth` | script.js:48-57 | at width 991 or less even positions get `slide-in-left` and odd ones `slide-in-right`; above 991 no class is added; the empty direction is never added |
| `Cards.NeighboursAlternate` | script.js:53-55 | on mobile, neighbouring cards slide in from opposite sides |
| `Cards.RevealTwice` | script.js:65-70 | a card revealed by both of its observers has `visible` added once and is watched by neither afterwards; every other card either observer watches stays watched |
| `Menu.Toggled` | script.js:10 | toggling flips the presence of the token and leaves every other class alone |
| `Menu.ToggleTwiceRestores` | script.js:10 | toggling the same token twice restores the set of classes |
| `Menu.ToggleMenu` | script.js:4-11 | the `show` class of the navigation links is toggled |
| `Menu.ToggleMenuTwice` | script.js:4-11 | two menu toggles leave the set of classes of the navigation links as it was |

## Left out

- The querying of the page (`querySelector`, `querySelectorAll`, `nextElementSibling`, `classList.contains('error-message')`): the controls, cards and navigation links are parameters, and whether an `error-message` span follows a control is the `hasErrorSpan` field.
- The `submit` listener and `event.preventDefault()`: event plumbing with no state to model; `ValidateForm` is the handler's one call.
- `alert('Form submitted successfully!')`: a blocking dialog; only the fact that it is shown is kept, as the `submitted` result.
- `contactForm.reset()` beyond emptying the three values: the form's other controls and default values are not part of this model.
- The geometry of `IntersectionObserver` and its 0.3 threshold: floating point computed by the browser; `isIntersecting` is an input of each entry, and which entries the browser delivers, and when, is not modelled.
- The browser's event loop: each handler runs to completion, which the sequential methods already assume.
- A missing `.nav-links` element: `toggleMenu` then throws in the browser; `ToggleMenu` takes the element as given.
- The classes of a form control other than `invalid`: `Field` keeps only that marker.
- A general regular-expression engine: `IsValidEmail` states the one pattern the script uses.
- The order and repetition of tokens in a `classList`: `Card.classes` and `NavLinks.classes` are sets. In the browser a token removed and added back moves to the end of the list, and a token written twice in the `class` attribute appears twice, so `ToggleTwiceRestores` and `ToggleMenuTwice` restore the classes as a set only. Nothing in the script reads the order.
