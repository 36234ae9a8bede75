/** The contact-form validator: `validateForm` and its two annotation helpers
    `displayErrorMessage` and `clearErrorMessage`. */
module Form {
  import opened Text
  import opened Email

  const NameEmpty := "Name cannot be empty."
  const EmailEmpty := "Email cannot be empty."
  const EmailMalformed := "Please enter a valid email address."
  const MessageEmpty := "Message cannot be empty."

  /** The snapshot of one form control that validation reads and writes: its
      value, whether an `error-message` span is its next sibling, the text of
      that span, and whether the control carries the `invalid` class. */
  datatype FieldState = FieldState(value: string, hasErrorSpan: bool, errorText: string, invalid: bool)

  /** What one field check decides: show this error, or clear the error. */
  datatype Verdict = Clear | Show(message: string)

  /** Everything a submission leaves behind: the three controls and whether
      the form was accepted (the success alert was shown). */
  datatype Outcome = Outcome(name: FieldState, email: FieldState, message: FieldState, submitted: bool)

  /** One control of the contact form (the name input, the email input or the
      message textarea) with the error span that may follow it. */
  class Field {
    var value: string
    const hasErrorSpan: bool
    var errorText: string
    var invalid: bool

    constructor (value: string, hasErrorSpan: bool, errorText: string, invalid: bool)
      ensures State() == FieldState(value, hasErrorSpan, errorText, invalid)
    {
      this.value := value;
      this.hasErrorSpan := hasErrorSpan;
      this.errorText := errorText;
      this.invalid := invalid;
    }

    function State(): FieldState
      reads this
    {
      FieldState(value, hasErrorSpan, errorText, invalid)
    }
  }

  /** The annotation a verdict leaves on a control: only a control followed by
      an error span is touched; showing sets the span's text and adds
      `invalid`, clearing empties the text and removes `invalid`. */
  function Annotate(f: FieldState, v: Verdict): (g: FieldState)
    ensures g.value == f.value && g.hasErrorSpan == f.hasErrorSpan
    ensures f.hasErrorSpan ==> g.invalid == v.Show? && g.errorText == (if v.Show? then v.message else "")
    ensures !f.hasErrorSpan ==> g == f
  {
    if !f.hasErrorSpan then f
    else match v
      case Show(m) => f.(errorText := m, invalid := true)
      case Clear => f.(errorText := "", invalid := false)
  }

  /** The name check: a name that trims to nothing is an error. */
  function NameVerdict(value: string): Verdict {
    if Trim(value) == "" then Show(NameEmpty) else Clear
  }

  /** The email check: empty after trimming, then malformed, then accepted. */
  function EmailVerdict(value: string): Verdict {
    if Trim(value) == "" then Show(EmailEmpty)
    else if !IsValidEmail(Trim(value)) then Show(EmailMalformed)
    else Clear
  }

  /** The message check: a message that trims to nothing is an error. */
  function MessageVerdict(value: string): Verdict {
    if Trim(value) == "" then Show(MessageEmpty) else Clear
  }

  /** What one call of `validateForm` does to the three controls: every field
      is checked and annotated, and only when all three pass are the values
      reset and success signalled. */
  function Validate(name: FieldState, email: FieldState, message: FieldState): Outcome {
    var n := Annotate(name, NameVerdict(name.value));
    var e := Annotate(email, EmailVerdict(email.value));
    var m := Annotate(message, MessageVerdict(message.value));
    var isValid := NameVerdict(name.value) == Clear && EmailVerdict(email.value) == Clear
                   && MessageVerdict(message.value) == Clear;
    if isValid then Outcome(n.(value := ""), e.(value := ""), m.(value := ""), true)
    else Outcome(n, e, m, false)
  }

  /** `displayErrorMessage(input, message)`. */
  method DisplayErrorMessage(input: Field, message: string)
    modifies input
    ensures input.value == old(input.value)
    ensures input.hasErrorSpan ==> input.errorText == message && input.invalid
    ensures !input.hasErrorSpan ==> input.errorText == old(input.errorText) && input.invalid == old(input.invalid)
    ensures input.State() == Annotate(old(input.State()), Show(message))
  {
    if input.hasErrorSpan {
      input.errorText := message;
      input.invalid := true;
    }
  }

  /** `clearErrorMessage(input)`. */
  method ClearErrorMessage(input: Field)
    modifies input
    ensures input.value == old(input.value)
    ensures input.hasErrorSpan ==> input.errorText == "" && !input.invalid
    ensures !input.hasErrorSpan ==> input.errorText == old(input.errorText) && input.invalid == old(input.invalid)
    ensures input.State() == Annotate(old(input.State()), Clear)
  {
    if input.hasErrorSpan {
      input.errorText := "";
      input.invalid := false;
    }
  }

  /** `contactForm.reset()`: the control values go back to empty; error spans
      and `invalid` classes are not form state and stay as they are. */
  method ResetForm(nameInput: Field, emailInput: Field, messageInput: Field)
    modifies nameInput, emailInput, messageInput
    ensures nameInput.State() == old(nameInput.State()).(value := "")
    ensures emailInput.State() == old(emailInput.State()).(value := "")
    ensures messageInput.State() == old(messageInput.State()).(value := "")
  {
    nameInput.value := "";
    emailInput.value := "";
    messageInput.value := "";
  }

  /** The name section of `validateForm`: annotate the name control and
      clear the running `isValid` flag when the name is blank. */
  method CheckName(nameInput: Field, isValid: bool) returns (stillValid: bool)
    modifies nameInput
    ensures nameInput.State() == Annotate(old(nameInput.State()), NameVerdict(old(nameInput.value)))
    ensures stillValid <==> isValid && NameVerdict(old(nameInput.value)) == Clear
  {
    stillValid := isValid;
    if Trim(nameInput.value) == "" {
      DisplayErrorMessage(nameInput, NameEmpty);
      stillValid := false;
    } else {
      ClearErrorMessage(nameInput);
    }
  }

  /** The email section of `validateForm`: annotate the email control with
      the first failing check and clear the running flag when one fails. */
  method CheckEmail(emailInput: Field, isValid: bool) returns (stillValid: bool)
    modifies emailInput
    ensures emailInput.State() == Annotate(old(emailInput.State()), EmailVerdict(old(emailInput.value)))
    ensures stillValid <==> isValid && EmailVerdict(old(emailInput.value)) == Clear
  {
    stillValid := isValid;
    if Trim(emailInput.value) == "" {
      DisplayErrorMessage(emailInput, EmailEmpty);
      stillValid := false;
    } else if !IsValidEmail(Trim(emailInput.value)) {
      DisplayErrorMessage(emailInput, EmailMalformed);
      stillValid := false;
    } else {
      ClearErrorMessage(emailInput);
    }
  }

  /** The message section of `validateForm`: annotate the message control and
      clear the running flag when the message is blank. */
  method CheckMessage(messageInput: Field, isValid: bool) returns (stillValid: bool)
    modifies messageInput
    ensures messageInput.State() == Annotate(old(messageInput.State()), MessageVerdict(old(messageInput.value)))
    ensures stillValid <==> isValid && MessageVerdict(old(messageInput.value)) == Clear
  {
    stillValid := isValid;
    if Trim(messageInput.value) == "" {
      DisplayErrorMessage(messageInput, MessageEmpty);
      stillValid := false;
    } else {
      ClearErrorMessage(messageInput);
    }
  }

  /** `validateForm()` over the three controls the page's selectors find,
      which are three different elements. The three checks always all run;
      `submitted` is true exactly when the success alert is shown. */
  method ValidateForm(nameInput: Field, emailInput: Field, messageInput: Field) returns (submitted: bool)
    requires nameInput != emailInput && nameInput != messageInput && emailInput != messageInput
    modifies nameInput, emailInput, messageInput
    ensures Validate(old(nameInput.State()), old(emailInput.State()), old(messageInput.State()))
            == Outcome(nameInput.State(), emailInput.State(), messageInput.State(), submitted)
  {
    var isValid := true;
    isValid := CheckName(nameInput, isValid);
    isValid := CheckEmail(emailInput, isValid);
    isValid := CheckMessage(messageInput, isValid);
    if isValid {
      ResetForm(nameInput, emailInput, messageInput);
    }
    submitted := isValid;
  }

  /** The email error is chosen by case: an empty or whitespace-only value is
      "empty", any other value that fails the pattern once trimmed is
      "malformed", and a value whose trimmed form matches clears the error. */
  lemma {:induction false} EmailVerdictCases(value: string)
    ensures EmailVerdict(value) == Show(EmailEmpty) <==> AllWs(value)
    ensures EmailVerdict(value) == Show(EmailMalformed) <==> !AllWs(value) && !IsValidEmail(Trim(value))
    ensures EmailVerdict(value) == Clear <==> IsValidEmail(Trim(value))
  {
    TrimEmptyIff(value);
  }

  /** The form is accepted exactly when the name and the message are not
      blank and the trimmed email matches the pattern. */
  lemma {:induction false} SubmittedIff(name: FieldState, email: FieldState, message: FieldState)
    ensures Validate(name, email, message).submitted
            <==> !AllWs(name.value) && IsValidEmail(Trim(email.value)) && !AllWs(message.value)
  {
    TrimEmptyIff(name.value);
    EmailVerdictCases(email.value);
    TrimEmptyIff(message.value);
  }

  /** The name field is annotated from its own value alone, whatever the
      email and message hold. */
  lemma {:induction false} NameAlwaysChecked(name: FieldState, email: FieldState, message: FieldState)
    ensures var n := Validate(name, email, message).name;
      && (name.hasErrorSpan ==> n.errorText == (if AllWs(name.value) then NameEmpty else "")
                                && n.invalid == AllWs(name.value))
      && (!name.hasErrorSpan ==> n.errorText == name.errorText && n.invalid == name.invalid)
  {
    TrimEmptyIff(name.value);
  }

  /** The email field is annotated from its own value alone, whatever the
      name and message hold. */
  lemma {:induction false} EmailAlwaysChecked(name: FieldState, email: FieldState, message: FieldState)
    ensures var e := Validate(name, email, message).email;
      && (email.hasErrorSpan ==>
            && e.errorText == (if AllWs(email.value) then EmailEmpty
                               else if !IsValidEmail(Trim(email.value)) then EmailMalformed
                               else "")
            && e.invalid == !IsValidEmail(Trim(email.value)))
      && (!email.hasErrorSpan ==> e.errorText == email.errorText && e.invalid == email.invalid)
  {
    EmailVerdictCases(email.value);
  }

  /** The message field is annotated from its own value alone, even when the
      name or the email failed before it. */
  lemma {:induction false} MessageAlwaysChecked(name: FieldState, email: FieldState, message: FieldState)
    ensures var m := Validate(name, email, message).message;
      && (message.hasErrorSpan ==> m.errorText == (if AllWs(message.value) then MessageEmpty else "")
                                   && m.invalid == AllWs(message.value))
      && (!message.hasErrorSpan ==> m.errorText == message.errorText && m.invalid == message.invalid)
  {
    TrimEmptyIff(message.value);
  }

  /** After validation, a control followed by an error span is marked
      `invalid` exactly when its error text is not empty. */
  lemma {:induction false} InvalidMirrorsErrorText(name: FieldState, email: FieldState, message: FieldState)
    ensures var o := Validate(name, email, message);
      && (name.hasErrorSpan ==> (o.name.invalid <==> o.name.errorText != ""))
      && (email.hasErrorSpan ==> (o.email.invalid <==> o.email.errorText != ""))
      && (message.hasErrorSpan ==> (o.message.invalid <==> o.message.errorText != ""))
  {
    assert |NameEmpty| > 0 && |EmailEmpty| > 0 && |EmailMalformed| > 0 && |MessageEmpty| > 0;
  }

  /** An accepted submission leaves no error shown on any control that has an
      error span and all three values empty. */
  lemma SuccessClearsAndResets(name: FieldState, email: FieldState, message: FieldState)
    ensures var o := Validate(name, email, message);
      o.submitted ==>
        && o.name.value == "" && o.email.value == "" && o.message.value == ""
        && (name.hasErrorSpan ==> o.name.errorText == "" && !o.name.invalid)
        && (email.hasErrorSpan ==> o.email.errorText == "" && !o.email.invalid)
        && (message.hasErrorSpan ==> o.message.errorText == "" && !o.message.invalid)
  {
  }

  /** A rejected submission leaves every value as the user typed it. */
  lemma FailureKeepsValues(name: FieldState, email: FieldState, message: FieldState)
    ensures var o := Validate(name, email, message);
      !o.submitted ==>
        o.name.value == name.value && o.email.value == email.value && o.message.value == message.value
  {
  }

  /** A blank name, email and message are each reported as empty and the
      form is rejected. */
  lemma {:induction false} BlankFormRejected(name: FieldState, email: FieldState, message: FieldState)
    requires AllWs(name.value) && AllWs(email.value) && AllWs(message.value)
    requires name.hasErrorSpan && email.hasErrorSpan && message.hasErrorSpan
    ensures var o := Validate(name, email, message);
      && !o.submitted
      && o.name.errorText == NameEmpty && o.email.errorText == EmailEmpty
      && o.message.errorText == MessageEmpty
  {
    NameAlwaysChecked(name, email, message);
    EmailAlwaysChecked(name, email, message);
    MessageAlwaysChecked(name, email, message);
    SubmittedIff(name, email, message);
  }

  /** A filled-in form with the address "user@example.com" is accepted, its
      errors are cleared and its values reset. */
  lemma {:induction false} AcceptsExampleSubmission(name: FieldState, email: FieldState, message: FieldState)
    requires name.value == "Ada" && email.value == "user@example.com" && message.value == "Hello"
    ensures var o := Validate(name, email, message);
      && o.submitted
      && o.name.value == "" && o.email.value == "" && o.message.value == ""
      && (email.hasErrorSpan ==> o.email.errorText == "" && !o.email.invalid)
  {
    assert !AllWs(name.value) by { assert !IsWs(name.value[0]); }
    assert !AllWs(message.value) by { assert !IsWs(message.value[0]); }
    assert IsValidEmail(Trim(email.value)) by { TrimKeeps(email.value); AcceptsPlainAddress(); }
    SubmittedIff(name, email, message);
    SuccessClearsAndResets(name, email, message);
  }
}
