/** The booking confirmation form (`components/booking/confirm-form.tsx`): the
    phone number is reduced to its digits, a phone is valid with at least ten of
    them, and the submit handler calls `onConfirm` only with a name and a valid
    phone. The call to `onConfirm` is returned as the payload it would receive.
    The parent's `isSubmitting` prop disables the button, and the browser's
    validation of the `required` and `type="email"` inputs can stop a press
    before the handler runs. */
module BookingConfirm {
  import opened Prelude
  import opened Text
  import opened FormValidation

  /** `phone.replace(/\D/g, '')`: the ASCII digits of `phone`, in order. */
  function NormalizePhone(phone: string): (digits: string)
    ensures forall i :: 0 <= i < |digits| ==> IsDigit(digits[i])
    ensures |digits| <= |phone|
  {
    Filter(phone, IsDigit)
  }

  predicate AllDigits(s: string) {
    forall i :: 0 <= i < |s| ==> IsDigit(s[i])
  }

  /** A string of digits only is its own normal form. */
  lemma DigitsAreKept(phone: string)
    requires AllDigits(phone)
    ensures NormalizePhone(phone) == phone
  {
    FilterKeepsAll(phone, IsDigit);
  }

  /** Normalising twice is normalising once. */
  lemma NormalizePhoneIdempotent(phone: string)
    ensures NormalizePhone(NormalizePhone(phone)) == NormalizePhone(phone)
  {
    FilterIdempotent(phone, IsDigit);
  }

  /** Every digit of the input survives, and nothing else does. */
  lemma NormalizePhoneKeepsDigits(phone: string, c: char)
    ensures c in NormalizePhone(phone) <==> c in phone && IsDigit(c)
  {
    FilterMembership(phone, IsDigit, c);
  }

  /** `isPhoneValid`. */
  predicate IsPhoneValid(phone: string) {
    |NormalizePhone(phone)| >= 10
  }

  /** The `!normalizedPhone` test of the guard adds nothing to `!isPhoneValid`. */
  lemma EmptyPhoneIsInvalid(phone: string)
    requires NormalizePhone(phone) == []
    ensures !IsPhoneValid(phone)
  {
  }

  /** The argument of `onConfirm`; `email` is absent when left blank. */
  datatype Payload = Payload(name: string, phone: string, email: Option<string>)

  /** `email.trim() ? email.trim() : undefined`. */
  function OptionalEmail(email: string): Option<string> {
    if Trim(email) != [] then Some(Trim(email)) else None
  }

  /** The e-mail is sent trimmed, and left out exactly when it is blank. */
  lemma OptionalEmailMeaning(email: string)
    ensures OptionalEmail(email).None? <==> AllWhitespace(email)
    ensures OptionalEmail(email).Some? ==>
      OptionalEmail(email).value != [] && Trim(OptionalEmail(email).value) == OptionalEmail(email).value
  {
    TrimEmptyIffBlank(email);
    TrimIdempotent(email);
  }

  /** The guard and the payload of the submit handler. */
  function ConfirmPayload(name: string, phone: string, email: string): Option<Payload> {
    var normalizedPhone := NormalizePhone(phone);
    if Trim(name) == [] || normalizedPhone == [] || !IsPhoneValid(phone) then None
    else Some(Payload(Trim(name), normalizedPhone, OptionalEmail(email)))
  }

  /** `onConfirm` is called exactly when the name has some text and the phone
      is valid; it receives the trimmed name and at least ten digits and
      nothing else for the phone. */
  lemma ConfirmPayloadMeaning(name: string, phone: string, email: string)
    ensures ConfirmPayload(name, phone, email).Some? <==> !AllWhitespace(name) && IsPhoneValid(phone)
    ensures ConfirmPayload(name, phone, email).Some? ==>
      && ConfirmPayload(name, phone, email).value.name == Trim(name) != []
      && ConfirmPayload(name, phone, email).value.phone == NormalizePhone(phone)
      && AllDigits(ConfirmPayload(name, phone, email).value.phone)
      && |ConfirmPayload(name, phone, email).value.phone| >= 10
      && ConfirmPayload(name, phone, email).value.email == OptionalEmail(email)
  {
    TrimEmptyIffBlank(name);
  }

  datatype ConfirmState = ConfirmState(name: string, phone: string, email: string, hasTriedSubmit: bool)

  /** The browser submits the form only when the `required` name and phone
      inputs are non-empty and the optional `type="email"` input is empty or
      holds a valid e-mail address. */
  predicate BrowserAccepts(s: ConfirmState) {
    RequiredFieldAccepts(s.name) && RequiredFieldAccepts(s.phone) && EmailFieldAccepts(s.email)
  }

  /** What a press of the submit button (or Enter in an input) does. While
      `isSubmitting` is set the button is disabled, and while a control is
      invalid the browser does not submit: either way nothing happens. Otherwise
      the handler records the attempt and calls `onConfirm` when
      `ConfirmPayload` gives a payload. */
  function SubmitOutcome(s: ConfirmState, isSubmitting: bool): (ConfirmState, Option<Payload>) {
    if isSubmitting || !BrowserAccepts(s) then (s, None)
    else (s.(hasTriedSubmit := true), ConfirmPayload(s.name, s.phone, s.email))
  }

  /** `onConfirm` is called exactly when no booking is in flight, the name has
      some text, the phone is valid and the e-mail is empty or a valid address;
      the e-mail then goes out as typed, or not at all when empty. The attempt
      is recorded exactly when the handler runs, and the typed fields never
      change. */
  lemma SubmitOutcomeMeaning(s: ConfirmState, isSubmitting: bool)
    ensures var (next, payload) := SubmitOutcome(s, isSubmitting);
      && next.(hasTriedSubmit := s.hasTriedSubmit) == s
      && (isSubmitting || !BrowserAccepts(s) ==> next == s && payload.None?)
      && (!isSubmitting && BrowserAccepts(s) ==> next.hasTriedSubmit)
      && (payload.Some? <==>
            !isSubmitting && !AllWhitespace(s.name) && IsPhoneValid(s.phone) && EmailFieldAccepts(s.email))
      && (payload.Some? ==> payload.value.email == (if s.email == [] then None else Some(s.email)))
  {
    if !isSubmitting && BrowserAccepts(s) {
      ConfirmPayloadMeaning(s.name, s.phone, s.email);
      if s.email != [] {
        ValidEmailIsTrimmed(s.email);
      }
    }
  }

  /** A phone number with ten digits and a bare word in the e-mail input: the
      browser stops the press, `onConfirm` is not called and no field message
      appears. */
  lemma BareWordEmailBlocksConfirm()
    ensures var s := ConfirmState("Ana", "(11) 98765-4321", "abc", false);
      SubmitOutcome(s, false) == (s, None)
  {
    BareWordIsNoEmail();
  }

  /** The `ConfirmForm` component's state. */
  class ConfirmForm {
    var name: string
    var phone: string
    var email: string
    var hasTriedSubmit: bool

    function State(): ConfirmState
      reads this
    {
      ConfirmState(name, phone, email, hasTriedSubmit)
    }

    constructor()
      ensures State() == ConfirmState([], [], [], false)
    {
      name := [];
      phone := [];
      email := [];
      hasTriedSubmit := false;
    }

    /** The message under the name input. */
    predicate ShowsNameError()
      reads this
    {
      hasTriedSubmit && Trim(name) == []
    }

    /** The message under the phone input. */
    predicate ShowsPhoneError()
      reads this
    {
      hasTriedSubmit && (NormalizePhone(phone) == [] || !IsPhoneValid(phone))
    }

    method EditName(value: string)
      modifies this
      ensures State() == old(State()).(name := value)
    {
      name := value;
    }

    method EditPhone(value: string)
      modifies this
      ensures State() == old(State()).(phone := value)
    {
      phone := value;
    }

    method EditEmail(value: string)
      modifies this
      ensures State() == old(State()).(email := value)
    {
      email := value;
    }

    /** A press of the submit button, given the parent's `isSubmitting` prop:
        the payload is returned when `onConfirm` would be called. When the
        handler runs, nothing is sent exactly when one of the two field
        messages shows. */
    method Submit(isSubmitting: bool) returns (payload: Option<Payload>)
      modifies this
      ensures (State(), payload) == SubmitOutcome(old(State()), isSubmitting)
      ensures isSubmitting || !BrowserAccepts(old(State())) ==> State() == old(State()) && payload.None?
      ensures !isSubmitting && BrowserAccepts(old(State())) ==>
        (payload.None? <==> ShowsNameError() || ShowsPhoneError())
    {
      if isSubmitting || !BrowserAccepts(State()) {
        return None;
      }
      hasTriedSubmit := true;
      var normalizedPhone := NormalizePhone(phone);
      if Trim(name) == [] || normalizedPhone == [] || |normalizedPhone| < 10 {
        return None;
      }
      payload := Some(Payload(Trim(name), normalizedPhone, OptionalEmail(email)));
    }
  }
}
