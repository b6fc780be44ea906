/** The signup page (`app/signup/page.tsx`): the `?plan=` parameter is
    normalised to a plan id, the page's own plan cards are looked up by that id,
    and the submit handler checks the e-mail and the two passwords before it
    creates the account and asks for a checkout session. Firebase account
    creation and the fetch are outside the model; their outcome arrives
    through `ReceiveFailure`. */
module Signup {
  import opened Prelude
  import opened Text
  import opened FormValidation
  import StripePlans

  type PlanId = StripePlans.PlanId

  /** `normalizePlanId`: 'starter' and 'elite' are kept, anything else,
      including a missing parameter and 'pro', becomes 'pro'. */
  function NormalizePlanId(value: Option<string>): (r: PlanId)
    ensures value == Some("starter") <==> r == StripePlans.Starter
    ensures value == Some("elite") <==> r == StripePlans.Elite
  {
    if value == Some("starter") then StripePlans.Starter
    else if value == Some("elite") then StripePlans.Elite
    else StripePlans.Pro
  }

  /** The normalised id, read back as the parameter, normalises to itself. */
  lemma NormalizePlanIdIdempotent(value: Option<string>)
    ensures NormalizePlanId(Some(StripePlans.PlanKey(NormalizePlanId(value)))) == NormalizePlanId(value)
  {
  }

  /** Every plan's own key is a fixed point of the normalisation. */
  lemma NormalizePlanIdOfKey(id: PlanId)
    ensures NormalizePlanId(Some(StripePlans.PlanKey(id))) == id
  {
  }

  /** The id the page sends is always one the server's `getPlan` knows. */
  lemma NormalizedPlanIsKnownToServer(env: StripePlans.PriceEnv, value: Option<string>)
    ensures StripePlans.GetPlan(env, StripePlans.PlanKey(NormalizePlanId(value))).Some?
  {
    StripePlans.GetPlanFindsEveryKey(env, NormalizePlanId(value));
  }

  /** One of the page's plan cards. */
  datatype PlanCard = PlanCard(id: PlanId, name: string, price: string, bullets: seq<string>, featured: bool)

  /** The page's `PLANS` array, in display order. */
  function PlanCards(): (cards: seq<PlanCard>)
    ensures |cards| == 3
  {
    [ PlanCard(StripePlans.Starter, "Starter", "R$ 49/mês", ["Apenas agenda", "1 barbeiro"], false),
      PlanCard(StripePlans.Pro, "Pro", "R$ 99/mês", ["Agenda", "PDV", "Comissões", "Até 5 barbeiros"], true),
      PlanCard(StripePlans.Elite, "Elite", "R$ 149/mês", ["Ilimitado", "Estoque", "CRM", "Lembretes WhatsApp"], false) ]
  }

  /** `PLANS.find(p => p.id === planId)`: the index of the first card with that id. */
  function FindCard(cards: seq<PlanCard>, id: PlanId): (r: Option<nat>)
    ensures r.Some? ==> r.value < |cards| && cards[r.value].id == id
    ensures r.Some? ==> forall j :: 0 <= j < r.value ==> cards[j].id != id
    ensures r.None? ==> forall j :: 0 <= j < |cards| ==> cards[j].id != id
  {
    if cards == [] then None
    else if cards[0].id == id then Some(0)
    else
      var rest := FindCard(cards[1..], id);
      if rest.Some? then Some(rest.value + 1) else None
  }

  /** `selectedPlan`: the card with the chosen id, or `PLANS[1]` when none has it. */
  function SelectedPlan(id: PlanId): PlanCard {
    var cards := PlanCards();
    var found := FindCard(cards, id);
    if found.Some? then cards[found.value] else cards[1]
  }

  /** Every id has a card, so the selection is always the chosen plan and the
      fallback to the second card is never taken. */
  lemma SelectedPlanIsChosenPlan(id: PlanId)
    ensures SelectedPlan(id).id == id
    ensures FindCard(PlanCards(), id).Some?
  {
    var cards := PlanCards();
    assert cards[StripePlans.Rank(id)].id == id;
  }

  /** What the submit handler decides before any account is created. */
  datatype SubmitCheck =
    | SilentReturn
    | Refused(message: string)
    | Proceed(cleanedEmail: string)

  /** The checks, in order: a blank e-mail or an empty password returns without
      a message; then a password shorter than 6 characters; then a confirmation
      that differs. */
  function CheckSignup(email: string, password: string, password2: string): SubmitCheck {
    var cleanedEmail := Trim(email);
    if cleanedEmail == [] || password == [] then SilentReturn
    else if |password| < 6 then Refused("A senha precisa ter pelo menos 6 caracteres.")
    else if password != password2 then Refused("As senhas não coincidem.")
    else Proceed(cleanedEmail)
  }

  /** The handler goes on only with a non-blank trimmed e-mail and a password of
      at least 6 characters that matches its confirmation; a short password is
      reported before a mismatch. */
  lemma CheckSignupMeaning(email: string, password: string, password2: string)
    ensures CheckSignup(email, password, password2).Proceed? <==>
      Trim(email) != [] && |password| >= 6 && password == password2
    ensures CheckSignup(email, password, password2).Proceed? ==>
      CheckSignup(email, password, password2).cleanedEmail == Trim(email)
    ensures Trim(email) != [] && 0 < |password| < 6 ==>
      CheckSignup(email, password, password2) == Refused("A senha precisa ter pelo menos 6 caracteres.")
    ensures CheckSignup(email, password, password2).SilentReturn? <==> Trim(email) == [] || password == []
  {
  }

  /** The request the handler makes once the checks pass: the account with the
      trimmed e-mail, then a checkout session for the selected plan. */
  datatype SignupRequest = SignupRequest(email: string, password: string, planId: PlanId)

  /** How the account creation or the checkout request failed. */
  datatype Failure =
    | CheckoutRejected(bodyError: Option<string>)
    | ErrorThrown(message: string)
    | OtherThrown

  /** The message the form shows for a failure. */
  function FailureMessage(f: Failure): string {
    match f
    case CheckoutRejected(bodyError) =>
      if bodyError.Some? then bodyError.value else "Não foi possível iniciar o checkout."
    case ErrorThrown(message) => message
    case OtherThrown => "Erro ao criar conta."
  }

  datatype SignupState = SignupState(
    planId: PlanId,
    email: string,
    password: string,
    password2: string,
    isSubmitting: bool,
    error: Option<string>)

  /** The browser submits the form only when the e-mail input (`type="email"`,
      `required`) holds a valid e-mail address and both `required` password
      inputs are non-empty. */
  predicate BrowserAccepts(s: SignupState) {
    && RequiredFieldAccepts(s.email) && EmailFieldAccepts(s.email)
    && RequiredFieldAccepts(s.password) && RequiredFieldAccepts(s.password2)
  }

  /** What a press of the submit button does. While a request is pending the
      button is disabled, and while a control is invalid the browser does not
      submit the form: either way a press does nothing. Otherwise the handler
      runs: the error is cleared, then either the handler stops (silently or
      with a message) or the form is marked submitting and the request goes
      out. */
  function SubmitOutcome(s: SignupState): (SignupState, Option<SignupRequest>) {
    if s.isSubmitting || !BrowserAccepts(s) then (s, None) else
    match CheckSignup(s.email, s.password, s.password2)
    case SilentReturn => (s.(error := None), None)
    case Refused(message) => (s.(error := Some(message)), None)
    case Proceed(cleanedEmail) =>
      (s.(error := None, isSubmitting := true), Some(SignupRequest(cleanedEmail, s.password, s.planId)))
  }

  /** A request leaves the page only when none is pending, with a valid e-mail
      address, a password of at least 6 characters that matches its
      confirmation, and the chosen plan; the address goes out exactly as typed.
      A press while a request is pending or while the browser refuses the form
      changes nothing, and the fields the user typed are never altered by a
      submit. */
  lemma SubmitOutcomeMeaning(s: SignupState)
    ensures var (next, request) := SubmitOutcome(s);
      && next.(isSubmitting := s.isSubmitting, error := s.error) == s
      && (s.isSubmitting || !BrowserAccepts(s) ==> next == s && request.None?)
      && (request.Some? <==>
            !s.isSubmitting && IsValidEmailAddress(s.email) && |s.password| >= 6 && s.password == s.password2)
      && (request.Some? ==> request.value == SignupRequest(s.email, s.password, s.planId) && next.isSubmitting)
      && (request.None? ==> next.isSubmitting == s.isSubmitting)
  {
    if !s.isSubmitting && BrowserAccepts(s) {
      ValidEmailIsTrimmed(s.email);
      CheckSignupMeaning(s.email, s.password, s.password2);
    }
  }

  /** Once the browser lets the form through, the handler's own silent return
      for a blank e-mail or an empty password cannot happen. */
  lemma BrowserPreemptsSilentReturn(s: SignupState)
    requires BrowserAccepts(s)
    ensures !CheckSignup(s.email, s.password, s.password2).SilentReturn?
  {
    ValidEmailIsTrimmed(s.email);
    CheckSignupMeaning(s.email, s.password, s.password2);
  }

  /** A bare word in the e-mail input stops the press in the browser, however
      good the passwords are. */
  lemma BareWordEmailSendsNothing()
    ensures var s := SignupState(StripePlans.Pro, "abc", "secret1", "secret1", false, None);
      SubmitOutcome(s) == (s, None)
  {
    BareWordIsNoEmail();
  }

  /** The `SignupPage` component's state. */
  class SignupForm {
    var planId: PlanId
    var email: string
    var password: string
    var password2: string
    var isSubmitting: bool
    var error: Option<string>

    function State(): SignupState
      reads this
    {
      SignupState(planId, email, password, password2, isSubmitting, error)
    }

    /** The page opens with the `?plan=` parameter normalised and empty fields. */
    constructor(planParam: Option<string>)
      ensures State() == SignupState(NormalizePlanId(planParam), [], [], [], false, None)
    {
      planId := NormalizePlanId(planParam);
      email := [];
      password := [];
      password2 := [];
      isSubmitting := false;
      error := None;
    }

    /** Clicking a plan card. */
    method ChoosePlan(id: PlanId)
      modifies this
      ensures State() == old(State()).(planId := id)
    {
      planId := id;
    }

    method EditEmail(value: string)
      modifies this
      ensures State() == old(State()).(email := value)
    {
      email := value;
    }

    method EditPassword(value: string)
      modifies this
      ensures State() == old(State()).(password := value)
    {
      password := value;
    }

    method EditConfirmation(value: string)
      modifies this
      ensures State() == old(State()).(password2 := value)
    {
      password2 := value;
    }

    /** A press of the submit button, up to the account creation; the button
        is disabled while a request is pending, and the browser runs the
        handler only when every control is valid. */
    method Submit() returns (request: Option<SignupRequest>)
      modifies this
      ensures (State(), request) == SubmitOutcome(old(State()))
      ensures old(isSubmitting) || !BrowserAccepts(old(State())) ==> State() == old(State()) && request.None?
    {
      if isSubmitting || !BrowserAccepts(State()) {
        return None;
      }
      error := None;
      var cleanedEmail := Trim(email);
      if cleanedEmail == [] || password == [] {
        return None;
      }
      if |password| < 6 {
        error := Some("A senha precisa ter pelo menos 6 caracteres.");
        return None;
      }
      if password != password2 {
        error := Some("As senhas não coincidem.");
        return None;
      }
      isSubmitting := true;
      request := Some(SignupRequest(cleanedEmail, password, planId));
    }

    /** The catch block: the failure's message is shown and the button is
        enabled again. A success navigates away and is not modelled. */
    method ReceiveFailure(f: Failure)
      modifies this
      ensures State() == old(State()).(error := Some(FailureMessage(f)), isSubmitting := false)
    {
      error := Some(FailureMessage(f));
      isSubmitting := false;
    }
  }
}
