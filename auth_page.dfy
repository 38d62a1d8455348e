/** The form navigation of `components/AuthPage.tsx`: which of the four forms is
    shown, the callbacks each shown form is given, and the sign-up details kept
    for the verification form. */
module AuthPage {
  import opened Prelude

  datatype AuthForm = Login | Signup | ForgotPassword | VerifyPhone

  datatype PendingDetails = PendingDetails(email: string, phone: string)

  datatype PageState = PageState(form: AuthForm, pending: Option<PendingDetails>)

  /** The callbacks a form can invoke. */
  datatype Navigation =
    | SwitchToLogin
    | SwitchToSignup
    | SwitchToForgotPassword
    | SwitchToVerify(email: string, phone: string)

  const Initial: PageState := PageState(Login, None)

  /** The callbacks the form `form` is rendered with. */
  predicate Offers(form: AuthForm, nav: Navigation)
  {
    match form
    case Login => nav == SwitchToSignup || nav == SwitchToForgotPassword
    case Signup => nav == SwitchToLogin || nav.SwitchToVerify?
    case ForgotPassword => nav == SwitchToLogin
    case VerifyPhone => nav == SwitchToLogin
  }

  /** The state after the shown form invokes `nav`; `None` when the shown form has
      no such callback. */
  function Step(s: PageState, nav: Navigation): (r: Option<PageState>)
    ensures r.Some? <==> Offers(s.form, nav)
    ensures s.form == Login && r.Some? ==> r.value.form == Signup || r.value.form == ForgotPassword
    ensures r.Some? && nav == SwitchToLogin ==> r.value == s.(form := Login)
    ensures r.Some? && nav == SwitchToSignup ==> r.value == s.(form := Signup)
    ensures r.Some? && nav == SwitchToForgotPassword ==> r.value == s.(form := ForgotPassword)
    ensures r.Some? && nav.SwitchToVerify? ==>
      r.value == PageState(VerifyPhone, Some(PendingDetails(nav.email, nav.phone)))
  {
    if !Offers(s.form, nav) then None
    else
      match nav
      case SwitchToLogin => Some(s.(form := Login))
      case SwitchToSignup => Some(s.(form := Signup))
      case SwitchToForgotPassword => Some(s.(form := ForgotPassword))
      case SwitchToVerify(email, phone) => Some(PageState(VerifyPhone, Some(PendingDetails(email, phone))))
  }

  /** The state after a callback: unchanged when the shown form has none such. */
  function Apply(s: PageState, nav: Navigation): PageState
  {
    match Step(s, nav)
    case Some(t) => t
    case None => s
  }

  /** The state after a run of callbacks from the initial state. */
  function Run(navs: seq<Navigation>): PageState
  {
    if navs == [] then Initial else Apply(Run(navs[..|navs| - 1]), navs[|navs| - 1])
  }

  /** The phone handed to the verification form, `''` without pending details. */
  function VerifyFormPhone(s: PageState): string
  {
    match s.pending
    case Some(details) => details.phone
    case None => ""
  }

  /** The verification form is shown only with sign-up details recorded. */
  predicate WellFormed(s: PageState)
  {
    s.form == VerifyPhone ==> s.pending.Some?
  }

  /** Every state reachable from the initial one is well formed, so the
      verification form always gets the phone recorded at sign-up, never the
      empty fallback. */
  lemma {:induction false} ReachableStatesAreWellFormed(navs: seq<Navigation>)
    ensures WellFormed(Run(navs))
    ensures Run(navs).form == VerifyPhone ==> VerifyFormPhone(Run(navs)) == Run(navs).pending.value.phone
  {
    if navs != [] {
      ReachableStatesAreWellFormed(navs[..|navs| - 1]);
    }
  }

  class AuthPageState {
    var state: PageState

    constructor ()
      ensures state == Initial
    {
      state := Initial;
    }

    /** A callback invoked by the shown form; one the form lacks does nothing. */
    method Navigate(nav: Navigation) returns (handled: bool)
      modifies this
      ensures handled == Offers(old(state).form, nav)
      ensures state == Apply(old(state), nav)
    {
      var next := Step(state, nav);
      handled := next.Some?;
      if handled {
        state := next.value;
      }
    }

    /** `handleSwitchToVerify`: records the details and shows the verification
        form. */
    method SwitchToVerifyForm(email: string, phone: string)
      modifies this
      ensures state == PageState(VerifyPhone, Some(PendingDetails(email, phone)))
      ensures VerifyFormPhone(state) == phone
    {
      state := PageState(VerifyPhone, Some(PendingDetails(email, phone)));
    }
  }
}
