/** The login page (features/auth/pages/login/login.component.ts): a
    two-field form whose submit asks the facade to log in, then either goes
    to the page the user came from or shows why it failed. The login request
    runs between `OnSubmit` and `OnLoginSettled`. */
module LoginPage {
  import opened Common
  import opened Facade
  import opened Guard
  import opened ErrorMessages

  /** The form value handed to `login`. */
  datatype Credentials = Credentials(username: string, password: string)

  const LoginFailed := "Erro ao fazer login. Verifique suas credenciais."

  /** Where a successful login goes: `returnUrl || '/'`. */
  function LoginTarget(returnUrl: Option<string>): (t: string)
    ensures t != ""
    ensures TruthyText(returnUrl) ==> t == returnUrl.value
    ensures !TruthyText(returnUrl) ==> t == "/"
  {
    if TruthyText(returnUrl) then returnUrl.value else "/"
  }

  /** The toast shown when login fails with `e` (already translated by the
      facade). */
  function FailureToast(e: Thrown): (t: Toast)
    ensures t.severity == "error" && t.summary == "Erro"
    ensures t.detail == ErrorDetail(e, LoginFailed)
    ensures Trim(t.detail) != ""
  {
    VisibleEndNotBlank(LoginFailed);
    Toast("error", "Erro", ErrorDetail(e, LoginFailed))
  }

  class LoginComponent {
    const facade: AuthFacade
    const router: Router
    const messages: MessageService
    /** The `username` and `password` controls. */
    var username: string
    var password: string
    var isLoading: bool

    constructor (facade: AuthFacade, router: Router, messages: MessageService)
      ensures this.facade == facade && this.router == router && this.messages == messages
      ensures username == "" && password == "" && !isLoading
    {
      this.facade := facade;
      this.router := router;
      this.messages := messages;
      username := "";
      password := "";
      isLoading := false;
    }

    /** Both controls carry `Validators.required`. */
    predicate FormValid()
      reads this
    {
      username != "" && password != ""
    }

    /** `onSubmit` up to the request: an invalid form does nothing; otherwise
        the page starts loading and the credentials go to `login`. */
    method OnSubmit() returns (sent: Option<Credentials>)
      modifies this`isLoading
      ensures sent.Some? <==> FormValid()
      ensures sent.Some? ==> sent.value == Credentials(username, password) && isLoading
      ensures sent.None? ==> isLoading == old(isLoading)
    {
      if !FormValid() {
        sent := None;
        return;
      }
      isLoading := true;
      sent := Some(Credentials(username, password));
    }

    /** `login` has answered at `now`; `returnUrl` is the route's query
        parameter. Loading ends either way; success navigates, failure
        shows a toast and stays. */
    method OnLoginSettled(response: Result<TokenResponse, Thrown>, now: int, returnUrl: Option<string>)
      requires facade.Valid()
      modifies this`isLoading, facade, facade.router, facade.storage, facade.storage.storage, router, messages
      ensures !isLoading && facade.Valid()
      ensures response.Success? ==>
        && facade.state == SessionFrom(response.value, now)
        && router.navigations == old(router.navigations) + [Navigation([LoginTarget(returnUrl)], None)]
        && messages.toasts == old(messages.toasts)
      ensures response.Failure? ==>
        && facade.state == old(facade.state)
        && router.navigations == old(router.navigations)
        && messages.toasts == old(messages.toasts) + [FailureToast(LoginError(response.error))]
    {
      var r := facade.Login(response, now);
      isLoading := false;
      Present(r, returnUrl);
    }

    /** The `next` and `error` handlers of the login subscription. */
    method Present(r: Result<bool, Thrown>, returnUrl: Option<string>)
      modifies router, messages
      ensures r.Success? ==>
        && router.navigations == old(router.navigations) + [Navigation([LoginTarget(returnUrl)], None)]
        && messages.toasts == old(messages.toasts)
      ensures r.Failure? ==>
        && router.navigations == old(router.navigations)
        && messages.toasts == old(messages.toasts) + [FailureToast(r.error)]
    {
      match r
      case Success(_) =>
        router.Navigate(Navigation([LoginTarget(returnUrl)], None));
      case Failure(e) =>
        messages.Add(FailureToast(e));
    }
  }

  /** A user the guard stopped at `url` is sent back to `url` after logging
      in. */
  lemma GuardRedirectReturns(url: string)
    requires url != ""
    ensures var d := Decide(false, url);
      d.redirect.Some? && LoginTarget(d.redirect.value.returnUrl) == url
  {
  }

  /** The error handler's 401 message opens with "Não autorizado", so the
      facade reads it as a credential error. */
  lemma UnauthorizedIsCredentialError()
    ensures IsCredentialError(Text(Unauthorized))
    ensures LoginError(Text(Unauthorized)) == Text(BadCredentials)
  {
    assert ToLower(NotAuthorizedLead) == "n\U{00E3}o autorizado";
    NotAuthorizedLeadIsCredentialError(NotAuthorizedLead, ". Fa\U{00E7}a login novamente.");
  }

  /** A login the API refuses with 401 shows "Usuário ou senha incorretos.",
      whatever the response body says. */
  lemma RejectedLoginMessage(r: HttpErrorResponse)
    requires !r.clientSide && r.status == 401
    ensures FailureToast(LoginError(Text(HandleError(r)))).detail == BadCredentials
  {
    assert HandleError(r) == Unauthorized;
    UnauthorizedIsCredentialError();
    assert FailureToast(Text(BadCredentials)).detail == BadCredentials by {
      VisibleEndNotBlank(BadCredentials);
    }
  }
}
