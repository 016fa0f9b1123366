/** The sign-in view of frontend/src/pages/Login.jsx. Its submit handler is
    an async function with one await; the model splits it there, so that the
    state while the request is in flight can be spoken about. */
module LoginView {
  import opened Common
  import opened Api

  const LoginEndpoint := "/login"
  const DashboardPath := "/dashboard"
  const InvalidResponseText := "Invalid response from server"
  const LoginFailedText := "Login failed. Please check your credentials."

  /** The body `handleLogin` posts: the form's email and password. */
  function LoginBody(email: string, password: string): (b: Json)
    ensures b.Keys == {"email", "password"}
    ensures b["email"] == email && b["password"] == password
  {
    map["email" := email, "password" := password]
  }

  /** The text the view shows for a rejected login: the server's `message`
      when it is truthy, a fixed fallback otherwise. */
  function FailureText(response: Option<HttpError>): (t: string)
    ensures Truthy(MessageOf(response)) ==> t == MessageOf(response).value
    ensures !Truthy(MessageOf(response)) ==> t == LoginFailedText
    ensures t != ""
  {
    var m := MessageOf(response);
    if Truthy(m) then m.value else LoginFailedText
  }

  class LoginPage {
    var email: string
    var password: string
    var loading: bool
    var error: string
    const browser: Browser

    constructor (browser: Browser)
      ensures this.browser == browser
      ensures email == "" && password == "" && !loading && error == ""
    {
      this.browser := browser;
      email, password, loading, error := "", "", false, "";
    }

    /** The submit button's `disabled` attribute. */
    predicate SubmitDisabled()
      reads this
    {
      loading
    }

    /** `handleLogin` up to its await: loading on, error cleared, and the
        credentials posted through the intercepted client. */
    method BeginLogin() returns (req: Request)
      modifies this`loading, this`error
      ensures loading && error == "" && SubmitDisabled()
      ensures req == Request(Post, LoginEndpoint, OutgoingHeaders(browser.token), LoginBody(email, password))
    {
      loading := true;
      error := "";
      req := Send(browser, Post, LoginEndpoint, LoginBody(email, password));
    }

    /** `handleLogin` after its await: the try, catch and finally blocks. */
    method FinishLogin(outcome: Outcome)
      modifies this`loading, this`error, browser
      ensures !loading && !SubmitDisabled()
      ensures outcome.Success? && Truthy(AccessTokenOf(outcome.data)) ==>
        browser.token == AccessTokenOf(outcome.data) && browser.location == DashboardPath
        && error == old(error)
      ensures outcome.Success? && !Truthy(AccessTokenOf(outcome.data)) ==>
        error == InvalidResponseText && unchanged(browser)
      ensures outcome.Failure? ==> error == FailureText(outcome.response) && unchanged(browser)
      ensures browser.token != old(browser.token) ==> Truthy(browser.token)
      ensures old(browser.NoFalsyToken()) ==> browser.NoFalsyToken()
    {
      match outcome {
        case Success(data) =>
          var token := AccessTokenOf(data);
          if Truthy(token) {
            browser.token := token;
            browser.location := DashboardPath;
          } else {
            error := InvalidResponseText;
          }
        case Failure(response) =>
          error := FailureText(response);
      }
      loading := false;
    }

    /** The whole submit handler, for one outcome of the request. */
    method HandleLogin(outcome: Outcome) returns (req: Request)
      modifies this`loading, this`error, browser
      ensures req == Request(Post, LoginEndpoint, OutgoingHeaders(old(browser.token)), LoginBody(email, password))
      ensures !loading && !SubmitDisabled()
      ensures outcome.Success? && Truthy(AccessTokenOf(outcome.data)) ==>
        browser.token == AccessTokenOf(outcome.data) && browser.location == DashboardPath && error == ""
      ensures outcome.Success? && !Truthy(AccessTokenOf(outcome.data)) ==>
        error == InvalidResponseText && unchanged(browser)
      ensures outcome.Failure? ==> error == FailureText(outcome.response) && unchanged(browser)
      ensures browser.token != old(browser.token) ==> Truthy(browser.token)
      ensures old(browser.NoFalsyToken()) ==> browser.NoFalsyToken()
    {
      req := BeginLogin();
      FinishLogin(outcome);
    }
  }
}
