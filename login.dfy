/** The login form: the credential request through the gateway, the four
    store writes on success, and the classification of a failure into the
    message shown. */
module Login {
  import opened Browser
  import opened Text
  import Api

  const LoginPath: string := "/token/"
  const TasksRoute: string := "/tasks"

  const IncorrectCredentials: string := "Incorrect username or password."
  const FailedPrefix: string := "Login failed: "
  const NoResponse: string := "Login failed: No response from server."

  /** The body of the token endpoint's answer: the two tokens and the user's
      id and name on success, an optional `detail` on failure. */
  datatype LoginBody = LoginBody(access: string, refresh: string, userId: string, username: string,
                                 detail: Option<string>)

  /** A template literal renders a missing property as `undefined`. */
  function Rendered(v: Option<string>): (r: string)
    ensures v.Some? ==> r == v.value
    ensures v.None? ==> r == "undefined"
  {
    if v.Some? then v.value else "undefined"
  }

  /** The catch block's message. A 401 answer reads as wrong credentials and
      is the only failure that does; any other answer shows the server's
      `detail`; a request that got no answer shows the no-response message;
      a request never made shows the client's own error message. */
  function LoginError(e: Api.Error<LoginBody>): (m: string)
    ensures m == IncorrectCredentials <==>
      Api.ErrorResponse(e).Some? && Api.ErrorResponse(e).value.status == 401
    ensures Api.ErrorResponse(e).Some? && Api.ErrorResponse(e).value.status != 401 ==>
      m == FailedPrefix + Rendered(Api.ErrorResponse(e).value.data.detail)
    ensures Api.ErrorResponse(e).None? && Api.RequestMade(e) ==> m == NoResponse
    ensures Api.ErrorResponse(e).None? && !Api.RequestMade(e) ==> m == FailedPrefix + Api.ErrorMessage(e)
    ensures m != IncorrectCredentials ==> StartsWith(m, FailedPrefix)
  {
    var answer := Api.ErrorResponse(e);
    if answer.Some? && answer.value.status == 401 then IncorrectCredentials
    else if answer.Some? then
      assert (FailedPrefix + Rendered(answer.value.data.detail))[0] == 'L';
      FailedPrefix + Rendered(answer.value.data.detail)
    else if Api.RequestMade(e) then NoResponse
    else
      assert (FailedPrefix + Api.ErrorMessage(e))[0] == 'L';
      FailedPrefix + Api.ErrorMessage(e)
  }

  /** The store after a successful login: the four keys written from the body,
      every other key as it was. */
  function WithCredentials(items: map<string, string>, body: LoginBody): (r: map<string, string>)
    ensures Lookup(r, AccessToken) == Some(body.access) && Lookup(r, RefreshToken) == Some(body.refresh)
    ensures Lookup(r, UserId) == Some(body.userId) && Lookup(r, Username) == Some(body.username)
    ensures forall k :: k != AccessToken && k != RefreshToken && k != UserId && k != Username ==>
      Lookup(r, k) == Lookup(items, k)
  {
    items[AccessToken := body.access][RefreshToken := body.refresh][UserId := body.userId][Username := body.username]
  }

  /** The request the form sends. */
  function LoginRequest(): (c: Api.Config)
    ensures EndsWith(c.url, Api.LoginSuffix) && !c.retry
  {
    Api.Config(LoginPath, map[], false)
  }

  /** Wrong credentials reach the form: the gateway lets a 401 on the login
      request through untouched (store, events and network calls), and the
      form then shows exactly the wrong-credentials message. */
  lemma WrongPasswordIsReported(items: map<string, string>, defaultAuth: Option<string>,
                                server: Api.Config -> Api.Reply<LoginBody>, refresh: string -> Api.RefreshReply<LoginBody>)
    requires server(Api.Outgoing(items, LoginRequest(), defaultAuth)).Answered?
    requires server(Api.Outgoing(items, LoginRequest(), defaultAuth)).response.status == 401
    ensures var s := Api.Send(items, LoginRequest(), defaultAuth, server, refresh);
      && s.outcome.Rejected? && LoginError(s.outcome.error) == IncorrectCredentials
      && s.items == items && s.events == [] && Api.RefreshCalls(s.calls) == 0 && Api.ServerCalls(s.calls) == 1
  {
    var sent := Api.Outgoing(items, LoginRequest(), defaultAuth);
    assert sent.url == LoginPath;
    Api.CallCountsSingle(Api.ServerCall(sent));
  }

  class LoginForm {
    var username: string
    var password: string
    var error: string

    constructor ()
      ensures username == "" && password == "" && error == ""
    {
      username, password, error := "", "", "";
    }

    /** `handleSubmit`: clear the error, post the credentials through the
        gateway, then either write the four keys and go to the task list, or
        show the classified message and write nothing more. */
    method HandleSubmit(gw: Api.Gateway, store: Storage, win: Window,
                        server: Api.Config -> Api.Reply<LoginBody>, refresh: string -> Api.RefreshReply<LoginBody>)
      returns (nav: Option<string>)
      modifies this, gw, store, win
      ensures var s := Api.Send(old(store.items), LoginRequest(), old(gw.defaultAuth), server, refresh);
        && gw.defaultAuth == s.defaultAuth && gw.trace == old(gw.trace) + s.calls
        && win.dispatched == old(win.dispatched) + s.events && win.listeners == old(win.listeners)
        && username == old(username) && password == old(password)
        && (s.outcome.Fulfilled? ==>
              store.items == WithCredentials(s.items, s.outcome.response.data) && error == "" && nav == Some(TasksRoute))
        && (s.outcome.Rejected? ==>
              store.items == s.items && error == LoginError(s.outcome.error) && nav == None)
    {
      error := "";
      var req := new Api.Request(LoginPath, map[]);
      var outcome := gw.Call(store, win, req, server, refresh);
      match outcome {
        case Fulfilled(response) =>
          var data := response.data;
          store.SetItem(AccessToken, data.access);
          store.SetItem(RefreshToken, data.refresh);
          store.SetItem(UserId, data.userId);
          store.SetItem(Username, data.username);
          nav := Some(TasksRoute);
        case Rejected(e) =>
          error := LoginError(e);
          nav := None;
      }
    }
  }
}
