/** The registration form: the request through the gateway, the field reset
    and success message, and the classification of a failure. */
module Register {
  import opened Browser
  import opened Text
  import Api

  const RegisterPath: string := "/accounts/register/"
  const LoginRoute: string := "/login"

  const Success: string := "Registration successful. You can now log in."
  const UsernameTaken: string := "Username already exists. Please check your inputs."
  const NoResponse: string := "No response from server. Please try again later."
  const Failed: string := "Registration failed. Please try again."

  /** The body of a registration answer as the form reads it: absent (or
      falsy), or an object with an optional `error` string and an optional
      list of `password` messages. */
  datatype RegisterBody = NoBody | Body(error: Option<string>, password: Option<seq<string>>)

  /** The catch block's message. With a body, a non-empty `error` wins, then
      the password messages joined by single spaces (any list, even an empty
      one), then the generic duplicate-user message; without a body, the
      no-response message if a request was made, else the generic failure. */
  function RegisterError(e: Api.Error<RegisterBody>): (m: string)
    ensures var answer := Api.ErrorResponse(e);
      && (answer.Some? && answer.value.data.Body? && Truthy(answer.value.data.error) ==> m == answer.value.data.error.value)
      && (answer.Some? && answer.value.data.Body? && !Truthy(answer.value.data.error) && answer.value.data.password.Some? ==>
            m == Join(answer.value.data.password.value, " "))
      && (answer.Some? && answer.value.data.Body? && !Truthy(answer.value.data.error) && answer.value.data.password.None? ==>
            m == UsernameTaken)
      && (!(answer.Some? && answer.value.data.Body?) && Api.RequestMade(e) ==> m == NoResponse)
      && (!(answer.Some? && answer.value.data.Body?) && !Api.RequestMade(e) ==> m == Failed)
  {
    var answer := Api.ErrorResponse(e);
    if answer.Some? && answer.value.data.Body? then
      var body := answer.value.data;
      if body.error.Some? && body.error.value != "" then body.error.value
      else if body.password.Some? then Join(body.password.value, " ")
      else UsernameTaken
    else if Api.RequestMade(e) then NoResponse
    else Failed
  }

  /** A single password message is shown as it is, and several are shown in
      order with exactly one space between neighbours: cutting the list
      anywhere, the message is the two parts' messages joined by one space. */
  lemma PasswordMessages(messages: seq<string>)
    ensures |messages| == 1 ==> Join(messages, " ") == messages[0]
    ensures forall k :: 0 < k < |messages| ==>
      Join(messages, " ") == Join(messages[..k], " ") + " " + Join(messages[k..], " ")
    ensures messages != [] ==> |Join(messages, " ")| == TotalLength(messages) + |messages| - 1
  {
    forall k | 0 < k < |messages|
      ensures Join(messages, " ") == Join(messages[..k], " ") + " " + Join(messages[k..], " ")
    {
      assert messages[..k] + messages[k..] == messages;
      JoinConcat(messages[..k], messages[k..], " ");
    }
    if messages != [] {
      JoinLength(messages, " ");
    }
  }

  /** A validation answer listing two password problems shows both, in order,
      separated by one space. */
  lemma ScenarioPasswordRejected(config: Api.Config)
    ensures var body := Body(None, Some(["Too short.", "Too common."]));
      RegisterError(Api.RequestError(config, Api.Answered(Api.Response(400, body)))) == "Too short. Too common."
  {
    var words := ["Too short.", "Too common."];
    assert words[..1] == ["Too short."];
    assert Join(words, " ") == Join(words[..1], " ") + " " + words[1];
  }

  /** A 401 on the registration request with no refresh token stored does not
      reach the server's message: the gateway ends the session and the form
      shows the generic failure, since no request object is attached. */
  lemma UnauthorizedRegistration(items: map<string, string>, defaultAuth: Option<string>,
                                 server: Api.Config -> Api.Reply<RegisterBody>, refresh: string -> Api.RefreshReply<RegisterBody>)
    requires !Truthy(Lookup(items, RefreshToken))
    requires var sent := Api.Outgoing(items, Api.Config(RegisterPath, map[], false), defaultAuth);
      server(sent).Answered? && server(sent).response.status == 401
    ensures var s := Api.Send(items, Api.Config(RegisterPath, map[], false), defaultAuth, server, refresh);
      && s.outcome.Rejected? && RegisterError(s.outcome.error) == Failed
      && s.events == [SessionExpired] && s.items == WithoutTokens(items)
  {
    var sent := Api.Outgoing(items, Api.Config(RegisterPath, map[], false), defaultAuth);
    assert sent.url == RegisterPath;
    assert !EndsWith(RegisterPath, Api.LoginSuffix) by {
      assert RegisterPath[|RegisterPath| - 2] == 'r';
    }
  }

  class RegisterForm {
    var username: string
    var email: string
    var password: string
    var error: string
    var success: string

    constructor ()
      ensures username == "" && email == "" && password == "" && error == "" && success == ""
    {
      username, email, password, error, success := "", "", "", "", "";
    }

    /** `handleSubmit`: clear both messages, post through the gateway, then
        either set the success message, clear the three fields and schedule
        the move to the login page, or show the classified message with the
        fields kept. */
    method HandleSubmit(gw: Api.Gateway, store: Storage, win: Window,
                        server: Api.Config -> Api.Reply<RegisterBody>, refresh: string -> Api.RefreshReply<RegisterBody>)
      returns (scheduled: Option<string>)
      modifies this, gw, store, win
      ensures var s := Api.Send(old(store.items), Api.Config(RegisterPath, map[], false), old(gw.defaultAuth), server, refresh);
        && store.items == s.items && gw.defaultAuth == s.defaultAuth && gw.trace == old(gw.trace) + s.calls
        && win.dispatched == old(win.dispatched) + s.events && win.listeners == old(win.listeners)
        && (s.outcome.Fulfilled? ==>
              && success == Success && error == "" && username == "" && email == "" && password == ""
              && scheduled == Some(LoginRoute))
        && (s.outcome.Rejected? ==>
              && success == "" && error == RegisterError(s.outcome.error) && scheduled == None
              && username == old(username) && email == old(email) && password == old(password))
    {
      error := "";
      success := "";
      var req := new Api.Request(RegisterPath, map[]);
      var outcome := gw.Call(store, win, req, server, refresh);
      match outcome {
        case Fulfilled(_) =>
          success := Success;
          username, email, password := "", "", "";
          scheduled := Some(LoginRoute);
        case Rejected(e) =>
          error := RegisterError(e);
          scheduled := None;
      }
    }
  }
}
