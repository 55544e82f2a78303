/** The `useAuth` hook: the periodic check of the stored access token and the
    refresh it falls back on, sent through the authenticated gateway. */
module UseAuth {
  import opened Browser
  import opened Text
  import opened Jwt
  import Api
  import PrivateRoute

  /** What `checkAuth` does with the stored token. */
  datatype Check = Unauthenticated | Authenticated | Refresh

  /** `checkAuth`'s decision: no (or an empty) token, or one that does not
      decode, is unauthenticated; an expired one is refreshed; any other
      token, including one without `exp`, is authenticated. */
  function CheckDecision(token: Option<string>, decode: string -> Decoded, now: real): (c: Check)
    ensures c == Unauthenticated <==> !Truthy(token) || decode(token.value).Undecodable?
    ensures c == Refresh <==> Truthy(token) && ExpiredAt(decode(token.value), now)
  {
    if token.Some? && token.value != "" then
      match decode(token.value)
      case Undecodable => Unauthenticated
      case Claims(exp) => if exp.Some? && exp.value < now then Refresh else Authenticated
    else Unauthenticated
  }

  /** Given the same decoder, the hook and the route guard agree: outside the
      session-expired modal a guarded page renders exactly when the hook would
      report authenticated, and a token the hook would refresh is redirected. */
  lemma CheckAgreesWithGuard(token: Option<string>, decode: string -> Decoded, now: real)
    ensures CheckDecision(token, decode, now) == Authenticated <==>
      PrivateRoute.Guard(false, token, decode, now) == PrivateRoute.Children
    ensures CheckDecision(token, decode, now) == Refresh ==>
      PrivateRoute.Guard(false, token, decode, now) == PrivateRoute.Redirect(PrivateRoute.LoginRoute)
  {
  }

  /** The body of the refresh endpoint's answer. */
  datatype TokenBody = TokenBody(access: string)

  /** The path the hook posts the refresh token to, as written. */
  const WrittenRefreshPath: string := "/api/token/refresh/"

  /** The path that reaches the refresh endpoint through the same client. */
  const RefreshPath: string := "/token/refresh/"

  /** The address a relative path reaches: the client's base URL has no
      trailing slash and the path starts with exactly one, so the two are
      concatenated. Other paths are joined differently by the client and are
      not modelled. */
  function Target(path: string): (u: string)
    requires |path| > 0 && path[0] == '/' && (|path| == 1 || path[1] != '/')
    ensures StartsWith(u, Api.ApiBase) && |u| == |Api.ApiBase| + |path|
    ensures u[|Api.ApiBase|..] == path
  {
    Api.ApiBase + path
  }

  /** As written, the hook's refresh request does not reach the refresh
      endpoint: the base URL already ends in `/api`, so the path's own `/api`
      segment is doubled. */
  lemma WrittenRefreshMissesEndpoint()
    ensures Target(WrittenRefreshPath) != Api.RefreshEndpoint
    ensures Target(WrittenRefreshPath) == Api.ApiBase + "/api/token/refresh/"
  {
    var u, e := Target(WrittenRefreshPath), Api.RefreshEndpoint;
    assert |Api.ApiBase| == 77;
    assert u[|Api.ApiBase| + 1] == 'a' && e[|Api.ApiBase| + 1] == 't';
  }

  /** Corrected, the hook reaches the same endpoint as the gateway's own refresh,
      and the path is not mistaken for the login request. */
  lemma RefreshPathHitsEndpoint()
    ensures Target(RefreshPath) == Api.RefreshEndpoint
    ensures !EndsWith(RefreshPath, Api.LoginSuffix)
  {
    assert RefreshPath[|RefreshPath| - 2] == 'h';
  }

  /** The hook's state: whether the user is authenticated. */
  class AuthHook {
    var isAuthenticated: bool

    constructor ()
      ensures !isAuthenticated
    {
      isAuthenticated := false;
    }

    /** `refreshToken`: with no (or an empty) refresh token, unauthenticated and
        nothing else; otherwise post it through the gateway; on success store
        the new access token and authenticate, on failure remove both tokens
        (after whatever the gateway did) and unauthenticate. */
    method RefreshToken(gw: Api.Gateway, store: Storage, win: Window,
                        server: Api.Config -> Api.Reply<TokenBody>, refresh: string -> Api.RefreshReply<TokenBody>)
      returns (sent: bool)
      modifies this, gw, store, win
      ensures sent == Truthy(Lookup(old(store.items), Browser.RefreshToken))
      ensures !sent ==>
        && !isAuthenticated && store.items == old(store.items)
        && gw.trace == old(gw.trace) && gw.defaultAuth == old(gw.defaultAuth) && win.dispatched == old(win.dispatched)
      ensures sent ==>
        var s := Api.Send(old(store.items), Api.Config(RefreshPath, map[], false), old(gw.defaultAuth), server, refresh);
        && gw.defaultAuth == s.defaultAuth && gw.trace == old(gw.trace) + s.calls
        && win.dispatched == old(win.dispatched) + s.events
        && isAuthenticated == s.outcome.Fulfilled?
        && store.items == (if s.outcome.Fulfilled? then s.items[AccessToken := s.outcome.response.data.access]
                           else WithoutTokens(s.items))
      ensures win.listeners == old(win.listeners)
    {
      var stored := store.GetItem(Browser.RefreshToken);
      if !(stored.Some? && stored.value != "") {
        isAuthenticated := false;
        return false;
      }
      var req := new Api.Request(RefreshPath, map[]);
      var outcome := gw.Call(store, win, req, server, refresh);
      match outcome {
        case Fulfilled(response) =>
          store.SetItem(AccessToken, response.data.access);
          isAuthenticated := true;
        case Rejected(_) =>
          isAuthenticated := false;
          store.RemoveItem(AccessToken);
          store.RemoveItem(Browser.RefreshToken);
      }
      return true;
    }

    /** `checkAuth`: decide on the stored token; an expired one falls back on
        `refreshToken`. */
    method CheckAuth(gw: Api.Gateway, store: Storage, win: Window, decode: string -> Decoded, now: real,
                     server: Api.Config -> Api.Reply<TokenBody>, refresh: string -> Api.RefreshReply<TokenBody>)
      returns (decision: Check)
      modifies this, gw, store, win
      ensures decision == CheckDecision(Lookup(old(store.items), AccessToken), decode, now)
      ensures decision != Refresh ==>
        && isAuthenticated == (decision == Authenticated) && store.items == old(store.items)
        && gw.trace == old(gw.trace) && gw.defaultAuth == old(gw.defaultAuth)
        && win.dispatched == old(win.dispatched)
      ensures decision == Refresh && !Truthy(Lookup(old(store.items), Browser.RefreshToken)) ==>
        && !isAuthenticated && store.items == old(store.items) && gw.trace == old(gw.trace)
        && gw.defaultAuth == old(gw.defaultAuth) && win.dispatched == old(win.dispatched)
      ensures decision == Refresh && Truthy(Lookup(old(store.items), Browser.RefreshToken)) ==>
        var s := Api.Send(old(store.items), Api.Config(RefreshPath, map[], false), old(gw.defaultAuth), server, refresh);
        && gw.defaultAuth == s.defaultAuth && gw.trace == old(gw.trace) + s.calls
        && win.dispatched == old(win.dispatched) + s.events
        && isAuthenticated == s.outcome.Fulfilled?
        && store.items == (if s.outcome.Fulfilled? then s.items[AccessToken := s.outcome.response.data.access]
                           else WithoutTokens(s.items))
      ensures win.listeners == old(win.listeners)
    {
      decision := CheckDecision(store.GetItem(AccessToken), decode, now);
      match decision
      case Unauthenticated =>
        isAuthenticated := false;
      case Authenticated =>
        isAuthenticated := true;
      case Refresh =>
        var _ := RefreshToken(gw, store, win, server, refresh);
    }
  }
}
