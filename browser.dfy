/** The browser facilities the application reaches through globals: the
    persistent credential store (`localStorage`) and the `window` event target
    on which the session-expired signal is broadcast. */
module Browser {

  datatype Option<+T> = None | Some(value: T)

  /** The four well-known store keys. */
  const AccessToken: string := "access_token"
  const RefreshToken: string := "refresh_token"
  const UserId: string := "user_id"
  const Username: string := "username"

  /** `localStorage.getItem`: absence is a valid, expected value. */
  function Lookup(items: map<string, string>, key: string): (r: Option<string>)
    ensures r.Some? <==> key in items
    ensures r.Some? ==> r.value == items[key]
  {
    if key in items then Some(items[key]) else None
  }

  /** JavaScript truthiness of a stored value: `null` and `""` are falsy. */
  predicate Truthy(v: Option<string>)
    ensures Truthy(v) <==> v != None && v != Some("")
  {
    v.Some? && v.value != ""
  }

  /** The store after both tokens are removed (logout, unrecoverable session). */
  function WithoutTokens(items: map<string, string>): (r: map<string, string>)
    ensures AccessToken !in r && RefreshToken !in r
    ensures forall k :: k != AccessToken && k != RefreshToken ==> Lookup(r, k) == Lookup(items, k)
  {
    items - {AccessToken, RefreshToken}
  }

  /** The only signal broadcast on `window`. */
  datatype Event = SessionExpired

  /** `localStorage`: overwrite on set, idempotent remove. */
  class Storage {
    var items: map<string, string>

    constructor (initial: map<string, string>)
      ensures items == initial
    {
      items := initial;
    }

    function GetItem(key: string): (r: Option<string>)
      reads this
      ensures r.Some? <==> key in items
      ensures r.Some? ==> r.value == items[key]
    {
      Lookup(items, key)
    }

    method SetItem(key: string, value: string)
      modifies this
      ensures items == old(items)[key := value]
    {
      items := items[key := value];
    }

    method RemoveItem(key: string)
      modifies this
      ensures items == old(items) - {key}
    {
      items := items - {key};
    }
  }

  /** The `window` event target: the log of dispatched events and the set of
      registered session-expired listeners (each a distinct closure). */
  class Window {
    var dispatched: seq<Event>
    var listeners: set<nat>

    constructor ()
      ensures dispatched == [] && listeners == {}
    {
      dispatched, listeners := [], {};
    }

    method DispatchEvent(e: Event)
      modifies this
      ensures dispatched == old(dispatched) + [e]
      ensures listeners == old(listeners)
    {
      dispatched := dispatched + [e];
    }

    /** `addEventListener`: registering the same closure twice has no effect. */
    method AddEventListener(listener: nat)
      modifies this
      ensures listeners == old(listeners) + {listener}
      ensures dispatched == old(dispatched)
    {
      listeners := listeners + {listener};
    }

    /** `removeEventListener`: removing an unregistered closure is a no-op. */
    method RemoveEventListener(listener: nat)
      modifies this
      ensures listeners == old(listeners) - {listener}
      ensures dispatched == old(dispatched)
    {
      listeners := listeners - {listener};
    }
  }
}
