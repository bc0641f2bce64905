/**
 * What a page handler can do to the browser: dispatch to the global store,
 * write a cookie, navigate, and show a notice (a snackbar or an alert). The
 * effects are recorded in order so that the handlers' contracts can say
 * exactly what they did.
 */
module Client {
  import opened Common
  import opened Types
  import Store

  /** A cookie value; the pages write JSON-serialised records. */
  datatype CookieValue =
    | ShippingAddressCookie(address: ShippingAddress)
    | UserInfoCookie(info: UserInfo)

  class Browser {
    var store: Store.State
    var dispatched: seq<Store.Action>
    var cookies: map<string, CookieValue>
    var history: seq<string>
    var notices: seq<string>

    constructor (store: Store.State, cookies: map<string, CookieValue>)
      ensures this.store == store && this.cookies == cookies
      ensures dispatched == [] && history == [] && notices == []
    {
      this.store := store;
      this.cookies := cookies;
      dispatched := [];
      history := [];
      notices := [];
    }

    /** `dispatch(a)`: the store takes its reducer's next state. */
    method Dispatch(a: Store.Action)
      modifies this
      ensures store == Store.Reduce(old(store), a) && dispatched == old(dispatched) + [a]
      ensures cookies == old(cookies) && history == old(history) && notices == old(notices)
    {
      store := Store.Reduce(store, a);
      dispatched := dispatched + [a];
    }

    /** `Cookies.set(name, value)`. */
    method SetCookie(name: string, value: CookieValue)
      modifies this
      ensures cookies == old(cookies)[name := value]
      ensures store == old(store) && dispatched == old(dispatched)
      ensures history == old(history) && notices == old(notices)
    {
      cookies := cookies[name := value];
    }

    /** `router.push(path)`. */
    method Push(path: string)
      modifies this
      ensures history == old(history) + [path]
      ensures store == old(store) && dispatched == old(dispatched)
      ensures cookies == old(cookies) && notices == old(notices)
    {
      history := history + [path];
    }

    /** `enqueueSnackbar(message)` or `window.alert(message)`. */
    method Notify(message: string)
      modifies this
      ensures notices == old(notices) + [message]
      ensures store == old(store) && dispatched == old(dispatched)
      ensures cookies == old(cookies) && history == old(history)
    {
      notices := notices + [message];
    }

    /** `closeSnackbar()`: every notice on screen is dismissed. */
    method CloseNotices()
      modifies this
      ensures notices == []
      ensures store == old(store) && dispatched == old(dispatched)
      ensures cookies == old(cookies) && history == old(history)
    {
      notices := [];
    }
  }
}
