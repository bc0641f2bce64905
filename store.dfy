/**
 * The global store of utils/Store.tsx. In this version of the storefront the
 * store state holds only the dark-mode flag; the reducer knows two actions
 * and returns the state unchanged for anything else. Pages nevertheless
 * dispatch cart, shipping-address and login actions to it, so those are
 * part of the action type here and are shown to leave the state as it was.
 */
module Store {
  import opened Common
  import opened Types

  datatype State = State(darkMode: bool)

  /** The actions dispatched to the store by the pages of the model. */
  datatype Action =
    | DarkModeOn
    | DarkModeOff
    | CartAddItem(item: CartItem)
    | SaveShippingAddress(address: ShippingAddress)
    | UserLogin(info: UserInfo)

  /** The initial state, from the value of the `darkMode` cookie (absent: `None`). */
  function InitialState(darkModeCookie: Option<string>): (s: State)
    ensures s.darkMode <==> darkModeCookie == Some("ON")
  {
    State(darkModeCookie == Some("ON"))
  }

  predicate IsDarkModeAction(a: Action) {
    a.DarkModeOn? || a.DarkModeOff?
  }

  function Reduce(s: State, a: Action): State {
    match a
    case DarkModeOn => s.(darkMode := true)
    case DarkModeOff => s.(darkMode := false)
    case _ => s
  }

  /** The two dark-mode actions set the flag whatever it was, and nothing else. */
  lemma DarkModeActionsSetTheFlag(s: State)
    ensures Reduce(s, DarkModeOn).darkMode && !Reduce(s, DarkModeOff).darkMode
    ensures Reduce(s, DarkModeOn) == Reduce(State(false), DarkModeOn)
    ensures Reduce(s, DarkModeOff) == Reduce(State(true), DarkModeOff)
  {
  }

  /** Dispatching the same action twice is the same as dispatching it once. */
  lemma ReduceIsIdempotent(s: State, a: Action)
    ensures Reduce(Reduce(s, a), a) == Reduce(s, a)
  {
  }

  /** Every action other than the two dark-mode ones leaves the state as it was. */
  lemma OtherActionsAreIgnored(s: State, a: Action)
    requires !IsDarkModeAction(a)
    ensures Reduce(s, a) == s
  {
  }

  /** The state after `useReducer` has processed the dispatched actions in order. */
  function ReduceAll(s: State, acts: seq<Action>): State
    decreases |acts|
  {
    if acts == [] then s else ReduceAll(Reduce(s, acts[0]), acts[1..])
  }

  /** The flag the last dark-mode action in `acts` sets, if there is one. */
  function LastToggle(acts: seq<Action>): (r: Option<bool>)
    ensures r.None? <==> forall i :: 0 <= i < |acts| ==> !IsDarkModeAction(acts[i])
    decreases |acts|
  {
    if acts == [] then None
    else if IsDarkModeAction(acts[|acts| - 1]) then Some(acts[|acts| - 1].DarkModeOn?)
    else LastToggle(acts[..|acts| - 1])
  }

  lemma {:induction false} ReduceAllSnoc(s: State, acts: seq<Action>, a: Action)
    ensures ReduceAll(s, acts + [a]) == Reduce(ReduceAll(s, acts), a)
    decreases |acts|
  {
    if acts != [] {
      assert (acts + [a])[1..] == acts[1..] + [a];
      ReduceAllSnoc(Reduce(s, acts[0]), acts[1..], a);
    }
  }

  /**
   * After any sequence of dispatches the flag is the one the last dark-mode
   * action set, or the initial flag when there was none.
   */
  lemma {:induction false} ReduceAllFollowsLastToggle(s: State, acts: seq<Action>)
    ensures ReduceAll(s, acts).darkMode == LastToggle(acts).GetOr(s.darkMode)
    decreases |acts|
  {
    if acts != [] {
      var init, last := acts[..|acts| - 1], acts[|acts| - 1];
      assert acts == init + [last];
      ReduceAllSnoc(s, init, last);
      ReduceAllFollowsLastToggle(s, init);
    }
  }

  // ---------------------------------------------------------------------
  // The state object as the pages read it.

  /**
   * A JavaScript value, as far as the pages' reads of the store state need
   * one: `undefined`, a boolean, or an object with named properties.
   */
  datatype JsValue = Undefined | Bool(flag: bool) | Object(props: map<string, JsValue>)

  const TypeError := "TypeError: Cannot read properties of undefined"

  /**
   * Property access `v.key`, and destructuring `{ key } = v`: a missing
   * property is `undefined`, and only reading from `undefined` throws.
   */
  function Get(v: JsValue, key: string): (r: Result<JsValue>)
    ensures r.Err? <==> v.Undefined?
    ensures r.Ok? && r.value != Undefined ==> v.Object? && key in v.props && r.value == v.props[key]
  {
    match v
    case Undefined => Err(TypeError)
    case Bool(_) => Ok(Undefined)
    case Object(props) => Ok(if key in props then props[key] else Undefined)
  }

  /** A chain of reads `v.k1.k2…`, which throws at the first read from `undefined`. */
  function Read(v: JsValue, path: seq<string>): (r: Result<JsValue>)
    ensures r.Err? ==> r.error == TypeError && path != []
    decreases |path|
  {
    if path == [] then Ok(v)
    else
      match Get(v, path[0])
      case Err(e) => Err(e)
      case Ok(w) => Read(w, path[1..])
  }

  /**
   * A destructuring pattern over several paths of `v`, read in order: the
   * values of all of them, or the first read's error.
   */
  function ReadAll(v: JsValue, paths: seq<seq<string>>): (r: Result<seq<JsValue>>)
    ensures r.Ok? ==> |r.value| == |paths| && forall i :: 0 <= i < |paths| ==> Read(v, paths[i]) == Ok(r.value[i])
    ensures r.Err? <==> exists i :: 0 <= i < |paths| && Read(v, paths[i]).Err?
    ensures r.Err? ==> r.error == TypeError
    decreases |paths|
  {
    if paths == [] then Ok([])
    else
      match Read(v, paths[0])
      case Err(e) => Err(e)
      case Ok(w) =>
        match ReadAll(v, paths[1..])
        case Err(e) => Err(e)
        case Ok(ws) =>
          assert forall i :: 1 <= i < |paths| ==> paths[i] == paths[1..][i - 1];
          Ok([w] + ws)
  }

  /** The state object `useReducer` holds: `{ darkMode }`, with no other property. */
  function StateObject(s: State): (v: JsValue)
    ensures v.Object? && v.props.Keys == {"darkMode"} && v.props["darkMode"] == Bool(s.darkMode)
  {
    Object(map["darkMode" := Bool(s.darkMode)])
  }

  /**
   * Any property other than `darkMode` reads as `undefined`, and reading
   * anything from it throws.
   */
  lemma MissingPropertyThrows(s: State, key: string, next: string)
    requires key != "darkMode"
    ensures Read(StateObject(s), [key]) == Ok(Undefined)
    ensures Read(StateObject(s), [key, next]) == Err(TypeError)
  {
    assert [key, next][1..] == [next];
  }

  /** `state.userInfo` is `undefined` in every state: each page sees a visitor who is not logged in. */
  lemma UserInfoIsUndefined(s: State)
    ensures Read(StateObject(s), ["userInfo"]) == Ok(Undefined)
  {
    MissingPropertyThrows(s, "userInfo", "token");
  }
}
