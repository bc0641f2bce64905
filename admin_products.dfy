/**
 * The admin products page: its local reducer, the effect that either
 * resets the delete flag or fetches the product list, and the create and
 * delete handlers. React re-runs the effect whenever `successDelete`
 * differs from its value at the previous run; `Page.Render` is that loop.
 */
module AdminProducts {
  import opened Common
  import opened Types
  import JsNumber

  /** `error` is `None` when the reducer stored `undefined`. */
  datatype State = State(
    loading: bool,
    loadingCreate: bool,
    loadingDelete: bool,
    successDelete: bool,
    products: seq<Product>,
    error: Option<string>)

  const InitialState := State(true, false, false, true, [], Some(""))

  /** The page's actions; `Unrecognized` stands for any other `type`. */
  datatype Action =
    | FetchRequest
    | FetchSuccess(products: seq<Product>)
    | FetchFail(message: string)
    | CreateRequest
    | CreateSuccess
    | CreateFail(message: string)
    | DeleteRequest
    | DeleteSuccess
    | DeleteFail(message: string)
    | DeleteReset(payload: Option<string>)
    | Unrecognized(kind: string)

  datatype Field = Loading | LoadingCreate | LoadingDelete | SuccessDelete | Products | Error

  /** The fields each action writes; every other field keeps its value. */
  function Writes(a: Action): set<Field> {
    match a
    case FetchRequest => {Loading, Error}
    case FetchSuccess(_) => {Loading, Products, Error}
    case FetchFail(_) => {Loading, Error}
    case CreateRequest => {LoadingCreate, Error}
    case CreateSuccess => {LoadingCreate, Error}
    case CreateFail(_) => {LoadingCreate, Error}
    case DeleteRequest => {LoadingDelete, Error}
    case DeleteSuccess => {LoadingDelete, SuccessDelete, Error}
    case DeleteFail(_) => {LoadingDelete, Error}
    case DeleteReset(_) => {LoadingDelete, SuccessDelete, Error}
    case Unrecognized(_) => {}
  }

  predicate Agree(s: State, t: State, f: Field) {
    match f
    case Loading => s.loading == t.loading
    case LoadingCreate => s.loadingCreate == t.loadingCreate
    case LoadingDelete => s.loadingDelete == t.loadingDelete
    case SuccessDelete => s.successDelete == t.successDelete
    case Products => s.products == t.products
    case Error => s.error == t.error
  }

  function Reduce(s: State, a: Action): (r: State)
    ensures forall f :: f !in Writes(a) ==> Agree(s, r, f)
  {
    match a
    case FetchRequest => s.(loading := true, error := Some(""))
    case FetchSuccess(ps) => s.(loading := false, products := ps, error := Some(""))
    case FetchFail(m) => s.(loading := false, error := Some(m))
    case CreateRequest => s.(loadingCreate := true, error := Some(""))
    case CreateSuccess => s.(loadingCreate := false, error := Some(""))
    case CreateFail(m) => s.(loadingCreate := false, error := Some(m))
    case DeleteRequest => s.(loadingDelete := true, error := Some(""))
    case DeleteSuccess => s.(loadingDelete := false, error := Some(""), successDelete := true)
    case DeleteFail(m) => s.(loadingDelete := false, error := Some(m))
    case DeleteReset(p) => s.(loadingDelete := false, error := p, successDelete := false)
    case Unrecognized(_) => s
  }

  /** An action the reducer does not know returns the state itself. */
  lemma UnrecognizedIsIdentity(s: State, kind: string)
    ensures Reduce(s, Unrecognized(kind)) == s
  {
  }

  /** Every action sets its fields to values that do not depend on the state, so repeating it changes nothing. */
  lemma ReduceIsIdempotent(s: State, a: Action)
    ensures Reduce(Reduce(s, a), a) == Reduce(s, a)
  {
  }

  /**
   * Each request raises its own loading flag and clears the error; each
   * outcome lowers it again, a success with an empty error, a failure with
   * the failure's message.
   */
  lemma RequestsAndOutcomes(s: State, ps: seq<Product>, m: string)
    ensures Reduce(s, FetchRequest).loading && Reduce(s, FetchRequest).error == Some("")
    ensures var r := Reduce(s, FetchSuccess(ps)); !r.loading && r.products == ps && r.error == Some("")
    ensures var r := Reduce(s, FetchFail(m)); !r.loading && r.products == s.products && r.error == Some(m)
    ensures Reduce(s, CreateRequest).loadingCreate && !Reduce(s, CreateSuccess).loadingCreate
    ensures Reduce(s, CreateRequest).error == Some("") && Reduce(s, CreateSuccess).error == Some("")
    ensures Reduce(s, CreateFail(m)) == s.(loadingCreate := false, error := Some(m))
    ensures Reduce(s, DeleteRequest).error == Some("") && Reduce(s, DeleteSuccess).error == Some("")
    ensures Reduce(s, DeleteRequest).loadingDelete && Reduce(s, DeleteRequest).successDelete == s.successDelete
    ensures var r := Reduce(s, DeleteSuccess); r.successDelete && !r.loadingDelete
    ensures Reduce(s, DeleteFail(m)) == s.(loadingDelete := false, error := Some(m))
  {
  }

  /** `DELETE_RESET` is dispatched without a payload, so it leaves `error` undefined. */
  lemma ResetLeavesErrorUndefined(s: State)
    ensures var r := Reduce(s, DeleteReset(None)); r.error == None && !r.successDelete
  {
  }

  /** The state after the actions, dispatched in order. */
  function Run(s: State, acts: seq<Action>): State
    decreases |acts|
  {
    if acts == [] then s else Run(Reduce(s, acts[0]), acts[1..])
  }

  lemma {:induction false} RunAppend(s: State, xs: seq<Action>, ys: seq<Action>)
    ensures Run(s, xs + ys) == Run(Run(s, xs), ys)
    decreases |xs|
  {
    if xs == [] {
      assert xs + ys == ys;
    } else {
      assert (xs + ys)[0] == xs[0] && (xs + ys)[1..] == xs[1..] + ys;
      RunAppend(Reduce(s, xs[0]), xs[1..], ys);
    }
  }

  lemma RunTwo(s: State, a: Action, b: Action)
    ensures Run(s, [a]) == Reduce(s, a)
    ensures Run(s, [a, b]) == Reduce(Reduce(s, a), b)
  {
    assert [a][1..] == [] && [a, b][1..] == [b];
    assert Run(Reduce(s, a), [b]) == Reduce(Reduce(s, a), b) by { assert [b][1..] == []; }
  }

  /** The action `fetchData` dispatches once the request has settled. */
  function Outcome(fetched: Result<seq<Product>>): Action {
    match fetched
    case Ok(ps) => FetchSuccess(ps)
    case Err(m) => FetchFail(m)
  }

  /** The actions one run of the effect dispatches. */
  function EffectActions(loggedIn: bool, successDelete: bool, fetched: Result<seq<Product>>): seq<Action> {
    if !loggedIn then []
    else if successDelete then [DeleteReset(None)]
    else [FetchRequest, Outcome(fetched)]
  }

  /**
   * The actions dispatched from a render until the effect stops re-running,
   * given the value `seen` the dependency had at the last run (`None`
   * before the first).
   */
  function RenderActions(seen: Option<bool>, successDelete: bool, loggedIn: bool, fetched: Result<seq<Product>>): seq<Action> {
    if seen == Some(successDelete) || !loggedIn then []
    else if successDelete then [DeleteReset(None), FetchRequest, Outcome(fetched)]
    else [FetchRequest, Outcome(fetched)]
  }

  /** One run of the effect, followed by what the later renders still dispatch, is everything the render dispatches. */
  lemma RenderStep(seen: Option<bool>, s: State, loggedIn: bool, fetched: Result<seq<Product>>)
    requires seen != Some(s.successDelete)
    ensures var e := EffectActions(loggedIn, s.successDelete, fetched);
      RenderActions(seen, s.successDelete, loggedIn, fetched)
      == e + RenderActions(Some(s.successDelete), Run(s, e).successDelete, loggedIn, fetched)
  {
    var e := EffectActions(loggedIn, s.successDelete, fetched);
    if loggedIn && !s.successDelete {
      RunTwo(s, FetchRequest, Outcome(fetched));
    } else if loggedIn {
      RunTwo(s, DeleteReset(None), FetchRequest);
    }
  }

  /**
   * Opening the page: the first run resets the delete flag (leaving the
   * error undefined), which re-runs the effect; the second run fetches.
   * The page ends with the fetched list, or the old empty list and the
   * failure's message.
   */
  lemma {:induction false} MountFetchesOnce(fetched: Result<seq<Product>>)
    ensures RenderActions(None, InitialState.successDelete, true, fetched)
      == [DeleteReset(None), FetchRequest, Outcome(fetched)]
    ensures Run(InitialState, [DeleteReset(None)]).error == None
    ensures var s := Run(InitialState, [DeleteReset(None), FetchRequest, Outcome(fetched)]);
      && !s.loading && !s.successDelete && !s.loadingDelete
      && s.products == (if fetched.Ok? then fetched.value else [])
      && s.error == Some(if fetched.Ok? then "" else fetched.error)
  {
    var acts := [DeleteReset(None), FetchRequest, Outcome(fetched)];
    var s1 := Reduce(InitialState, DeleteReset(None));
    assert acts[1..] == [FetchRequest, Outcome(fetched)];
    RunTwo(InitialState, DeleteReset(None), FetchRequest);
    RunTwo(s1, FetchRequest, Outcome(fetched));
  }

  /** A successful delete raises `successDelete`, which makes the next render reset it and fetch the list again. */
  lemma DeleteTriggersRefetch(s: State, fetched: Result<seq<Product>>)
    requires !s.successDelete
    ensures var r := Reduce(s, DeleteSuccess);
      RenderActions(Some(s.successDelete), r.successDelete, true, fetched)
      == [DeleteReset(None), FetchRequest, Outcome(fetched)]
  {
  }

  const LoginPath := "/login"
  const CreatedNotice := "Product created successfully"
  const DeletedNotice := "Product deleted successfully"

  class Page {
    /** The logged-in user, as read from the global store when the page renders. */
    const userInfo: Option<UserInfo>
    var state: State
    /** The value `successDelete` had when the effect last ran. */
    var effectSeen: Option<bool>
    var dispatched: seq<Action>
    var pushed: seq<string>
    var notices: seq<string>

    constructor (userInfo: Option<UserInfo>)
      ensures this.userInfo == userInfo && state == InitialState && effectSeen == None
      ensures dispatched == [] && pushed == [] && notices == []
    {
      this.userInfo := userInfo;
      state := InitialState;
      effectSeen := None;
      dispatched := [];
      pushed := [];
      notices := [];
    }

    method Dispatch(a: Action)
      modifies this
      ensures state == Reduce(old(state), a) && dispatched == old(dispatched) + [a]
      ensures effectSeen == old(effectSeen) && pushed == old(pushed) && notices == old(notices)
    {
      state := Reduce(state, a);
      dispatched := dispatched + [a];
    }

    /** One run of the effect; `fetched` is the answer of `GET /api/admin/products`. */
    method RunEffect(fetched: Result<seq<Product>>)
      modifies this
      ensures var e := EffectActions(userInfo.Some?, old(state.successDelete), fetched);
        dispatched == old(dispatched) + e && state == Run(old(state), e)
      ensures pushed == old(pushed) + (if userInfo.None? then [LoginPath] else [])
      ensures effectSeen == old(effectSeen) && notices == old(notices)
      ensures userInfo.Some? ==> !state.successDelete
    {
      if userInfo.None? {
        pushed := pushed + [LoginPath];
        return;
      }
      if state.successDelete {
        Dispatch(DeleteReset(None));
      } else {
        Dispatch(FetchRequest);
        Dispatch(Outcome(fetched));
        RunTwo(old(state), FetchRequest, Outcome(fetched));
      }
    }

    /**
     * One pass of the re-run loop: record the dependency's value, then run
     * the effect. What is dispatched now plus what the later passes will
     * dispatch is what was still to be dispatched before.
     */
    method Step(fetched: Result<seq<Product>>)
      requires effectSeen != Some(state.successDelete)
      modifies this
      ensures dispatched + RenderActions(effectSeen, state.successDelete, userInfo.Some?, fetched)
        == old(dispatched) + RenderActions(old(effectSeen), old(state.successDelete), userInfo.Some?, fetched)
      ensures Run(state, RenderActions(effectSeen, state.successDelete, userInfo.Some?, fetched))
        == Run(old(state), RenderActions(old(effectSeen), old(state.successDelete), userInfo.Some?, fetched))
      ensures effectSeen == Some(old(state.successDelete))
      ensures pushed == old(pushed) + (if userInfo.None? then [LoginPath] else [])
      ensures notices == old(notices)
      ensures userInfo.Some? ==> !state.successDelete
      ensures userInfo.None? ==> state == old(state)
    {
      ghost var e := EffectActions(userInfo.Some?, state.successDelete, fetched);
      ghost var s0 := state;
      RenderStep(effectSeen, state, userInfo.Some?, fetched);
      effectSeen := Some(state.successDelete);
      RunEffect(fetched);
      ghost var rest := RenderActions(effectSeen, state.successDelete, userInfo.Some?, fetched);
      RunAppend(s0, e, rest);
      assert old(dispatched) + (e + rest) == (old(dispatched) + e) + rest;
    }

    /** A render: run the effect as long as `successDelete` differs from its value at the last run. */
    method Render(fetched: Result<seq<Product>>)
      modifies this
      ensures var acts := RenderActions(old(effectSeen), old(state.successDelete), userInfo.Some?, fetched);
        dispatched == old(dispatched) + acts && state == Run(old(state), acts)
      ensures pushed == old(pushed)
        + (if userInfo.None? && old(effectSeen) != Some(old(state.successDelete)) then [LoginPath] else [])
      ensures effectSeen == Some(state.successDelete) && notices == old(notices)
    {
      while effectSeen != Some(state.successDelete)
        invariant dispatched + RenderActions(effectSeen, state.successDelete, userInfo.Some?, fetched)
          == old(dispatched) + RenderActions(old(effectSeen), old(state.successDelete), userInfo.Some?, fetched)
        invariant Run(state, RenderActions(effectSeen, state.successDelete, userInfo.Some?, fetched))
          == Run(old(state), RenderActions(old(effectSeen), old(state.successDelete), userInfo.Some?, fetched))
        invariant userInfo.Some? ==> pushed == old(pushed)
        invariant userInfo.None? ==> (
          && state == old(state)
          && (effectSeen == old(effectSeen) ==> pushed == old(pushed))
          && (effectSeen != old(effectSeen) ==>
                effectSeen == Some(state.successDelete) && pushed == old(pushed) + [LoginPath]))
        invariant notices == old(notices)
        decreases if effectSeen == Some(state.successDelete) then 0 else if state.successDelete then 2 else 1
      {
        Step(fetched);
      }
      assert dispatched + [] == dispatched;
    }

    /**
     * `createHandler`: `confirmed` is the answer to the confirmation dialog,
     * `created` the id of the new product or the request's error message.
     */
    method CreateHandler(confirmed: bool, created: Result<nat>)
      modifies this
      ensures !confirmed ==> dispatched == old(dispatched) && pushed == old(pushed) && notices == old(notices)
      ensures confirmed && created.Ok? ==>
        && dispatched == old(dispatched) + [CreateRequest, CreateSuccess]
        && notices == old(notices) + [CreatedNotice]
        && pushed == old(pushed) + ["/admin/product/" + JsNumber.NatToString(created.value)]
      ensures confirmed && created.Err? ==>
        && dispatched == old(dispatched) + [CreateRequest, CreateFail(created.error)]
        && notices == old(notices) + [created.error] && pushed == old(pushed)
      ensures state == Run(old(state), dispatched[|old(dispatched)|..])
      ensures effectSeen == old(effectSeen)
    {
      if !confirmed {
        assert dispatched[|old(dispatched)|..] == [];
        return;
      }
      Dispatch(CreateRequest);
      match created
      case Ok(id) =>
        Dispatch(CreateSuccess);
        RunTwo(old(state), CreateRequest, CreateSuccess);
        notices := notices + [CreatedNotice];
        pushed := pushed + ["/admin/product/" + JsNumber.NatToString(id)];
      case Err(m) =>
        Dispatch(CreateFail(m));
        RunTwo(old(state), CreateRequest, CreateFail(m));
        notices := notices + [m];
    }

    /**
     * `deleteHandler(productId)`: `failure` is the request's error message,
     * `None` when the delete succeeded. The refetch that follows a success
     * happens at the next `Render`.
     */
    method DeleteHandler(confirmed: bool, failure: Option<string>)
      modifies this
      ensures !confirmed ==> dispatched == old(dispatched) && notices == old(notices)
      ensures confirmed && failure.None? ==>
        && dispatched == old(dispatched) + [DeleteRequest, DeleteSuccess]
        && notices == old(notices) + [DeletedNotice]
        && state.successDelete
      ensures confirmed && failure.Some? ==>
        && dispatched == old(dispatched) + [DeleteRequest, DeleteFail(failure.value)]
        && notices == old(notices) + [failure.value]
      ensures state == Run(old(state), dispatched[|old(dispatched)|..])
      ensures effectSeen == old(effectSeen) && pushed == old(pushed)
    {
      if !confirmed {
        assert dispatched[|old(dispatched)|..] == [];
        return;
      }
      Dispatch(DeleteRequest);
      match failure
      case None =>
        Dispatch(DeleteSuccess);
        RunTwo(old(state), DeleteRequest, DeleteSuccess);
        notices := notices + [DeletedNotice];
      case Some(m) =>
        Dispatch(DeleteFail(m));
        RunTwo(old(state), DeleteRequest, DeleteFail(m));
        notices := notices + [m];
    }
  }
}
