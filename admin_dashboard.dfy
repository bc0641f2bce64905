/**
 * The admin dashboard's local reducer and its mount effect, which sends an
 * anonymous visitor to the login page and otherwise fetches the summary
 * once.
 */
module AdminDashboard {
  import opened Common

  /** One bar of the sales chart: a month and its sales. */
  datatype SalesPoint = SalesPoint(month: string, totalSales: real)

  datatype Summary = Summary(
    salesData: seq<SalesPoint>,
    ordersCount: int,
    productsCount: int,
    usersCount: int,
    ordersPrice: real)

  datatype State = State(loading: bool, summary: Summary, error: string)

  const EmptySummary := Summary([], 0, 0, 0, 0.0)
  const InitialState := State(true, EmptySummary, "")

  datatype Action =
    | FetchRequest
    | FetchSuccess(summary: Summary)
    | FetchFail(message: string)
    | Unrecognized(kind: string)

  function Reduce(s: State, a: Action): (r: State)
    ensures !a.FetchSuccess? ==> r.summary == s.summary
    ensures a.Unrecognized? ==> r == s
  {
    match a
    case FetchRequest => s.(loading := true, error := "")
    case FetchSuccess(sm) => s.(loading := false, summary := sm, error := "")
    case FetchFail(m) => s.(loading := false, error := m)
    case Unrecognized(_) => s
  }

  /**
   * The request raises `loading` and clears the error; a success replaces the
   * summary, a failure keeps the one shown and records the message.
   */
  lemma RequestAndOutcomes(s: State, sm: Summary, m: string)
    ensures Reduce(s, FetchRequest) == State(true, s.summary, "")
    ensures Reduce(s, FetchSuccess(sm)) == State(false, sm, "")
    ensures Reduce(s, FetchFail(m)) == State(false, s.summary, m)
  {
  }

  /** The outcome of a fetch does not depend on the state before the request. */
  lemma FetchSuccessForgetsThePast(s: State, t: State, sm: Summary)
    ensures Reduce(Reduce(s, FetchRequest), FetchSuccess(sm)) == Reduce(Reduce(t, FetchRequest), FetchSuccess(sm))
  {
  }

  /** What the mount effect does: navigate to `/login`, or dispatch the request and its outcome. */
  datatype Effect = Navigate(path: string) | Dispatched(actions: seq<Action>)

  function MountEffect(loggedIn: bool, fetched: Result<Summary>): (e: Effect)
    ensures !loggedIn <==> e == Navigate("/login")
    ensures loggedIn ==> e.Dispatched? && |e.actions| == 2 && e.actions[0] == FetchRequest
    ensures loggedIn ==> e.actions[1] == (if fetched.Ok? then FetchSuccess(fetched.value) else FetchFail(fetched.error))
  {
    if !loggedIn then Navigate("/login")
    else
      match fetched
      case Ok(sm) => Dispatched([FetchRequest, FetchSuccess(sm)])
      case Err(m) => Dispatched([FetchRequest, FetchFail(m)])
  }

  /** After mounting, a logged-in page shows the fetched summary, or the zero summary and the error. */
  lemma MountShowsSummaryOrError(fetched: Result<Summary>)
    ensures var acts := MountEffect(true, fetched).actions;
      var s := Reduce(Reduce(InitialState, acts[0]), acts[1]);
      && !s.loading
      && s.summary == (if fetched.Ok? then fetched.value else EmptySummary)
      && s.error == (if fetched.Ok? then "" else fetched.error)
  {
  }
}
