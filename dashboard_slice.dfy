/** The `dashboard` slice: the last summary, a loading flag and the last error, driven by the thunk's actions. */
module DashboardSlice {
  import opened Optional
  import opened Records
  import opened Aggregation
  import AuthSlice

  datatype DashboardState = DashboardState(data: Option<DashboardData>, isLoading: bool, error: Option<string>)

  const Initial := DashboardState(None, false, None)
  const LoadFailed := "Erro ao carregar dados"

  datatype DashboardAction =
    | FetchPending
    | FetchFulfilled(payload: DashboardData)
    | FetchRejected(message: Option<string>)

  /** The slice's reducer; it has no plain reducers, only the three thunk cases. */
  function Reduce(s: DashboardState, a: DashboardAction): DashboardState
  {
    match a
    case FetchPending => s.(isLoading := true, error := None)
    case FetchFulfilled(d) => DashboardState(Some(d), false, None)
    case FetchRejected(m) => s.(isLoading := false, error := Some(OrElse(m, LoadFailed)))
  }

  /** The state after dispatching `actions` in order, starting from `s`. */
  function Run(s: DashboardState, actions: seq<DashboardAction>): DashboardState
  {
    if actions == [] then s else Reduce(Run(s, actions[..|actions| - 1]), actions[|actions| - 1])
  }

  /** The action `createAsyncThunk` dispatches when the thunk settles with `r`. */
  function Settled(r: Result<DashboardData>): DashboardAction
  {
    match r
    case Ok(d) => FetchFulfilled(d)
    case Err(m) => FetchRejected(m)
  }

  /** The payload of the last fulfilled action in `actions`, if there is one. */
  function LatestPayload(actions: seq<DashboardAction>): Option<DashboardData>
  {
    if actions == [] then None
    else if actions[|actions| - 1].FetchFulfilled? then Some(actions[|actions| - 1].payload)
    else LatestPayload(actions[..|actions| - 1])
  }

  /**
   * `data` is the payload of the latest successful fetch: pending and rejected actions never discard a
   * summary, and the initial `data` survives until the first success.
   */
  lemma {:induction false} DataIsLatestPayload(s: DashboardState, actions: seq<DashboardAction>)
    ensures Run(s, actions).data == if LatestPayload(actions).Some? then LatestPayload(actions) else s.data
  {
    if actions != [] {
      DataIsLatestPayload(s, actions[..|actions| - 1]);
    }
  }

  /** A stored error is never the empty string. */
  predicate ErrorReadable(s: DashboardState)
  {
    s.error.None? || s.error.value != ""
  }

  lemma {:induction false} ErrorAlwaysReadable(s: DashboardState, actions: seq<DashboardAction>)
    requires ErrorReadable(s)
    ensures ErrorReadable(Run(s, actions))
  {
    if actions != [] {
      ErrorAlwaysReadable(s, actions[..|actions| - 1]);
      var a := actions[|actions| - 1];
      if a.FetchRejected? {
        OrElseNonEmpty(a.message, LoadFailed);
      }
    }
  }

  /** The store's `dashboard` state, changed in place by one method per thunk action. */
  class DashboardStore {
    var data: Option<DashboardData>
    var isLoading: bool
    var error: Option<string>

    function State(): DashboardState
      reads this
    {
      DashboardState(data, isLoading, error)
    }

    constructor ()
      ensures State() == Initial
    {
      data, isLoading, error := None, false, None;
    }

    method Pending()
      modifies this
      ensures isLoading && error == None && data == old(data)
    {
      isLoading := true;
      error := None;
    }

    method Fulfilled(payload: DashboardData)
      modifies this
      ensures data == Some(payload) && !isLoading && error == None
    {
      data := Some(payload);
      isLoading := false;
      error := None;
    }

    method Rejected(message: Option<string>)
      modifies this
      ensures !isLoading && data == old(data)
      ensures error == Some(if Truthy(message) then message.value else LoadFailed)
    {
      isLoading := false;
      error := Some(OrElse(message, LoadFailed));
    }

    /**
     * `dispatch(fetchDashboardData())`: the pending action, the thunk, then its fulfilled or rejected
     * action. Without a signed-in user the refresh ends with the 'User not authenticated' error and the old
     * data; a failed query keeps the old data and records the query's message or the default; a successful
     * one stores the summary of the fetched rows.
     */
    method Refresh(auth: AuthSlice.AuthState, fetched: Result<seq<Transaction>>, w: Window)
      modifies this
      ensures !isLoading
      ensures auth.user.None? ==> data == old(data) && error == Some(NotAuthenticated)
      ensures auth.user.Some? && fetched.Err? ==> data == old(data) && error == Some(OrElse(fetched.message, LoadFailed))
      ensures auth.user.Some? && fetched.Ok? ==> data == Some(Summarize(fetched.value, w)) && error == None
    {
      Pending();
      var r := FetchDashboardData(auth, fetched, w);
      Dispatch(Settled(r));
    }

    /** Routes an action to its handler. */
    method Dispatch(a: DashboardAction)
      modifies this
      ensures State() == Reduce(old(State()), a)
    {
      match a
      case FetchPending => Pending();
      case FetchFulfilled(d) => Fulfilled(d);
      case FetchRejected(m) => Rejected(m);
    }
  }
}
