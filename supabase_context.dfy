/** The account state reducer of app/contexts/supabase-context/index.tsx
    (`supabaseReducer`). The user and order payloads are carried as opaque values. */
module SupabaseContext {
  import opened Wrappers
  import opened JsString
  import opened ReducerHelpers

  datatype AccountUser = AccountUser(id: string, email: string)

  datatype Order = Order(id: string)

  /** The reducer's part of `SupabaseContextType`: the client and the callbacks are
      not reducer state. */
  datatype SupabaseState = SupabaseState(
    user: Option<AccountUser>,
    state: seq<string>,
    credits: Option<int>,
    orders: seq<Order>)

  datatype SupabaseAction =
    | FetchingUser
    | FetchingCredits
    | FetchingOrders
    | UserFetched(user: Option<AccountUser>)
    | CreditsFetched(credits: Option<int>)
    | OrdersFetched(orders: seq<Order>)
    | UserError
    | CreditsError
    | OrdersError
      /** Any other type. */
    | Unknown(name: string)

  function InitialSupabaseState(): SupabaseState
  {
    SupabaseState(None, ["FETCHING_USER"], None, [])
  }

  /** `supabaseReducer`. The loading types are appended without a membership test. */
  function SupabaseReducer(s: SupabaseState, action: SupabaseAction): SupabaseState
  {
    match action
    case FetchingUser => s.(state := s.state + ["FETCHING_USER"])
    case FetchingCredits => s.(state := s.state + ["FETCHING_CREDITS"])
    case FetchingOrders => s.(state := s.state + ["FETCHING_ORDERS"])
    case UserFetched(user) =>
      s.(user := user, state := MarkSettled(s.state, "USER", "USER_FETCHED"))
    case CreditsFetched(credits) =>
      s.(credits := credits, state := MarkSettled(s.state, "CREDITS", "CREDITS_FETCHED"))
    case OrdersFetched(orders) =>
      s.(orders := orders, state := MarkSettled(s.state, "ORDERS", "ORDERS_FETCHED"))
    case UserError => s.(state := MarkSettled(s.state, "USER_ERROR", "USER_ERROR"))
    case CreditsError => s.(state := MarkSettled(s.state, "CREDITS_ERROR", "CREDITS_ERROR"))
    case OrdersError => s.(state := MarkSettled(s.state, "ORDERS_ERROR", "ORDERS_ERROR"))
    case Unknown(_) => s
  }

  predicate IsFetching(action: SupabaseAction)
  {
    action.FetchingUser? || action.FetchingCredits? || action.FetchingOrders?
  }

  predicate Settles(action: SupabaseAction)
  {
    !IsFetching(action) && !action.Unknown?
  }

  function Kind(action: SupabaseAction): string
  {
    match action
    case FetchingUser => "USER"
    case UserFetched(_) => "USER"
    case UserError => "USER"
    case FetchingCredits => "CREDITS"
    case CreditsFetched(_) => "CREDITS"
    case CreditsError => "CREDITS"
    case FetchingOrders => "ORDERS"
    case OrdersFetched(_) => "ORDERS"
    case OrdersError => "ORDERS"
    case Unknown(_) => ""
  }

  function SettledState(action: SupabaseAction): string
    requires Settles(action)
  {
    match action
    case UserFetched(_) => "USER_FETCHED"
    case CreditsFetched(_) => "CREDITS_FETCHED"
    case OrdersFetched(_) => "ORDERS_FETCHED"
    case UserError => "USER_ERROR"
    case CreditsError => "CREDITS_ERROR"
    case OrdersError => "ORDERS_ERROR"
  }

  /** A loading action appends its type even when present (so the list can hold
      duplicates) and changes nothing else. */
  lemma FetchingAppends(s: SupabaseState, action: SupabaseAction)
    requires IsFetching(action)
    ensures var r := SupabaseReducer(s, action);
      && r.state == s.state + ["FETCHING_" + Kind(action)]
      && multiset(r.state)["FETCHING_" + Kind(action)] == multiset(s.state)["FETCHING_" + Kind(action)] + 1
      && r.(state := s.state) == s
  {
    match action
    case FetchingUser => assert "FETCHING_" + "USER" == "FETCHING_USER";
    case FetchingCredits => assert "FETCHING_" + "CREDITS" == "FETCHING_CREDITS";
    case FetchingOrders => assert "FETCHING_" + "ORDERS" == "FETCHING_ORDERS";
  }

  /** The first loading action on the initial state duplicates `FETCHING_USER`. */
  lemma InitialFetchDuplicates()
    ensures SupabaseReducer(InitialSupabaseState(), FetchingUser).state == ["FETCHING_USER", "FETCHING_USER"]
    ensures !NoDuplicates(SupabaseReducer(InitialSupabaseState(), FetchingUser).state)
  {
    var r := SupabaseReducer(InitialSupabaseState(), FetchingUser).state;
    assert r[0] == r[1];
  }

  /** A `*_FETCHED` or `*_ERROR` action removes every `FETCHING_<kind>` entry (however
      many loading actions added), records its state once and keeps every other
      status. */
  lemma SettlingStatuses(s: SupabaseState, action: SupabaseAction)
    requires Settles(action)
    ensures SettledFrom(SupabaseReducer(s, action).state, s.state, Kind(action), SettledState(action))
  {
    match action
    case UserFetched(_) =>
      assert "USER" + "" == "USER";
      MarkSettledFacts(s.state, "USER", "", "USER_FETCHED");
    case CreditsFetched(_) =>
      assert "CREDITS" + "" == "CREDITS";
      MarkSettledFacts(s.state, "CREDITS", "", "CREDITS_FETCHED");
    case OrdersFetched(_) =>
      assert "ORDERS" + "" == "ORDERS";
      MarkSettledFacts(s.state, "ORDERS", "", "ORDERS_FETCHED");
    case UserError =>
      assert "USER" + "_ERROR" == "USER_ERROR";
      MarkSettledFacts(s.state, "USER", "_ERROR", "USER_ERROR");
    case CreditsError =>
      assert "CREDITS" + "_ERROR" == "CREDITS_ERROR";
      MarkSettledFacts(s.state, "CREDITS", "_ERROR", "CREDITS_ERROR");
    case OrdersError =>
      assert "ORDERS" + "_ERROR" == "ORDERS_ERROR";
      MarkSettledFacts(s.state, "ORDERS", "_ERROR", "ORDERS_ERROR");
  }

  /** A fetched action changes only its own data field; an error changes no data; an
      unknown action changes nothing. */
  lemma SettlingData(s: SupabaseState, action: SupabaseAction)
    ensures var r := SupabaseReducer(s, action);
      && (action.UserFetched? ==> r == s.(user := action.user, state := r.state))
      && (action.CreditsFetched? ==> r == s.(credits := action.credits, state := r.state))
      && (action.OrdersFetched? ==> r == s.(orders := action.orders, state := r.state))
      && (action.UserError? || action.CreditsError? || action.OrdersError? ==> r == s.(state := r.state))
      && (action.Unknown? ==> r == s)
  {
  }

  lemma UserMarker()
    ensures "FETCHING_" + "USER" == "FETCHING_USER"
  {
  }

  /** Loading then settling: however many `FETCHING_USER` entries there were, after
      `USER_FETCHED` none is left and `USER_FETCHED` is recorded. */
  lemma FetchThenSettle(s: SupabaseState, user: Option<AccountUser>)
    ensures var r := SupabaseReducer(SupabaseReducer(s, FetchingUser), UserFetched(user));
      && "FETCHING_USER" !in r.state
      && "USER_FETCHED" in r.state
      && r.user == user
  {
    var mid := SupabaseReducer(s, FetchingUser);
    SettlingStatuses(mid, UserFetched(user));
    var r := SupabaseReducer(mid, UserFetched(user));
    UserMarker();
    forall i | 0 <= i < |r.state| ensures r.state[i] != "FETCHING_USER" {
      IncludesItself(r.state[i]);
    }
  }
}
