/** The application state reducer of app/contexts/app-context/index.tsx
    (`setupReducer` and its `toggleCurrentState`), the health decision of the
    provider and the list step of `deleteMeeting`. */
module AppContext {
  import opened Wrappers
  import opened Lists
  import opened JsString
  import opened ReducerHelpers

  /** `ClientUserSettings`, without its creation and update dates. */
  datatype Settings = Settings(
    id: string,
    userId: string,
    openaiApiKey: string,
    notionAccessToken: string,
    googleAccessToken: string,
    isSoundEnabled: bool)

  datatype User = User(id: string, name: string, email: string)

  /** `ClientMeeting`, without its dates. */
  datatype Meeting = Meeting(
    id: string,
    userId: string,
    title: string,
    meetingPrompt: string,
    actionsPrompt: string,
    context: string)

  /** The reducer state. `systemStatusMessage` is the one field an error payload
      spreads into it. */
  datatype AppState = AppState(
    appSettings: Settings,
    user: Option<User>,
    meetings: seq<Meeting>,
    selectedMeeting: Option<Meeting>,
    currentState: seq<string>,
    systemStatusMessage: Option<string>)

  /** The payload of `UPDATE_CURRENT_STATE`. */
  datatype Health = Healthy | Unhealthy

  /** The error payloads the provider dispatches: `{systemStatusMessage}`. */
  datatype ErrorPayload = ErrorPayload(systemStatusMessage: string)

  datatype AppAction =
    | UpdateCurrentState(health: Health)
    | FetchingSettings
    | FetchingMeetings
    | FetchingUser
    | SettingsFetched(settings: Settings)
    | MeetingsFetched(meetings: seq<Meeting>)
    | UserFetched(user: User)
    | SettingsError(error: ErrorPayload)
    | MeetingsError(error: ErrorPayload)
    | UserError(error: ErrorPayload)
    | UpdateSettings(settings: Settings)
    | SelectMeeting(meeting: Meeting)
    | UpdateMeetings(meeting: Meeting)
    | UpdateMeeting(meeting: Meeting)
      /** Any other type, including the bare status names such as `HEALTHY`. */
    | Unknown(name: string)

  function EmptySettings(): Settings
  {
    Settings("", "", "", "", "", false)
  }

  function InitialAppState(): AppState
  {
    AppState(EmptySettings(), None, [], None, ["FETCHING_USER"], None)
  }

  /** `toggleCurrentState`. */
  function ToggleCurrentState(states: seq<string>, health: Health): seq<string>
  {
    if health == Healthy then
      if "HEALTHY" !in states then SafeUpdateState(states, "HEALTHY") else states
    else
      if "HEALTHY" in states then Filter(states, (s: string) => s != "HEALTHY") else states
  }

  /** HEALTHY is added once; UNHEALTHY removes every HEALTHY and keeps the rest in
      order. */
  lemma ToggleCurrentStateMeaning(states: seq<string>, health: Health)
    ensures var r := ToggleCurrentState(states, health);
      && (health == Healthy ==> "HEALTHY" in r && states <= r && |r| <= |states| + 1)
      && (health == Healthy && "HEALTHY" in states ==> r == states)
      && (health == Unhealthy ==>
            IsSubsequence(r, states) &&
            forall x :: multiset(r)[x] == if x == "HEALTHY" then 0 else multiset(states)[x])
  {
    if health == Unhealthy {
      var p := (s: string) => s != "HEALTHY";
      FilterIsSubsequence(states, p);
      SubsequenceReflexive(states);
      forall x ensures multiset(Filter(states, p))[x] == if x == "HEALTHY" then 0 else multiset(states)[x] {
        FilterCount(states, p, x);
      }
    }
  }

  /** `UPDATE_MEETING`: every meeting with the payload's id is replaced by it. */
  function ReplaceMeeting(meetings: seq<Meeting>, updated: Meeting): seq<Meeting>
  {
    seq(|meetings|, i requires 0 <= i < |meetings| => if meetings[i].id == updated.id then updated else meetings[i])
  }

  /** `setupReducer`. */
  function SetupReducer(state: AppState, action: AppAction): AppState
  {
    match action
    case UpdateCurrentState(health) =>
      state.(currentState := ToggleCurrentState(state.currentState, health))
    case FetchingSettings =>
      state.(currentState := SafeUpdateState(state.currentState, "FETCHING_SETTINGS"))
    case FetchingMeetings =>
      state.(currentState := SafeUpdateState(state.currentState, "FETCHING_MEETINGS"))
    case FetchingUser =>
      state.(currentState := SafeUpdateState(state.currentState, "FETCHING_USER"))
    case SettingsFetched(settings) =>
      state.(appSettings := settings, currentState := MarkSettled(state.currentState, "SETTINGS", "SETTINGS_FETCHED"))
    case MeetingsFetched(meetings) =>
      state.(meetings := meetings, currentState := MarkSettled(state.currentState, "MEETINGS", "MEETINGS_FETCHED"))
    case UserFetched(user) =>
      state.(user := Some(user), currentState := MarkSettled(state.currentState, "USER", "USER_FETCHED"))
    case SettingsError(error) =>
      state.(systemStatusMessage := Some(error.systemStatusMessage),
             currentState := MarkSettled(state.currentState, "SETTINGS_ERROR", "SETTINGS_ERROR"))
    case MeetingsError(error) =>
      state.(systemStatusMessage := Some(error.systemStatusMessage),
             currentState := MarkSettled(state.currentState, "MEETINGS_ERROR", "MEETINGS_ERROR"))
    case UserError(error) =>
      state.(systemStatusMessage := Some(error.systemStatusMessage),
             currentState := MarkSettled(state.currentState, "USER_ERROR", "USER_ERROR"))
    case UpdateSettings(settings) =>
      state.(appSettings := settings)
    case SelectMeeting(meeting) =>
      state.(selectedMeeting := Some(meeting))
    case UpdateMeetings(meeting) =>
      // `state.meetings` is always an array, so the `[payload]` alternative is never taken.
      state.(meetings := state.meetings + [meeting])
    case UpdateMeeting(meeting) =>
      state.(meetings := ReplaceMeeting(state.meetings, meeting))
    case Unknown(_) =>
      state
  }

  /** Toggling to the same health twice is toggling once. */
  lemma {:induction false} ToggleCurrentStateIdempotent(states: seq<string>, health: Health)
    ensures ToggleCurrentState(ToggleCurrentState(states, health), health) == ToggleCurrentState(states, health)
  {
    ToggleCurrentStateMeaning(states, health);
    if health == Unhealthy && "HEALTHY" in states {
      var r := ToggleCurrentState(states, health);
      assert multiset(r)["HEALTHY"] == 0;
    }
  }

  /** Repeating a `FETCHING_*` action changes nothing more. */
  lemma FetchingIdempotent(state: AppState, action: AppAction)
    requires action.FetchingSettings? || action.FetchingMeetings? || action.FetchingUser?
    ensures SetupReducer(SetupReducer(state, action), action) == SetupReducer(state, action)
  {
    var once := SetupReducer(state, action);
    match action
    case FetchingSettings => SafeUpdateStateIdempotent(state.currentState, "FETCHING_SETTINGS");
    case FetchingMeetings => SafeUpdateStateIdempotent(state.currentState, "FETCHING_MEETINGS");
    case FetchingUser => SafeUpdateStateIdempotent(state.currentState, "FETCHING_USER");
  }

  /** The status kind an action settles, and the state it records. */
  function SettledKind(action: AppAction): string
  {
    match action
    case SettingsFetched(_) => "SETTINGS"
    case SettingsError(_) => "SETTINGS"
    case MeetingsFetched(_) => "MEETINGS"
    case MeetingsError(_) => "MEETINGS"
    case UserFetched(_) => "USER"
    case UserError(_) => "USER"
    case _ => ""
  }

  predicate Settles(action: AppAction)
  {
    || action.SettingsFetched? || action.MeetingsFetched? || action.UserFetched?
    || action.SettingsError? || action.MeetingsError? || action.UserError?
  }

  function SettledState(action: AppAction): string
    requires Settles(action)
  {
    match action
    case SettingsFetched(_) => "SETTINGS_FETCHED"
    case MeetingsFetched(_) => "MEETINGS_FETCHED"
    case UserFetched(_) => "USER_FETCHED"
    case SettingsError(_) => "SETTINGS_ERROR"
    case MeetingsError(_) => "MEETINGS_ERROR"
    case UserError(_) => "USER_ERROR"
  }

  /** A `*_FETCHED` or `*_ERROR` action removes every `FETCHING_<kind>` entry, records
      its state once, keeps the count of every other status and keeps the list free of
      duplicates. */
  lemma SettlingStatuses(state: AppState, action: AppAction)
    requires Settles(action)
    ensures SettledFrom(SetupReducer(state, action).currentState, state.currentState, SettledKind(action), SettledState(action))
  {
    var states := state.currentState;
    match action
    case SettingsFetched(_) =>
      assert "SETTINGS" + "" == "SETTINGS";
      MarkSettledFacts(states, "SETTINGS", "", "SETTINGS_FETCHED");
    case MeetingsFetched(_) =>
      assert "MEETINGS" + "" == "MEETINGS";
      MarkSettledFacts(states, "MEETINGS", "", "MEETINGS_FETCHED");
    case UserFetched(_) =>
      assert "USER" + "" == "USER";
      MarkSettledFacts(states, "USER", "", "USER_FETCHED");
    case SettingsError(_) =>
      assert "SETTINGS" + "_ERROR" == "SETTINGS_ERROR";
      MarkSettledFacts(states, "SETTINGS", "_ERROR", "SETTINGS_ERROR");
    case MeetingsError(_) =>
      assert "MEETINGS" + "_ERROR" == "MEETINGS_ERROR";
      MarkSettledFacts(states, "MEETINGS", "_ERROR", "MEETINGS_ERROR");
    case UserError(_) =>
      assert "USER" + "_ERROR" == "USER_ERROR";
      MarkSettledFacts(states, "USER", "_ERROR", "USER_ERROR");
  }

  /** A settling action changes exactly the one data field it carries: the fetched
      data, or the status message of an error. */
  lemma SettlingData(state: AppState, action: AppAction)
    requires Settles(action)
    ensures var r := SetupReducer(state, action);
      && (action.SettingsFetched? ==> r == state.(appSettings := action.settings, currentState := r.currentState))
      && (action.MeetingsFetched? ==> r == state.(meetings := action.meetings, currentState := r.currentState))
      && (action.UserFetched? ==> r == state.(user := Some(action.user), currentState := r.currentState))
      && (!(action.SettingsFetched? || action.MeetingsFetched? || action.UserFetched?) ==>
            r == state.(systemStatusMessage := Some(action.error.systemStatusMessage), currentState := r.currentState))
  {
  }

  /** Every status list the reducer produces from one without duplicates has none. */
  lemma SetupReducerKeepsNoDuplicates(state: AppState, action: AppAction)
    requires NoDuplicates(state.currentState)
    ensures NoDuplicates(SetupReducer(state, action).currentState)
  {
    match action
    case UpdateCurrentState(health) =>
      if health == Healthy {
        SafeUpdateStateKeepsNoDuplicates(state.currentState, "HEALTHY");
      } else {
        FilterKeepsNoDuplicates(state.currentState, (s: string) => s != "HEALTHY");
      }
    case FetchingSettings => SafeUpdateStateKeepsNoDuplicates(state.currentState, "FETCHING_SETTINGS");
    case FetchingMeetings => SafeUpdateStateKeepsNoDuplicates(state.currentState, "FETCHING_MEETINGS");
    case FetchingUser => SafeUpdateStateKeepsNoDuplicates(state.currentState, "FETCHING_USER");
    case _ =>
      if Settles(action) {
        SettlingStatuses(state, action);
      }
  }

  /** `UPDATE_MEETING` keeps length and order and touches only the matching meetings. */
  lemma UpdateMeetingOnlyTouchesMatches(state: AppState, updated: Meeting)
    ensures var r := SetupReducer(state, UpdateMeeting(updated));
      && |r.meetings| == |state.meetings|
      && (forall i :: 0 <= i < |r.meetings| && state.meetings[i].id != updated.id ==> r.meetings[i] == state.meetings[i])
      && (forall i :: 0 <= i < |r.meetings| ==> r.meetings[i].id == state.meetings[i].id)
      && r.(meetings := state.meetings) == state
  {
  }

  /** The list `deleteMeeting` dispatches as `MEETINGS_FETCHED`: the meetings whose id
      differs from the deleted one, in order. */
  function RemainingMeetings(meetings: seq<Meeting>, meetingId: string): (r: seq<Meeting>)
    ensures IsSubsequence(r, meetings)
    ensures forall i :: 0 <= i < |r| ==> r[i].id != meetingId
    ensures forall m :: multiset(r)[m] == if m.id == meetingId then 0 else multiset(meetings)[m]
  {
    var p := (m: Meeting) => m.id != meetingId;
    FilterIsSubsequence(meetings, p);
    forall m ensures multiset(Filter(meetings, p))[m] == if m.id == meetingId then 0 else multiset(meetings)[m] {
      FilterCount(meetings, p, m);
    }
    Filter(meetings, p)
  }

  /** Deleting twice removes nothing more. */
  lemma RemainingMeetingsIdempotent(meetings: seq<Meeting>, meetingId: string)
    ensures RemainingMeetings(RemainingMeetings(meetings, meetingId), meetingId) == RemainingMeetings(meetings, meetingId)
  {
    FilterIdempotent(meetings, (m: Meeting) => m.id != meetingId);
  }

  /** The health effect's test: an OpenAI key, or a positive credit balance. */
  predicate IsHealthy(settings: Settings, credits: Option<int>)
  {
    settings.openaiApiKey != "" || (credits.Some? && credits.value > 0)
  }

  /** The action the health effect dispatches. */
  function HealthAction(settings: Settings, credits: Option<int>): AppAction
  {
    UpdateCurrentState(if IsHealthy(settings, credits) then Healthy else Unhealthy)
  }

  /** After the health effect the status list holds HEALTHY iff the system is
      healthy, and nothing else changes. */
  lemma HealthEffect(state: AppState, credits: Option<int>)
    ensures var r := SetupReducer(state, HealthAction(state.appSettings, credits));
      && ("HEALTHY" in r.currentState <==> IsHealthy(state.appSettings, credits))
      && r.(currentState := state.currentState) == state
  {
    var r := SetupReducer(state, HealthAction(state.appSettings, credits));
    ToggleCurrentStateMeaning(state.currentState, if IsHealthy(state.appSettings, credits) then Healthy else Unhealthy);
    if !IsHealthy(state.appSettings, credits) {
      assert multiset(r.currentState)["HEALTHY"] == 0;
    }
  }
}
