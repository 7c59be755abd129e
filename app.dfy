/**
 * The top-level application: which of the three screens (landing page,
 * dashboard, studio) is on display, and the logged-in user name.
 */
module App {
  import opened Wrappers

  datatype View = Landing | Dashboard | StudioView

  datatype AppState = AppState(view: View, user: Option<string>)

  const Initial := AppState(Landing, None)

  /** The screens rendered for a state. */
  datatype Screen = LandingScreen | DashboardScreen(name: string) | StudioScreen

  /** JavaScript truthiness of a `string | null`: null and "" are false. */
  predicate Truthy(user: Option<string>) { user.Some? && user.value != "" }

  function HandleLogin(s: AppState, username: string): (r: AppState)
    ensures r.user == Some(username) && r.view == Dashboard
  {
    AppState(Dashboard, Some(username))
  }

  function HandleLogout(s: AppState): (r: AppState)
    ensures r == Initial
  {
    AppState(Landing, None)
  }

  function HandleStartRecording(s: AppState): (r: AppState)
    ensures r.user == s.user && r.view == StudioView
  {
    s.(view := StudioView)
  }

  function HandleBackToDashboard(s: AppState): (r: AppState)
    ensures r.user == s.user && r.view == Dashboard
  {
    s.(view := Dashboard)
  }

  /** The three conditional renderings of the top-level container. */
  function Screens(s: AppState): (r: set<Screen>)
    ensures LandingScreen in r <==> s.view == Landing
    ensures StudioScreen in r <==> s.view == StudioView
    ensures forall n :: DashboardScreen(n) in r <==> s.view == Dashboard && s.user == Some(n) && n != ""
  {
    (if s.view == Landing then {LandingScreen} else {})
    + (if s.view == Dashboard && Truthy(s.user) then {DashboardScreen(s.user.value)} else {})
    + (if s.view == StudioView then {StudioScreen} else {})
  }

  /** At most one screen is ever rendered, and none only on a dashboard view without a user name. */
  lemma AtMostOneScreen(s: AppState)
    ensures |Screens(s)| <= 1
    ensures Screens(s) == {} <==> s.view == Dashboard && !Truthy(s.user)
  {
    match s.view
    case Landing => assert Screens(s) == {LandingScreen};
    case StudioView => assert Screens(s) == {StudioScreen};
    case Dashboard =>
      if Truthy(s.user) {
        assert Screens(s) == {DashboardScreen(s.user.value)};
      } else {
        assert Screens(s) == {};
      }
  }

  /** A login with an empty name leaves the page blank: dashboard view, nothing rendered. */
  lemma EmptyLoginRendersNothing(s: AppState)
    ensures Screens(HandleLogin(s, "")) == {}
  {
    AtMostOneScreen(HandleLogin(s, ""));
  }

  /** A user action, as the screen on display offers it. */
  datatype Action = Login(username: string) | Logout | StartRecording | BackToDashboard

  function Apply(s: AppState, a: Action): AppState {
    match a
    case Login(name) => HandleLogin(s, name)
    case Logout => HandleLogout(s)
    case StartRecording => HandleStartRecording(s)
    case BackToDashboard => HandleBackToDashboard(s)
  }

  /**
   * Whether the screen on display offers the action: the landing page logs
   * in with a name that is non-empty once trimmed (the trimmed name is
   * passed), the dashboard logs out and starts a recording, the studio goes
   * back.
   */
  predicate Offered(s: AppState, a: Action) {
    match a
    case Login(name) => LandingScreen in Screens(s) && name != ""
    case Logout => Truthy(s.user) && DashboardScreen(s.user.value) in Screens(s)
    case StartRecording => Truthy(s.user) && DashboardScreen(s.user.value) in Screens(s)
    case BackToDashboard => StudioScreen in Screens(s)
  }

  function Run(s: AppState, actions: seq<Action>): AppState
    decreases |actions|
  {
    if actions == [] then s else Run(Apply(s, actions[0]), actions[1..])
  }

  predicate AllOffered(s: AppState, actions: seq<Action>)
    decreases |actions|
  {
    actions == [] || (Offered(s, actions[0]) && AllOffered(Apply(s, actions[0]), actions[1..]))
  }

  /** The user is logged in exactly off the landing page, with a non-empty name. */
  ghost predicate Consistent(s: AppState) {
    (s.view == Landing <==> s.user.None?) && (s.user.Some? ==> s.user.value != "")
  }

  /** Consistent states render exactly one screen. */
  lemma ConsistentRendersOne(s: AppState)
    requires Consistent(s)
    ensures |Screens(s)| == 1
  {
    AtMostOneScreen(s);
    match s.view
    case Landing => assert LandingScreen in Screens(s);
    case StudioView => assert StudioScreen in Screens(s);
    case Dashboard => assert DashboardScreen(s.user.value) in Screens(s);
  }

  /**
   * Driven only by what the rendered screens offer, the application keeps
   * showing exactly one screen, and a user exactly when off the landing page.
   */
  lemma {:induction false} OfferedRunsRenderOne(s: AppState, actions: seq<Action>)
    requires Consistent(s) && AllOffered(s, actions)
    ensures Consistent(Run(s, actions))
    ensures |Screens(Run(s, actions))| == 1
    decreases |actions|
  {
    if actions == [] {
      ConsistentRendersOne(s);
    } else {
      var next := Apply(s, actions[0]);
      assert Consistent(next);
      OfferedRunsRenderOne(next, actions[1..]);
    }
  }

  /** The application's state fields and their handlers. */
  class Application {
    var currentView: View
    var user: Option<string>

    function State(): AppState
      reads this
    {
      AppState(currentView, user)
    }

    constructor ()
      ensures State() == Initial
    {
      currentView, user := Landing, None;
    }

    method Login(username: string)
      modifies this
      ensures State() == HandleLogin(old(State()), username)
    {
      user := Some(username);
      currentView := Dashboard;
    }

    method Logout()
      modifies this
      ensures State() == HandleLogout(old(State()))
    {
      user := None;
      currentView := Landing;
    }

    method StartRecording()
      modifies this
      ensures State() == HandleStartRecording(old(State()))
    {
      currentView := StudioView;
    }

    method BackToDashboard()
      modifies this
      ensures State() == HandleBackToDashboard(old(State()))
    {
      currentView := Dashboard;
    }
  }
}
