/** The navigation of src/navigation/AppNavigator.tsx: the bottom tabs each role
    gets (`getTabScreens`) and the root choice between nothing, the signed-in
    stack and the sign-in stack. */
module AppNavigator {
  import opened Types
  import Auth = AuthContext

  /** The screen components a tab can show. */
  datatype Screen = DashboardScreen | ServiceListScreen | CreateServiceScreen | ReportsScreen | ProfileScreen

  /** One entry of the tab list: its route name, component, tab label and icon name. */
  datatype TabScreen = TabScreen(name: string, component: Screen, tabBarLabel: string, tabBarIcon: string)

  const DashboardTab := TabScreen("Dashboard", DashboardScreen, "Dashboard", "dashboard")
  const ServicesTab := TabScreen("Services", ServiceListScreen, "Services", "list")
  const CreateTab := TabScreen("CreateService", CreateServiceScreen, "Create", "add-circle")
  const ReportsTab := TabScreen("Reports", ReportsScreen, "Reports", "assessment")
  const VitalsTab := TabScreen("Vitals", ServiceListScreen, "Vitals", "favorite")
  const ProfileTab := TabScreen("Profile", ProfileScreen, "Profile", "person")

  function Names(tabs: seq<TabScreen>): (names: seq<string>)
    ensures |names| == |tabs|
    ensures forall i :: 0 <= i < |tabs| ==> names[i] == tabs[i].name
  {
    seq(|tabs|, i requires 0 <= i < |tabs| => tabs[i].name)
  }

  predicate HasRole(user: Option<User>, r: UserRole) {
    user.Some? && user.value.role == r
  }

  /** `getTabScreens`: the two base tabs, the role's own tabs pushed after them, and
      the profile tab pushed last. Route names never repeat. */
  method GetTabScreens(user: Option<User>) returns (tabs: seq<TabScreen>)
    ensures |tabs| >= 3 && tabs[0] == DashboardTab && tabs[1] == ServicesTab && tabs[|tabs| - 1] == ProfileTab
    ensures HasRole(user, Coordinator) ==>
      Names(tabs) == ["Dashboard", "Services", "CreateService", "Reports", "Profile"]
    ensures HasRole(user, Doctor) ==> Names(tabs) == ["Dashboard", "Services", "Vitals", "Profile"]
    ensures !HasRole(user, Coordinator) && !HasRole(user, Doctor) ==> Names(tabs) == ["Dashboard", "Services", "Profile"]
    ensures forall i, j :: 0 <= i < j < |tabs| ==> tabs[i].name != tabs[j].name
  {
    tabs := [DashboardTab, ServicesTab];
    if HasRole(user, Coordinator) {
      tabs := tabs + [CreateTab, ReportsTab];
    } else if HasRole(user, Doctor) {
      tabs := tabs + [VitalsTab];
    }
    tabs := tabs + [ProfileTab];
  }

  /** What the root renders: nothing, the signed-in stack (the tabs and the service
      detail screen) or the sign-in stack (login and forgotten password). */
  datatype Root = NothingShown | AppStack | AuthStack

  /** The root `App`: nothing while the session is loading, then the signed-in
      stack exactly when authenticated. */
  function RootView(isLoading: bool, isAuthenticated: bool): (r: Root)
    ensures r == NothingShown <==> isLoading
    ensures r == AppStack <==> !isLoading && isAuthenticated
    ensures r == AuthStack <==> !isLoading && !isAuthenticated
  {
    if isLoading then NothingShown else if isAuthenticated then AppStack else AuthStack
  }

  function RootOf(s: Auth.AuthState): Root {
    RootView(s.isLoading, s.isAuthenticated)
  }

  /** On a consistent session the signed-in stack is shown exactly when a user is
      signed in and nothing is loading. */
  lemma AppStackIffSignedIn(s: Auth.AuthState)
    requires Auth.Consistent(s)
    ensures RootOf(s) == AppStack <==> !s.isLoading && s.user.Some?
  {
  }

  /** The app starts on the blank root; restoring the stored session always ends
      it, showing the signed-in stack exactly when a user was stored; signing
      out always shows the sign-in stack. */
  lemma StartupRouting(s: Auth.AuthState, restored: Option<User>)
    ensures RootOf(Auth.InitialState) == NothingShown
    ensures RootOf(Auth.Reduce(s, Auth.RestoreUser(restored))) != NothingShown
    ensures RootOf(Auth.Reduce(s, Auth.RestoreUser(restored))) == AppStack <==> restored.Some?
    ensures RootOf(Auth.Reduce(s, Auth.AuthAction.Logout)) == AuthStack
  {
  }

  /** While a login is in flight the root is blank, and its outcome decides the stack. */
  lemma LoginRouting(s: Auth.AuthState, u: User, message: string)
    ensures RootOf(Auth.Reduce(s, Auth.LoginStart)) == NothingShown
    ensures RootOf(Auth.Reduce(s, Auth.LoginSuccess(u))) == AppStack
    ensures RootOf(Auth.Reduce(s, Auth.LoginFailure(message))) == AuthStack
  {
  }
}
