/**
 * The application shell (App.tsx): which view is on screen, which tool is
 * open, who is signed in, and the sidebar and theme switches.
 *
 * The authentication service is outside the model. A session, a profile row
 * and the outcome of a session lookup reach the handlers as parameters, and
 * whether the service is configured at all is fixed when the shell starts.
 */
module AppShell {
  import opened Wrappers
  import Catalog
  import ToolPage

  /** `AppView`: the four top-level views. */
  datatype View = Login | Dashboard | ToolView | Plans

  /** `User`: the id is optional, the credits are a plain number. */
  datatype User = User(id: Option<string>, name: string, email: string, credits: int)

  /** The signed-in session as the authentication service reports it; the e-mail may be missing. */
  datatype Session = Session(userId: string, email: Option<string>)

  /** A row of the `profiles` table: either column may be null. */
  datatype Profile = Profile(fullName: Option<string>, credits: Option<int>)

  /** What `<main>` holds below the header. */
  datatype Main = DashboardMain | PlansMain | ToolMain(toolId: string) | NoMain

  /** What the shell renders: the start-up spinner, the login page, or the workspace. */
  datatype Rendered = Spinner | LoginPage | Workspace(main: Main)

  const DefaultName: string := "Professor"

  /** `session.user.email || ''`. */
  function SessionEmail(s: Session): (email: string)
    ensures s.email.Some? ==> email == s.email.value
    ensures s.email.None? ==> email == []
  {
    match s.email
    case Some(e) => e
    case None => ""
  }

  /**
   * The user built from a profile row: `full_name || 'Professor'` and
   * `credits || 0`, so a null or empty name and a null credit count fall back.
   */
  function UserOf(userId: string, email: string, row: Profile): (u: User)
    ensures u.id == Some(userId) && u.email == email
    ensures u.name != []
    ensures row.fullName.Some? && row.fullName.value != [] ==> u.name == row.fullName.value
    ensures row.fullName.None? || row.fullName.value == [] ==> u.name == DefaultName
    ensures row.credits.Some? ==> u.credits == row.credits.value
    ensures row.credits.None? ==> u.credits == 0
  {
    var name := if row.fullName.Some? && row.fullName.value != [] then row.fullName.value else DefaultName;
    var credits := if row.credits.Some? && row.credits.value != 0 then row.credits.value else 0;
    User(Some(userId), name, email, credits)
  }

  /** What `<main>` shows for a view; the tool page needs a truthy (non-empty) tool id. */
  function MainOf(view: View, selectedToolId: Option<string>): (main: Main)
    requires view != Login
    ensures main.ToolMain? <==> view == ToolView && selectedToolId.Some? && selectedToolId.value != []
    ensures main.ToolMain? ==> main.toolId == selectedToolId.value
    ensures main == DashboardMain <==> view == Dashboard
    ensures main == PlansMain <==> view == Plans
  {
    match view
    case Dashboard => DashboardMain
    case Plans => PlansMain
    case ToolView =>
      if selectedToolId.Some? && selectedToolId.value != [] then ToolMain(selectedToolId.value) else NoMain
  }

  /** Every card of the dashboard has a non-empty id, so choosing it opens the tool page for it. */
  lemma {:induction false} DashboardIdsOpen(i: int)
    requires 0 <= i < |Catalog.Tools|
    ensures Catalog.Tools[i].id != []
    ensures MainOf(ToolView, Some(Catalog.Tools[i].id)) == ToolMain(Catalog.Tools[i].id)
  {
    Catalog.ToolIds();
  }

  /** Of the four dashboard tools, the essay corrector is the one whose page is still under development. */
  lemma {:induction false} DashboardToolForms()
    ensures ToolPage.FormScreen(Catalog.Tools[0].id) == ToolPage.QuestionsScreen
    ensures ToolPage.FormScreen(Catalog.Tools[1].id) == ToolPage.SlidesScreen
    ensures ToolPage.FormScreen(Catalog.Tools[2].id) == ToolPage.LessonPlanScreen
    ensures ToolPage.FormScreen(Catalog.Tools[3].id) == ToolPage.UnderDevelopment
  {
    Catalog.ToolIds();
  }

  /** The state of `App`. */
  class App {
    /** `isConfigured`: whether the authentication service has its URL and key. */
    const configured: bool
    var view: View
    var isDarkMode: bool
    var selectedToolId: Option<string>
    var user: Option<User>
    var isSidebarVisible: bool
    var loading: bool

    /** The first render: login view, light theme, no tool, nobody signed in, sidebar shown, still loading. */
    constructor (configured: bool)
      ensures this.configured == configured
      ensures view == Login && !isDarkMode && selectedToolId == None && user == None
      ensures isSidebarVisible && loading
      ensures Screen() == Spinner
    {
      this.configured := configured;
      view := Login;
      isDarkMode := false;
      selectedToolId := None;
      user := None;
      isSidebarVisible := true;
      loading := true;
    }

    /** The render: a spinner while loading, the login page on the login view, the workspace otherwise. */
    function Screen(): (r: Rendered)
      reads this`loading, this`view, this`selectedToolId
      ensures r == Spinner <==> loading
      ensures r == LoginPage <==> !loading && view == Login
      ensures r.Workspace? ==> r.main == MainOf(view, selectedToolId)
    {
      if loading then Spinner
      else if view == Login then LoginPage
      else Workspace(MainOf(view, selectedToolId))
    }

    /** `fetchProfile`: a returned row becomes the user; no row, or no service, leaves the user alone. */
    method FetchProfile(userId: string, email: string, row: Option<Profile>)
      modifies this`user
      ensures configured && row.Some? ==> user == Some(UserOf(userId, email, row.value))
      ensures !configured || row.None? ==> user == old(user)
    {
      if !configured {
        return;
      }
      if row.Some? {
        user := Some(UserOf(userId, email, row.value));
      }
    }

    /**
     * `checkUser` at start-up: with the service configured, a session found
     * without error loads its profile; whatever happens, loading ends.
     */
    method CheckUser(lookup: Result<Option<Session>, string>, row: Option<Profile>)
      modifies this`user, this`loading
      ensures !loading
      ensures configured && lookup.Success? && lookup.value.Some? && row.Some? ==>
        user == Some(UserOf(lookup.value.value.userId, SessionEmail(lookup.value.value), row.value))
      ensures !(configured && lookup.Success? && lookup.value.Some? && row.Some?) ==> user == old(user)
    {
      if !configured {
        loading := false;
        return;
      }
      if lookup.Success? && lookup.value.Some? {
        var session := lookup.value.value;
        FetchProfile(session.userId, SessionEmail(session), row);
      }
      loading := false;
    }

    /**
     * The auth-state listener, subscribed only when Supabase is configured: a
     * session loads its profile and opens the dashboard; none signs out.
     */
    method OnAuthStateChange(session: Option<Session>, row: Option<Profile>)
      requires configured
      modifies this`user, this`view
      ensures session.Some? ==> view == Dashboard
      ensures session.Some? && row.Some? ==>
        user == Some(UserOf(session.value.userId, SessionEmail(session.value), row.value))
      ensures session.Some? && row.None? ==> user == old(user)
      ensures session.None? ==> user == None && view == Login
    {
      if session.Some? {
        FetchProfile(session.value.userId, SessionEmail(session.value), row);
        view := Dashboard;
      } else {
        user := None;
        view := Login;
      }
    }

    /** `handleLogin`: the login page hands over a user and the dashboard opens. */
    method HandleLogin(u: User)
      modifies this`user, this`view
      ensures user == Some(u) && view == Dashboard
      ensures !loading ==> Screen() == Workspace(DashboardMain)
    {
      user := Some(u);
      view := Dashboard;
    }

    /** `handleSelectTool`: a dashboard card opens its tool. */
    method HandleSelectTool(id: string)
      modifies this`selectedToolId, this`view
      ensures selectedToolId == Some(id) && view == ToolView
      ensures !loading && id != [] ==> Screen() == Workspace(ToolMain(id))
      ensures !loading && id == [] ==> Screen() == Workspace(NoMain)
    {
      selectedToolId := Some(id);
      view := ToolView;
    }

    /** `handleNavigate`: the sidebar closes any open tool and shows the chosen view. */
    method HandleNavigate(newView: View)
      modifies this`selectedToolId, this`view
      ensures selectedToolId == None && view == newView
      ensures !Screen().Workspace? || !Screen().main.ToolMain?
    {
      selectedToolId := None;
      view := newView;
    }

    /** `handleGoHome`: the tool page's back button closes the tool and shows the dashboard. */
    method HandleGoHome()
      modifies this`selectedToolId, this`view
      ensures selectedToolId == None && view == Dashboard
      ensures !loading ==> Screen() == Workspace(DashboardMain)
    {
      selectedToolId := None;
      view := Dashboard;
    }

    /** `handleLogout`: whether or not signing out of the service succeeds, nobody is signed in and the login page shows. */
    method HandleLogout()
      modifies this`user, this`view
      ensures user == None && view == Login
      ensures !loading ==> Screen() == LoginPage
    {
      user := None;
      view := Login;
    }

    /** `toggleSidebar`, which the header's home button calls. */
    method ToggleSidebar()
      modifies this`isSidebarVisible
      ensures isSidebarVisible == !old(isSidebarVisible)
    {
      isSidebarVisible := !isSidebarVisible;
    }

    /** The header's theme switch. */
    method ToggleTheme()
      modifies this`isDarkMode
      ensures isDarkMode == !old(isDarkMode)
    {
      isDarkMode := !isDarkMode;
    }
  }

  /** Hiding and showing the sidebar again leaves every part of the shell as it was. */
  method SidebarToggleTwice(app: App)
    modifies app`isSidebarVisible
    ensures app.isSidebarVisible == old(app.isSidebarVisible)
  {
    app.ToggleSidebar();
    app.ToggleSidebar();
  }

  /** Signing out from any state, then signing back in, lands on the dashboard with the new user. */
  method LogoutThenLogin(app: App, u: User)
    modifies app`user, app`view
    ensures app.user == Some(u) && app.view == Dashboard
    ensures app.selectedToolId == old(app.selectedToolId)
  {
    app.HandleLogout();
    app.HandleLogin(u);
  }
}
