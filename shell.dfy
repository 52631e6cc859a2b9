/** The application shell: the session, the role-filtered navigation menu and the
    dispatch from the current view to the module shown. The stored session is the
    `storedSession` field; it holds the officer record itself. */
module Shell {
  import opened Types
  import opened NavTable
  import opened Lists
  import AuthFlow
  import Text

  function RoleOf(user: Option<User>): Option<UserRole> {
    if user.Some? then Some(user.value.role) else None
  }

  /** An entry is shown when it is public, or when an officer is signed in whose
      role the entry lists. */
  predicate Visible(item: NavItem, role: Option<UserRole>) {
    item.allowedRoles.None? || (role.Some? && role.value in item.allowedRoles.value)
  }

  /** The menu filter: the visible entries of `items`, in order. */
  function Menu(items: seq<NavItem>, role: Option<UserRole>): seq<NavItem> {
    if items == [] then []
    else if Visible(items[0], role) then [items[0]] + Menu(items[1..], role)
    else Menu(items[1..], role)
  }

  /** The menu shown to the signed-in officer (or to nobody). */
  function AuthorizedNavItems(user: Option<User>): seq<NavItem> {
    Menu(NavItems(), RoleOf(user))
  }

  /** An entry is on the menu exactly when it is in the list and visible to the role. */
  lemma {:induction false} MenuMembership(items: seq<NavItem>, role: Option<UserRole>, item: NavItem)
    ensures item in Menu(items, role) <==> item in items && Visible(item, role)
  {
    if items != [] {
      MenuMembership(items[1..], role, item);
      assert items == [items[0]] + items[1..];
    }
  }

  /** The menu keeps the table's order: it is the table with entries dropped. */
  lemma {:induction false} MenuIsSublist(items: seq<NavItem>, role: Option<UserRole>)
    ensures Sublist(Menu(items, role), items)
  {
    if items != [] {
      MenuIsSublist(items[1..], role);
      if Visible(items[0], role) {
        var rest := Menu(items[1..], role);
        assert ([items[0]] + rest)[1..] == rest;
      }
    }
  }

  /** Filtering a menu again for the same role changes nothing. */
  lemma {:induction false} MenuIdempotent(items: seq<NavItem>, role: Option<UserRole>)
    ensures Menu(Menu(items, role), role) == Menu(items, role)
  {
    if items != [] {
      MenuIdempotent(items[1..], role);
      if Visible(items[0], role) {
        var rest := Menu(items[1..], role);
        assert ([items[0]] + rest)[1..] == rest;
      }
    }
  }

  /** When every entry is visible, the menu is the whole list. */
  lemma {:induction false} MenuKeepsAll(items: seq<NavItem>, role: Option<UserRole>)
    requires forall i :: 0 <= i < |items| ==> Visible(items[i], role)
    ensures Menu(items, role) == items
  {
    if items != [] {
      MenuKeepsAll(items[1..], role);
      assert [items[0]] + items[1..] == items;
    }
  }

  /** A public entry is in every menu. */
  lemma PublicEntryAlwaysListed(user: Option<User>, i: nat)
    requires i < |NavItems()| && NavItems()[i].allowedRoles.None?
    ensures NavItems()[i] in AuthorizedNavItems(user)
  {
    MenuMembership(NavItems(), RoleOf(user), NavItems()[i]);
  }

  /** A restricted entry is listed exactly when an officer is signed in and the
      entry names that officer's role. */
  lemma RestrictedEntryListedIff(user: Option<User>, i: nat)
    requires i < |NavItems()| && NavItems()[i].allowedRoles.Some?
    ensures NavItems()[i] in AuthorizedNavItems(user) <==>
      user.Some? && user.value.role in NavItems()[i].allowedRoles.value
  {
    MenuMembership(NavItems(), RoleOf(user), NavItems()[i]);
  }

  /** The menu is an ordered sublist of the table, depends on the role alone, and
      filtering it again changes nothing. */
  lemma MenuStable(a: User, b: User)
    requires a.role == b.role
    ensures Sublist(AuthorizedNavItems(Some(a)), NavItems())
    ensures AuthorizedNavItems(Some(a)) == AuthorizedNavItems(Some(b))
    ensures Menu(AuthorizedNavItems(Some(a)), Some(a.role)) == AuthorizedNavItems(Some(a))
  {
    MenuIsSublist(NavItems(), Some(a.role));
    MenuIdempotent(NavItems(), Some(a.role));
  }

  /** The dashboard is on every menu. */
  lemma DashboardAlwaysAuthorized(user: Option<User>)
    ensures Dashboard in NavIds(AuthorizedNavItems(user))
  {
    MenuMembership(NavItems(), RoleOf(user), NavItems()[0]);
    IdListed(AuthorizedNavItems(user), NavItems()[0]);
  }

  /** With nobody signed in, the menu is the dashboard alone. */
  lemma SignedOutMenu()
    ensures NavIds(AuthorizedNavItems(None)) == [Dashboard]
  {
    var items := NavItems();
    assert Menu(items[1..], None) == [] by {
      var k := 9;
      while k > 0
        invariant 0 <= k <= 9
        invariant Menu(items[k + 1..], None) == []
      {
        assert items[k..] == [items[k]] + items[k + 1..];
        k := k - 1;
      }
    }
  }

  /** The director-general sees all ten entries. */
  lemma DirectorGeneralMenu(u: User)
    requires u.role == DirectorGeneral
    ensures AuthorizedNavItems(Some(u)) == NavItems()
  {
    DirectorGeneralInEveryRestrictedEntry();
    MenuKeepsAll(NavItems(), Some(DirectorGeneral));
  }

  /** The concrete menus below are computed from the end of the table, a few
      entries per lemma. */
  lemma TableEnd(role: Option<UserRole>)
    ensures Menu(NavItems()[10..], role) == []
  {
    assert NavItems()[10..] == [];
  }

  lemma AuditorLastFive()
    ensures Menu(NavItems()[5..], Some(Auditor)) == []
  {
    var items := NavItems();
    var role := Some(Auditor);
    TableEnd(role);
    assert Menu(items[9..], role) == [];
    assert Menu(items[8..], role) == [];
    assert Menu(items[7..], role) == [];
    assert Menu(items[6..], role) == [];
    assert Menu(items[5..], role) == [];
  }

  lemma AuditorFromOne()
    ensures Menu(NavItems()[1..], Some(Auditor)) == [NavItems()[4]]
  {
    var items := NavItems();
    var role := Some(Auditor);
    AuditorLastFive();
    assert Menu(items[4..], role) == [items[4]];
    assert Menu(items[3..], role) == [items[4]];
    assert Menu(items[2..], role) == [items[4]];
    assert Menu(items[1..], role) == [items[4]];
  }

  /** An auditor sees the dashboard and finance only. */
  lemma AuditorMenu(u: User)
    requires u.role == Auditor
    ensures NavIds(AuthorizedNavItems(Some(u))) == [Dashboard, Finance]
  {
    var items := NavItems();
    var role := Some(Auditor);
    AuditorFromOne();
    assert Menu(items[0..], role) == [items[0], items[4]];
    assert items[0..] == items;
  }

  lemma BorderAgentLastSeven()
    ensures Menu(NavItems()[3..], Some(BorderAgent)) == []
  {
    var items := NavItems();
    var role := Some(BorderAgent);
    TableEnd(role);
    assert Menu(items[9..], role) == [];
    assert Menu(items[8..], role) == [];
    assert Menu(items[7..], role) == [];
    assert Menu(items[6..], role) == [];
    assert Menu(items[5..], role) == [];
    assert Menu(items[4..], role) == [];
    assert Menu(items[3..], role) == [];
  }

  lemma BorderAgentFromOne()
    ensures Menu(NavItems()[1..], Some(BorderAgent)) == [NavItems()[1], NavItems()[2]]
  {
    var items := NavItems();
    var role := Some(BorderAgent);
    BorderAgentLastSeven();
    assert Menu(items[2..], role) == [items[2]];
    assert Menu(items[1..], role) == [items[1], items[2]];
  }

  /** A border agent sees the dashboard, border control and the foreigner registry. */
  lemma BorderAgentMenu(u: User)
    requires u.role == BorderAgent
    ensures NavIds(AuthorizedNavItems(Some(u))) == [Dashboard, Verification, Foreigners]
  {
    var items := NavItems();
    var role := Some(BorderAgent);
    BorderAgentFromOne();
    assert Menu(items[0..], role) == [items[0], items[1], items[2]];
    assert items[0..] == items;
  }

  /** Settings is on a menu exactly for system administrators and the director-general. */
  lemma SettingsMenu(u: User)
    ensures Settings in NavIds(AuthorizedNavItems(Some(u))) <==> u.role == SystemAdmin || u.role == DirectorGeneral
  {
    var items := AuthorizedNavItems(Some(u));
    SettingsRoles();
    if u.role == SystemAdmin || u.role == DirectorGeneral {
      MenuMembership(NavItems(), Some(u.role), NavItems()[9]);
      IdListed(items, NavItems()[9]);
    } else if Settings in NavIds(items) {
      var i :| 0 <= i < |items| && NavIds(items)[i] == Settings;
      MenuMembership(NavItems(), Some(u.role), items[i]);
      SettingsEntryUnique(items[i]);
      assert false;
    }
  }

  /** The modules the shell can mount, and the placeholder for everything else. */
  datatype Module =
    | DashboardModule
    | VerificationModule
    | ForeignerModule
    | VisaModule
    | AnalyticsModule
    | OperationsModule
    | FinanceModule
    | IntelligenceModule
    | CommunicationModule
    | RestrictedPlaceholder

  /** The view dispatch. It reads the view alone: the role plays no part here. */
  function RenderView(view: AppView): (m: Module)
    ensures m == RestrictedPlaceholder <==> view == Settings
  {
    match view
    case Dashboard => DashboardModule
    case Verification => VerificationModule
    case Foreigners => ForeignerModule
    case VisaServices => VisaModule
    case Analytics => AnalyticsModule
    case Operations => OperationsModule
    case Finance => FinanceModule
    case Intelligence => IntelligenceModule
    case Communication => CommunicationModule
    case _ => RestrictedPlaceholder
  }

  /** Distinct views mount distinct modules. */
  lemma RenderViewInjective(a: AppView, b: AppView)
    requires RenderView(a) == RenderView(b)
    ensures a == b
  {
  }

  /** The shell's state. */
  class App {
    var isAuthenticated: bool
    var currentUser: Option<User>
    var currentView: AppView
    /** The session record kept in local storage. */
    var storedSession: Option<User>

    /** Signed in exactly when an officer is held, the stored session mirrors it,
        a signed-out shell sits on the dashboard, and the current view is always
        one the menu offers: access control lives in the menu alone. */
    ghost predicate Valid()
      reads this
    {
      && isAuthenticated == currentUser.Some?
      && storedSession == currentUser
      && (!isAuthenticated ==> currentView == Dashboard)
      && currentView in NavIds(AuthorizedNavItems(currentUser))
    }

    /** Mounting restores a stored session, if any. */
    constructor Mount(stored: Option<User>)
      ensures Valid()
      ensures currentUser == stored && isAuthenticated == stored.Some?
      ensures currentView == Dashboard && storedSession == stored
    {
      isAuthenticated := false;
      currentUser := None;
      currentView := Dashboard;
      storedSession := stored;
      if stored.Some? {
        currentUser := stored;
        isAuthenticated := true;
      }
      new;
      DashboardAlwaysAuthorized(currentUser);
    }

    /** The sign-in callback. A first call comes from the sign-in screen, while
        nobody is signed in; a sign-in callback still pending from a repeated
        click may call it again, for the same officer, once signed in. */
    method HandleLogin(user: User)
      requires Valid() && (!isAuthenticated || currentUser == Some(user))
      modifies this`currentUser, this`isAuthenticated, this`storedSession
      ensures Valid()
      ensures currentUser == Some(user) && isAuthenticated && storedSession == Some(user)
      ensures currentView == old(currentView)
      ensures !old(isAuthenticated) ==> currentView == Dashboard
    {
      currentUser := Some(user);
      isAuthenticated := true;
      storedSession := Some(user);
      DashboardAlwaysAuthorized(currentUser);
    }

    method HandleLogout()
      requires Valid()
      modifies this
      ensures Valid()
      ensures !isAuthenticated && currentUser.None? && storedSession.None? && currentView == Dashboard
    {
      isAuthenticated := false;
      currentUser := None;
      storedSession := None;
      currentView := Dashboard;
      DashboardAlwaysAuthorized(currentUser);
    }

    /** A click on a menu entry; only entries of the current menu are shown. */
    method Navigate(view: AppView)
      requires Valid() && isAuthenticated
      requires view in NavIds(AuthorizedNavItems(currentUser))
      modifies this`currentView
      ensures Valid() && currentView == view
    {
      currentView := view;
    }

    /** What the main area shows. */
    method Render() returns (m: Module)
      requires Valid()
      ensures m == RenderView(currentView)
      ensures m == RestrictedPlaceholder ==>
        currentUser.Some? && (currentUser.value.role == SystemAdmin || currentUser.value.role == DirectorGeneral)
    {
      m := RenderView(currentView);
      if m == RestrictedPlaceholder {
        SettingsMenu(currentUser.value);
      }
    }
  }

  /** Signing in as "dgm-ba" with no platform authenticator: lookup, simulated scan,
      token "1234". The shell ends up holding the seeded border agent. */
  method BorderAgentSignIn() returns (session: Option<User>, menu: seq<AppView>)
    ensures session == Some(AuthFlow.MockUsers()["DGM-BA"])
    ensures session.value.clearanceLevel == 2
    ensures menu == [Dashboard, Verification, Foreigners]
  {
    var app := new App.Mount(None);
    var g := AuthFlow.BorderAgentFallbackSignIn();
    AuthFlow.LowerCaseBorderAgentBadge(map[]);
    app.HandleLogin(g.value);
    session := app.currentUser;
    BorderAgentMenu(session.value);
    menu := NavIds(AuthorizedNavItems(session));
  }

  /** A second sign-in callback for the officer already signed in, as a double
      click on the token button schedules, leaves the shell where it was. */
  method RepeatedSignInCallback() returns (view: AppView, session: Option<User>)
    ensures view == Verification
    ensures session == Some(AuthFlow.MockUsers()["DGM-BA"])
  {
    var u := AuthFlow.MockUsers()["DGM-BA"];
    var app := new App.Mount(None);
    app.HandleLogin(u);
    BorderAgentMenu(u);
    app.Navigate(Verification);
    app.HandleLogin(u);
    view := app.currentView;
    session := app.currentUser;
  }
}
