/** The navigation tree of the app: which root is mounted for the current
    session, and which screens each navigator registers, in order. */
module AppNavigation {
  import opened Ui
  import UserRoles

  /** The signed-in user as the navigators see it: only `user.rol` is read,
      and it may be missing. */
  datatype AuthUser = AuthUser(rol: Option<string>)

  /** What `useAuth` provides to the navigators. */
  datatype Session = Session(user: Option<AuthUser>, isLoading: bool)

  datatype NavigatorKind = Stack | Tabs | Drawer

  /** A registered screen: a leaf screen, or one whose component is itself a
      navigator. */
  datatype Screen = Leaf(name: Route) | Nested(name: Route, navigator: Navigator)

  /** A navigator and its screens in registration order (the first one is the
      navigator's initial route). */
  datatype Navigator = Navigator(kind: NavigatorKind, screens: seq<Screen>)

  /** What `AppNavigator` renders: the loading view, or the root stack. */
  datatype RootView = LoadingView | Mounted(root: Navigator)

  function NameOf(s: Screen): Route {
    match s
    case Leaf(n) => n
    case Nested(n, _) => n
  }

  /** The names of a list of screens, in order. */
  function Names(ss: seq<Screen>): (names: seq<Route>)
    ensures |names| == |ss|
    ensures forall i :: 0 <= i < |ss| ==> names[i] == NameOf(ss[i])
  {
    seq(|ss|, i requires 0 <= i < |ss| => NameOf(ss[i]))
  }

  /** The names a navigator registers, in order. */
  function ScreenNames(nav: Navigator): seq<Route> {
    Names(nav.screens)
  }

  /** The route opened when the navigator mounts: its first screen and, when
      that screen is a navigator, that navigator's initial route. */
  function InitialRoute(nav: Navigator): seq<Route>
    decreases nav
  {
    if nav.screens == [] then []
    else
      match nav.screens[0]
      case Leaf(n) => [n]
      case Nested(n, inner) => [n] + InitialRoute(inner)
  }

  /** Every screen name registered anywhere in the tree below `nav`. */
  function Registered(nav: Navigator): set<Route> {
    RegisteredFrom(nav, 0)
  }

  /** The names registered by `nav.screens[i..]` and the navigators nested in them. */
  function RegisteredFrom(nav: Navigator, i: nat): set<Route>
    decreases nav, |nav.screens| - i
  {
    if i >= |nav.screens| then {}
    else
      (match nav.screens[i]
       case Leaf(n) => {n}
       case Nested(n, inner) => {n} + Registered(inner))
      + RegisteredFrom(nav, i + 1)
  }

  /** `AuthNavigator`: the sign-in flow. */
  function AuthNavigator(): (nav: Navigator)
    ensures nav.kind == Stack
    ensures ScreenNames(nav) == [Login, RecuperarPassword, CrearUsuario]
    ensures InitialRoute(nav) == [Login]
    ensures forall s :: s in nav.screens ==> s.Leaf?
  {
    Navigator(Stack, [Leaf(Login), Leaf(RecuperarPassword), Leaf(CrearUsuario)])
  }

  const BaseTabs: seq<Route> := [Home, Expedientes, Documentos]
  const AdminTabs: seq<Route> := [Usuarios, Auditoria]

  /** `user?.rol === USER_ROLES.ADMIN || user?.rol === USER_ROLES.SECRETARIO`. */
  predicate IsAdministrative(user: Option<AuthUser>) {
    user.Some? && (user.value.rol == Some(UserRoles.Admin) || user.value.rol == Some(UserRoles.Secretario))
  }

  /** `TabNavigator`: the three base tabs, then the two administration tabs
      for administrative roles only. */
  function TabNavigator(user: Option<AuthUser>): (nav: Navigator)
    ensures nav.kind == Tabs
    ensures BaseTabs <= ScreenNames(nav)
    ensures IsAdministrative(user) ==> ScreenNames(nav) == BaseTabs + AdminTabs
    ensures !IsAdministrative(user) ==> ScreenNames(nav) == BaseTabs
    ensures forall s :: s in nav.screens ==> s.Leaf?
  {
    var base := [Leaf(Home), Leaf(Expedientes), Leaf(Documentos)];
    var admin := if IsAdministrative(user) then [Leaf(Usuarios), Leaf(Auditoria)] else [];
    Navigator(Tabs, base + admin)
  }

  /** `DrawerNavigator`: one screen, `MainTabs`, holding the tabs. */
  function DrawerNavigator(user: Option<AuthUser>): (nav: Navigator)
    ensures nav.kind == Drawer
    ensures nav.screens == [Nested(MainTabs, TabNavigator(user))]
    ensures ScreenNames(nav) == [MainTabs]
    ensures InitialRoute(nav) == [MainTabs, Home]
  {
    var tabs := TabNavigator(user);
    assert InitialRoute(tabs) == [Home] by { assert NameOf(tabs.screens[0]) == Home; }
    Navigator(Drawer, [Nested(MainTabs, tabs)])
  }

  /** `AppNavigator`: the loading view while the session resolves; otherwise
      the root stack, which holds the main flow when a user is present and the
      sign-in flow when none is. */
  function AppNavigator(session: Session): (view: RootView)
    ensures session.isLoading <==> view == LoadingView
    ensures view.Mounted? ==> view.root.kind == Stack
    ensures view.Mounted? ==> view.root.screens != []
  {
    if session.isLoading then LoadingView
    else if session.user.Some? then
      Mounted(Navigator(Stack, [
        Nested(Main, DrawerNavigator(session.user)),
        Leaf(ExpedienteDetail),
        Leaf(NuevoExpediente),
        Leaf(SubirDocumento),
        Leaf(FirmarDocumento)]))
    else
      var root := Navigator(Stack, [Nested(Auth, AuthNavigator())]);

      Mounted(root)
  }

  /** While the session is loading nothing but the loading view is shown,
      whoever the user is. */
  lemma LoadingIgnoresUser(user1: Option<AuthUser>, user2: Option<AuthUser>)
    ensures AppNavigator(Session(user1, true)) == AppNavigator(Session(user2, true)) == LoadingView
  {
  }

  /** Signed out: the root stack registers `Auth` alone, the sign-in flow is
      `Login`, `RecuperarPassword`, `CrearUsuario`, it opens on `Login`, and no
      other screen of the app is registered anywhere. */
  lemma SignedOutTree(session: Session)
    requires !session.isLoading && session.user.None?
    ensures AppNavigator(session).Mounted?
    ensures AppNavigator(session).root.screens == [Nested(Auth, AuthNavigator())]
    ensures ScreenNames(AppNavigator(session).root) == [Auth]
    ensures ScreenNames(AuthNavigator()) == [Login, RecuperarPassword, CrearUsuario]
    ensures InitialRoute(AppNavigator(session).root) == [Auth, Login]
    ensures Registered(AppNavigator(session).root) == {Auth, Login, RecuperarPassword, CrearUsuario}
  {
    var root := AppNavigator(session).root;
    RegisteredLeaves(AuthNavigator(), 0);
    assert ScreenNames(AuthNavigator()) == [Login, RecuperarPassword, CrearUsuario];
    assert RegisteredFrom(root, 1) == {};
  }

  /** Signed in: the root stack registers `Main`, `ExpedienteDetail`,
      `NuevoExpediente`, `SubirDocumento`, `FirmarDocumento` in that order,
      opens on the `Home` tab inside the drawer, and never registers the
      sign-in flow. */
  lemma SignedInTree(session: Session)
    requires !session.isLoading && session.user.Some?
    ensures AppNavigator(session).Mounted?
    ensures ScreenNames(AppNavigator(session).root)
            == [Main, ExpedienteDetail, NuevoExpediente, SubirDocumento, FirmarDocumento]
    ensures AppNavigator(session).root.screens[0] == Nested(Main, DrawerNavigator(session.user))
    ensures InitialRoute(AppNavigator(session).root) == [Main, MainTabs, Home]
  {
    var tabs := TabNavigator(session.user);
    assert InitialRoute(tabs) == [Home] by { assert NameOf(tabs.screens[0]) == Home; }
    var drawer := DrawerNavigator(session.user);
    assert InitialRoute(drawer) == [MainTabs, Home];
  }

  /** Signed in, the administration screens are registered exactly for the
      administrative roles, and the sign-in screens never are. */
  lemma SignedInRegistered(session: Session)
    requires !session.isLoading && session.user.Some?
    ensures var reg := Registered(AppNavigator(session).root);
            && (Usuarios in reg <==> IsAdministrative(session.user))
            && (Auditoria in reg <==> IsAdministrative(session.user))
            && Auth !in reg && Login !in reg
  {
    SignedInRegisteredParts(session);
    TabsRegistered(session.user);
  }

  /** The tab navigator registers the base tabs, plus the administration tabs
      for administrative roles. */
  lemma TabsRegistered(user: Option<AuthUser>)
    ensures Registered(TabNavigator(user))
            == {Home, Expedientes, Documentos} + (if IsAdministrative(user) then {Usuarios, Auditoria} else {})
  {
    var tabs := TabNavigator(user);
    RegisteredLeaves(tabs, 0);
    assert ScreenNames(tabs)[0..] == ScreenNames(tabs);
  }

  /** The signed-in tree registers `Main`, `MainTabs`, the tabs and the four
      stacked screens. */
  lemma SignedInRegisteredParts(session: Session)
    requires !session.isLoading && session.user.Some?
    ensures Registered(AppNavigator(session).root)
            == {Main, MainTabs} + Registered(TabNavigator(session.user))
               + {ExpedienteDetail, NuevoExpediente, SubirDocumento, FirmarDocumento}
  {
    var root := AppNavigator(session).root;
    DrawerRegistered(session.user);
    StackedRegistered(session);
    assert Registered(root) == {Main} + Registered(DrawerNavigator(session.user)) + RegisteredFrom(root, 1);
  }

  lemma DrawerRegistered(user: Option<AuthUser>)
    ensures Registered(DrawerNavigator(user)) == {MainTabs} + Registered(TabNavigator(user))
  {
    assert RegisteredFrom(DrawerNavigator(user), 1) == {};
  }

  lemma StackedRegistered(session: Session)
    requires !session.isLoading && session.user.Some?
    ensures AppNavigator(session).root.screens[1..]
            == [Leaf(ExpedienteDetail), Leaf(NuevoExpediente), Leaf(SubirDocumento), Leaf(FirmarDocumento)]
    ensures RegisteredFrom(AppNavigator(session).root, 1)
            == {ExpedienteDetail, NuevoExpediente, SubirDocumento, FirmarDocumento}
  {
    var root := AppNavigator(session).root;
    RegisteredLeaves(root, 1);
    assert ScreenNames(root)[1..] == [ExpedienteDetail, NuevoExpediente, SubirDocumento, FirmarDocumento];
  }

  /** Past position `i`, a navigator of leaf screens registers exactly their names. */
  lemma {:induction false} RegisteredLeaves(nav: Navigator, i: nat)
    requires i <= |nav.screens|
    requires forall k :: i <= k < |nav.screens| ==> nav.screens[k].Leaf?
    ensures forall n :: n in RegisteredFrom(nav, i) <==> n in ScreenNames(nav)[i..]
    decreases |nav.screens| - i
  {
    if i < |nav.screens| {
      RegisteredLeaves(nav, i + 1);
      assert ScreenNames(nav)[i..] == [nav.screens[i].name] + ScreenNames(nav)[i + 1..];
    }
  }

  /** The root stack is a function of (`isLoading`, user present) alone; the
      role only shapes the tabs inside `Main`. */
  lemma RootDependsOnlyOnPresence(s1: Session, s2: Session)
    requires s1.isLoading == s2.isLoading && s1.user.Some? == s2.user.Some?
    ensures AppNavigator(s1).LoadingView? == AppNavigator(s2).LoadingView?
    ensures AppNavigator(s1).Mounted? ==> ScreenNames(AppNavigator(s1).root) == ScreenNames(AppNavigator(s2).root)
  {
  }

  /** A role outside the two administrative ones, or a missing one, never
      gets the administration tabs. */
  lemma UnknownRoleFailsClosed(rol: Option<string>)
    requires rol != Some(UserRoles.Admin) && rol != Some(UserRoles.Secretario)
    ensures ScreenNames(TabNavigator(Some(AuthUser(rol)))) == BaseTabs
    ensures Usuarios !in ScreenNames(TabNavigator(Some(AuthUser(rol))))
  {
  }
}
