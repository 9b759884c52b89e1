/** The user-administration screen: the search and role filter over the user
    list, the role and status labels, and the handlers and buttons that the
    `usuarios.write` capability guards. */
module Usuarios {
  import opened Ui
  import opened JsStrings
  import opened UserRoles
  import AppNavigation

  /** The capability every mutating action of the screen asks for. */
  const WritePermission := "usuarios.write"

  /** The role filter that keeps every role. */
  const Todos := "todos"

  const Activo := "activo"
  const Inactivo := "inactivo"

  const NoMatches := "No se encontraron usuarios con los filtros aplicados"
  const NoUsers := "No hay usuarios registrados en el sistema"

  /** A user as the list shows it (the last-access date is not modelled). */
  datatype Usuario = Usuario(id: int, nombre: string, email: string, rol: string, estado: string, institucion: string)

  /** The search half of the filter: the lowercased query occurs in the
      lowercased name or the lowercased email. */
  predicate MatchesSearch(u: Usuario, query: string)
    ensures query == "" ==> MatchesSearch(u, query)
    ensures MatchesSearch(u, query) ==> |query| <= |u.nombre| || |query| <= |u.email|
  {
    Includes(Lower(u.nombre), Lower(query)) || Includes(Lower(u.email), Lower(query))
  }

  /** The role half of the filter: `'todos'`, or the user's own role. */
  predicate MatchesFilter(u: Usuario, filter: string)
    ensures filter == Todos ==> MatchesFilter(u, filter)
    ensures filter != Todos ==> (MatchesFilter(u, filter) <==> u.rol == filter)
  {
    filter == Todos || u.rol == filter
  }

  predicate Kept(u: Usuario, query: string, filter: string) {
    MatchesSearch(u, query) && MatchesFilter(u, filter)
  }

  /** `a` is `b` with some elements left out, the rest in their order. */
  predicate IsSubsequence<T(==)>(a: seq<T>, b: seq<T>)
    decreases |b|
  {
    a == [] || (b != [] && ((a[0] == b[0] && IsSubsequence(a[1..], b[1..])) || IsSubsequence(a, b[1..])))
  }

  /** `filteredUsuarios`: the users that pass both halves of the filter, in
      list order. */
  function FilterUsuarios(us: seq<Usuario>, query: string, filter: string): (r: seq<Usuario>)
    ensures IsSubsequence(r, us)
    ensures forall u :: u in r ==> Kept(u, query, filter)
    ensures forall u :: u in us && Kept(u, query, filter) ==> u in r
    ensures forall u :: multiset(r)[u] == if Kept(u, query, filter) then multiset(us)[u] else 0
  {
    if us == [] then []
    else
      var rest := FilterUsuarios(us[1..], query, filter);
      assert forall u :: u in us ==> u == us[0] || u in us[1..];
      assert us == [us[0]] + us[1..];
      assert multiset(us) == multiset{us[0]} + multiset(us[1..]);
      if Kept(us[0], query, filter) then
        assert ([us[0]] + rest)[1..] == rest;
        assert multiset([us[0]] + rest) == multiset{us[0]} + multiset(rest);
        [us[0]] + rest
      else rest
  }

  /** An empty query with the `'todos'` filter shows the whole list. */
  lemma {:induction false} KeepAllWhenUnfiltered(us: seq<Usuario>)
    ensures FilterUsuarios(us, "", Todos) == us
  {
    if us != [] {
      KeepAllWhenUnfiltered(us[1..]);
      assert Lower("") == "";
      assert [us[0]] + us[1..] == us;
    }
  }

  /** Filtering the shown list again with the same query and filter changes
      nothing. */
  lemma {:induction false} FilterIdempotent(us: seq<Usuario>, query: string, filter: string)
    ensures FilterUsuarios(FilterUsuarios(us, query, filter), query, filter) == FilterUsuarios(us, query, filter)
  {
    if us != [] {
      FilterIdempotent(us[1..], query, filter);
      var rest := FilterUsuarios(us[1..], query, filter);
      if Kept(us[0], query, filter) {
        assert ([us[0]] + rest)[1..] == rest;
      }
    }
  }

  /** The search ignores the case of the query: typing it in capitals finds
      the same users. */
  lemma SearchIgnoresQueryCase(u: Usuario, query: string)
    ensures MatchesSearch(u, Lower(query)) == MatchesSearch(u, query)
  {
    LowerIdempotent(query);
  }

  /** A user found by the search is found by every part of the query: each
      slice of the lowercased query occurs in the name or the email. */
  lemma NarrowingQueryKeepsUser(u: Usuario, query: string, i: nat, j: nat)
    requires i <= j <= |query|
    requires MatchesSearch(u, query)
    ensures MatchesSearch(u, query[i..j])
  {
    var lq := Lower(query);
    var lsub := Lower(query[i..j]);
    assert lsub == lq[i..j];
    if Includes(Lower(u.nombre), lq) {
      SliceIncluded(Lower(u.nombre), lq, i, j);
    } else {
      SliceIncluded(Lower(u.email), lq, i, j);
    }
  }

  lemma SliceIncluded(s: string, q: string, i: nat, j: nat)
    requires i <= j <= |q|
    requires Includes(s, q)
    ensures Includes(s, q[i..j])
  {
    IncludesIffOccurs(s, q);
    var k :| OccursAt(s, q, k);
    assert 0 <= k <= |s| - |q| && s[k..k + |q|] == q;
    forall t | 0 <= t < j - i
      ensures s[k + i..k + j][t] == q[i..j][t]
    {
      assert s[k + i..k + j][t] == s[k..k + |q|][i + t];
    }
    assert s[k + i..k + j] == q[i..j];
    assert OccursAt(s, q[i..j], k + i);
    IncludesIffOccurs(s, q[i..j]);
  }

  /** With a role filter chosen, every listed user has that role. */
  lemma RoleFilterOnlyThatRole(us: seq<Usuario>, query: string, role: string)
    requires role != Todos
    ensures forall u :: u in FilterUsuarios(us, query, role) ==> u.rol == role
  {
  }

  /** `getRoleDisplayName`: the four roles get their Spanish names; any other
      value is shown as it is. */
  function RoleDisplayName(rol: string): (name: string)
    ensures rol == Admin ==> name == "Administrador"
    ensures rol == Juez ==> name == "Juez"
    ensures rol == Secretario ==> name == "Secretario"
    ensures rol == Operador ==> name == "Operador"
    ensures rol !in AllRoles ==> name == rol
  {
    if rol == Admin then "Administrador"
    else if rol == Juez then "Juez"
    else if rol == Secretario then "Secretario"
    else if rol == Operador then "Operador"
    else rol
  }

  /** Distinct roles are shown under distinct names. */
  lemma RoleDisplayNamesDistinct(r1: string, r2: string)
    requires r1 in AllRoles && r2 in AllRoles && r1 != r2
    ensures RoleDisplayName(r1) != RoleDisplayName(r2)
  {
  }

  /** The status `handleCambiarEstado` offers to switch to: `'inactivo'` for an
      active user, `'activo'` for any other value. */
  function NextStatus(estado: string): (s: string)
    ensures s == Activo || s == Inactivo
    ensures s == Inactivo <==> estado == Activo
  {
    if estado == Activo then Inactivo else Activo
  }

  /** Toggling twice restores either of the two statuses. */
  lemma NextStatusInvolution(estado: string)
    requires estado == Activo || estado == Inactivo
    ensures NextStatus(NextStatus(estado)) == estado
  {
  }

  /** The status label on a card: "Activo" for an active user, "Inactivo"
      for every other value. */
  function StatusLabel(estado: string): (text: string)
    ensures text == "Activo" <==> estado == Activo
    ensures text == "Activo" || text == "Inactivo"
  {
    if estado == Activo then "Activo" else "Inactivo"
  }

  /** The toggle always offers the status the card does not show. */
  lemma ToggleOffersOtherStatus(estado: string)
    ensures StatusLabel(NextStatus(estado)) != StatusLabel(estado)
  {
  }

  /** `handleNuevoUsuario`. */
  function HandleNuevoUsuario(hasPermission: string -> bool): (e: Effect)
    ensures IsDenial(e) <==> !hasPermission(WritePermission)
    ensures !IsDenial(e) ==> e == Navigate(NuevoUsuario, map[])
  {
    if hasPermission(WritePermission) then Navigate(NuevoUsuario, map[])
    else Notice(AccessDenied, "No tienes permisos para crear usuarios.")
  }

  /** `handleEditarUsuario`: opens the edit screen on this user's id. */
  function HandleEditarUsuario(u: Usuario, hasPermission: string -> bool): (e: Effect)
    ensures IsDenial(e) <==> !hasPermission(WritePermission)
    ensures !IsDenial(e) ==> e.Navigate? && e.route == EditarUsuario
                             && e.params.Keys == {"usuarioId"} && e.params["usuarioId"] == u.id
  {
    if hasPermission(WritePermission) then Navigate(EditarUsuario, map["usuarioId" := u.id])
    else Notice(AccessDenied, "No tienes permisos para editar usuarios.")
  }

  /** The verb of the confirmation question for a switch to `next`. */
  function ActionVerb(next: string): string {
    if next == Activo then "activar" else "desactivar"
  }

  /** The participle of the success notice for a switch to `next`. */
  function DoneWord(next: string): string {
    if next == Activo then "activado" else "desactivado"
  }

  /** The question of the status confirmation. */
  function ConfirmQuestion(u: Usuario): string {
    "\U{00BF}Est\U{00E1} seguro que desea " + ActionVerb(NextStatus(u.estado)) + " al usuario " + u.nombre + "?"
  }

  /** The notice raised once the status change is confirmed. */
  function ConfirmedNotice(u: Usuario): Effect {
    Notice("\U{00C9}xito", "Usuario " + DoneWord(NextStatus(u.estado)) + " correctamente.")
  }

  /** `handleCambiarEstado`: asks for confirmation of the toggle, and on
      confirmation reports it; the user record itself is not changed. */
  function HandleCambiarEstado(u: Usuario, hasPermission: string -> bool): (e: Effect)
    ensures IsDenial(e) <==> !hasPermission(WritePermission)
    ensures !IsDenial(e) ==> e.Confirm? && e.message == ConfirmQuestion(u) && e.onConfirm == ConfirmedNotice(u)
    ensures !IsDenial(e) ==> !IsDenial(e.onConfirm)
  {
    if hasPermission(WritePermission) then Confirm("Cambiar Estado", ConfirmQuestion(u), ConfirmedNotice(u))
    else Notice(AccessDenied, "No tienes permisos para cambiar el estado de usuarios.")
  }

  /** The three handlers fail closed. With `usuarios.write` they open the
      create screen, open the edit screen on this user's id, and ask to
      confirm the toggle whose confirmation reports it; without it each one
      raises its "Acceso Denegado" notice and does nothing else. */
  lemma HandlersGated(u: Usuario, hasPermission: string -> bool)
    ensures hasPermission(WritePermission) ==>
              && HandleNuevoUsuario(hasPermission) == Navigate(NuevoUsuario, map[])
              && HandleEditarUsuario(u, hasPermission) == Navigate(EditarUsuario, map["usuarioId" := u.id])
              && HandleCambiarEstado(u, hasPermission) == Confirm("Cambiar Estado", ConfirmQuestion(u), ConfirmedNotice(u))
    ensures !hasPermission(WritePermission) ==>
              && HandleNuevoUsuario(hasPermission) == Notice(AccessDenied, "No tienes permisos para crear usuarios.")
              && HandleEditarUsuario(u, hasPermission) == Notice(AccessDenied, "No tienes permisos para editar usuarios.")
              && HandleCambiarEstado(u, hasPermission)
                 == Notice(AccessDenied, "No tienes permisos para cambiar el estado de usuarios.")
    ensures IsDenial(HandleNuevoUsuario(hasPermission)) <==> !hasPermission(WritePermission)
    ensures IsDenial(HandleEditarUsuario(u, hasPermission)) <==> !hasPermission(WritePermission)
    ensures IsDenial(HandleCambiarEstado(u, hasPermission)) <==> !hasPermission(WritePermission)
  {
  }

  /** The question and the later notice name the same action: deactivation
      for an active user, activation for any other. */
  lemma ConfirmMatchesToggle(u: Usuario)
    ensures u.estado == Activo ==> ActionVerb(NextStatus(u.estado)) == "desactivar"
                                   && DoneWord(NextStatus(u.estado)) == "desactivado"
    ensures u.estado != Activo ==> ActionVerb(NextStatus(u.estado)) == "activar"
                                   && DoneWord(NextStatus(u.estado)) == "activado"
  {
  }

  /** The create and edit handlers navigate to `NuevoUsuario` and
      `EditarUsuario`, neither of which any navigator of the signed-in tree
      registers. */
  lemma UserFormsNotRegistered(session: AppNavigation.Session, u: Usuario, hasPermission: string -> bool)
    requires !session.isLoading && session.user.Some?
    requires hasPermission(WritePermission)
    ensures HandleNuevoUsuario(hasPermission).route !in AppNavigation.Registered(AppNavigation.AppNavigator(session).root)
    ensures HandleEditarUsuario(u, hasPermission).route !in AppNavigation.Registered(AppNavigation.AppNavigator(session).root)
  {
    assert HandleNuevoUsuario(hasPermission).route == NuevoUsuario;
    assert HandleEditarUsuario(u, hasPermission).route == EditarUsuario;
    UserRoutesUnregistered(session);
  }

  lemma UserRoutesUnregistered(session: AppNavigation.Session)
    requires !session.isLoading && session.user.Some?
    ensures var reg := AppNavigation.Registered(AppNavigation.AppNavigator(session).root);
            NuevoUsuario !in reg && EditarUsuario !in reg
  {
    var tabs := AppNavigation.Registered(AppNavigation.TabNavigator(session.user));
    AppNavigation.TabsRegistered(session.user);
    assert NuevoUsuario !in tabs && EditarUsuario !in tabs;
    AppNavigation.SignedInRegisteredParts(session);
  }

  /** The permission-guarded controls of the screen: the "Nuevo Usuario"
      button, and each card's edit and status buttons. */
  datatype Controls = Controls(nuevoUsuario: bool, editar: bool, cambiarEstado: bool)

  function RenderedControls(hasPermission: string -> bool): (c: Controls)
    ensures c.nuevoUsuario <==> hasPermission(WritePermission)
    ensures c.editar <==> hasPermission(WritePermission)
    ensures c.cambiarEstado <==> hasPermission(WritePermission)
  {
    var w := hasPermission(WritePermission);
    Controls(w, w, w)
  }

  /** A button that is on screen never leads to the denial notice. */
  lemma VisibleControlsNeverDenied(u: Usuario, hasPermission: string -> bool)
    ensures RenderedControls(hasPermission).nuevoUsuario ==> !IsDenial(HandleNuevoUsuario(hasPermission))
    ensures RenderedControls(hasPermission).editar ==> !IsDenial(HandleEditarUsuario(u, hasPermission))
    ensures RenderedControls(hasPermission).cambiarEstado ==> !IsDenial(HandleCambiarEstado(u, hasPermission))
  {
  }

  /** The list area: the cards of the shown users, or the empty state. */
  datatype ListView = Cards(shown: seq<Usuario>) | EmptyState(message: string)

  /** The list area for the current query and filter; the empty state blames
      the filters when any is set (`searchQuery || selectedFilter !== 'todos'`). */
  function RenderList(us: seq<Usuario>, query: string, filter: string): (v: ListView)
    ensures v.Cards? <==> FilterUsuarios(us, query, filter) != []
    ensures v.Cards? ==> v.shown == FilterUsuarios(us, query, filter)
    ensures v.EmptyState? ==> (v.message == NoMatches <==> query != "" || filter != Todos)
    ensures v.EmptyState? ==> v.message == NoMatches || v.message == NoUsers
  {
    var shown := FilterUsuarios(us, query, filter);
    if |shown| > 0 then Cards(shown)
    else if query != "" || filter != Todos then EmptyState(NoMatches)
    else EmptyState(NoUsers)
  }

  /** Without any filter set the list is never blamed on filters: it shows
      every user, or says that there are none. */
  lemma UnfilteredList(us: seq<Usuario>)
    ensures us != [] ==> RenderList(us, "", Todos) == Cards(us)
    ensures us == [] ==> RenderList(us, "", Todos) == EmptyState(NoUsers)
  {
    KeepAllWhenUnfiltered(us);
  }

  /** The five role filter buttons, in the order they are shown. */
  datatype FilterButton = TodosButton | AdminButton | JuezButton | SecretarioButton | OperadorButton

  /** The value a filter button writes into `selectedFilter`. */
  function FilterValue(b: FilterButton): (v: string)
    ensures v == Todos <==> b == TodosButton
    ensures b == AdminButton ==> v == Admin
    ensures b == JuezButton ==> v == Juez
    ensures b == SecretarioButton ==> v == Secretario
    ensures b == OperadorButton ==> v == Operador
    ensures v == Todos || v in AllRoles
  {
    match b
    case TodosButton => Todos
    case AdminButton => Admin
    case JuezButton => Juez
    case SecretarioButton => Secretario
    case OperadorButton => Operador
  }

  /** Pressing a filter button highlights that button alone. */
  lemma ExactlyOneFilterSelected(b: FilterButton, c: FilterButton)
    ensures FilterValue(c) == FilterValue(b) <==> c == b
  {
  }

  class UsuariosScreen {
    /** The list the screen filters (fixed data in the app). */
    const usuarios: seq<Usuario>
    var searchQuery: string
    var selectedFilter: string
    var refreshing: bool

    constructor (usuarios: seq<Usuario>)
      ensures this.usuarios == usuarios
      ensures searchQuery == "" && selectedFilter == Todos && !refreshing
    {
      this.usuarios := usuarios;
      searchQuery := "";
      selectedFilter := Todos;
      refreshing := false;
    }

    /** The users currently listed. */
    function Shown(): seq<Usuario>
      reads this
    {
      FilterUsuarios(usuarios, searchQuery, selectedFilter)
    }

    /** Typing in the search box. */
    method SetSearchQuery(q: string)
      modifies this`searchQuery
      ensures searchQuery == q
    {
      searchQuery := q;
    }

    /** The clear button: empties the query. */
    method ClearSearch()
      modifies this`searchQuery
      ensures searchQuery == "" && !ClearButtonVisible(searchQuery)
    {
      searchQuery := "";
    }

    method PressFilter(b: FilterButton)
      modifies this`selectedFilter
      ensures selectedFilter == FilterValue(b)
    {
      selectedFilter := FilterValue(b);
    }

    /** `onRefresh`: the refresh indicator goes on. */
    method OnRefresh()
      modifies this`refreshing
      ensures refreshing
    {
      refreshing := true;
    }

    /** The refresh timer firing: the indicator goes off. */
    method RefreshTimerFired()
      modifies this`refreshing
      ensures !refreshing
    {
      refreshing := false;
    }

    /** Clearing the search and choosing "Todos" brings back the whole list. */
    method ResetFilters()
      modifies this`searchQuery, this`selectedFilter
      ensures searchQuery == "" && selectedFilter == Todos
      ensures Shown() == usuarios
    {
      ClearSearch();
      PressFilter(TodosButton);
      KeepAllWhenUnfiltered(usuarios);
    }
  }
}
