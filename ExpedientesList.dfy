/** The case-file list: the query sent for the current search and status
    filter, the status labels, which view is shown, and the actions the
    `expedientes.write` capability guards. */
module ExpedientesList {
  import opened Ui
  import AppNavigation

  /** The capability that creating and editing case files asks for. */
  const WritePermission := "expedientes.write"

  /** The status filter that asks for every status. */
  const Todos := "todos"

  const Abierto := "abierto"
  const EnTramite := "en_tramite"
  const Resuelto := "resuelto"
  const Archivado := "archivado"

  /** The status codes the screen has labels and filter buttons for. */
  const StatusCodes: set<string> := {Abierto, EnTramite, Resuelto, Archivado}

  const NoMatches := "No se encontraron expedientes con los filtros aplicados"
  const NoCases := "No hay expedientes registrados en el sistema"

  /** A case file as a card shows it (the creation date is not modelled). */
  datatype Expediente = Expediente(id: int, nro: string, caratula: string, fuero: string, estado: string)

  /** The parameters of the list request: `estado` is left out (`undefined`)
      for the `'todos'` filter. */
  datatype ListQuery = ListQuery(search: string, estado: Option<string>)

  function QueryParams(searchQuery: string, selectedFilter: string): (p: ListQuery)
    ensures p.search == searchQuery
    ensures p.estado.None? <==> selectedFilter == Todos
    ensures p.estado.Some? ==> p.estado.value == selectedFilter
  {
    ListQuery(searchQuery, if selectedFilter == Todos then None else Some(selectedFilter))
  }

  /** Distinct search/filter states, which the query cache keeps apart, also
      send distinct requests. */
  lemma QueryParamsInjective(q1: string, f1: string, q2: string, f2: string)
    requires QueryParams(q1, f1) == QueryParams(q2, f2)
    ensures q1 == q2 && f1 == f2
  {
  }

  /** `getStatusText`: the four status codes get their labels; any other code
      is shown as it is. */
  function StatusText(estado: string): (text: string)
    ensures estado == Abierto ==> text == "Abierto"
    ensures estado == EnTramite ==> text == "En Tr\U{00E1}mite"
    ensures estado == Resuelto ==> text == "Resuelto"
    ensures estado == Archivado ==> text == "Archivado"
    ensures estado !in StatusCodes ==> text == estado
  {
    if estado == Abierto then "Abierto"
    else if estado == EnTramite then "En Tr\U{00E1}mite"
    else if estado == Resuelto then "Resuelto"
    else if estado == Archivado then "Archivado"
    else estado
  }

  /** Distinct status codes get distinct labels, and no label is the code
      itself. */
  lemma StatusTextsDistinct(e1: string, e2: string)
    requires e1 in StatusCodes && e2 in StatusCodes && e1 != e2
    ensures StatusText(e1) != StatusText(e2)
    ensures StatusText(e1) != e1
  {
  }

  /** `handleExpedientePress`: opens the detail screen on the card's id. */
  function HandleExpedientePress(e: Expediente): (eff: Effect)
    ensures eff.Navigate? && eff.route == ExpedienteDetail
    ensures eff.params.Keys == {"id"} && eff.params["id"] == e.id
  {
    Navigate(ExpedienteDetail, map["id" := e.id])
  }

  /** `handleNuevoExpediente`. */
  function HandleNuevoExpediente(hasPermission: string -> bool): (e: Effect)
    ensures IsDenial(e) <==> !hasPermission(WritePermission)
    ensures !IsDenial(e) ==> e == Navigate(NuevoExpediente, map[])
  {
    if hasPermission(WritePermission) then Navigate(NuevoExpediente, map[])
    else Notice(AccessDenied, "No tienes permisos para crear expedientes.")
  }

  /** The create handler opens the new-case-file form with `expedientes.write`
      and otherwise raises its "Acceso Denegado" notice and does nothing else. */
  lemma NuevoExpedienteGated(hasPermission: string -> bool)
    ensures hasPermission(WritePermission) ==> HandleNuevoExpediente(hasPermission) == Navigate(NuevoExpediente, map[])
    ensures !hasPermission(WritePermission) ==>
              HandleNuevoExpediente(hasPermission) == Notice(AccessDenied, "No tienes permisos para crear expedientes.")
    ensures IsDenial(HandleNuevoExpediente(hasPermission)) <==> !hasPermission(WritePermission)
  {
  }

  /** Pressing a card reaches a screen the signed-in root stack registers,
      whatever the user's capabilities. */
  lemma DetailRegistered(session: AppNavigation.Session, e: Expediente)
    requires !session.isLoading && session.user.Some?
    ensures HandleExpedientePress(e).route in AppNavigation.Registered(AppNavigation.AppNavigator(session).root)
  {
    AppNavigation.SignedInRegisteredParts(session);
  }

  /** With `expedientes.write`, the create action reaches a screen the
      signed-in root stack registers. */
  lemma TargetsRegistered(session: AppNavigation.Session, hasPermission: string -> bool)
    requires !session.isLoading && session.user.Some?
    requires hasPermission(WritePermission)
    ensures HandleNuevoExpediente(hasPermission).route in AppNavigation.Registered(AppNavigation.AppNavigator(session).root)
  {
    AppNavigation.SignedInRegisteredParts(session);
  }

  /** A card: the case file, its status label, and whether the "Editar"
      action is shown beside "Ver". */
  datatype Card = Card(expediente: Expediente, statusText: string, editar: bool)

  /** The list area below the filters. */
  datatype Body = LoadingBody | Cards(cards: seq<Card>) | EmptyBody(message: string)

  /** What the screen shows: the error view alone, or the list screen with
      its "Nuevo Expediente" button and list area. */
  datatype View = ErrorView(message: string) | ListScreen(nuevoExpediente: bool, body: Body)

  function CardFor(e: Expediente, hasPermission: string -> bool): Card {
    Card(e, StatusText(e.estado), hasPermission(WritePermission))
  }

  /** The render of the screen from the request state (`error`, `isLoading`,
      `data`), the search/filter state and the capabilities: an error wins
      over everything, then loading, then a non-empty list, then the empty
      view, whose message blames the filters when any is set. */
  function Render(error: Option<string>, isLoading: bool, data: Option<seq<Expediente>>,
                  searchQuery: string, selectedFilter: string,
                  hasPermission: string -> bool): (v: View)
    ensures v.ErrorView? <==> error.Some?
    ensures v.ErrorView? ==> v.message == error.value
    ensures v.ListScreen? ==> (v.nuevoExpediente <==> hasPermission(WritePermission))
    ensures v.ListScreen? ==> (v.body.LoadingBody? <==> isLoading)
    ensures v.ListScreen? ==> (v.body.Cards? <==> !isLoading && data.Some? && data.value != [])
    ensures v.ListScreen? && v.body.Cards? ==>
              |v.body.cards| == |data.value|
              && forall i :: 0 <= i < |data.value| ==> v.body.cards[i] == CardFor(data.value[i], hasPermission)
    ensures v.ListScreen? && v.body.EmptyBody? ==>
              (v.body.message == NoMatches <==> searchQuery != "" || selectedFilter != Todos)
              && (v.body.message == NoMatches || v.body.message == NoCases)
  {
    if error.Some? then ErrorView(error.value)
    else
      var body :=
        if isLoading then LoadingBody
        else if data.Some? && |data.value| > 0 then
          Cards(seq(|data.value|, i requires 0 <= i < |data.value| => CardFor(data.value[i], hasPermission)))
        else if searchQuery != "" || selectedFilter != Todos then EmptyBody(NoMatches)
        else EmptyBody(NoCases);
      ListScreen(hasPermission(WritePermission), body)
  }

  /** An error hides whatever the request had loaded, and loading hides any
      stale list. */
  lemma RenderPrecedence(error: Option<string>, isLoading: bool, d1: Option<seq<Expediente>>,
                         d2: Option<seq<Expediente>>, q: string, f: string, hasPermission: string -> bool)
    ensures error.Some? ==> Render(error, isLoading, d1, q, f, hasPermission) == Render(error, false, d2, q, f, hasPermission)
    ensures error.None? && isLoading ==> Render(error, isLoading, d1, q, f, hasPermission) == Render(error, isLoading, d2, q, f, hasPermission)
  {
  }

  /** Every card shows its own case file, and pressing it opens that case
      file's detail. */
  lemma CardsOpenTheirDetail(data: seq<Expediente>, q: string, f: string, hasPermission: string -> bool, i: nat)
    requires data != [] && i < |data|
    ensures var v := Render(None, false, Some(data), q, f, hasPermission);
            && v.ListScreen? && v.body.Cards?
            && HandleExpedientePress(v.body.cards[i].expediente) == Navigate(ExpedienteDetail, map["id" := data[i].id])
  {
  }

  /** The "Nuevo Expediente" button and the cards' "Editar" actions are
      shown together, and a shown button is never denied. */
  lemma VisibleControlsNeverDenied(data: seq<Expediente>, q: string, f: string, hasPermission: string -> bool)
    requires data != []
    ensures var v := Render(None, false, Some(data), q, f, hasPermission);
            && v.ListScreen? && v.body.Cards?
            && (forall c :: c in v.body.cards ==> c.editar == v.nuevoExpediente)
            && (v.nuevoExpediente ==> !IsDenial(HandleNuevoExpediente(hasPermission)))
  {
  }

  /** The five status filter buttons, in the order they are shown. */
  datatype FilterButton = TodosButton | AbiertoButton | EnTramiteButton | ResueltoButton | ArchivadoButton

  /** The value a filter button writes into `selectedFilter`. */
  function FilterValue(b: FilterButton): (v: string)
    ensures v == Todos <==> b == TodosButton
    ensures b == AbiertoButton ==> v == Abierto
    ensures b == EnTramiteButton ==> v == EnTramite
    ensures b == ResueltoButton ==> v == Resuelto
    ensures b == ArchivadoButton ==> v == Archivado
    ensures v == Todos || v in StatusCodes
  {
    match b
    case TodosButton => Todos
    case AbiertoButton => Abierto
    case EnTramiteButton => EnTramite
    case ResueltoButton => Resuelto
    case ArchivadoButton => Archivado
  }

  /** Pressing a filter button highlights that button alone, and the request
      then asks for that button's status, or for every status with "Todos". */
  lemma FilterButtonQuery(b: FilterButton, c: FilterButton, q: string)
    ensures FilterValue(c) == FilterValue(b) <==> c == b
    ensures QueryParams(q, FilterValue(b)).estado.None? <==> b == TodosButton
    ensures b != TodosButton ==> QueryParams(q, FilterValue(b)).estado.value in StatusCodes
  {
  }

  class ExpedientesListScreen {
    var searchQuery: string
    var selectedFilter: string
    var refreshing: bool

    constructor ()
      ensures searchQuery == "" && selectedFilter == Todos && !refreshing
    {
      searchQuery := "";
      selectedFilter := Todos;
      refreshing := false;
    }

    /** The parameters of the request for the current state. */
    function Params(): ListQuery
      reads this
    {
      QueryParams(searchQuery, selectedFilter)
    }

    method SetSearchQuery(q: string)
      modifies this`searchQuery
      ensures searchQuery == q && Params().search == q
    {
      searchQuery := q;
    }

    /** The clear button: empties the query. */
    method ClearSearch()
      modifies this`searchQuery
      ensures searchQuery == "" && !ClearButtonVisible(searchQuery)
    {
      searchQuery := "";
    }

    method PressFilter(b: FilterButton)
      modifies this`selectedFilter
      ensures selectedFilter == FilterValue(b)
      ensures Params().estado.None? <==> b == TodosButton
    {
      selectedFilter := FilterValue(b);
    }

    /** `onRefresh`: the indicator goes on while the request is repeated. */
    method OnRefresh()
      modifies this`refreshing
      ensures refreshing
    {
      refreshing := true;
    }

    /** The repeated request settles, successfully or not: the indicator goes
        off. */
    method RefreshSettled()
      modifies this`refreshing
      ensures !refreshing
    {
      refreshing := false;
    }
  }
}
