/** Values shared by the screens: optional values (`null`/`undefined` in the
    app) and what a press handler does on screen. */
module Ui {
  import JsStrings

  datatype Option<+T> = None | Some(value: T)

  /** The route names the app's navigators register or navigate to, spelled
      as in the source. */
  datatype Route =
    | Auth | Login | RecuperarPassword | CrearUsuario
    | Main | MainTabs | Home | Expedientes | Documentos | Usuarios | Auditoria
    | ExpedienteDetail | NuevoExpediente | SubirDocumento | FirmarDocumento
    | NuevoUsuario | EditarUsuario

  /** The visible outcome of a handler: a `navigation.navigate` call with its
      route parameters, an `Alert.alert` notice, or an alert whose confirm
      button leads to a further effect. */
  datatype Effect =
    | Navigate(route: Route, params: map<string, int>)
    | Notice(title: string, message: string)
    | Confirm(title: string, message: string, onConfirm: Effect)

  /** Title of the notice every permission-gated handler raises when denied. */
  const AccessDenied := "Acceso Denegado"

  predicate IsDenial(e: Effect) {
    e.Notice? && e.title == AccessDenied
  }

  /** The clear button of a list screen's search box is shown while the
      query is not empty (`searchQuery.length > 0`). */
  function ClearButtonVisible(searchQuery: string): (visible: bool)
    ensures visible <==> searchQuery != ""
  {
    JsStrings.JsLength(searchQuery) > 0
  }
}
