# SPJT screens: navigation, forms and permission gates in Dafny

SPJT is the mobile front end of a judicial case-management system of the
Poder Judicial de Tucumán. This project models its decision logic and proves
properties of it. The modelled parts are:

- **Navigation** (`AppNavigation`). The root navigator shows a loading view while the session resolves. It then mounts either the sign-in stack or the signed-in stack: a drawer holding the tab bar, plus four stacked screens. The tab bar always has Home, Expedientes and Documentos. It adds Usuarios and Auditoria for the `admin` and `secretario` roles only.
- **The three form screens** (`NuevoExpediente`, `SubirDocumento`, `FirmarDocumento`). Each is a class holding `formData`, `errors` and `loading`, with its `validateForm`, `handleInputChange` and `handleSubmit` handlers.
  - Each `ValidateForm` rebuilds the error map by conditional insertion. It is proved equal to a per-screen `FormErrors` function, whose rules are stated field by field.
  - `HandleInputChange` changes one field. It blanks that field's error only if one was shown (`Forms.ClearError`).
  - `HandleSubmit` returns early, with `loading` untouched, when validation fails.
  - The form screens never consult a permission, so the model does not either.
- **User administration** (`Usuarios`):
  - the case-insensitive search on name or email, combined with the role filter;
  - role and status labels, and the `activo`/`inactivo` toggle;
  - the create, edit and toggle handlers and buttons guarded by `usuarios.write`;
  - the empty-state message;
  - the screen's search, filter and refresh state.
- **Case-file list** (`ExpedientesList`):
  - the request parameters (the `todos` filter sends no `estado`);
  - status labels;
  - the render precedence: error, then loading, then cards, then the empty view;
  - card navigation, and the create action and buttons guarded by `expedientes.write`;
  - the screen's search, filter and refresh state.

Supporting modules:

- `JsStrings` models the JavaScript string built-ins the rules rely on:
  - `trim`, with the exact ECMAScript white-space set;
  - `length`, counted in UTF-16 code units;
  - `toLowerCase`;
  - `includes`.
- `Forms` holds the `errors` object helpers.
- `Ui` holds optional values, route names, on-screen effects (navigation, notices, confirmations) and the search-box clear-button rule the two list screens share.
- `UserRoles` holds the four role codes.

`hasPermission` comes from an authentication hook that is not part of this model. It appears as a parameter `hasPermission: string -> bool` with no grant table. Every property about gating holds for every such predicate.

Unlike the two list screens, the three form screens (`src/screens/home/NuevoExpedienteScreen.js`, `src/screens/docs/SubirDocumentoScreen.js` and `src/screens/docs/FirmarDocumentoScreen.js`) obtain `hasPermission` from the authentication hook but never call it, so none of their submits is gated. The model follows the code.

Two behaviours of the code as written are stated as lemmas:

- **The upload form can never submit.** No handler sets `selectedFile`: `handleSelectFile` only raises a notice. So `validateForm` always reports the missing file, and `handleSubmit` always stops at validation. See `SubirDocumento.NoFileNeverValid` and `SubirDocumento.UploadScenario`.
- **The user-form routes are not registered.** The create and edit handlers of the user-administration screen navigate to `NuevoUsuario` and `EditarUsuario`. No navigator of the signed-in tree registers either route. See `Usuarios.UserFormsNotRegistered`. By contrast, `ExpedientesList.DetailRegistered` and `ExpedientesList.TargetsRegistered` show that both targets of the case-file list are registered.

## Model

| member | source | states |
|---|---|---|
| JsStrings.TrimStart | src/screens/home/NuevoExpedienteScreen.js:31 | The result is a suffix of the input. What was dropped is all white space, and a non-empty result starts with a non-white-space character. |
| JsStrings.TrimEnd | src/screens/home/NuevoExpedienteScreen.js:31 | The result is a prefix of the input. What was dropped is all white space, and a non-empty result ends with a non-white-space character. |
| JsStrings.TrimStartSkipsBlank | src/screens/home/NuevoExpedienteScreen.js:35 | Trimming the start of a blank prefix followed by `s` gives the same result as trimming the start of `s`. |
| JsStrings.Trim | src/screens/home/NuevoExpedienteScreen.js:31-43 | `trim()` yields the empty string exactly when the input is blank (`IsBlank`: every character is ECMAScript white space), so `IsBlank` is the `!x.trim()` test of the forms. Otherwise the result neither starts nor ends with white space. |
| JsStrings.JsLength | src/screens/home/NuevoExpedienteScreen.js:37 | `length` counts UTF-16 code units. A single character counts 2 exactly when it lies outside the Basic Multilingual Plane, and 1 otherwise. The count lies between the character count and twice it, and equals the character count when every character is in the Basic Multilingual Plane. |
| JsStrings.JsLengthConcat | src/screens/home/NuevoExpedienteScreen.js:37 | The `length` of a concatenation is the sum of the lengths. With the single-character rule this fixes the count of every string: one unit per BMP character, two per other character. |
| JsStrings.LowerChar | src/screens/admin/UsuariosScreen.js:209-210 | Each capital maps to its own small letter, 0x20 code points above it. The result is never a capital, and characters that are not capitals are kept. |
| JsStrings.Lower | src/screens/admin/UsuariosScreen.js:209-210 | `toLowerCase()` keeps the length and lowercases character by character. |
| JsStrings.LowerIdempotent | src/screens/admin/UsuariosScreen.js:209-210 | Lowercasing an already lowercased string changes nothing. |
| JsStrings.Includes | src/screens/admin/UsuariosScreen.js:209-210 | Every string includes the empty query, and a string includes only queries no longer than itself. |
| JsStrings.IncludesIffOccurs | src/screens/admin/UsuariosScreen.js:209-210 | `includes(q)` holds exactly when `q` occurs as a contiguous slice at some offset. |
| Ui.ClearButtonVisible | src/screens/admin/UsuariosScreen.js:241-245 | The clear button of a search box (the same rule on both list screens) is shown iff the query is not empty: `length > 0` holds exactly for the non-empty string. |
| Forms.ClearError | src/screens/home/NuevoExpedienteScreen.js:74-79 | The `errors` update of `handleInputChange` keeps the same keys and leaves the field's error not shown. Every other entry is unchanged, and nothing changes when no error was shown. |
| AppNavigation.TabNavigator | src/navigation/AppNavigator.js:73-135 | A tab navigator of leaf screens that starts with Home, Expedientes, Documentos. It has exactly those three plus Usuarios, Auditoria for `admin`/`secretario`, and exactly the three otherwise. |
| AppNavigation.AuthNavigator | src/navigation/AppNavigator.js:36-70 | The sign-in stack registers the leaf screens `Login`, `RecuperarPassword` and `CrearUsuario`, in that order, and opens on `Login`. |
| AppNavigation.DrawerNavigator | src/navigation/AppNavigator.js:138-152 | The drawer holds exactly one screen, `MainTabs`, whose component is the user's tab navigator, and it opens on the `Home` tab inside it. |
| AppNavigation.AppNavigator | src/navigation/AppNavigator.js:155-246 | The loading view exactly while `isLoading`. Otherwise a non-empty root stack. |
| AppNavigation.LoadingIgnoresUser | src/navigation/AppNavigator.js:159-165 | While loading, the same loading view is shown whatever the user. |
| AppNavigation.SignedOutTree | src/navigation/AppNavigator.js:36-246 | Signed out, the root stack's only screen is `Auth`, whose component is the sign-in stack. The sign-in stack is Login, RecuperarPassword, CrearUsuario, the app opens on Auth/Login, and only those four names are registered in the whole tree. |
| AppNavigation.SignedInTree | src/navigation/AppNavigator.js:196-238 | Signed in, the root stack registers Main, ExpedienteDetail, NuevoExpediente, SubirDocumento, FirmarDocumento in that order. `Main` holds the user's drawer, and the app opens on Main/MainTabs/Home. |
| AppNavigation.SignedInRegistered | src/navigation/AppNavigator.js:111-132 | Signed in, Usuarios and Auditoria are registered anywhere in the tree iff the role is administrative. Auth and Login never are. |
| AppNavigation.TabsRegistered | src/navigation/AppNavigator.js:83-132 | The tab navigator registers the three base tabs, plus the two administration tabs exactly for administrative roles. |
| AppNavigation.SignedInRegisteredParts | src/navigation/AppNavigator.js:138-238 | The signed-in tree registers Main, MainTabs, the tabs and the four stacked screens, and nothing else. |
| AppNavigation.DrawerRegistered | src/navigation/AppNavigator.js:138-152 | The drawer registers MainTabs and, through it, exactly the tabs. |
| AppNavigation.StackedRegistered | src/navigation/AppNavigator.js:199-237 | The root stack's screens after Main are exactly the leaf screens ExpedienteDetail, NuevoExpediente, SubirDocumento and FirmarDocumento, in that order, and they register exactly those four names. |
| AppNavigation.RootDependsOnlyOnPresence | src/navigation/AppNavigator.js:155-246 | Sessions that agree on `isLoading` and on whether a user is present get the same root screen list. |
| AppNavigation.UnknownRoleFailsClosed | src/navigation/AppNavigator.js:111-132 | A missing role, or any role other than `admin`/`secretario`, gets exactly the three base tabs. |
| NuevoExpediente.Form.Set | src/screens/home/NuevoExpedienteScreen.js:75 | Setting a field changes that field to the value and no other field. |
| NuevoExpediente.FormErrors | src/screens/home/NuevoExpedienteScreen.js:28-47 | The rules, field by field. `nro` and `fuero` fail iff blank. `caratula` fails iff blank or shorter than 10 code units, with "requerida" when blank and "al menos 10" otherwise. `institucion_id` never fails, and every entry carries a message. |
| NuevoExpediente.InstitucionNeverValidated | src/screens/home/NuevoExpedienteScreen.js:20-47 | Editing `institucion_id` never changes the error map. |
| NuevoExpediente.InitialFormErrors | src/screens/home/NuevoExpedienteScreen.js:20-47 | The empty form fails with exactly the `nro`, "requerida" `caratula` and `fuero` errors. |
| NuevoExpediente.PaddedCaptionPasses | src/screens/home/NuevoExpedienteScreen.js:35-39 | The length rule counts untrimmed code units. A non-blank caption behind blank padding trims to the same text as the caption alone, yet passes once padding and caption together reach ten units, however short the caption is. |
| NuevoExpediente.NuevoExpedienteScreen.constructor | src/screens/home/NuevoExpedienteScreen.js:19-26 | Empty form, no errors, not loading. |
| NuevoExpediente.NuevoExpedienteScreen.ValidateForm | src/screens/home/NuevoExpedienteScreen.js:28-47 | Replaces `errors` by the rule map of the current form, and returns true iff that map is empty. |
| NuevoExpediente.NuevoExpedienteScreen.HandleSubmit | src/screens/home/NuevoExpedienteScreen.js:49-72 | Validates. It stops with `loading` unchanged when there are errors, and otherwise reports "Expediente creado correctamente" with `loading` ending false. |
| NuevoExpediente.NuevoExpedienteScreen.HandleInputChange | src/screens/home/NuevoExpedienteScreen.js:74-79 | Sets only the named field, and clears only that field's error when one was shown. |
| SubirDocumento.Form.Set | src/screens/docs/SubirDocumentoScreen.js:80 | Setting a field changes that field to the value and no other field. |
| SubirDocumento.InitialForm | src/screens/docs/SubirDocumentoScreen.js:18-27 | Empty fields, except the case file, which is the route's `expedienteId` or `''`. |
| SubirDocumento.FormErrors | src/screens/docs/SubirDocumentoScreen.js:30-47 | `nombre` fails iff blank, `file` iff no file is picked, and `expediente_id` iff blank. `descripcion` and `tipo` never fail. |
| SubirDocumento.NoFileNeverValid | src/screens/docs/SubirDocumentoScreen.js:37-39 | Without a file the error map is never empty and holds "Debe seleccionar un archivo". |
| SubirDocumento.InitialCaseFileRule | src/screens/docs/SubirDocumentoScreen.js:18-43 | Opened without a case file, the form reports `nombre`, `file` and `expediente_id`. Opened with a non-blank one, it reports only `nombre` and `file`. |
| SubirDocumento.FileErrorSurvivesEdits | src/screens/docs/SubirDocumentoScreen.js:79-84 | No field edit clears the `file` error. |
| SubirDocumento.SubirDocumentoScreen.constructor | src/screens/docs/SubirDocumentoScreen.js:17-28 | Initial form from the route, no file, no errors, not loading. |
| SubirDocumento.SubirDocumentoScreen.ValidateForm | src/screens/docs/SubirDocumentoScreen.js:30-47 | Replaces `errors` by the rule map of the form and file, and returns true iff it is empty. |
| SubirDocumento.SubirDocumentoScreen.HandleSelectFile | src/screens/docs/SubirDocumentoScreen.js:49-52 | Only raises the "Seleccionar Archivo" notice. It changes no state. |
| SubirDocumento.SubirDocumentoScreen.HandleSubmit | src/screens/docs/SubirDocumentoScreen.js:54-77 | Validates and stops, with `loading` unchanged, on errors; it always stops while no file is picked. Otherwise it reports "Documento subido correctamente" with `loading` ending false. |
| SubirDocumento.SubirDocumentoScreen.HandleInputChange | src/screens/docs/SubirDocumentoScreen.js:79-84 | Sets only the named field, and clears only that field's error when one was shown. |
| SubirDocumento.UploadScenario | src/screens/docs/SubirDocumentoScreen.js:21-77 | A freshly opened screen fails to submit whatever the user picks or types. |
| FirmarDocumento.Form.Set | src/screens/docs/FirmarDocumentoScreen.js:69 | Setting a field changes that field to the value and no other field. |
| FirmarDocumento.OptionValue | src/screens/docs/FirmarDocumentoScreen.js:144-169 | The demo card writes `demo`, the token card `token` and the HSM card `hsm`; none writes the empty string. |
| FirmarDocumento.FormErrors | src/screens/docs/FirmarDocumentoScreen.js:28-41 | `tipo_firma` fails iff empty, and `pin` iff the type is `token` and the PIN is blank. `comentario` never fails. |
| FirmarDocumento.InitialFormValid | src/screens/docs/FirmarDocumentoScreen.js:21-41 | The opening form (`demo`, no PIN) has no errors. Demo is selected and the PIN input is hidden. |
| FirmarDocumento.OnlyTokenNeedsPin | src/screens/docs/FirmarDocumentoScreen.js:35-37 | After choosing demo or HSM the form is valid, whatever the PIN and comment. |
| FirmarDocumento.PinErrorOnlyWhenVisible | src/screens/docs/FirmarDocumentoScreen.js:173-185 | A PIN error is only reported while the PIN input is shown. |
| FirmarDocumento.ExactlyOneSelected | src/screens/docs/FirmarDocumentoScreen.js:144-169 | After pressing an option, exactly that option is highlighted. |
| FirmarDocumento.SwitchingKeepsPin | src/screens/docs/FirmarDocumentoScreen.js:144-185 | Choosing a type keeps the typed PIN. The PIN input is shown iff the chosen type is token. |
| FirmarDocumento.CommentNeverValidated | src/screens/docs/FirmarDocumentoScreen.js:28-41 | Editing the comment never changes the error map. |
| FirmarDocumento.FirmarDocumentoScreen.constructor | src/screens/docs/FirmarDocumentoScreen.js:20-26 | Demo signature, no PIN, no comment, no errors, not loading. |
| FirmarDocumento.FirmarDocumentoScreen.ValidateForm | src/screens/docs/FirmarDocumentoScreen.js:28-41 | Replaces `errors` by the rule map, and returns true iff it is empty. |
| FirmarDocumento.FirmarDocumentoScreen.HandleSubmit | src/screens/docs/FirmarDocumentoScreen.js:43-66 | Validates and stops, with `loading` unchanged, on errors. Otherwise it reports "Documento firmado correctamente" with `loading` ending false. |
| FirmarDocumento.FirmarDocumentoScreen.HandleInputChange | src/screens/docs/FirmarDocumentoScreen.js:68-73 | Sets only the named field, and clears only that field's error when one was shown. |
| FirmarDocumento.FirmarDocumentoScreen.SelectOption | src/screens/docs/FirmarDocumentoScreen.js:144-169 | Pressing an option card sets `tipo_firma` to its value through `handleInputChange`. |
| FirmarDocumento.TokenScenario | src/screens/docs/FirmarDocumentoScreen.js:28-73 | Choosing token and submitting without a PIN fails. Typing a non-blank PIN and submitting again succeeds. |
| Usuarios.FilterUsuarios | src/screens/admin/UsuariosScreen.js:208-213 | The shown list is an order-preserving subsequence of the users. Every shown user passes the search and the role filter, and every user that passes both is shown. Each user appears exactly as many times as in the input when it passes, and not at all otherwise. |
| Usuarios.MatchesSearch | src/screens/admin/UsuariosScreen.js:209-210 | The empty query matches every user, and a matching query is no longer than the name or the email it was found in. |
| Usuarios.MatchesFilter | src/screens/admin/UsuariosScreen.js:211 | The `todos` filter matches every user. Any other filter matches exactly the users whose role equals it. |
| Usuarios.KeepAllWhenUnfiltered | src/screens/admin/UsuariosScreen.js:208-213 | An empty query with `todos` shows every user, in order. |
| Usuarios.FilterIdempotent | src/screens/admin/UsuariosScreen.js:208-213 | Filtering the shown list again changes nothing. |
| Usuarios.SearchIgnoresQueryCase | src/screens/admin/UsuariosScreen.js:209-210 | A query and its lowercase form find the same users. |
| Usuarios.NarrowingQueryKeepsUser | src/screens/admin/UsuariosScreen.js:209-210 | A user found by a query is found by every slice of it. |
| Usuarios.RoleFilterOnlyThatRole | src/screens/admin/UsuariosScreen.js:211 | With a role filter set, every shown user has that role. |
| Usuarios.RoleDisplayName | src/screens/admin/UsuariosScreen.js:106-114 | `admin` is shown as Administrador, `juez` as Juez, `secretario` as Secretario and `operador` as Operador. Any other value is shown unchanged. |
| Usuarios.RoleDisplayNamesDistinct | src/screens/admin/UsuariosScreen.js:106-114 | Distinct roles get distinct display names. |
| Usuarios.NextStatus | src/screens/admin/UsuariosScreen.js:89 | The toggle yields `activo` or `inactivo`, and `inactivo` exactly for an active user. |
| Usuarios.NextStatusInvolution | src/screens/admin/UsuariosScreen.js:89 | Toggling twice restores `activo` and `inactivo`. |
| Usuarios.StatusLabel | src/screens/admin/UsuariosScreen.js:154 | "Activo" exactly for an active user, and "Inactivo" for every other value. |
| Usuarios.ToggleOffersOtherStatus | src/screens/admin/UsuariosScreen.js:87-154 | The toggle always offers the status the card does not show. |
| Usuarios.HandleNuevoUsuario | src/screens/admin/UsuariosScreen.js:71-77 | Raises the "Acceso Denegado" notice exactly when `usuarios.write` is missing. Otherwise it opens `NuevoUsuario` with no parameters. |
| Usuarios.HandleEditarUsuario | src/screens/admin/UsuariosScreen.js:79-85 | Raises the "Acceso Denegado" notice exactly when `usuarios.write` is missing. Otherwise it opens `EditarUsuario` with the single parameter `usuarioId`, equal to this user's id. |
| Usuarios.HandleCambiarEstado | src/screens/admin/UsuariosScreen.js:87-104 | Raises the "Acceso Denegado" notice exactly when `usuarios.write` is missing. Otherwise it asks the confirmation question for this user, and confirming raises the success notice, which is not a denial. |
| Usuarios.HandlersGated | src/screens/admin/UsuariosScreen.js:71-104 | With `usuarios.write`, create and edit navigate (edit with this user's id) and the toggle asks for confirmation. Without it, each raises its own "Acceso Denegado" notice and nothing else. |
| Usuarios.ConfirmMatchesToggle | src/screens/admin/UsuariosScreen.js:89-98 | The question and the success notice name the same action: "desactivar"/"desactivado" for an active user, "activar"/"activado" otherwise. |
| Usuarios.UserFormsNotRegistered | src/screens/admin/UsuariosScreen.js:71-85 | The routes the create and edit handlers open are registered by no navigator of the signed-in tree. |
| Usuarios.UserRoutesUnregistered | src/navigation/AppNavigator.js:196-238 | Signed in, no navigator of the tree registers `NuevoUsuario` or `EditarUsuario`. |
| Usuarios.RenderedControls | src/screens/admin/UsuariosScreen.js:181-291 | The "Nuevo Usuario" button and each card's edit and toggle buttons are shown iff `usuarios.write`. |
| Usuarios.VisibleControlsNeverDenied | src/screens/admin/UsuariosScreen.js:181-291 | A button that is shown never leads to the denial notice. |
| Usuarios.RenderList | src/screens/admin/UsuariosScreen.js:301-316 | Cards exactly when the filtered list is non-empty, and they are that list. The empty state says "filters applied" iff the query is non-empty or the filter is not `todos`. |
| Usuarios.UnfilteredList | src/screens/admin/UsuariosScreen.js:301-316 | With no filter set, every user is shown, or the "no users registered" message appears. |
| Usuarios.FilterValue | src/screens/admin/UsuariosScreen.js:252-281 | "Todos" writes `todos`, and it is the only button that does. "Administradores" writes `admin`, "Jueces" `juez`, "Secretarios" `secretario` and "Operadores" `operador`. |
| Usuarios.ExactlyOneFilterSelected | src/screens/admin/UsuariosScreen.js:252-281 | After pressing a filter button, exactly that button is highlighted. |
| Usuarios.UsuariosScreen.constructor | src/screens/admin/UsuariosScreen.js:21-23 | Empty query, filter `todos`, not refreshing. |
| Usuarios.UsuariosScreen.SetSearchQuery | src/screens/admin/UsuariosScreen.js:238 | The query becomes the typed text. |
| Usuarios.UsuariosScreen.ClearSearch | src/screens/admin/UsuariosScreen.js:242 | The query becomes empty and the clear button disappears. |
| Usuarios.UsuariosScreen.PressFilter | src/screens/admin/UsuariosScreen.js:252-281 | The filter becomes the button's value. |
| Usuarios.UsuariosScreen.OnRefresh | src/screens/admin/UsuariosScreen.js:65-69 | The refresh indicator goes on. |
| Usuarios.UsuariosScreen.RefreshTimerFired | src/screens/admin/UsuariosScreen.js:68 | The refresh indicator goes off. |
| Usuarios.UsuariosScreen.ResetFilters | src/screens/admin/UsuariosScreen.js:242-256 | Clearing the query and choosing "Todos" shows the whole list again. |
| ExpedientesList.QueryParams | src/screens/home/ExpedientesListScreen.js:27-34 | `search` is the query. `estado` is absent iff the filter is `todos`, and is the filter otherwise. |
| ExpedientesList.QueryParamsInjective | src/screens/home/ExpedientesListScreen.js:27-32 | Distinct search/filter states send distinct requests. |
| ExpedientesList.StatusText | src/screens/home/ExpedientesListScreen.js:63-71 | `abierto` is shown as Abierto, `en_tramite` as En Trámite, `resuelto` as Resuelto and `archivado` as Archivado. Any other code is shown unchanged. |
| ExpedientesList.StatusTextsDistinct | src/screens/home/ExpedientesListScreen.js:63-71 | Distinct codes get distinct labels, and no label equals its code. |
| ExpedientesList.HandleExpedientePress | src/screens/home/ExpedientesListScreen.js:41-43 | Navigates to ExpedienteDetail with the single parameter `id`, equal to the case file's id. |
| ExpedientesList.DetailRegistered | src/screens/home/ExpedientesListScreen.js:41-43 | Whatever the capabilities, a card press's target is registered in the signed-in tree. |
| ExpedientesList.HandleNuevoExpediente | src/screens/home/ExpedientesListScreen.js:45-51 | Raises the "Acceso Denegado" notice exactly when `expedientes.write` is missing. Otherwise it opens `NuevoExpediente` with no parameters. |
| ExpedientesList.NuevoExpedienteGated | src/screens/home/ExpedientesListScreen.js:45-51 | Navigates to NuevoExpediente with `expedientes.write`. Otherwise it raises its "Acceso Denegado" notice and nothing else. |
| ExpedientesList.TargetsRegistered | src/screens/home/ExpedientesListScreen.js:45-51 | With `expedientes.write`, the create action's target is registered in the signed-in tree. |
| ExpedientesList.Render | src/screens/home/ExpedientesListScreen.js:135-254 | Error view iff there is an error. Otherwise it is the loading view iff loading, cards iff not loading and the data is non-empty (one per case file, in order, with its label and the "Editar" action iff `expedientes.write`), and else the empty view, whose message blames the filters iff any is set. The "Nuevo Expediente" button is shown iff `expedientes.write`. |
| ExpedientesList.RenderPrecedence | src/screens/home/ExpedientesListScreen.js:135-254 | An error hides loading state and data, and loading hides any data. |
| ExpedientesList.CardsOpenTheirDetail | src/screens/home/ExpedientesListScreen.js:84-133 | The i-th card shows the i-th case file, and pressing it opens that case file's detail. |
| ExpedientesList.VisibleControlsNeverDenied | src/screens/home/ExpedientesListScreen.js:119-224 | The "Editar" actions appear together with the "Nuevo Expediente" button, and a shown button is never denied. |
| ExpedientesList.FilterValue | src/screens/home/ExpedientesListScreen.js:185-214 | "Todos" writes `todos`, and it is the only button that does. "Abiertos" writes `abierto`, "En Trámite" `en_tramite`, "Resueltos" `resuelto` and "Archivados" `archivado`. |
| ExpedientesList.FilterButtonQuery | src/screens/home/ExpedientesListScreen.js:185-214 | Exactly the pressed button is highlighted. The request asks for every status iff it was "Todos", and otherwise for that button's status code. |
| ExpedientesList.ExpedientesListScreen.constructor | src/screens/home/ExpedientesListScreen.js:22-24 | Empty query, filter `todos`, not refreshing. |
| ExpedientesList.ExpedientesListScreen.SetSearchQuery | src/screens/home/ExpedientesListScreen.js:171 | The query becomes the typed text and is sent as `search`. |
| ExpedientesList.ExpedientesListScreen.ClearSearch | src/screens/home/ExpedientesListScreen.js:175 | The query becomes empty and the clear button disappears. |
| ExpedientesList.ExpedientesListScreen.PressFilter | src/screens/home/ExpedientesListScreen.js:185-214 | The filter becomes the button's value, and the request drops `estado` iff it is "Todos". |
| ExpedientesList.ExpedientesListScreen.OnRefresh | src/screens/home/ExpedientesListScreen.js:36-39 | The refresh indicator goes on. |
| ExpedientesList.ExpedientesListScreen.RefreshSettled | src/screens/home/ExpedientesListScreen.js:38 | The refresh indicator goes off once the repeated request settles. |

## Left out

- JsStrings.LowerChar: lowercases only ASCII and Latin-1 capitals (U+00C0 to U+00DE except U+00D7). Other scripts, and multi-character or locale-dependent mappings, are kept as they are, so the search is case-insensitive only for those letters.
- The `catch` branches of the three `handleSubmit`s are not modelled. Their `try` bodies only raise an alert, so the model treats them as never throwing.
- React state updates are asynchronous and batched. The model applies each `setErrors`/`setFormData`/`setLoading` at once, in program order.
- Alerts are modelled as `Effect` values (notice, or confirmation followed by an effect). The "OK" button's `navigation.goBack()` on the success alerts, and the Cancel/back buttons, are not modelled.
- The authentication hook (`useAuth`, `hasPermission`, session resolution) is not part of this model. `hasPermission` is a parameter, and the session is a value.
- `src/types` is not part of this model. The role codes are the literals the user screen compares against.
- The API modules `src/api/documentos.api.js` and `src/api/expedientes.api.js` are left out: they are HTTP wrappers over a client that is not shown.
- Request state comes from a query library that is not modelled. The request's `error`, `isLoading` and `data` are parameters of `ExpedientesList.Render`. Caching, `staleTime`, `refetch` and the error view's retry button are not modelled.
- The one-second refresh timer of the user screen is modelled only as the separate `RefreshTimerFired` step.
- The user list is fixed data in the app. It is a constructor parameter of `Usuarios.UsuariosScreen` and has no behaviour of its own.
- The "Ver" and "Editar" buttons of a case-file card have no press handler. Only their presence is modelled.
- Dates (`ultimo_acceso`, `created_at` and their locale formatting) and the floating-point MB size of a picked file are left out.
- Layout, styles, colours, icons, images, navigation animations, lazy loading and the tab options (titles and icons) are left out.
- SubirDocumento.InitialForm: takes the route's `expedienteId` as an optional string. A non-string id, on which `trim()` would fail, is not modelled.
