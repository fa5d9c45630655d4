# Home-automation client screens, modelled in Dafny

The client of this home-automation demo has four screens with logic worth
stating: the lights screen (`lucesCasa`), the doors screen (`puertasCasa`),
login and register. This project models them with the network replaced by
an abstract outcome of each request.

- `optimistic_toggle.dfy` (module `OptimisticToggle`): the toggle protocol
  both device items follow. A press captures the displayed value
  (`estadoPrevio`), displays its negation (`nuevoEstado`) and sends it. On
  success the switch is left alone and the parent is told. On failure the
  captured value is put back. The module also runs a device item as a
  sequence of events (presses, and answers arriving in any order) against the
  backend row. It proves that presses which never overlap a pending request
  keep display and backend in agreement. It also shows a concrete trace where
  overlapping presses leave the item at rest showing a value the backend
  never stored. This is the known race of the optimistic toggle, modelled as
  written.
- `collection.dfy` (module `Collection`): the device rows and the parent's
  update of `estado` by id (`handleToggleLuz`, `handleTogglePuerta`). It also
  holds the two halves of the collection fetch and the choice of what the
  content area shows: loading, error, the list, or the no-data text.
- `luces_casa.dfy`, `puertas_casa.dfy`: each item (`LuzItem`, `PuertaItem`)
  is a class whose field is the switch state. `toggleSwitch` is split at its
  `await` into `BeginToggle` and `Settle`; `ToggleSwitch` runs both. Each
  screen is a class whose fields are its three state hooks. The doors
  module adds the icon choice.
- `forms.dfy`, `login.dfy`, `register.dfy`: the login and register screens
  are classes over their fields and `loading` flag. Each handler is split at
  its `await` into `Submit` (blank-field check, `loading` on, the request)
  and `Complete` (the answer's effects, and `loading` off in `finally`).
  Alerts, the context's `login()` and navigation are recorded as a list of
  emitted effects.
- `js_text.dfy` (module `JsText`): the JavaScript behaviour the handlers
  depend on. This covers `trim()` over the ECMAScript white-space and
  line-terminator characters, the truthiness of a possibly missing string
  (`""` is falsy), the `a || b` fallback, and the decimal text of a status
  code.

Behaviour of the code worth noting:
- A failed fetch whose error message is `""`, or has no message, leaves
  `error` falsy. The content area then shows the list held before, or the
  no-data text, not an error (`Collection.FetchCycle`).
- A toggle whose response is ok is a success without reading the body, so a
  malformed body on an ok response does not revert.
- A toggle failure is only logged; nothing is shown to the user.
- The door icon is `'door'` while the switch is on and `'door-open'` while
  it is off.

## Model

| member | source | states |
|---|---|---|
| `OptimisticToggle.Begin` | client/src/screen/home/lucesCasa.jsx:18-19 | the value a press displays and sends always differs from the one it captures |
| `OptimisticToggle.Settle` | client/src/screen/home/lucesCasa.jsx:41-49 | once the request ends the switch shows either what it showed just before or the captured value: left alone on success, reverted to the captured value on failure |
| `OptimisticToggle.Notify` | client/src/screen/home/lucesCasa.jsx:41-43 | the parent is called with `(id, nuevoEstado)` exactly when the request succeeded and a callback was given |
| `OptimisticToggle.SingleToggleSettles` | client/src/screen/home/lucesCasa.jsx:17-53 | one toggle alone ends showing `!estadoPrevio` on success and `estadoPrevio` on failure |
| `OptimisticToggle.PressThenAnswer` | client/src/screen/home/puertasCasa.jsx:12-37 | from rest and in agreement with the backend, a press and its answer end at rest with display equal to backend: the new value on success, the old one on failure |
| `OptimisticToggle.SerializedKeepsAgreement` | client/src/screen/home/puertasCasa.jsx:12-37 | for every event sequence in which presses happen only with no request pending, display and backend agree at rest, and while a request is out the display shows the value sent |
| `OptimisticToggle.OverlappingPressesDiverge` | client/src/screen/home/lucesCasa.jsx:17-21 | because the second press captures the unconfirmed displayed value, two overlapping presses whose requests both fail leave the switch on while the backend holds off |
| `Collection.SetEstado` | client/src/screen/home/lucesCasa.jsx:119-123 | the updated list has the length of the old one |
| `Collection.SetEstadoAt` | client/src/screen/home/lucesCasa.jsx:119-123 | at every position, a row with the id becomes that row with only `estado` replaced, and any other row is unchanged |
| `Collection.SetEstadoFrame` | client/src/screen/home/puertasCasa.jsx:79-85 | length kept; rows with another id unchanged; rows with the id keep id, name and other fields and get the new `estado` |
| `Collection.SetEstadoAbsentId` | client/src/screen/home/lucesCasa.jsx:120-122 | an id that no row has leaves the list unchanged |
| `Collection.SetEstadoKeepsIds` | client/src/screen/home/puertasCasa.jsx:81-83 | the ids, in order, are those of the input |
| `Collection.SetEstadoLastWins` | client/src/screen/home/lucesCasa.jsx:115-124 | two updates of the same id equal the later one alone, so repeating an update is idempotent |
| `Collection.SetEstadoCommutes` | client/src/screen/home/puertasCasa.jsx:79-85 | updates of two different ids can be applied in either order |
| `Collection.FetchErrorMessage` | client/src/screen/home/puertasCasa.jsx:67-71 | a non-ok status stores exactly `Error HTTP: <status in decimal> - <statusText>`, which is never empty; a throw stores the thrown message, possibly missing |
| `Collection.BeginFetch` | client/src/screen/home/lucesCasa.jsx:88-89 | before the request loading is on and error is cleared, and the rows are kept |
| `Collection.EndFetch` | client/src/screen/home/lucesCasa.jsx:95-108 | loading is off afterwards; success stores the rows and leaves error alone; failure stores the message and leaves the rows alone |
| `Collection.Select` | client/src/screen/home/lucesCasa.jsx:132-148 | loading > error > non-empty list > no-data, each branch taken exactly when the earlier ones are not; the list branch renders every row in order |
| `Collection.FetchCycle` | client/src/screen/home/puertasCasa.jsx:62-106 | loading is shown during the request and never after it; success shows the rows or no-data; a non-ok status shows its error; a throw without a message shows the previous rows or no-data |
| `Collection.SilentFailureOnMount` | client/src/screen/home/lucesCasa.jsx:103-107 | on a freshly mounted screen, a throw without a message ends on the no-data text |
| `LucesCasa.RenderLuzItem` | client/src/screen/home/lucesCasa.jsx:9-11 | an item without data renders nothing; otherwise its card shows the name and the switch value |
| `LucesCasa.LuzItem.constructor` | client/src/screen/home/lucesCasa.jsx:14 | the switch starts from the row's `estado` |
| `LucesCasa.LuzItem.BeginToggle` | client/src/screen/home/lucesCasa.jsx:17-31 | captures the displayed value, displays its negation, and builds the PUT for this light's id carrying that negation |
| `LucesCasa.LuzItem.Settle` | client/src/screen/home/lucesCasa.jsx:33-52 | failure (non-ok or thrown) restores the captured value; success keeps the switch and notifies when a callback is given |
| `LucesCasa.LuzItem.ToggleSwitch` | client/src/screen/home/lucesCasa.jsx:17-53 | request carries `!estadoPrevio`; ends showing `!estadoPrevio` on success and `estadoPrevio` otherwise; notifies exactly on success with a callback |
| `LucesCasa.LucesScreen.constructor` | client/src/screen/home/lucesCasa.jsx:77-79 | mounts with no rows, loading on, no error |
| `LucesCasa.LucesScreen.StartFetch` | client/src/screen/home/lucesCasa.jsx:87-89 | sets loading on and clears error before the request |
| `LucesCasa.LucesScreen.FinishFetch` | client/src/screen/home/lucesCasa.jsx:95-108 | new state is `EndFetch` of the old state |
| `LucesCasa.LucesScreen.FetchLuces` | client/src/screen/home/lucesCasa.jsx:86-109 | new state is the whole fetch cycle applied to the old state |
| `LucesCasa.LucesScreen.HandleToggleLuz` | client/src/screen/home/lucesCasa.jsx:115-124 | rows become `SetEstado` of the old rows; loading and error are unchanged |
| `LucesCasa.ToggleAndSync` | client/src/screen/home/lucesCasa.jsx:41-43 | after a successful toggle reported to the screen, the item shows the negation of its old value, the rows become `SetEstado` of the old rows for the item's id and that value (every row with the id holds it, every other row is unchanged, the length is kept), and loading and error are unchanged |
| `LucesCasa.LucesScreen.Caption` | client/src/screen/home/lucesCasa.jsx:132-148 | the content area's text is the loading text while loading, else 'Error al cargar las luces: ' followed by a truthy error, else none while there are rows, else the no-data text |
| `PuertasCasa.DoorIcon` | client/src/screen/home/puertasCasa.jsx:42 | icon is `'door'` exactly when the switch is on and `'door-open'` exactly when it is off |
| `PuertasCasa.RenderPuertaItem` | client/src/screen/home/puertasCasa.jsx:8 | an item without data renders nothing; otherwise its card shows the icon for the switch value, the name and the switch value |
| `PuertasCasa.PuertaItem.constructor` | client/src/screen/home/puertasCasa.jsx:10 | the switch starts from the row's `estado` |
| `PuertasCasa.PuertaItem.BeginToggle` | client/src/screen/home/puertasCasa.jsx:12-22 | captures the displayed value, displays its negation, and builds the PUT for this door's id carrying that negation |
| `PuertasCasa.PuertaItem.Settle` | client/src/screen/home/puertasCasa.jsx:24-36 | failure (non-ok or thrown) restores the captured value; success keeps the switch and notifies when a callback is given |
| `PuertasCasa.PuertaItem.ToggleSwitch` | client/src/screen/home/puertasCasa.jsx:12-37 | request carries `!estadoPrevio`; ends showing `!estadoPrevio` on success and `estadoPrevio` otherwise; notifies exactly on success with a callback |
| `PuertasCasa.PuertasScreen.constructor` | client/src/screen/home/puertasCasa.jsx:56-58 | mounts with no rows, loading on, no error |
| `PuertasCasa.PuertasScreen.StartFetch` | client/src/screen/home/puertasCasa.jsx:64-65 | sets loading on and clears error before the request |
| `PuertasCasa.PuertasScreen.FinishFetch` | client/src/screen/home/puertasCasa.jsx:66-74 | new state is `EndFetch` of the old state |
| `PuertasCasa.PuertasScreen.FetchPuertas` | client/src/screen/home/puertasCasa.jsx:62-75 | new state is the whole fetch cycle applied to the old state |
| `PuertasCasa.PuertasScreen.HandleTogglePuerta` | client/src/screen/home/puertasCasa.jsx:79-85 | rows become `SetEstado` of the old rows; loading and error are unchanged |
| `PuertasCasa.ToggleAndSync` | client/src/screen/home/puertasCasa.jsx:29-31 | after a successful toggle reported to the screen, the item shows the negation of its old value, the rows become `SetEstado` of the old rows for the item's id and that value (every row with the id holds it, every other row is unchanged, the length is kept), and loading and error are unchanged |
| `PuertasCasa.PuertasScreen.Caption` | client/src/screen/home/puertasCasa.jsx:91-106 | the content area's text is the loading text while loading, else 'Error al cargar las puertas: ' followed by a truthy error, else none while there are rows, else the no-data text |
| `JsText.TrimStart` | client/src/screen/login/login.jsx:28 | result is a suffix of the input; what was removed is all white space; the result is empty or starts with a non-white character |
| `JsText.TrimEnd` | client/src/screen/login/register.jsx:29 | result is a prefix of the input; what was removed is all white space; the result is empty or ends with a non-white character |
| `JsText.TrimEmptyIffBlank` | client/src/screen/login/login.jsx:28 | `trim()` is empty exactly when every character is white space |
| `JsText.OrElse` | client/src/screen/login/login.jsx:64 | the JavaScript `or` fallback on strings gives `s` when it is present and non-empty, otherwise the fallback, and is never empty when the fallback is not |
| `JsText.NatToDecimal` | client/src/screen/home/lucesCasa.jsx:96 | the status is printed as a non-empty string of decimal digits with no leading zero |
| `JsText.DecimalRoundTrip` | client/src/screen/home/puertasCasa.jsx:67 | reading the printed status back gives the status |
| `Login.MissingFieldIffWhitespaceOnly` | client/src/screen/login/login.jsx:28-31 | the handler refuses exactly when the email or the password is white space only |
| `Login.LoginEffects` | client/src/screen/login/login.jsx:48-69 | an ok response gives exactly `login()` and then the 'Éxito' alert, and `login()` is called on no other answer; a non-ok response shows `data.message`, or 'Credenciales incorrectas. Intenta de nuevo.' when it is missing or empty; a throw shows the connection alert; every alert has text |
| `Login.LoginLabel` | client/src/screen/login/login.jsx:116 | the button reads 'Iniciando Sesión...' exactly while loading |
| `Login.LoginScreen.constructor` | client/src/screen/login/login.jsx:12-15 | fields empty, not loading |
| `Login.LoginScreen.ChangeEmail` | client/src/screen/login/login.jsx:84 | only the email changes |
| `Login.LoginScreen.ChangePassword` | client/src/screen/login/login.jsx:94 | only the password changes |
| `Login.LoginScreen.Submit` | client/src/screen/login/login.jsx:26-46 | a blank field gives the 'Campos Vacíos' alert, no request and `loading` untouched; otherwise the request carries the fields, `loading` is on and both buttons are disabled |
| `Login.LoginScreen.Complete` | client/src/screen/login/login.jsx:48-73 | `loading` is off on every path; an ok response clears email and password; any other answer leaves them; effects are `LoginEffects` |
| `Login.LoginScreen.HandLogin` | client/src/screen/login/login.jsx:26-74 | the whole handler: a blank field changes nothing but the alert; otherwise one request, the answer's effects, and `loading` off at the end |
| `Register.MissingFieldIffWhitespaceOnly` | client/src/screen/login/register.jsx:29-32 | the handler refuses exactly when the name, email or password is white space only |
| `Register.FailureMessage` | client/src/screen/login/register.jsx:67 | the message is `data.message`, else `data.body.resultado.info`, else 'No se pudo crear la cuenta.', each taken only when the earlier ones are missing or empty; never empty |
| `Register.Succeeded` | client/src/screen/login/register.jsx:57 | success holds exactly when the response is ok, `body.resultado` is present and `affectedRows` is at least 1 |
| `Register.Payload` | client/src/screen/login/register.jsx:43-50 | the request body has id 0, status 1, and the name, email and password of the fields, the password under `pw` |
| `Register.OkWithoutRowsFails` | client/src/screen/login/register.jsx:57 | an ok response with no `resultado` or with `affectedRows <= 0` is a failure and shows only the error alert |
| `Register.RegisterEffects` | client/src/screen/login/register.jsx:53-73 | success gives exactly the 'Registro Exitoso' alert and then the move to 'Login', and navigation happens on no other answer; a failure shows one error alert with the fallback message; a throw shows the connection alert |
| `Register.RegisterLabel` | client/src/screen/login/register.jsx:128 | the button reads 'Registrando...' exactly while loading |
| `Register.RegisterScreen.constructor` | client/src/screen/login/register.jsx:13-16 | fields empty, not loading |
| `Register.RegisterScreen.ChangeFields` | client/src/screen/login/register.jsx:86-106 | the fields take the typed text; `loading` is unchanged |
| `Register.RegisterScreen.Submit` | client/src/screen/login/register.jsx:27-51 | a blank field gives the 'Campos Vacíos' alert, no request and `loading` untouched; otherwise the request body is `{id: 0, nombre, pw: password, email, status: 1}`, `loading` is on and both buttons are disabled |
| `Register.RegisterScreen.Complete` | client/src/screen/login/register.jsx:53-77 | `loading` is off on every path; all three fields are cleared exactly on success; effects are `RegisterEffects` |
| `Register.RegisterScreen.HandRegister` | client/src/screen/login/register.jsx:27-78 | the whole handler: a blank field changes nothing but the alert; otherwise one request with the payload, the answer's effects, all three fields cleared exactly on success and kept otherwise, and `loading` off at the end |

## Left out

- The network is not modelled: `fetch`, URLs, headers and JSON parsing become abstract outcomes. A toggle's request keeps the resource, the device id and the `estado` it sends, not the URL or headers. A body that cannot be parsed counts as a thrown request.
- Asynchrony is not modelled as such: each handler is two sequential methods split at its `await`. Overlapping toggles appear only as event sequences in `OptimisticToggle`.
- OptimisticToggle.Step: in the trace model a request changes the backend when its answer arrives, in answer order. A request that throws is taken never to reach the backend.
- React hook scheduling, `useEffect` mount timing and the rule that hooks must not follow an early return are not modelled. An item keeps its own switch state and never re-reads the parent's row, which matches `useState` with an initial value.
- A fetched body that is not an array, or an array holding `null` rows, is not modelled. Rows are always device records.
- The parsed body of the login and register responses is taken to be an object. A body that is JSON `null` makes `data.message` or `data.body` throw, so the source shows the connection alert; `LoginReply.Answered` and `RegisterReply.Answered` do not represent that case.
- `affectedRows` is an integer; a non-numeric value (for which `> 0` is false) is not modelled.
- The error `message` of a failed toggle is logged only, so it is carried in the outcome but drives nothing. `console.log` and `console.error` are left out.
- Layout, styles, the fixed 'bell' icon of lights, and the navigation buttons (`rutas.push`) are left out.
- The server routers and controllers, and the login context's fetch wrappers, are not part of this model. The idempotence of the status-update endpoint is a backend property, so it is not stated here. The parent-side analogue is `Collection.SetEstadoLastWins`.
