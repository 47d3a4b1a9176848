# IVSS_APP client logic in Dafny

IVSS_APP ("Intelligent Vehicle Security System") is a React Native client.
This project models the decision logic of six of its screens:

- **Registro**: user registration.
- **Perfil**: the profile, whose avatar shows initials, and the add-vehicle modal.
- **Arco**: the ARCO data-rights requests screen, in `Pantalla.js`.
- **Login**.
- **Notificacion**: the notification list.
- **Registrocarro**: vehicle registration.

Each screen's handler is modelled as a method. It takes the current form state, the AsyncStorage contents and the backend's reply. It returns the request it issues, its outcome and the storage afterwards. The component state it updates is the fields of a class.

Module `Js` models the few JavaScript rules the handlers depend on:

- JSON values. Objects are ordered key lists.
- Property access, which throws on `null` and `undefined`, and optional chaining.
- Truthiness and `||`.
- `JSON.stringify`.
- AsyncStorage, as a map from keys to stored items.
- A `fetch` reply: either unreachable, or a status with a body that `res.json()` parses or fails to parse.

Module `Text` models the string operations the screens use: `trim` over JavaScript's white-space set, `toUpperCase`, `split` on one character, `substring(0, 1)` and `String(n)`.

Some behaviour of the code worth knowing before reading the model:

- No engine lock/unlock gate is modelled. The Motor screen's text asks for the password when the engine is switched off or back on (`components/Motor.js:34-36`), but its "Apagar Motor" button has no handler (`components/Motor.js:51`).
- `crearSolicitud` does not empty the request list on an invalid session or on a failed reply. Only `fetchSolicitudes` does (compare `Pantalla.js:77,84` with `Pantalla.js:124-137`).
- In `handleNext`, a non-ok reply whose body does not parse or is `null` does not reject the registration. `res.json()` rejects, or `body.error` throws. Either way the inner `catch` runs, which saves the record locally and marks the form saved (`Registro.js:109-116,137-147`).
- AsyncStorage holds text. The model keeps text written directly apart from JSON text written by `JSON.stringify`. Only the latter is parsed back, identically. Parsing any other text is modelled as failing.

Module `Flows` relates the screens to each other:

- The record Registro saves is what Perfil loads.
- Its offline record pre-fills Login's username.
- An offline vehicle added in Perfil joins that record.

## Model

| member | source | states |
|---|---|---|
| Js.Lookup | components/Perfil.js:81 | A key is found exactly when some field has it |
| Js.LookupHit | components/Perfil.js:49 | Property access returns the first field with the key |
| Js.Assign | components/Perfil.js:153 | After `o[k] = v`, `k` reads `v` and every other key reads as before |
| Js.Prop | components/Perfil.js:81 | `v.k` throws exactly on `null` and `undefined` |
| Js.OptProp | components/Pantalla.js:71 | `v?.k` agrees with `v.k` where that does not throw, and is `undefined` where it does |
| Js.Or | components/Login.js:61 | `a` or-else `b` is one of its operands, and truthy exactly when either is. A truthy `a` is chosen; otherwise `b` is |
| Js.Truthy | components/Login.js:66 | A truthy value is present and not `null`, and every array and object is truthy, the empty ones included |
| Js.OrText | components/Registro.js:85 | A string or-else a fallback is one of the two. It is empty exactly when both are, and a non-empty string is kept |
| Js.Stringify | components/Registro.js:119 | `JSON.stringify` text is never empty, so a stored record reads as present |
| Js.GetItem | components/Pantalla.js:44 | `getItem` is null exactly for a missing key, and returns stored text as written |
| Text.TrimStart | components/Perfil.js:93 | The result is a suffix that starts with no white space; everything dropped is white space |
| Text.TrimEnd | components/Perfil.js:93 | The result is a prefix that ends with no white space; everything dropped is white space |
| Text.Trim | components/Perfil.js:93 | `trim` neither starts nor ends with white space. It is empty exactly when the input is all white space, and it keeps an already-trimmed string |
| Text.TrimIsSlice | components/Perfil.js:93 | `trim` returns a contiguous slice of its input |
| Text.PrefixOfSuffix | components/Perfil.js:93 | A prefix of a suffix is a slice, the step `TrimIsSlice` uses |
| Text.TrimEmpty | components/Pantalla.js:103 | `!s.trim()` holds exactly when `s` is all white space |
| Text.UpperChar | components/Perfil.js:108 | A character upper-cases to one character, or to two exactly for ß |
| Text.Upper | components/Perfil.js:108 | `toUpperCase` never shortens a string |
| Text.UpperAppend | components/Perfil.js:96 | Upper-casing distributes over concatenation |
| Text.UpperCharFixed | components/Perfil.js:96 | An upper-cased character is a fixed point of upper-casing |
| Text.UpperIdempotent | components/Perfil.js:96 | `toUpperCase` applied twice equals applying it once |
| Text.UpperKeepsLength | components/Perfil.js:108 | Without ß, upper-casing keeps the length |
| Text.Head1 | components/Perfil.js:95 | `substring(0, 1)` is the first character, or empty |
| Text.Split | components/Perfil.js:93 | `split` gives at least one part, and no part holds the separator |
| Text.SplitJoin | components/Perfil.js:93 | Joining the parts with the separator gives the input back |
| Text.FirstIndex | components/Registro.js:80 | The first occurrence of a character, or the length when there is none |
| Text.SplitFront | components/Perfil.js:93 | The first part runs up to the first separator. There is a second part exactly when the separator occurs, and it continues after that occurrence |
| Text.Before | components/Registro.js:80 | `s.split('@')[0]` is the longest prefix without the separator |
| Text.Decimal | components/Notificacion.js:18 | `String(n)` is a non-empty string of digits |
| Text.DecimalRoundTrip | components/Notificacion.js:18 | Reading `String(n)` back gives `n` |
| Text.DecimalInjective | components/Notificacion.js:18 | Different counter values give different ids |
| Registro.AlnumToEndMeaning | components/Registro.js:28 | `[A-Za-z0-9]+$` matches exactly a non-empty all-alphanumeric string |
| Registro.DotsToEndMeaning | components/Registro.js:28 | On alphanumeric text, `.{8,}$` matches exactly when there are at least 8 characters |
| Registro.DotsThenMeaning | components/Registro.js:28 | On alphanumeric text, `.*[A-Z]` and `.*\d` match exactly when such a character occurs |
| Registro.PasswordRegexMeaning | components/Registro.js:27-28 | The regex accepts a password exactly when it has at least 8 characters, an `A-Z`, a digit and only `[A-Za-z0-9]` |
| Registro.RegexTest | components/Registro.js:28 | A password the regex accepts is non-empty and all alphanumeric |
| Registro.PasswordErrorFor | components/Registro.js:29-35 | No error for an empty or valid password; the fixed message for an invalid one |
| Registro.VehicleJson | components/Registro.js:89-96 | The vehicle object's four keys read back `marca`, `modelo`, `placas` and `VIN` |
| Registro.UsuarioJsonFields | components/Registro.js:74-97 | Each key of `usuarioData` reads back its field. `correo` and `telefono` are one-element lists and `numero_vehiculos` is 1. A `vehiculo` key holds the vehicle exactly when one is included |
| Registro.UsuarioJsonName | components/Registro.js:75-79 | `nombre_usuario` reads back the given name and both surnames |
| Registro.SubmittedStores | components/Registro.js:109-147 | A registration is rejected exactly by a parsed, non-null, non-ok answer, and then nothing is written. Otherwise `registro_usuario` holds the JSON text of `usuarioData`. No other item changes |
| Registro.LoginRecord | components/Registro.js:124-127 | The record handed to Login reads back the `usuario` and `vehiculo` it was built from |
| Registro.Form.constructor | components/Registro.js:14-45 | Every field starts empty or false, and the password invariant holds |
| Registro.Form.OnPasswordChange | components/Registro.js:25-36 | Stores the text and its error, and keeps the invariant that the shown error is the one computed for the password |
| Registro.Form.Username | components/Registro.js:80 | The username is `usuario`, or the part of `correo` before its first `@` |
| Registro.Form.PayloadSent | components/Registro.js:74-97 | The JSON sent carries the username, and the typed password or the generated one when none was typed. It carries one-element `correo` and `telefono` lists, `entidad` and `municipio`, and a `vehiculo` with the typed plates and VIN exactly when one is included |
| Registro.Form.GateOutcome | components/Registro.js:51-72 | A saved form goes to Registrocarro. Otherwise the missing-personal, missing-vehicle and invalid-password stops apply in order. Under the invariant, the password stop, which alerts the shown error, fires exactly for a non-empty password that breaks the rule |
| Registro.Form.HandleNext | components/Registro.js:47-153 | No request exactly when a gate stops. Otherwise POST the payload, and the reply decides the outcome and the record stored. `saved` becomes true exactly when the reply is not a parsed non-ok rejection |
| Registro.Form.Submit | components/Registro.js:99-147 | Rejection by a parsed non-ok reply writes nothing. Success and every failure to reach or read the backend write `registro_usuario` and set `saved` |
| Login.Prefill | components/Login.js:28-39 | A falsy `reg` keeps the username. Otherwise the username becomes `reg.usuario` when that is a non-empty string, else `reg.usuario.usuario` when that is a non-empty string, else the first element of a non-empty `reg.usuario.correo` array when it is truthy. When the chosen value is falsy, the username is kept |
| Login.Screen.constructor | components/Login.js:21-24 | The fields start empty and not loading |
| Login.Screen.ApplyPrefill | components/Login.js:28-39 | The effect sets the username to the pre-fill of the record |
| Login.Screen.HandleLogin | components/Login.js:41-88 | No request exactly when a field is empty. The login fails exactly on a parsed, non-null, non-ok answer; it alerts `error` or the fallback and writes nothing. It succeeds exactly on an ok, non-null answer whose truthy token is a string and whose name is a string. Then `usuario` holds `data.usuario`, or the typed name when that is falsy, and a truthy token is written. No other item changes. Every other request ends in the `catch`, where every item but the token is as before |
| Notificacion.NotificationList.constructor | components/Notificacion.js:13-14 | An empty list and a counter at 1 |
| Notificacion.NotificationList.Push | components/Notificacion.js:16-25 | The new item with id `String(nextId)` goes in front of the unchanged list. The counter rises by one, and the id is new |
| Notificacion.NotificationList.Clear | components/Notificacion.js:55 | Empties the list and keeps the counter, so ids stay unique |
| Notificacion.NotificationList.MotorLockedFromWatch | components/Notificacion.js:27-29 | Pushes exactly one item with its fixed title and message |
| Notificacion.NotificationList.MotorUnlockedFromWatch | components/Notificacion.js:31-33 | Pushes exactly one item with its fixed title and message |
| Notificacion.NotificationList.ProximityAlert | components/Notificacion.js:35-37 | Pushes exactly one item with its fixed title and message |
| Notificacion.NotificationList.WearConnected | components/Notificacion.js:39-41 | Pushes exactly one item with its fixed title and message |
| Notificacion.ListedIdsDistinct | components/Notificacion.js:63 | The list never shows one id twice |
| Registrocarro.VehiculoDataFields | components/Registrocarro.js:35-41 | The payload has `marca`, `modelo`, `placas` and `VIN` exactly as typed, and `estado_motor: true` |
| Registrocarro.Form.constructor | components/Registrocarro.js:12-16 | The fields start empty and not loading |
| Registrocarro.Form.HandleRegister | components/Registrocarro.js:18-70 | Each outcome happens exactly in its own case. It is incomplete when a field is empty, and unauthenticated when there is no token. It fails on a parsed, non-null, non-ok answer, which alerts `error` or the fallback and keeps the fields. It succeeds on an ok parsed answer, which clears all four fields. Every other request is the `catch` |
| Arco.Classify | components/Pantalla.js:70-90 | A reply is session-invalid on 401 or `error == 'Token inválido'`, before the `ok` check. A failure alerts `mensaje`, else `error`, else the fallback. A success reads `data[key]` or its default. Anything else counts as no connection |
| Arco.SessionCheck | components/Pantalla.js:71 | A session is invalid exactly on a 401, or on an object body whose `error` is "Token inválido" |
| Arco.OptionalList | components/Pantalla.js:110-112 | An optional field is `[]` exactly when empty, otherwise the one-element list of its trimmed value |
| Arco.TextsStrs | components/Pantalla.js:110-112 | A list of strings encoded and decoded comes back unchanged |
| Arco.SolicitanteBack | components/Pantalla.js:109 | The requester object reads back its three names |
| Arco.ContactoBack | components/Pantalla.js:110 | The contact object reads back its phone and e-mail lists |
| Arco.BodyFields | components/Pantalla.js:108-113 | The four parts of the body sit under their keys |
| Arco.SolicitudRoundTrip | components/Pantalla.js:108-120 | The posted JSON carries every part of the request: decoding it gives the request back |
| Arco.ListAfterReply | components/Pantalla.js:66-90 | The list is emptied by a 401 or any other parsed non-ok answer. It is kept when the server cannot be reached or the body does not parse. A success gives the `data` of an object body, or `[]` when that is falsy. It is always the old list, `[]` or the body's `data` |
| Arco.Screen.constructor | components/Pantalla.js:24-36 | An empty list, a closed modal and an empty form |
| Arco.Screen.FetchSolicitudes | components/Pantalla.js:52-95 | No token means no request and no change to the list. Otherwise one GET is classified: a session verdict removes the token, and the list follows `ListAfter`. `loading` and `refreshing` end false |
| Arco.Screen.HandleRefresh | components/Pantalla.js:97-100 | The refresh flag stays set exactly when there is no token, and then there is no request and no change. Otherwise the GET is classified as in `FetchSolicitudes`, and the token and the list follow |
| Arco.Screen.ResetForm | components/Pantalla.js:141-142 | Every form field is emptied and the modal closed |
| Arco.Screen.NewSolicitudBack | components/Pantalla.js:108-113 | Reading the posted body back gives the trimmed names. Each optional field has no entry when empty, and its trimmed value otherwise |
| Arco.Screen.CrearSolicitud | components/Pantalla.js:102-150 | An empty trimmed name, or no token, issues no request and changes nothing, the `loading` and `refreshing` flags included. Otherwise the form's body is POSTed. The request is created exactly on a success verdict, and is done with the verdict otherwise. Any verdict but success keeps the form and the list, and a session verdict removes the token. Success resets the form and fetches the list again |
| Arco.Screen.AfterCreated | components/Pantalla.js:139-143 | After a success the form is reset and the list is fetched with the same token. `loading` and `refreshing` end false |
| Arco.Screen.Submit | components/Pantalla.js:115-149 | The try block of `crearSolicitud` for each verdict, ending with `loading` false |
| Perfil.GetInitials | components/Perfil.js:93-96 | The first letter of the trimmed name, plus the first letter of its second space-separated part when there is one. The result is upper case, empty exactly for a blank name, and at most 2 characters without ß |
| Perfil.SharpSInitials | components/Perfil.js:96 | "ßa b" gives the three-character initials "SSB" |
| Perfil.SharpSParts | components/Perfil.js:93-96 | "ßa b" is trimmed, splits at index 2, and its parts start with ß and b |
| Perfil.UpperSharpS | components/Perfil.js:96 | "ßb" upper-cases to "SSB" |
| Perfil.Letters | components/Perfil.js:95-96 | At most two letters are taken |
| Perfil.LettersFormula | components/Perfil.js:93-96 | The letters taken from the split are the first letters before and after the first space |
| Perfil.LettersNonEmpty | components/Perfil.js:93-96 | A trimmed name gives no letters only when it is empty |
| Perfil.LettersFrom | components/Perfil.js:93-96 | Every initial is a character of the name |
| Perfil.TrimSub | components/Perfil.js:93 | Every character of a trimmed string comes from the string |
| Perfil.LocalProfile | components/Perfil.js:76-82 | A stored record becomes the profile, and its truthy `vehiculo` the one-element list. A missing or unparseable record changes nothing |
| Perfil.NormalizedVehicle | components/Perfil.js:107-109 | `marca`, `modelo` and `VIN` are trimmed. `placas` is upper-cased, already in upper case, and of the same length without ß |
| Perfil.PlacasFacts | components/Perfil.js:108 | Upper-cased plates are a fixed point, and keep their length without ß |
| Perfil.Appended | components/Perfil.js:133 | `[...prev, x]` keeps an array's elements in place, spreads a string into its characters, and adds exactly `x` at the end |
| Perfil.PushVehicle | components/Perfil.js:153-154 | A falsy `vehiculos` becomes `[x]`, and an array gets `x` appended. Every other field is kept. No result when `push` is not available |
| Perfil.StoreVehicle | components/Perfil.js:149-158 | Only `registro_usuario` may change. With no record, it becomes `{vehiculos: [x]}`. A text, array or `null` record, or one whose `vehiculos` has no `push`, leaves the storage as it was |
| Perfil.StoreVehicleAppends | components/Perfil.js:150-155 | A stored object record keeps every other field and gains `x` at the end of its `vehiculos`, created empty if absent |
| Perfil.SaveLocally | components/Perfil.js:149-158 | The in-place update of the parsed record writes exactly `StoreVehicle` |
| Perfil.ProfileScreen.constructor | components/Perfil.js:17-29 | Loading, with no user, an empty vehicle list and an empty form |
| Perfil.ProfileScreen.Initials | components/Perfil.js:91-97 | The render throws exactly when `nombre_usuario.nombre` is truthy and not a string. The initials are those of that name when it is a truthy string, else those of the stored username, else empty. They are always upper case |
| Perfil.ProfileScreen.Load | components/Perfil.js:31-89 | With a token, try `/api/usuario/me` and take `body.usuario`, else `body`, and `vehiculos`, else `vehiculos_usuario`, else `[]`. Then try `/api/vehiculo/mis-vehiculos`. Then fall back to the local record. No token means no request. `loading` ends false |
| Perfil.ProfileScreen.ResetForm | components/Perfil.js:135-138 | The modal is closed and the form emptied |
| Perfil.ProfileScreen.Sent | components/Perfil.js:111-163 | The local fallback runs exactly when the POST gave no readable answer, and it is the only path that writes to storage |
| Perfil.ProfileScreen.AddVehicle | components/Perfil.js:99-164 | Rejected, with the form, list and storage unchanged, exactly when the trimmed `marca`, `modelo` or `placas` is empty. Otherwise the normalised vehicle is sent as `Send` states |
| Perfil.ProfileScreen.Send | components/Perfil.js:111-163 | POST only with a token. It fails exactly on a parsed, non-null, non-ok answer, which keeps the list, the form and the storage. A usable reply appends `body.vehiculo`, else `body`. Anything else appends the local vehicle and writes it to the stored record. Both successes close the modal and empty the form |
| Flows.RegisteredRecordLoads | components/Perfil.js:77-81 | Perfil's fallback loads the record Registro saved, with its vehicle as a one-element list |
| Flows.LocalRecordPrefills | components/Login.js:34-38 | Registro's offline record pre-fills Login with the registered username |
| Flows.RegisteredInitials | components/Perfil.js:92 | A profile loaded from the registration record shows the registered given name's initials |
| Flows.OfflineVehicleJoinsRecord | components/Perfil.js:150-155 | An offline vehicle added to the registration record keeps every registration field and starts `vehiculos` |

## Left out

- Rendering, styles, `Alert` dialogs and navigation are not modelled. Outcomes name the alert or the destination where it matters.
- `fetch` is not modelled. Each reply is an input: unreachable, or a status with an optional parsed body. A reply that is never requested is ignored.
- Headers other than the bearer token are omitted, and so is `BASE_URL`.
- AsyncStorage failures are not modelled: reads and writes succeed. The read in `getToken`'s `catch` (`Pantalla.js:46-49`) is therefore never taken.
- `JSON.parse` is not modelled. A stored document parses back to itself, and other text fails to parse.
- The random default password (`Registro.js:81`) is the parameter `generated`.
- The notification timestamp (`Notificacion.js:21`) is the parameter `time`.
- `fetchSolicitudes` is not awaited where it is called: on mount, by `handleRefresh` and after a creation. The model runs it to completion where it is called, so interleaved `loading` updates are not captured.
- The mount effect of `Pantalla.js:38-40` is a plain call of `FetchSolicitudes`.
- Numbers are integers, which is all these handlers read or write.
- Strings are sequences of Unicode code points, not UTF-16 units. `substring(0, 1)` of a character outside the Basic Multilingual Plane gives the whole character rather than a lone surrogate.
- `toUpperCase` is modelled for ASCII and Latin-1 only. Every other character is kept as it is, although JavaScript changes many of them and turns some into several characters (ﬁ into "FI", ŉ into "ʼN"). The length bounds stated without ß therefore hold only for Latin-1 text.
- Perfil.GetInitials: the "at most two characters" bound is stated only for names without ß, because `toUpperCase` maps ß to "SS". `SharpSInitials` shows a three-character result.
- Perfil.Appended: a vehicle list that is neither an array nor a string cannot be spread. JavaScript throws inside the state updater; the model leaves the list unchanged. Such a list arises only from a backend reply that is not a list.
- Login.Screen.HandleLogin: a truthy non-string `data.token` or name is modelled as making `setItem` reject, which ends in the `catch`.
- `console.error`, `console.warn` and `console.log` calls are not modelled; they only log.
- The password-visibility toggle (`Registro.js:21`, `Login.js:23`) is display state only.
- `components/Motor.js`, `components/Home.js`, `components/Ubicacion.js`, `components/Camaras.js` and `App.js` are not part of this model. Motor.js has no engine logic to model (its button at line 51 has no handler).
