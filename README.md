# FiscamotoGPS core, modelled in Dafny

FiscamotoGPS is an Android client. A field worker signs in, and the app
then reports the device's position to an ingestion server over Socket.IO.
This project models the app's sequential logic and proves properties of it:

- **Login-response resolver** (`AuthRepository`, file `auth_repository.dfy`).
  It searches a loosely-typed sign-in answer, in a fixed order of fallbacks,
  for a bearer token, a display name, a user id and a refresh token. For a
  failed answer it derives the error message. JSON is a datatype
  (`JsonTree`). Gson's `getAsString` failures are `Err` results.
- **Realtime connection** (`Socket`, file `socket_service.dfy`).
  `SocketService` is a class. Its fields are whether a transport exists,
  whether that transport is connected, the connection state, the
  server-driven tracking flag, and the log of emitted messages. Each
  transport event is a method.
- **Watch registry** (`Location`, file `location_client.dfy`).
  `DefaultLocationClient` draws watch ids from a 32-bit counter and keeps
  the map from id to callback. The permission short-circuit of
  `getCurrentLocation` is a function.
- **Session store** (`SessionStore`, file `session_store.dfy`).
  The preferences map is read back into a session by a pure function.
  `saveSession` and `clear` edit the map in place.
- **Login controller** (`AuthUi`, file `auth_view_model.dfy`).
  It validates the credentials, orders the screen-state updates around the
  repository call, and projects the stored session onto the screen.
- **Telemetry controller** (`LocationUi`, file `location_view_model.dfy`).
  It covers the start and stop guards of continuous sending, one iteration
  of the 15-second loop (`Tick`), the watch callback (`OnLocationResult`),
  `fetchLocation`, and the mirroring of the socket's state onto the screen.
  The class owns a `SocketService` and uses a `DefaultLocationClient`
  whose callbacks are view models. `Valid` states that the only watch the
  client holds for the view model is its `locationWatchId`.

Support modules:

- `Wrappers`: `Option` and `Result`.
- `Text`: Kotlin's `isWhitespace`, `isBlank` and `trim`, and decimal
  rendering of an `Int`.
- `Platform`: doubles and floats as opaque bit patterns, and 32-bit
  wrap-around.

Several inputs are parameters of the model:

- permission checks;
- what the location provider answers;
- whether building a Socket.IO transport throws;
- the clock (`now`);
- Gson's `toJson` (`serialize`);
- the outcome of the repository call, as the login controller sees it.

Three data classes in the repository are older than the code that uses
them. The model follows the code:

- `AuthResult` and `AuthSession` carry a nullable `userId`, because
  `AuthRepository.kt` and `AuthDataStore.kt` read and write one.
- `LocationUiState` carries `socketConnectionState`, `isSocketConnected`
  and `isTrackingActive`, because `LocationViewModel.kt` sets them.

## Model

| member | source | states |
|---|---|---|
| AuthRepository.AsString | app/src/main/java/com/example/fiscamotogps/data/remote/AuthRepository.kt:109 | Gson's `getAsString`: a string reads as itself, a number as its literal text, a boolean as "true" or "false", a one-element array as its element; an object, a JSON null and any other array fail |
| AuthRepository.SafeString | app/src/main/java/com/example/fiscamotogps/data/remote/AuthRepository.kt:108-109 | null exactly when the key is absent or JSON null; otherwise the member read by `getAsString`, failing for that key exactly when that read fails |
| AuthRepository.SafeObject | app/src/main/java/com/example/fiscamotogps/data/remote/AuthRepository.kt:111-112 | yields the member exactly when it is a JSON object |
| AuthRepository.Fields | app/src/main/java/com/example/fiscamotogps/data/remote/AuthRepository.kt:60-66 | every candidate of a `listOfNotNull` is read, left to right; the whole read fails iff some key fails; otherwise it yields one value per key |
| AuthRepository.FieldsWhenReadable | app/src/main/java/com/example/fiscamotogps/data/remote/AuthRepository.kt:82-90 | when each key reads without failure, the candidate list is exactly those values in key order |
| AuthRepository.FirstNonBlank | app/src/main/java/com/example/fiscamotogps/data/remote/AuthRepository.kt:91 | `firstOrNull { !it.isNullOrBlank() }?.trim()` never yields a blank string or one with outer whitespace |
| AuthRepository.FirstNonBlankPicksFirstUsable | app/src/main/java/com/example/fiscamotogps/data/remote/AuthRepository.kt:91 | the first non-blank candidate wins, trimmed; blank or null candidates before it never hide it |
| AuthRepository.FirstNonBlankNone | app/src/main/java/com/example/fiscamotogps/data/remote/AuthRepository.kt:91 | nothing is found iff every candidate is null or blank |
| AuthRepository.FirstNonBlankAppend | app/src/main/java/com/example/fiscamotogps/data/remote/AuthRepository.kt:52-79 | searching one list and then the next is the same as searching their concatenation, so the staged fallbacks form one precedence order |
| AuthRepository.ExtractToken | app/src/main/java/com/example/fiscamotogps/data/remote/AuthRepository.kt:52-79 | a token found is non-blank and trimmed; a usable top-level token is returned without reading `data`; a usable `data` token is returned without reading `user`; otherwise the `user` stage decides; extraction fails exactly when a stage that is reached cannot read one of its keys, with that key's error |
| AuthRepository.ExtractTokenPrecedence | app/src/main/java/com/example/fiscamotogps/data/remote/AuthRepository.kt:52-79 | the token is the first usable of `accessToken`, `access_token`, `token`, `data.accessToken`, `data.token`, `data.access_token`, `user.token`, `user.access_token`, `user.accessToken`, trimmed |
| AuthRepository.TokenIsCandidate | app/src/main/java/com/example/fiscamotogps/data/remote/AuthRepository.kt:52-79 | the candidate at a given place in that order is the token when it is the first usable one |
| AuthRepository.DataTokenShape | app/src/main/java/com/example/fiscamotogps/data/remote/AuthRepository.kt:60-67 | a blank top-level `token` falls through to `data.accessToken` |
| AuthRepository.UserTokenShape | app/src/main/java/com/example/fiscamotogps/data/remote/AuthRepository.kt:69-76 | an empty `data.token` falls through to `user.access_token` |
| AuthRepository.TopLevelTokenShape | app/src/main/java/com/example/fiscamotogps/data/remote/AuthRepository.kt:53-58 | a top-level `accessToken` wins over `token` and `data.accessToken`, and is trimmed |
| AuthRepository.ObjectTokenFails | app/src/main/java/com/example/fiscamotogps/data/remote/AuthRepository.kt:60-65 | an object under `data.token` makes the whole extraction fail |
| AuthRepository.DataTokenShortCircuits | app/src/main/java/com/example/fiscamotogps/data/remote/AuthRepository.kt:60-77 | `{"data":{"token":"t"},"user":{"token":{}}}` gives "t": the unreadable `user.token` is never read |
| AuthRepository.ExtractUserName | app/src/main/java/com/example/fiscamotogps/data/remote/AuthRepository.kt:81-92 | a display name found is non-blank and trimmed; all seven candidates are read first, so the extraction fails exactly when one of the `data`, `data.user` or `user` name fields cannot be read, with the first such key's error |
| AuthRepository.ExtractUserNamePrecedence | app/src/main/java/com/example/fiscamotogps/data/remote/AuthRepository.kt:81-92 | the display name is the first usable of `name`, `data.name`, `data.username`, `data.user.name`, `data.user.username`, `user.name`, `user.username` |
| AuthRepository.ExtractUserNameSkipsNonObjectUser | app/src/main/java/com/example/fiscamotogps/data/remote/AuthRepository.kt:86-87 | `data.user` that is not a JSON object contributes no candidate |
| AuthRepository.UnreadableNameFailsLogin | app/src/main/java/com/example/fiscamotogps/data/remote/AuthRepository.kt:28-33 | a 2xx answer with a usable top-level token but an object under `user.username` fails the login with `NotAString("username")` |
| AuthRepository.ExtractUserId | app/src/main/java/com/example/fiscamotogps/data/remote/AuthRepository.kt:94-97 | the user id is `data.id` read by `getAsString` and trimmed, so a number gives its literal; null when `data` or `id` is missing or JSON null; fails exactly when `data.id` cannot be read; no other fallback |
| AuthRepository.ExtractErrorMessage | app/src/main/java/com/example/fiscamotogps/data/remote/AuthRepository.kt:99-106 | the error body's `message`, else its `error`; null when the body did not parse, when `message` cannot be read, or when `message` is absent and `error` cannot be read |
| AuthRepository.Login | app/src/main/java/com/example/fiscamotogps/data/remote/AuthRepository.kt:18-50 | success needs a 2xx answer with a body; the token is non-blank, trimmed and the extracted one; the display name falls back to the username; the refresh token is the top-level one if non-null, else `data.refreshToken`; a 2xx answer without a body fails with "Respuesta vacía del servidor"; a non-2xx answer fails with the extracted message or "Error <code>: <message>" |
| AuthRepository.LoginWithoutTokenFails | app/src/main/java/com/example/fiscamotogps/data/remote/AuthRepository.kt:31-32 | a 2xx answer in which no token candidate is usable fails with "El servidor no devolvió un token válido" |
| AuthRepository.LoginSucceeds | app/src/main/java/com/example/fiscamotogps/data/remote/AuthRepository.kt:28-43 | when every extraction succeeds, the result is built from exactly those values and the serialised body |
| AuthRepository.ExampleToken | app/src/main/java/com/example/fiscamotogps/data/remote/AuthRepository.kt:60-67 | the answer `{"data":{"accessToken":"abc","id":"42","name":"Ana"}}` yields token "abc" |
| AuthRepository.ExampleUserName | app/src/main/java/com/example/fiscamotogps/data/remote/AuthRepository.kt:81-92 | the same answer yields display name "Ana" |
| AuthRepository.ExampleUserId | app/src/main/java/com/example/fiscamotogps/data/remote/AuthRepository.kt:94-97 | the same answer yields user id "42" |
| AuthRepository.NumericUserId | app/src/main/java/com/example/fiscamotogps/data/remote/AuthRepository.kt:94-97 | `{"data":{"id":42}}` gives the user id "42" |
| AuthRepository.UnreadableErrorGivesNoMessage | app/src/main/java/com/example/fiscamotogps/data/remote/AuthRepository.kt:99-106 | an error body `{"error":{"code":1}}` yields no message |
| AuthRepository.ExampleLogin | app/src/main/java/com/example/fiscamotogps/data/remote/AuthRepository.kt:18-50 | the same answer logs in with token "abc", display name "Ana", user id "42" and no refresh token |
| Text.TrimIsCore | app/src/main/java/com/example/fiscamotogps/data/remote/AuthRepository.kt:96 | `trim` yields the slice between a blank prefix and a blank suffix, with no outer whitespace |
| Text.BlankIffTrimEmpty | app/src/main/java/com/example/fiscamotogps/ui/viewmodel/AuthViewModel.kt:38-41 | a string is blank exactly when trimming leaves nothing |
| Text.TrimNonBlank | app/src/main/java/com/example/fiscamotogps/data/remote/AuthRepository.kt:57 | trimming a non-blank candidate gives a non-blank, trimmed string |
| Text.TrimIdempotent | app/src/main/java/com/example/fiscamotogps/ui/viewmodel/AuthViewModel.kt:38 | trimming twice is trimming once |
| Text.NatToDecimal | app/src/main/java/com/example/fiscamotogps/data/remote/AuthRepository.kt:47 | the status code in "Error <code>: …" is rendered in decimal digits |
| Text.DecimalRoundTrip | app/src/main/java/com/example/fiscamotogps/data/remote/AuthRepository.kt:47 | reading the rendered digits back gives the code |
| Platform.WrapInt32 | app/src/main/java/com/example/fiscamotogps/location/DefaultLocationClient.kt:22 | an `AtomicInteger` holds its value modulo 2^32, within the signed 32-bit range, and unchanged when in range |
| Platform.WrapInt32Succ | app/src/main/java/com/example/fiscamotogps/location/DefaultLocationClient.kt:57 | incrementing the wrapped counter is the same as wrapping the incremented count |
| Socket.ActiveFlag | app/src/main/java/com/example/fiscamotogps/socket/SocketService.kt:84-103 | the tracking flag is true exactly when the first argument is an object whose `active` member is `true` or the string "true" in any case; a missing payload or member gives false |
| Socket.LocationPayload | app/src/main/java/com/example/fiscamotogps/socket/SocketService.kt:166-172 | a `location:update` payload carries `userId`, `latitude`, `longitude` and `timestamp`, and an `accuracy` key iff accuracy is non-null |
| Socket.LocationSend | app/src/main/java/com/example/fiscamotogps/socket/SocketService.kt:157-179 | at most one message; one exactly when the transport is connected and every number is finite; it is that `location:update` |
| Socket.AfterConnect | app/src/main/java/com/example/fiscamotogps/socket/SocketService.kt:29-145 | a connected transport keeps `Connected`; otherwise the state is never `Connected` or `Disconnected`, and it is `Connecting` iff the transport was built |
| Socket.SocketService.constructor | app/src/main/java/com/example/fiscamotogps/socket/SocketService.kt:14-19 | starts `Disconnected`, with tracking off, no transport and nothing emitted |
| Socket.SocketService.IsConnected | app/src/main/java/com/example/fiscamotogps/socket/SocketService.kt:190-192 | true exactly when the state is `Connected` |
| Socket.SocketService.Connect | app/src/main/java/com/example/fiscamotogps/socket/SocketService.kt:23-146 | nothing changes while the transport is connected; otherwise a fresh transport is built, and the state becomes `Connecting`, or `Error` with the reason; the guard tests the transport, not `Connecting` |
| Socket.SocketService.OnConnect | app/src/main/java/com/example/fiscamotogps/socket/SocketService.kt:60-65 | `Connected`, and exactly one `tracking:getStatus` emitted |
| Socket.SocketService.OnDisconnect | app/src/main/java/com/example/fiscamotogps/socket/SocketService.kt:67-71 | `Disconnected`; the tracking flag is untouched |
| Socket.SocketService.OnConnectError | app/src/main/java/com/example/fiscamotogps/socket/SocketService.kt:73-81 | `Error` with the exception's message, the argument's text, or "Error desconocido" |
| Socket.SocketService.OnServerEvent | app/src/main/java/com/example/fiscamotogps/socket/SocketService.kt:84-133 | the three tracking events set the flag from their payload; the other events change nothing |
| Socket.SocketService.Disconnect | app/src/main/java/com/example/fiscamotogps/socket/SocketService.kt:148-155 | no transport, `Disconnected` and tracking off, whatever the prior state, so a second call changes nothing |
| Socket.SocketService.SendLocation | app/src/main/java/com/example/fiscamotogps/socket/SocketService.kt:157-179 | appends exactly what `LocationSend` emits for the current connection |
| Socket.SocketService.RequestTrackingStatus | app/src/main/java/com/example/fiscamotogps/socket/SocketService.kt:181-188 | one `tracking:getStatus` if connected, nothing otherwise |
| Location.ToLocationData | app/src/main/java/com/example/fiscamotogps/location/DefaultLocationClient.kt:93-99 | latitude, longitude, accuracy and time are copied unchanged |
| Location.GetCurrentLocation | app/src/main/java/com/example/fiscamotogps/location/DefaultLocationClient.kt:25-50 | null without the permission, whatever the provider says; otherwise the provider's one answer, a location, null or its failure |
| Location.DefaultLocationClient.constructor | app/src/main/java/com/example/fiscamotogps/location/DefaultLocationClient.kt:22-23 | the counter starts at 1 and the registry is empty |
| Location.DefaultLocationClient.StartLocationUpdates | app/src/main/java/com/example/fiscamotogps/location/DefaultLocationClient.kt:52-85 | without the permission nothing changes; otherwise the counter advances even on `SecurityException`, which returns null with the map unchanged; on success it returns the pre-increment id, never one already active, and the map gains that key; every key stays below the counter until it wraps |
| Location.DefaultLocationClient.StopLocationUpdates | app/src/main/java/com/example/fiscamotogps/location/DefaultLocationClient.kt:87-91 | removes exactly that id; the provider is told only when the id was active |
| SessionStore.SessionOf | app/src/main/java/com/example/fiscamotogps/data/local/AuthDataStore.kt:31-42 | no session exactly when `token` is absent; missing text fields read as "", missing optional ones as null |
| SessionStore.ReadAfterSave | app/src/main/java/com/example/fiscamotogps/data/local/AuthDataStore.kt:44-54 | reading after a save gives the saved session, except that a null refresh token, password or user id reads back the value stored before |
| SessionStore.RoundTripIff | app/src/main/java/com/example/fiscamotogps/data/local/AuthDataStore.kt:47-52 | the exact round trip holds iff each null optional field had nothing stored under its key |
| SessionStore.ReadAfterClear | app/src/main/java/com/example/fiscamotogps/data/local/AuthDataStore.kt:56-66 | after `clear` none of the seven keys is left and there is no session |
| SessionStore.ClearIdempotent | app/src/main/java/com/example/fiscamotogps/data/local/AuthDataStore.kt:56-66 | clearing twice is clearing once |
| SessionStore.OnlySessionKeysTouched | app/src/main/java/com/example/fiscamotogps/data/local/AuthDataStore.kt:19-27 | saving and clearing leave every other key, and its value, as it was |
| SessionStore.AuthDataStore.SaveSession | app/src/main/java/com/example/fiscamotogps/data/local/AuthDataStore.kt:44-54 | the preferences become exactly the saved map |
| SessionStore.AuthDataStore.Clear | app/src/main/java/com/example/fiscamotogps/data/local/AuthDataStore.kt:56-66 | the seven keys are removed and no session remains |
| AuthUi.Projected | app/src/main/java/com/example/fiscamotogps/ui/viewmodel/AuthViewModel.kt:79-103 | logged in iff there is a session; not loading; the display name is the session's, or the username if that is blank; a session copies the username and clears the error; no session empties the display name |
| AuthUi.SessionAsWritten | app/src/main/java/com/example/fiscamotogps/ui/viewmodel/AuthViewModel.kt:52-59 | the session `login` saves as written: the result's token, refresh token, display name and raw data, the credentials used, and no user id whatever the result holds |
| AuthUi.NewSession | app/src/main/java/com/example/fiscamotogps/ui/viewmodel/AuthViewModel.kt:52-59 | the session built from a login result carries that result's user id, and otherwise is the session built as written |
| AuthUi.AsWrittenDropsUserId | app/src/main/java/com/example/fiscamotogps/ui/viewmodel/AuthViewModel.kt:52-60 | with the session built as written, a store with no user id reads back none after login; with the corrected session it reads back the result's |
| AuthUi.AsWrittenDropsExampleUserId | app/src/main/java/com/example/fiscamotogps/ui/viewmodel/AuthViewModel.kt:51-60 | the example answer with `data.id` "42" logs in with user id "42", but the session saved as written has none |
| AuthUi.LoginThenObserve | app/src/main/java/com/example/fiscamotogps/ui/viewmodel/AuthViewModel.kt:51-99 | after a login the store holds the token and the credentials used, and the screen shows the user logged in under the server's display name, or the typed username when that is blank |
| AuthUi.AuthViewModel.ObserveSession | app/src/main/java/com/example/fiscamotogps/ui/viewmodel/AuthViewModel.kt:79-103 | the screen becomes the projection of the stored session |
| AuthUi.AuthViewModel.OnUsernameChanged | app/src/main/java/com/example/fiscamotogps/ui/viewmodel/AuthViewModel.kt:29-31 | only the username field changes |
| AuthUi.AuthViewModel.OnPasswordChanged | app/src/main/java/com/example/fiscamotogps/ui/viewmodel/AuthViewModel.kt:33-35 | only the password field changes |
| AuthUi.AuthViewModel.Login | app/src/main/java/com/example/fiscamotogps/ui/viewmodel/AuthViewModel.kt:37-71 | follows the source: the username is trimmed and the password is not; a blank one sets "Ingrese usuario y contraseña válidos", makes no call and leaves the store; otherwise loading with no error at the call, then the session built as written (`SessionAsWritten`, no user id) saved and loading off, or loading off with the exception's message or "Error desconocido" |
| AuthUi.AuthViewModel.LoginCorrected | app/src/main/java/com/example/fiscamotogps/ui/viewmodel/AuthViewModel.kt:37-71 | the corrected `login`: the same in every case, except that the session saved is `NewSession`, which carries the result's user id |
| AuthUi.AuthViewModel.Logout | app/src/main/java/com/example/fiscamotogps/ui/viewmodel/AuthViewModel.kt:73-77 | the store is cleared and holds no session |
| LocationUi.SendFor | app/src/main/java/com/example/fiscamotogps/ui/viewmodel/LocationViewModel.kt:107-114 | one update, for that user and that location, exactly when a user id is known, the socket is connected and the numbers are finite; nothing otherwise |
| LocationUi.FetchedUi | app/src/main/java/com/example/fiscamotogps/ui/viewmodel/LocationViewModel.kt:92-135 | the fetch ends; a location shows with the permission and tracking set, and an error only when no user id is known; null says "No se pudo obtener la ubicación actual"; a failure shows its message or "Error al obtener la ubicación"; the socket fields are untouched |
| LocationUi.FetchSent | app/src/main/java/com/example/fiscamotogps/ui/viewmodel/LocationViewModel.kt:96-115 | at most one update; one exactly when a location was fetched, a user id is known, the socket is connected and the numbers are finite |
| LocationUi.AsWrittenLoginNeverSends | app/src/main/java/com/example/fiscamotogps/ui/viewmodel/LocationViewModel.kt:54-58 | end to end: with the session saved as written, the user id read back is absent and no location is ever sent; with the corrected session it goes out under the server's user id |
| LocationUi.LocationViewModel.constructor | app/src/main/java/com/example/fiscamotogps/ui/viewmodel/LocationViewModel.kt:32-51 | starts not sending, with no watch, no user id, a disconnected socket, and the permission as first read |
| LocationUi.LocationViewModel.OnSession | app/src/main/java/com/example/fiscamotogps/ui/viewmodel/LocationViewModel.kt:54-58 | the user id follows the stored session |
| LocationUi.LocationViewModel.MirrorConnectionState | app/src/main/java/com/example/fiscamotogps/ui/viewmodel/LocationViewModel.kt:62-69 | the screen copies the connection state, and `isSocketConnected` equals "the state is `Connected`" |
| LocationUi.LocationViewModel.MirrorTrackingActive | app/src/main/java/com/example/fiscamotogps/ui/viewmodel/LocationViewModel.kt:72-78 | the screen copies the tracking flag |
| LocationUi.LocationViewModel.ConnectSocket | app/src/main/java/com/example/fiscamotogps/ui/viewmodel/LocationViewModel.kt:81-85 | the socket's state, transport flag and count of built transports are what one `connect()` leaves |
| LocationUi.LocationViewModel.FetchLocation | app/src/main/java/com/example/fiscamotogps/ui/viewmodel/LocationViewModel.kt:92-137 | the screen ends as `FetchedUi` says, and the socket receives what `FetchSent` says |
| LocationUi.LocationViewModel.StartTracking | app/src/main/java/com/example/fiscamotogps/ui/viewmodel/LocationViewModel.kt:216-245 | without the permission nothing changes; with it the counter advances by one with 32-bit wrap; a registration refused by the provider leaves no watch and the registry and provider log as they were; otherwise this view model's callback is registered under the drawn id, the provider is asked for updates, and tracking shows |
| LocationUi.LocationViewModel.StopTracking | app/src/main/java/com/example/fiscamotogps/ui/viewmodel/LocationViewModel.kt:247-253 | the watch, if any, is forgotten and tracking is off; the registry loses exactly that watch's id and the provider log gains one removal of this view model's callback, or both stay as they were when there was no watch |
| LocationUi.LocationViewModel.StartContinuousSending | app/src/main/java/com/example/fiscamotogps/ui/viewmodel/LocationViewModel.kt:139-197 | a no-op while sending; without the permission or a user id it only sets the matching error, leaving no sending, no watch, no job, and socket and client unchanged; otherwise both sending flags are set, the socket state, transport flag and build count are what one `connect` leaves unless it was connected, the counter advances, the registry gains this view model under the drawn id (or stays as it was when the provider refuses), and the job starts |
| LocationUi.LocationViewModel.BeginSending | app/src/main/java/com/example/fiscamotogps/ui/viewmodel/LocationViewModel.kt:158-170 | the part past the guards: sending on; the socket state, transport flag and build count as one `connect` leaves them unless it was connected; the counter advanced; the registry and provider log gain this view model under the drawn id, or stay as they were when the provider refuses |
| LocationUi.LocationViewModel.MarkSending | app/src/main/java/com/example/fiscamotogps/ui/viewmodel/LocationViewModel.kt:158-164 | both sending flags go up; the socket state, transport flag and build count become what one `connect` makes of them, unless the socket was already connected |
| LocationUi.LocationViewModel.SendFetched | app/src/main/java/com/example/fiscamotogps/ui/viewmodel/LocationViewModel.kt:96-115 | a fetched location is handed to the socket when a user id is known, and nothing else is |
| LocationUi.LocationViewModel.SendIfKnown | app/src/main/java/com/example/fiscamotogps/ui/viewmodel/LocationViewModel.kt:109-115 | the socket receives exactly what `SendFor` gives: at most one update, under the current user id, only over a connected socket and for finite coordinates |
| LocationUi.LocationViewModel.Tick | app/src/main/java/com/example/fiscamotogps/ui/viewmodel/LocationViewModel.kt:171-194 | after stop, nothing; a location updates latitude, longitude and accuracy and is sent iff a user id is known; a null location or a failure changes nothing and the loop goes on |
| LocationUi.LocationViewModel.OnLocationResult | app/src/main/java/com/example/fiscamotogps/ui/viewmodel/LocationViewModel.kt:221-240 | only this view model's registered watch reaches the callback; it always shows the location and sets tracking, and sends only while sending with a user id, so nothing is sent after stop |
| LocationUi.LocationViewModel.StopContinuousSending | app/src/main/java/com/example/fiscamotogps/ui/viewmodel/LocationViewModel.kt:199-205 | both sending flags off, no job, the watch forgotten, tracking off, from any state; the registry loses exactly that watch's id and the provider log gains one removal of this view model's callback, or both stay as they were when there was no watch |
| LocationUi.LocationViewModel.ReportPermissionError | app/src/main/java/com/example/fiscamotogps/ui/viewmodel/LocationViewModel.kt:208-213 | the permission shows as missing, with "Se requiere el permiso de ubicación para continuar" |
| LocationUi.LocationViewModel.DisconnectSocket | app/src/main/java/com/example/fiscamotogps/ui/viewmodel/LocationViewModel.kt:87-90 | sending is stopped as `StopContinuousSending` does; the registry loses exactly that watch's id and the provider log gains one removal of this view model's callback, or both stay as they were when there was no watch; then the socket has no transport, is `Disconnected` and tracking is off |
| LocationUi.LocationViewModel.OnCleared | app/src/main/java/com/example/fiscamotogps/ui/viewmodel/LocationViewModel.kt:255-258 | the view model going away stops sending; the registry loses exactly that watch's id and the provider log gains one removal of this view model's callback, or both stay as they were when there was no watch |

## Left out

- Network, coroutines and timing are not modelled. This covers the HTTP
  request, `DeviceInfoProvider`, `viewModelScope.launch`, `delay(15000)`,
  job cancellation, and the order of StateFlow emissions. Launched bodies
  run as synchronous methods. The 15-second loop is one `Tick` per
  iteration, which does nothing once sending has stopped.
- Socket.IO itself is not modelled: reconnection, timeouts and transport
  options. Transport events arrive as method calls. A `connect()` while
  the transport is not connected (`Connecting`, `Disconnected` after a
  drop, or `Error`) builds a fresh transport without closing the old one,
  whose handlers stay registered; the model counts transports built
  (`transportsBuilt`) and does not track events from a replaced one.
- Gson's exception message text is not modelled. A member that Gson cannot
  read as a string is the error `NotAString(key)`. `AuthUi.AuthViewModel.Login`
  receives the message as an input.
- `gson.toJson` of the body is an input function (`serialize`).
  Number-to-text conversion inside JSON is the literal text of a `JNum`.
- Doubles and floats are opaque bit patterns. Only their finiteness
  matters, because org.json refuses NaN and infinities. Nothing computes
  on them.
- `Location.GetCurrentLocation` does not model the `isCompleted` checks or
  cancellation. The model resumes with one answer of the provider, so
  "resumed at most once" holds by construction.
- Failures of the DataStore (I/O errors on `edit` or on read) are not
  modelled, and neither is its atomicity.
- `Text.IsWhitespace` lists the code points Kotlin treats as whitespace for
  characters of the Basic Multilingual Plane. Surrogate pairs are not
  combined.
- `Location.DefaultLocationClient.StartLocationUpdates` promises fresh ids
  only until the 32-bit counter wraps, after 2^31 - 1 registrations. The
  source makes no promise beyond that either.
- The unused `userId` constructor parameter of `LocationViewModel` is not
  modelled. Neither is `LocationRepository`, which the view model receives
  but never calls.
- `Log` calls and the Compose screens are not modelled.

## Findings

| source | as written | input that shows it | evidently intended | confidence | as-written member | corrected member |
|---|---|---|---|---|---|---|
| app/src/main/java/com/example/fiscamotogps/ui/viewmodel/AuthViewModel.kt:52-59 | the saved `AuthSession` takes every field of the login result except `userId`, so `user_id` is never written and `LocationViewModel` never learns a user id (every `startContinuousSending` ends in "No se puede iniciar envío…") | a first login answered with `{"data":{"accessToken":"abc","id":"42","name":"Ana"}}`: the result's user id is "42", and the stored session has none (`AuthUi.AsWrittenDropsExampleUserId`, `LocationUi.AsWrittenLoginNeverSends`) | the session carries `userId = result.userId`, as `AuthUi.AuthViewModel.LoginCorrected` saves it | high, not executed | AuthUi.SessionAsWritten | AuthUi.NewSession |
