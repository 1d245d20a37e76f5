# portadores_frontend, modelled in Dafny

This project models the logic of the portadores fleet-management front end, a Vue single-page application. The application manages fuel cards, fuel charges and withdrawals, vehicles, drivers, users, products and categories against a REST back end. The model covers:

- **The session** (`Api`). `localStorage` is a `map<string, string>` field of the class `Api.Session`, together with the page the window was last sent to. The model covers:
  - the bearer header that the request interceptor adds;
  - the 401 handling of the response interceptor;
  - login, register, logout, the profile read and the profile update, with exactly the keys each one writes or removes;
  - how register flattens a 422 validation payload into one message.
- **The authentication store** (`AuthStore.Store`). It holds `user`, `loading` and `error`, and derives `initials` and `fullname` from the profile.
- **The image store** (`ImageStore.Store`). Its `images` list is changed in place by `addImages`, `removeImage`, `clearImages` and `setImages`. The model proves that the first three keep at most ten images and that `setImages` does not.
- **The route guard** (`Router`). A decision on the path and the stored token.
- **Every resource module**:
  - what request each exported function sends: verb, path, query keys and body;
  - what it resolves to, or throws, for every outcome of that request.

  An outcome is `Http.Outcome`: either `Completed(response)` or `Failed(thrown)`, where the response and the thrown value are JavaScript values (`Js.Value`).

`Js` models the part of JavaScript the code relies on:
- truthiness, `||`, `??` and `?.`;
- property reads that throw on null or undefined;
- `String(x)`, `parseInt`, `trim`, `toUpperCase` on the Latin-1 range, and `join`;
- object spread and `Object.entries`.

A `Js.Completion` is either a normal value or a thrown value. A function that can throw before it sends anything returns a `Call` with no request.

`Envelopes` writes each calling convention once. Examples are the list envelope, the form envelopes, the throw style and the PDF export. Each convention has a predicate that states what it promises, and the function that applies it proves that predicate. Each resource module, one Dafny module per source file, applies the conventions with its own paths, keys and fallback literals.

Behaviour of the code worth knowing:
- **The list envelopes' failure message.** `error?.response?.data?.message || error || "…"` gives the server's message, else the thrown value, else the literal. So the message may be the thrown error object itself rather than a string. The literal is reached only for a falsy thrown value, and the message is never undefined or falsy. See `Envelopes.ListFailureMessageIsTheError` and `Envelopes.ListFallbackOnlyForFalsyThrow`.
- **login's "no token" error.** The "no token" error raised inside login's try block is caught again. The caller sees `'Credenciales incorrectas'` or the server's message, never the "No se recibió…" text.
- **Concurrent 401 replies.** Nothing stops two 401 replies from both clearing the session and redirecting; each 401 does both.
- **Absent query filters.** The list functions build the query object with every filter key, whatever value was passed, undefined included; none is left out in the code.
- **`removeImage` out of range.** It does not always leave the list alone:
  - an index at or past the end changes nothing;
  - a negative index removes counting from the end, as `splice` does;
  - an index below minus the length removes the first image.

  A negative index never triggers the server delete, because `images[-1]` is undefined. See `ImageStore.SplicedNegative`.

## Model

| member | source | states |
|---|---|---|
| Js.ParseIntOfNumber | src/@core/stores/images.js:47 | `parseInt(String(n))` gives back the integer `n`, negative numbers included |
| Js.TrimUnspaced | src/@core/stores/auth.js:22 | `trim` leaves a string alone when neither end is white space |
| Js.SetPropAppends | src/views/pages/cargas/CargaForm.js:90-92 | assigning a property the object does not have appends it as the last key and keeps every other property |
| Js.Spread | src/@core/stores/auth.js:18 | `{...v}` of an object has exactly its enumerable keys in the same order, each with the same value, and no other property; of null or undefined it is the empty object; of an array or string it is the object built from its entries |
| Js.FromEntries | src/@core/stores/auth.js:18 | the object built from entries is an object whose own properties are exactly its enumerable keys |
| Js.FromEntriesKeys | src/@core/stores/auth.js:18 | the keys of the built object are exactly the keys of the entries, each listed once |
| Js.FromEntriesLastWins | src/@core/stores/auth.js:18 | each key holds the value of its last entry |
| Js.FromEntriesFirstOrder | src/@core/stores/auth.js:18 | keys come in the order of their first entries: a key listed before another has an entry before any entry of the other |
| Http.Query | src/pages/tarjetas/index.js:8-17 | the query object has exactly the given distinct keys in order, each with its value |
| Envelopes.ListEnvelope | src/pages/tarjetas/index.js:19-29 | a completed call copies exactly `success`, `message`, `data`, `meta` from the body. A failed one gives `success` false and `data` and `meta` null. Its message is the server message, else the thrown value itself, else the literal |
| Envelopes.ListFailureMessageIsTheError | src/pages/tarjetas/index.js:26 | an axios error without a server message becomes the message itself, an object and not a string |
| Envelopes.ListFallbackOnlyForFalsyThrow | src/pages/tarjetas/index.js:26 | the message is always truthy. The literal is chosen when neither the server message nor the thrown value is truthy, and in no other case unless one of them equals it |
| Envelopes.UpdateEnvelope | src/pages/tarjetas/index.js:88-101 | a completed call copies `success`, `message`, `data`. A failed one gives `success` false and `data` null. Its message is the server message, else the error's `message`, else the literal |
| Envelopes.PlainEnvelope | src/views/pages/products/ProductForm.js:1-18 | a completed call copies `success`, `data`, `message`, `meta`. A failure gives `success` false and `data` and `meta` null. Its message is the server message, else the literal |
| Envelopes.CreateEnvelope | src/views/pages/products/ProductForm.js:20-37 | a completed call copies `success`, `data`, `message`, `meta`. A failure gives the server message else the literal, the server's `errors` else null as `data`, and `meta` null. A null or undefined thrown value makes it throw |
| Envelopes.DeleteEnvelope | src/pages/categories/index.js:71-85 | a completed call copies `success`, `message`, `data`. A failure has only `success` false and the server message, else the literal |
| Envelopes.FormSuccess | src/views/pages/cargas/CargaForm.js:3-6 | `{ success, data }` copied from the body exactly when the body can be read, else a TypeError |
| Envelopes.FormFetch | src/views/pages/cargas/CargaForm.js:1-10 | `{ success, data }` from a readable body. Otherwise it gives `{ success: false, message }` with the server message, else `e.message`. A null or undefined thrown value makes the catch block throw |
| Envelopes.NamesFetch | src/views/pages/cargas/CargaForm.js:12-21 | `success` is true with the body's `data` on any readable reply, whatever the body's own `success`. Otherwise it gives `success` false and the fixed message |
| Envelopes.FormSubmit | src/views/pages/cargas/CargaForm.js:23-30 | `{ success, data }` from a readable body. A failure with a server reply gives `{ success: false, message, data: errors }` from it, and one without a reply throws a TypeError |
| Envelopes.FormDelete | src/views/pages/vehiculos/VehiculoForm.js:55-62 | only `{ success, message }` on both paths. A failure's message is read from the server reply, which must exist |
| Envelopes.TolerantSubmit | src/views/pages/tarjetas/TarjetaForm.js:78-85 | `{ success, data }` from a readable body. A failure gives only `{ success: false, message }` with the server message, else the fallback, even without a reply |
| Envelopes.ThrowStyle | src/pages/usuarios/index.js:42-50 | the picked part of the body. A failure throws an Error whose message is the server message, else the fallback |
| Envelopes.ThrowStyleFailureThrows | src/pages/usuarios/index.js:48 | a defined thrown value always ends in a thrown `Error` with the server message, else the fallback, as a string |
| Envelopes.PdfCatch | src/pages/tarjetas/index.js:166-183 | a null or undefined thrown value throws. Otherwise it gives `{ success: false, message, file: null }`. With a reply body, the message is the parsed `message`, else `error`, else the server literal; an unparsable or null parse gives `statusText`, else the network literal. Without a reply body, the message is `error.message`, else the unexpected-error literal |
| Envelopes.PdfAttempt | src/pages/tarjetas/index.js:140-162 | the try block: a failed request throws its error; a PDF reply gives `success` true, "PDF generado con éxito." and the body as `file`; a missing reply or missing `headers` throws the TypeError; a non-PDF reply throws the parse error, throws the TypeError when the body parses to null or undefined, and otherwise gives `success` false with the parsed `message`, else "Error desconocido al generar el PDF." |
| Envelopes.PdfExport | src/pages/tarjetas/index.js:134-184 | `success` is true, with `file` the body and "PDF generado con éxito.", exactly when the reply's `content-type` is `application/pdf`. Any other result has `success` false and `file` null. A JSON error reply gives its `message`, else "Error desconocido al generar el PDF.". A reply without `headers`, or whose body parses to null or undefined, ends in the catch block with the TypeError; an unparsable body ends there with the parse error |
| Envelopes.PdfCatchTypeError | src/pages/tarjetas/index.js:166-183 | the catch block turns the TypeError, which has no `response`, into `{ success: false, message: <the TypeError's message>, file: null }` |
| Envelopes.CompletedPdfExportResolves | src/pages/tarjetas/index.js:134-184 | once the request completes, a PDF export always resolves, and a reply that is not a PDF gives `success` false and a null `file` |
| Api.GetItem | src/utils/api.js:9 | `localStorage.getItem`: null exactly when the key is absent, else the stored string |
| Api.WithoutSession | src/utils/api.js:23-24 | `authToken` and `user` are gone and every other key is kept unchanged |
| Api.WithoutSessionIdempotent | src/utils/api.js:126-127 | clearing the session twice leaves what clearing it once leaves, so running logout twice stores the same as once |
| Api.Rejected | src/utils/api.js:21-28 | the interceptor rejects with the same error, and a null or undefined error turns into a TypeError |
| Api.FieldLine | src/utils/api.js:101 | `"field: m1, m2"` exactly when the messages are an array, else a TypeError |
| Api.FieldLines | src/utils/api.js:100-101 | one line per entry, in order, exactly when every entry's messages are an array |
| Api.JoinEmpty | src/utils/api.js:102 | joining non-empty parts is empty exactly when there are none |
| Api.ValidationMessage | src/utils/api.js:98-102 | defined exactly when every field holds an array of messages. It is empty exactly when there are no fields |
| Api.ValidationMessageOneField | src/utils/api.js:100-102 | `{ f: [m] }` becomes `"f: m"` |
| Api.ValidationMessageTwoFields | src/utils/api.js:100-102 | two fields give their lines joined by `"; "`, in key order |
| Api.RegisterError | src/utils/api.js:93-113 | a 422 throws the flattened message, or "Validation failed" when there are no errors. A payload that cannot be flattened throws its TypeError. Any other failure throws an Error with the server message, else the error's `message`, else "Registration failed. Please try again." |
| Api.ErrorWithoutReplyKeepsMessage | src/utils/api.js:107-112 | an error with no server reply and a non-empty message is rethrown with that message |
| Api.RegisterValidationWithoutErrors | src/utils/api.js:97-104 | a 422 without `errors` throws "Validation failed" |
| Api.RequestConfig.constructor | src/utils/api.js:8 | the configuration holds the given headers |
| Api.Session.constructor | src/utils/api.js:9 | the session starts from the given storage with no redirect |
| Api.Session.AuthToken | src/utils/api.js:188-190 | the stored token, or null exactly when none is stored |
| Api.Session.IsAuthenticated | src/utils/api.js:171-173 | true exactly when a non-empty token is stored |
| Api.Session.StoredUser | src/utils/api.js:179-182 | null when there is no (non-empty) `user` entry, else what parsing it gives. A parse error propagates |
| Api.Session.Authorize | src/utils/api.js:8-13 | `Authorization` becomes `Bearer <token>` exactly when a non-empty token is stored. Otherwise the headers are unchanged |
| Api.Session.RejectResponse | src/utils/api.js:21-28 | a 401 removes both session keys and redirects to `/login`. Anything else changes nothing. The error is always rejected |
| Api.Session.Login | src/utils/api.js:38-55 | POST `/login` with `{ name, password }`. The method succeeds exactly when the reply carries a truthy token, and then it stores the token and the stringified user and returns `data`. Every other outcome throws the server message, else "Credenciales incorrectas", with storage unchanged except by a 401. Null credentials throw before any request |
| Api.Session.Register | src/utils/api.js:68-114 | POST `/register` with the six fields. It succeeds exactly when the reply has both a token and a user, and then it stores both and returns exactly `{ token, user }`. Otherwise it throws what the catch block makes of the error, with storage unchanged except by a 401 |
| Api.Session.Logout | src/utils/api.js:120-129 | POST `/logout`. Both keys are removed whatever the outcome, and it never throws |
| Api.Session.GetUserProfile | src/utils/api.js:135-145 | GET `/user`, resolving or throwing as `UserProfile` says. Storage changes only on a 401 |
| Api.Session.UpdateUserProfile | src/utils/api.js:152-165 | PUT `/user/profile`. `user` is rewritten exactly when the reply has a truthy `data.user`, and no other key changes except on a 401. Failures throw the server message, else the literal |
| Api.UserProfile | src/utils/api.js:135-145 | the body's `data` on a readable reply. Otherwise it throws an `Error` with the server message, else "Error al obtener el perfil" |
| Api.RegistrationBody | src/utils/api.js:70-77 | exactly the six registration fields, in order, copied from the form data |
| AuthStore.Initials | src/@core/stores/auth.js:19-21 | the upper-cased first letters of `name` and `lastname` when both are truthy, else `'US'`. A truthy name that is not a string throws |
| AuthStore.FullNameOfTwoNames | src/@core/stores/auth.js:22 | two names with no outer white space are joined by one space |
| AuthStore.NamelessProfile | src/@core/stores/auth.js:19-22 | with neither name the full name is empty and the initials are `'US'` |
| AuthStore.AnaLopez | src/@core/stores/auth.js:19-22 | Ana Lopez gives `AL` and `Ana Lopez`, and lower-case names still give `AL` |
| AuthStore.FirstNameOnly | src/@core/stores/auth.js:19-22 | a first name alone gives that name with no trailing space, and initials `'US'` |
| AuthStore.WithDisplayNames | src/@core/stores/auth.js:17-23 | `initials` and `fullname` are the ones `Initials` and `FullName` compute; a null or undefined profile throws, and any other profile whose initials can be computed succeeds |
| AuthStore.WithDisplayNamesKeepsProfile | src/@core/stores/auth.js:18 | every enumerable field of the profile other than `initials` and `fullname` is kept with its value |
| AuthStore.Store.constructor | src/@core/stores/auth.js:7-9 | `user` and `error` start null and `loading` false |
| AuthStore.Store.LoadUser | src/@core/stores/auth.js:11-32 | on success `user` is the profile with its display names and is returned, and `error` is null. On failure `error` holds the message, `user` is kept and the failure is thrown. `loading` ends false on both paths |
| AuthStore.Store.ClearUser | src/@core/stores/auth.js:34-36 | `user` becomes null and nothing else changes |
| AuthStore.Store.CheckAuth | src/@core/stores/auth.js:38-43 | it loads only when a token is stored and no user is held, and otherwise changes nothing and returns whether a token is stored; a load sets `user`, `error` and the session exactly as `loadUser` does, a failed load is thrown on, and a load whose reply completes returns true |
| ImageStore.Element | src/@core/stores/images.js:11 | `images[index]`, undefined outside the list |
| ImageStore.SpliceStart | src/@core/stores/images.js:25 | where `splice(index, 1)` starts: a negative index counts from the end, clamped to both ends |
| ImageStore.Spliced | src/@core/stores/images.js:25 | the list without the element at the start position, or unchanged when the start is the end |
| ImageStore.SplicedInRange | src/@core/stores/images.js:25 | an index inside the list removes exactly that element and keeps the others in order |
| ImageStore.SplicedPastEnd | src/@core/stores/images.js:25 | an index at or past the end changes nothing |
| ImageStore.SplicedNegative | src/@core/stores/images.js:25 | a negative index removes counting from the end, and one below minus the length removes the first image |
| ImageStore.StoredEntry | src/@core/stores/images.js:42-49 | exactly `{ url, path, file: { name, size } }` with `size = parseInt(file_size)` |
| ImageStore.StoredEntries | src/@core/stores/images.js:42-49 | one entry per image, in order, exactly when no image is null or undefined, else a TypeError |
| ImageStore.EntrySizeOfNumber | src/@core/stores/images.js:47 | a stored size `String(n)` reads back as `n` |
| ImageStore.ApplyBounded | src/@core/stores/images.js:25-39 | one add, remove or clear never takes a list of at most ten images past ten |
| ImageStore.ReplayBounded | src/@core/stores/images.js:5-39 | from the empty store, any sequence of add, remove and clear keeps at most ten images |
| ImageStore.SetImagesUnbounded | src/@core/stores/images.js:41-50 | setImages keeps eleven well-formed images as eleven entries, so it does not enforce the bound |
| ImageStore.Store.constructor | src/@core/stores/images.js:5-7 | the store starts empty |
| ImageStore.Store.RemoveImage | src/@core/stores/images.js:10-27 | an image with a `path` is first deleted on the server. If that fails, the method returns false and the list is kept. Otherwise the list loses the element `splice(index, 1)` selects |
| ImageStore.Store.AddImages | src/@core/stores/images.js:30-35 | appends in order when at most ten images result. Otherwise it throws "Máximo 10 imágenes permitidas." and keeps the list |
| ImageStore.Store.ClearImages | src/@core/stores/images.js:37-39 | the list is empty |
| ImageStore.Store.SetImages | src/@core/stores/images.js:41-50 | the list becomes one stored entry per given image, in order. It throws and keeps the list when an image is null or undefined |
| Router.Guard | src/plugins/1.router/index.js:24-44 | the guard sends the user to the login page exactly when the path is protected and no token is stored. It sends the user to `/products` exactly when the path is public and a token is stored. Otherwise it proceeds. The login redirect carries the full path |
| Router.Returned | src/plugins/1.router/index.js:31-43 | proceed returns nothing. The `/products` redirect is that string. The login redirect is `{ path: '/login', query: { returnUrl }, meta: { layout: 'empty' } }` |
| Router.PublicRoutesExactly | src/plugins/1.router/index.js:24-38 | with no token stored, exactly `/login`, `/registro` and `/recuperar-contrasena` can be opened, and every other path is sent to login with its full path as return URL |
| Router.LoginNeverRedirectsToItself | src/plugins/1.router/index.js:25-38 | `/login` is never redirected to the login page, and it proceeds without a token |
| Router.EmptyTokenIsNoToken | src/plugins/1.router/index.js:27-43 | an empty stored token decides as no token at all |
| Router.GuardReadsOnlyTheToken | src/plugins/1.router/index.js:27 | other stored keys do not change the decision |
| Router.ClearedSessionIsSentToLogin | src/utils/api.js:22-24 | after a 401 has cleared the session, every protected page sends the user to log in |
| TarjetasPage.FetchCards | src/pages/tarjetas/index.js:1-33 | GET `/tarjetas-combustible` with exactly the query keys `page`, `itemsPerPage`, `search`, `chofer_id`, `tipo_combustible_id`, `activa`; a completed call copies `success`, `message`, `data`, `meta` from the body; a failed one gives `success` false, `data` and `meta` null, and the server message, else the thrown value itself, else "Ocurrió un error al actualizar el evento" |
| TarjetasPage.FetchChoferNames | src/pages/tarjetas/index.js:35-57 | GET `/choferes/get-names` with no query parameters; a completed call copies `success`, `message`, `data`, `meta` from the body; a failed one gives `success` false, `data` and `meta` null, and the server message, else the thrown value itself, else "Ocurrió un error al actualizar el evento" |
| TarjetasPage.FetchTipoCombustibleNames | src/pages/tarjetas/index.js:59-81 | GET `/tipo-combustibles/get-names` with no query parameters; a completed call copies `success`, `message`, `data`, `meta` from the body; a failed one gives `success` false, `data` and `meta` null, and the server message, else the thrown value itself, else "Ocurrió un error al actualizar el evento" |
| TarjetasPage.UpdateVehicle | src/pages/tarjetas/index.js:83-102 | PUT `/products/{id}` with the data as body; a completed call copies `success`, `message`, `data`; a failed one gives `success` false, `data` null and the server message, else the error's `message`, else "Error al actualizar el producto" |
| TarjetasPage.FetchConsumoCombustibleReport | src/pages/tarjetas/index.js:104-131 | GET `/tarjetas-combustible/reportes/consumo-mes` with exactly `year` and `month`; a completed call copies `success`, `message`, `data`; a failed one gives `success` false, `data` null and the server message, else the error's `message`, else "Ocurrió un error al generar el reporte." |
| TarjetasPage.PdfReportCall | src/pages/tarjetas/index.js:140-150 | GET the given path with exactly `year`, `month` and `tarjeta_id`, the last null when not given, ending in the given result |
| TarjetasPage.ExportConsumoCombustiblePdf | src/pages/tarjetas/index.js:134-184 | GET `/tarjetas-combustible/reportes/consumo-mes` with `year`, `month` and `tarjeta_id` (null when not given); `success` is true, with the body as `file` and "PDF generado con éxito.", exactly when the reply's content type is `application/pdf`; a non-PDF reply whose body parses to an object gives its `message` else "Error desconocido al generar el PDF.", and one without `headers`, with an unparsable body or with a null parse goes to the catch block; a thrown error with a reply body gives `message`, then `error`, then "Error del servidor al generar el PDF.", an unparsable one `statusText` then "Error de red al generar el PDF.", and none `error.message` then the unexpected-error literal; `file` is null whenever `success` is false |
| TarjetasPage.GenerateCdtPdfReport | src/pages/tarjetas/index.js:187-237 | GET `/vehiculos/reportes/cdt` with `year`, `month` and `tarjeta_id` (null when not given); `success` is true, with the body as `file` and "PDF generado con éxito.", exactly when the reply's content type is `application/pdf`; a non-PDF reply whose body parses to an object gives its `message` else "Error desconocido al generar el PDF.", and one without `headers`, with an unparsable body or with a null parse goes to the catch block; a thrown error with a reply body gives `message`, then `error`, then "Error del servidor al generar el PDF.", an unparsable one `statusText` then "Error de red al generar el PDF.", and none `error.message` then the unexpected-error literal; `file` is null whenever `success` is false |
| RetirosPage.FetchWithdrawals | src/pages/retiros/index.js:1-34 | GET `/retiros-combustible` with exactly the query keys `page`, `itemsPerPage`, `search`, `tarjeta_combustible_id`, `chofer_id`, `tipo_combustible_id`, `registrado_por_id`, `with_trashed`; a completed call copies `success`, `message`, `data`, `meta` from the body; a failed one gives `success` false, `data` and `meta` null, and the server message, else the thrown value itself, else "Ocurrió un error al obtener los retiros de combustible" |
| RetirosPage.FetchChoferNames | src/pages/retiros/index.js:36-58 | GET `/choferes/get-names` with no query parameters; a completed call copies `success`, `message`, `data`, `meta` from the body; a failed one gives `success` false, `data` and `meta` null, and the server message, else the thrown value itself, else "Ocurrió un error al obtener los nombres de los choferes" |
| RetirosPage.FetchTarjetas | src/pages/retiros/index.js:60-82 | GET `/tarjetas-combustible` with no query parameters; a completed call copies `success`, `message`, `data`, `meta` from the body; a failed one gives `success` false, `data` and `meta` null, and the server message, else the thrown value itself, else "Ocurrió un error al obtener las tarjetas de combustible" |
| RetirosPage.FetchTipoCombustibles | src/pages/retiros/index.js:84-106 | GET `/tipo-combustibles` with no query parameters; a completed call copies `success`, `message`, `data`, `meta` from the body; a failed one gives `success` false, `data` and `meta` null, and the server message, else the thrown value itself, else "Ocurrió un error al obtener los tipos de combustible" |
| RetirosPage.FetchUsersByEnterprise | src/pages/retiros/index.js:108-130 | GET `/users/users-by-enterprise` with no query parameters; a completed call copies `success`, `message`, `data`, `meta` from the body; a failed one gives `success` false, `data` and `meta` null, and the server message, else the thrown value itself, else "Ocurrió un error al obtener los usuarios por empresa" |
| RetirosPage.FetchAccessedRetirosIds | src/pages/retiros/index.js:132-151 | GET `/retiros-combustible/accessed-ids` with no query parameters; a completed call copies `success`, `message`, `data`, `meta` from the body; a failed one gives `success` false, `data` and `meta` null, and the server message, else the thrown value itself, else "Ocurrió un error al obtener las cargas accedidas." |
| CargasPage.FetchCharges | src/pages/cargas/index.js:1-34 | GET `/carga-combustibles` with exactly the query keys `page`, `itemsPerPage`, `search`, `tarjeta_combustible_id`, `chofer_id`, `tipo_combustible_id`, `registrado_por_id`; a completed call copies `success`, `message`, `data`, `meta` from the body; a failed one gives `success` false, `data` and `meta` null, and the server message, else the thrown value itself, else "Ocurrió un error al actualizar el evento" |
| CargasPage.FetchChoferNames | src/pages/cargas/index.js:36-58 | GET `/choferes/get-names` with no query parameters; a completed call copies `success`, `message`, `data`, `meta` from the body; a failed one gives `success` false, `data` and `meta` null, and the server message, else the thrown value itself, else "Ocurrió un error al actualizar el evento" |
| CargasPage.FetchTarjetas | src/pages/cargas/index.js:60-82 | GET `/tarjetas-combustible` with no query parameters; a completed call copies `success`, `message`, `data`, `meta` from the body; a failed one gives `success` false, `data` and `meta` null, and the server message, else the thrown value itself, else "Ocurrió un error al actualizar el evento" |
| CargasPage.FetchTipoCombustibles | src/pages/cargas/index.js:84-106 | GET `/tipo-combustibles` with no query parameters; a completed call copies `success`, `message`, `data`, `meta` from the body; a failed one gives `success` false, `data` and `meta` null, and the server message, else the thrown value itself, else "Ocurrió un error al actualizar el evento" |
| CargasPage.FetchUsersByEnterprise | src/pages/cargas/index.js:108-130 | GET `/users/users-by-enterprise` with no query parameters; a completed call copies `success`, `message`, `data`, `meta` from the body; a failed one gives `success` false, `data` and `meta` null, and the server message, else the thrown value itself, else "Ocurrió un error al actualizar el evento" |
| VehiculosPage.FetchVechicles | src/pages/vehiculos/index.js:1-34 | GET `/vehiculos` with exactly the query keys `page`, `itemsPerPage`, `search`, `chofer_id`, `tipo_combustible_id`, `estado_tecnico`, `tipo_vehiculo`; a completed call copies `success`, `message`, `data`, `meta` from the body; a failed one gives `success` false, `data` and `meta` null, and the server message, else the thrown value itself, else "Ocurrió un error al actualizar el evento" |
| VehiculosPage.FetchChoferNames | src/pages/vehiculos/index.js:36-58 | GET `/choferes/get-names` with no query parameters; a completed call copies `success`, `message`, `data`, `meta` from the body; a failed one gives `success` false, `data` and `meta` null, and the server message, else the thrown value itself, else "Ocurrió un error al actualizar el evento" |
| VehiculosPage.FetchTipoCombustibleNames | src/pages/vehiculos/index.js:60-82 | GET `/tipo-combustibles/get-names` with no query parameters; a completed call copies `success`, `message`, `data`, `meta` from the body; a failed one gives `success` false, `data` and `meta` null, and the server message, else the thrown value itself, else "Ocurrió un error al actualizar el evento" |
| VehiculosPage.UpdateVehicle | src/pages/vehiculos/index.js:84-103 | PUT `/products/{id}` with the data as body; a completed call copies `success`, `message`, `data`; a failed one gives `success` false, `data` null and the server message, else the error's `message`, else "Error al actualizar el producto" |
| ProductsPage.FetchProducts | src/pages/products/index.js:1-36 | GET `/products` with exactly the query keys `page`, `itemsPerPage`, `sortBy`, `orderBy`, `selectedCategory`, `selectedSubCategory`, `searchTerm`, `selectedDestacated`, `selectedVisible`; a completed call copies `success`, `message`, `data`, `meta` from the body; a failed one gives `success` false, `data` and `meta` null, and the server message, else the thrown value itself, else "Ocurrió un error al actualizar el evento" |
| ProductsPage.FetchFilters | src/pages/products/index.js:38-60 | GET `/categories/get-names` with no query parameters; a completed call copies `success`, `message`, `data`, `meta` from the body; a failed one gives `success` false, `data` and `meta` null, and the server message, else the thrown value itself, else "Ocurrió un error al actualizar el evento" |
| ProductsPage.UpdateProduct | src/pages/products/index.js:62-81 | PUT `/products/{id}` with the data as body; a completed call copies `success`, `message`, `data`; a failed one gives `success` false, `data` null and the server message, else the error's `message`, else "Error al actualizar el producto" |
| UsuariosPage.FetchUsers | src/pages/usuarios/index.js:1-30 | GET `/users` with exactly the query keys `page`, `itemsPerPage`, `search`; a completed call copies `success`, `message`, `data`, `meta` from the body; a failed one gives `success` false, `data` and `meta` null, and the server message, else the thrown value itself, else "Ocurrió un error al actualizar el evento" |
| UsuariosPage.FetchUsersByEmpresa | src/pages/usuarios/index.js:32-40 | GET `/users/by-empresa` with the given query object unchanged (an empty one when none is given); returns the whole body, or throws an Error whose message is the server message if truthy, else "Error al obtener usuarios de la misma empresa."; a null or undefined response throws the fallback too, while a reply without a body resolves to undefined |
| UsuariosPage.CreateUser | src/pages/usuarios/index.js:42-50 | POST `/users` with the user data as body; returns `body.data`, or throws an Error whose message is the server message if truthy, else "Error al crear el usuario."; a reply without a body throws the fallback too |
| UsuariosPage.UpdateUser | src/pages/usuarios/index.js:52-65 | PUT `/users/{id}` with the user data as body; returns `body.data`, or throws an Error whose message is the server message if truthy, else "Error al actualizar el usuario con ID {id}."; a reply without a body throws the fallback too |
| UsuariosPage.FetchUserById | src/pages/usuarios/index.js:67-75 | GET `/users/{id}`; returns `body.data`, or throws an Error whose message is the server message if truthy, else "Error al obtener el usuario con ID {id}."; a reply without a body throws the fallback too |
| UsuariosPage.DeleteUser | src/pages/usuarios/index.js:77-85 | DELETE `/users/{id}`; returns `body.message`, or throws an Error whose message is the server message if truthy, else "Error al eliminar el usuario con ID {id}."; a reply without a body throws the fallback too |
| ChoferesPage.FetchChoferes | src/pages/choferes/index.js:1-30 | GET `/choferes` with exactly the query keys `page`, `itemsPerPage`, `search`; a completed call copies `success`, `message`, `data`, `meta` from the body; a failed one gives `success` false, `data` and `meta` null, and the server message, else the thrown value itself, else "Ocurrió un error al actualizar el evento" |
| ChoferesPage.CreateChofer | src/pages/choferes/index.js:31-39 | POST `/choferes` with the driver data as body; returns `body.data`, or throws an Error whose message is the server message if truthy, else "Error al crear el usuario."; a reply without a body throws the fallback too |
| ChoferesPage.UpdateChofer | src/pages/choferes/index.js:41-54 | PUT `/choferes/{id}` with the driver data as body; returns `body.data`, or throws an Error whose message is the server message if truthy, else "Error al actualizar el usuario con ID {id}."; a reply without a body throws the fallback too |
| ChoferesPage.FetchChoferById | src/pages/choferes/index.js:56-64 | GET `/choferes/{id}`; returns `body.data`, or throws an Error whose message is the server message if truthy, else "Error al obtener el usuario con ID {id}."; a reply without a body throws the fallback too |
| VehiculoForm.FetchVehiculoById | src/views/pages/vehiculos/VehiculoForm.js:1-8 | GET `/vehiculos/{id}`; a readable reply gives exactly `{ success, data }` from the body; otherwise `{ success: false, message }` with the server message, else the error's `message`; a null or undefined thrown value makes the handler throw |
| VehiculoForm.FetchChoferNames | src/views/pages/vehiculos/VehiculoForm.js:10-19 | GET `/choferes/get-names` without parameters; any readable reply gives `success` true and the body's `data`, whatever the body's own `success`; any failure gives `success` false and "Error cargando choferes"; never throws |
| VehiculoForm.FetchTiposCombustibleNames | src/views/pages/vehiculos/VehiculoForm.js:21-30 | GET `/tipo-combustibles/get-names` without parameters; any readable reply gives `success` true and the body's `data`, whatever the body's own `success`; any failure gives `success` false and "Error cargando tipos de combustible"; never throws |
| VehiculoForm.FetchTipoVehiculos | src/views/pages/vehiculos/VehiculoForm.js:32-35 | no request is sent; the plain array of the four vehicle types "auto", "camión", "camioneta", "moto", in that order |
| VehiculoForm.SubmitVehiculo | src/views/pages/vehiculos/VehiculoForm.js:37-44 | POST `/vehiculos` with the payload; a readable reply gives `{ success, data }` from the body; a failure gives `{ success: false, message, data }` from the server reply's `message` and `errors`, and throws a TypeError when there is no reply to read |
| VehiculoForm.UpdateVehiculo | src/views/pages/vehiculos/VehiculoForm.js:46-53 | PUT `/vehiculos/{id}` with the payload; a readable reply gives `{ success, data }` from the body; a failure gives `{ success: false, message, data }` from the server reply's `message` and `errors`, and throws a TypeError when there is no reply to read |
| VehiculoForm.DeleteVehiculo | src/views/pages/vehiculos/VehiculoForm.js:55-62 | DELETE `/vehiculos/{id}`; only `{ success, message }` on both paths, the failure's message read from the server reply, which must exist |
| VehiculoForm.FetchTiposCombustible | src/views/pages/vehiculos/VehiculoForm.js:64-73 | no request is sent; `{ success: true, data }` with exactly the two fuel types 1 "Gasolina Regular" and 2 "Diesel" |
| VehiculoForm.FetchEmpresas | src/views/pages/vehiculos/VehiculoForm.js:75-83 | no request is sent; `{ success: true, data }` with exactly the companies 1 "Empresa X" and 2 "Empresa Y" |
| VehiculoForm.FetchEstadosTecnicos | src/views/pages/vehiculos/VehiculoForm.js:85-93 | no request is sent; `{ success: true, data }` with exactly the technical states "BUENO" ("Bueno") and "REGULAR" ("Regular") |
| TarjetaForm.FetchTarjetaById | src/views/pages/tarjetas/TarjetaForm.js:1-10 | GET `/tarjetas-combustible/{id}`; a readable reply gives exactly `{ success, data }` from the body; otherwise `{ success: false, message }` with the server message, else the error's `message`; a null or undefined thrown value makes the handler throw |
| TarjetaForm.FetchChoferNames | src/views/pages/tarjetas/TarjetaForm.js:12-21 | GET `/choferes/get-names` without parameters; any readable reply gives `success` true and the body's `data`, whatever the body's own `success`; any failure gives `success` false and "Error cargando choferes"; never throws |
| TarjetaForm.FetchTiposCombustibleNames | src/views/pages/tarjetas/TarjetaForm.js:23-32 | GET `/tipo-combustibles/get-names` without parameters; any readable reply gives `success` true and the body's `data`, whatever the body's own `success`; any failure gives `success` false and "Error cargando tipos de combustible"; never throws |
| TarjetaForm.FetchTipoVehiculos | src/views/pages/tarjetas/TarjetaForm.js:34-37 | no request is sent; the plain array of the four vehicle types "auto", "camión", "camioneta", "moto", in that order |
| TarjetaForm.SubmitTarjeta | src/views/pages/tarjetas/TarjetaForm.js:39-46 | POST `/tarjetas-combustible` with the payload; a readable reply gives `{ success, data }` from the body; a failure gives `{ success: false, message, data }` from the server reply's `message` and `errors`, and throws a TypeError when there is no reply to read |
| TarjetaForm.UpdateTarjeta | src/views/pages/tarjetas/TarjetaForm.js:48-55 | PUT `/tarjetas-combustible/{id}` with the payload; a readable reply gives `{ success, data }` from the body; a failure gives `{ success: false, message, data }` from the server reply's `message` and `errors`, and throws a TypeError when there is no reply to read |
| TarjetaForm.DeleteTarjeta | src/views/pages/tarjetas/TarjetaForm.js:57-64 | DELETE `/tarjetas-combustible/{id}`; only `{ success, message }` on both paths, the failure's message read from the server reply, which must exist |
| TarjetaForm.FetchTiposCombustible | src/views/pages/tarjetas/TarjetaForm.js:66-75 | no request is sent; `{ success: true, data }` with exactly the two fuel types 1 "Gasolina Regular" and 2 "Diesel" |
| TarjetaForm.SubmitCargaCombustible | src/views/pages/tarjetas/TarjetaForm.js:78-85 | POST `/carga-combustibles` with the payload; a readable reply gives `{ success, data }` from the body; a failure gives only `{ success: false, message }` with the server message, else "Error al registrar la carga", also when there is no reply; only a null or undefined thrown value makes it throw |
| TarjetaForm.SubmitRetiroCombustible | src/views/pages/tarjetas/TarjetaForm.js:86-93 | POST `/retiros-combustible` with the payload; a readable reply gives `{ success, data }` from the body; a failure gives only `{ success: false, message }` with the server message, else "Error al registrar la carga", also when there is no reply; only a null or undefined thrown value makes it throw |
| UsuarioForm.FetchUsuarioById | src/views/pages/usuarios/UsuarioForm.js:1-10 | GET `/users/{id}`; a readable reply gives exactly `{ success, data }` from the body; otherwise `{ success: false, message }` with the server message, else the error's `message`; a null or undefined thrown value makes the handler throw |
| UsuarioForm.SubmitUsuaio | src/views/pages/usuarios/UsuarioForm.js:12-19 | POST `/users` with the payload; a readable reply gives `{ success, data }` from the body; a failure gives `{ success: false, message, data }` from the server reply's `message` and `errors`, and throws a TypeError when there is no reply to read |
| UsuarioForm.UpdateUsuario | src/views/pages/usuarios/UsuarioForm.js:21-28 | PUT `/users/{id}` with the payload; a readable reply gives `{ success, data }` from the body; a failure gives `{ success: false, message, data }` from the server reply's `message` and `errors`, and throws a TypeError when there is no reply to read |
| UsuarioForm.DeleteUsuario | src/views/pages/usuarios/UsuarioForm.js:30-37 | DELETE `/users/{id}`; only `{ success, message }` on both paths, the failure's message read from the server reply, which must exist |
| UsuarioForm.FetchCompanyByUserId | src/views/pages/usuarios/UsuarioForm.js:39-50 | GET `/empresas/by-user/{userId}`; returns `body.data`, or throws an Error whose message is the server message if truthy, else "Error al obtener la empresa para el usuario con ID {userId}."; a reply without a body throws the fallback too |
| UsuarioForm.UpdateCompany | src/views/pages/usuarios/UsuarioForm.js:52-63 | PUT `/empresas/{companyId}` with the company data as body; returns `body.data`, or throws an Error whose message is the server message if truthy, else "Error al actualizar la empresa con ID {companyId}."; a reply without a body throws the fallback too |
| ChoferForm.FetchChoferById | src/views/pages/choferes/ChoferForm.js:1-10 | GET `/choferes/{id}`; a readable reply gives exactly `{ success, data }` from the body; otherwise `{ success: false, message }` with the server message, else the error's `message`; a null or undefined thrown value makes the handler throw |
| ChoferForm.FetchChoferDetails | src/views/pages/choferes/ChoferForm.js:12-19 | GET `/choferes/get-details/{id}`; a readable reply gives exactly `{ success, data }` from the body; otherwise `{ success: false, message }` with the server message, else the error's `message`; a null or undefined thrown value makes the handler throw |
| ChoferForm.SubmitChofer | src/views/pages/choferes/ChoferForm.js:21-28 | POST `/choferes` with the payload; a readable reply gives `{ success, data }` from the body; a failure gives `{ success: false, message, data }` from the server reply's `message` and `errors`, and throws a TypeError when there is no reply to read |
| ChoferForm.UpdateChofer | src/views/pages/choferes/ChoferForm.js:30-37 | PUT `/choferes/{id}` with the payload; a readable reply gives `{ success, data }` from the body; a failure gives `{ success: false, message, data }` from the server reply's `message` and `errors`, and throws a TypeError when there is no reply to read |
| ChoferForm.DeleteChofer | src/views/pages/choferes/ChoferForm.js:39-46 | DELETE `/choferes/{id}`; only `{ success, message }` on both paths, the failure's message read from the server reply, which must exist |
| CombustibleForm.FetchCombustibleById | src/views/pages/combustibles/CombustibleForm.js:1-10 | GET `/tipo-combustibles/{id}`; a readable reply gives exactly `{ success, data }` from the body; otherwise `{ success: false, message }` with the server message, else the error's `message`; a null or undefined thrown value makes the handler throw |
| CombustibleForm.SubmitCombustible | src/views/pages/combustibles/CombustibleForm.js:12-19 | POST `/tipo-combustibles` with the payload; a readable reply gives `{ success, data }` from the body; a failure gives `{ success: false, message, data }` from the server reply's `message` and `errors`, and throws a TypeError when there is no reply to read |
| CombustibleForm.UpdateCombustible | src/views/pages/combustibles/CombustibleForm.js:21-28 | PUT `/tipo-combustibles/{id}` with the payload; a readable reply gives `{ success, data }` from the body; a failure gives `{ success: false, message, data }` from the server reply's `message` and `errors`, and throws a TypeError when there is no reply to read |
| CombustibleForm.DeleteCombustible | src/views/pages/combustibles/CombustibleForm.js:30-37 | DELETE `/tipo-combustibles/{id}`; only `{ success, message }` on both paths, the failure's message read from the server reply, which must exist |
| CategoriesPage.FetchCategories | src/pages/categories/index.js:1-23 | GET `/categories/get-names` with no query parameters; a completed call copies `success`, `message`, `data`, `meta` from the body; a failed one gives `success` false, `data` and `meta` null, and the server message, else the thrown value itself, else "Ocurrió un error al actualizar el evento" |
| CategoriesPage.SubmitCategory | src/pages/categories/index.js:25-42 | POST `/categories` with `{ name: categoryData }`; a completed call copies `success`, `data`, `message`, `meta`; a failed one gives `success` false, the server message else "Error al crear producto", the server's `errors` else null as `data`, `meta` null; a null or undefined thrown value makes the handler throw |
| CategoriesPage.UpdateFailure | src/pages/categories/index.js:58-68 | a null or undefined thrown value makes the catch block throw; otherwise `success` false, the server message, else the first `name` validation error, else the literal, the server's `errors` else null as `data`, and `meta` null |
| CategoriesPage.UpdateFailureWithoutReply | src/pages/categories/index.js:58-68 | a failure that carries no server reply (the TypeError of building the request or reading the reply) gives the literal message and null `data` and `meta` |
| CategoriesPage.NameErrorIsTheMessage | src/pages/categories/index.js:62-65 | without a server message, `errors.name[0]` becomes the message and the `errors` object the `data` |
| CategoriesPage.UpdateCategory | src/pages/categories/index.js:45-69 | a null or undefined `data` fails before any request and returns the failure envelope; otherwise PUT `/categories/{id}` with exactly `{ name }`; a completed call reports `success` true with `data` the body's `data` else the body, message else "Categoría actualizada", `meta` else null; a failed one follows the shared update catch block |
| CategoriesPage.UpdateCategoryIgnoresBodySuccess | src/pages/categories/index.js:52-53 | a completed call reports `success` true even when the body says `success: false` |
| CategoriesPage.UpdateSubcategory | src/pages/categories/index.js:107-131 | PUT `/subcategories/{id}` with exactly `name` and `category_id`; a completed call keeps the body's `success` unless it is null or undefined (then true) and its `data` unless null or undefined (then the body), message else "Subcategoría actualizada correctamente", `meta` else null; failures as in the shared catch block with "Error al actualizar la subcategoría" |
| CategoriesPage.SubcategoryUpdated | src/pages/categories/index.js:114-119 | exactly the keys `success`, `data`, `message`, `meta`, in order; `success` and `data` are the body's own unless null or undefined (then true, and the body itself), `message` the body's if truthy, else "Subcategoría actualizada correctamente", `meta` the body's if truthy, else null |
| CategoriesPage.SubcategoryKeepsExplicitFailure | src/pages/categories/index.js:52-53 | for the same completed reply with `success: false`, updateSubcategory reports false and updateCategory true (`??` against a constant) |
| CategoriesPage.DeleteCategory | src/pages/categories/index.js:71-85 | DELETE `/categories/{id}`; a completed call copies `success`, `message`, `data`; a failed one has only `success` false and the server message, else "Error al eliminar subcategoría" (no `data` key) |
| CategoriesPage.SubmitSubcategory | src/pages/categories/index.js:88-105 | POST `/subcategories` with the subcategory data; a completed call copies `success`, `data`, `message`, `meta`; a failed one gives `success` false, the server message else "Error al crear subcategoría", the server's `errors` else null as `data`, `meta` null; a null or undefined thrown value makes the handler throw |
| CategoriesPage.DeleteSubcategory | src/pages/categories/index.js:133-147 | DELETE `/subcategories/{id}`; a completed call copies `success`, `message`, `data`; a failed one has only `success` false and the server message, else "Error al eliminar subcategoría" (no `data` key) |
| ProductForm.FetchNextProductCode | src/views/pages/products/ProductForm.js:1-18 | GET `/products/get-next-product-code`; a completed call copies `success`, `data`, `message`, `meta`; a failed one gives `success` false, the server message else "Error al obtener código", `data` and `meta` null; never throws |
| ProductForm.SubmitProduct | src/views/pages/products/ProductForm.js:20-37 | POST `/products` with the product data; a completed call copies `success`, `data`, `message`, `meta`; a failed one gives `success` false, the server message else "Error al crear producto", the server's `errors` else null as `data`, `meta` null; a null or undefined thrown value makes the handler throw |
| ProductForm.TitleValues | src/views/pages/products/ProductForm.js:44-47 | one `{ title, value }` option per item, in order, from `name` and `id`; exactly when no item is null or undefined, else a TypeError |
| ProductForm.Options | src/views/pages/products/ProductForm.js:39-66 | the reply's `data.data` list mapped to options, defined exactly when the body can be read, `data` is an array and every item can be read; otherwise a TypeError |
| ProductForm.FetchCategories | src/views/pages/products/ProductForm.js:39-55 | GET `/categories/get-names`; a well-formed reply gives exactly `{ success: true, data }` with the options; any failure, including a malformed reply, exactly `{ success: false, message: "Error al cargar categorías" }` with no `data`; never throws |
| ProductForm.CategoryOptionsInOrder | src/views/pages/products/ProductForm.js:44-47 | for a well-formed list each option `i` has the title and value of category `i`, and there are as many options as categories |
| ProductForm.SubcategoriesFailure | src/views/pages/products/ProductForm.js:68-85 | a null or undefined thrown value makes the catch block throw; otherwise `{ success: false, message, data: null }` where a reply with status 404 gives "Categoría no encontrada" even if the server sent a message, another reply its truthy message, and anything else "Error al cargar subcategorías" |
| ProductForm.FetchSubcategories | src/views/pages/products/ProductForm.js:57-86 | GET `/subcategories/by-category/{categoryId}`; a well-formed reply gives `{ success: true, data }` with the options; a malformed reply or a failed call goes through the catch block |
| ProductForm.MalformedSubcategoriesReply | src/views/pages/products/ProductForm.js:69-84 | a TypeError raised on a malformed reply carries no response and ends in "Error al cargar subcategorías" with null `data` |
| ProductForm.NormalizedProduct | src/views/pages/products/ProductForm.js:97-116 | exactly the eighteen keys, in the order the code lists them |
| ProductForm.NormalizedCopies | src/views/pages/products/ProductForm.js:97-116 | the ten plain fields and the `category` and `subcategory` objects are copied unchanged |
| ProductForm.NormalizedCopy | src/views/pages/products/ProductForm.js:97-116 | any one copied field of the normalised product is the product's own field |
| ProductForm.NormalizedColor | src/views/pages/products/ProductForm.js:108 | `color` is the product's colour list when truthy, else `['']` |
| ProductForm.NormalizedImages | src/views/pages/products/ProductForm.js:115 | `images` is the product's image list when truthy, else `[]` |
| ProductForm.NormalizedCategoryId | src/views/pages/products/ProductForm.js:109 | `category_id` is the product's own when truthy, else the truthy `category.id`, else null |
| ProductForm.NormalizedSubcategoryId | src/views/pages/products/ProductForm.js:110 | `subcategory_id` is the product's own when truthy, else the truthy `subcategory.id`, else null |
| ProductForm.NormalizedFlags | src/views/pages/products/ProductForm.js:111-112 | `visible` and `destacated` are booleans, true exactly when the product's field is truthy |
| ProductForm.ProductFailure | src/views/pages/products/ProductForm.js:121-127 | a null or undefined thrown value makes the catch block throw; otherwise `{ success: false, message, data: null }` with the server message, else the error's `message`, else "Error al cargar producto" |
| ProductForm.ProductLoaded | src/views/pages/products/ProductForm.js:95-118 | exactly `success` (true), `data` (the given product) and `message` (the body's), in that order |
| ProductForm.ProductReply | src/views/pages/products/ProductForm.js:90-119 | a null response throws a TypeError; a body whose `success` and `data` are truthy gives `{ success: true, data, message }` with the normalised product; any other body, a missing one included, throws an Error carrying the body's message or "Estructura de respuesta inválida" |
| ProductForm.ShapeErrorReported | src/views/pages/products/ProductForm.js:119-126 | that Error ends as `{ success: false, message, data: null }` with the body's string message, or "Estructura de respuesta inválida" when the body has no truthy message |
| ProductForm.FetchProductById | src/views/pages/products/ProductForm.js:88-128 | GET `/products/{id}`; the normalised product with `success` true exactly when the body holds a product; any other body goes through the catch block with the shape Error; a failed call goes through the catch block with what it threw |
| ProductForm.UpdateProduct | src/views/pages/products/ProductForm.js:130-149 | PUT `/products/{id}` with the data as body; a completed call copies `success`, `message`, `data`; a failed one gives `success` false, `data` null and the server message, else the error's `message`, else "Error al actualizar el producto" |
| ProductForm.DeleteProduct | src/views/pages/products/ProductForm.js:151-165 | DELETE `/products/{id}`; a completed call copies `success`, `message`, `data`; a failed one has only `success` false and the server message, else "Error al eliminar el producto" (no `data` key) |
| CargaForm.FetchCargaById | src/views/pages/cargas/CargaForm.js:1-10 | GET `/carga-combustibles/{id}`; a readable reply gives exactly `{ success, data }` from the body; otherwise `{ success: false, message }` with the server message, else the error's `message`; a null or undefined thrown value makes the handler throw |
| CargaForm.FetchTiposCombustibleNames | src/views/pages/cargas/CargaForm.js:12-21 | GET `/tipo-combustibles/get-names` without parameters; any readable reply gives `success` true and the body's `data`, whatever the body's own `success`; any failure gives `success` false and "Error cargando tipos de combustible"; never throws |
| CargaForm.SubmitTarjeta | src/views/pages/cargas/CargaForm.js:23-30 | POST `/tarjetas-combustible` with the payload; a readable reply gives `{ success, data }` from the body; a failure gives `{ success: false, message, data }` from the server reply's `message` and `errors`, and throws a TypeError when there is no reply to read |
| CargaForm.UpdateTarjeta | src/views/pages/cargas/CargaForm.js:32-39 | PUT `/tarjetas-combustible/{id}` with the payload; a readable reply gives `{ success, data }` from the body; a failure gives `{ success: false, message, data }` from the server reply's `message` and `errors`, and throws a TypeError when there is no reply to read |
| CargaForm.DestroyCharge | src/views/pages/cargas/CargaForm.js:41-66 | DELETE `/carga-combustibles/{id}` with exactly `{ deletion_reason }` as body; a completed call copies `success`, `message`, `data`, `meta` from the body; a failed one gives `success` false, `data` and `meta` null, and the server message, else the thrown value itself, else "Ocurrió un error al eliminar la carga de combustible." |
| CargaForm.FetchTiposCombustible | src/views/pages/cargas/CargaForm.js:68-77 | no request is sent; `{ success: true, data }` with exactly the two fuel types 1 "Gasolina Regular" and 2 "Diesel" |
| CargaForm.ValidationFailure | src/views/pages/cargas/CargaForm.js:99-106 | a null or undefined thrown value makes the destructuring catch throw; otherwise exactly `{ success: false, message, errors }` with the server message else "Error al procesar la carga", and the server's truthy `errors` else null |
| CargaForm.ValidationReply | src/views/pages/cargas/CargaForm.js:94-97 | a readable reply gives exactly `{ success, message, data }` copied from the body; a reply without a body throws a TypeError |
| CargaForm.ValidationOutcome | src/views/pages/cargas/CargaForm.js:93-106 | a readable reply gives `{ success, message, data }` from the body; a reply without a body gives `success` false, "Error al procesar la carga" and null `errors`, because the TypeError has no `response`; a failure gives what the destructuring catch block makes of the thrown value |
| CargaForm.ValidarCarga | src/views/pages/cargas/CargaForm.js:79-107 | null or undefined options throw with no request; otherwise POST `/carga-combustibles/{id}/validar` with `valid` and `validado_por_id`, plus `motivo_rechazo` (default null) exactly when `valid` is falsy; the body's `success`, `message`, `data` on a readable reply; an unreadable reply gives `{ success: false, message: "Error al procesar la carga", errors: null }`; a failed call the catch block |
| CargaForm.RejectionReasonDefaultsToNull | src/views/pages/cargas/CargaForm.js:79-92 | a rejection with no `motivoRechazo` sends `motivo_rechazo: null` |
| CargaForm.ReasonSentIffRejected | src/views/pages/cargas/CargaForm.js:90-92 | `motivo_rechazo` is among the payload's keys exactly when `valid` is falsy |

## Left out

- The axios transport is replaced by the `reply: Outcome` parameter of each function:
  - the instance, its base URL and the interceptor registration;
  - the `responseType: 'blob'` option;
  - how axios serialises the query.
- Headers other than `Authorization` are not modelled. Only `Api.Session.Authorize` models the request interceptor.
- The 401 side effect of the response interceptor is modelled in `Api.Session.RejectResponse`. The session methods apply it to their own failures. The resource modules pass the thrown value through unchanged, and their storage effect is not repeated in them.
- `window.location.href = '/login'` is recorded as the `redirect` field of `Api.Session`. No navigation happens.
- Asynchrony and concurrency are not modelled. A call yields one outcome, and each call is handled on its own.
- I/O that the model takes as parameters:
  - `JSON.stringify` and `JSON.parse`;
  - reading a blob as text (`new Response(blob).text()`).

  Passing them as parameters means the model says nothing about their contents.
- Envelopes.CompletedPdfExportResolves: the parse error of `Js.Parsed` may be any value, while `JSON.parse` always throws a SyntaxError object. The lemma therefore takes a non-null parse error as a precondition.
- Object key order is plain insertion order. JavaScript lists integer-like keys first, in ascending order; no object the code builds has such keys out of order.
- Floating-point numbers are not modelled: numbers are integers, plus NaN for `parseInt`.
- `toUpperCase` is modelled on the ASCII and Latin-1 small letters only, `ÿ` and `µ` included; letters beyond Latin-1 keep their case, and `ß` keeps its case where JavaScript gives `SS`.
- Js.CharAt0: strings are sequences of code points, while `charAt(0)` returns one UTF-16 code unit. For a name whose first letter lies outside the Basic Multilingual Plane, the model gives the whole letter where JavaScript gives half of a surrogate pair.
- Non-integer array indices are not modelled. So are the non-array arguments to `setImages` and `addImages`, whose calls would throw differently.
- All TypeErrors except `messages.join is not a function` are one value, `Js.TYPE_ERROR`. The code never inspects the message of any other TypeError, except where it is reported as `e.message`; there the model's single text stands for the engine's wording.
- Pinia's `defineStore` and Vue's `ref` are plain class fields.
- The router's construction is library plumbing: `createRouter`, `scrollBehavior` and `recursiveLayouts`.
- The static menu in `src/navigation/vertical/index.js` has no logic and is not part of this model.
- The `console.log` and `console.error` calls have no effect on results.
- `ImageStore.Store.RemoveImage` does not model the deleted server file, only the outcome of the request.
- `AuthStore.Store.LoadUser` also needs the session, because `getUserProfile` goes through the same client. Its 401 effect is stated on the session.
