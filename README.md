# Session core of authlab-react, modelled in Dafny

authlab-react is a client-side authentication demo. Under its pages sits a small session core, and this project models that core:

- **Session state container** (`src/context/AuthContext.jsx`). A reducer over four actions acts on `{user, token, isAuthenticated, loading}`. A provider wraps it. The provider's `login`, `logout` and `setLoading` dispatch actions. `login` and `logout` also keep two keys of the browser's local storage: `authToken` and `user`. A start-up effect restores a persisted session from those keys.
- **Mock session client** (`src/api/auth.js`). It has four operations:
  - `register` maps the record store's answer to a result envelope.
  - `login` finds the first record whose email and password match, then builds the token `mock_token_<id>_<now>`.
  - `getProfile` reads the id back from the stored token with `split("_")[2]` and looks it up.
  - `logout` clears the two keys.

  Two interceptors run on every request. One attaches a bearer header when a token is stored. The other clears the keys on a 401 response.
- **Route guard** (`src/routes/ProtectedRoute.jsx`). A protected route shows a loader while the session is loading. Otherwise it redirects an unauthenticated visitor to `/login`, or renders its children.

Modules, one file each:

- `Wrappers` (`wrappers.dfy`): `Option`, which stands in for `null`.
- `UserJson` (`user_json.dfy`): the identity `{id, name, email}` and its JSON text.
- `LocalStorage` (`local_storage.dfy`): the shared store, a class over a `map<string, string>`, and the two key names.
- `AuthContext` (`auth_context.dfy`): the reducer `Reduce`, the start-up restore as the function `RestoreEffect`, and the class `AuthProvider`. Its methods are proved against `Reduce` and `RestoreEffect`.
- `AuthApi` (`auth_api.dfy`): pure result functions for each operation, and methods that apply the response interceptor to the shared store.
- `ProtectedRoute` (`protected_route.dfy`): the guard `Guard`.

The outside world becomes parameters:

- The record store's answer to a request is a `Response`: the data, or an `HttpError` with an optional status code.
- `Date.now()` is a `nat`.
- The navigation to `/login` that a 401 triggers is returned as a value.

Some details follow the code exactly:

- JavaScript truthiness: `if (token && user)` and `if (token)` treat an empty string like a missing key. So a remembered login restores only when its token is non-empty. Tokens that `login` builds are never empty.
- Corrupt persisted identity: when the stored identity does not parse, the restore clears both keys and dispatches nothing. The state therefore keeps `loading == true`, and protected routes show the loader until a later login or logout ends loading (`ProtectedRoute.CorruptSessionKeepsLoader`). It does not fall through to the logged-out branch, and the model follows the code.
- The `null` identity: a stored identity of `null` parses, so the session is restored as authenticated with no user (`AuthContext.RestoreNullUser`). The invariant "authenticated iff a user and a token are held" is proved only for payloads that carry both (`AuthContext.InitialRunConsistent`).
- Auto-login after registration: the auto-login after registration (`src/pages/Register.jsx:56`) calls `login` without `rememberMe`, which defaults to `false`, as in `AuthContext.AuthProvider.Login`'s declaration. So nothing is persisted.

## Model

| member | source | states |
|---|---|---|
| `UserJson.ParseStringify` | src/context/AuthContext.jsx:70 | parsing the text `JSON.stringify` wrote for an identity gives that identity back |
| `UserJson.StringifyParse` | src/context/AuthContext.jsx:95 | any text the model's `Parse` maps to an identity is exactly that identity's stringified text, so the persisted form is canonical |
| `UserJson.StringifyNonEmpty` | src/context/AuthContext.jsx:68 | a stringified identity is never the empty string, so the restore's truthiness test accepts it |
| `UserJson.Stringify` | src/context/AuthContext.jsx:95 | `JSON.stringify` of an identity is object text, beginning with `{` and ending with `}`; what it writes is read back by `ParseStringify` |
| `UserJson.Parse` | src/context/AuthContext.jsx:70 | `JSON.parse` yields `null` exactly for the text `null` and throws on the empty text; an identity comes back from stringified text (`ParseStringify`), and only from such text (`StringifyParse`) |
| `LocalStorage.ClearedSpec` | src/api/auth.js:152-154 | clearing the session removes `authToken` and `user`, keeps every other key and value, and clearing twice is the same as clearing once |
| `LocalStorage.Storage.SetItem` | src/context/AuthContext.jsx:94-95 | `setItem` maps the key to the value and leaves every other entry as it was |
| `LocalStorage.Storage.GetItem` | src/context/AuthContext.jsx:65-66 | `getItem` returns the stored value when the key is present and `null` exactly when it is absent |
| `LocalStorage.Storage.RemoveItem` | src/context/AuthContext.jsx:102-103 | `removeItem` drops the key (a missing key is fine) and leaves every other entry as it was |
| `LocalStorage.Storage.RemoveSession` | src/context/AuthContext.jsx:77-78 | the two `removeItem` calls together leave the store with both session keys removed and nothing else changed |
| `AuthContext.Reduce` | src/context/AuthContext.jsx:20-54 | a single action keeps the invariant "authenticated iff user and token are both held" when its login or restore payload carries both |
| `AuthContext.LoginSuccessAuthenticates` | src/context/AuthContext.jsx:22-29 | `LOGIN_SUCCESS` takes `user` and `token` from the payload and sets authenticated and not loading, whatever the prior state |
| `AuthContext.LogoutResets` | src/context/AuthContext.jsx:30-37 | `LOGOUT` yields no user, no token, unauthenticated and not loading from every state, and a second `LOGOUT` changes nothing |
| `AuthContext.SetLoadingOnlyLoading` | src/context/AuthContext.jsx:38-42 | `SET_LOADING` sets `loading` to the payload and keeps `user`, `token` and `isAuthenticated` |
| `AuthContext.RestoreIsLogin` | src/context/AuthContext.jsx:43-50 | `RESTORE_SESSION` yields exactly the state that `LOGIN_SUCCESS` with the same payload yields |
| `AuthContext.OtherUnchanged` | src/context/AuthContext.jsx:51-52 | an action of any other type returns the state unchanged |
| `AuthContext.RunConsistent` | src/context/AuthContext.jsx:20-54 | any sequence of dispatches whose login and restore payloads carry a user and a token keeps the invariant from a consistent start |
| `AuthContext.InitialRunConsistent` | src/context/AuthContext.jsx:4-9 | starting from the initial state, every such sequence of dispatches ends in a consistent state |
| `AuthContext.RestoreFound` | src/context/AuthContext.jsx:68-74 | when both keys hold non-empty text and the identity parses, the restore yields authenticated, not loading, with the stored token and identity, and leaves the store alone |
| `AuthContext.RestoreNullUser` | src/context/AuthContext.jsx:68-74 | a stored identity of `null` is restored as authenticated with no user, which breaks the invariant |
| `AuthContext.RestoreAbsent` | src/context/AuthContext.jsx:80-82 | when either key is missing or empty, the restore only ends loading and leaves the store alone; from the initial state the result is unauthenticated and not loading |
| `AuthContext.RestoreCorrupt` | src/context/AuthContext.jsx:75-79 | when the identity does not parse, both keys are removed and the state is unchanged, so the initial state keeps `loading` true |
| `AuthContext.RestoreEffect` | src/context/AuthContext.jsx:64-83 | the restore either leaves the store alone or removes exactly the two session keys, and in the latter case the state is unchanged; every outcome either ends loading or leaves the state as it was. The individual outcomes are stated by `RestoreFound`, `RestoreNullUser`, `RestoreAbsent` and `RestoreCorrupt` |
| `AuthContext.Remember` | src/context/AuthContext.jsx:93-96 | a remembered login stores the token under `authToken` and the stringified identity under `user`, adds no other key and keeps every other value |
| `AuthContext.RememberedLoginRestores` | src/context/AuthContext.jsx:64-97 | after a remembered login with a non-empty token, the next start-up restores exactly the state that the login produced, and the store is unchanged |
| `AuthContext.AuthProvider.constructor` | src/context/AuthContext.jsx:61 | the provider starts from the initial state over the shared store |
| `AuthContext.AuthProvider.Dispatch` | src/context/AuthContext.jsx:61 | dispatching replaces the state by the reducer's result |
| `AuthContext.AuthProvider.Restore` | src/context/AuthContext.jsx:64-83 | the start-up effect leaves the state and the store as `RestoreEffect` says |
| `AuthContext.AuthProvider.Login` | src/context/AuthContext.jsx:86-97 | login dispatches `LOGIN_SUCCESS`; it writes both keys (token and stringified identity) when `rememberMe` holds, and otherwise leaves the store untouched |
| `AuthContext.AuthProvider.Logout` | src/context/AuthContext.jsx:100-104 | logout dispatches `LOGOUT` and always removes both keys, keeping all other keys |
| `AuthContext.AuthProvider.SetLoading` | src/context/AuthContext.jsx:107-109 | `setLoading` dispatches `SET_LOADING` and leaves the store alone |
| `AuthContext.RememberThenReload` | src/context/AuthContext.jsx:64-97 | a remembered login followed by a fresh provider over the same store ends authenticated with the same identity and token |
| `AuthApi.Find` | src/api/auth.js:83-86 | `find` returns the position of the first element that satisfies the test, or nothing exactly when no element does |
| `AuthApi.Decimal` | src/api/auth.js:90 | the timestamp is printed as a non-empty string of decimal digits, so it holds no `_` |
| `AuthApi.DecimalRoundTrip` | src/api/auth.js:90 | the printed timestamp denotes the `Date.now()` value it was made from |
| `AuthApi.MakeToken` | src/api/auth.js:90 | a token is `mock_token_`, then the id, then more text (the `_` and the timestamp); its full split is stated by `TokenParts` |
| `AuthApi.ExtractUserId` | src/api/auth.js:124 | the id read from a token never holds `_`; what it reads from a login token is stated by `TokenRoundTrip` and `ExtractedIdIsFirstSegment` |
| `AuthApi.TokenThirdPart` | src/api/auth.js:124 | for every id, the third `_`-separated part of its login token is the id's own first `_`-separated part |
| `AuthApi.Split` | src/api/auth.js:124 | `split` yields at least one part and no part contains the separator |
| `AuthApi.SplitJoin` | src/api/auth.js:124 | splitting the parts joined by the separator gives the parts back when none holds the separator |
| `AuthApi.JoinSplit` | src/api/auth.js:124 | joining the parts of a split with the separator gives the original string back |
| `AuthApi.TokenParts` | src/api/auth.js:90 | for an id without `_`, a token splits into `mock`, `token`, the id and the timestamp, and is never empty |
| `AuthApi.TokenRoundTrip` | src/api/auth.js:124 | for an id without `_`, the profile lookup reads back from a login token exactly the id that went in, and the last part denotes the login time |
| `AuthApi.ExtractedIdIsFirstSegment` | src/api/auth.js:124 | for every id, `split("_")[2]` of its login token is the id up to its first `_`: the whole id when it holds no `_`, when it does, only the strict prefix that ends just before its first `_` |
| `AuthApi.RegisterResult` | src/api/auth.js:44-74 | register succeeds exactly when the store answers. Success echoes the created record's id, name and email. A 400 gives "Email already exists" and every other error "Registration error. Please try again" |
| `AuthApi.Public` | src/api/auth.js:95-99 | the identity handed out carries the record's id, name and email |
| `AuthApi.PublicIgnoresPassword` | src/api/auth.js:95-99 | the identity handed out is the same whatever password the record holds, so no password reaches a caller |
| `AuthApi.LoginResult` | src/api/auth.js:77-114 | login succeeds iff some record matches email and password exactly. It then returns the first such record without its password, with the token `mock_token_<id>_<now>`. No match gives "Invalid email or password" and no token; a transport error gives "Login error. Please try again" |
| `AuthApi.ProfileResult` | src/api/auth.js:117-148 | a transport error gives "Error fetching user information". Otherwise the profile succeeds iff a non-empty token is stored, it has a third part, and some record has that id; it then returns the first such record without its password. Every other case gives "User not found" |
| `AuthApi.ProfileAfterLogin` | src/api/auth.js:77-148 | when a record is the first to hold the credentials, its id has no `_` and no earlier record shares that id, the login succeeds and fetching the profile with that login's token returns that record's identity |
| `AuthApi.OnResponseError` | src/api/auth.js:29-39 | a 401 from any request removes both keys and navigates to `/login`; any other error changes nothing |
| `AuthApi.AfterResponse` | src/api/auth.js:32-34 | after the response interceptor the store has only keys it had before, with the same values; a success leaves it alone, and a 401 leaves neither session key |
| `AuthApi.AttachToken` | src/api/auth.js:15-26 | a request gets `Authorization: Bearer <token>` exactly when a non-empty token is stored; otherwise its headers are unchanged |
| `AuthApi.Register` | src/api/auth.js:44-74 | the register call returns `RegisterResult` and the store changes only by the 401 interceptor |
| `AuthApi.Login` | src/api/auth.js:77-114 | the login call returns `LoginResult` and the store changes only by the 401 interceptor |
| `AuthApi.GetProfile` | src/api/auth.js:117-148 | the profile call returns `ProfileResult` for the token stored before the call, and the store changes only by the 401 interceptor |
| `AuthApi.Logout` | src/api/auth.js:152-159 | logout always succeeds with "Logout successful"; afterwards both keys are absent and every other key is kept |
| `ProtectedRoute.Guard` | src/routes/ProtectedRoute.jsx:6-26 | loader iff loading; redirect iff not loading and not authenticated, to `/login` with the current location as `from` and `replace`; the children iff not loading and authenticated |
| `ProtectedRoute.OutcomesPartition` | src/routes/ProtectedRoute.jsx:11-25 | exactly one of the three outcomes occurs for every snapshot |
| `ProtectedRoute.InitialShowsLoader` | src/routes/ProtectedRoute.jsx:11-17 | before the start-up restore runs, protected routes show the loader |
| `ProtectedRoute.RememberedSessionRenders` | src/routes/ProtectedRoute.jsx:25 | after a remembered login and a reload, protected routes render their children |
| `ProtectedRoute.NoSessionRedirects` | src/routes/ProtectedRoute.jsx:20-22 | with no stored token, the restored session redirects protected routes to `/login` |
| `ProtectedRoute.CorruptSessionKeepsLoader` | src/routes/ProtectedRoute.jsx:11-17 | with an unparseable stored identity, protected routes keep showing the loader after the restore |

## Left out

- React machinery is not modelled: `useReducer`/`useEffect` scheduling, the context provider and `useAuth`'s guard against use outside a provider. Dispatch is a direct state update, and the start-up effect is a method that the caller runs once.
- Rendering is left out: the loader's markup and text, the pages and the form components.
- The form validation (a Yup schema) is left out; its email-format check is library code.
- Axios is not modelled: the base URL, the `Content-Type` header and the request bodies. The store's answer to a request is a parameter.
- The mock record store is left out. That includes how it assigns ids and whether it rejects duplicates. `register`'s name, email and password go only to the store, so they do not appear in the model.
- `AuthApi.Register`, `AuthApi.Login`, `AuthApi.GetProfile`: the `/login` navigation that the response interceptor returns is discarded. `window.location.href` is not modelled.
- `console.error` in the restore is left out.
- `UserJson.Parse`: of all JSON text, it reads only the canonical identity text and `null`. JSON that `JSON.parse` accepts but that is neither (whitespace, other field orders, numbers, other values) counts as a parse failure here. `Stringify` does not escape control characters.
- `AuthApi.Find`: ids are strings only. The source's loose `==` between a numeric id and the string read from the token is not modelled.
- `AuthContext.AuthProvider.Login`: `user` and `token` are always present. A `null` or `undefined` argument, which `setItem` would store as text, is not modelled. The reducer itself accepts absent payloads.
- Concurrency between in-flight requests is left out: the model is sequential.
