# apicsrf in Dafny

A model of the CSRF middleware of go-apibox/apicsrf (`csrf.go`). The middleware
sits in front of the API handlers. For each request it decides whether the
action needs a CSRF token. If it does, it reads the expected token from a named
value of the caller's cookie session and compares it with the token the request
presents. The presented token comes from the configured header, or else from the
`api_csrf_token` parameter.

The project has five modules:

- `Wrappers` (wrappers.dfy): `Option`, which stands for nil pointers and unset configuration entries.
- `CsrfErrors` (csrf_errors.dfy): the three error kinds and their `iota` codes.
- `StoreKey` (store_key.dfy): how the session store key `name.key` is parsed. This is `strings.SplitN(key, ".", 2)`, with the fallback `default`/`csrf_token`.
- `Gate` (gate.dfy): `ServeHTTP` as the pure function `Decide(state, request)`. The function returns one of five outcomes: `Next`, `InternalError`, or `Reject` with one of the three error kinds. Lemmas cover each outcome.
- `Lifecycle` (lifecycle.dfy): the `CSRF` object. `NewCSRF` is its constructor, and `init`, `Enable` and `Disable` are its methods. `init` assigns the settings fields behind the `inited` guard. `Enable` clears `disabled` and then calls `init`. `Disable` only sets `disabled`, with no guard. `App` stands for the application: its configuration, the store it hands out, and how its matchers behave.

`Decide(cs.State(), r)` is what `cs.ServeHTTP` does for request `r`.

Behaviour of the code worth noting, as the model states it:

- The request context is built before the session-name test. So a context failure gives the internal error even when the session name is empty (csrf.go:83-93).
- Initialisation cannot fail. A store that cannot be acquired is only logged, and `store` stays nil (csrf.go:64-69).
- `Enable` on an object that is already initialised does not re-read the configuration (csrf.go:41-44, 138-142).
- The allow/deny semantics of the action matcher are not in the code shown. They stay abstract (`MatchRule`).

## Model

| member | source | states |
|---|---|---|
| CsrfErrors.Code | error_define.go:10-14 | the codes are the iota values 0, 1, 2, each kind has its own code, and all are below 3 |
| CsrfErrors.FromCode | error_define.go:10-14 | exactly the codes 0..2 name a kind, and the kind found has that code |
| CsrfErrors.CodeRoundTrip | error_define.go:10-14 | a kind is recovered from its code |
| StoreKey.IndexOf | csrf.go:53 | gives no position exactly when the separator is absent; otherwise the position holds the separator and no earlier one does |
| StoreKey.SplitN2 | csrf.go:53 | two parts exactly when the separator occurs; then the first part has no separator and part + sep + part rebuilds the input; otherwise one part, the input itself |
| StoreKey.ParseStoreKey | csrf.go:53-58 | a dotted key is split so that name + "." + key rebuilds it and the name holds no dot; a key without a dot gives ("default", "csrf_token") |
| StoreKey.ParseJoined | csrf.go:53-58 | inverse of joining: any dot-free name, a dot, and any rest (further dots or empty) parse back to (name, rest) |
| StoreKey.DefaultStoreKeyParses | csrf.go:49-58 | the default key "default.csrf_token" parses to ("default", "csrf_token") |
| StoreKey.LaterDotsStayInKey | csrf.go:53-58 | only the first dot splits: "a.b.c" gives ("a", "b.c") |
| StoreKey.TrailingDotEmptyKey | csrf.go:53-58 | "name." gives an empty session key |
| StoreKey.LeadingDotEmptyName | csrf.go:53-58 | "." + rest gives an empty session name |
| Gate.PresentedToken | csrf.go:125-128 | a non-empty header is the token; an empty header falls back to api_csrf_token; the token is empty exactly when both are |
| Gate.Decide | csrf.go:77-136 | passes exactly when Permitted (disabled, or context built and either not enforced or the stored value equals the presented token); a rejection happens only when the check is enforced; the internal error happens exactly when the gate is on and the context failed |
| Gate.DisabledPassesAll | csrf.go:78-81 | a disabled gate passes every request |
| Gate.ContextFailureIsInternalError | csrf.go:83-87 | an enabled gate whose context fails answers with the internal error |
| Gate.EmptySessionNamePasses | csrf.go:89-93 | an empty session name passes, even with no matcher and no store |
| Gate.UnmatchedActionPasses | csrf.go:95-100 | an action the matcher rejects passes, even with no store |
| Gate.MissingStoreRejects | csrf.go:102-106 | an enforced request with no store is rejected with SessionInitFailed |
| Gate.MissingStoreIgnoresRequestContent | csrf.go:102-106 | with no store, headers, parameters and sessions do not affect the outcome, which is never a token or session error |
| Gate.SessionFailureRejects | csrf.go:107-111 | an unresolvable session is rejected with SessionGetFailed |
| Gate.MissingOrNonStringTokenRejects | csrf.go:112-121 | no value under the session key, or a non-string value, is rejected with CSRFTokenError |
| Gate.ResolvedSessionTokenCheck | csrf.go:112-135 | once the session resolves, the outcome is Next if the token is accepted and CSRFTokenError otherwise |
| Gate.HeaderShadowsParameter | csrf.go:123-128 | with a non-empty header, replacing the parameters changes no outcome |
| Gate.WrongHeaderRejectsDespiteParameter | csrf.go:123-132 | for any session map holding the stored token, a wrong non-empty header is rejected even when the parameter holds that token |
| Gate.MatchingTokenPasses | csrf.go:123-135 | for any session map holding the stored token, a non-empty header equal to it passes; so does an empty header with the parameter equal to it |
| Gate.EmptyStoredTokenAcceptsBareRequest | csrf.go:125-135 | a stored "" is satisfied by a request with no header and no parameter |
| Gate.PassesOnlyByExitOrExactMatch | csrf.go:77-136 | Next only when disabled, the session name is empty, the action is exempt, or the session holds exactly Str(presented token) |
| Lifecycle.CSRF.State | csrf.go:12-22 | the fields the decision reads; a valid object always gives a consistent state |
| Lifecycle.CSRF.constructor | csrf.go:24-39 | disabled comes from apicsrf.disabled (default false); a disabled object stays uninitialised with zero settings; otherwise it is initialised from the configuration |
| Lifecycle.CSRF.Init | csrf.go:41-75 | the first call stores the header, the parsed store key, the matcher built from the lists (defaults ["*"] and []) and the acquired store (nil when acquisition failed), and sets inited; any later call changes no field |
| Lifecycle.CSRF.Enable | csrf.go:138-142 | afterwards the object is enabled and initialised; an object that was already initialised keeps all its settings even if the configuration changed |
| Lifecycle.CSRF.Disable | csrf.go:144-147 | sets disabled and changes no other field |
| Lifecycle.ReenableKeepsStaleSettings | csrf.go:138-147 | after the configuration is replaced, Disable then Enable leaves the session name parsed from the first configuration |
| Lifecycle.DefaultConfiguration | csrf.go:48-58 | empty configuration gives header X-CSRF-TOKEN, session default / csrf_token, lists ["*"] and [] |
| Lifecycle.LeadingDotStoreKeyPassesAll | csrf.go:53-93 | store key "." + rest leaves the session name empty, and every request with a context passes |
| Lifecycle.DisabledMiddlewarePassesAll | csrf.go:78-81 | a valid disabled object passes every request, initialised or not |

## Left out

- HTTP plumbing (`http.ResponseWriter`, `http.Error`, `api.WriteResponse`, `next(w, r)`) becomes the `Outcome` value.
- `api.NewContext` becomes the `contextOk` flag of the request. Its error text is not modelled.
- `utils.Matcher` is not part of this model. Its `Match` is the abstract `MatchRule` of the white and black lists, supplied by `App`. No wildcard or precedence rule is assumed.
- `session.CookieStore`, cookies and `store.Get` become the request's `session` lookup by session name. The store itself is an opaque handle.
- `r.Header.Get` and `c.Input.Get` become functions from name to value, with "" for absent. Header-name canonicalisation is inside that function.
- `app.SessionStore()` becomes `App.sessionStore`. The model assumes a failed acquisition returns a nil store.
- Logging (csrf.go:66) and `RegisterGroupErrors` (csrf.go:25) have no checkable effect.
- The localized message catalog (error_define.go:16-53) is not modelled. Only the three kinds and their codes are.
- Concurrency is not modelled. The code has no synchronisation, so `CSRF` is a single-threaded object.
- Go strings are bytes; the model splits `seq<char>`. This is the same for the ASCII separator `.`.
- Gate.Decide: requires a matcher whenever the session name is non-empty. The Go code would call `Match` on a nil matcher in such a state. No reachable object has such a state: `CSRF.State` ensures `Consistent` under `Valid`.
