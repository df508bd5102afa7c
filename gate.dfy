/**
 * The per-request decision of the middleware (`ServeHTTP`, csrf.go lines 77-136):
 * a chain of early exits ending in exactly one outcome. The HTTP plumbing is
 * reduced to the outcome: `Next` is the call of the next handler, `Reject(kind)`
 * the error response of that kind, `InternalError` the 500 answer written when
 * the request context cannot be built.
 */
module Gate {
  import opened Wrappers
  import opened CsrfErrors

  /** Request parameter that carries the token when the header is empty. */
  const TokenParam := "api_csrf_token"

  /** A value held in a session: the Go `interface{}` seen only through `token.(string)`. */
  datatype Value = Str(s: string) | Other

  type SessionValues = map<string, Value>

  /**
   * The behaviour of `utils.Matcher.Match` as a function of the white list,
   * the black list and the action. The matcher's own rules are not part of
   * this model.
   */
  type MatchRule = (seq<string>, seq<string>, string) -> bool

  /** An action matcher built from a white list and a black list. */
  datatype Matcher = Matcher(whitelist: seq<string>, blacklist: seq<string>, rule: MatchRule) {
    /** Whether the action requires the CSRF check. */
    predicate Match(action: string) {
      rule(whitelist, blacklist, action)
    }
  }

  /** Handle of the cookie session store the application handed out. */
  datatype CookieStore = CookieStore(id: nat)

  /** The fields of the middleware that the decision reads. */
  datatype GateState = GateState(
    disabled: bool,
    store: Option<CookieStore>,      // nil when the store could not be acquired
    httpHeader: string,
    sessionName: string,
    sessionKey: string,
    actionMatcher: Option<Matcher>)  // nil until the middleware is initialised

  /**
   * What the decision sees of one request:
   *  - whether `api.NewContext` succeeded,
   *  - the action `c.Input.GetAction()` names,
   *  - `r.Header.Get` (empty when absent; its name canonicalisation is inside),
   *  - `c.Input.Get` for request parameters (empty when absent),
   *  - what `store.Get(r, name)` yields for this request: the session's values,
   *    or `None` when it reports an error.
   */
  datatype Request = Request(
    contextOk: bool,
    action: string,
    header: string -> string,
    param: string -> string,
    session: string -> Option<SessionValues>)

  datatype Outcome = Next | InternalError | Reject(kind: ErrorKind)

  /**
   * A matcher is present whenever a session name is: the middleware sets both
   * together, and the Go code would dereference a nil matcher otherwise.
   */
  predicate Consistent(g: GateState) {
    g.sessionName != "" ==> g.actionMatcher.Some?
  }

  /** The token the request presents: the configured header, else the parameter. */
  function PresentedToken(httpHeader: string, r: Request): (t: string)
    ensures r.header(httpHeader) != "" ==> t == r.header(httpHeader)
    ensures r.header(httpHeader) == "" ==> t == r.param(TokenParam)
    ensures t == "" <==> r.header(httpHeader) == "" && r.param(TokenParam) == ""
  {
    var fromHeader := r.header(httpHeader);
    if fromHeader == "" then r.param(TokenParam) else fromHeader
  }

  /** The check applies: the gate is on, the context was built, a session name is set and the action matches. */
  predicate Enforced(g: GateState, r: Request)
    requires Consistent(g)
  {
    !g.disabled && r.contextOk && g.sessionName != "" && g.actionMatcher.value.Match(r.action)
  }

  /**
   * The request's session resolves through an available store and holds, under
   * the session key, exactly the string the request presents.
   */
  predicate TokenAccepted(g: GateState, r: Request) {
    && g.store.Some?
    && r.session(g.sessionName).Some?
    && g.sessionKey in r.session(g.sessionName).value
    && r.session(g.sessionName).value[g.sessionKey] == Str(PresentedToken(g.httpHeader, r))
  }

  /** When the request may go on: the check is off, exempt, or the token is accepted. */
  predicate Permitted(g: GateState, r: Request)
    requires Consistent(g)
  {
    g.disabled || (r.contextOk && (!Enforced(g, r) || TokenAccepted(g, r)))
  }

  /** `ServeHTTP`: the outcome of one request. */
  function Decide(g: GateState, r: Request): (o: Outcome)
    requires Consistent(g)
    ensures o == Next <==> Permitted(g, r)
    ensures o.Reject? ==> Enforced(g, r)
    ensures o == InternalError <==> !g.disabled && !r.contextOk
  {
    if g.disabled then Next
    else if !r.contextOk then InternalError
    else if g.sessionName == "" then Next
    else if !g.actionMatcher.value.Match(r.action) then Next
    else if g.store.None? then Reject(SessionInitFailed)
    else
      match r.session(g.sessionName)
      case None => Reject(SessionGetFailed)
      case Some(values) =>
        if g.sessionKey !in values then Reject(CSRFTokenError)
        else
          match values[g.sessionKey]
          case Other => Reject(CSRFTokenError)
          case Str(expected) =>
            if PresentedToken(g.httpHeader, r) != expected then Reject(CSRFTokenError)
            else Next
  }

  /** A disabled gate lets every request through, whatever it carries. */
  lemma DisabledPassesAll(g: GateState, r: Request)
    requires Consistent(g) && g.disabled
    ensures Decide(g, r) == Next
  {
  }

  /** With the gate on, a failed context yields the internal error and nothing else is looked at. */
  lemma ContextFailureIsInternalError(g: GateState, r: Request)
    requires Consistent(g) && !g.disabled && !r.contextOk
    ensures Decide(g, r) == InternalError
  {
  }

  /**
   * An empty session name passes every request without consulting the
   * matcher or the store, even when neither is there.
   */
  lemma EmptySessionNamePasses(g: GateState, r: Request)
    requires !g.disabled && r.contextOk && g.sessionName == ""
    ensures Consistent(g) && Decide(g, r) == Next
  {
  }

  /** An action the matcher rejects passes without consulting the store, even a nil one. */
  lemma UnmatchedActionPasses(g: GateState, r: Request)
    requires Consistent(g) && !g.disabled && r.contextOk && g.sessionName != ""
    requires !g.actionMatcher.value.Match(r.action)
    ensures Decide(g, r) == Next
  {
  }

  /** A checked action with no store is rejected whatever its token or session holds. */
  lemma MissingStoreRejects(g: GateState, r: Request)
    requires Consistent(g) && Enforced(g, r) && g.store.None?
    ensures Decide(g, r) == Reject(SessionInitFailed)
  {
  }

  /**
   * Whether the store is missing is decided from the gate and the action alone:
   * two requests that differ only in headers, parameters and sessions get the
   * same outcome.
   */
  lemma MissingStoreIgnoresRequestContent(g: GateState, r1: Request, r2: Request)
    requires Consistent(g) && !g.disabled && g.store.None?
    requires r1.contextOk == r2.contextOk && r1.action == r2.action
    ensures Decide(g, r1) == Decide(g, r2)
    ensures Decide(g, r1) in {Next, InternalError, Reject(SessionInitFailed)}
  {
  }

  /** A session that cannot be resolved rejects with SessionGetFailed. */
  lemma SessionFailureRejects(g: GateState, r: Request)
    requires Consistent(g) && Enforced(g, r) && g.store.Some?
    requires r.session(g.sessionName).None?
    ensures Decide(g, r) == Reject(SessionGetFailed)
  {
  }

  /** A session without a string under the session key rejects with CSRFTokenError. */
  lemma MissingOrNonStringTokenRejects(g: GateState, r: Request)
    requires Consistent(g) && Enforced(g, r) && g.store.Some?
    requires r.session(g.sessionName).Some?
    requires var values := r.session(g.sessionName).value;
      g.sessionKey !in values || values[g.sessionKey] == Other
    ensures Decide(g, r) == Reject(CSRFTokenError)
  {
  }

  /** Every rejection of a resolved session is a token error, and it happens exactly when the token is not accepted. */
  lemma ResolvedSessionTokenCheck(g: GateState, r: Request)
    requires Consistent(g) && Enforced(g, r) && g.store.Some?
    requires r.session(g.sessionName).Some?
    ensures Decide(g, r) == (if TokenAccepted(g, r) then Next else Reject(CSRFTokenError))
  {
  }

  /** Once the header is non-empty the parameter is never consulted. */
  lemma {:induction false} HeaderShadowsParameter(g: GateState, r: Request, p: string -> string)
    requires Consistent(g) && r.header(g.httpHeader) != ""
    ensures Decide(g, r.(param := p)) == Decide(g, r)
  {
    assert PresentedToken(g.httpHeader, r.(param := p)) == PresentedToken(g.httpHeader, r);
  }

  /**
   * A wrong non-empty header rejects even when the parameter holds the stored
   * token.
   */
  lemma WrongHeaderRejectsDespiteParameter(g: GateState, r: Request, expected: string)
    requires Consistent(g) && Enforced(g, r) && g.store.Some?
    requires r.session(g.sessionName).Some? && g.sessionKey in r.session(g.sessionName).value
    requires r.session(g.sessionName).value[g.sessionKey] == Str(expected)
    requires r.header(g.httpHeader) != "" && r.header(g.httpHeader) != expected
    requires r.param(TokenParam) == expected
    ensures Decide(g, r) == Reject(CSRFTokenError)
  {
  }

  /**
   * Either source of the token passes when it equals the stored string. An
   * empty header counts as absent: it is the parameter that must match then.
   */
  lemma MatchingTokenPasses(g: GateState, r: Request, expected: string)
    requires Consistent(g) && Enforced(g, r) && g.store.Some?
    requires r.session(g.sessionName).Some? && g.sessionKey in r.session(g.sessionName).value
    requires r.session(g.sessionName).value[g.sessionKey] == Str(expected)
    requires (r.header(g.httpHeader) != "" && r.header(g.httpHeader) == expected) ||
             (r.header(g.httpHeader) == "" && r.param(TokenParam) == expected)
    ensures Decide(g, r) == Next
  {
  }

  /** A stored empty token is satisfied by a request with neither header nor parameter. */
  lemma EmptyStoredTokenAcceptsBareRequest(g: GateState, r: Request)
    requires Consistent(g) && Enforced(g, r) && g.store.Some?
    requires r.session(g.sessionName).Some?
    requires g.sessionKey in r.session(g.sessionName).value
    requires r.session(g.sessionName).value[g.sessionKey] == Str("")
    requires r.header(g.httpHeader) == "" && r.param(TokenParam) == ""
    ensures Decide(g, r) == Next
  {
  }

  /**
   * The only ways through: an early exit (disabled, no session name, exempt
   * action) or an exact match of presented and stored token.
   */
  lemma PassesOnlyByExitOrExactMatch(g: GateState, r: Request)
    requires Consistent(g) && Decide(g, r) == Next
    ensures g.disabled || (r.contextOk && (g.sessionName == "" || !g.actionMatcher.value.Match(r.action) ||
      exists values :: r.session(g.sessionName) == Some(values) && g.sessionKey in values &&
        values[g.sessionKey] == Str(PresentedToken(g.httpHeader, r))))
  {
    if !g.disabled && g.sessionName != "" && g.actionMatcher.value.Match(r.action) {
      var values := r.session(g.sessionName).value;
      assert r.session(g.sessionName) == Some(values);
    }
  }
}
