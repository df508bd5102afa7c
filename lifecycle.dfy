/**
 * The middleware object and its lifecycle (csrf.go lines 12-75 and 138-147):
 * construction, the once-only initialisation, and switching it on and off.
 */
module Lifecycle {
  import opened Wrappers
  import opened StoreKey
  import opened Gate

  const DefaultHttpHeader := "X-CSRF-TOKEN"
  const DefaultStoreKey := "default.csrf_token"
  const DefaultWhitelist: seq<string> := ["*"]
  const DefaultBlacklist: seq<string> := []

  /** The `apicsrf.*` configuration entries; `None` is an entry that is not set. */
  datatype Config = Config(
    disabled: Option<bool>,                  // apicsrf.disabled
    httpHeader: Option<string>,              // apicsrf.http_header
    sessionStoreKey: Option<string>,         // apicsrf.session_store_key
    actionWhitelist: Option<seq<string>>,    // apicsrf.actions.whitelist
    actionBlacklist: Option<seq<string>>)    // apicsrf.actions.blacklist

  /**
   * The application the middleware belongs to, as far as the middleware sees it:
   * its configuration (which may change after the middleware read it), what
   * `app.SessionStore()` hands out (`None` when acquisition fails), and the
   * matching behaviour of the matchers the middleware builds.
   */
  class App {
    var config: Config
    var sessionStore: Option<CookieStore>
    const matchRule: MatchRule

    constructor (config: Config, sessionStore: Option<CookieStore>, matchRule: MatchRule)
      ensures this.config == config && this.sessionStore == sessionStore && this.matchRule == matchRule
    {
      this.config := config;
      this.sessionStore := sessionStore;
      this.matchRule := matchRule;
    }
  }

  class CSRF {
    const app: App
    var disabled: bool
    var inited: bool
    var store: Option<CookieStore>
    var httpHeader: string
    var sessionName: string
    var sessionKey: string
    var actionMatcher: Option<Matcher>

    /**
     * The object invariant: an enabled middleware has been initialised, an
     * initialised one has a matcher, and an uninitialised one still holds the
     * zero values it was allocated with.
     */
    ghost predicate Valid()
      reads this
    {
      (!disabled ==> inited) && Settled()
    }

    /** The part of `Valid` that holds between the steps of `NewCSRF` and `Enable` too. */
    ghost predicate Settled()
      reads this
    {
      (inited ==> actionMatcher.Some?) && (!inited ==> Unset())
    }

    /** The settings fields still hold their zero values. */
    ghost predicate Unset()
      reads this
    {
      store.None? && httpHeader == "" && sessionName == "" && sessionKey == "" && actionMatcher.None?
    }

    /**
     * The settings fields hold what initialisation derives from `cfg`, the
     * store `acquired` from the application and the matching behaviour `rule`.
     */
    ghost predicate ConfiguredBy(cfg: Config, acquired: Option<CookieStore>, rule: MatchRule)
      reads this
    {
      && store == acquired
      && httpHeader == cfg.httpHeader.GetOr(DefaultHttpHeader)
      && (sessionName, sessionKey) == ParseStoreKey(cfg.sessionStoreKey.GetOr(DefaultStoreKey))
      && actionMatcher == Some(Matcher(cfg.actionWhitelist.GetOr(DefaultWhitelist),
                                       cfg.actionBlacklist.GetOr(DefaultBlacklist), rule))
    }

    /** The fields the request decision reads; `Decide(State(), r)` is `ServeHTTP`. */
    function State(): (g: GateState)
      reads this
      ensures Valid() ==> Consistent(g)
      ensures g.disabled == disabled && g.sessionName == sessionName && g.store == store
    {
      GateState(disabled, store, httpHeader, sessionName, sessionKey, actionMatcher)
    }

    /** `NewCSRF`: reads the disabled flag and, when not disabled, initialises. */
    constructor (app: App)
      ensures this.app == app
      ensures disabled == app.config.disabled.GetOr(false)
      ensures inited == !disabled
      ensures disabled ==> Unset()
      ensures !disabled ==> ConfiguredBy(app.config, app.sessionStore, app.matchRule)
      ensures Valid()
    {
      this.app := app;
      disabled := app.config.disabled.GetOr(false);
      inited := false;
      store := None;
      httpHeader := "";
      sessionName := "";
      sessionKey := "";
      actionMatcher := None;
      new;
      if !disabled {
        Init();
      }
    }

    /**
     * `init`: on the first call, reads the configuration, builds the matcher,
     * acquires the store (keeping `None` when that fails) and marks the object
     * initialised; on every later call changes nothing.
     */
    method Init()
      requires Settled()
      modifies this
      ensures Valid() && inited
      ensures old(inited) ==> unchanged(this)
      ensures !old(inited) ==> disabled == old(disabled)
      ensures !old(inited) ==> ConfiguredBy(app.config, app.sessionStore, app.matchRule)
    {
      if inited {
        return;
      }
      var cfg := app.config;
      var header := cfg.httpHeader.GetOr(DefaultHttpHeader);
      var storeKey := cfg.sessionStoreKey.GetOr(DefaultStoreKey);
      var whitelist := cfg.actionWhitelist.GetOr(DefaultWhitelist);
      var blacklist := cfg.actionBlacklist.GetOr(DefaultBlacklist);

      var (name, key) := ParseStoreKey(storeKey);
      var matcher := Matcher(whitelist, blacklist, app.matchRule);

      // an acquisition failure is only logged; the store stays nil
      var acquired := app.sessionStore;

      store := acquired;
      httpHeader := header;
      sessionName := name;
      sessionKey := key;
      actionMatcher := Some(matcher);
      inited := true;
    }

    /**
     * `Enable`: clears the disabled flag and initialises if that has not
     * happened yet; an initialised object keeps its settings even when the
     * configuration has changed since.
     */
    method Enable()
      requires Valid()
      modifies this
      ensures Valid() && !disabled && inited
      ensures old(inited) ==> State() == old(State()).(disabled := false)
      ensures !old(inited) ==> ConfiguredBy(app.config, app.sessionStore, app.matchRule)
    {
      disabled := false;
      Init();
    }

    /** `Disable`: sets the disabled flag and touches nothing else. */
    method Disable()
      requires Valid()
      modifies this
      ensures Valid() && disabled
      ensures inited == old(inited)
      ensures State() == old(State()).(disabled := true)
    {
      disabled := true;
    }
  }

  /**
   * A disable/enable cycle keeps the settings read at construction: after the
   * application's configuration is replaced, the session name is still the
   * one parsed from the first configuration.
   */
  method ReenableKeepsStaleSettings(first: Config, second: Config,
                                    acquired: Option<CookieStore>, rule: MatchRule)
    returns (before: string, after: string)
    requires !first.disabled.GetOr(false)
    ensures before == after == ParseStoreKey(first.sessionStoreKey.GetOr(DefaultStoreKey)).0
  {
    var app := new App(first, acquired, rule);
    var cs := new CSRF(app);
    before := cs.sessionName;
    app.config := second;
    cs.Disable();
    cs.Enable();
    after := cs.sessionName;
  }

  /** With no `apicsrf.*` entry set, initialisation yields the documented defaults. */
  lemma DefaultConfiguration(cs: CSRF, acquired: Option<CookieStore>, rule: MatchRule)
    requires cs.ConfiguredBy(Config(None, None, None, None, None), acquired, rule)
    ensures cs.httpHeader == "X-CSRF-TOKEN"
    ensures cs.sessionName == "default" && cs.sessionKey == "csrf_token"
    ensures cs.actionMatcher == Some(Matcher(["*"], [], rule))
  {
    DefaultStoreKeyParses();
  }

  /**
   * A store key with a leading dot, such as ".x", leaves the session name empty,
   * and the initialised middleware then lets every request with a context through.
   */
  lemma LeadingDotStoreKeyPassesAll(cs: CSRF, cfg: Config, acquired: Option<CookieStore>,
                                    rule: MatchRule, rest: string, r: Request)
    requires cs.ConfiguredBy(cfg, acquired, rule)
    requires cfg.sessionStoreKey == Some("." + rest)
    requires r.contextOk
    ensures cs.sessionName == ""
    ensures Consistent(cs.State()) && Decide(cs.State(), r) == Next
  {
    LeadingDotEmptyName(rest);
  }

  /** A disabled middleware passes every request, whether or not it was ever initialised. */
  lemma DisabledMiddlewarePassesAll(cs: CSRF, r: Request)
    requires cs.Valid() && cs.disabled
    ensures !cs.inited ==> cs.sessionName == ""
    ensures Consistent(cs.State()) && Decide(cs.State(), r) == Next
  {
  }
}
