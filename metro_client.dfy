/**
 * `NationalGridMetroClient` and `main`: the client's state (token dictionary, customer URN and
 * the token cache file), its four network-facing methods with the browser and HTTP exchanges as
 * inputs, and the cache-first control flow of `main`.
 */
module MetroClient {
  import opened Wrappers
  import opened TokenExpiry
  import opened TokenCache
  import opened StorageExtraction
  import opened CustomerResolution
  import opened UsageQuery
  import opened UsageAggregation
  import WindowEstimate
  import MonthEstimate

  /** The two scripts: the Selenium one estimates from the latest period, the Playwright one from the current month. */
  datatype Script = Selenium | Playwright

  /** How the browser automation of `login_and_get_tokens` ends. */
  datatype BrowserOutcome =
    | BrowserFailed  // launching, a page load, a wait or the storage read raises
    | StorageRead(local: seq<Item>, session: seq<Item>)  // both storages, each in its own order

  datatype LoginResult =
    | LoginOk                       // source "fresh_login"
    | TokenNotFound(debug: seq<Item>)  // "Failed to extract access token", with the debug sample
    | LoginError                    // an exception, reported as its message

  /** What the GraphQL POST returns; a 200 body that is not JSON has no response. */
  datatype UsageReply =
    | UsageNetworkError
    | UsageReply(status: int, body: Option<UsageResponse>)

  datatype UsageResult =
    | UrnMissing                  // "Customer URN not available": nothing is sent
    | UsageError                  // an exception, reported as its message
    | UsageHttpStatus(status: int)
    | UsageData(outcome: UsageOutcome)

  /** The result of the script's own `process_usage_data`. */
  predicate ScriptOutcome(script: Script, response: UsageResponse, nowLocal: nat, parseIso: WindowEstimate.IsoParser, r: UsageOutcome) {
    match script
    case Selenium => WindowEstimate.WindowOutcome(response, nowLocal, parseIso, r)
    case Playwright => MonthEstimate.MonthOutcome(response, nowLocal, r)
  }

  /** The variables sent for `urn` at local time `nowLocal`; None when the interval cannot be built. */
  function RequestFor(urn: string, nowLocal: nat): (request: Option<UsageRequest>)
    ensures request.Some? <==> QueryInterval(nowLocal).Some?
    ensures request.Some? ==> request.value.customerUrn == urn
  {
    match QueryInterval(nowLocal)
    case None => None
    case Some(interval) => Some(UsageRequest(urn, interval))
  }

  /**
   * What `get_usage_and_cost_data` returns once it holds a truthy URN, given the request it sent
   * (None when it raised first): an exception, the HTTP status, a body that is not JSON, or the
   * script's own `process_usage_data` of the body.
   */
  predicate FetchOutcome(request: Option<UsageRequest>, reply: UsageReply, nowLocal: nat,
                         parseIso: WindowEstimate.IsoParser, script: Script, r: UsageResult) {
    if request.None? then r == UsageError
    else match reply
      case UsageNetworkError => r == UsageError
      case UsageReply(status, body) =>
        if status != 200 then r == UsageHttpStatus(status)
        else if body.None? then r == UsageError
        else r.UsageData? && ScriptOutcome(script, body.value, nowLocal, parseIso, r.outcome)
  }

  class Client {
    /** `self.tokens`: None, or the token dictionary, represented by its access token. */
    var tokens: Option<string>
    var customerUrn: Option<string>
    /** The token cache file; None when it does not exist. */
    var disk: Option<CacheFile>

    constructor(disk0: Option<CacheFile>)
      ensures tokens == None && customerUrn == None && disk == disk0
    {
      tokens := None;
      customerUrn := None;
      disk := disk0;
    }

    /** `save_tokens`: writes the token and the current URN; True only when every step succeeds. */
    method SaveTokens(token: string, fault: WriteFault) returns (saved: bool)
      modifies this
      ensures saved <==> fault == NoFault
      ensures disk == AfterSave(old(disk), token, customerUrn, fault)
      ensures tokens == old(tokens) && customerUrn == old(customerUrn)
    {
      match fault {
        case DirectoryFault => saved := false;
        case OpenFault => saved := false;
        case DumpFault =>
          disk := Some(Unreadable);
          saved := false;
        case ChmodFault =>
          disk := Some(Record(Some(token), customerUrn));
          saved := false;
        case NoFault =>
          disk := Some(Record(Some(token), customerUrn));
          saved := true;
      }
    }

    /** `load_tokens` at epoch second `now`: restores the client from a fresh cache, removes a stale or broken one. */
    method LoadTokens(now: int, decode: ClaimsDecoder) returns (hit: bool)
      modifies this
      ensures hit <==> ClassifyCache(old(disk), now, decode).Restored?
      ensures disk == AfterLoad(old(disk), ClassifyCache(old(disk), now, decode))
      ensures hit ==>
        && tokens == Some(ClassifyCache(old(disk), now, decode).token)
        && customerUrn == ClassifyCache(old(disk), now, decode).urn
      ensures !hit ==> tokens == old(tokens) && customerUrn == old(customerUrn)
    {
      match disk {
        case None => hit := false;
        case Some(Unreadable) =>
          disk := None;
          hit := false;
        case Some(Record(accessToken, urn)) =>
          if !Truthy(accessToken) {
            return false;
          }
          if IsTokenExpired(accessToken.value, now, decode) {
            disk := None;
            return false;
          }
          tokens := accessToken;
          customerUrn := urn;
          hit := true;
      }
    }

    /** `login_and_get_tokens` after the browser has read the two storages. */
    method LoginAndGetTokens(browser: BrowserOutcome, parse: JsonParser, fault: WriteFault) returns (r: LoginResult)
      modifies this
      ensures customerUrn == old(customerUrn)
      ensures browser.BrowserFailed? ==> r == LoginError && tokens == old(tokens) && disk == old(disk)
      ensures browser.StorageRead? ==>
        var items := Combined(browser.local, browser.session);
        match ScanToken(items, parse)
        case None => r == TokenNotFound(DebugEntries(items)) && tokens == old(tokens) && disk == old(disk)
        case Some(t) => r == LoginOk && tokens == Some(t) && disk == AfterSave(old(disk), t, customerUrn, fault)
    {
      if browser.BrowserFailed? {
        return LoginError;
      }
      var items := CombineStorage(browser.local, browser.session);
      var accessToken := ExtractAccessToken(items, parse);
      if !Truthy(accessToken) {
        var debug := DebugSample(items);
        return TokenNotFound(debug);
      }
      tokens := accessToken;
      var _ := SaveTokens(accessToken.value, fault);
      r := LoginOk;
    }

    /** `get_customer_data`: on success the URN is kept and the cache rewritten with it. */
    method GetCustomerData(reply: CustomerReply, fault: WriteFault) returns (r: Resolution)
      modifies this
      ensures tokens == old(tokens)
      ensures old(tokens).None? ==> r == ResolveError
      ensures old(tokens).Some? ==> r == ResolveUrn(reply)
      ensures r.Resolved? ==>
        customerUrn == Some(r.urn) && disk == AfterSave(old(disk), old(tokens).value, Some(r.urn), fault)
      ensures !r.Resolved? ==> customerUrn == old(customerUrn) && disk == old(disk)
    {
      if tokens.None? {
        return ResolveError;  // subscripting None raises before any request
      }
      r := ResolveUrn(reply);
      if r.Resolved? {
        customerUrn := Some(r.urn);
        var _ := SaveTokens(tokens.value, fault);
      }
    }

    /**
     * `get_usage_and_cost_data` at local time `nowLocal`: the query variables it sends, if it
     * gets that far, and what it returns.
     */
    method GetUsageAndCostData(nowLocal: nat, reply: UsageReply, parseIso: WindowEstimate.IsoParser, script: Script)
      returns (request: Option<UsageRequest>, r: UsageResult)
      ensures !Truthy(customerUrn) ==> request == None && r == UrnMissing
      ensures Truthy(customerUrn) ==>
        && request == (if tokens.Some? then RequestFor(customerUrn.value, nowLocal) else None)
        && FetchOutcome(request, reply, nowLocal, parseIso, script, r)
    {
      if !Truthy(customerUrn) {
        return None, UrnMissing;
      }
      var interval := QueryInterval(nowLocal);
      if interval.None? || tokens.None? {
        return None, UsageError;  // the date arithmetic or the header's subscript raises
      }
      request := Some(UsageRequest(customerUrn.value, interval.value));
      match reply {
        case UsageNetworkError => r := UsageError;
        case UsageReply(status, body) =>
          if status != 200 {
            r := UsageHttpStatus(status);
          } else if body.None? {
            r := UsageError;
          } else if script == Selenium {
            var outcome := WindowEstimate.ProcessUsageData(body.value, nowLocal, parseIso);
            r := UsageData(outcome);
          } else {
            var outcome := MonthEstimate.ProcessUsageData(body.value, nowLocal);
            r := UsageData(outcome);
          }
      }
    }
  }

  /** The steps `main` takes, in order. */
  datatype Stage = LoadCache | LookupCustomer | Login | FetchUsage

  /** How `main` ends: exit status 1 after a failed login or lookup, otherwise the usage result is printed. */
  datatype RunResult =
    | LoginFailed(login: LoginResult)
    | CustomerFailed(resolution: Resolution)
    | Fetched(request: Option<UsageRequest>, usage: UsageResult)

  /**
   * Everything `main` depends on outside the client: the cache file, the clock (as an epoch
   * second for token expiry and as a local reading for dates), the browser, the server's replies,
   * the decoders and how each save fares.
   */
  datatype Environment = Environment(
    disk: Option<CacheFile>,
    nowEpoch: int,
    nowLocal: nat,
    decodeClaims: ClaimsDecoder,
    browser: BrowserOutcome,
    parseStorage: JsonParser,
    loginFault: WriteFault,
    cachedLookup: CustomerReply,  // the lookup made with a cached token that had no URN
    freshLookup: CustomerReply,   // the lookup made after a fresh login
    lookupFault: WriteFault,
    usageReply: UsageReply,
    parseIso: WindowEstimate.IsoParser)

  /** `main` logs in afresh unless the cache restores a token with a URN, or one a lookup with the token finds. */
  predicate NeedsLogin(env: Environment) {
    var loaded := ClassifyCache(env.disk, env.nowEpoch, env.decodeClaims);
    !(loaded.Restored? && (Truthy(loaded.urn) || ResolveUrn(env.cachedLookup).Resolved?))
  }

  /** The token a fresh login finds in the browser's merged storages, if the browser gets that far. */
  function FreshToken(env: Environment): (t: Option<string>)
    ensures t.Some? ==> t.value != ""
  {
    match env.browser
    case BrowserFailed => None
    case StorageRead(local, session) => ScanToken(Combined(local, session), env.parseStorage)
  }

  /** What a fresh login that finds no token reports. */
  function LoginFailure(env: Environment): LoginResult {
    match env.browser
    case BrowserFailed => LoginError
    case StorageRead(local, session) => TokenNotFound(DebugEntries(Combined(local, session)))
  }

  /**
   * The URN `main` fetches usage for, None when it stops before the fetch: the cached URN, else
   * the one a lookup with the cached token finds, else the one found after a fresh login. It is
   * never empty, so the fetch never reports a missing URN.
   */
  function FetchUrn(env: Environment): (urn: Option<string>)
    ensures urn.Some? ==> urn.value != ""
  {
    var loaded := ClassifyCache(env.disk, env.nowEpoch, env.decodeClaims);
    if loaded.Restored? && Truthy(loaded.urn) then loaded.urn
    else if loaded.Restored? && ResolveUrn(env.cachedLookup).Resolved? then Some(ResolveUrn(env.cachedLookup).urn)
    else if FreshToken(env).Some? && ResolveUrn(env.freshLookup).Resolved? then Some(ResolveUrn(env.freshLookup).urn)
    else None
  }

  /** The URN the client holds when a fresh login starts: the one restored from the cache, if any. */
  function UrnBeforeLogin(env: Environment): Option<string> {
    var loaded := ClassifyCache(env.disk, env.nowEpoch, env.decodeClaims);
    if loaded.Restored? then loaded.urn else None
  }

  /**
   * The cache file after step 1: removed when the load discards it, rewritten with the cached
   * token and the URN when a lookup with that token resolves one, otherwise as found.
   */
  function CacheStepDisk(env: Environment): (d: Option<CacheFile>)
    ensures var loaded := ClassifyCache(env.disk, env.nowEpoch, env.decodeClaims);
      && (loaded == Discarded ==> d == None)
      && (loaded.NoFile? || loaded.NoAccessToken? || (loaded.Restored? && Truthy(loaded.urn)) ==> d == env.disk)
      && (loaded.Restored? && !Truthy(loaded.urn) && ResolveUrn(env.cachedLookup).Resolved? && env.lookupFault == NoFault ==>
            d == Some(Record(Some(loaded.token), Some(ResolveUrn(env.cachedLookup).urn))))
  {
    var loaded := ClassifyCache(env.disk, env.nowEpoch, env.decodeClaims);
    var afterLoad := AfterLoad(env.disk, loaded);
    if loaded.Restored? && !Truthy(loaded.urn) && ResolveUrn(env.cachedLookup).Resolved? then
      AfterSave(afterLoad, loaded.token, Some(ResolveUrn(env.cachedLookup).urn), env.lookupFault)
    else afterLoad
  }

  /**
   * The cache file after step 2, starting from file `disk` with URN `urn`: untouched when no
   * token is found; otherwise saved with the fresh token and `urn`, then saved again with the
   * fresh URN when the lookup resolves one.
   */
  function LoginStepDisk(env: Environment, disk: Option<CacheFile>, urn: Option<string>): (d: Option<CacheFile>)
    ensures FreshToken(env).None? ==> d == disk
    ensures FreshToken(env).Some? && !ResolveUrn(env.freshLookup).Resolved? && env.loginFault == NoFault ==>
      d == Some(Record(FreshToken(env), urn))
    ensures FreshToken(env).Some? && ResolveUrn(env.freshLookup).Resolved? && env.lookupFault == NoFault ==>
      d == Some(Record(FreshToken(env), Some(ResolveUrn(env.freshLookup).urn)))
  {
    match FreshToken(env)
    case None => disk
    case Some(token) =>
      var saved := AfterSave(disk, token, urn, env.loginFault);
      if ResolveUrn(env.freshLookup).Resolved? then
        AfterSave(saved, token, Some(ResolveUrn(env.freshLookup).urn), env.lookupFault)
      else saved
  }

  /** The cache file `main` leaves, whether or not it reaches the fetch. */
  function MainCache(env: Environment): Option<CacheFile> {
    if NeedsLogin(env) then LoginStepDisk(env, CacheStepDisk(env), UrnBeforeLogin(env))
    else CacheStepDisk(env)
  }

  /** The stage sequences `main` can go through: the cache first, at most one login, the fetch last. */
  predicate PossibleTrace(trace: seq<Stage>) {
    trace in {
      [LoadCache, FetchUsage],
      [LoadCache, LookupCustomer, FetchUsage],
      [LoadCache, Login],
      [LoadCache, Login, LookupCustomer],
      [LoadCache, Login, LookupCustomer, FetchUsage],
      [LoadCache, LookupCustomer, Login],
      [LoadCache, LookupCustomer, Login, LookupCustomer],
      [LoadCache, LookupCustomer, Login, LookupCustomer, FetchUsage]
    }
  }

  /** The stages `main` can have gone through when it reaches the usage fetch. */
  predicate ReadyTrace(trace: seq<Stage>) {
    || trace == [LoadCache]
    || trace == [LoadCache, LookupCustomer]
    || trace == [LoadCache, Login, LookupCustomer]
    || trace == [LoadCache, LookupCustomer, Login, LookupCustomer]
  }

  /** Reaching the fetch after a ready sequence of stages gives a possible trace ending in the fetch. */
  lemma ReadyThenFetch(steps: seq<Stage>)
    requires ReadyTrace(steps)
    ensures PossibleTrace(steps + [FetchUsage])
    ensures (steps + [FetchUsage])[|steps|] == FetchUsage
    ensures Login in steps + [FetchUsage] <==> Login in steps
  {
    var trace := steps + [FetchUsage];
    if steps == [LoadCache] {
      assert trace == [LoadCache, FetchUsage];
    } else if steps == [LoadCache, LookupCustomer] {
      assert trace == [LoadCache, LookupCustomer, FetchUsage];
    } else if steps == [LoadCache, Login, LookupCustomer] {
      assert trace == [LoadCache, Login, LookupCustomer, FetchUsage];
    } else {
      assert trace == [LoadCache, LookupCustomer, Login, LookupCustomer, FetchUsage];
    }
  }

  /** A login after the cache stages gives a possible trace that holds the login and stops short of the fetch. */
  lemma LoginAfterCache(steps: seq<Stage>, loginSteps: seq<Stage>)
    requires steps == [LoadCache] || steps == [LoadCache, LookupCustomer]
    requires loginSteps == [Login] || loginSteps == [Login, LookupCustomer]
    ensures var trace := steps + loginSteps;
      PossibleTrace(trace) && Login in trace && trace[|trace| - 1] != FetchUsage
      && (loginSteps == [Login, LookupCustomer] ==> ReadyTrace(trace))
  {
    var trace := steps + loginSteps;
    assert trace[|steps|] == Login;
    if steps == [LoadCache] {
      assert trace == [LoadCache, Login] || trace == [LoadCache, Login, LookupCustomer];
    } else {
      assert trace == [LoadCache, LookupCustomer, Login] || trace == [LoadCache, LookupCustomer, Login, LookupCustomer];
    }
  }

  /**
   * Step 1 of `main`: the cache, and a lookup with the cached token when the cache holds no URN.
   * `cached` is false when a fresh login is needed.
   */
  method UseCache(client: Client, env: Environment) returns (cached: bool, trace: seq<Stage>)
    requires client.tokens == None && client.customerUrn == None && client.disk == env.disk
    modifies client
    ensures cached <==> !NeedsLogin(env)
    ensures var loaded := ClassifyCache(env.disk, env.nowEpoch, env.decodeClaims);
      trace == if loaded.Restored? && !Truthy(loaded.urn) then [LoadCache, LookupCustomer] else [LoadCache]
    ensures cached ==>
      client.tokens == Some(ClassifyCache(env.disk, env.nowEpoch, env.decodeClaims).token) && client.customerUrn == FetchUrn(env)
    ensures !cached ==> client.customerUrn == UrnBeforeLogin(env)
    ensures client.disk == CacheStepDisk(env)
  {
    trace := [LoadCache];
    cached := client.LoadTokens(env.nowEpoch, env.decodeClaims);
    if cached && !Truthy(client.customerUrn) {
      trace := trace + [LookupCustomer];
      var customer := client.GetCustomerData(env.cachedLookup, env.lookupFault);
      if !customer.Resolved? {
        cached := false;  // the cached token seems invalid: log in afresh
      }
    }
  }

  /** Step 2 of `main`: a fresh login, then the URN lookup with the new token. */
  method FreshLogin(client: Client, env: Environment) returns (failure: Option<RunResult>, trace: seq<Stage>)
    modifies client
    ensures trace == if FreshToken(env).Some? then [Login, LookupCustomer] else [Login]
    ensures failure.None? <==> FreshToken(env).Some? && ResolveUrn(env.freshLookup).Resolved?
    ensures failure.Some? ==>
      failure.value == if FreshToken(env).None? then LoginFailed(LoginFailure(env))
                       else CustomerFailed(ResolveUrn(env.freshLookup))
    ensures failure.None? ==>
      client.tokens == FreshToken(env) && client.customerUrn == Some(ResolveUrn(env.freshLookup).urn)
    ensures client.disk == LoginStepDisk(env, old(client.disk), old(client.customerUrn))
  {
    trace := [Login];
    var login := client.LoginAndGetTokens(env.browser, env.parseStorage, env.loginFault);
    if login != LoginOk {
      return Some(LoginFailed(login)), trace;
    }
    trace := trace + [LookupCustomer];
    var customer := client.GetCustomerData(env.freshLookup, env.lookupFault);
    if !customer.Resolved? {
      return Some(CustomerFailed(customer)), trace;
    }
    failure := None;
  }

  /**
   * Steps 1 and 2 of `main`. It succeeds exactly when there is a URN to fetch for, and then the
   * client holds a token and that URN; a fresh login happens exactly when the cache cannot serve.
   */
  method Authenticate(client: Client, env: Environment) returns (failure: Option<RunResult>, trace: seq<Stage>)
    requires client.tokens == None && client.customerUrn == None && client.disk == env.disk
    modifies client
    ensures failure.None? <==> FetchUrn(env).Some?
    ensures failure.None? ==> ReadyTrace(trace) && client.tokens.Some? && client.customerUrn == FetchUrn(env)
    ensures failure.Some? ==> PossibleTrace(trace) && trace[|trace| - 1] != FetchUsage
    ensures Login in trace <==> NeedsLogin(env)
    ensures var loaded := ClassifyCache(env.disk, env.nowEpoch, env.decodeClaims);
      loaded.Restored? && Truthy(loaded.urn) ==> trace == [LoadCache]
    ensures Login in trace && failure.None? ==> client.tokens == FreshToken(env)
    ensures Login in trace && failure.Some? ==>
      failure.value == if FreshToken(env).None? then LoginFailed(LoginFailure(env))
                       else CustomerFailed(ResolveUrn(env.freshLookup))
    ensures client.disk == MainCache(env)
  {
    var cached, steps := UseCache(client, env);
    assert Login !in steps;
    if cached {
      assert MainCache(env) == CacheStepDisk(env);
      return None, steps;
    }
    assert MainCache(env) == LoginStepDisk(env, client.disk, client.customerUrn);
    var loginFailure, loginSteps := FreshLogin(client, env);
    trace := steps + loginSteps;
    LoginAfterCache(steps, loginSteps);
    failure := loginFailure;
  }

  /** `main`: returns its result, the stages it went through and the cache file it leaves. */
  method Run(env: Environment, script: Script) returns (result: RunResult, trace: seq<Stage>, cache: Option<CacheFile>)
    ensures PossibleTrace(trace)
    ensures result.Fetched? <==> trace[|trace| - 1] == FetchUsage
    ensures result.Fetched? <==> FetchUrn(env).Some?
    ensures Login in trace <==> NeedsLogin(env)
    ensures var loaded := ClassifyCache(env.disk, env.nowEpoch, env.decodeClaims);
      loaded.Restored? && Truthy(loaded.urn) ==> trace == [LoadCache, FetchUsage]
    ensures Login in trace ==>
      (result.LoginFailed? <==>
        env.browser.BrowserFailed? || ScanToken(Combined(env.browser.local, env.browser.session), env.parseStorage).None?)
    ensures Login in trace && !result.LoginFailed? ==> (result.Fetched? <==> ResolveUrn(env.freshLookup).Resolved?)
    ensures result.LoginFailed? ==> result.login == LoginFailure(env)
    ensures result.CustomerFailed? ==> result.resolution == ResolveUrn(env.freshLookup)
    ensures result.Fetched? ==>
      && result.request == RequestFor(FetchUrn(env).value, env.nowLocal)
      && FetchOutcome(result.request, env.usageReply, env.nowLocal, env.parseIso, script, result.usage)
    ensures cache == MainCache(env)
    ensures Login in trace && result.Fetched? && env.lookupFault == NoFault ==>
      cache == Some(Record(FreshToken(env), FetchUrn(env)))
  {
    var client := new Client(env.disk);
    var failure, steps := Authenticate(client, env);
    if failure.Some? {
      return failure.value, steps, client.disk;
    }
    trace := steps + [FetchUsage];
    ReadyThenFetch(steps);
    var request, usage := client.GetUsageAndCostData(env.nowLocal, env.usageReply, env.parseIso, script);
    return Fetched(request, usage), trace, client.disk;
  }

  /**
   * A run that logged in and whose last save wrote the whole record leaves a cache with which a
   * later run, while the token is still fresh, skips the login and fetches for the same URN.
   */
  lemma SavedLoginIsReused(env: Environment, later: Environment)
    requires NeedsLogin(env) && FreshToken(env).Some? && FetchUrn(env).Some?
    requires env.lookupFault == NoFault || env.lookupFault == ChmodFault
    requires later.disk == MainCache(env)
    requires !IsTokenExpired(FreshToken(env).value, later.nowEpoch, later.decodeClaims)
    ensures ClassifyCache(later.disk, later.nowEpoch, later.decodeClaims) == Restored(FreshToken(env).value, FetchUrn(env))
    ensures !NeedsLogin(later) && FetchUrn(later) == FetchUrn(env)
  {
  }

  /**
   * A run that served from a cache without a URN, found the URN with the cached token and saved
   * it, leaves a cache with which a later run, while the token is still fresh, needs neither the
   * lookup nor a login and fetches for the same URN.
   */
  lemma CachedLookupIsReused(env: Environment, later: Environment)
    requires var loaded := ClassifyCache(env.disk, env.nowEpoch, env.decodeClaims);
      loaded.Restored? && !Truthy(loaded.urn) && ResolveUrn(env.cachedLookup).Resolved?
    requires env.lookupFault == NoFault || env.lookupFault == ChmodFault
    requires later.disk == MainCache(env)
    requires !IsTokenExpired(ClassifyCache(env.disk, env.nowEpoch, env.decodeClaims).token, later.nowEpoch, later.decodeClaims)
    ensures var loaded := ClassifyCache(later.disk, later.nowEpoch, later.decodeClaims);
      loaded.Restored? && Truthy(loaded.urn) && loaded.urn == FetchUrn(env)
    ensures !NeedsLogin(later) && FetchUrn(later) == FetchUrn(env)
  {
  }
}
