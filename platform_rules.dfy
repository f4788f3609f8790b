/** The decisions `Platform` makes on values alone: which arguments count as given, how an
    authentication configuration is validated and merged, what the status and the
    authorization server default to, when a cached token is stale, and how the token type
    is normalised. The class in module Platforms calls these; the lemmas here state what
    they mean over many calls. */
module PlatformRules {
  import opened Wrappers
  import opened Records

  /** Every way a platform operation can fail. `KeyNotFound` stands for the crash on
      `key[0].key` when no key record exists; `StoreRejected` for a store write that throws. */
  datatype Error = InvalidMethod | KeyNotFound | TokenAcquisitionError | StoreRejected(collection: Collection)

  /** JavaScript truthiness of an optional string argument: present and not empty. */
  predicate Given(arg: Option<string>) {
    arg.Some? && arg.value != ""
  }

  /** The three ways a platform's messages can be verified. */
  predicate ValidMethod(m: string) {
    m == "RSA_KEY" || m == "JWK_KEY" || m == "JWK_SET"
  }

  // ---------------------------------------------------------------------------------
  // Authentication configuration

  /** The arguments of one `platformAuthConfig(method, key)` call. */
  datatype AuthConfigArgs = AuthConfigArgs(authMethod: Option<string>, key: Option<string>)

  /** A call is refused exactly when it names a method and that method is not valid. */
  predicate Refused(a: AuthConfigArgs) {
    Given(a.authMethod) && !ValidMethod(a.authMethod.value)
  }

  /** The configuration `platformAuthConfig(method, key)` returns: the current one when both
      arguments are omitted, `InvalidMethod` for an unknown method, and otherwise the field by
      field merge in which an omitted argument keeps the current value. */
  function MergeAuthConfig(current: AuthConfig, a: AuthConfigArgs): (r: Result<AuthConfig, Error>)
    ensures r.Failure? <==> Refused(a)
    ensures r.Failure? ==> r.error == InvalidMethod
    ensures r.Success? ==> r.value.authMethod == (if Given(a.authMethod) then a.authMethod.value else current.authMethod)
    ensures r.Success? ==> r.value.key == (if Given(a.key) then a.key.value else current.key)
    ensures r.Success? && ValidMethod(current.authMethod) ==> ValidMethod(r.value.authMethod)
  {
    if !Given(a.authMethod) && !Given(a.key) then Success(current)
    else if Refused(a) then Failure(InvalidMethod)
    else Success(AuthConfig(
      if Given(a.authMethod) then a.authMethod.value else current.authMethod,
      if Given(a.key) then a.key.value else current.key))
  }

  /** The in-memory configuration after one call: a refused call leaves it as it was. */
  function AfterAuthConfigCall(current: AuthConfig, a: AuthConfigArgs): AuthConfig {
    match MergeAuthConfig(current, a)
    case Success(c) => c
    case Failure(_) => current
  }

  /** The configuration after a sequence of calls, applied in order. */
  function AfterAuthConfigCalls(current: AuthConfig, calls: seq<AuthConfigArgs>): AuthConfig
    decreases |calls|
  {
    if calls == [] then current
    else AfterAuthConfigCalls(AfterAuthConfigCall(current, calls[0]), calls[1..])
  }

  /** The method given by the last accepted call that gives one, else `initial`. */
  function LastMethod(calls: seq<AuthConfigArgs>, initial: string): string
    decreases |calls|
  {
    if calls == [] then initial
    else
      var last := calls[|calls| - 1];
      if !Refused(last) && Given(last.authMethod) then last.authMethod.value
      else LastMethod(calls[..|calls| - 1], initial)
  }

  /** The key given by the last accepted call that gives one, else `initial`. */
  function LastKey(calls: seq<AuthConfigArgs>, initial: string): string
    decreases |calls|
  {
    if calls == [] then initial
    else
      var last := calls[|calls| - 1];
      if !Refused(last) && Given(last.key) then last.key.value
      else LastKey(calls[..|calls| - 1], initial)
  }

  /** Applying two runs of calls one after the other is applying their concatenation. */
  lemma {:induction false} AfterAuthConfigCallsAppend(c: AuthConfig, xs: seq<AuthConfigArgs>, ys: seq<AuthConfigArgs>)
    ensures AfterAuthConfigCalls(c, xs + ys) == AfterAuthConfigCalls(AfterAuthConfigCalls(c, xs), ys)
    decreases |xs|
  {
    if xs != [] {
      assert (xs + ys)[0] == xs[0];
      assert (xs + ys)[1..] == xs[1..] + ys;
      AfterAuthConfigCallsAppend(AfterAuthConfigCall(c, xs[0]), xs[1..], ys);
    } else {
      assert xs + ys == ys;
    }
  }

  /** The merge is partial, never a full replace: after any sequence of calls each field
      holds the value of the last accepted call that supplied it, independently of the
      other field, and refused calls leave no trace. */
  lemma {:induction false} AuthConfigFieldsAreLastWritten(c: AuthConfig, calls: seq<AuthConfigArgs>)
    ensures AfterAuthConfigCalls(c, calls).authMethod == LastMethod(calls, c.authMethod)
    ensures AfterAuthConfigCalls(c, calls).key == LastKey(calls, c.key)
    decreases |calls|
  {
    if calls != [] {
      var n := |calls| - 1;
      var init := calls[..n];
      assert calls == init + [calls[n]];
      AfterAuthConfigCallsAppend(c, init, [calls[n]]);
      AuthConfigFieldsAreLastWritten(c, init);
      var mid := AfterAuthConfigCalls(c, init);
      assert AfterAuthConfigCalls(mid, [calls[n]]) == AfterAuthConfigCall(mid, calls[n]);
    }
  }

  /** A configuration whose method is valid stays valid whatever calls follow. */
  lemma {:induction false} AuthConfigStaysValid(c: AuthConfig, calls: seq<AuthConfigArgs>)
    requires ValidMethod(c.authMethod)
    ensures ValidMethod(AfterAuthConfigCalls(c, calls).authMethod)
    decreases |calls|
  {
    if calls != [] {
      AuthConfigStaysValid(AfterAuthConfigCall(c, calls[0]), calls[1..]);
    }
  }

  /** Repeating an accepted call changes nothing more. */
  lemma AuthConfigCallIdempotent(c: AuthConfig, a: AuthConfigArgs)
    ensures AfterAuthConfigCall(AfterAuthConfigCall(c, a), a) == AfterAuthConfigCall(c, a)
  {
  }

  // ---------------------------------------------------------------------------------
  // Status and authorization server

  /** The status `platformActive()` reports: active unless a stored record says otherwise. */
  function StatusIn(statuses: map<string, StatusRecord>, kid: string): bool {
    kid !in statuses || statuses[kid].active
  }

  /** Writing a status record and reading it back gives the written value; other platforms'
      statuses do not move, and a platform with no record reads as active. */
  lemma StatusReadsBackWrite(statuses: map<string, StatusRecord>, kid: string, other: string, b: bool)
    ensures StatusIn(statuses[kid := StatusRecord(kid, b)], kid) == b
    ensures other != kid ==> StatusIn(statuses[kid := StatusRecord(kid, b)], other) == StatusIn(statuses, other)
    ensures kid !in statuses ==> StatusIn(statuses, kid)
  {
  }

  /** The audience used when requesting tokens: the authorization server if set, else the
      access-token endpoint; it is empty only when both are. */
  function EffectiveAuthorizationServer(authorizationServer: string, accesstokenEndpoint: string): (r: string)
    ensures authorizationServer != "" ==> r == authorizationServer
    ensures authorizationServer == "" ==> r == accesstokenEndpoint
    ensures r == "" <==> authorizationServer == "" && accesstokenEndpoint == ""
  {
    if authorizationServer != "" then authorizationServer else accesstokenEndpoint
  }

  // ---------------------------------------------------------------------------------
  // Access-token cache

  /** The staleness test exactly as the source writes it, over numbers:
      elapsed milliseconds divided by 1000, compared with the lifetime in seconds. */
  predicate StaleAsWritten(now: int, createdAt: int, expiresIn: Option<int>) {
    match expiresIn
    // a number compared with `undefined` is never greater
    case None => false
    case Some(e) => (now - createdAt) as real / 1000.0 > e as real
  }

  /** A cached token is stale once more than `expiresIn` seconds have elapsed since it was
      stored; at exactly `expiresIn` seconds it is still served. A token stored without a
      lifetime is never stale. */
  predicate Stale(entry: CachedToken, now: int) {
    entry.token.expiresIn.Some? && now - entry.createdAt > 1000 * entry.token.expiresIn.value
  }

  /** The integer test is the source's division test. */
  lemma StaleMatchesSource(entry: CachedToken, now: int)
    ensures Stale(entry, now) <==> StaleAsWritten(now, entry.createdAt, entry.token.expiresIn)
  {
  }

  /** A token stored without `expires_in` is served at every later time. */
  lemma NoLifetimeNeverStale(entry: CachedToken, now: int)
    requires entry.token.expiresIn.None?
    ensures !Stale(entry, now) && !StaleAsWritten(now, entry.createdAt, entry.token.expiresIn)
  {
  }

  /** A stale token stays stale as time moves on. */
  lemma StaleIsMonotone(entry: CachedToken, t1: int, t2: int)
    requires t1 <= t2 && Stale(entry, t1)
    ensures Stale(entry, t2)
  {
  }

  /** Whether `platformAccessToken` serves the cached entry instead of acquiring a token. */
  predicate Reusable(entry: Option<CachedToken>, now: int) {
    entry.Some? && !Stale(entry.value, now)
  }

  /** The single character `toUpperCase` maps an ASCII lower-case letter to. */
  function UpperChar(c: char): (u: char)
    ensures 'a' <= c <= 'z' ==> 'A' <= u <= 'Z' && u as int - 'A' as int == c as int - 'a' as int
    ensures !('a' <= c <= 'z') ==> u == c
  {
    if 'a' <= c <= 'z' then (c as int - 32) as char else c
  }

  /** `s.charAt(0).toUpperCase() + s.slice(1)`. */
  function Capitalize(s: string): (r: string)
    ensures |r| == |s|
    ensures forall i :: 0 < i < |s| ==> r[i] == s[i]
    ensures |s| > 0 && 'a' <= s[0] <= 'z' ==>
      'A' <= r[0] <= 'Z' && r[0] as int - 'A' as int == s[0] as int - 'a' as int
    ensures |r| > 0 ==> !('a' <= r[0] <= 'z')
    ensures |s| > 0 && !('a' <= s[0] <= 'z') ==> r == s
  {
    if s == [] then [] else [UpperChar(s[0])] + s[1..]
  }

  /** Normalising an already normalised token type changes nothing. */
  lemma CapitalizeIdempotent(s: string)
    ensures Capitalize(Capitalize(s)) == Capitalize(s)
  {
  }

  /** `bearer` is reported as `Bearer`, and `Bearer` stays as it is. */
  lemma CapitalizeBearer()
    ensures Capitalize("bearer") == "Bearer"
    ensures Capitalize("Bearer") == "Bearer"
  {
  }

  /** The token `platformAccessToken` hands back: the same token with its type normalised. */
  function Normalized(t: Token): Token {
    t.(tokenType := Capitalize(t.tokenType))
  }
}
