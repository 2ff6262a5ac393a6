/** The authentication entry points of src/api/auth.py around the shared limiter. */
module Auth {
  import opened Wrappers
  import opened Windows
  import opened RateLimit

  datatype Request = Request(ip: string, xApiKey: Option<string>, authorization: Option<string>)

  /** What a presented key is worth at one of the doors. */
  datatype Check = Missing | Unconfigured | Incomparable | Wrong | Right(key: string)

  datatype Outcome =
    | TooManyRequests
    | KeyRequired
    | NotConfigured
    | ServerError
    | KeyInvalid(attempts: nat, blocked: bool)
    | Accepted(key: string)

  const BEARER := "Bearer "

  /** The X-API-Key header if it is non-empty, else whatever follows "Bearer ". */
  function PresentedKey(request: Request): Option<string> {
    if Truthy(request.xApiKey) then request.xApiKey
    else if Truthy(request.authorization) && BEARER <= request.authorization.value
            && |request.authorization.value| > |BEARER|
    then Some(request.authorization.value[|BEARER|..])
    else None
  }

  /** A key comes from the X-API-Key header, else from behind "Bearer ", and from nowhere else. */
  lemma KeyFromHeaders(ip: string, header: Option<string>, authorization: Option<string>, key: string)
    ensures key != "" ==> PresentedKey(Request(ip, Some(key), authorization)) == Some(key)
    ensures !Truthy(header) ==>
              PresentedKey(Request(ip, header, Some("Bearer " + key))) == if key == "" then None else Some(key)
    ensures !Truthy(header) && !(authorization.Some? && "Bearer " <= authorization.value) ==>
              PresentedKey(Request(ip, header, authorization)) == None
  {
    assert ("Bearer " + key)[7..] == key;
  }

  function TenantCheck(request: Request, keys: set<string>): Check {
    match PresentedKey(request)
    case None => Missing
    case Some(key) => if key in keys then Right(key) else Wrong
  }

  predicate Ascii(s: string) {
    forall i :: 0 <= i < |s| ==> s[i] < '\U{80}'
  }

  /** The constant-time comparison raises if either string has a character beyond ASCII. */
  function AdminCheck(request: Request, adminKey: string): Check {
    match PresentedKey(request)
    case None => Missing
    case Some(key) =>
      if adminKey == "" then Unconfigured
      else if !Ascii(key) || !Ascii(adminKey) then Incomparable
      else if key == adminKey then Right(key)
      else Wrong
  }

  /** The answer to an address that is not blocked. */
  function Answered(lim: Limits, r: Record, check: Check, now: Time): Outcome {
    match check
    case Missing => KeyRequired
    case Unconfigured => NotConfigured
    case Incomparable => ServerError
    case Wrong => KeyInvalid(FailureCount(lim, r, now), FailureCount(lim, r, now) >= lim.maxFailed)
    case Right(key) => Accepted(key)
  }

  function AfterAnswer(lim: Limits, r: Record, check: Check, now: Time): Record {
    match check
    case Missing => Failed(lim, r, now)
    case Unconfigured => r
    case Incomparable => r
    case Wrong => Failed(lim, r, now)
    case Right(_) => r.(failures := [])
  }

  function AuthOutcome(lim: Limits, r: Record, check: Check, now: Time): Outcome {
    if Blocked(lim, r, now) then TooManyRequests else Answered(lim, Noticed(lim, r, now), check, now)
  }

  function AuthRecord(lim: Limits, r: Record, check: Check, now: Time): Record {
    if Blocked(lim, r, now) then r else AfterAnswer(lim, Noticed(lim, r, now), check, now)
  }

  /** `record_failed_auth` as the entry points reach it: only for an address without a block entry. */
  method Penalise(limiter: RateLimiter, ip: string, now: Time) returns (attempts: nat, blocked: bool)
    requires limiter.Valid() && limiter.clock == now && ip !in limiter.blockedIps
    modifies limiter`failedAttempts, limiter`blockedIps, limiter`records, limiter`clock
    ensures limiter.Valid() && limiter.clock == now
    ensures attempts == FailureCount(limiter.limits, old(limiter.Known(ip)), now)
    ensures blocked == (attempts >= limiter.limits.maxFailed)
    ensures limiter.records == old(limiter.records)[ip := Failed(limiter.limits, old(limiter.Known(ip)), now)]
    ensures 1 <= limiter.limits.maxFailed ==>
              attempts == |Of(limiter.failedAttempts, ip)| <= limiter.limits.maxFailed
    ensures 1 <= limiter.limits.maxFailed ==>
              Contained(old(limiter.failedAttempts), limiter.failedAttempts, limiter.limits.maxFailed)
  {
    hide Coherent, CountIn;
    if 1 <= limiter.limits.maxFailed {
      LockoutBound(limiter.limits, limiter.State(), limiter.records, limiter.clock, ip);
    }
    attempts, blocked := limiter.RecordFailedAuth(ip, now);
  }

  /** `get_api_key` followed by `get_tenant`; `keys` are the keys of registered tenants. */
  method GetTenant(limiter: RateLimiter, request: Request, keys: set<string>, now: Time) returns (outcome: Outcome)
    requires limiter.Valid() && limiter.clock <= now
    modifies limiter`failedAttempts, limiter`blockedIps, limiter`records, limiter`clock
    ensures limiter.Valid() && limiter.clock == now
    ensures outcome == AuthOutcome(limiter.limits, old(limiter.Known(request.ip)), TenantCheck(request, keys), now)
    ensures limiter.records == old(limiter.records)[request.ip :=
              AuthRecord(limiter.limits, Noticed(limiter.limits, old(limiter.Known(request.ip)), now),
                         TenantCheck(request, keys), now)]
    ensures outcome.KeyInvalid? && 1 <= limiter.limits.maxFailed ==> outcome.attempts <= limiter.limits.maxFailed
    ensures 1 <= limiter.limits.maxFailed ==>
              Contained(old(limiter.failedAttempts), limiter.failedAttempts, limiter.limits.maxFailed)
  {
    hide Coherent, CountIn, Contained;
    var ip := request.ip;
    ghost var failed, limit := limiter.failedAttempts, limiter.limits.maxFailed;
    ghost var seen := Noticed(limiter.limits, limiter.Known(ip), now);
    var barred := limiter.IsBlocked(ip, now);
    assert limiter.Known(ip) == seen;
    if barred {
      return TooManyRequests;
    }
    ghost var looked := limiter.failedAttempts;
    assert Noticed(limiter.limits, seen, now) == seen;
    var key := PresentedKey(request);
    if key.None? {
      var _, _ := Penalise(limiter, ip, now);
      ContainedTwice(failed, looked, limiter.failedAttempts, limit);
      return KeyRequired;
    }
    if key.value !in keys {
      var attempts, blocked := Penalise(limiter, ip, now);
      ContainedTwice(failed, looked, limiter.failedAttempts, limit);
      return KeyInvalid(attempts, blocked);
    }
    limiter.ClearFailedAuth(Some(ip), now);
    ContainedTwice(failed, looked, limiter.failedAttempts, limit);
    return Accepted(key.value);
  }

  method GetAdminKey(limiter: RateLimiter, request: Request, adminKey: string, now: Time) returns (outcome: Outcome)
    requires limiter.Valid() && limiter.clock <= now
    modifies limiter`failedAttempts, limiter`blockedIps, limiter`records, limiter`clock
    ensures limiter.Valid() && limiter.clock == now
    ensures outcome == AuthOutcome(limiter.limits, old(limiter.Known(request.ip)), AdminCheck(request, adminKey), now)
    ensures limiter.records == old(limiter.records)[request.ip :=
              AuthRecord(limiter.limits, Noticed(limiter.limits, old(limiter.Known(request.ip)), now),
                         AdminCheck(request, adminKey), now)]
    ensures outcome.KeyInvalid? && 1 <= limiter.limits.maxFailed ==> outcome.attempts <= limiter.limits.maxFailed
    ensures 1 <= limiter.limits.maxFailed ==>
              Contained(old(limiter.failedAttempts), limiter.failedAttempts, limiter.limits.maxFailed)
  {
    hide Coherent, CountIn, Contained;
    var ip := request.ip;
    ghost var failed, limit := limiter.failedAttempts, limiter.limits.maxFailed;
    ghost var seen := Noticed(limiter.limits, limiter.Known(ip), now);
    var barred := limiter.IsBlocked(ip, now);
    assert limiter.Known(ip) == seen;
    if barred {
      return TooManyRequests;
    }
    ghost var looked := limiter.failedAttempts;
    assert Noticed(limiter.limits, seen, now) == seen;
    var key := PresentedKey(request);
    if key.None? {
      var _, _ := Penalise(limiter, ip, now);
      ContainedTwice(failed, looked, limiter.failedAttempts, limit);
      return KeyRequired;
    }
    if adminKey == "" {
      return NotConfigured;
    }
    if !Ascii(key.value) || !Ascii(adminKey) {
      return ServerError;
    }
    if key.value != adminKey {
      var attempts, blocked := Penalise(limiter, ip, now);
      ContainedTwice(failed, looked, limiter.failedAttempts, limit);
      return KeyInvalid(attempts, blocked);
    }
    limiter.ClearFailedAuth(Some(ip), now);
    ContainedTwice(failed, looked, limiter.failedAttempts, limit);
    return Accepted(key.value);
  }
}
