/** The sliding-window request throttle (`RateLimiter`): a per-client log of `(timestamp, path)`
    entries, pruned to the trailing window, consulted to admit or reject each request, and swept
    periodically. Time is an explicit integer `now`, one value per request. */
module RateLimiting {
  import opened Wrappers
  import opened Seqs
  import opened Text

  /** One recorded request: when it was admitted and to which path. */
  datatype Entry = Entry(timestamp: int, path: string)

  /** The limiter's configuration, fixed at construction. */
  datatype Config = Config(
    rateLimitPerMinute: int,
    authRateLimitPerMinute: int,
    windowSize: int,
    authPaths: seq<string>,
    excludePaths: seq<string>)

  /** The limiter's mutable state: the request log per client id and the time of the last sweep. */
  datatype State = State(requests: map<string, seq<Entry>>, lastCleanup: int)

  /** What `dispatch` does with a request: pass it on unchecked, pass it on after admitting it,
      or answer 429. */
  datatype Decision = Excluded | Admitted | TooManyRequests

  const DefaultRateLimitPerMinute := 60
  const DefaultAuthRateLimitPerMinute := 5
  const DefaultWindowSize := 60
  const DefaultAuthPaths: seq<string> := ["/token", "/refresh"]
  /** `dispatch` sweeps when more than this many seconds passed since the last sweep. */
  const CleanupInterval := 60
  const TooManyRequestsStatus := 429
  const TooManyRequestsBody := "Muitas requisições. Tente novamente mais tarde."

  /** The constructor's defaults: an empty (or absent) list of auth paths means the default pair. */
  function MakeConfig(
    rateLimitPerMinute: int, authRateLimitPerMinute: int, windowSize: int,
    authPaths: seq<string>, excludePaths: seq<string>): (cfg: Config)
    ensures cfg.authPaths != []
    ensures authPaths != [] ==> cfg.authPaths == authPaths
    ensures cfg.excludePaths == excludePaths
  {
    Config(rateLimitPerMinute, authRateLimitPerMinute, windowSize,
           if authPaths == [] then DefaultAuthPaths else authPaths, excludePaths)
  }

  /** `any(path.startswith(p) for p in exclude_paths)`. */
  predicate IsExcluded(path: string, excludePaths: seq<string>) {
    exists p :: p in excludePaths && StartsWith(path, p)
  }

  /** `any(path.endswith(p) for p in auth_paths)`. */
  predicate IsAuthPath(path: string, authPaths: seq<string>) {
    exists p :: p in authPaths && EndsWith(path, p)
  }

  /** Entries strictly newer than the window start. */
  function After(windowStart: int): Entry -> bool {
    (e: Entry) => e.timestamp > windowStart
  }

  /** Entries recorded for an authentication path. */
  function HitsAuthPath(authPaths: seq<string>): Entry -> bool {
    (e: Entry) => IsAuthPath(e.path, authPaths)
  }

  /** Entries recorded for any other path. */
  function HitsOtherPath(authPaths: seq<string>): Entry -> bool {
    (e: Entry) => !IsAuthPath(e.path, authPaths)
  }

  /** `[req for req in entries if req[0] > window_start]`. */
  function Prune(entries: seq<Entry>, windowStart: int): seq<Entry> {
    Filter(entries, After(windowStart))
  }

  /** How many of the entries are for authentication paths. */
  function AuthCount(entries: seq<Entry>, authPaths: seq<string>): nat {
    |Filter(entries, HitsAuthPath(authPaths))|
  }

  /** How many of the entries are for other paths. */
  function OtherCount(entries: seq<Entry>, authPaths: seq<string>): nat {
    |Filter(entries, HitsOtherPath(authPaths))|
  }

  /** What `_cleanup_old_requests` leaves: every client's log pruned, emptied clients dropped. */
  function Swept(requests: map<string, seq<Entry>>, windowStart: int): map<string, seq<Entry>> {
    map c | c in requests && Prune(requests[c], windowStart) != [] :: Prune(requests[c], windowStart)
  }

  /** `_check_rate_limit`: whether the request is allowed, and the log afterwards. A client with
      no log is allowed and nothing is pruned; otherwise its log is pruned to the window and an
      auth request is measured against the auth budget by auth entries only, any other request
      against the standard budget by all entries. */
  function RateCheck(
    cfg: Config, requests: map<string, seq<Entry>>, clientId: string, isAuthPath: bool, now: int)
    : (r: (bool, map<string, seq<Entry>>))
  {
    if clientId !in requests then (true, requests)
    else
      var recent := Prune(requests[clientId], now - cfg.windowSize);
      var allowed :=
        if isAuthPath then AuthCount(recent, cfg.authPaths) < cfg.authRateLimitPerMinute
        else |recent| < cfg.rateLimitPerMinute;
      (allowed, requests[clientId := recent])
  }

  /** Lines 47-50 of `dispatch`: sweep when the last sweep is more than a minute old. */
  function Prepare(cfg: Config, st: State, now: int): State {
    if now - st.lastCleanup > CleanupInterval
    then State(Swept(st.requests, now - cfg.windowSize), now)
    else st
  }

  /** Lines 62-65 of `dispatch`: append the entry to the client's log, creating it if needed. */
  function Record(requests: map<string, seq<Entry>>, clientId: string, e: Entry): map<string, seq<Entry>> {
    requests[clientId := (if clientId in requests then requests[clientId] else []) + [e]]
  }

  /** `dispatch` for one request, as a function of the state before it. */
  function Step(cfg: Config, st: State, clientId: string, path: string, now: int): (State, Decision) {
    if IsExcluded(path, cfg.excludePaths) then (st, Excluded)
    else
      var prepared := Prepare(cfg, st, now);
      var check := RateCheck(cfg, prepared.requests, clientId, IsAuthPath(path, cfg.authPaths), now);
      if check.0 then (State(Record(check.1, clientId, Entry(now, path)), prepared.lastCleanup), Admitted)
      else (State(check.1, prepared.lastCleanup), TooManyRequests)
  }

  /** `_default_client_id`: the first comma-separated element of `X-Forwarded-For`, trimmed, when
      that header is present and non-empty; otherwise the connection's host, otherwise "unknown". */
  function DefaultClientId(forwardedFor: Option<string>, clientHost: Option<string>): (id: string)
    ensures forwardedFor.Some? && forwardedFor.value != "" ==>
              ',' !in id && (id == [] || (!IsSpace(id[0]) && !IsSpace(id[|id| - 1])))
    ensures (forwardedFor.None? || forwardedFor.value == "") ==>
              id == (if clientHost.Some? then clientHost.value else "unknown")
  {
    if forwardedFor.Some? && forwardedFor.value != "" then
      var first := BeforeFirst(forwardedFor.value, ',');
      var id := Strip(first);
      assert id == first[LeadingSpaces(first)..LeadingSpaces(first) + |id|];
      id
    else if clientHost.Some? then clientHost.value
    else "unknown"
  }

  class RateLimiter {
    const rateLimitPerMinute: int
    const authRateLimitPerMinute: int
    const windowSize: int
    const authPaths: seq<string>
    const excludePaths: seq<string>
    /** `{client_id: [(timestamp, path), ...]}` */
    var requests: map<string, seq<Entry>>
    var lastCleanup: int

    function Settings(): Config {
      Config(rateLimitPerMinute, authRateLimitPerMinute, windowSize, authPaths, excludePaths)
    }

    function Snapshot(): State
      reads this
    {
      State(requests, lastCleanup)
    }

    constructor(
      rateLimitPerMinute: int, authRateLimitPerMinute: int, windowSize: int,
      authPaths: seq<string>, excludePaths: seq<string>, now: int)
      ensures Settings() == MakeConfig(rateLimitPerMinute, authRateLimitPerMinute, windowSize, authPaths, excludePaths)
      ensures requests == map[] && lastCleanup == now
    {
      this.rateLimitPerMinute := rateLimitPerMinute;
      this.authRateLimitPerMinute := authRateLimitPerMinute;
      this.windowSize := windowSize;
      this.authPaths := if authPaths == [] then DefaultAuthPaths else authPaths;
      this.excludePaths := excludePaths;
      requests := map[];
      lastCleanup := now;
    }

    method CheckRateLimit(clientId: string, path: string, isAuthPath: bool, now: int) returns (allowed: bool)
      modifies this`requests
      ensures (allowed, requests) == RateCheck(Settings(), old(requests), clientId, isAuthPath, now)
    {
      if clientId !in requests {
        return true;
      }
      var windowStart := now - windowSize;
      var recentRequests := Prune(requests[clientId], windowStart);
      requests := requests[clientId := recentRequests];
      if isAuthPath {
        var authRequests := Filter(recentRequests, HitsAuthPath(authPaths));
        return |authRequests| < authRateLimitPerMinute;
      }
      return |recentRequests| < rateLimitPerMinute;
    }

    method CleanupOldRequests(now: int)
      modifies this`requests
      ensures requests == Swept(old(requests), now - windowSize)
    {
      var windowStart := now - windowSize;
      var pending := requests.Keys;
      while pending != {}
        invariant pending <= old(requests).Keys
        invariant requests.Keys <= old(requests).Keys
        invariant forall c :: c in pending ==> c in requests && requests[c] == old(requests)[c]
        invariant forall c :: c in old(requests) && c !in pending ==>
                    if Prune(old(requests)[c], windowStart) == [] then c !in requests
                    else c in requests && requests[c] == Prune(old(requests)[c], windowStart)
        decreases pending
      {
        var c :| c in pending;
        var recent := Prune(requests[c], windowStart);
        assert recent == Prune(old(requests)[c], windowStart);
        requests := requests[c := recent];
        if recent == [] {
          requests := requests - {c};
        }
        pending := pending - {c};
      }
      ghost var swept := Swept(old(requests), windowStart);
      assert requests.Keys == swept.Keys;
      assert forall c :: c in requests ==> requests[c] == swept[c];
    }

    /** The periodic sweep at the start of `dispatch`. */
    method CleanupIfDue(now: int)
      modifies this`requests, this`lastCleanup
      ensures Snapshot() == Prepare(Settings(), old(Snapshot()), now)
    {
      if now - lastCleanup > CleanupInterval {
        CleanupOldRequests(now);
        lastCleanup := now;
      }
    }

    method Dispatch(path: string, clientId: string, now: int) returns (decision: Decision)
      modifies this`requests, this`lastCleanup
      ensures (Snapshot(), decision) == Step(Settings(), old(Snapshot()), clientId, path, now)
    {
      ghost var before := Snapshot();
      if IsExcluded(path, excludePaths) {
        return Excluded;
      }
      CleanupIfDue(now);
      ghost var prepared := Snapshot();
      var isAuthPath := IsAuthPath(path, authPaths);
      var allowed := CheckRateLimit(clientId, path, isAuthPath, now);
      ghost var check := RateCheck(Settings(), prepared.requests, clientId, isAuthPath, now);
      assert allowed == check.0 && requests == check.1;
      if !allowed {
        assert Step(Settings(), before, clientId, path, now) == (Snapshot(), TooManyRequests);
        return TooManyRequests;
      }
      var log := if clientId in requests then requests[clientId] else [];
      requests := requests[clientId := log + [Entry(now, path)]];
      assert Step(Settings(), before, clientId, path, now) == (Snapshot(), Admitted);
      return Admitted;
    }
  }
}
