/** What the sliding-window throttle guarantees, proved about the functions that specify
    `RateLimiter.Dispatch`, `CheckRateLimit` and `CleanupOldRequests`. */
module RateLimitingProperties {
  import opened Wrappers
  import opened Seqs
  import opened Text
  import opened RateLimiting

  // ---------------------------------------------------------------- pruning

  /** Pruning keeps exactly the entries newer than the window start, in their original order. */
  lemma PruneKeepsWindow(entries: seq<Entry>, windowStart: int)
    ensures forall e :: e in Prune(entries, windowStart) <==> e in entries && e.timestamp > windowStart
    ensures IsSubsequence(Prune(entries, windowStart), entries)
  {
    FilterMembers(entries, After(windowStart));
    FilterIsSubsequence(entries, After(windowStart));
  }

  /** Pruning again at the same window start changes nothing. */
  lemma PruneIdempotent(entries: seq<Entry>, windowStart: int)
    ensures Prune(Prune(entries, windowStart), windowStart) == Prune(entries, windowStart)
  {
    FilterIdempotent(entries, After(windowStart));
  }

  /** Pruning at an earlier window start and then at a later one is pruning once at the later one. */
  lemma {:induction false} PruneThenPruneLater(entries: seq<Entry>, earlier: int, later: int)
    requires earlier <= later
    ensures Prune(Prune(entries, earlier), later) == Prune(entries, later)
    decreases |entries|
  {
    if entries != [] {
      var head, tail := [entries[0]], entries[1..];
      assert entries == head + tail;
      PruneThenPruneLater(tail, earlier, later);
      FilterAppend(Prune(head, earlier), Prune(tail, earlier), After(later));
    }
  }

  /** Entries in the order they were recorded under a clock that never goes back. */
  ghost predicate Chronological(entries: seq<Entry>) {
    forall i, j :: 0 <= i < j < |entries| ==> entries[i].timestamp <= entries[j].timestamp
  }

  /** The position of the oldest entry still inside the window, or the length when there is none. */
  function FirstInWindow(entries: seq<Entry>, windowStart: int): (k: nat)
    ensures k <= |entries|
    ensures forall i :: 0 <= i < k ==> entries[i].timestamp <= windowStart
    ensures k < |entries| ==> entries[k].timestamp > windowStart
  {
    match FirstIndex(entries, After(windowStart))
    case None => |entries|
    case Some(k) => k
  }

  /** The entries before the first one inside the window all prune away. */
  lemma PruneAllExpired(entries: seq<Entry>, windowStart: int)
    ensures Prune(entries[..FirstInWindow(entries, windowStart)], windowStart) == []
  {
    var early := entries[..FirstInWindow(entries, windowStart)];
    forall e | e in early ensures !After(windowStart)(e) {
      var i :| 0 <= i < |early| && early[i] == e;
      assert early[i] == entries[i];
    }
    FilterNonePass(early, After(windowStart));
  }

  /** In a chronological log, the entries from the first one inside the window on are kept whole. */
  lemma PruneAllRecent(entries: seq<Entry>, windowStart: int)
    requires Chronological(entries)
    ensures Prune(entries[FirstInWindow(entries, windowStart)..], windowStart) == entries[FirstInWindow(entries, windowStart)..]
  {
    var k := FirstInWindow(entries, windowStart);
    var recent := entries[k..];
    forall e | e in recent ensures After(windowStart)(e) {
      var i :| 0 <= i < |recent| && recent[i] == e;
      assert recent[i] == entries[k + i];
      assert entries[k].timestamp <= entries[k + i].timestamp;
    }
    FilterAllPass(recent, After(windowStart));
  }

  /** For a chronological log, pruning cuts off a prefix: the window is a suffix of the log. */
  lemma PruneChronologicalIsSuffix(entries: seq<Entry>, windowStart: int)
    requires Chronological(entries)
    ensures Prune(entries, windowStart) == entries[FirstInWindow(entries, windowStart)..]
  {
    var k := FirstInWindow(entries, windowStart);
    assert entries == entries[..k] + entries[k..];
    FilterAppend(entries[..k], entries[k..], After(windowStart));
    PruneAllExpired(entries, windowStart);
    PruneAllRecent(entries, windowStart);
  }

  // ---------------------------------------------------------------- counting

  /** Every entry is either an auth entry or an other entry. */
  lemma {:induction false} CountsPartition(entries: seq<Entry>, authPaths: seq<string>)
    ensures AuthCount(entries, authPaths) + OtherCount(entries, authPaths) == |entries|
    decreases |entries|
  {
    if entries != [] {
      var head, tail := [entries[0]], entries[1..];
      assert entries == head + tail;
      CountsPartition(tail, authPaths);
      FilterAppend(head, tail, HitsAuthPath(authPaths));
      FilterAppend(head, tail, HitsOtherPath(authPaths));
    }
  }

  /** Recording one entry adds one to exactly one of the two counts. */
  lemma CountsAppend(entries: seq<Entry>, e: Entry, authPaths: seq<string>)
    ensures AuthCount(entries + [e], authPaths) == AuthCount(entries, authPaths) + (if IsAuthPath(e.path, authPaths) then 1 else 0)
    ensures OtherCount(entries + [e], authPaths) == OtherCount(entries, authPaths) + (if IsAuthPath(e.path, authPaths) then 0 else 1)
  {
    FilterAppend(entries, [e], HitsAuthPath(authPaths));
    FilterAppend(entries, [e], HitsOtherPath(authPaths));
  }

  /** Pruning never raises either count. */
  lemma CountsPruned(entries: seq<Entry>, windowStart: int, authPaths: seq<string>)
    ensures AuthCount(Prune(entries, windowStart), authPaths) <= AuthCount(entries, authPaths)
    ensures OtherCount(Prune(entries, windowStart), authPaths) <= OtherCount(entries, authPaths)
  {
    FilterCommutes(entries, After(windowStart), HitsAuthPath(authPaths));
    FilterCommutes(entries, After(windowStart), HitsOtherPath(authPaths));
  }

  // ---------------------------------------------------------------- one request

  /** After the check, a known client's log holds exactly its old entries newer than the window
      start, in their original order, and no other client's log changes. */
  lemma CheckPrunesClient(
    cfg: Config, requests: map<string, seq<Entry>>, clientId: string, isAuthPath: bool, now: int)
    requires clientId in requests
    ensures
      var after := RateCheck(cfg, requests, clientId, isAuthPath, now).1;
      && after.Keys == requests.Keys
      && (forall c :: c in requests && c != clientId ==> after[c] == requests[c])
      && (forall e :: e in after[clientId] <==> e in requests[clientId] && e.timestamp > now - cfg.windowSize)
      && IsSubsequence(after[clientId], requests[clientId])
  {
    PruneKeepsWindow(requests[clientId], now - cfg.windowSize);
  }

  /** A path under an excluded prefix passes with no check and no recording: nothing changes. */
  lemma ExcludedPassesThrough(cfg: Config, st: State, clientId: string, path: string, now: int)
    requires IsExcluded(path, cfg.excludePaths)
    ensures Step(cfg, st, clientId, path, now) == (st, Excluded)
  {
  }

  /** A client with no log (after the periodic sweep) is always admitted, nothing is pruned for
      it, and its log becomes the single new entry. */
  lemma UnknownClientAdmitted(cfg: Config, st: State, clientId: string, path: string, now: int)
    requires !IsExcluded(path, cfg.excludePaths)
    requires clientId !in Prepare(cfg, st, now).requests
    ensures Step(cfg, st, clientId, path, now).1 == Admitted
    ensures Step(cfg, st, clientId, path, now).0.requests
            == Prepare(cfg, st, now).requests[clientId := [Entry(now, path)]]
  {
    assert [] + [Entry(now, path)] == [Entry(now, path)];
  }

  /** An auth request from a known client is admitted iff fewer than the auth budget of its
      in-window entries are auth entries; other entries do not count. */
  lemma AuthAdmission(cfg: Config, st: State, clientId: string, path: string, now: int)
    requires !IsExcluded(path, cfg.excludePaths) && IsAuthPath(path, cfg.authPaths)
    requires clientId in Prepare(cfg, st, now).requests
    ensures Step(cfg, st, clientId, path, now).1 == Admitted
            <==> AuthCount(Prune(Prepare(cfg, st, now).requests[clientId], now - cfg.windowSize), cfg.authPaths)
                 < cfg.authRateLimitPerMinute
    ensures Step(cfg, st, clientId, path, now).1 != Excluded
  {
  }

  /** Any other request from a known client is admitted iff its whole in-window log, auth
      entries included, is below the standard budget. */
  lemma StandardAdmission(cfg: Config, st: State, clientId: string, path: string, now: int)
    requires !IsExcluded(path, cfg.excludePaths) && !IsAuthPath(path, cfg.authPaths)
    requires clientId in Prepare(cfg, st, now).requests
    ensures Step(cfg, st, clientId, path, now).1 == Admitted
            <==> |Prune(Prepare(cfg, st, now).requests[clientId], now - cfg.windowSize)| < cfg.rateLimitPerMinute
    ensures Step(cfg, st, clientId, path, now).1 != Excluded
  {
  }

  /** An admitted request appends exactly `(now, path)` to the end of the client's pruned log; a
      rejected one records nothing and only prunes; either way no other client's log changes
      after the periodic sweep. */
  lemma StepRecordsOnlyAdmitted(cfg: Config, st: State, clientId: string, path: string, now: int)
    requires !IsExcluded(path, cfg.excludePaths)
    ensures
      var prepared := Prepare(cfg, st, now).requests;
      var pruned := if clientId in prepared then Prune(prepared[clientId], now - cfg.windowSize) else [];
      var (next, decision) := Step(cfg, st, clientId, path, now);
      && decision != Excluded
      && next.lastCleanup == Prepare(cfg, st, now).lastCleanup
      && (decision == Admitted ==> next.requests == prepared[clientId := pruned + [Entry(now, path)]])
      && (decision == TooManyRequests ==> clientId in prepared && next.requests == prepared[clientId := pruned])
  {
  }

  // ---------------------------------------------------------------- the sweep

  /** After a sweep every remaining log is non-empty and inside the window, exactly the clients
      with an in-window entry remain, and each keeps its in-window entries in order. */
  lemma SweptIsClean(requests: map<string, seq<Entry>>, windowStart: int)
    ensures forall c :: c in Swept(requests, windowStart) ==>
              Swept(requests, windowStart)[c] != []
              && forall e :: e in Swept(requests, windowStart)[c] ==> e.timestamp > windowStart
    ensures forall c :: c in requests ==>
              (c in Swept(requests, windowStart) <==> exists e :: e in requests[c] && e.timestamp > windowStart)
    ensures forall c :: c in Swept(requests, windowStart) ==>
              c in requests && IsSubsequence(Swept(requests, windowStart)[c], requests[c])
  {
    forall c | c in requests
      ensures var p := Prune(requests[c], windowStart);
              (forall e :: e in p <==> e in requests[c] && e.timestamp > windowStart)
              && IsSubsequence(p, requests[c])
    {
      PruneKeepsWindow(requests[c], windowStart);
    }
  }

  /** Sweeping twice at the same time is sweeping once. */
  lemma SweptIdempotent(requests: map<string, seq<Entry>>, windowStart: int)
    ensures Swept(Swept(requests, windowStart), windowStart) == Swept(requests, windowStart)
  {
    var once := Swept(requests, windowStart);
    forall c | c in once
      ensures Prune(once[c], windowStart) == once[c]
    {
      PruneIdempotent(requests[c], windowStart);
    }
    assert Swept(once, windowStart).Keys == once.Keys;
  }

  // ---------------------------------------------------------------- budgets over time

  /** The larger of the standard budget and one: a client with no log is admitted whatever
      the standard budget says. */
  function OtherBudget(cfg: Config): nat {
    if cfg.rateLimitPerMinute >= 1 then cfg.rateLimitPerMinute else 1
  }

  /** A log holds no more auth entries than the auth budget and no more other entries than
      the standard budget. */
  ghost predicate LogBounded(cfg: Config, log: seq<Entry>) {
    AuthCount(log, cfg.authPaths) <= cfg.authRateLimitPerMinute
    && OtherCount(log, cfg.authPaths) <= OtherBudget(cfg)
  }

  /** Every client's log is within budget. */
  ghost predicate Bounded(cfg: Config, requests: map<string, seq<Entry>>) {
    forall c :: c in requests ==> LogBounded(cfg, requests[c])
  }

  /** Pruning keeps a log within budget. */
  lemma PruneKeepsLogBounded(cfg: Config, log: seq<Entry>, windowStart: int)
    requires LogBounded(cfg, log)
    ensures LogBounded(cfg, Prune(log, windowStart))
  {
    CountsPruned(log, windowStart, cfg.authPaths);
  }

  lemma SweptKeepsBounds(cfg: Config, requests: map<string, seq<Entry>>, windowStart: int)
    requires Bounded(cfg, requests)
    ensures Bounded(cfg, Swept(requests, windowStart))
  {
    forall c | c in Swept(requests, windowStart)
      ensures LogBounded(cfg, Swept(requests, windowStart)[c])
    {
      PruneKeepsLogBounded(cfg, requests[c], windowStart);
    }
  }

  /** The periodic sweep keeps every log within budget. */
  lemma PrepareKeepsBounds(cfg: Config, st: State, now: int)
    requires Bounded(cfg, st.requests)
    ensures Bounded(cfg, Prepare(cfg, st, now).requests)
  {
    if now - st.lastCleanup > CleanupInterval {
      SweptKeepsBounds(cfg, st.requests, now - cfg.windowSize);
    }
  }

  /** Replacing one client's log by a log within budget keeps every log within budget. */
  lemma UpdateKeepsBounds(cfg: Config, requests: map<string, seq<Entry>>, clientId: string, log: seq<Entry>)
    requires Bounded(cfg, requests) && LogBounded(cfg, log)
    ensures Bounded(cfg, requests[clientId := log])
  {
    var m := requests[clientId := log];
    forall c | c in m ensures LogBounded(cfg, m[c]) {
      if c != clientId {
        assert m[c] == requests[c];
      }
    }
  }

  /** The rate check only prunes, so it keeps every log within budget. */
  lemma CheckKeepsBounds(
    cfg: Config, requests: map<string, seq<Entry>>, clientId: string, isAuthPath: bool, now: int)
    requires Bounded(cfg, requests)
    ensures Bounded(cfg, RateCheck(cfg, requests, clientId, isAuthPath, now).1)
  {
    if clientId in requests {
      PruneKeepsLogBounded(cfg, requests[clientId], now - cfg.windowSize);
      UpdateKeepsBounds(cfg, requests, clientId, Prune(requests[clientId], now - cfg.windowSize));
    }
  }

  /** An admitted entry, appended to the pruned log it was checked against, leaves the log
      within budget, provided the auth budget admits at least the first auth request. */
  lemma AdmittedLogBounded(cfg: Config, recent: seq<Entry>, isAuthPath: bool, e: Entry)
    requires cfg.authRateLimitPerMinute >= 1
    requires isAuthPath == IsAuthPath(e.path, cfg.authPaths)
    requires LogBounded(cfg, recent)
    requires recent == [] || (if isAuthPath then AuthCount(recent, cfg.authPaths) < cfg.authRateLimitPerMinute
                              else |recent| < cfg.rateLimitPerMinute)
    ensures LogBounded(cfg, recent + [e])
  {
    CountsAppend(recent, e, cfg.authPaths);
    CountsPartition(recent, cfg.authPaths);
  }

  /** Recording an admitted request keeps every log within budget. */
  lemma AdmitKeepsBounds(cfg: Config, requests: map<string, seq<Entry>>, clientId: string, path: string, now: int)
    requires cfg.authRateLimitPerMinute >= 1
    requires Bounded(cfg, requests)
    requires RateCheck(cfg, requests, clientId, IsAuthPath(path, cfg.authPaths), now).0
    ensures Bounded(cfg, Record(RateCheck(cfg, requests, clientId, IsAuthPath(path, cfg.authPaths), now).1,
                                clientId, Entry(now, path)))
  {
    var isAuth := IsAuthPath(path, cfg.authPaths);
    var checked := RateCheck(cfg, requests, clientId, isAuth, now).1;
    CheckKeepsBounds(cfg, requests, clientId, isAuth, now);
    var log := if clientId in checked then checked[clientId] else [];
    assert LogBounded(cfg, log);
    AdmittedLogBounded(cfg, log, isAuth, Entry(now, path));
    UpdateKeepsBounds(cfg, checked, clientId, log + [Entry(now, path)]);
  }

  /** With an auth budget of at least one, every request keeps every client's auth entries
      within the auth budget and its other entries within the standard budget. */
  lemma StepKeepsBounds(cfg: Config, st: State, clientId: string, path: string, now: int)
    requires cfg.authRateLimitPerMinute >= 1
    requires Bounded(cfg, st.requests)
    ensures Bounded(cfg, Step(cfg, st, clientId, path, now).0.requests)
  {
    if !IsExcluded(path, cfg.excludePaths) {
      var prepared := Prepare(cfg, st, now);
      PrepareKeepsBounds(cfg, st, now);
      var isAuth := IsAuthPath(path, cfg.authPaths);
      var check := RateCheck(cfg, prepared.requests, clientId, isAuth, now);
      if check.0 {
        AdmitKeepsBounds(cfg, prepared.requests, clientId, path, now);
        assert Step(cfg, st, clientId, path, now).0.requests == Record(check.1, clientId, Entry(now, path));
      } else {
        CheckKeepsBounds(cfg, prepared.requests, clientId, isAuth, now);
        assert Step(cfg, st, clientId, path, now).0.requests == check.1;
      }
    }
  }

  /** A request arriving at the limiter. */
  datatype Request = Request(clientId: string, path: string, now: int)

  /** The state after serving the requests in order. */
  function Run(cfg: Config, st: State, requests: seq<Request>): State
    decreases |requests|
  {
    if requests == [] then st
    else
      var r := requests[0];
      Run(cfg, Step(cfg, st, r.clientId, r.path, r.now).0, requests[1..])
  }

  /** From a fresh limiter, whatever requests arrive and whatever their timestamps, no client's
      log ever holds more auth entries than the auth budget (at least one), so no window of the
      log does either. */
  lemma {:induction false} RunKeepsAuthBudget(cfg: Config, st: State, requests: seq<Request>)
    requires cfg.authRateLimitPerMinute >= 1
    requires Bounded(cfg, st.requests)
    ensures Bounded(cfg, Run(cfg, st, requests).requests)
    ensures forall c, windowStart :: c in Run(cfg, st, requests).requests ==>
              AuthCount(Prune(Run(cfg, st, requests).requests[c], windowStart), cfg.authPaths)
              <= cfg.authRateLimitPerMinute
    decreases |requests|
  {
    if requests != [] {
      var r := requests[0];
      StepKeepsBounds(cfg, st, r.clientId, r.path, r.now);
      RunKeepsAuthBudget(cfg, Step(cfg, st, r.clientId, r.path, r.now).0, requests[1..]);
    } else {
      forall c, windowStart | c in st.requests
        ensures AuthCount(Prune(st.requests[c], windowStart), cfg.authPaths) <= cfg.authRateLimitPerMinute
      {
        PruneKeepsLogBounded(cfg, st.requests[c], windowStart);
      }
    }
  }

  // ---------------------------------------------------------------- client id

  /** Only the first hop of `X-Forwarded-For` matters, with its whitespace trimmed. */
  lemma ClientIdIsFirstHop(first: string, rest: string, clientHost: Option<string>)
    requires ',' !in first
    ensures DefaultClientId(Some(first + "," + rest), clientHost) == Strip(first)
  {
    var header := first + "," + rest;
    assert forall i :: 0 <= i < |first| ==> header[i] == first[i] && first[i] in first;
    TakeWhileUnique(header, c => c != ',', |first|);
    assert header[..|first|] == first;
  }

  /** A single, untrimmed-free hop is the client id itself. */
  lemma ClientIdSingleHop(hop: string, clientHost: Option<string>)
    requires hop != [] && ',' !in hop && !IsSpace(hop[0]) && !IsSpace(hop[|hop| - 1])
    ensures DefaultClientId(Some(hop), clientHost) == hop
  {
    assert hop[..|hop|] == hop;
    TakeWhileUnique(hop, c => c != ',', |hop|);
    assert LeadingSpaces(hop) == 0;
    assert hop[0..] == hop;
  }
}
