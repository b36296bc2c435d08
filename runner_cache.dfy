/**
 * The server's table of MLX runner processes, keyed by local model name
 * (server/routes_mlx.go). Time is an integer clock in nanoseconds and the
 * outcome of starting a runner is given by the caller.
 */
module RunnerCache {
  import opened Wrappers

  /** One runner: its port, the start error if the start failed, and its keep-alive bookkeeping. */
  datatype Entry = Entry(model: string, port: int, err: Option<string>, lastUsed: int, keepalive: int)

  /** How starting, health-waiting and loading a new runner ended. */
  datatype StartOutcome = Started(port: int) | StartFailed(err: string)

  datatype RunnerError = Cancelled | ProvisionFailed(err: string)

  /** An entry is stale once it has been idle for longer than a positive keep-alive. */
  predicate Expired(e: Entry, now: int) {
    e.keepalive > 0 && now - e.lastUsed > e.keepalive
  }

  /** Negative keep-alive durations are treated as zero. */
  function ClampKeepalive(k: int): (r: int)
    ensures r >= 0 && r >= k
    ensures k >= 0 ==> r == k
    ensures k < 0 ==> r == 0
  {
    if k < 0 then 0 else k
  }

  /** Table invariant: every entry is filed under its own name and has a non-negative keep-alive. */
  predicate WellFormed(m: map<string, Entry>) {
    forall k :: k in m ==> m[k].model == k && m[k].keepalive >= 0
  }

  /** The entries of `m` that survive an expiry sweep at `now`. */
  function Unexpired(m: map<string, Entry>, now: int): map<string, Entry>
  {
    map k | k in m && !Expired(m[k], now) :: m[k]
  }

  /** The table after a `getRunner` request, given the start outcome and whether the caller stopped waiting. */
  function AfterGetRunner(m: map<string, Entry>, model: string, keepalive: int, now: int,
                          start: StartOutcome, waitCancelled: bool): map<string, Entry>
  {
    var k := ClampKeepalive(keepalive);
    if model in m then
      var e := m[model];
      m[model := e.(keepalive := if k > e.keepalive then k else e.keepalive, lastUsed := now)]
    else if start.StartFailed? && !waitCancelled then
      m
    else
      m[model := NewEntry(model, k, now, start)]
  }

  function NewEntry(model: string, keepalive: int, now: int, start: StartOutcome): Entry {
    match start
    case Started(p) => Entry(model, p, None, now, keepalive)
    case StartFailed(e) => Entry(model, 0, Some(e), now, keepalive)
  }

  /** What `getRunner` returns for that request. */
  function GetRunnerResult(m: map<string, Entry>, model: string, keepalive: int, now: int,
                           start: StartOutcome, waitCancelled: bool): Result<Entry, RunnerError>
  {
    var e := AfterGetRunner(m, model, keepalive, now, start, waitCancelled);
    if waitCancelled then Failure(Cancelled)
    else if model in m then
      (if m[model].err.Some? then Failure(ProvisionFailed(m[model].err.value)) else Success(e[model]))
    else
      match start
      case Started(_) => Success(e[model])
      case StartFailed(msg) => Failure(ProvisionFailed(msg))
  }

  class RunnerTable {
    var entries: map<string, Entry>

    constructor ()
      ensures entries == map[]
    {
      entries := map[];
    }

    /** Refreshes the last-use time of a cached runner; an unknown name is ignored. */
    method Touch(model: string, now: int)
      modifies this
      ensures model in old(entries) ==> entries == old(entries)[model := old(entries)[model].(lastUsed := now)]
      ensures model !in old(entries) ==> entries == old(entries)
    {
      if model in entries {
        entries := entries[model := entries[model].(lastUsed := now)];
      }
    }

    /** Removes one runner from the table and hands back the entry to stop, if there was one. */
    method Evict(model: string) returns (stopped: Option<Entry>)
      modifies this
      ensures entries == old(entries) - {model}
      ensures stopped == if model in old(entries) then Some(old(entries)[model]) else None
    {
      if model in entries {
        stopped := Some(entries[model]);
        entries := entries - {model};
      } else {
        stopped := None;
      }
    }

    /** Removes every stale runner and returns the names of those to stop. */
    method EvictExpired(now: int) returns (stale: set<string>)
      modifies this
      ensures entries == Unexpired(old(entries), now)
      ensures stale == old(entries).Keys - entries.Keys
    {
      var pending := entries.Keys;
      stale := {};
      while pending != {}
        invariant pending <= old(entries).Keys
        invariant stale !! pending
        invariant forall k :: k in stale <==> k in old(entries) && k !in pending && Expired(old(entries)[k], now)
        invariant entries.Keys == old(entries).Keys - stale
        invariant forall k :: k in entries ==> entries[k] == old(entries)[k]
        decreases pending
      {
        var k :| k in pending;
        if Expired(entries[k], now) {
          entries := entries - {k};
          stale := stale + {k};
        }
        pending := pending - {k};
      }
      assert entries == Unexpired(old(entries), now);
    }

    /**
     * Returns the runner for `model`, creating the table entry first when
     * there is none. `start` is how starting the new runner ends, and
     * `waitCancelled` says the caller's context ended before the runner was
     * ready. A failed start is evicted by the caller that saw it fail.
     */
    method GetRunner(model: string, keepalive: int, now: int, start: StartOutcome, waitCancelled: bool)
      returns (r: Result<Entry, RunnerError>)
      modifies this
      ensures entries == AfterGetRunner(old(entries), model, keepalive, now, start, waitCancelled)
      ensures r == GetRunnerResult(old(entries), model, keepalive, now, start, waitCancelled)
    {
      var k := if keepalive < 0 then 0 else keepalive;
      if model in entries {
        var existing := entries[model];
        if k > existing.keepalive {
          existing := existing.(keepalive := k);
        }
        existing := existing.(lastUsed := now);
        entries := entries[model := existing];
        if waitCancelled {
          return Failure(Cancelled);
        }
        if existing.err.Some? {
          return Failure(ProvisionFailed(existing.err.value));
        }
        return Success(existing);
      }
      var entry := Entry(model, 0, None, now, k);
      match start {
        case Started(p) => entry := entry.(port := p);
        case StartFailed(e) => entry := entry.(err := Some(e));
      }
      entries := entries[model := entry];
      if waitCancelled {
        return Failure(Cancelled);
      }
      if entry.err.Some? {
        var _ := Evict(model);
        return Failure(ProvisionFailed(entry.err.value));
      }
      return Success(entry);
    }
  }

  /** Every table operation keeps the table well formed. */
  lemma GetRunnerKeepsWellFormed(m: map<string, Entry>, model: string, keepalive: int, now: int,
                                 start: StartOutcome, waitCancelled: bool)
    requires WellFormed(m)
    ensures WellFormed(AfterGetRunner(m, model, keepalive, now, start, waitCancelled))
  {
  }

  /**
   * A cached runner's keep-alive only grows, to the largest clamped value
   * requested so far, and its last-use time moves to now.
   */
  lemma GetRunnerExistingEntry(m: map<string, Entry>, model: string, keepalive: int, now: int,
                               start: StartOutcome, waitCancelled: bool)
    requires model in m && m[model].keepalive >= 0
    ensures var e := AfterGetRunner(m, model, keepalive, now, start, waitCancelled)[model];
      && e.keepalive == (if keepalive > m[model].keepalive then keepalive else m[model].keepalive)
      && e.keepalive >= m[model].keepalive
      && e.lastUsed == now && e.port == m[model].port && e.err == m[model].err
    ensures AfterGetRunner(m, model, keepalive, now, start, waitCancelled).Keys == m.Keys
  {
  }

  /** A failed start seen by the waiting caller leaves no entry behind and reports the start error. */
  lemma GetRunnerFailedStart(m: map<string, Entry>, model: string, keepalive: int, now: int, err: string)
    requires model !in m
    ensures AfterGetRunner(m, model, keepalive, now, StartFailed(err), false) == m
    ensures GetRunnerResult(m, model, keepalive, now, StartFailed(err), false) == Failure(ProvisionFailed(err))
  {
  }

  /** A successful start adds exactly the new entry, with the clamped keep-alive. */
  lemma GetRunnerStarted(m: map<string, Entry>, model: string, keepalive: int, now: int, port: int)
    requires model !in m
    ensures var m' := AfterGetRunner(m, model, keepalive, now, Started(port), false);
      && m'.Keys == m.Keys + {model}
      && m'[model] == Entry(model, port, None, now, ClampKeepalive(keepalive))
      && GetRunnerResult(m, model, keepalive, now, Started(port), false) == Success(m'[model])
  {
  }

  /** A sweep keeps every entry whose keep-alive is zero, however long it has been idle. */
  lemma ZeroKeepaliveNeverExpires(m: map<string, Entry>, now: int, k: string)
    requires k in m && m[k].keepalive == 0
    ensures k in Unexpired(m, now) && Unexpired(m, now)[k] == m[k]
  {
  }

  /** A runner touched at `now` survives a sweep at `now`. */
  lemma TouchedSurvivesSweep(m: map<string, Entry>, model: string, now: int)
    requires model in m && m[model].keepalive >= 0
    ensures model in Unexpired(m[model := m[model].(lastUsed := now)], now)
  {
  }

  /** A runner handed out by `getRunner` at `now` survives a sweep at `now`. */
  lemma ProvisionedSurvivesSweep(m: map<string, Entry>, model: string, keepalive: int, now: int,
                                 start: StartOutcome, waitCancelled: bool)
    requires WellFormed(m)
    requires GetRunnerResult(m, model, keepalive, now, start, waitCancelled).Success?
    ensures model in Unexpired(AfterGetRunner(m, model, keepalive, now, start, waitCancelled), now)
  {
  }

  /** Sweeping twice at the same time removes nothing more. */
  lemma SweepIdempotent(m: map<string, Entry>, now: int)
    ensures Unexpired(Unexpired(m, now), now) == Unexpired(m, now)
  {
  }
}
