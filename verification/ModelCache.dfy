/**
 The model list cache of internal/aigateway/models.go: stale-while-revalidate with a single-flight probe.
 Every method of `ModelDiscoverer` is one critical section of its mutex, given the clock readings the section
 takes; a function of the same shape says what it does to the cache as a value.
 */
module ModelCache {
  import opened Common

  type Models = seq<string>
  type Time = int

  datatype Config = Config(successTTL: nat, failureBackoff: nat)

  /** `cached` and `failedAt` are None for Go's zero time. Channels are numbered in the order of their creation. */
  datatype Cache = Cache(models: Option<Models>, cached: Option<Time>, failedAt: Option<Time>,
                         lastErr: Option<string>, refreshing: bool, refreshDone: Option<nat>, nextChan: nat)

  const COLD := Cache(None, None, None, None, false, None, 0)

  datatype Reply = Models(models: Models) | Failed(error: string)

  /** What a read decides in its first critical section. */
  datatype Decision =
    | Serve(models: Models)                  // fresh, or stale while a probe is in flight
    | ServeAndRefresh(models: Models, ch: nat)  // stale: this read starts a background probe
    | Wait(ch: nat)                          // cold, probe in flight
    | Backoff(error: string)                 // cold, a recent probe failed
    | Load(ch: nat)                          // cold: this read runs the probe itself

  datatype Outcome = Listed(models: Models) | ProbeError(error: string)

  predicate Fresh(c: Cache, cfg: Config, now: Time) {
    c.models.Some? && c.cached.Some? && now - c.cached.value < cfg.successTTL
  }

  predicate BackingOff(c: Cache, cfg: Config, now: Time) {
    c.failedAt.Some? && c.lastErr.Some? && now - c.failedAt.value < cfg.failureBackoff
  }

  /** fetchOrCache up to its first unlock; `now` and `later` are its two looks at the clock. */
  function Read(c: Cache, cfg: Config, now: Time, later: Time): (Cache, Decision) {
    if Fresh(c, cfg, now) then (c, Serve(c.models.value))
    else if c.refreshing then
      (c, if c.models.Some? then Serve(c.models.value)
          else if c.refreshDone.Some? then Wait(c.refreshDone.value) else Wait(c.nextChan))
    else if c.models.None? && BackingOff(c, cfg, later) then (c, Backoff(c.lastErr.value))
    else
      (c.(refreshing := true, refreshDone := Some(c.nextChan), nextChan := c.nextChan + 1),
       if c.models.Some? then ServeAndRefresh(c.models.value, c.nextChan) else Load(c.nextChan))
  }

  /** refresh after its probe returned: the new cache, the channel to close, and what the caller gets. */
  function Finish(c: Cache, o: Outcome, now: Time, later: Time): (Cache, Option<nat>, Reply) {
    var c1 := c.(refreshing := false, refreshDone := None);
    match o
    case ProbeError(e) =>
      var c2 := c1.(failedAt := Some(now), lastErr := Some(e));
      if c.models.Some? then (c2.(cached := Some(later)), c.refreshDone, Models(c.models.value))
      else (c2, c.refreshDone, Failed(e))
    case Listed(ms) =>
      (c1.(models := Some(ms), cached := Some(now), failedAt := None, lastErr := None), c.refreshDone, Models(ms))
  }

  /** A cold reader's second look, once the probe it waited for is over. */
  function AfterWait(c: Cache): Reply {
    match c.models
    case Some(ms) => Models(ms)
    case None =>
      Failed(match c.lastErr case Some(e) => e case None => "opencode model discovery: refresh produced no models")
  }

  function Invalidated(c: Cache): Cache {
    c.(cached := None)
  }

  class ModelDiscoverer {
    const cfg: Config
    var models: Option<Models>
    var cached: Option<Time>
    var failedAt: Option<Time>
    var lastErr: Option<string>
    var refreshing: bool
    var refreshDone: Option<nat>
    var nextChan: nat

    function Value(): Cache
      reads this
    {
      Cache(models, cached, failedAt, lastErr, refreshing, refreshDone, nextChan)
    }

    constructor (cfg: Config)
      ensures Value() == COLD && this.cfg == cfg
    {
      this.cfg := cfg;
      models, cached, failedAt, lastErr := None, None, None, None;
      refreshing, refreshDone, nextChan := false, None, 0;
    }

    method StartRefreshLocked() returns (ch: nat)
      modifies this
      ensures Value() == old(Value()).(refreshing := true, refreshDone := Some(ch), nextChan := ch + 1)
      ensures ch == old(nextChan)
    {
      ch := nextChan;
      refreshing, refreshDone, nextChan := true, Some(ch), nextChan + 1;
    }

    method FinishRefreshLocked() returns (done: Option<nat>)
      modifies this
      ensures Value() == old(Value()).(refreshing := false, refreshDone := None) && done == old(refreshDone)
    {
      done := refreshDone;
      refreshing, refreshDone := false, None;
    }

    method BeginRead(now: Time, later: Time) returns (d: Decision)
      modifies this
      ensures (Value(), d) == Read(old(Value()), cfg, now, later)
    {
      if models.Some? && cached.Some? && now - cached.value < cfg.successTTL {
        return Serve(models.value);
      }
      if refreshing {
        var wait := if refreshDone.Some? then refreshDone.value else nextChan;
        if models.Some? {
          return Serve(models.value);
        }
        return Wait(wait);
      }
      if models.Some? {
        var ch := StartRefreshLocked();
        return ServeAndRefresh(models.value, ch);
      }
      if failedAt.Some? && lastErr.Some? && later - failedAt.value < cfg.failureBackoff {
        return Backoff(lastErr.value);
      }
      var ch := StartRefreshLocked();
      d := Load(ch);
    }

    method EndProbe(o: Outcome, now: Time, later: Time) returns (done: Option<nat>, reply: Reply)
      modifies this
      ensures (Value(), done, reply) == Finish(old(Value()), o, now, later)
    {
      done := FinishRefreshLocked();
      match o
      case ProbeError(e) =>
        failedAt := Some(now);
        lastErr := Some(e);
        if models.Some? {
          cached := Some(later);
          reply := Models(models.value);
        } else {
          reply := Failed(e);
        }
      case Listed(ms) =>
        models := Some(ms);
        cached := Some(now);
        failedAt := None;
        lastErr := None;
        reply := Models(ms);
    }

    method ReadAfterWait() returns (reply: Reply)
      ensures reply == AfterWait(Value())
    {
      if models.Some? {
        return Models(models.value);
      }
      reply := Failed(match lastErr
                      case Some(e) => e
                      case None => "opencode model discovery: refresh produced no models");
    }

    method Invalidate()
      modifies this
      ensures Value() == Invalidated(old(Value()))
    {
      cached := None;
    }
  }

  // ---------------------------------------------------------------- what an invalidation achieves

  predicate StartsProbe(d: Decision) {
    d.ServeAndRefresh? || d.Load?
  }

  /** Invalidate promises that the next read refreshes. It does exactly when no probe is in flight and the
      cache is not a cold one that is backing off. */
  lemma InvalidateRefreshesIff(c: Cache, cfg: Config, now: Time, later: Time)
    ensures StartsProbe(Read(Invalidated(c), cfg, now, later).1) <==>
            !c.refreshing && (c.models.Some? || !BackingOff(c, cfg, later))
  {
  }

  /** Under an in-flight probe the invalidation is lost for good: the probe that started before it stamps its own
      completion time, whether it succeeds or fails with a list to fall back on, and a read within the lifetime is
      served the list it leaves. */
  lemma InvalidateDuringProbeIsLost(c: Cache, cfg: Config, o: Outcome, end: Time, end': Time, now: Time, later: Time)
    requires c.refreshing && (o.Listed? || c.models.Some?)
    requires var stamp := if o.Listed? then end else end'; stamp <= now < stamp + cfg.successTTL
    ensures var c1 := Finish(Invalidated(c), o, end, end').0;
            Read(c1, cfg, now, later) == (c1, Serve(if o.Listed? then o.models else c.models.value))
    ensures Finish(Invalidated(c), o, end, end').0 == Finish(c, o, end, end').0
  {
  }
}
