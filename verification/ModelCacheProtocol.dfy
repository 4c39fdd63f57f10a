/**
 Readers, probe owners and cold waiters of the model cache (internal/aigateway/models.go) interleave at the
 critical sections of its mutex; closing the done channel is a step of its own, after the unlock.
 */
module ModelCacheProtocol {
  import opened Common
  import opened ModelCache

  /** A stale read that starts a probe has answered at once; its number then names the goroutine it spawned. */
  datatype Pc =
    | Idle
    | Probing(ch: nat, background: bool)
    | Closing(done: Option<nat>)
    | Waiting(ch: nat)
    | Woken

  /** `owner` remembers which goroutine opened a channel; `clock` is the latest reading anybody took. */
  datatype World = World(cache: Cache, actors: map<nat, Pc>, closed: set<nat>, owner: map<nat, nat>, clock: Time)

  datatype Event =
    | BeginRead(a: nat, now: Time, later: Time)
    | EndProbe(a: nat, o: Outcome, now: Time, later: Time)
    | CloseDone(a: nat)
    | Wake(a: nat)
    | CancelWait(a: nat)
    | RereadAfterWait(a: nat)
    | Invalidate

  const INIT := World(COLD, map[], {}, map[], 0)

  function PcOf(w: World, a: nat): Pc {
    if a in w.actors then w.actors[a] else Idle
  }

  predicate Enabled(w: World, e: Event) {
    match e
    case BeginRead(a, now, later) => PcOf(w, a).Idle? && w.clock <= now <= later
    case EndProbe(a, _, now, later) => PcOf(w, a).Probing? && w.clock <= now <= later
    case CloseDone(a) => PcOf(w, a).Closing?
    case Wake(a) => PcOf(w, a).Waiting? && PcOf(w, a).ch in w.closed
    case CancelWait(a) => PcOf(w, a).Waiting?
    case RereadAfterWait(a) => PcOf(w, a).Woken?
    case Invalidate => true
  }

  function NextCache(w: World, e: Event, cfg: Config): Cache {
    match e
    case BeginRead(_, now, later) => Read(w.cache, cfg, now, later).0
    case EndProbe(_, o, now, later) => Finish(w.cache, o, now, later).0
    case Invalidate => Invalidated(w.cache)
    case _ => w.cache
  }

  function NextPc(w: World, e: Event, cfg: Config): Pc
    requires !e.Invalidate?
  {
    match e
    case BeginRead(_, now, later) =>
      (match Read(w.cache, cfg, now, later).1
       case Wait(ch) => Waiting(ch)
       case Load(ch) => Probing(ch, false)
       case ServeAndRefresh(_, ch) => Probing(ch, true)
       case _ => Idle)
    case EndProbe(_, o, now, later) => Closing(Finish(w.cache, o, now, later).1)
    case Wake(_) => Woken
    case _ => Idle
  }

  predicate StartsProbeNow(w: World, e: Event, cfg: Config) {
    e.BeginRead? && StartsProbe(Read(w.cache, cfg, e.now, e.later).1)
  }

  function Apply(w: World, e: Event, cfg: Config): World {
    World(NextCache(w, e, cfg),
          if e.Invalidate? then w.actors else w.actors[e.a := NextPc(w, e, cfg)],
          if e.CloseDone? && PcOf(w, e.a).Closing? && PcOf(w, e.a).done.Some?
          then w.closed + {PcOf(w, e.a).done.value} else w.closed,
          if StartsProbeNow(w, e, cfg) then w.owner[w.cache.nextChan := e.a] else w.owner,
          if e.BeginRead? || e.EndProbe? then e.later else w.clock)
  }

  /** The answer a step gives to a caller of ListModels, if it gives one. A caller that cancels its own wait
      gets its own context's error and is left out. */
  function ReplyOf(w: World, e: Event, cfg: Config): Option<Reply> {
    match e
    case BeginRead(_, now, later) =>
      (match Read(w.cache, cfg, now, later).1
       case Serve(ms) => Some(Models(ms))
       case ServeAndRefresh(ms, _) => Some(Models(ms))
       case Backoff(err) => Some(Failed(err))
       case _ => None)
    case EndProbe(a, o, now, later) =>
      if PcOf(w, a).Probing? && !PcOf(w, a).background then Some(Finish(w.cache, o, now, later).2) else None
    case RereadAfterWait(_) => Some(AfterWait(w.cache))
    case _ => None
  }

  predicate IsRun(ws: seq<World>, es: seq<Event>, cfg: Config) {
    && |ws| == |es| + 1
    && ws[0] == INIT
    && forall i :: 0 <= i < |es| ==> Enabled(ws[i], es[i]) && ws[i + 1] == Apply(ws[i], es[i], cfg)
  }

  // ---------------------------------------------------------------- single flight

  /** Where a channel is in its life: in flight, about to be closed by its owner, or closed. */
  predicate InFlight(w: World, ch: nat) {
    ch in w.owner && PcOf(w, w.owner[ch]).Probing? && PcOf(w, w.owner[ch]).ch == ch
    && w.cache.refreshDone == Some(ch) && ch !in w.closed
  }

  predicate AboutToClose(w: World, ch: nat) {
    ch in w.owner && PcOf(w, w.owner[ch]) == Closing(Some(ch))
    && w.cache.refreshDone != Some(ch) && ch !in w.closed
  }

  predicate Over(w: World, ch: nat) {
    w.cache.refreshDone != Some(ch) && ch in w.closed
  }

  predicate ChannelOk(w: World, ch: nat) {
    if ch < w.cache.nextChan then InFlight(w, ch) || AboutToClose(w, ch) || Over(w, ch)
    else ch !in w.closed && w.cache.refreshDone != Some(ch)
  }

  /** No channel is handled by anybody but its owner, or after it was closed. */
  predicate ActorOk(w: World, a: nat) {
    match PcOf(w, a)
    case Probing(ch, _) => ch < w.cache.nextChan && ch in w.owner && w.owner[ch] == a && w.cache.refreshDone == Some(ch)
    case Closing(done) =>
      done.Some? && done.value < w.cache.nextChan && done.value in w.owner && w.owner[done.value] == a
      && done.value !in w.closed && w.cache.refreshDone != done && Settled(w.cache)
    case Waiting(ch) => ch < w.cache.nextChan && (w.cache.refreshDone == Some(ch) || Settled(w.cache))
    case Woken => Settled(w.cache)
    case Idle => true
  }

  /** Some probe has ended. */
  predicate Settled(c: Cache) {
    c.models.Some? || c.lastErr.Some?
  }

  predicate CacheOk(c: Cache) {
    && (c.refreshing <==> c.refreshDone.Some?)
    && (c.models.Some? || (c.failedAt.Some? <==> c.lastErr.Some?))
  }

  ghost predicate Inv(w: World) {
    && CacheOk(w.cache)
    && (forall ch :: ChannelOk(w, ch))
    && (forall a :: ActorOk(w, a))
  }

  lemma ChannelStep(w: World, e: Event, cfg: Config, ch: nat)
    requires Inv(w) && Enabled(w, e)
    ensures ChannelOk(Apply(w, e, cfg), ch)
  {
    assert ChannelOk(w, ch);
    if !e.Invalidate? {
      assert ActorOk(w, e.a);
    }
  }

  lemma ActorStep(w: World, e: Event, cfg: Config, a: nat)
    requires Inv(w) && Enabled(w, e)
    ensures ActorOk(Apply(w, e, cfg), a)
  {
    assert ActorOk(w, a) && ChannelOk(w, w.cache.nextChan);
    if !e.Invalidate? {
      assert ActorOk(w, e.a);
      if w.cache.refreshDone.Some? {
        assert ChannelOk(w, w.cache.refreshDone.value);
      }
    }
  }

  lemma InvStep(w: World, e: Event, cfg: Config)
    requires Inv(w) && Enabled(w, e)
    ensures Inv(Apply(w, e, cfg))
  {
    assert CacheOk(Apply(w, e, cfg).cache);
    hide Apply;
    var w' := Apply(w, e, cfg);
    forall ch ensures ChannelOk(w', ch) {
      ChannelStep(w, e, cfg, ch);
    }
    forall a ensures ActorOk(w', a) {
      ActorStep(w, e, cfg, a);
    }
  }

  lemma {:induction false} RunInv(ws: seq<World>, es: seq<Event>, cfg: Config, i: nat)
    requires IsRun(ws, es, cfg) && i < |ws|
    ensures Inv(ws[i])
  {
    hide Apply, Enabled;
    if i > 0 {
      RunInv(ws, es, cfg, i - 1);
      InvStep(ws[i - 1], es[i - 1], cfg);
    }
  }

  /** A probe is marked in flight exactly while one goroutine, and only one, is running it; that goroutine
      will close the channel the waiters were given. */
  lemma SingleFlight(ws: seq<World>, es: seq<Event>, cfg: Config, i: nat)
    requires IsRun(ws, es, cfg) && i < |ws|
    ensures ws[i].cache.refreshing <==> ws[i].cache.refreshDone.Some?
    ensures ws[i].cache.refreshing <==> exists a :: PcOf(ws[i], a).Probing?
    ensures forall a, b :: PcOf(ws[i], a).Probing? && PcOf(ws[i], b).Probing? ==> a == b
    ensures forall a :: PcOf(ws[i], a).Probing? ==> ws[i].cache.refreshDone == Some(PcOf(ws[i], a).ch)
  {
    hide Apply, Enabled;
    RunInv(ws, es, cfg, i);
    var w := ws[i];
    assert forall a :: PcOf(w, a).Probing? ==> ActorOk(w, a);
    if w.cache.refreshing {
      assert ChannelOk(w, w.cache.refreshDone.value);
      assert PcOf(w, w.owner[w.cache.refreshDone.value]).Probing?;
    }
  }

  /** Closing a nil or a closed channel panics; it never happens. */
  lemma CloseNeverPanics(ws: seq<World>, es: seq<Event>, cfg: Config, i: nat)
    requires IsRun(ws, es, cfg) && i < |es| && es[i].CloseDone?
    ensures var done := PcOf(ws[i], es[i].a).done;
            done.Some? && done.value !in ws[i].closed && ws[i + 1].closed == ws[i].closed + {done.value}
  {
    RunInv(ws, es, cfg, i);
    assert ActorOk(ws[i], es[i].a);
  }

  /** Nobody is stranded: the channel a waiter holds is closed already, or exactly one goroutine is still
      running its probe, or is on its way to close it. */
  lemma NobodyStranded(ws: seq<World>, es: seq<Event>, cfg: Config, i: nat, a: nat)
    requires IsRun(ws, es, cfg) && i < |ws| && PcOf(ws[i], a).Waiting?
    ensures var w, ch := ws[i], PcOf(ws[i], a).ch;
            || (ch in w.closed && forall b :: !WillClose(w, b, ch))
            || (ch !in w.closed && exists b :: WillClose(w, b, ch) && forall c :: WillClose(w, c, ch) ==> c == b)
  {
    hide Apply, Enabled;
    RunInv(ws, es, cfg, i);
    var w, ch := ws[i], PcOf(ws[i], a).ch;
    assert ActorOk(w, a) && ChannelOk(w, ch);
    hide IsRun;
    forall b | WillClose(w, b, ch) ensures ch !in w.closed && ch in w.owner && w.owner[ch] == b {
      CloserIsOwner(w, b, ch);
    }
    if ch !in w.closed {
      assert WillClose(w, w.owner[ch], ch);
    }
  }

  lemma CloserIsOwner(w: World, b: nat, ch: nat)
    requires Inv(w) && WillClose(w, b, ch)
    ensures ch !in w.closed && ch in w.owner && w.owner[ch] == b
  {
    assert ActorOk(w, b) && ChannelOk(w, ch);
  }

  predicate WillClose(w: World, a: nat, ch: nat) {
    (PcOf(w, a).Probing? && PcOf(w, a).ch == ch) || PcOf(w, a) == Closing(Some(ch))
  }

  // ---------------------------------------------------------------- what readers are told

  /** The list of the last probe that succeeded, and the error of the last one that failed. */
  function LastListed(es: seq<Event>): Option<Models> {
    if es == [] then None
    else var e := es[|es| - 1];
      if e.EndProbe? && e.o.Listed? then Some(e.o.models) else LastListed(es[..|es| - 1])
  }

  function LastError(es: seq<Event>): Option<string> {
    if es == [] then None
    else var e := es[|es| - 1];
      if e.EndProbe? && e.o.ProbeError? then Some(e.o.error) else LastError(es[..|es| - 1])
  }

  lemma {:induction false} CacheIsLastList(ws: seq<World>, es: seq<Event>, cfg: Config, i: nat)
    requires IsRun(ws, es, cfg) && i < |ws|
    ensures ws[i].cache.models == LastListed(es[..i])
    ensures ws[i].cache.models.None? ==> ws[i].cache.lastErr == LastError(es[..i])
  {
    if i > 0 {
      CacheIsLastList(ws, es, cfg, i - 1);
      assert es[..i][..i - 1] == es[..i - 1] && es[..i][i - 1] == es[i - 1];
    }
  }

  /** Once any probe has succeeded, every read is answered with the last successful list and none with an
      error; before that, every answer is the error of the last probe, which did run. */
  lemma ReadsReturnLastList(ws: seq<World>, es: seq<Event>, cfg: Config, i: nat)
    requires IsRun(ws, es, cfg) && i < |es| && ReplyOf(ws[i], es[i], cfg).Some?
    ensures match LastListed(es[..i + 1])
            case Some(ms) => ReplyOf(ws[i], es[i], cfg) == Some(Models(ms))
            case None =>
              LastError(es[..i + 1]).Some? && ReplyOf(ws[i], es[i], cfg) == Some(Failed(LastError(es[..i + 1]).value))
  {
    RunInv(ws, es, cfg, i);
    CacheIsLastList(ws, es, cfg, i);
    var w, e := ws[i], es[i];
    assert ActorOk(w, e.a);
    assert es[..i + 1][..i] == es[..i] && es[..i + 1][i] == e;
  }

  // ---------------------------------------------------------------- probe spacing

  /** What a finished probe leaves behind until it is invalidated: the time before which no probe starts. */
  predicate Stamped(c: Cache, end: Time) {
    if c.models.Some? then c.cached.Some? && c.cached.value >= end
    else c.lastErr.Some? && c.failedAt.Some? && c.failedAt.value >= end
  }

  lemma {:induction false} StampKept(ws: seq<World>, es: seq<Event>, cfg: Config, i: nat, j: nat)
    requires IsRun(ws, es, cfg) && i < j < |ws| && es[i].EndProbe?
    requires forall k :: i < k < j ==> !es[k].Invalidate?
    ensures Stamped(ws[j].cache, es[i].now) && ws[j].clock >= es[i].now
    decreases j
  {
    if i + 1 < j {
      StampKept(ws, es, cfg, i, j - 1);
    }
  }

  /** Without an invalidation since, the next probe starts a full lifetime after the previous one ended when
      there is a list to serve, and a full backoff after it when there is none, whether it succeeded or failed. */
  lemma ProbeSpacing(ws: seq<World>, es: seq<Event>, cfg: Config, i: nat, j: nat)
    requires IsRun(ws, es, cfg) && i < j < |es| && es[i].EndProbe? && StartsProbeNow(ws[j], es[j], cfg)
    requires forall k :: i < k < j ==> !es[k].Invalidate?
    ensures es[j].later - es[i].now >= if LastListed(es[..j]).Some? then cfg.successTTL else cfg.failureBackoff
    ensures LastListed(es[..j]).Some? ==> es[j].now - es[i].now >= cfg.successTTL
  {
    StampKept(ws, es, cfg, i, j);
    CacheIsLastList(ws, es, cfg, j);
  }

  /** When a probe stamped the list, or the failure that left none: a failed probe of a warm cache stamps its end. */
  predicate StampedAt(c: Cache, e: Event)
    requires e.EndProbe?
  {
    if c.models.Some? then c.cached == Some(if e.o.Listed? then e.now else e.later)
    else e.o.ProbeError? && c.lastErr.Some? && c.failedAt == Some(e.now)
  }

  lemma {:induction false} StampExact(ws: seq<World>, es: seq<Event>, cfg: Config, i: nat, j: nat)
    requires IsRun(ws, es, cfg) && i < j < |ws| && es[i].EndProbe?
    requires forall k :: i < k < j ==> !es[k].Invalidate? && !es[k].EndProbe?
    ensures StampedAt(ws[j].cache, es[i])
    decreases j
  {
    if i + 1 < j {
      StampExact(ws, es, cfg, i, j - 1);
    }
  }

  /** The converse too: a read after the last probe ended starts the next one exactly if none is in flight and the
      lifetime of the list, or without one the backoff, has passed since. */
  lemma NextProbeStartsIff(ws: seq<World>, es: seq<Event>, cfg: Config, i: nat, j: nat)
    requires IsRun(ws, es, cfg) && i < j < |es| && es[i].EndProbe? && es[j].BeginRead?
    requires forall k :: i < k < j ==> !es[k].Invalidate? && !es[k].EndProbe?
    ensures StartsProbeNow(ws[j], es[j], cfg) <==>
              && (forall a :: !PcOf(ws[j], a).Probing?)
              && if LastListed(es[..j]).Some?
                 then es[j].now - (if es[i].o.Listed? then es[i].now else es[i].later) >= cfg.successTTL
                 else es[j].later - es[i].now >= cfg.failureBackoff
  {
    StampExact(ws, es, cfg, i, j);
    CacheIsLastList(ws, es, cfg, j);
    SingleFlight(ws, es, cfg, j);
    hide Apply, Enabled, LastListed;
  }

  /** When the last probe ended. */
  function LastEnd(es: seq<Event>): Option<Time> {
    if es == [] then None
    else if es[|es| - 1].EndProbe? then Some(es[|es| - 1].now)
    else LastEnd(es[..|es| - 1])
  }

  lemma {:induction false} ColdFailure(ws: seq<World>, es: seq<Event>, cfg: Config, i: nat)
    requires IsRun(ws, es, cfg) && i < |ws| && ws[i].cache.models.None?
    ensures ws[i].cache.failedAt == LastEnd(es[..i])
    ensures ws[i].cache.failedAt.Some? <==> ws[i].cache.lastErr.Some?
  {
    if i > 0 {
      ColdFailure(ws, es, cfg, i - 1);
      assert es[..i][..i - 1] == es[..i - 1] && es[..i][i - 1] == es[i - 1];
    }
  }

  predicate Runs(w: World, a: nat, ch: nat) {
    PcOf(w, a).Probing? && PcOf(w, a).ch == ch
  }

  /** What a read does. With a list it is answered at once, and at most leaves a probe running behind it. Without one
      it joins the probe in flight, if there is one; else, within the backoff of the last failure, it gets that
      failure at once; else it runs a probe itself. */
  lemma ReadGoes(ws: seq<World>, es: seq<Event>, cfg: Config, j: nat)
    requires IsRun(ws, es, cfg) && j < |es| && es[j].BeginRead?
    ensures var (w, pc, reply) := (ws[j], PcOf(ws[j + 1], es[j].a), ReplyOf(ws[j], es[j], cfg));
            var failed := LastEnd(es[..j]);
            match LastListed(es[..j])
            case Some(ms) => reply == Some(Models(ms)) && (pc.Idle? || (pc.Probing? && pc.background))
            case None =>
              if exists a, ch :: Runs(w, a, ch)
              then reply == None && pc.Waiting? && exists a :: Runs(w, a, pc.ch)
              else if failed.Some? && es[j].later - failed.value < cfg.failureBackoff
              then pc.Idle? && LastError(es[..j]).Some? && reply == Some(Failed(LastError(es[..j]).value))
              else reply == None && pc.Probing? && !pc.background
  {
    CacheIsLastList(ws, es, cfg, j);
    SingleFlight(ws, es, cfg, j);
    if ws[j].cache.models.None? {
      ColdFailure(ws, es, cfg, j);
    }
    FlightHasOwner(ws, es, cfg, j);
    hide LastListed, LastError, LastEnd, Enabled;
  }

  /** The probe in flight is the one whose channel waiters get. */
  lemma FlightHasOwner(ws: seq<World>, es: seq<Event>, cfg: Config, i: nat)
    requires IsRun(ws, es, cfg) && i < |ws|
    ensures var c := ws[i].cache;
            (c.refreshing <==> exists a, ch :: Runs(ws[i], a, ch))
            && (c.refreshing ==> c.refreshDone.Some? && exists a :: Runs(ws[i], a, c.refreshDone.value))
  {
    RunInv(ws, es, cfg, i);
    SingleFlight(ws, es, cfg, i);
    var w := ws[i];
    if w.cache.refreshing {
      var a :| PcOf(w, a).Probing?;
      assert ActorOk(w, a);
      assert Runs(w, a, PcOf(w, a).ch);
    } else {
      forall a, ch ensures !Runs(w, a, ch) {
      }
    }
  }

  /** The time that the last probe to end between i and j stamped the list with; one that fails without a list stamps
      none. */
  function StampSince(es: seq<Event>, i: nat, j: nat): Option<Time>
    requires j <= |es|
  {
    if j <= i + 1 then None
    else
      var e := es[j - 1];
      if e.EndProbe? && e.o.Listed? then Some(e.now)
      else if e.EndProbe? && LastListed(es[..j - 1]).Some? then Some(e.later)
      else StampSince(es, i, j - 1)
  }

  lemma {:induction false} StampedSince(ws: seq<World>, es: seq<Event>, cfg: Config, i: nat, j: nat)
    requires IsRun(ws, es, cfg) && i < j < |ws| && es[i].Invalidate? && forall k :: i < k < j ==> !es[k].Invalidate?
    ensures ws[j].cache.cached == StampSince(es, i, j)
    decreases j
  {
    if i + 1 < j {
      StampedSince(ws, es, cfg, i, j - 1);
      CacheIsLastList(ws, es, cfg, j - 1);
      hide LastListed;
    }
  }

  lemma StampedHasList(es: seq<Event>, i: nat, j: nat)
    requires j <= |es| && StampSince(es, i, j).Some?
    ensures LastListed(es[..j]).Some?
  {
    assert es[..j][..j - 1] == es[..j - 1] && es[..j][j - 1] == es[j - 1];
    if !es[j - 1].EndProbe? {
      StampedHasList(es, i, j - 1);
    }
  }

  /** When an invalidation takes effect: a read after it, with no other invalidation between, starts a probe exactly
      if none is in flight, no probe that ended since has stamped a list that is still within its lifetime, and there
      is not, without a list, a failure to back off from. */
  lemma InvalidationTakesEffectIff(ws: seq<World>, es: seq<Event>, cfg: Config, i: nat, j: nat)
    requires IsRun(ws, es, cfg) && i < j < |es| && es[i].Invalidate? && es[j].BeginRead?
    requires forall k :: i < k < j ==> !es[k].Invalidate?
    ensures StartsProbeNow(ws[j], es[j], cfg) <==>
              && (forall a :: !PcOf(ws[j], a).Probing?)
              && (StampSince(es, i, j).Some? ==> es[j].now - StampSince(es, i, j).value >= cfg.successTTL)
              && (LastListed(es[..j]).None? ==> !BackingOff(ws[j].cache, cfg, es[j].later))
  {
    StampedSince(ws, es, cfg, i, j);
    CacheIsLastList(ws, es, cfg, j);
    SingleFlight(ws, es, cfg, j);
    if StampSince(es, i, j).Some? {
      StampedHasList(es, i, j);
    }
    hide Apply, Enabled, LastListed, StampSince;
  }

  /** The invalidation in the hypothesis matters: after one, a probe may start at the instant the last ended. */
  lemma InvalidationBreaksSpacing(ms: Models, cfg: Config)
    ensures var es := [BeginRead(0, 0, 0), EndProbe(0, Listed(ms), 0, 0), Invalidate, BeginRead(1, 0, 0)];
            exists ws :: IsRun(ws, es, cfg) && StartsProbeNow(ws[3], es[3], cfg)
  {
    var es := [BeginRead(0, 0, 0), EndProbe(0, Listed(ms), 0, 0), Invalidate, BeginRead(1, 0, 0)];
    var w1 := Apply(INIT, es[0], cfg);
    var w2 := Apply(w1, es[1], cfg);
    var w3 := Apply(w2, es[2], cfg);
    var ws := [INIT, w1, w2, w3, Apply(w3, es[3], cfg)];
    assert IsRun(ws, es, cfg) && StartsProbeNow(ws[3], es[3], cfg);
  }
}
