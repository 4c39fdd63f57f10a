/**
 Ask turns under concurrency (internal/askorchicon/chat.go, service.go): dispatchers, interjections, Stop,
 conversation deletion, detached collectors and sweepers interleave at the critical sections of the turn
 registry. A world is the state they share (the registry, and per token what became of that turn) and, per
 goroutine ("actor"), the section it is about to enter.
 */
module TurnProtocol {
  import opened TurnRegistry

  /** A turn is started by its dispatcher, runs in its collector, which drops the conversation's hub and
      then leaves the registry. `Done` also covers a turn its dispatcher released before launching it. */
  datatype Phase = Starting | Running | HubDropped | Done

  datatype Gen = Gen(conv: string, owner: nat, phase: Phase)

  /** A sweep candidate, with what the scan saw. */
  datatype Scanned = Scanned(cand: Candidate, lastActivity: int, now: int, maxAge: int, lastToken: nat)

  /** `evicted` is the log of everything that sweepers returned. */
  datatype Shared = Shared(reg: Registry, gens: map<nat, Gen>, evicted: seq<Scanned>)

  datatype Pc =
    | Idle
    | DispatchCancel(conv: string)
    | DispatchRemove(conv: string, token: nat)
    | DispatchGet(conv: string)
    | DispatchLen(conv: string)
    | DispatchRegister(conv: string)
    | DispatchStart(conv: string, token: nat)
    | DispatchHubbed(conv: string, token: nat)
    | DispatchRelease(conv: string, token: nat, dropHub: bool)
    | DispatchDropHub(conv: string)
    | DeleteRemove(conv: string, token: nat)
    | SweepAsk(todo: seq<Scanned>)
    | SweepEvict(todo: seq<Scanned>)

  /** `hubs` names, per conversation, the turn whose broadcast hub is registered. */
  datatype World = World(s: Shared, actors: map<nat, Pc>, hubs: map<string, nat>)

  const INIT := World(Shared(EMPTY, map[], []), map[], map[])

  datatype Event =
    | BeginDispatch(a: nat, conv: string, supersede: bool)
    | SupersedeCancel(a: nat)
    | SupersedeRemove(a: nat)
    | CheckRunning(a: nat)
    | CheckCap(a: nat)
    | RegisterTurn(a: nat, tenant: string, msgId: string, started: int, active: int)
    | CreateHub(a: nat)
    | Launch(a: nat)
    | Release(a: nat)
    | FinishRelease(a: nat)
    | ReleaseHub(a: nat)
    | BeginDelete(a: nat, conv: string)
    | FinishDelete(a: nat)
    | BeginSweep(a: nat, now: int, maxAge: int, cands: seq<Candidate>)
    | AskParked(a: nat, parked: bool)
    | EvictNext(a: nat)
    | Stop(conv: string)
    | Activity(token: nat, now: int)
    | Wedge(token: nat)
    | DropHub(token: nat)
    | Finalize(token: nat)

  /** What a step does to the shared state. */
  datatype Effect =
    | Nothing
    | CancelConv(conv: string, cause: Cause)
    | CancelToken(token: nat, cause: Cause)
    | RemoveTurn(conv: string, token: nat)
    | AddTurn(conv: string, owner: nat, tenant: string, msgId: string, started: int, active: int)
    | Finish(conv: string, token: nat)
    | SetPhase(token: nat, phase: Phase)
    | SetActive(conv: string, token: nat, now: int)
    | SetWedged(conv: string, token: nat)
    | EvictTurn(sc: Scanned)

  function Do(s: Shared, f: Effect): Shared {
    match f
    case Nothing => s
    case CancelConv(conv, cause) => s.(reg := Cancelled(s.reg, conv, cause).0)
    case CancelToken(t, cause) => s.(reg := s.reg.(causes := CancelContext(s.reg.causes, t, cause)))
    case RemoveTurn(conv, t) => s.(reg := Removed(s.reg, conv, t))
    case AddTurn(conv, owner, tenant, msgId, started, active) =>
      var (reg, t, ok) := Registered(s.reg, conv, tenant, msgId, started, active);
      if ok then s.(reg := reg, gens := s.gens[t := Gen(conv, owner, Starting)]) else s
    case Finish(conv, t) =>
      Shared(Removed(s.reg, conv, t), if t in s.gens then s.gens[t := s.gens[t].(phase := Done)] else s.gens, s.evicted)
    case SetPhase(t, phase) => s.(gens := if t in s.gens then s.gens[t := s.gens[t].(phase := phase)] else s.gens)
    case SetActive(conv, t, now) => s.(reg := MarkedActive(s.reg, conv, t, now))
    case SetWedged(conv, t) => s.(reg := MarkedWedged(s.reg, conv, t))
    case EvictTurn(sc) =>
      s.(reg := Evicted(s.reg, sc.cand),
         evicted := if Holds(s.reg, sc.cand.conv, sc.cand.token) then s.evicted + [sc] else s.evicted)
  }

  function PcOf(w: World, a: nat): Pc {
    if a in w.actors then w.actors[a] else Idle
  }

  function AfterSweepStep(todo: seq<Scanned>): Pc {
    if todo == [] then Idle else SweepAsk(todo)
  }

  predicate InPhase(w: World, token: nat, phase: Phase) {
    token in w.s.gens && w.s.gens[token].phase == phase
  }

  predicate Starts(pc: Pc) {
    pc.DispatchStart? || pc.DispatchHubbed? || pc.DispatchRelease?
  }

  predicate HasActor(e: Event) {
    !(e.Stop? || e.Activity? || e.Wedge? || e.DropHub? || e.Finalize?)
  }

  predicate Enabled(w: World, e: Event) {
    match e
    case BeginDispatch(a, _, _) => PcOf(w, a).Idle?
    case SupersedeCancel(a) => PcOf(w, a).DispatchCancel?
    case SupersedeRemove(a) => PcOf(w, a).DispatchRemove?
    case CheckRunning(a) => PcOf(w, a).DispatchGet?
    case CheckCap(a) => PcOf(w, a).DispatchLen?
    case RegisterTurn(a, _, _, _, _) => PcOf(w, a).DispatchRegister?
    case CreateHub(a) => PcOf(w, a).DispatchStart?
    case Launch(a) => PcOf(w, a).DispatchHubbed?
    case Release(a) => PcOf(w, a).DispatchStart? || PcOf(w, a).DispatchHubbed?
    case FinishRelease(a) => PcOf(w, a).DispatchRelease?
    case ReleaseHub(a) => PcOf(w, a).DispatchDropHub?
    case BeginDelete(a, _) => PcOf(w, a).Idle?
    case FinishDelete(a) => PcOf(w, a).DeleteRemove?
    case BeginSweep(a, now, maxAge, cands) => PcOf(w, a).Idle? && IsScan(w.s.reg, now, maxAge, cands)
    case AskParked(a, _) => PcOf(w, a).SweepAsk? && PcOf(w, a).todo != []
    case EvictNext(a) => PcOf(w, a).SweepEvict? && PcOf(w, a).todo != []
    case Stop(_) => true
    case Activity(t, _) => InPhase(w, t, Running)
    case Wedge(t) => InPhase(w, t, Running)
    case DropHub(t) => InPhase(w, t, Running)
    case Finalize(t) => InPhase(w, t, HubDropped)
  }

  function EffectOf(w: World, e: Event): Effect
    requires Enabled(w, e)
  {
    match e
    case SupersedeCancel(a) => CancelConv(PcOf(w, a).conv, Superseded)
    case SupersedeRemove(a) => RemoveTurn(PcOf(w, a).conv, PcOf(w, a).token)
    case RegisterTurn(a, tenant, msgId, started, active) => AddTurn(PcOf(w, a).conv, a, tenant, msgId, started, active)
    case Launch(a) => SetPhase(PcOf(w, a).token, Running)
    case Release(a) => CancelToken(PcOf(w, a).token, UserStop)
    case FinishRelease(a) => Finish(PcOf(w, a).conv, PcOf(w, a).token)
    case BeginDelete(_, conv) => CancelConv(conv, UserStop)
    case FinishDelete(a) => RemoveTurn(PcOf(w, a).conv, PcOf(w, a).token)
    case EvictNext(a) => EvictTurn(PcOf(w, a).todo[0])
    case Stop(conv) => CancelConv(conv, UserStop)
    case Activity(t, now) => SetActive(w.s.gens[t].conv, t, now)
    case Wedge(t) => SetWedged(w.s.gens[t].conv, t)
    case DropHub(t) => SetPhase(t, HubDropped)
    case Finalize(t) => Finish(w.s.gens[t].conv, t)
    case _ => Nothing
  }

  /** Where the acting goroutine goes next; `cap` bounds the concurrent turns. */
  function NextPc(w: World, e: Event, cap: nat): Pc
    requires Enabled(w, e) && HasActor(e)
  {
    var pc := PcOf(w, e.a);
    match e
    case BeginDispatch(_, conv, supersede) => if supersede then DispatchCancel(conv) else DispatchGet(conv)
    case SupersedeCancel(_) =>
      var (_, token, found) := Cancelled(w.s.reg, pc.conv, Superseded);
      if found then DispatchRemove(pc.conv, token) else DispatchGet(pc.conv)
    case SupersedeRemove(_) => DispatchGet(pc.conv)
    case CheckRunning(_) => if pc.conv in w.s.reg.turns then DispatchRegister(pc.conv) else DispatchLen(pc.conv)
    case CheckCap(_) => if |w.s.reg.turns| >= cap then Idle else DispatchRegister(pc.conv)
    case RegisterTurn(_, _, _, _, _) =>
      if pc.conv in w.s.reg.turns then Idle else DispatchStart(pc.conv, w.s.reg.nextTok + 1)
    case CreateHub(_) => DispatchHubbed(pc.conv, pc.token)
    case Release(_) => DispatchRelease(pc.conv, pc.token, pc.DispatchHubbed?)
    case FinishRelease(_) => if pc.dropHub then DispatchDropHub(pc.conv) else Idle
    case BeginDelete(_, conv) =>
      var (_, token, found) := Cancelled(w.s.reg, conv, UserStop);
      if found then DeleteRemove(conv, token) else Idle
    case BeginSweep(_, now, maxAge, cands) =>
      AfterSweepStep(seq(|cands|, i requires 0 <= i < |cands| && cands[i].conv in w.s.reg.turns =>
        Scanned(cands[i], w.s.reg.turns[cands[i].conv].lastActivity, now, maxAge, w.s.reg.nextTok)))
    case AskParked(_, parked) => if parked then AfterSweepStep(pc.todo[1..]) else SweepEvict(pc.todo)
    case EvictNext(_) => AfterSweepStep(pc.todo[1..])
    case _ => Idle
  }

  function NextHubs(w: World, e: Event): map<string, nat>
    requires Enabled(w, e)
  {
    match e
    case CreateHub(a) => w.hubs[PcOf(w, a).conv := PcOf(w, a).token]
    case ReleaseHub(a) => w.hubs - {PcOf(w, a).conv}
    case DropHub(t) => w.hubs - {w.s.gens[t].conv}
    case _ => w.hubs
  }

  /** One step. */
  function Apply(w: World, e: Event, cap: nat): World
    requires Enabled(w, e)
  {
    World(Do(w.s, EffectOf(w, e)),
          if HasActor(e) then w.actors[e.a := NextPc(w, e, cap)] else w.actors,
          NextHubs(w, e))
  }

  /** A run is the sequence of worlds that some interleaving goes through. */
  ghost predicate IsRun(ws: seq<World>, es: seq<Event>, cap: nat) {
    && |ws| == |es| + 1 && ws[0] == INIT
    && forall i :: 0 <= i < |es| ==> Enabled(ws[i], es[i]) && ws[i + 1] == Apply(ws[i], es[i], cap)
  }

  // ---------------------------------------------------------------- the invariant of the shared state

  /** Neither cancelled nor finished. */
  ghost predicate Live(s: Shared, t: nat) {
    t in s.gens && t !in s.reg.causes && s.gens[t].phase != Done
  }

  ghost predicate TokenOk(s: Shared, t: nat) {
    && (t in s.gens ==> 1 <= t <= s.reg.nextTok)
    && (t in s.reg.causes ==> t in s.gens)
    && (Live(s, t) ==> Holds(s.reg, s.gens[t].conv, t))
  }

  ghost predicate EntryOk(s: Shared, c: string) {
    c in s.reg.turns ==>
      var t := s.reg.turns[c].token;
      t in s.gens && s.gens[t].conv == c && s.gens[t].phase != Done
  }

  ghost predicate ScannedOk(s: Shared, sc: Scanned) {
    && sc.cand.token in s.gens && s.gens[sc.cand.token].conv == sc.cand.conv
    && sc.now - sc.lastActivity > sc.maxAge
    && sc.cand.token <= sc.lastToken <= s.reg.nextTok
  }

  ghost predicate EvictedOk(s: Shared, sc: Scanned) {
    ScannedOk(s, sc) && sc.cand.token in s.reg.causes && !Holds(s.reg, sc.cand.conv, sc.cand.token)
  }

  ghost predicate SharedInv(s: Shared) {
    && (forall t :: TokenOk(s, t))
    && (forall c :: EntryOk(s, c))
    && (forall i :: 0 <= i < |s.evicted| ==> EvictedOk(s, s.evicted[i]))
    && (forall i, j :: 0 <= i < j < |s.evicted| ==> s.evicted[i].cand.token != s.evicted[j].cand.token)
  }

  ghost predicate CancelledGen(s: Shared, c: string, t: nat) {
    t in s.reg.causes && t in s.gens && s.gens[t].conv == c
  }

  /** What the steps guarantee about the effects they have. */
  ghost predicate EffectOk(s: Shared, f: Effect) {
    match f
    case CancelToken(t, _) => t in s.gens
    case RemoveTurn(c, t) => CancelledGen(s, c, t)
    case Finish(c, t) => t in s.gens && s.gens[t].conv == c
    case SetPhase(t, phase) => phase != Done && t in s.gens && s.gens[t].phase != Done
    case SetActive(c, t, _) => t in s.gens && s.gens[t].conv == c
    case SetWedged(c, t) => t in s.gens && s.gens[t].conv == c
    case EvictTurn(sc) => ScannedOk(s, sc)
    case _ => true
  }

  /** What no effect takes back: tokens are never reissued, a turn keeps its conversation, a context keeps its
      first cause, and a finished turn stays finished. */
  ghost predicate Grows(s: Shared, s': Shared, t: nat) {
    && s.reg.nextTok <= s'.reg.nextTok
    && (t in s.gens ==> t in s'.gens && s'.gens[t].conv == s.gens[t].conv && s'.gens[t].owner == s.gens[t].owner
                        && (s.gens[t].phase == Done ==> s'.gens[t].phase == Done))
    && (t in s.reg.causes ==> t in s'.reg.causes && s'.reg.causes[t] == s.reg.causes[t])
    && (t <= s.reg.nextTok ==> forall c :: Holds(s'.reg, c, t) ==> Holds(s.reg, c, t))
  }

  lemma DoGrows(s: Shared, f: Effect, t: nat)
    requires TokenOk(s, s.reg.nextTok + 1) && EffectOk(s, f)
    ensures Grows(s, Do(s, f), t)
  {
  }

  lemma DoTokenOk(s: Shared, f: Effect, t: nat)
    requires (forall u :: TokenOk(s, u)) && (forall c :: EntryOk(s, c)) && EffectOk(s, f)
    ensures TokenOk(Do(s, f), t)
  {
    assert TokenOk(s, t) && TokenOk(s, s.reg.nextTok + 1);
    if f.CancelConv? {
      assert EntryOk(s, f.conv);
    }
  }

  lemma DoEntryOk(s: Shared, f: Effect, c: string)
    requires EntryOk(s, c) && TokenOk(s, s.reg.nextTok + 1) && EffectOk(s, f)
    ensures EntryOk(Do(s, f), c)
  {
  }

  /** The sweepers' log grows exactly by what an eviction removes. */
  lemma DoLog(s: Shared, f: Effect)
    requires EffectOk(s, f)
    ensures var s' := Do(s, f);
            if f.EvictTurn? && Holds(s.reg, f.sc.cand.conv, f.sc.cand.token) then
              && s'.evicted == s.evicted + [f.sc] && s'.reg.nextTok == s.reg.nextTok && s'.gens == s.gens
              && s'.reg.turns == s.reg.turns - {f.sc.cand.conv} && f.sc.cand.token in s'.reg.causes
            else s'.evicted == s.evicted
  {
  }

  lemma DoEvictedOk(s: Shared, f: Effect, sc: Scanned)
    requires TokenOk(s, s.reg.nextTok + 1) && EffectOk(s, f) && EvictedOk(s, sc)
    ensures EvictedOk(Do(s, f), sc)
  {
    hide Do;
    DoGrows(s, f, sc.cand.token);
  }

  lemma DoSharedInv(s: Shared, f: Effect)
    requires SharedInv(s) && EffectOk(s, f)
    ensures SharedInv(Do(s, f))
  {
    hide Do, EffectOk, TokenOk, EntryOk, EvictedOk;
    var s' := Do(s, f);
    forall t ensures TokenOk(s', t) {
      DoTokenOk(s, f, t);
    }
    forall c ensures EntryOk(s', c) {
      assert TokenOk(s, s.reg.nextTok + 1);
      DoEntryOk(s, f, c);
    }
    assert TokenOk(s, s.reg.nextTok + 1);
    forall i | 0 <= i < |s.evicted| ensures EvictedOk(s', s.evicted[i]) {
      DoEvictedOk(s, f, s.evicted[i]);
    }
    DoLog(s, f);
    if s'.evicted != s.evicted {
      NewlyEvicted(s, f);
    }
  }

  lemma NewlyEvicted(s: Shared, f: Effect)
    requires SharedInv(s) && EffectOk(s, f) && f.EvictTurn? && Holds(s.reg, f.sc.cand.conv, f.sc.cand.token)
    ensures EvictedOk(Do(s, f), f.sc)
    ensures forall i :: 0 <= i < |s.evicted| ==> s.evicted[i].cand.token != f.sc.cand.token
  {
    DoLog(s, f);
    hide Do;
    forall i | 0 <= i < |s.evicted| ensures s.evicted[i].cand.token != f.sc.cand.token {
      assert EvictedOk(s, s.evicted[i]);
    }
  }

  // ---------------------------------------------------------------- the invariant of the actors

  ghost predicate StartingGen(s: Shared, a: nat, c: string, t: nat) {
    t in s.gens && s.gens[t] == Gen(c, a, Starting)
  }

  ghost predicate AllScannedOk(s: Shared, todo: seq<Scanned>) {
    forall i :: 0 <= i < |todo| ==> ScannedOk(s, todo[i])
  }

  ghost predicate PcOk(s: Shared, a: nat, pc: Pc) {
    match pc
    case DispatchRemove(c, t) => CancelledGen(s, c, t)
    case DeleteRemove(c, t) => CancelledGen(s, c, t)
    case DispatchStart(c, t) => StartingGen(s, a, c, t)
    case DispatchHubbed(c, t) => StartingGen(s, a, c, t)
    case DispatchRelease(c, t, _) => StartingGen(s, a, c, t) && CancelledGen(s, c, t)
    case SweepAsk(todo) => AllScannedOk(s, todo)
    case SweepEvict(todo) => AllScannedOk(s, todo)
    case _ => true
  }

  /** A starting turn is owned by the actor that still has to launch or release it. */
  ghost predicate OwnerOk(w: World, t: nat) {
    InPhase(w, t, Starting) ==>
      var pc := PcOf(w, w.s.gens[t].owner);
      Starts(pc) && pc.token == t
  }

  ghost predicate Inv(w: World) {
    && SharedInv(w.s)
    && (forall a :: PcOk(w.s, a, PcOf(w, a)))
    && (forall t :: OwnerOk(w, t))
  }

  lemma StepEffectOk(w: World, e: Event)
    requires Enabled(w, e) && (HasActor(e) ==> PcOk(w.s, e.a, PcOf(w, e.a)))
    ensures EffectOk(w.s, EffectOf(w, e))
  {
  }

  lemma ScannedKept(s: Shared, s': Shared, todo: seq<Scanned>)
    requires AllScannedOk(s, todo) && forall t :: Grows(s, s', t)
    ensures AllScannedOk(s', todo)
  {
    forall i | 0 <= i < |todo| ensures ScannedOk(s', todo[i]) {
      assert ScannedOk(s, todo[i]) && Grows(s, s', todo[i].cand.token);
    }
  }

  /** The scan's candidates are what the registry held at that moment. */
  lemma ScanOk(w: World, e: Event, cap: nat)
    requires SharedInv(w.s) && Enabled(w, e) && e.BeginSweep?
    ensures PcOk(w.s, e.a, NextPc(w, e, cap))
  {
    forall i | 0 <= i < |e.cands|
      ensures var c := e.cands[i].conv;
              ScannedOk(w.s, Scanned(e.cands[i], w.s.reg.turns[c].lastActivity, e.now, e.maxAge, w.s.reg.nextTok))
    {
      var c := e.cands[i].conv;
      assert Holds(w.s.reg, c, e.cands[i].token) && EntryOk(w.s, c) && TokenOk(w.s, e.cands[i].token);
    }
  }

  lemma MovedPcOk(w: World, e: Event, cap: nat)
    requires Inv(w) && Enabled(w, e) && HasActor(e)
    ensures PcOk(Do(w.s, EffectOf(w, e)), e.a, NextPc(w, e, cap))
  {
    var pc := PcOf(w, e.a);
    assert PcOk(w.s, e.a, pc);
    if e.BeginSweep? {
      ScanOk(w, e, cap);
    } else if e.EvictNext? {
      StepEffectOk(w, e);
      var s' := Do(w.s, EffectOf(w, e));
      assert TokenOk(w.s, w.s.reg.nextTok + 1);
      forall t ensures Grows(w.s, s', t) {
        DoGrows(w.s, EffectOf(w, e), t);
      }
      hide Do;
      ScannedKept(w.s, s', pc.todo);
    } else if e.SupersedeCancel? {
      assert EntryOk(w.s, pc.conv);
    } else if e.BeginDelete? {
      assert EntryOk(w.s, e.conv);
    }
  }

  /** A step leaves a starting turn alone unless its owner takes it. */
  lemma StartingTurnKept(w: World, e: Event, cap: nat, t: nat)
    requires Enabled(w, e) && InPhase(w, t, Starting) && TokenOk(w.s, w.s.reg.nextTok + 1)
    requires HasActor(e) ==> PcOk(w.s, e.a, PcOf(w, e.a)) && e.a != w.s.gens[t].owner
    ensures Do(w.s, EffectOf(w, e)).gens[t] == w.s.gens[t]
  {
  }

  lemma OtherPcOk(w: World, e: Event, cap: nat, a: nat)
    requires Inv(w) && Enabled(w, e) && !(HasActor(e) && e.a == a)
    ensures PcOk(Do(w.s, EffectOf(w, e)), a, PcOf(w, a))
  {
    hide Do, EffectOf, Enabled;
    var pc := PcOf(w, a);
    assert PcOk(w.s, a, pc);
    if HasActor(e) {
      assert PcOk(w.s, e.a, PcOf(w, e.a));
    }
    StepEffectOk(w, e);
    var s' := Do(w.s, EffectOf(w, e));
    assert TokenOk(w.s, w.s.reg.nextTok + 1);
    forall t ensures Grows(w.s, s', t) {
      DoGrows(w.s, EffectOf(w, e), t);
    }
    if Starts(pc) {
      StartingTurnKept(w, e, cap, pc.token);
      assert Grows(w.s, s', pc.token);
    } else if pc.DispatchRemove? || pc.DeleteRemove? {
      assert Grows(w.s, s', pc.token);
    } else if pc.SweepAsk? || pc.SweepEvict? {
      ScannedKept(w.s, s', pc.todo);
    }
  }

  /** The owner of a starting turn keeps it until it launches or finishes it. */
  lemma OwnerMoves(w: World, e: Event, cap: nat)
    requires Enabled(w, e) && HasActor(e) && Starts(PcOf(w, e.a)) && PcOk(w.s, e.a, PcOf(w, e.a))
    ensures var t, pc' := PcOf(w, e.a).token, NextPc(w, e, cap);
            || (Starts(pc') && pc'.token == t)
            || Do(w.s, EffectOf(w, e)).gens[t].phase != Starting
  {
  }

  lemma StartingBefore(w: World, e: Event, t: nat)
    requires Enabled(w, e) && (HasActor(e) ==> PcOk(w.s, e.a, PcOf(w, e.a)))
    requires var s' := Do(w.s, EffectOf(w, e)); t in s'.gens && s'.gens[t].phase == Starting
    ensures var s' := Do(w.s, EffectOf(w, e));
            if e.RegisterTurn? && PcOf(w, e.a).conv !in w.s.reg.turns && t == w.s.reg.nextTok + 1 then
              s'.gens[t].owner == e.a
            else InPhase(w, t, Starting) && s'.gens[t] == w.s.gens[t]
  {
  }

  lemma OwnerStep(w: World, e: Event, cap: nat, t: nat)
    requires Inv(w) && Enabled(w, e)
    ensures OwnerOk(Apply(w, e, cap), t)
  {
    hide Do, EffectOf, NextPc, NextHubs, SharedInv, PcOk;
    var w' := Apply(w, e, cap);
    assert OwnerOk(w, t);
    if HasActor(e) {
      assert PcOk(w.s, e.a, PcOf(w, e.a));
    }
    if InPhase(w', t, Starting) {
      StartingBefore(w, e, t);
      if e.RegisterTurn? && PcOf(w, e.a).conv !in w.s.reg.turns && t == w.s.reg.nextTok + 1 {
        RegisterNext(w, e, cap);
      } else if HasActor(e) && e.a == w.s.gens[t].owner {
        OwnerMoves(w, e, cap);
      }
    }
  }

  lemma RegisterNext(w: World, e: Event, cap: nat)
    requires Enabled(w, e) && e.RegisterTurn? && PcOf(w, e.a).conv !in w.s.reg.turns
    ensures NextPc(w, e, cap) == DispatchStart(PcOf(w, e.a).conv, w.s.reg.nextTok + 1)
  {
  }

  lemma InvStep(w: World, e: Event, cap: nat)
    requires Inv(w) && Enabled(w, e)
    ensures Inv(Apply(w, e, cap))
  {
    hide Do, EffectOf, Enabled, NextPc, NextHubs, SharedInv, PcOk, OwnerOk;
    if HasActor(e) {
      assert PcOk(w.s, e.a, PcOf(w, e.a));
      MovedPcOk(w, e, cap);
    }
    StepEffectOk(w, e);
    DoSharedInv(w.s, EffectOf(w, e));
    var w' := Apply(w, e, cap);
    forall a ensures PcOk(w'.s, a, PcOf(w', a)) {
      if !(HasActor(e) && e.a == a) {
        OtherPcOk(w, e, cap, a);
      }
    }
    forall t ensures OwnerOk(w', t) {
      OwnerStep(w, e, cap, t);
    }
  }

  lemma {:induction false} RunInv(ws: seq<World>, es: seq<Event>, cap: nat, i: nat)
    requires IsRun(ws, es, cap) && i < |ws|
    ensures Inv(ws[i])
  {
    hide Apply, Enabled;
    if i > 0 {
      RunInv(ws, es, cap, i - 1);
      InvStep(ws[i - 1], es[i - 1], cap);
    }
  }

  lemma StepGrows(ws: seq<World>, es: seq<Event>, cap: nat, i: nat, t: nat)
    requires IsRun(ws, es, cap) && i < |es|
    ensures Grows(ws[i].s, ws[i + 1].s, t)
  {
    hide Do, Enabled, EffectOf, NextPc, NextHubs;
    RunInv(ws, es, cap, i);
    var w, e := ws[i], es[i];
    assert HasActor(e) ==> PcOk(w.s, e.a, PcOf(w, e.a));
    StepEffectOk(w, e);
    assert TokenOk(w.s, w.s.reg.nextTok + 1);
    DoGrows(w.s, EffectOf(w, e), t);
  }

  // ---------------------------------------------------------------- safety over every run

  /** However the steps interleave, a conversation has at most one turn that is neither cancelled nor
      finished, and that turn is the one the registry holds. */
  lemma AtMostOneLiveTurn(ws: seq<World>, es: seq<Event>, cap: nat, i: nat, t: nat, u: nat)
    requires IsRun(ws, es, cap) && i < |ws|
    requires Live(ws[i].s, t) && Live(ws[i].s, u) && ws[i].s.gens[t].conv == ws[i].s.gens[u].conv
    ensures t == u && Holds(ws[i].s.reg, ws[i].s.gens[t].conv, t)
  {
    hide Apply, Enabled;
    RunInv(ws, es, cap, i);
    assert TokenOk(ws[i].s, t) && TokenOk(ws[i].s, u);
  }

  /** A registered turn always has somebody who will still take it out: the dispatcher that is starting it,
      or its collector. */
  lemma NoOrphanedEntry(ws: seq<World>, es: seq<Event>, cap: nat, i: nat, c: string)
    requires IsRun(ws, es, cap) && i < |ws| && c in ws[i].s.reg.turns
    ensures var w := ws[i];
            var t := w.s.reg.turns[c].token;
            && t in w.s.gens && w.s.gens[t].conv == c && w.s.gens[t].phase != Done
            && (w.s.gens[t].phase == Starting ==>
                  var pc := PcOf(w, w.s.gens[t].owner); Starts(pc) && pc.token == t)
  {
    hide Apply, Enabled;
    RunInv(ws, es, cap, i);
    assert EntryOk(ws[i].s, c) && OwnerOk(ws[i], ws[i].s.reg.turns[c].token);
  }

  lemma CollectorStep(w: World, e: Event, cap: nat, c: string)
    requires Enabled(w, e) && (e.Activity? || e.Wedge? || e.DropHub? || e.Finalize?)
    requires c in w.s.reg.turns && e.token != w.s.reg.turns[c].token
    ensures var w' := Apply(w, e, cap); c in w'.s.reg.turns && w'.s.reg.turns[c] == w.s.reg.turns[c]
  {
  }

  /** Work done for generation t never touches an entry of another generation. */
  lemma CollectorTouchesOnlyItsOwn(ws: seq<World>, es: seq<Event>, cap: nat, i: nat, c: string)
    requires IsRun(ws, es, cap) && i < |es| && c in ws[i].s.reg.turns
    requires es[i].Activity? || es[i].Wedge? || es[i].DropHub? || es[i].Finalize?
    requires es[i].token != ws[i].s.reg.turns[c].token
    ensures c in ws[i + 1].s.reg.turns && ws[i + 1].s.reg.turns[c] == ws[i].s.reg.turns[c]
  {
    hide Apply, Enabled;
    CollectorStep(ws[i], es[i], cap, c);
  }

  /** The first cause a turn is cancelled with is the one its collector reports, however many follow. */
  lemma {:induction false} FirstCauseWins(ws: seq<World>, es: seq<Event>, cap: nat, i: nat, j: nat, t: nat)
    requires IsRun(ws, es, cap) && i <= j < |ws| && t in ws[i].s.reg.causes
    ensures t in ws[j].s.reg.causes && ws[j].s.reg.causes[t] == ws[i].s.reg.causes[t]
    decreases j
  {
    hide Apply, Enabled;
    if i < j {
      FirstCauseWins(ws, es, cap, i, j - 1, t);
      StepGrows(ws, es, cap, j - 1, t);
    }
  }

  /** What an event cancels: the turn that runs in this conversation, with this cause. */
  ghost predicate Cancels(w: World, e: Event, c: string, cause: Cause) {
    || (e == Stop(c) && cause == UserStop)
    || (e.BeginDelete? && e.conv == c && cause == UserStop)
    || (e.SupersedeCancel? && PcOf(w, e.a).DispatchCancel? && PcOf(w, e.a).conv == c && cause == Superseded)
  }

  lemma CancelStep(w: World, e: Event, cap: nat, c: string, t: nat, cause: Cause)
    requires Enabled(w, e) && Cancels(w, e, c, cause) && Holds(w.s.reg, c, t)
    ensures var r := Apply(w, e, cap).s.reg;
            Holds(r, c, t) && t in r.causes && (t !in w.s.reg.causes ==> r.causes[t] == cause)
  {
  }

  /** Stop, deletion and interjection reach the turn that runs: from then on it is cancelled, with their cause unless
      it was cancelled before; and it stays registered until it is taken out under its own token. */
  lemma CancelReachesTheRunningTurn(ws: seq<World>, es: seq<Event>, cap: nat, i: nat, j: nat, c: string, t: nat,
                                    cause: Cause)
    requires IsRun(ws, es, cap) && i < j < |ws|
    requires Cancels(ws[i], es[i], c, cause) && Holds(ws[i].s.reg, c, t)
    ensures Holds(ws[i + 1].s.reg, c, t)
    ensures t in ws[j].s.reg.causes
    ensures ws[j].s.reg.causes[t] == if t in ws[i].s.reg.causes then ws[i].s.reg.causes[t] else cause
  {
    hide Apply, Enabled;
    CancelStep(ws[i], es[i], cap, c, t, cause);
    FirstCauseWins(ws, es, cap, i + 1, j, t);
    if t in ws[i].s.reg.causes {
      FirstCauseWins(ws, es, cap, i, j, t);
    }
  }

  // ---------------------------------------------------------------- sweeping

  /** Everything sweepers ever returned was quiet for longer than the limit when it was scanned, is cancelled
      and out of the registry, and no generation is returned twice, by one sweeper or by several. */
  lemma EvictionsAreExact(ws: seq<World>, es: seq<Event>, cap: nat, i: nat)
    requires IsRun(ws, es, cap) && i < |ws|
    ensures var s := ws[i].s;
            && (forall k :: 0 <= k < |s.evicted| ==>
                  var sc := s.evicted[k];
                  && sc.now - sc.lastActivity > sc.maxAge
                  && sc.cand.token in s.reg.causes && sc.cand.token in s.gens
                  && s.gens[sc.cand.token].conv == sc.cand.conv
                  && !Holds(s.reg, sc.cand.conv, sc.cand.token))
            && (forall k, l :: 0 <= k < l < |s.evicted| ==> s.evicted[k].cand.token != s.evicted[l].cand.token)
  {
    hide Apply, Enabled;
    RunInv(ws, es, cap, i);
    var s := ws[i].s;
    assert forall k :: 0 <= k < |s.evicted| ==> EvictedOk(s, s.evicted[k]);
  }

  /** An eviction step, which is reached only after the turn was found not parked, returns a turn exactly when it
      is still the scanned generation, and then removes that turn alone. */
  lemma EvictionStepExact(ws: seq<World>, es: seq<Event>, cap: nat, i: nat)
    requires IsRun(ws, es, cap) && i < |es| && es[i].EvictNext?
    ensures var sc := PcOf(ws[i], es[i].a).todo[0];
            var (s, s') := (ws[i].s, ws[i + 1].s);
            if Holds(s.reg, sc.cand.conv, sc.cand.token) then
              && s'.evicted == s.evicted + [sc] && s'.reg.turns == s.reg.turns - {sc.cand.conv}
              && sc.cand.token in s'.reg.causes
            else s' == s
    ensures forall c :: c in ws[i].s.reg.turns
                        && ws[i].s.reg.turns[c].token > PcOf(ws[i], es[i].a).todo[0].lastToken ==>
              c in ws[i + 1].s.reg.turns && ws[i + 1].s.reg.turns[c] == ws[i].s.reg.turns[c]
  {
    RunInv(ws, es, cap, i);
    var (w, e) := (ws[i], es[i]);
    assert PcOk(w.s, e.a, PcOf(w, e.a));
    assert ScannedOk(w.s, PcOf(w, e.a).todo[0]);
  }

  ghost predicate ActiveStep(e: Event, t: nat) {
    e.Activity? && e.token == t
  }

  lemma ActivityStep(w: World, e: Event, cap: nat, c: string, t: nat)
    requires Enabled(w, e) && EffectOk(w.s, EffectOf(w, e)) && t in w.s.gens && w.s.gens[t].conv == c
    requires Holds(w.s.reg, c, t) && Holds(Apply(w, e, cap).s.reg, c, t)
    ensures Apply(w, e, cap).s.reg.turns[c].lastActivity ==
              if ActiveStep(e, t) then e.now else w.s.reg.turns[c].lastActivity
  {
  }

  lemma HeldTurnStep(ws: seq<World>, es: seq<Event>, cap: nat, j: nat, c: string, t: nat)
    requires IsRun(ws, es, cap) && j < |es| && t in ws[j].s.gens && ws[j].s.gens[t].conv == c
    ensures t in ws[j + 1].s.gens && ws[j + 1].s.gens[t].conv == c
    ensures Holds(ws[j + 1].s.reg, c, t) ==>
              && Holds(ws[j].s.reg, c, t)
              && ws[j + 1].s.reg.turns[c].lastActivity ==
                   if ActiveStep(es[j], t) then es[j].now else ws[j].s.reg.turns[c].lastActivity
  {
    hide Apply, Enabled, EffectOf;
    RunInv(ws, es, cap, j);
    var w, e := ws[j], es[j];
    assert HasActor(e) ==> PcOk(w.s, e.a, PcOf(w, e.a));
    StepEffectOk(w, e);
    StepGrows(ws, es, cap, j, t);
    assert TokenOk(w.s, t);
    if Holds(ws[j + 1].s.reg, c, t) {
      ActivityStep(w, e, cap, c, t);
    }
  }

  ghost predicate ActiveBetween(es: seq<Event>, i: nat, j: nat, t: nat)
    requires i <= j <= |es|
  {
    exists k :: i <= k < j && ActiveStep(es[k], t)
  }

  /** The second critical section does not look at the clock again: a turn that made progress between scan and
      eviction is evicted all the same. At the eviction it is still quiet exactly if nothing was reported
      for it in between. */
  lemma {:induction false} EvictedStillQuietIff(ws: seq<World>, es: seq<Event>, cap: nat, i: nat, j: nat,
                                                c: string, t: nat, now: int, maxAge: nat)
    requires |ws| == |es| + 1 && IsRun(ws, es, cap) && i <= j < |ws|
    requires t in ws[i].s.gens && ws[i].s.gens[t].conv == c
    requires Holds(ws[i].s.reg, c, t) && Quiet(ws[i].s.reg.turns[c], now, maxAge)
    requires forall k :: i <= k < j && ActiveStep(es[k], t) ==> es[k].now >= now
    ensures t in ws[j].s.gens && ws[j].s.gens[t].conv == c
    ensures Holds(ws[j].s.reg, c, t) ==>
              && (Quiet(ws[j].s.reg.turns[c], now, maxAge) <==> !ActiveBetween(es, i, j, t))
              && (ActiveBetween(es, i, j, t) ==> ws[j].s.reg.turns[c].lastActivity >= now)
    decreases j
  {
    hide IsRun;
    if i < j {
      EvictedStillQuietIff(ws, es, cap, i, j - 1, c, t, now, maxAge);
      HeldTurnStep(ws, es, cap, j - 1, c, t);
      if ActiveStep(es[j - 1], t) {
        assert ActiveBetween(es, i, j, t);
      } else {
        assert ActiveBetween(es, i, j, t) <==> ActiveBetween(es, i, j - 1, t);
      }
    }
  }
}
