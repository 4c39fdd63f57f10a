/**
 The broadcast hubs of internal/askorchicon/turn_hub.go, which are registered per conversation and not per turn: when a
 turn keeps the hub that was created for it, over every run of the turn protocol.
 */
module TurnHubs {
  import opened TurnRegistry
  import opened TurnProtocol
  import opened TurnWitnesses

  /** The hub of conversation c is that of turn u. */
  predicate HasHub(w: World, c: string, u: nat) {
    c in w.hubs && w.hubs[c] == u
  }

  /** The step takes the registered hub of conversation c away from whoever has it: a collector's or a dispatcher's
      removal, or the creation of another. */
  predicate Takes(w: World, e: Event, c: string)
    requires Enabled(w, e)
  {
    match e
    case DropHub(t) => w.s.gens[t].conv == c
    case ReleaseHub(a) => PcOf(w, a).conv == c
    case CreateHub(a) => PcOf(w, a).conv == c
    case _ => false
  }

  ghost predicate TakenBetween(ws: seq<World>, es: seq<Event>, c: string, j: nat, i: nat)
    requires j <= i <= |es| < |ws| && forall k :: 0 <= k < |es| ==> Enabled(ws[k], es[k])
  {
    exists k :: j <= k < i && Takes(ws[k], es[k], c)
  }

  /** The hub of turn u has been created: its dispatcher is past that step. */
  ghost predicate Hubbed(w: World, u: nat) {
    u <= w.s.reg.nextTok && forall a :: PcOf(w, a).DispatchStart? ==> PcOf(w, a).token != u
  }

  lemma HubbedStep(w: World, e: Event, cap: nat, u: nat)
    requires Enabled(w, e) && Hubbed(w, u)
    requires Grows(w.s, Apply(w, e, cap).s, u)
    ensures Hubbed(Apply(w, e, cap), u)
  {
    hide Do, EffectOf, NextHubs, Enabled;
    var w' := Apply(w, e, cap);
    forall a | PcOf(w', a).DispatchStart? ensures PcOf(w', a).token != u {
      if HasActor(e) && e.a == a {
        StartsFresh(w, e, cap);
      } else {
        assert PcOf(w', a) == PcOf(w, a);
      }
    }
  }

  lemma StartsFresh(w: World, e: Event, cap: nat)
    requires Enabled(w, e) && HasActor(e) && NextPc(w, e, cap).DispatchStart?
    ensures NextPc(w, e, cap).token == w.s.reg.nextTok + 1
  {
  }

  lemma CreatedHub(w: World, a: nat, c: string, u: nat, cap: nat)
    requires Inv(w) && PcOf(w, a) == DispatchStart(c, u)
    ensures HasHub(Apply(w, CreateHub(a), cap), c, u) && Hubbed(Apply(w, CreateHub(a), cap), u)
  {
    assert PcOk(w.s, a, PcOf(w, a)) && TokenOk(w.s, u);
    var w' := Apply(w, CreateHub(a), cap);
    forall b | PcOf(w', b).DispatchStart? ensures PcOf(w', b).token != u {
      assert PcOk(w.s, b, PcOf(w, b));
    }
  }

  /** A step keeps the hub of u, if it has it, unless it takes it; and does not give it back. */
  lemma HubStep(w: World, e: Event, cap: nat, c: string, u: nat)
    requires Enabled(w, e) && Hubbed(w, u)
    ensures HasHub(Apply(w, e, cap), c, u) <==> HasHub(w, c, u) && !Takes(w, e, c)
  {
    hide Do, EffectOf, NextPc;
  }

  /** Since it was created for turn u, the conversation's hub is still there, and u's, exactly if no collector and no
      dispatcher has removed the conversation's hub since, and none has created another. */
  lemma {:induction false} HubKeptIff(ws: seq<World>, es: seq<Event>, cap: nat, j: nat, i: nat, a: nat, c: string,
                                      u: nat)
    requires |ws| == |es| + 1 && IsRun(ws, es, cap) && j < i <= |es|
    requires es[j] == CreateHub(a) && PcOf(ws[j], a) == DispatchStart(c, u)
    ensures Hubbed(ws[i], u)
    ensures HasHub(ws[i], c, u) <==> !TakenBetween(ws, es, c, j + 1, i)
    decreases i
  {
    hide Apply, Enabled, HasHub, Hubbed, Takes, Inv;
    if i == j + 1 {
      RunInv(ws, es, cap, j);
      CreatedHub(ws[j], a, c, u, cap);
    } else {
      HubKeptIff(ws, es, cap, j, i - 1, a, c, u);
      StepGrows(ws, es, cap, i - 1, u);
      HubbedStep(ws[i - 1], es[i - 1], cap, u);
      HubStep(ws[i - 1], es[i - 1], cap, c, u);
      if Takes(ws[i - 1], es[i - 1], c) {
        assert TakenBetween(ws, es, c, j + 1, i);
      } else {
        assert TakenBetween(ws, es, c, j + 1, i) <==> TakenBetween(ws, es, c, j + 1, i - 1);
      }
    }
  }

  // ---------------------------------------------------------------- who takes a live turn's hub

  /** Turn u is neither cancelled nor has it ended its collection. */
  ghost predicate Watchable(s: Shared, u: nat) {
    Live(s, u) && s.gens[u].phase != HubDropped
  }

  lemma WatchableBefore(w: World, e: Event, cap: nat, u: nat)
    requires Inv(w) && Enabled(w, e) && u in w.s.gens && Watchable(Apply(w, e, cap).s, u)
    ensures Watchable(w.s, u)
  {
    hide Inv;
    InvParts(w, e);
    StepEffectOk(w, e);
    DoGrows(w.s, EffectOf(w, e), u);
    if w.s.gens[u].phase == HubDropped {
      PhaseBefore(w, e, u);
    }
  }

  lemma InvParts(w: World, e: Event)
    requires Inv(w)
    ensures SharedInv(w.s) && TokenOk(w.s, w.s.reg.nextTok + 1)
    ensures HasActor(e) ==> PcOk(w.s, e.a, PcOf(w, e.a))
  {
  }

  /** A collection that has ended does not begin again. */
  lemma PhaseBefore(w: World, e: Event, u: nat)
    requires Inv(w) && Enabled(w, e) && u in w.s.gens && w.s.gens[u].phase == HubDropped
    ensures var g := Do(w.s, EffectOf(w, e)).gens; u in g && (g[u].phase == HubDropped || g[u].phase == Done)
  {
    assert TokenOk(w.s, w.s.reg.nextTok + 1);
    if HasActor(e) {
      assert PcOk(w.s, e.a, PcOf(w, e.a));
    }
  }

  /** Somebody may still take the hub of conversation c from turn u: an older turn that is not done with it, or a
      dispatcher that gave its own turn up. */
  datatype Threat = Collector(t: nat) | Dispatcher(a: nat)

  predicate Threatens(w: World, x: Threat, c: string, u: nat) {
    match x
    case Collector(t) => t != u && InPhase(w, t, Running) && w.s.gens[t].conv == c
    case Dispatcher(a) =>
      match PcOf(w, a)
      case DispatchStart(conv, t) => conv == c && t != u
      case DispatchHubbed(conv, t) => conv == c && t != u
      case DispatchRelease(conv, t, dropHub) => conv == c && t != u && dropHub
      case DispatchDropHub(conv) => conv == c
      case _ => false
  }

  ghost predicate Threatened(w: World, c: string, u: nat) {
    exists x :: Threatens(w, x, c, u)
  }

  lemma WatchableHolds(w: World, u: nat)
    requires Inv(w) && Watchable(w.s, u)
    ensures Holds(w.s.reg, w.s.gens[u].conv, u)
  {
    assert TokenOk(w.s, u);
  }

  /** While u is watchable its conversation is busy, and no new threat arises. */
  lemma NoNewCollector(w: World, e: Event, cap: nat, t: nat, c: string, u: nat)
    requires Inv(w) && Enabled(w, e) && Threatens(Apply(w, e, cap), Collector(t), c, u)
    ensures Threatened(w, c, u)
  {
    if HasActor(e) {
      assert PcOk(w.s, e.a, PcOf(w, e.a));
    }
    hide Inv;
    if e.Launch? && PcOf(w, e.a).token == t {
      assert Threatens(w, Dispatcher(e.a), c, u);
    } else {
      assert Threatens(w, Collector(t), c, u);
    }
  }

  lemma NoNewDispatcher(w: World, e: Event, cap: nat, a: nat, c: string, u: nat)
    requires Inv(w) && Enabled(w, e) && Watchable(w.s, u) && w.s.gens[u].conv == c && Watchable(Apply(w, e, cap).s, u)
    requires Threatens(Apply(w, e, cap), Dispatcher(a), c, u)
    ensures Threatened(w, c, u)
  {
    WatchableHolds(w, u);
    if HasActor(e) && e.a == a {
      assert PcOk(w.s, a, PcOf(w, a));
      hide Inv;
      MovedThreat(w, e, cap, c, u);
      assert Threatens(w, Dispatcher(a), c, u);
    } else {
      assert Threatens(w, Dispatcher(a), c, u);
    }
  }

  lemma MovedThreat(w: World, e: Event, cap: nat, c: string, u: nat)
    requires Enabled(w, e) && HasActor(e) && PcOk(w.s, e.a, PcOf(w, e.a)) && Holds(w.s.reg, c, u)
    requires Watchable(w.s, u) && Watchable(Apply(w, e, cap).s, u)
    requires Threatens(Apply(w, e, cap), Dispatcher(e.a), c, u)
    ensures Threatens(w, Dispatcher(e.a), c, u)
  {
  }

  lemma UnthreatenedStep(w: World, e: Event, cap: nat, c: string, u: nat)
    requires Inv(w) && Enabled(w, e) && Watchable(w.s, u) && w.s.gens[u].conv == c && Hubbed(w, u)
    requires Watchable(Apply(w, e, cap).s, u) && !Threatened(w, c, u)
    ensures !Threatened(Apply(w, e, cap), c, u) && !Takes(w, e, c)
  {
    hide Apply, Enabled, Inv, Threatens, Takes, Watchable, Hubbed;
    var w' := Apply(w, e, cap);
    if Threatened(w', c, u) {
      var x :| Threatens(w', x, c, u);
      match x
      case Collector(t) => NoNewCollector(w, e, cap, t, c, u);
      case Dispatcher(a) => NoNewDispatcher(w, e, cap, a, c, u);
    }
    if Takes(w, e, c) {
      TakerThreatens(w, e, cap, c, u);
    }
  }

  lemma TakerThreatens(w: World, e: Event, cap: nat, c: string, u: nat)
    requires Enabled(w, e) && Takes(w, e, c) && Hubbed(w, u) && Watchable(Apply(w, e, cap).s, u)
    ensures Threatened(w, c, u)
  {
    match e
    case DropHub(t) => assert Threatens(w, Collector(t), c, u);
    case ReleaseHub(a) => assert Threatens(w, Dispatcher(a), c, u);
    case CreateHub(a) => assert Threatens(w, Dispatcher(a), c, u);
    case _ =>
  }

  /** From an unthreatened world on, u keeps its hub. */
  lemma {:induction false} Unthreatened(w: World, es: seq<Event>, cap: nat, w': World, c: string, u: nat)
    requires Inv(w) && Path(w, es, cap, w') && u in w.s.gens && w.s.gens[u].conv == c && Hubbed(w, u) && HasHub(w, c, u)
    requires Watchable(w'.s, u) && !Threatened(w, c, u)
    ensures HasHub(w', c, u)
    decreases |es|
  {
    hide Apply, Enabled, Inv, Threatened, Takes, Watchable, Hubbed, HasHub, Grows;
    if es != [] {
      var (e, w1) := (es[0], Apply(w, es[0], cap));
      InvStep(w, e, cap);
      GrowsStep(w, e, cap, u);
      WatchableAlong(w1, es[1..], cap, w', u);
      WatchableBefore(w, e, cap, u);
      UnthreatenedStep(w, e, cap, c, u);
      HubbedStep(w, e, cap, u);
      HubStep(w, e, cap, c, u);
      Unthreatened(w1, es[1..], cap, w', c, u);
    }
  }

  lemma GrowsStep(w: World, e: Event, cap: nat, u: nat)
    requires Inv(w) && Enabled(w, e)
    ensures Grows(w.s, Apply(w, e, cap).s, u)
    ensures u in w.s.gens ==> u in Apply(w, e, cap).s.gens && Apply(w, e, cap).s.gens[u].conv == w.s.gens[u].conv
  {
    hide Do, EffectOf, NextPc, NextHubs, Enabled, Inv, SharedInv;
    InvParts(w, e);
    StepEffectOk(w, e);
    DoGrows(w.s, EffectOf(w, e), u);
  }

  lemma {:induction false} WatchableAlong(w: World, es: seq<Event>, cap: nat, w': World, u: nat)
    requires Inv(w) && Path(w, es, cap, w') && u in w.s.gens && Watchable(w'.s, u)
    ensures Watchable(w.s, u)
    decreases |es|
  {
    hide Apply, Enabled, Inv, Watchable, Grows;
    if es != [] {
      InvStep(w, es[0], cap);
      GrowsStep(w, es[0], cap, u);
      WatchableAlong(Apply(w, es[0], cap), es[1..], cap, w', u);
      WatchableBefore(w, es[0], cap, u);
    }
  }

  /** A continuation in which u loses its hub although nobody cancelled it and its collector still runs. */
  ghost predicate LosesHub(w: World, es: seq<Event>, cap: nat, w': World, c: string, u: nat) {
    Path(w, es, cap, w') && Watchable(w'.s, u) && !HasHub(w', c, u)
  }

  ghost predicate CanLoseHub(w: World, cap: nat, c: string, u: nat) {
    exists es, w' :: LosesHub(w, es, cap, w', c, u)
  }

  lemma CollectorTakes(w: World, cap: nat, t: nat, c: string, u: nat) returns (w': World)
    requires Watchable(w.s, u) && Threatens(w, Collector(t), c, u)
    ensures LosesHub(w, [DropHub(t)], cap, w', c, u)
  {
    w' := Apply(w, DropHub(t), cap);
  }

  lemma ReleaserTakes(w: World, cap: nat, a: nat, c: string, u: nat) returns (w': World)
    requires Watchable(w.s, u) && PcOf(w, a) == DispatchDropHub(c)
    ensures LosesHub(w, [ReleaseHub(a)], cap, w', c, u)
  {
    w' := Apply(w, ReleaseHub(a), cap);
  }

  lemma CreatorTakes(w: World, cap: nat, a: nat, t: nat, c: string, u: nat) returns (w': World)
    requires Watchable(w.s, u) && PcOf(w, a) == DispatchStart(c, t) && t != u
    ensures LosesHub(w, [CreateHub(a)], cap, w', c, u)
  {
    w' := Apply(w, CreateHub(a), cap);
  }

  lemma LaunchedTakes(w: World, cap: nat, a: nat, t: nat, c: string, u: nat) returns (w': World)
    requires Watchable(w.s, u) && PcOf(w, a) == DispatchHubbed(c, t) && t != u && StartingGen(w.s, a, c, t)
    ensures LosesHub(w, [Launch(a), DropHub(t)], cap, w', c, u)
  {
    var w1 := Apply(w, Launch(a), cap);
    assert Threatens(w1, Collector(t), c, u);
    w' := CollectorTakes(w1, cap, t, c, u);
    PathStep(w, Launch(a), w1, [DropHub(t)], cap, w');
    assert [Launch(a)] + [DropHub(t)] == [Launch(a), DropHub(t)];
  }

  lemma ReleasedTakes(w: World, cap: nat, a: nat, t: nat, c: string, u: nat) returns (w': World)
    requires Watchable(w.s, u) && PcOf(w, a) == DispatchRelease(c, t, true) && t != u && StartingGen(w.s, a, c, t)
    ensures LosesHub(w, [FinishRelease(a), ReleaseHub(a)], cap, w', c, u)
  {
    var w1 := Apply(w, FinishRelease(a), cap);
    w' := ReleaserTakes(w1, cap, a, c, u);
    PathStep(w, FinishRelease(a), w1, [ReleaseHub(a)], cap, w');
    assert [FinishRelease(a)] + [ReleaseHub(a)] == [FinishRelease(a), ReleaseHub(a)];
  }

  lemma ThreatTakes(w: World, cap: nat, x: Threat, c: string, u: nat) returns (es: seq<Event>, w': World)
    requires Inv(w) && Watchable(w.s, u) && Threatens(w, x, c, u)
    ensures LosesHub(w, es, cap, w', c, u)
  {
    hide Apply, Enabled, LosesHub, Watchable;
    if x.Collector? {
      w' := CollectorTakes(w, cap, x.t, c, u);
      es := [DropHub(x.t)];
    } else {
      assert PcOk(w.s, x.a, PcOf(w, x.a));
      hide Inv;
      match PcOf(w, x.a) {
        case DispatchStart(conv, t) =>
          w' := CreatorTakes(w, cap, x.a, t, c, u);
          es := [CreateHub(x.a)];
        case DispatchHubbed(conv, t) =>
          w' := LaunchedTakes(w, cap, x.a, t, c, u);
          es := [Launch(x.a), DropHub(t)];
        case DispatchRelease(conv, t, _) =>
          w' := ReleasedTakes(w, cap, x.a, t, c, u);
          es := [FinishRelease(x.a), ReleaseHub(x.a)];
        case DispatchDropHub(conv) =>
          w' := ReleaserTakes(w, cap, x.a, c, u);
          es := [ReleaseHub(x.a)];
      }
    }
  }

  /** The moment its hub is created decides: turn u, while nobody cancels it and its collector runs, can lose the hub
      exactly if an older collector of its conversation still runs, or a dispatcher of the conversation still has a
      hub to create or to remove. */
  lemma HubCanBeLostIff(ws: seq<World>, es: seq<Event>, cap: nat, j: nat, a: nat, c: string, u: nat)
    requires |ws| == |es| + 1 && IsRun(ws, es, cap) && j < |es| && es[j] == CreateHub(a)
             && PcOf(ws[j], a) == DispatchStart(c, u)
    requires Watchable(ws[j + 1].s, u)
    ensures CanLoseHub(ws[j + 1], cap, c, u) <==> Threatened(ws[j + 1], c, u)
  {
    hide Apply, Enabled, LosesHub, Threatens, Hubbed, HasHub, Watchable;
    RunInv(ws, es, cap, j);
    RunInv(ws, es, cap, j + 1);
    CreatedHub(ws[j], a, c, u, cap);
    var w := ws[j + 1];
    StartedConv(ws[j], a, c, u, cap);
    hide Inv;
    if x :| Threatens(w, x, c, u) {
      var fs, w' := ThreatTakes(w, cap, x, c, u);
    } else {
      forall fs, w' ensures !LosesHub(w, fs, cap, w', c, u) {
        Keeps(w, fs, cap, w', c, u);
      }
    }
  }

  lemma StartedConv(w: World, a: nat, c: string, u: nat, cap: nat)
    requires Inv(w) && PcOf(w, a) == DispatchStart(c, u)
    ensures var s := Apply(w, CreateHub(a), cap).s; u in s.gens && s.gens[u].conv == c
  {
    assert PcOk(w.s, a, PcOf(w, a));
  }

  lemma Keeps(w: World, es: seq<Event>, cap: nat, w': World, c: string, u: nat)
    requires Inv(w) && u in w.s.gens && w.s.gens[u].conv == c && Hubbed(w, u) && HasHub(w, c, u) && !Threatened(w, c, u)
    ensures !LosesHub(w, es, cap, w', c, u)
  {
    hide Inv, Hubbed, HasHub, Threatened, Watchable, Path;
    if LosesHub(w, es, cap, w', c, u) {
      Unthreatened(w, es, cap, w', c, u);
    }
  }

  /** Whoever takes the hub of a watchable turn acts for another turn of the conversation, which was cancelled before,
      or for one it gave up itself. */
  lemma TakerIsStale(ws: seq<World>, es: seq<Event>, cap: nat, k: nat, c: string, u: nat)
    requires |ws| == |es| + 1 && IsRun(ws, es, cap) && k < |es| && Takes(ws[k], es[k], c) && Hubbed(ws[k], u)
    requires Watchable(ws[k + 1].s, u) && u in ws[k].s.gens && ws[k].s.gens[u].conv == c
    ensures match es[k]
            case DropHub(t) => t != u && t in ws[k].s.reg.causes
            case CreateHub(a) => PcOf(ws[k], a).token != u && PcOf(ws[k], a).token in ws[k].s.reg.causes
            case _ => es[k].ReleaseHub?
  {
    hide Apply;
    RunInv(ws, es, cap, k);
    WatchableBefore(ws[k], es[k], cap, u);
    TakerThreatens(ws[k], es[k], cap, c, u);
    match es[k]
    case DropHub(t) =>
      NotItsOwn(ws[k], t, cap, u);
      StaleTurn(ws, es, cap, k, t, u);
    case CreateHub(a) =>
      assert PcOk(ws[k].s, a, PcOf(ws[k], a));
      StaleTurn(ws, es, cap, k, PcOf(ws[k], a).token, u);
    case _ =>
  }

  lemma NotItsOwn(w: World, t: nat, cap: nat, u: nat)
    requires Enabled(w, DropHub(t)) && Watchable(Apply(w, DropHub(t), cap).s, u)
    ensures t != u
  {
  }

  lemma StaleTurn(ws: seq<World>, es: seq<Event>, cap: nat, k: nat, t: nat, u: nat)
    requires IsRun(ws, es, cap) && k < |ws| && Watchable(ws[k].s, u)
    requires t in ws[k].s.gens && ws[k].s.gens[t].phase != Done && ws[k].s.gens[t].conv == ws[k].s.gens[u].conv
             && t != u
    ensures t in ws[k].s.reg.causes
  {
    hide IsRun;
    if t !in ws[k].s.reg.causes {
      AtMostOneLiveTurn(ws, es, cap, k, t, u);
    }
  }
}
