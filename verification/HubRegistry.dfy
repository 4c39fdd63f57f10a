/**
 The two lock sections in which internal/askorchicon/turn_hub.go replaces a conversation's hub: the old hub is read
 in the first, closed between them, and overwritten in the second, whatever is registered by then.
 */
module HubRegistry {

  /** A call that still has a hub to close: a create that will replace it, or a removal that has taken it out. */
  datatype Pc = Idle | Replacing(conv: string, stale: nat) | Storing(conv: string) | Removing(gone: nat)

  /** Hubs are numbered in the order in which they are registered. */
  datatype World = World(hubs: map<string, nat>, closed: set<nat>, next: nat, actors: map<nat, Pc>)

  const INIT := World(map[], {}, 0, map[])

  datatype Event =
    | BeginCreate(a: nat, conv: string)
    | CloseOld(a: nat)
    | StoreHub(a: nat)
    | Remove(a: nat, conv: string)
    | CloseRemoved(a: nat)

  function PcOf(w: World, a: nat): Pc {
    if a in w.actors then w.actors[a] else Idle
  }

  predicate Enabled(w: World, e: Event) {
    match e
    case BeginCreate(a, _) => PcOf(w, a).Idle?
    case CloseOld(a) => PcOf(w, a).Replacing?
    case StoreHub(a) => PcOf(w, a).Storing?
    case Remove(a, _) => PcOf(w, a).Idle?
    case CloseRemoved(a) => PcOf(w, a).Removing?
  }

  function Registered(w: World, conv: string): World {
    w.(hubs := w.hubs[conv := w.next], next := w.next + 1)
  }

  function Goto(w: World, a: nat, pc: Pc): World {
    w.(actors := w.actors[a := pc])
  }

  function Step(w: World, e: Event): World
    requires Enabled(w, e)
  {
    match e
    case BeginCreate(a, conv) =>
      if conv in w.hubs then Goto(w, a, Replacing(conv, w.hubs[conv])) else Registered(w, conv)
    case CloseOld(a) => Goto(w, a, Storing(PcOf(w, a).conv)).(closed := w.closed + {PcOf(w, a).stale})
    case StoreHub(a) => Goto(Registered(w, PcOf(w, a).conv), a, Idle)
    case Remove(a, conv) =>
      if conv in w.hubs then Goto(w, a, Removing(w.hubs[conv])).(hubs := w.hubs - {conv}) else w
    case CloseRemoved(a) => Goto(w, a, Idle).(closed := w.closed + {PcOf(w, a).gone})
  }

  ghost predicate IsRun(ws: seq<World>, es: seq<Event>) {
    && |ws| == |es| + 1 && ws[0] == INIT
    && forall i :: 0 <= i < |es| ==> Enabled(ws[i], es[i]) && ws[i + 1] == Step(ws[i], es[i])
  }

  predicate Claims(pc: Pc, h: nat) {
    pc == Removing(h) || (pc.Replacing? && pc.stale == h)
  }

  /** The hub has been closed, or some call is going to close it. */
  ghost predicate Settled(w: World, h: nat) {
    h in w.closed || exists a :: Claims(PcOf(w, a), h)
  }

  /** The conversation's hub is registered, and nobody has closed it or is about to: its watchers are served. */
  ghost predicate Open(w: World, conv: string) {
    conv in w.hubs && !Settled(w, w.hubs[conv])
  }

  ghost predicate Inv(w: World) {
    && (forall h: nat :: Settled(w, h) ==> h < w.next)
    && (forall c :: c in w.hubs ==> w.hubs[c] < w.next)
    && (forall c, d :: c in w.hubs && d in w.hubs && w.hubs[c] == w.hubs[d] ==> c == d)
  }

  /** The hub that the step hands over to a call that will close it. */
  predicate Takes(w: World, e: Event, h: nat) {
    (e.BeginCreate? || e.Remove?) && e.conv in w.hubs && w.hubs[e.conv] == h
  }

  lemma SettledStep(w: World, e: Event, h: nat)
    requires Enabled(w, e)
    ensures Settled(Step(w, e), h) <==> Settled(w, h) || Takes(w, e, h)
  {
    var w' := Step(w, e);
    if a :| Claims(PcOf(w, a), h) {
      if PcOf(w', a) == PcOf(w, a) {
        assert Claims(PcOf(w', a), h);
      }
    }
    if Takes(w, e, h) {
      assert Claims(PcOf(w', e.a), h);
    }
    if a :| Claims(PcOf(w', a), h) {
      assert Takes(w, e, h) || Claims(PcOf(w, a), h);
    }
  }

  lemma InvStep(w: World, e: Event)
    requires Inv(w) && Enabled(w, e)
    ensures Inv(Step(w, e))
  {
    hide Settled;
    var w' := Step(w, e);
    forall h: nat | Settled(w', h) ensures h < w'.next {
      SettledStep(w, e, h);
    }
  }

  lemma {:induction false} RunInv(ws: seq<World>, es: seq<Event>, i: nat)
    requires IsRun(ws, es) && i < |ws|
    ensures Inv(ws[i])
  {
    hide Step, Enabled;
    if i > 0 {
      RunInv(ws, es, i - 1);
      InvStep(ws[i - 1], es[i - 1]);
    }
  }

  /** The step registers a hub for the conversation; or takes the registered one to close it. */
  predicate Stores(w: World, e: Event, conv: string) {
    || (e.BeginCreate? && e.conv == conv && conv !in w.hubs)
    || (e.StoreHub? && PcOf(w, e.a).Storing? && PcOf(w, e.a).conv == conv)
  }

  predicate TakesFrom(w: World, e: Event, conv: string) {
    (e.BeginCreate? || e.Remove?) && e.conv == conv && conv in w.hubs
  }

  lemma OpenStep(w: World, e: Event, conv: string)
    requires Inv(w) && Enabled(w, e)
    ensures Open(Step(w, e), conv) <==> Stores(w, e, conv) || (Open(w, conv) && !TakesFrom(w, e, conv))
  {
    hide Settled;
    var w' := Step(w, e);
    if conv in w'.hubs {
      SettledStep(w, e, w'.hubs[conv]);
    }
  }

  /** Between i and j a hub was registered for the conversation, and not taken since. */
  ghost predicate StoredSince(ws: seq<World>, es: seq<Event>, conv: string, i: nat, j: nat)
    requires j <= |es| < |ws|
  {
    exists k :: StoredAt(ws, es, conv, i, j, k)
  }

  ghost predicate StoredAt(ws: seq<World>, es: seq<Event>, conv: string, i: nat, j: nat, k: nat)
    requires j <= |es| < |ws|
  {
    i < k < j && Stores(ws[k], es[k], conv) && forall m :: k < m < j ==> !TakesFrom(ws[m], es[m], conv)
  }

  lemma StoredStep(ws: seq<World>, es: seq<Event>, conv: string, i: nat, j: nat)
    requires i < j < |es| < |ws|
    ensures StoredSince(ws, es, conv, i, j + 1) <==>
              Stores(ws[j], es[j], conv) || (StoredSince(ws, es, conv, i, j) && !TakesFrom(ws[j], es[j], conv))
  {
    hide Stores, TakesFrom;
    if Stores(ws[j], es[j], conv) {
      assert StoredAt(ws, es, conv, i, j + 1, j);
    }
    if StoredSince(ws, es, conv, i, j) && !TakesFrom(ws[j], es[j], conv) {
      var k :| StoredAt(ws, es, conv, i, j, k);
      assert StoredAt(ws, es, conv, i, j + 1, k);
    }
    if StoredSince(ws, es, conv, i, j + 1) && !Stores(ws[j], es[j], conv) {
      var k :| StoredAt(ws, es, conv, i, j + 1, k);
      assert StoredAt(ws, es, conv, i, j, k);
    }
  }

  lemma NotYetStored(ws: seq<World>, es: seq<Event>, conv: string, i: nat)
    requires i < |es| < |ws|
    ensures !StoredSince(ws, es, conv, i, i + 1)
  {
  }

  lemma {:induction false} OpenIff(ws: seq<World>, es: seq<Event>, i: nat, j: nat, a: nat, conv: string)
    requires |ws| == |es| + 1 && IsRun(ws, es) && i < j <= |es|
    requires es[i] == BeginCreate(a, conv) && conv in ws[i].hubs
    ensures Open(ws[j], conv) <==> StoredSince(ws, es, conv, i, j)
    decreases j
  {
    hide Step, Enabled, Open, StoredSince, Inv;
    RunInv(ws, es, j - 1);
    OpenStep(ws[j - 1], es[j - 1], conv);
    if j == i + 1 {
      NotYetStored(ws, es, conv, i);
    } else {
      OpenIff(ws, es, i, j - 1, a, conv);
      StoredStep(ws, es, conv, i, j - 1);
    }
  }

  /** The step takes the conversation's hub out of the registry, it has not been closed, and no call is going to. */
  ghost predicate Abandons(w: World, w': World, conv: string) {
    conv in w.hubs && !Settled(w', w.hubs[conv]) && forall c :: c in w'.hubs ==> w'.hubs[c] != w.hubs[conv]
  }

  lemma StoreAbandons(w: World, a: nat, conv: string)
    requires Inv(w) && PcOf(w, a) == Storing(conv)
    ensures Abandons(w, Step(w, StoreHub(a)), conv) <==> Open(w, conv)
  {
    if conv in w.hubs {
      SettledStep(w, StoreHub(a), w.hubs[conv]);
    }
    hide Settled;
  }

  /** The second section of a create overwrites a hub that nobody closes, so that its watchers wait for good, exactly
      if since its first section another hub was registered for the conversation that nobody has taken since to close
      it. */
  lemma OverwritesOpenIff(ws: seq<World>, es: seq<Event>, i: nat, j: nat, a: nat, conv: string)
    requires |ws| == |es| + 1 && IsRun(ws, es) && i < j < |es|
    requires es[i] == BeginCreate(a, conv) && conv in ws[i].hubs
    requires es[j] == StoreHub(a) && PcOf(ws[j], a) == Storing(conv)
    ensures Abandons(ws[j], ws[j + 1], conv) <==> StoredSince(ws, es, conv, i, j)
  {
    hide Step, Enabled, Open, StoredSince, Inv, Abandons;
    RunInv(ws, es, j);
    OpenIff(ws, es, i, j, a, conv);
    StoreAbandons(ws[j], a, conv);
  }

  lemma Extend(ws: seq<World>, es: seq<Event>, e: Event, w: World) returns (ws': seq<World>, es': seq<Event>)
    requires |ws| == |es| + 1 && IsRun(ws, es) && Enabled(ws[|es|], e) && Step(ws[|es|], e) == w
    ensures |ws'| == |es'| + 1 && IsRun(ws', es') && ws'[|es'|] == w && es' == es + [e]
  {
    hide Step, Enabled;
    ws', es' := ws + [w], es + [e];
    forall i | 0 <= i < |es'| ensures Enabled(ws'[i], es'[i]) && ws'[i + 1] == Step(ws'[i], es'[i]) {
      if i < |es| {
        assert ws'[i] == ws[i] && ws'[i + 1] == ws[i + 1] && es'[i] == es[i];
      }
    }
  }

  /** It happens: of two creates that both found hub 0, the first registers hub 1 and the second hub 2 over it. */
  lemma OverlappingCreatesAbandon(conv: string) returns (ws: seq<World>, es: seq<Event>)
    ensures |ws| == |es| + 1 && IsRun(ws, es)
    ensures var w := ws[|es|];
            (forall a :: PcOf(w, a).Idle?) && w.hubs == map[conv := 2] && w.next == 3 && w.closed == {0}
  {
    ws, es := [INIT], [];
    assert IsRun(ws, es);
    hide IsRun;
    var (r, t) := (Replacing(conv, 0), Storing(conv));
    var h0 := map[conv := 0];
    ws, es := Extend(ws, es, BeginCreate(1, conv), World(h0, {}, 1, map[]));
    ws, es := Extend(ws, es, BeginCreate(1, conv), World(h0, {}, 1, map[1 := r]));
    ws, es := Extend(ws, es, BeginCreate(2, conv), World(h0, {}, 1, map[1 := r, 2 := r]));
    ws, es := Extend(ws, es, CloseOld(1), World(h0, {0}, 1, map[1 := t, 2 := r]));
    ws, es := Extend(ws, es, CloseOld(2), World(h0, {0}, 1, map[1 := t, 2 := t]));
    ws, es := Extend(ws, es, StoreHub(1), World(map[conv := 1], {0}, 2, map[1 := Idle, 2 := t]));
    ws, es := Extend(ws, es, StoreHub(2), World(map[conv := 2], {0}, 3, map[1 := Idle, 2 := Idle]));
  }
}
