/**
 Runs of the turn protocol in which something a reader might expect does not hold: the cap is exceeded, by as many
 turns as dispatchers can be between check and registration; a collector or a dispatcher drops the hub of a newer
 turn; and a sweep evicts a turn that has become active again.
 */
module TurnWitnesses {
  import opened TurnRegistry
  import opened TurnProtocol
  import opened TurnAdmission

  function Goto(w: World, a: nat, pc: Pc): World {
    w.(actors := w.actors[a := pc])
  }

  /** The events es lead from w to w'. */
  predicate Path(w: World, es: seq<Event>, cap: nat, w': World)
    decreases |es|
  {
    if es == [] then w == w' else Enabled(w, es[0]) && Path(Apply(w, es[0], cap), es[1..], cap, w')
  }

  lemma PathStep(w: World, e: Event, m: World, es: seq<Event>, cap: nat, w': World)
    requires Enabled(w, e) && m == Apply(w, e, cap) && Path(m, es, cap, w')
    ensures Path(w, [e] + es, cap, w')
  {
    hide Apply, Enabled;
    assert ([e] + es)[1..] == es;
  }

  lemma {:induction false} PathAppend(w: World, es: seq<Event>, m: World, fs: seq<Event>, cap: nat, w': World)
    requires Path(w, es, cap, m) && Path(m, fs, cap, w')
    ensures Path(w, es + fs, cap, w')
    decreases |es|
  {
    hide Apply, Enabled;
    if es == [] {
      assert es + fs == fs;
    } else {
      PathAppend(Apply(w, es[0], cap), es[1..], m, fs, cap, w');
      assert (es + fs)[1..] == es[1..] + fs;
    }
  }

  /** A path goes through worlds; from the initial world on it is a run. */
  lemma {:induction false} PathIsRun(w: World, es: seq<Event>, cap: nat, w': World) returns (ws: seq<World>)
    requires Path(w, es, cap, w')
    ensures |ws| == |es| + 1 && ws[0] == w && ws[|es|] == w'
    ensures forall i :: 0 <= i < |es| ==> Enabled(ws[i], es[i]) && ws[i + 1] == Apply(ws[i], es[i], cap)
    ensures w == INIT ==> IsRun(ws, es, cap)
    decreases |es|
  {
    hide Apply, Enabled;
    if es == [] {
      ws := [w];
    } else {
      var rest := PathIsRun(Apply(w, es[0], cap), es[1..], cap, w');
      ws := [w] + rest;
      forall i | 0 <= i < |es|
        ensures Enabled(ws[i], es[i]) && ws[i + 1] == Apply(ws[i], es[i], cap)
      {
        if i > 0 {
          assert ws[i] == rest[i - 1] && es[i] == es[1..][i - 1] && ws[i + 1] == rest[i];
        }
      }
    }
  }

  /** The events of a dispatch into a conversation that is not busy, from its admission check on. */
  function AdmitAndStart(a: nat): seq<Event> {
    [CheckRunning(a), CheckCap(a), RegisterTurn(a, "t", "m", 0, 0), CreateHub(a), Launch(a)]
  }

  /** The world in which actor a has registered conversation conv and not launched it yet. */
  function Registering(w: World, a: nat, conv: string): World {
    var t := w.s.reg.nextTok + 1;
    var reg := w.s.reg.(nextTok := t, turns := w.s.reg.turns[conv := Entry(t, 0, "t", "m", false, 0)]);
    Goto(w.(s := Shared(reg, w.s.gens[t := Gen(conv, a, Starting)], w.s.evicted)), a, DispatchStart(conv, t))
  }

  /** The world after such a dispatch, when nothing interleaves. */
  function Started(w: World, a: nat, conv: string): World {
    var t := w.s.reg.nextTok + 1;
    var reg := w.s.reg.(nextTok := t, turns := w.s.reg.turns[conv := Entry(t, 0, "t", "m", false, 0)]);
    World(Shared(reg, w.s.gens[t := Gen(conv, a, Running)], w.s.evicted), w.actors[a := Idle], w.hubs[conv := t])
  }

  lemma CheckSteps(w: World, a: nat, conv: string, cap: nat)
    requires PcOf(w, a) == DispatchGet(conv) && conv !in w.s.reg.turns && |w.s.reg.turns| < cap
    ensures Path(w, [CheckRunning(a)], cap, Goto(w, a, DispatchLen(conv)))
    ensures Path(Goto(w, a, DispatchLen(conv)), [CheckCap(a)], cap, Goto(w, a, DispatchRegister(conv)))
  {
    var w1 := Goto(w, a, DispatchLen(conv));
    assert Goto(w1, a, DispatchRegister(conv)) == Goto(w, a, DispatchRegister(conv));
  }

  lemma RegisterStep(w: World, a: nat, conv: string, cap: nat)
    requires PcOf(w, a) == DispatchRegister(conv) && conv !in w.s.reg.turns
    ensures Path(w, [RegisterTurn(a, "t", "m", 0, 0)], cap, Registering(w, a, conv))
  {
    var e := RegisterTurn(a, "t", "m", 0, 0);
    assert Apply(w, e, cap) == Registering(w, a, conv);
    assert [e][1..] == [];
  }

  lemma CreateHubStep(w: World, a: nat, conv: string, cap: nat)
    ensures var t := w.s.reg.nextTok + 1;
            var w1 := Registering(w, a, conv);
            Path(w1, [CreateHub(a)], cap, World(w1.s, w.actors[a := DispatchHubbed(conv, t)], w.hubs[conv := t]))
  {
    var w1 := Registering(w, a, conv);
    assert w1.actors[a := DispatchHubbed(conv, w.s.reg.nextTok + 1)] ==
        w.actors[a := DispatchHubbed(conv, w.s.reg.nextTok + 1)];
    assert [CreateHub(a)][1..] == [];
  }

  lemma LaunchStep(w: World, a: nat, conv: string, cap: nat)
    ensures var t := w.s.reg.nextTok + 1;
            var w1 := Registering(w, a, conv);
            Path(World(w1.s, w.actors[a := DispatchHubbed(conv, t)], w.hubs[conv := t]), [Launch(a)], cap,
                Started(w, a, conv))
  {
    var t := w.s.reg.nextTok + 1;
    var w2 := World(Registering(w, a, conv).s, w.actors[a := DispatchHubbed(conv, t)], w.hubs[conv := t]);
    assert w2.actors[a := Idle] == w.actors[a := Idle];
    assert w2.s.gens[t := Gen(conv, a, Running)] == w.s.gens[t := Gen(conv, a, Running)];
    assert [Launch(a)][1..] == [];
  }

  lemma LaunchSteps(w: World, a: nat, conv: string, cap: nat)
    ensures Path(Registering(w, a, conv), [CreateHub(a), Launch(a)], cap, Started(w, a, conv))
  {
    hide Apply, Enabled, Path, Started;
    CreateHubStep(w, a, conv, cap);
    LaunchStep(w, a, conv, cap);
    var t := w.s.reg.nextTok + 1;
    var w1 := Registering(w, a, conv);
    assert [CreateHub(a)] + [Launch(a)] == [CreateHub(a), Launch(a)];
    PathAppend(w1, [CreateHub(a)], World(w1.s, w.actors[a := DispatchHubbed(conv, t)], w.hubs[conv := t]),
               [Launch(a)], cap, Started(w, a, conv));
  }

  lemma AdmitAndStartPath(w: World, a: nat, conv: string, cap: nat)
    requires PcOf(w, a) == DispatchGet(conv) && conv !in w.s.reg.turns && |w.s.reg.turns| < cap
    ensures Path(w, AdmitAndStart(a), cap, Started(w, a, conv))
  {
    hide Apply, Enabled, Path;
    var w1, w2 := Goto(w, a, DispatchLen(conv)), Goto(w, a, DispatchRegister(conv));
    var w3 := Registering(w2, a, conv);
    assert w2.actors[a := Idle] == w.actors[a := Idle];
    assert Started(w2, a, conv) == Started(w, a, conv);
    CheckSteps(w, a, conv, cap);
    RegisterStep(w2, a, conv, cap);
    LaunchSteps(w2, a, conv, cap);
    hide Goto, Registering, Started, PcOf;
    var r := RegisterTurn(a, "t", "m", 0, 0);
    PathAppend(w, [CheckRunning(a)], w1, [CheckCap(a)], cap, w2);
    PathAppend(w, [CheckRunning(a)] + [CheckCap(a)], w2, [r], cap, w3);
    PathAppend(w, [CheckRunning(a)] + [CheckCap(a)] + [r], w3, [CreateHub(a), Launch(a)], cap, Started(w, a, conv));
    assert [CheckRunning(a)] + [CheckCap(a)] + [r] + [CreateHub(a), Launch(a)] == AdmitAndStart(a);
  }

  lemma AdmitPath(w: World, a: nat, conv: string, cap: nat)
    requires PcOf(w, a).Idle? && conv !in w.s.reg.turns && |w.s.reg.turns| < cap
    ensures Path(w, [BeginDispatch(a, conv, false), CheckRunning(a), CheckCap(a)], cap,
            Goto(w, a, DispatchRegister(conv)))
  {
    var w1 := Goto(w, a, DispatchGet(conv));
    var w2 := Goto(w1, a, DispatchLen(conv));
    assert Goto(w2, a, DispatchRegister(conv)) == Goto(w1, a, DispatchRegister(conv)) ==
        Goto(w, a, DispatchRegister(conv));
    assert Apply(w, BeginDispatch(a, conv, false), cap) == w1;
    CheckSteps(w1, a, conv, cap);
    hide Apply, Enabled, Goto, PcOf;
    assert [CheckRunning(a)] + [CheckCap(a)] == [CheckRunning(a), CheckCap(a)];
    PathAppend(w1, [CheckRunning(a)], w2, [CheckCap(a)], cap, Goto(w1, a, DispatchRegister(conv)));
    assert [BeginDispatch(a, conv, false), CheckRunning(a), CheckCap(a)][1..] == [CheckRunning(a), CheckCap(a)];
  }

  /** Whenever there is room for one more turn, two dispatchers that interleave both get in: they read the same
      length, then both register. With one slot left that is one turn more than the cap. */
  lemma CapExceededByTwoDispatchers(w: World, a: nat, x: string, b: nat, y: string, cap: nat)
    returns (es: seq<Event>, w': World)
    requires a != b && x != y && PcOf(w, a).Idle? && PcOf(w, b).Idle?
    requires x !in w.s.reg.turns && y !in w.s.reg.turns && |w.s.reg.turns| < cap
    ensures Path(w, es, cap, w') && |w'.s.reg.turns| == |w.s.reg.turns| + 2
  {
    hide Apply, Enabled, Path;
    var w1 := Goto(w, a, DispatchRegister(x));
    var w2 := Goto(w1, b, DispatchRegister(y));
    AdmitPath(w, a, x, cap);
    AdmitPath(w1, b, y, cap);
    var w3 := Registering(w2, a, x);
    w' := Registering(w3, b, y);
    GotoFacts(w, a, DispatchRegister(x), b);
    GotoFacts(w1, b, DispatchRegister(y), a);
    RegisteringFacts(w2, a, x, b);
    RegisteringFacts(w3, b, y, a);
    hide Goto, PcOf, Registering;
    RegisterStep(w2, a, x, cap);
    RegisterStep(w3, b, y, cap);
    es := Concat4(w, [BeginDispatch(a, x, false), CheckRunning(a), CheckCap(a)], w1,
                  [BeginDispatch(b, y, false), CheckRunning(b), CheckCap(b)], w2,
                  [RegisterTurn(a, "t", "m", 0, 0)], w3, [RegisterTurn(b, "t", "m", 0, 0)], cap, w');
  }

  lemma GotoFacts(w: World, a: nat, pc: Pc, b: nat)
    ensures PcOf(Goto(w, a, pc), b) == (if a == b then pc else PcOf(w, b)) && PcOf(Goto(w, a, pc), a) == pc
    ensures Goto(w, a, pc).s == w.s
  {
  }

  lemma RegisteringFacts(w: World, a: nat, conv: string, b: nat)
    requires conv !in w.s.reg.turns
    ensures var w' := Registering(w, a, conv);
            && (a != b ==> PcOf(w', b) == PcOf(w, b))
            && w'.s.reg.turns.Keys == w.s.reg.turns.Keys + {conv} && |w'.s.reg.turns| == |w.s.reg.turns| + 1
  {
    var turns := Registering(w, a, conv).s.reg.turns;
    assert turns.Keys == w.s.reg.turns.Keys + {conv} && |turns| == |turns.Keys|;
  }

  lemma Concat4(w0: World, a: seq<Event>, w1: World, b: seq<Event>, w2: World, c: seq<Event>, w3: World,
                d: seq<Event>, cap: nat, w4: World) returns (es: seq<Event>)
    requires Path(w0, a, cap, w1) && Path(w1, b, cap, w2) && Path(w2, c, cap, w3) && Path(w3, d, cap, w4)
    ensures Path(w0, es, cap, w4) && es == a + b + c + d
  {
    hide Path;
    PathAppend(w0, a, w1, b, cap, w2);
    PathAppend(w0, a + b, w2, c, cap, w3);
    PathAppend(w0, a + b + c, w3, d, cap, w4);
    es := a + b + c + d;
  }

  // ---------------------------------------------------------------- hubs

  lemma BeginPath(w: World, a: nat, conv: string, cap: nat)
    requires PcOf(w, a).Idle?
    ensures Path(w, [BeginDispatch(a, conv, false)], cap, Goto(w, a, DispatchGet(conv)))
  {
  }

  /** The world after an interjection has cancelled and removed the running turn t of conv. */
  function Interrupted(w: World, a: nat, conv: string, t: nat): World {
    var reg := w.s.reg.(turns := w.s.reg.turns - {conv}, causes := w.s.reg.causes[t := Superseded]);
    Goto(w.(s := w.s.(reg := reg)), a, DispatchGet(conv))
  }

  lemma InterruptPath(w: World, a: nat, conv: string, t: nat, cap: nat)
    requires PcOf(w, a).Idle? && Holds(w.s.reg, conv, t) && t !in w.s.reg.causes
    ensures Path(w, [BeginDispatch(a, conv, true), SupersedeCancel(a), SupersedeRemove(a)], cap,
            Interrupted(w, a, conv, t))
  {
    var w1 := Goto(w, a, DispatchCancel(conv));
    var reg := w.s.reg.(causes := w.s.reg.causes[t := Superseded]);
    var w2 := Goto(w1.(s := w.s.(reg := reg)), a, DispatchRemove(conv, t));
    var w3 := Interrupted(w, a, conv, t);
    var es := [BeginDispatch(a, conv, true), SupersedeCancel(a), SupersedeRemove(a)];
    assert Apply(w, es[0], cap) == w1;
    assert Apply(w1, es[1], cap) == w2;
    assert Apply(w2, es[2], cap) == w3;
    hide Apply, Enabled;
    PathStep(w2, es[2], w3, [], cap, w3);
    PathStep(w1, es[1], w2, [es[2]], cap, w3);
    PathStep(w, es[0], w1, [es[1], es[2]], cap, w3);
  }

  lemma StartedFacts(w: World, a: nat, c: string, b: nat)
    ensures var (t, w') := (w.s.reg.nextTok + 1, Started(w, a, c));
            && w'.s.reg.nextTok == t && w'.s.reg.causes == w.s.reg.causes && Holds(w'.s.reg, c, t)
            && w'.s.gens == w.s.gens[t := Gen(c, a, Running)]
            && PcOf(w', a).Idle? && (a != b ==> PcOf(w', b) == PcOf(w, b))
  {
  }

  lemma InterruptedFacts(w: World, a: nat, c: string, t: nat)
    ensures var w' := Interrupted(w, a, c, t);
            && w'.s.reg.nextTok == w.s.reg.nextTok && w'.s.reg.turns == w.s.reg.turns - {c}
            && w'.s.reg.causes == w.s.reg.causes[t := Superseded] && w'.s.gens == w.s.gens
            && PcOf(w', a) == DispatchGet(c)
  {
  }

  lemma OnlyEntry(turns: map<string, Entry>, c: string)
    requires turns.Keys <= {c}
    ensures |turns - {c}| == 0 && c !in turns - {c}
  {
    assert (turns - {c}).Keys == {};
    assert |turns - {c}| == |(turns - {c}).Keys|;
  }

  lemma InitFacts()
    ensures INIT.s.reg.nextTok == 0 && INIT.s.reg.turns == map[] && INIT.s.reg.causes == map[] && INIT.s.gens == map[]
    ensures forall a :: PcOf(INIT, a).Idle?
  {
  }

  /** The hub registry is keyed by conversation only. So a turn can be the live, running, registered turn of its
      conversation while nobody can watch it: the collector it superseded dropped its hub. */
  lemma SupersededCollectorDropsNewerHub(cap: nat, c: string) returns (ws: seq<World>, es: seq<Event>)
    requires cap >= 1
    ensures IsRun(ws, es, cap) && es != [] && es[|es| - 1] == DropHub(1)
    ensures var w := ws[|es|]; Live(w.s, 2) && InPhase(w, 2, Running) && Holds(w.s.reg, c, 2) && c !in w.hubs
  {
    hide Apply, Enabled, Path, IsRun;
    var w;
    es, w := SupersedePath(cap, c);
    ws := PathIsRun(INIT, es, cap, w);
  }

  /** A whole dispatch by an idle actor. */
  lemma StartFromIdle(w: World, a: nat, c: string, cap: nat)
    requires PcOf(w, a).Idle? && c !in w.s.reg.turns && |w.s.reg.turns| < cap
    ensures Path(w, [BeginDispatch(a, c, false)] + AdmitAndStart(a), cap, Started(w, a, c))
  {
    hide Apply, Enabled, Path, AdmitAndStart, PcOf;
    var w1 := Goto(w, a, DispatchGet(c));
    StartedFrom(w, a, c);
    GotoFacts(w, a, DispatchGet(c), a);
    hide Goto, Started;
    BeginPath(w, a, c, cap);
    AdmitAndStartPath(w1, a, c, cap);
    PathAppend(w, [BeginDispatch(a, c, false)], w1, AdmitAndStart(a), cap, Started(w, a, c));
  }

  lemma StartedFrom(w: World, a: nat, c: string)
    ensures Started(Goto(w, a, DispatchGet(c)), a, c) == Started(w, a, c)
  {
    assert Goto(w, a, DispatchGet(c)).actors[a := Idle] == w.actors[a := Idle];
  }

  /** A turn of the conversation that took the place of a running one. */
  lemma SupersedeStarted(w: World, c: string, cap: nat)
    requires PcOf(w, 1).Idle? && Holds(w.s.reg, c, 1) && w.s.reg.turns.Keys == {c} && 1 !in w.s.reg.causes && cap >= 1
    ensures Path(w, [BeginDispatch(1, c, true), SupersedeCancel(1), SupersedeRemove(1)] + AdmitAndStart(1), cap,
                 Started(Interrupted(w, 1, c, 1), 1, c))
  {
    hide Apply, Enabled, Path, AdmitAndStart, PcOf, Interrupted, Started;
    var w1 := Interrupted(w, 1, c, 1);
    InterruptedFacts(w, 1, c, 1);
    OnlyEntry(w.s.reg.turns, c);
    InterruptPath(w, 1, c, 1, cap);
    AdmitAndStartPath(w1, 1, c, cap);
    PathAppend(w, [BeginDispatch(1, c, true), SupersedeCancel(1), SupersedeRemove(1)], w1, AdmitAndStart(1), cap,
        Started(w1, 1, c));
  }

  lemma SupersededWorld(w: World, c: string)
    requires w == Started(Interrupted(Started(INIT, 1, c), 1, c, 1), 1, c)
    ensures w.s.gens == map[1 := Gen(c, 1, Running), 2 := Gen(c, 1, Running)] && w.s.reg.causes == map[1 := Superseded]
    ensures Holds(w.s.reg, c, 2)
  {
    hide Started, Interrupted, INIT;
    InitFacts();
    StartedFacts(INIT, 1, c, 1);
    InterruptedFacts(Started(INIT, 1, c), 1, c, 1);
    StartedFacts(Interrupted(Started(INIT, 1, c), 1, c, 1), 1, c, 1);
  }

  lemma SupersedePath(cap: nat, c: string) returns (es: seq<Event>, w: World)
    requires cap >= 1
    ensures Path(INIT, es, cap, w) && es != [] && es[|es| - 1] == DropHub(1)
    ensures Live(w.s, 2) && InPhase(w, 2, Running) && Holds(w.s.reg, c, 2) && c !in w.hubs
  {
    hide Apply, Enabled, Path, AdmitAndStart, Started, Interrupted, PcOf, INIT;
    var w1 := Started(INIT, 1, c);
    var w2 := Started(Interrupted(w1, 1, c, 1), 1, c);
    InitFacts();
    StartedFacts(INIT, 1, c, 1);
    StartedKeys(INIT, 1, c);
    SupersededWorld(w2, c);
    StartFromIdle(INIT, 1, c, cap);
    SupersedeStarted(w1, c, cap);
    DropHubPath(w2, 1, cap);
    w := World(w2.s.(gens := w2.s.gens[1 := w2.s.gens[1].(phase := HubDropped)]), w2.actors,
        w2.hubs - {w2.s.gens[1].conv});
    es := Concat3(INIT, [BeginDispatch(1, c, false)] + AdmitAndStart(1), w1,
                  [BeginDispatch(1, c, true), SupersedeCancel(1), SupersedeRemove(1)] + AdmitAndStart(1), w2,
                  DropHub(1), cap, w);
  }

  lemma Concat3(w0: World, a: seq<Event>, w1: World, b: seq<Event>, w2: World, e: Event, cap: nat, w3: World)
    returns (es: seq<Event>)
    requires Path(w0, a, cap, w1) && Path(w1, b, cap, w2) && Path(w2, [e], cap, w3)
    ensures Path(w0, es, cap, w3) && es == a + b + [e] && es != [] && es[|es| - 1] == e
  {
    hide Path;
    PathAppend(w0, a, w1, b, cap, w2);
    PathAppend(w0, a + b, w2, [e], cap, w3);
    es := a + b + [e];
  }

  lemma StartedKeys(w: World, a: nat, c: string)
    ensures Started(w, a, c).s.reg.turns.Keys == w.s.reg.turns.Keys + {c}
  {
  }

  lemma DropHubPath(w: World, t: nat, cap: nat)
    requires InPhase(w, t, Running)
    ensures Path(w, [DropHub(t)], cap,
                 World(w.s.(gens := w.s.gens[t := w.s.gens[t].(phase := HubDropped)]), w.actors,
                     w.hubs - {w.s.gens[t].conv}))
  {
  }

  /** A dispatch that creates its hub and then cannot resolve an adapter, up to where it still has to remove
      the hub. */
  function AdmitAndRelease(a: nat): seq<Event> {
    [CheckRunning(a), CheckCap(a), RegisterTurn(a, "t", "m", 0, 0), CreateHub(a)] + [Release(a), FinishRelease(a)]
  }

  /** The world after that. */
  function Released(w: World, a: nat, conv: string): World {
    var t := w.s.reg.nextTok + 1;
    var reg := w.s.reg.(nextTok := t, turns := w.s.reg.turns - {conv}, causes := w.s.reg.causes[t := UserStop]);
    World(Shared(reg, w.s.gens[t := Gen(conv, a, Done)], w.s.evicted), w.actors[a := DispatchDropHub(conv)],
        w.hubs[conv := t])
  }

  lemma ReleasePath(w: World, a: nat, conv: string, cap: nat)
    requires conv !in w.s.reg.turns && w.s.reg.nextTok + 1 !in w.s.reg.causes
    ensures var t := w.s.reg.nextTok + 1;
            var w1 := Registering(w, a, conv);
            Path(World(w1.s, w.actors[a := DispatchHubbed(conv, t)], w.hubs[conv := t]),
                [Release(a), FinishRelease(a)], cap,
                 Released(w, a, conv))
  {
    var t := w.s.reg.nextTok + 1;
    var w1 := World(Registering(w, a, conv).s, w.actors[a := DispatchHubbed(conv, t)], w.hubs[conv := t]);
    var w2 := Cancelling(w, a, conv);
    ReleaseStep(w, a, conv, cap);
    FinishStep(w, a, conv, cap);
    hide Apply, Enabled, Released, Cancelling, Registering;
    PathStep(w2, FinishRelease(a), Released(w, a, conv), [], cap, Released(w, a, conv));
    PathStep(w1, Release(a), w2, [FinishRelease(a)], cap, Released(w, a, conv));
    assert [FinishRelease(a)] + [] == [FinishRelease(a)]
        && [Release(a)] + [FinishRelease(a)] == [Release(a), FinishRelease(a)];
  }

  /** The dispatcher has cancelled its turn and not taken it out yet. */
  function Cancelling(w: World, a: nat, conv: string): World {
    var t := w.s.reg.nextTok + 1;
    var s := Registering(w, a, conv).s;
    World(s.(reg := s.reg.(causes := w.s.reg.causes[t := UserStop])), w.actors[a := DispatchRelease(conv, t, true)],
        w.hubs[conv := t])
  }

  lemma ReleaseStep(w: World, a: nat, conv: string, cap: nat)
    requires w.s.reg.nextTok + 1 !in w.s.reg.causes
    ensures var t := w.s.reg.nextTok + 1;
            var w1 := World(Registering(w, a, conv).s, w.actors[a := DispatchHubbed(conv, t)], w.hubs[conv := t]);
            Enabled(w1, Release(a)) && Apply(w1, Release(a), cap) == Cancelling(w, a, conv)
  {
    var t := w.s.reg.nextTok + 1;
    assert w.actors[a := DispatchHubbed(conv, t)][a := DispatchRelease(conv, t, true)] ==
        w.actors[a := DispatchRelease(conv, t, true)];
  }

  lemma FinishStep(w: World, a: nat, conv: string, cap: nat)
    requires conv !in w.s.reg.turns
    ensures var w2 := Cancelling(w, a, conv);
            Enabled(w2, FinishRelease(a)) && Apply(w2, FinishRelease(a), cap) == Released(w, a, conv)
  {
    var t := w.s.reg.nextTok + 1;
    var w2 := Cancelling(w, a, conv);
    assert w2.actors[a := DispatchDropHub(conv)] == w.actors[a := DispatchDropHub(conv)];
    assert w2.s.reg.turns - {conv} == w.s.reg.turns - {conv};
    assert w2.s.gens[t := Gen(conv, a, Done)] == w.s.gens[t := Gen(conv, a, Done)];
  }

  lemma AdmitAndReleasePath(w: World, a: nat, conv: string, cap: nat)
    requires PcOf(w, a) == DispatchGet(conv) && conv !in w.s.reg.turns && |w.s.reg.turns| < cap
    requires w.s.reg.nextTok + 1 !in w.s.reg.causes
    ensures Path(w, AdmitAndRelease(a), cap, Released(w, a, conv))
  {
    hide Apply, Enabled, Path;
    var w1, w2 := Goto(w, a, DispatchLen(conv)), Goto(w, a, DispatchRegister(conv));
    var w3 := Registering(w2, a, conv);
    var t := w.s.reg.nextTok + 1;
    var w4 := World(w3.s, w2.actors[a := DispatchHubbed(conv, t)], w2.hubs[conv := t]);
    assert w2.actors[a := DispatchDropHub(conv)] == w.actors[a := DispatchDropHub(conv)];
    assert Released(w2, a, conv) == Released(w, a, conv);
    CheckSteps(w, a, conv, cap);
    RegisterStep(w2, a, conv, cap);
    CreateHubStep(w2, a, conv, cap);
    ReleasePath(w2, a, conv, cap);
    hide Goto, Registering, Released, PcOf;
    var r := RegisterTurn(a, "t", "m", 0, 0);
    var es := Concat4(w, [CheckRunning(a)], w1, [CheckCap(a)], w2, [r], w3, [CreateHub(a)], cap, w4);
    PathAppend(w, es, w4, [Release(a), FinishRelease(a)], cap, Released(w, a, conv));
    assert [CheckRunning(a)] + [CheckCap(a)] + [r] + [CreateHub(a)] == [CheckRunning(a), CheckCap(a), r, CreateHub(a)];
  }

  lemma ReleasedFacts(w: World, a: nat, c: string, b: nat)
    ensures var (t, w') := (w.s.reg.nextTok + 1, Released(w, a, c));
            && w'.s.reg.nextTok == t && w'.s.reg.causes == w.s.reg.causes[t := UserStop]
            && w'.s.reg.turns == w.s.reg.turns - {c}
            && PcOf(w', a) == DispatchDropHub(c) && (a != b ==> PcOf(w', b) == PcOf(w, b))
  {
  }

  /** No collector is needed for that: a dispatcher that gives its turn up leaves the registry before it removes the
      hub, and by then the hub is that of the turn dispatched in between. */
  lemma ReleasedDispatchDropsNewerHub(cap: nat, c: string) returns (ws: seq<World>, es: seq<Event>)
    requires cap >= 1
    ensures IsRun(ws, es, cap) && es != [] && es[|es| - 1] == ReleaseHub(1)
    ensures forall i :: 0 <= i < |es| ==> !es[i].DropHub?
    ensures var w := ws[|es|]; Live(w.s, 2) && InPhase(w, 2, Running) && Holds(w.s.reg, c, 2) && c !in w.hubs
  {
    hide Apply, Enabled, Path, IsRun;
    var w;
    es, w := GivenUpPath(cap, c);
    ws := PathIsRun(INIT, es, cap, w);
  }

  lemma ReleaseFromIdle(w: World, a: nat, c: string, cap: nat)
    requires PcOf(w, a).Idle? && c !in w.s.reg.turns && |w.s.reg.turns| < cap && w.s.reg.nextTok + 1 !in w.s.reg.causes
    ensures Path(w, [BeginDispatch(a, c, false)] + AdmitAndRelease(a), cap, Released(w, a, c))
  {
    hide Apply, Enabled, Path, AdmitAndRelease, PcOf;
    var w1 := Goto(w, a, DispatchGet(c));
    ReleasedFrom(w, a, c);
    GotoFacts(w, a, DispatchGet(c), a);
    hide Goto, Released;
    BeginPath(w, a, c, cap);
    AdmitAndReleasePath(w1, a, c, cap);
    PathAppend(w, [BeginDispatch(a, c, false)], w1, AdmitAndRelease(a), cap, Released(w, a, c));
  }

  lemma ReleasedFrom(w: World, a: nat, c: string)
    ensures Released(Goto(w, a, DispatchGet(c)), a, c) == Released(w, a, c)
  {
    assert Goto(w, a, DispatchGet(c)).actors[a := DispatchDropHub(c)] == w.actors[a := DispatchDropHub(c)];
  }

  lemma GivenUpWorld(w1: World, w2: World, c: string)
    requires w1 == Released(INIT, 1, c) && w2 == Started(w1, 2, c)
    ensures PcOf(w1, 2).Idle? && w1.s.reg.turns == map[]
    ensures PcOf(w2, 1) == DispatchDropHub(c) && Holds(w2.s.reg, c, 2) && w2.s.reg.causes == map[1 := UserStop]
    ensures 2 in w2.s.gens && w2.s.gens[2] == Gen(c, 2, Running)
  {
    hide Started, Released, INIT, PcOf;
    InitFacts();
    ReleasedFacts(INIT, 1, c, 2);
    StartedFacts(w1, 2, c, 1);
  }

  lemma GivenUpPath(cap: nat, c: string) returns (es: seq<Event>, w: World)
    requires cap >= 1
    ensures Path(INIT, es, cap, w) && es != [] && es[|es| - 1] == ReleaseHub(1)
    ensures forall i :: 0 <= i < |es| ==> !es[i].DropHub?
    ensures Live(w.s, 2) && InPhase(w, 2, Running) && Holds(w.s.reg, c, 2) && c !in w.hubs
  {
    NoDrops();
    hide Apply, Enabled, Path, AdmitAndStart, AdmitAndRelease, Started, Released, PcOf, INIT;
    var w1 := Released(INIT, 1, c);
    var w2 := Started(w1, 2, c);
    GivenUpWorld(w1, w2, c);
    InitFacts();
    ReleaseFromIdle(INIT, 1, c, cap);
    StartFromIdle(w1, 2, c, cap);
    ReleaseHubPath(w2, 1, c, cap);
    w := World(w2.s, w2.actors[1 := Idle], w2.hubs - {c});
    es := Concat3(INIT, [BeginDispatch(1, c, false)] + AdmitAndRelease(1), w1,
                  [BeginDispatch(2, c, false)] + AdmitAndStart(2), w2,
                  ReleaseHub(1), cap, w);
  }

  lemma NoDrops()
    ensures forall a, i :: 0 <= i < |AdmitAndStart(a)| ==> !AdmitAndStart(a)[i].DropHub?
    ensures forall a, i :: 0 <= i < |AdmitAndRelease(a)| ==> !AdmitAndRelease(a)[i].DropHub?
  {
  }

  lemma ReleaseHubPath(w: World, a: nat, conv: string, cap: nat)
    requires PcOf(w, a) == DispatchDropHub(conv)
    ensures Path(w, [ReleaseHub(a)], cap, World(w.s, w.actors[a := Idle], w.hubs - {conv}))
  {
  }

  // ---------------------------------------------------------------- sweeping an active turn

  /** What a sweep of the registry with turn 1 alone, registered at time 0, saw at time now. */
  function Seen(c: string, now: int, maxAge: int): Scanned {
    Scanned(Candidate(c, "t", 1), 0, now, maxAge, 1)
  }

  /** Turn 1 runs in the only conversation registered, and was last active at this time. */
  ghost predicate Alone(w: World, c: string, active: int) {
    && Holds(w.s.reg, c, 1) && w.s.reg.turns.Keys == {c} && w.s.reg.turns[c].tenant == "t"
    && w.s.reg.turns[c].lastActivity == active && w.s.reg.nextTok == 1 && w.s.reg.causes == map[]
    && 1 in w.s.gens && w.s.gens[1] == Gen(c, 1, Running)
  }

  lemma SweepBegins(w: World, c: string, now: int, maxAge: int, cap: nat)
    requires Alone(w, c, 0) && PcOf(w, 2).Idle? && now > maxAge
    ensures Path(w, [BeginSweep(2, now, maxAge, [Candidate(c, "t", 1)])], cap,
            Goto(w, 2, SweepAsk([Seen(c, now, maxAge)])))
  {
    var e := BeginSweep(2, now, maxAge, [Candidate(c, "t", 1)]);
    assert e.cands[0].conv == c;
    assert NextPc(w, e, cap) == SweepAsk([Seen(c, now, maxAge)]);
    assert [e][1..] == [];
  }

  lemma SweepAsks(w: World, c: string, now: int, maxAge: int, cap: nat)
    ensures Path(Goto(w, 2, SweepAsk([Seen(c, now, maxAge)])), [AskParked(2, false)], cap,
            Goto(w, 2, SweepEvict([Seen(c, now, maxAge)])))
  {
    var (w1, w2) := (Goto(w, 2, SweepAsk([Seen(c, now, maxAge)])), Goto(w, 2, SweepEvict([Seen(c, now, maxAge)])));
    assert w1.actors[2 := SweepEvict([Seen(c, now, maxAge)])] == w2.actors;
    assert [AskParked(2, false)][1..] == [];
  }

  /** Progress reported between scan and eviction does not save a turn, however recent it is: a run from the initial
      world in which the eviction takes out a turn that was active at any given time before it. */
  lemma ProgressDoesNotStopEviction(cap: nat, c: string, now: int, maxAge: int, later: int)
    returns (ws: seq<World>, es: seq<Event>)
    requires cap >= 1 && now > maxAge
    ensures IsRun(ws, es, cap) && |es| >= 2 && es[|es| - 2] == Activity(1, later) && es[|es| - 1] == EvictNext(2)
    ensures var (before, after) := (ws[|es| - 1].s, ws[|es|].s);
            && Holds(before.reg, c, 1) && before.reg.turns[c].lastActivity == later && Live(before, 1)
            && c !in after.reg.turns && 1 in after.reg.causes && after.evicted == [Seen(c, now, maxAge)]
  {
    hide Apply, Enabled, Path, IsRun, AdmitAndStart, Started, Goto, INIT;
    var w1 := Started(INIT, 1, c);
    var w2 := Goto(w1, 2, SweepEvict([Seen(c, now, maxAge)]));
    StartedAlone(c);
    SweepBegins(w1, c, now, maxAge, cap);
    SweepAsks(w1, c, now, maxAge, cap);
    InitFacts();
    StartFromIdle(INIT, 1, c, cap);
    GotoFacts(w1, 2, SweepEvict([Seen(c, now, maxAge)]), 2);
    var fs := [BeginSweep(2, now, maxAge, [Candidate(c, "t", 1)])];
    PathAppend(w1, fs, Goto(w1, 2, SweepAsk([Seen(c, now, maxAge)])), [AskParked(2, false)], cap, w2);
    var head := [BeginDispatch(1, c, false)] + AdmitAndStart(1) + (fs + [AskParked(2, false)]);
    PathAppend(INIT, [BeginDispatch(1, c, false)] + AdmitAndStart(1), w1, fs + [AskParked(2, false)], cap, w2);
    var w3, w4 := ActiveAndEvicted(w2, c, now, maxAge, later, cap);
    ws, es := EndsWithTwo(head, w2, Activity(1, later), w3, EvictNext(2), w4, cap);
  }

  lemma StartedAlone(c: string)
    ensures var w := Started(INIT, 1, c); Alone(w, c, 0) && PcOf(w, 2).Idle? && w.s.evicted == []
  {
  }

  lemma ActiveAndEvicted(w: World, c: string, now: int, maxAge: int, later: int, cap: nat)
    returns (w1: World, w2: World)
    requires Alone(w, c, 0) && PcOf(w, 2) == SweepEvict([Seen(c, now, maxAge)]) && w.s.evicted == []
    ensures Enabled(w, Activity(1, later)) && w1 == Apply(w, Activity(1, later), cap)
    ensures Enabled(w1, EvictNext(2)) && w2 == Apply(w1, EvictNext(2), cap)
    ensures Holds(w1.s.reg, c, 1) && w1.s.reg.turns[c].lastActivity == later && Live(w1.s, 1)
    ensures c !in w2.s.reg.turns && 1 in w2.s.reg.causes && w2.s.evicted == [Seen(c, now, maxAge)]
  {
    w1 := Apply(w, Activity(1, later), cap);
    assert Holds(w1.s.reg, c, 1) && PcOf(w1, 2) == PcOf(w, 2);
    w2 := Apply(w1, EvictNext(2), cap);
    assert w1.s.evicted + [Seen(c, now, maxAge)] == [Seen(c, now, maxAge)];
  }

  lemma EndsWithTwo(head: seq<Event>, w: World, e: Event, w1: World, f: Event, w2: World, cap: nat)
    returns (ws: seq<World>, es: seq<Event>)
    requires Path(INIT, head, cap, w) && Enabled(w, e) && w1 == Apply(w, e, cap) && Enabled(w1, f)
             && w2 == Apply(w1, f, cap)
    ensures es == head + [e] + [f] && IsRun(ws, es, cap) && ws[|es| - 1] == w1 && ws[|es|] == w2
  {
    hide Apply, Enabled, IsRun;
    OneStep(w, e, cap);
    OneStep(w1, f, cap);
    hide Path;
    PathAppend(INIT, head, w, [e], cap, w1);
    ws := PathIsRun(INIT, head + [e], cap, w1);
    es := head + [e] + [f];
    ExtendRun(ws, head + [e], f, cap);
    ws := ws + [w2];
  }

  lemma OneStep(w: World, e: Event, cap: nat)
    requires Enabled(w, e)
    ensures Path(w, [e], cap, Apply(w, e, cap))
  {
    hide Apply, Enabled;
    assert [e][1..] == [];
  }

  lemma ExtendRun(ws: seq<World>, es: seq<Event>, e: Event, cap: nat)
    requires |ws| == |es| + 1 && IsRun(ws, es, cap) && Enabled(ws[|es|], e)
    ensures IsRun(ws + [Apply(ws[|es|], e, cap)], es + [e], cap)
  {
    hide Apply, Enabled;
    var (ws', es') := (ws + [Apply(ws[|es|], e, cap)], es + [e]);
    forall i | 0 <= i < |es'| ensures Enabled(ws'[i], es'[i]) && ws'[i + 1] == Apply(ws'[i], es'[i], cap) {
      if i < |es| {
        assert ws'[i] == ws[i] && ws'[i + 1] == ws[i + 1] && es'[i] == es[i];
      }
    }
  }

  // ---------------------------------------------------------------- the bound on admissions is reached

  /** A conversation per number. */
  function Name(n: nat): string {
    seq(n, _ => 'c')
  }

  function Names(n: nat): set<string> {
    set i | 0 <= i < n :: Name(i)
  }

  lemma NamesGrow(n: nat)
    ensures Name(n) !in Names(n) && Names(n + 1) == Names(n) + {Name(n)} && |Names(n)| == n
  {
    assert forall i :: 0 <= i < n ==> |Name(i)| == i;
    assert |Name(n)| == n;
    if n > 0 {
      NamesGrow(n - 1);
    }
    forall x | x in Names(n) + {Name(n)} ensures x in Names(n + 1) {
      if x in Names(n) {
        var i :| 0 <= i < n && x == Name(i);
      }
    }
    assert Names(0) == {};
  }

  /** n turns run; actors below m are about to register one more each, the others are idle. */
  ghost predicate Filled(w: World, n: nat, m: nat) {
    && w.s.reg.turns.Keys == Names(n)
    && (forall a: nat :: PcOf(w, a) == if a < m then DispatchRegister(Name(n + a)) else Idle)
  }

  /** The first m of k of them have registered. */
  ghost predicate Entered(w: World, n: nat, m: nat, k: nat) {
    && w.s.reg.turns.Keys == Names(n + m)
    && (forall a: nat :: m <= a < k ==> PcOf(w, a) == DispatchRegister(Name(n + a)))
  }

  predicate ByFirst(es: seq<Event>, k: nat) {
    forall i :: 0 <= i < |es| ==> HasActor(es[i]) ==> es[i].a < k
  }

  lemma {:induction false} FillPath(n: nat, cap: nat, k: nat) returns (es: seq<Event>, w: World)
    requires n < cap && k >= 1
    ensures Path(INIT, es, cap, w) && Filled(w, n, 0) && ByFirst(es, k)
  {
    if n == 0 {
      es, w := [], INIT;
      assert Names(0) == {};
    } else {
      var fs, v := FillPath(n - 1, cap, k);
      NamesGrow(n - 1);
      assert |v.s.reg.turns| == |v.s.reg.turns.Keys|;
      ByFirstStart(0, Name(n - 1), k);
      hide Apply, Enabled, Path, AdmitAndStart, Names, Name, ByFirst;
      w := Started(v, 0, Name(n - 1));
      StartFromIdle(v, 0, Name(n - 1), cap);
      StartedKeys(v, 0, Name(n - 1));
      forall a: nat ensures PcOf(w, a) == Idle {
        StartedFacts(v, 0, Name(n - 1), a);
      }
      PathAppend(INIT, fs, v, [BeginDispatch(0, Name(n - 1), false)] + AdmitAndStart(0), cap, w);
      ByFirstAppend(fs, [BeginDispatch(0, Name(n - 1), false)] + AdmitAndStart(0), k);
      es := fs + ([BeginDispatch(0, Name(n - 1), false)] + AdmitAndStart(0));
    }
  }

  lemma ByFirstStart(a: nat, c: string, k: nat)
    requires a < k
    ensures ByFirst([BeginDispatch(a, c, false)] + AdmitAndStart(a), k)
  {
  }

  lemma ByFirstAppend(es: seq<Event>, fs: seq<Event>, k: nat)
    requires ByFirst(es, k) && ByFirst(fs, k)
    ensures ByFirst(es + fs, k)
  {
  }

  /** One more dispatcher gets through the check. */
  lemma AdmitOne(w: World, n: nat, m: nat, cap: nat, k: nat) returns (es: seq<Event>, w': World)
    requires Filled(w, n, m) && n < cap && m < k
    ensures Path(w, es, cap, w') && Filled(w', n, m + 1) && ByFirst(es, k)
  {
    hide Apply, Enabled, Path, Filled, Name, Goto, ByFirst;
    AdmitRoom(w, n, m, cap);
    AdmitPath(w, m, Name(n + m), cap);
    AdmittedNext(w, n, m);
    w' := Goto(w, m, DispatchRegister(Name(n + m)));
    es := [BeginDispatch(m, Name(n + m), false), CheckRunning(m), CheckCap(m)];
    AdmitByFirst(m, Name(n + m), k);
  }

  lemma AdmitByFirst(a: nat, c: string, k: nat)
    requires a < k
    ensures ByFirst([BeginDispatch(a, c, false), CheckRunning(a), CheckCap(a)], k)
  {
  }

  lemma AdmitRoom(w: World, n: nat, m: nat, cap: nat)
    requires Filled(w, n, m) && n < cap
    ensures PcOf(w, m).Idle? && Name(n + m) !in w.s.reg.turns && |w.s.reg.turns| < cap
  {
    hide Name, Names, PcOf;
    NameNotIn(n, n + m);
    NamesGrow(n);
    assert |w.s.reg.turns| == |w.s.reg.turns.Keys|;
  }

  lemma AdmittedNext(w: World, n: nat, m: nat)
    requires Filled(w, n, m)
    ensures Filled(Goto(w, m, DispatchRegister(Name(n + m))), n, m + 1)
  {
    hide Name, Names, Goto, PcOf;
    var w' := Goto(w, m, DispatchRegister(Name(n + m)));
    GotoFacts(w, m, DispatchRegister(Name(n + m)), m);
    forall b: nat ensures PcOf(w', b) == if b < m + 1 then DispatchRegister(Name(n + b)) else Idle {
      GotoFacts(w, m, DispatchRegister(Name(n + m)), b);
    }
  }

  lemma NoEvents(w: World, cap: nat, k: nat)
    ensures Path(w, [], cap, w) && ByFirst([], k)
  {
  }

  lemma {:induction false} AdmitMany(w: World, n: nat, m: nat, cap: nat, k: nat) returns (es: seq<Event>, w': World)
    requires Filled(w, n, 0) && n < cap && m <= k
    ensures Path(w, es, cap, w') && Filled(w', n, m) && ByFirst(es, k)
  {
    hide Path, Filled, ByFirst;
    if m == 0 {
      NoEvents(w, cap, k);
      es, w' := [], w;
    } else {
      var fs, v := AdmitMany(w, n, m - 1, cap, k);
      var gs;
      gs, w' := AdmitOne(v, n, m - 1, cap, k);
      PathAppend(w, fs, v, gs, cap, w');
      ByFirstAppend(fs, gs, k);
      es := fs + gs;
    }
  }

  lemma NameNotIn(n: nat, m: nat)
    requires n <= m
    ensures Name(m) !in Names(n)
  {
    assert |Name(m)| == m && forall i :: 0 <= i < n ==> |Name(i)| == i;
  }

  lemma RegisterOne(w: World, n: nat, m: nat, k: nat, cap: nat) returns (es: seq<Event>, w': World)
    requires Entered(w, n, m, k) && m < k
    ensures Path(w, es, cap, w') && Entered(w', n, m + 1, k) && ByFirst(es, k)
  {
    es := [RegisterTurn(m, "t", "m", 0, 0)];
    EnteredRoom(w, n, m, k);
    EnteredNext(w, n, m, k);
    hide Apply, Enabled, Path, Name, Registering, PcOf, Entered;
    RegisterStep(w, m, Name(n + m), cap);
    w' := Registering(w, m, Name(n + m));
  }

  lemma EnteredRoom(w: World, n: nat, m: nat, k: nat)
    requires Entered(w, n, m, k) && m < k
    ensures PcOf(w, m) == DispatchRegister(Name(n + m)) && Name(n + m) !in w.s.reg.turns
  {
    hide Names, Name, PcOf;
    NamesGrow(n + m);
  }

  lemma EnteredNext(w: World, n: nat, m: nat, k: nat)
    requires Entered(w, n, m, k) && m < k
    ensures Entered(Registering(w, m, Name(n + m)), n, m + 1, k)
  {
    hide Names, Name, Registering, PcOf;
    NamesGrow(n + m);
    var w' := Registering(w, m, Name(n + m));
    forall b: nat | m + 1 <= b < k ensures PcOf(w', b) == DispatchRegister(Name(n + b)) {
      RegisteringFacts(w, m, Name(n + m), b);
    }
    RegisteringFacts(w, m, Name(n + m), m);
    assert n + (m + 1) == (n + m) + 1;
  }

  lemma FilledEntered(w: World, n: nat, k: nat)
    requires Filled(w, n, k)
    ensures Entered(w, n, 0, k)
  {
    hide PcOf, Names, Name;
  }

  lemma {:induction false} RegisterMany(w: World, n: nat, m: nat, cap: nat, k: nat) returns (es: seq<Event>, w': World)
    requires Entered(w, n, 0, k) && m <= k
    ensures Path(w, es, cap, w') && Entered(w', n, m, k) && ByFirst(es, k)
  {
    hide Path, Entered, ByFirst;
    if m == 0 {
      NoEvents(w, cap, k);
      es, w' := [], w;
    } else {
      var fs, v := RegisterMany(w, n, m - 1, cap, k);
      var gs;
      gs, w' := RegisterOne(v, n, m - 1, k, cap);
      PathAppend(w, fs, v, gs, cap, w');
      ByFirstAppend(fs, gs, k);
      es := fs + gs;
    }
  }

  lemma {:induction false} FewActors(ws: seq<World>, es: seq<Event>, cap: nat, k: nat, i: nat)
    requires |ws| == |es| + 1 && IsRun(ws, es, cap) && ByFirst(es, k) && i < |ws|
    ensures forall a :: a in ws[i].actors ==> a < k
  {
    hide Enabled, Do, EffectOf, NextPc, NextHubs;
    if i > 0 {
      FewActors(ws, es, cap, k, i - 1);
      assert ws[i] == Apply(ws[i - 1], es[i - 1], cap);
    }
  }

  lemma {:induction false} FirstNumbers(s: set<nat>, k: nat)
    requires forall a :: a in s ==> a < k
    ensures |s| <= k
  {
    if k == 0 {
      assert s == {};
    } else {
      FirstNumbers(s - {k - 1}, k - 1);
      assert k - 1 !in s ==> s - {k - 1} == s;
    }
  }

  /** The bound of AdmissionBound is reached, for every cap and every number k of dispatchers that may be between
      check and registration. */
  lemma AdmissionBoundIsReached(cap: nat, k: nat) returns (ws: seq<World>, es: seq<Event>)
    requires cap >= 1 && k >= 1
    ensures |ws| == |es| + 1 && IsRun(ws, es, cap) && forall j :: 0 <= j < |ws| ==> |Admitting(ws[j])| <= k
    ensures |ws[|es|].s.reg.turns| == cap - 1 + k
  {
    hide Apply, Enabled, Path, IsRun, Names, ByFirst, Filled, Entered, Admitting;
    var n := cap - 1;
    var es1, w1 := FillPath(n, cap, k);
    var es2, w2 := AdmitMany(w1, n, k, cap, k);
    FilledEntered(w2, n, k);
    var es3, w3 := RegisterMany(w2, n, k, cap, k);
    PathAppend(INIT, es1, w1, es2, cap, w2);
    PathAppend(INIT, es1 + es2, w2, es3, cap, w3);
    ByFirstAppend(es1, es2, k);
    ByFirstAppend(es1 + es2, es3, k);
    es := es1 + es2 + es3;
    ws := PathIsRun(INIT, es, cap, w3);
    forall j | 0 <= j < |ws| ensures |Admitting(ws[j])| <= k {
      FewActors(ws, es, cap, k, j);
      FewAdmitting(ws[j], k);
    }
    AllEntered(w3, n, k);
  }

  lemma FewAdmitting(w: World, k: nat)
    requires forall a :: a in w.actors ==> a < k
    ensures |Admitting(w)| <= k
  {
    FirstNumbers(Admitting(w), k);
  }

  lemma AllEntered(w: World, n: nat, k: nat)
    requires Entered(w, n, k, k)
    ensures |w.s.reg.turns| == n + k
  {
    hide Name, Names, PcOf;
    NamesGrow(n + k);
    assert |w.s.reg.turns| == |w.s.reg.turns.Keys|;
  }
}
