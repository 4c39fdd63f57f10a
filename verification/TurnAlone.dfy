/**
 What one dispatch, one interjection or one sweep does when no other goroutine interrupts it (internal/askorchicon/
 chat.go): its sections, one after the other, amount to the operations of the registry.
 */
module TurnAlone {
  import opened TurnRegistry
  import opened TurnProtocol
  import opened TurnWitnesses

  function At(w: World, s: Shared, a: nat, pc: Pc): World {
    World(s, w.actors[a := pc], w.hubs)
  }

  lemma AtAgain(w: World, s: Shared, a: nat, pc: Pc, s': Shared, pc': Pc)
    ensures At(At(w, s, a, pc), s', a, pc') == At(w, s', a, pc')
  {
  }

  lemma OneStep(w: World, e: Event, cap: nat, w': World)
    requires Enabled(w, e) && Apply(w, e, cap) == w'
    ensures Path(w, [e], cap, w')
  {
    assert [e][1..] == [];
  }

  // ---------------------------------------------------------------- dispatch

  /** The registry after the running turn, if there is one, was superseded. */
  function Freed(r: Registry, conv: string): Registry {
    var (r1, token, found) := Cancelled(r, conv, Superseded);
    if found then Removed(r1, conv, token) else r
  }

  lemma SupersedeSteps(w: World, a: nat, conv: string, cap: nat) returns (es: seq<Event>)
    requires PcOf(w, a) == DispatchCancel(conv)
    ensures Path(w, es, cap, At(w, w.s.(reg := Freed(w.s.reg, conv)), a, DispatchGet(conv)))
  {
    var (r1, token, found) := Cancelled(w.s.reg, conv, Superseded);
    var w' := At(w, w.s.(reg := Freed(w.s.reg, conv)), a, DispatchGet(conv));
    if found {
      var w1 := At(w, w.s.(reg := r1), a, DispatchRemove(conv, token));
      assert Apply(w, SupersedeCancel(a), cap) == w1;
      assert Apply(w1, SupersedeRemove(a), cap) == w';
      OneStep(w1, SupersedeRemove(a), cap, w');
      hide Apply, Enabled, Path;
      PathStep(w, SupersedeCancel(a), w1, [SupersedeRemove(a)], cap, w');
      es := [SupersedeCancel(a)] + [SupersedeRemove(a)];
    } else {
      es := [SupersedeCancel(a)];
      OneStep(w, SupersedeCancel(a), cap, w');
    }
  }

  /** From its look at the registry on, a dispatch is refused because the conversation is busy, whatever the cap, or
      because the cap is reached, or it registers its turn. */
  lemma AdmitSteps(w: World, a: nat, conv: string, tenant: string, msgId: string, now: int, cap: nat)
    returns (es: seq<Event>)
    requires PcOf(w, a) == DispatchGet(conv)
    ensures var (r, token, ok) := Registered(w.s.reg, conv, tenant, msgId, now, now);
            Path(w, es, cap,
                 if !ok || |w.s.reg.turns| >= cap then At(w, w.s, a, Idle)
                 else At(w, Shared(r, w.s.gens[token := Gen(conv, a, Starting)], w.s.evicted), a,
                         DispatchStart(conv, token)))
    ensures conv in w.s.reg.turns ==> CheckCap(a) !in es
  {
    var (r, token, ok) := Registered(w.s.reg, conv, tenant, msgId, now, now);
    var register := RegisterTurn(a, tenant, msgId, now, now);
    if !ok {
      var w1 := At(w, w.s, a, DispatchRegister(conv));
      assert Apply(w, CheckRunning(a), cap) == w1 && Apply(w1, register, cap) == At(w, w.s, a, Idle);
      OneStep(w1, register, cap, At(w, w.s, a, Idle));
      PathStep(w, CheckRunning(a), w1, [register], cap, At(w, w.s, a, Idle));
      es := [CheckRunning(a)] + [register];
    } else if |w.s.reg.turns| >= cap {
      var w1 := At(w, w.s, a, DispatchLen(conv));
      assert Apply(w, CheckRunning(a), cap) == w1 && Apply(w1, CheckCap(a), cap) == At(w, w.s, a, Idle);
      OneStep(w1, CheckCap(a), cap, At(w, w.s, a, Idle));
      PathStep(w, CheckRunning(a), w1, [CheckCap(a)], cap, At(w, w.s, a, Idle));
      es := [CheckRunning(a)] + [CheckCap(a)];
    } else {
      var w1 := At(w, w.s, a, DispatchLen(conv));
      var w2 := At(w, w.s, a, DispatchRegister(conv));
      var s3 := Shared(r, w.s.gens[token := Gen(conv, a, Starting)], w.s.evicted);
      var w3 := At(w, s3, a, DispatchStart(conv, token));
      assert Apply(w, CheckRunning(a), cap) == w1 && Apply(w1, CheckCap(a), cap) == w2;
      assert Apply(w2, register, cap) == w3;
      OneStep(w2, register, cap, w3);
      hide Apply, Path;
      PathStep(w1, CheckCap(a), w2, [register], cap, w3);
      PathStep(w, CheckRunning(a), w1, [CheckCap(a)] + [register], cap, w3);
      es := [CheckRunning(a)] + ([CheckCap(a)] + [register]);
    }
  }

  /** A dispatch that nobody interrupts: an interjection first supersedes the turn that runs. */
  lemma DispatchAlone(w: World, a: nat, conv: string, supersede: bool, tenant: string, msgId: string, now: int,
                      cap: nat)
    returns (es: seq<Event>)
    requires PcOf(w, a).Idle?
    ensures var freed := if supersede then Freed(w.s.reg, conv) else w.s.reg;
            var (r, token, ok) := Registered(freed, conv, tenant, msgId, now, now);
            Path(w, es, cap,
                 if !ok || |freed.turns| >= cap then At(w, w.s.(reg := freed), a, Idle)
                 else At(w, Shared(r, w.s.gens[token := Gen(conv, a, Starting)], w.s.evicted), a,
                         DispatchStart(conv, token)))
  {
    var freed := if supersede then Freed(w.s.reg, conv) else w.s.reg;
    var begin := BeginDispatch(a, conv, supersede);
    var w1 := At(w, w.s, a, if supersede then DispatchCancel(conv) else DispatchGet(conv));
    var w2 := At(w, w.s.(reg := freed), a, DispatchGet(conv));
    assert Apply(w, begin, cap) == w1 && Enabled(w, begin);
    AtAgain(w, w.s, a, PcOf(w1, a), w2.s, DispatchGet(conv));
    var fs := [];
    if supersede {
      fs := SupersedeSteps(w1, a, conv, cap);
    }
    assert Path(w1, fs, cap, w2);
    var gs := AdmitSteps(w2, a, conv, tenant, msgId, now, cap);
    var (r, token, ok) := Registered(freed, conv, tenant, msgId, now, now);
    var pc := if !ok || |freed.turns| >= cap then Idle else DispatchStart(conv, token);
    var s3 := if pc.Idle? then w2.s else Shared(r, w.s.gens[token := Gen(conv, a, Starting)], w.s.evicted);
    var w3 := At(w, s3, a, pc);
    AtAgain(w, w2.s, a, DispatchGet(conv), s3, pc);
    assert Path(w2, gs, cap, w3);
    hide Apply, Enabled, Path, Registered, Freed;
    PathAppend(w1, fs, w2, gs, cap, w3);
    PathStep(w, begin, w1, fs + gs, cap, w3);
    es := [begin] + (fs + gs);
  }

  /** So an interjection over a running turn, uninterrupted, is refused exactly if the registry holds more turns than
      the cap allows; and then the running turn is gone all the same. */
  lemma InterjectionRefusedIff(w: World, a: nat, conv: string, tenant: string, msgId: string, now: int, cap: nat)
    returns (es: seq<Event>, w': World)
    requires PcOf(w, a).Idle? && conv in w.s.reg.turns
    ensures Path(w, es, cap, w')
    ensures PcOf(w', a).Idle? || PcOf(w', a) == DispatchStart(conv, w.s.reg.nextTok + 1)
    ensures PcOf(w', a).Idle? <==> |w.s.reg.turns| > cap
    ensures var t := w.s.reg.turns[conv].token;
            t in w'.s.reg.causes && (t !in w.s.reg.causes ==> w'.s.reg.causes[t] == Superseded)
    ensures if PcOf(w', a).Idle? then w'.s.reg.turns == w.s.reg.turns - {conv}
            else w'.s.reg.turns == w.s.reg.turns[conv := Entry(w.s.reg.nextTok + 1, now, tenant, msgId, false, now)]
  {
    FreedIs(w.s.reg, conv);
    var freed := Freed(w.s.reg, conv);
    es := DispatchAlone(w, a, conv, true, tenant, msgId, now, cap);
    hide Path, Freed;
    var (r, token, _) := Registered(freed, conv, tenant, msgId, now, now);
    var pc := if |freed.turns| >= cap then Idle else DispatchStart(conv, token);
    w' := At(w, if pc.Idle? then w.s.(reg := freed)
                else Shared(r, w.s.gens[token := Gen(conv, a, Starting)], w.s.evicted), a, pc);
    assert (w.s.reg.turns - {conv})[conv := Entry(token, now, tenant, msgId, false, now)] ==
           w.s.reg.turns[conv := Entry(token, now, tenant, msgId, false, now)];
  }

  lemma FreedIs(r: Registry, conv: string)
    requires conv in r.turns
    ensures var (f, t) := (Freed(r, conv), r.turns[conv].token);
            && f.turns == r.turns - {conv} && |f.turns| == |r.turns| - 1 && f.nextTok == r.nextTok
            && t in f.causes && (t !in r.causes ==> f.causes[t] == Superseded)
  {
    var f := Freed(r, conv);
    assert f.turns.Keys == r.turns.Keys - {conv} && |f.turns| == |f.turns.Keys| && |r.turns| == |r.turns.Keys|;
  }

  // ---------------------------------------------------------------- sweeps

  function Cands(todo: seq<Scanned>): (cands: seq<Candidate>)
    ensures |cands| == |todo| && forall i :: 0 <= i < |cands| ==> cands[i] == todo[i].cand
  {
    seq(|todo|, i requires 0 <= i < |todo| => todo[i].cand)
  }

  function Evictions(scs: seq<Scanned>): (es: seq<Eviction>)
    ensures |es| == |scs|
    ensures forall i :: 0 <= i < |es| ==> es[i] == Eviction(scs[i].cand.conv, scs[i].cand.tenant)
  {
    seq(|scs|, i requires 0 <= i < |scs| => Eviction(scs[i].cand.conv, scs[i].cand.tenant))
  }

  /** From where it goes through these candidates, the sweep does what the registry's does, and logs what that
      reports. */
  predicate Sweeps(w: World, s: Shared, a: nat, todo: seq<Scanned>, parked: string -> bool, cap: nat, es: seq<Event>,
                   out: seq<Scanned>) {
    var (r, evicted) := Swept(s.reg, Cands(todo), parked);
    && Path(At(w, s, a, AfterSweepStep(todo)), es, cap, At(w, Shared(r, s.gens, s.evicted + out), a, Idle))
    && Evictions(out) == evicted
  }

  lemma SweepsParked(w: World, s: Shared, a: nat, todo: seq<Scanned>, parked: string -> bool, cap: nat,
                     es: seq<Event>, out: seq<Scanned>)
    requires todo != [] && parked(todo[0].cand.conv) && Sweeps(w, s, a, todo[1..], parked, cap, es, out)
    ensures Sweeps(w, s, a, todo, parked, cap, [AskParked(a, true)] + es, out)
  {
    Spared(w, s, a, todo, cap);
    SweptSpared(s.reg, todo, parked);
    hide Apply, Enabled, Path, Swept, At, Evictions, Cands;
    var w2 := At(w, Shared(Swept(s.reg, Cands(todo), parked).0, s.gens, s.evicted + out), a, Idle);
    PathStep(At(w, s, a, SweepAsk(todo)), AskParked(a, true), At(w, s, a, AfterSweepStep(todo[1..])), es, cap, w2);
  }

  lemma SweepsUnparked(w: World, s: Shared, a: nat, todo: seq<Scanned>, parked: string -> bool, cap: nat,
                       es: seq<Event>, more: seq<Scanned>)
    requires todo != [] && !parked(todo[0].cand.conv)
    requires Sweeps(w, Do(s, EvictTurn(todo[0])), a, todo[1..], parked, cap, es, more)
    ensures var cd := todo[0].cand;
            var out := if Holds(s.reg, cd.conv, cd.token) then [todo[0]] + more else more;
            Sweeps(w, s, a, todo, parked, cap, [AskParked(a, false), EvictNext(a)] + es, out)
  {
    EvictionSteps(w, s, a, todo, cap);
    EvictionState(s, todo[0]);
    SweptOne(s.reg, todo, parked);
    EvictionsCons(todo[0], more);
    hide Apply, Enabled, Path, Swept, Do, Evicted, Holds, At, Evictions, Cands;
    var (cd, s2) := (todo[0].cand, Do(s, EvictTurn(todo[0])));
    var out := if Holds(s.reg, cd.conv, cd.token) then [todo[0]] + more else more;
    LogConcat(s.evicted, todo[0], more);
    assert s2.evicted + more == s.evicted + out;
    var r := Swept(s.reg, Cands(todo), parked).0;
    assert r == Swept(s2.reg, Cands(todo[1..]), parked).0;
    var w2 := At(w, Shared(r, s.gens, s.evicted + out), a, Idle);
    PathAppend(At(w, s, a, SweepAsk(todo)), [AskParked(a, false), EvictNext(a)],
               At(w, s2, a, AfterSweepStep(todo[1..])), es, cap, w2);
  }

  /** A sweep that nobody interrupts, from where it goes through its candidates: each one is evicted if it is not
      parked, and is still the one scanned; the evictions are those of the registry's sweep. */
  lemma {:induction false} SweepAlone(w: World, s: Shared, a: nat, todo: seq<Scanned>, parked: string -> bool, cap: nat)
    returns (es: seq<Event>, out: seq<Scanned>)
    ensures Sweeps(w, s, a, todo, parked, cap, es, out)
    decreases |todo|
  {
    if todo == [] {
      es, out := [], [];
      assert s.evicted + [] == s.evicted && Cands([]) == [] && Evictions([]) == [];
    } else {
      hide Sweeps, Do;
      if parked(todo[0].cand.conv) {
        es, out := SweepAlone(w, s, a, todo[1..], parked, cap);
        SweepsParked(w, s, a, todo, parked, cap, es, out);
        es := [AskParked(a, true)] + es;
      } else {
        var more;
        es, more := SweepAlone(w, Do(s, EvictTurn(todo[0])), a, todo[1..], parked, cap);
        SweepsUnparked(w, s, a, todo, parked, cap, es, more);
        var cd := todo[0].cand;
        out := if Holds(s.reg, cd.conv, cd.token) then [todo[0]] + more else more;
        es := [AskParked(a, false), EvictNext(a)] + es;
      }
    }
  }

  lemma LogConcat(log: seq<Scanned>, sc: Scanned, more: seq<Scanned>)
    ensures log + [sc] + more == log + ([sc] + more)
  {
  }

  lemma EvictionsCons(sc: Scanned, more: seq<Scanned>)
    ensures Evictions([sc] + more) == [Eviction(sc.cand.conv, sc.cand.tenant)] + Evictions(more)
  {
  }

  lemma EvictionState(s: Shared, sc: Scanned)
    ensures var s2 := Do(s, EvictTurn(sc));
            && s2.reg == Evicted(s.reg, sc.cand) && s2.gens == s.gens
            && s2.evicted == if Holds(s.reg, sc.cand.conv, sc.cand.token) then s.evicted + [sc] else s.evicted
  {
  }

  lemma SweptSpared(r: Registry, todo: seq<Scanned>, parked: string -> bool)
    requires todo != [] && parked(todo[0].cand.conv)
    ensures Swept(r, Cands(todo), parked) == Swept(r, Cands(todo[1..]), parked)
  {
    assert Cands(todo)[1..] == Cands(todo[1..]) && Cands(todo)[0] == todo[0].cand;
  }

  /** A parked candidate is passed over. */
  lemma Spared(w: World, s: Shared, a: nat, todo: seq<Scanned>, cap: nat)
    requires todo != []
    ensures var w0 := At(w, s, a, SweepAsk(todo));
            && Enabled(w0, AskParked(a, true))
            && Apply(w0, AskParked(a, true), cap) == At(w, s, a, AfterSweepStep(todo[1..]))
  {
    AtAgain(w, s, a, SweepAsk(todo), s, AfterSweepStep(todo[1..]));
  }

  /** Another is evicted. */
  lemma EvictionSteps(w: World, s: Shared, a: nat, todo: seq<Scanned>, cap: nat)
    requires todo != []
    ensures Path(At(w, s, a, SweepAsk(todo)), [AskParked(a, false), EvictNext(a)], cap,
                 At(w, Do(s, EvictTurn(todo[0])), a, AfterSweepStep(todo[1..])))
  {
    var w0 := At(w, s, a, SweepAsk(todo));
    var w1 := At(w, s, a, SweepEvict(todo));
    var w2 := At(w, Do(s, EvictTurn(todo[0])), a, AfterSweepStep(todo[1..]));
    AtAgain(w, s, a, SweepAsk(todo), s, SweepEvict(todo));
    AtAgain(w, s, a, SweepEvict(todo), w2.s, AfterSweepStep(todo[1..]));
    assert Enabled(w0, AskParked(a, false)) && Apply(w0, AskParked(a, false), cap) == w1;
    assert Enabled(w1, EvictNext(a)) && Apply(w1, EvictNext(a), cap) == w2;
    OneStep(w1, EvictNext(a), cap, w2);
    hide Apply, Enabled, Path, Do;
    PathStep(w0, AskParked(a, false), w1, [EvictNext(a)], cap, w2);
    assert [AskParked(a, false)] + [EvictNext(a)] == [AskParked(a, false), EvictNext(a)];
  }

  lemma SweptOne(r: Registry, todo: seq<Scanned>, parked: string -> bool)
    requires todo != [] && !parked(todo[0].cand.conv)
    ensures var (cd, rest) := (todo[0].cand, Cands(todo[1..]));
            var (r', evicted) := Swept(Evicted(r, cd), rest, parked);
            Swept(r, Cands(todo), parked) ==
              (r', if Holds(r, cd.conv, cd.token) then [Eviction(cd.conv, cd.tenant)] + evicted else evicted)
  {
    assert Cands(todo)[1..] == Cands(todo[1..]) && Cands(todo)[0] == todo[0].cand;
  }
}
