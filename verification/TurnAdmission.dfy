/**
 The admission bound on concurrent Ask turns (internal/askorchicon/chat.go, startConversationTurnOpts): the
 cap is read in one critical section and the turn is registered in a later one, so the bound that holds is
 the cap plus the dispatchers that can be in between.
 */
module TurnAdmission {
  import opened Common
  import opened TurnRegistry
  import opened TurnProtocol

  /** Dispatchers that found room, or skipped the check, and have not registered yet. */
  function Admitted(w: World): set<nat> {
    set a | a in w.actors && w.actors[a].DispatchRegister?
  }

  /** Dispatchers between reading whether the conversation is busy and registering. */
  function Admitting(w: World): set<nat> {
    set a | a in w.actors && (w.actors[a].DispatchLen? || w.actors[a].DispatchRegister?)
  }

  /** The conversations those dispatchers are about to register. */
  function Targets(w: World): set<string> {
    set a | a in w.actors && w.actors[a].DispatchRegister? :: w.actors[a].conv
  }

  /** Registered conversations together with the ones about to be. */
  function Load(w: World): set<string> {
    w.s.reg.turns.Keys + Targets(w)
  }

  lemma {:induction false} ImageSize(actors: map<nat, Pc>, s: set<nat>)
    requires forall a :: a in s ==> a in actors && actors[a].DispatchRegister?
    ensures |set a | a in s :: actors[a].conv| <= |s|
    decreases |s|
  {
    if s != {} {
      var x :| x in s;
      ImageSize(actors, s - {x});
      assert (set a | a in s :: actors[a].conv) == (set a | a in s - {x} :: actors[a].conv) + {actors[x].conv};
    } else {
      assert (set a | a in s :: actors[a].conv) == {};
    }
  }

  lemma TargetsBounded(w: World)
    ensures |Targets(w)| <= |Admitting(w)|
  {
    ImageSize(w.actors, Admitted(w));
    assert Targets(w) == set a | a in Admitted(w) :: w.actors[a].conv;
    SubsetSize(Admitted(w), Admitting(w));
  }

  lemma TargetStep(w: World, e: Event, cap: nat, a: nat)
    requires Enabled(w, e) && PcOf(Apply(w, e, cap), a).DispatchRegister?
    ensures var c := PcOf(Apply(w, e, cap), a).conv;
            || PcOf(w, a) == DispatchRegister(c)
            || (e.CheckRunning? && c in w.s.reg.turns)
            || (e.CheckCap? && |w.s.reg.turns| < cap)
  {
  }

  lemma TurnStep(w: World, e: Event, cap: nat, c: string)
    requires Enabled(w, e) && c in Apply(w, e, cap).s.reg.turns
    ensures c in w.s.reg.turns || (e.RegisterTurn? && PcOf(w, e.a) == DispatchRegister(c))
  {
  }

  lemma TargetOf(w: World, a: nat)
    requires PcOf(w, a).DispatchRegister?
    ensures PcOf(w, a).conv in Targets(w)
  {
    assert a in w.actors && w.actors[a].DispatchRegister?;
  }

  /** Only a passed cap check lets the load grow. */
  lemma LoadGrowsOnlyAtCapCheck(w: World, e: Event, cap: nat, c: string)
    requires Enabled(w, e)
    requires !(e.CheckCap? && |w.s.reg.turns| < cap)
    ensures c in Load(Apply(w, e, cap)) ==> c in Load(w)
  {
    hide Apply;
    var w' := Apply(w, e, cap);
    if c in w'.s.reg.turns {
      TurnStep(w, e, cap, c);
      if c !in w.s.reg.turns {
        TargetOf(w, e.a);
      }
    } else if c in Targets(w') {
      var a :| a in w'.actors && w'.actors[a].DispatchRegister? && w'.actors[a].conv == c;
      TargetStep(w, e, cap, a);
      if c !in w.s.reg.turns {
        TargetOf(w, a);
      }
    }
  }

  lemma LoadStep(w: World, e: Event, cap: nat, k: nat)
    requires Enabled(w, e) && cap >= 1
    requires |Load(w)| <= cap - 1 + k && |Admitting(Apply(w, e, cap))| <= k
    ensures |Load(Apply(w, e, cap))| <= cap - 1 + k
  {
    var w' := Apply(w, e, cap);
    if e.CheckCap? && |w.s.reg.turns| < cap {
      assert w'.s.reg == w.s.reg;
      TargetsBounded(w');
      hide Apply;
      assert |Load(w')| <= |w'.s.reg.turns.Keys| + |Targets(w')|;
    } else {
      hide Apply;
      forall c | c in Load(w') ensures c in Load(w) {
        LoadGrowsOnlyAtCapCheck(w, e, cap, c);
      }
      SubsetSize(Load(w'), Load(w));
    }
  }

  /** With at most k dispatchers between check and registration at any time, the registry never holds more than
      cap - 1 + k turns, through every supersede, stop, sweep and finalize, and also when the check was skipped
      because the conversation was busy at the time. */
  lemma {:induction false} AdmissionBound(ws: seq<World>, es: seq<Event>, cap: nat, k: nat, i: nat)
    requires IsRun(ws, es, cap) && i < |ws| && cap >= 1
    requires forall j :: 0 <= j < |ws| ==> |Admitting(ws[j])| <= k
    ensures |Load(ws[i])| <= cap - 1 + k
    ensures |ws[i].s.reg.turns| <= cap - 1 + k
  {
    hide Apply;
    if i > 0 {
      AdmissionBound(ws, es, cap, k, i - 1);
      assert ws[i] == Apply(ws[i - 1], es[i - 1], cap) && |Admitting(ws[i])| <= k;
      LoadStep(ws[i - 1], es[i - 1], cap, k);
    } else {
      assert Load(ws[0]) == {};
    }
    SubsetSize(ws[i].s.reg.turns.Keys, Load(ws[i]));
  }

  /** Serialized dispatch keeps the cap itself. */
  lemma SerializedDispatchKeepsCap(ws: seq<World>, es: seq<Event>, cap: nat, i: nat)
    requires IsRun(ws, es, cap) && i < |ws| && cap >= 1
    requires forall j :: 0 <= j < |ws| ==> |Admitting(ws[j])| <= 1
    ensures |ws[i].s.reg.turns| <= cap
  {
    AdmissionBound(ws, es, cap, 1, i);
  }
}
