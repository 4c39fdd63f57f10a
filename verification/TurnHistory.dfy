/**
 What the registry of ask turns says about a turn (internal/askorchicon/chat.go), told from what happened: every field
 of an entry is what was registered or reported for that very generation.
 */
module TurnHistory {
  import opened Common
  import opened TurnRegistry
  import opened TurnProtocol

  /** The step registers the turn of this conversation under this token. */
  ghost predicate RegistersAs(w: World, e: Event, conv: string, token: nat) {
    && e.RegisterTurn? && PcOf(w, e.a) == DispatchRegister(conv)
    && conv !in w.s.reg.turns && token == w.s.reg.nextTok + 1
  }

  /** The last activity reported for a turn. */
  function LastActive(es: seq<Event>, token: nat): Option<int> {
    if es == [] then None
    else if es[|es| - 1].Activity? && es[|es| - 1].token == token then Some(es[|es| - 1].now)
    else LastActive(es[..|es| - 1], token)
  }

  /** The entry is the one registered at step k, with what these events reported since. */
  ghost predicate Tells(e: Entry, es: seq<Event>, k: nat)
    requires k < |es| && es[k].RegisterTurn?
  {
    && e.tenant == es[k].tenant && e.assistantMsgId == es[k].msgId && e.started == es[k].started
    && (e.wedged <==> Wedge(e.token) in es)
    && e.lastActivity == match LastActive(es, e.token)
                         case Some(now) => now
                         case None => es[k].active
  }

  /** Reports are made by collectors, for turns that were registered. */
  lemma {:induction false} ReportsAreLate(ws: seq<World>, es: seq<Event>, cap: nat, i: nat, t: nat)
    requires IsRun(ws, es, cap) && i < |ws| && t > ws[i].s.reg.nextTok
    ensures Wedge(t) !in es[..i] && LastActive(es[..i], t) == None
  {
    hide Apply;
    if i > 0 {
      assert es[..i] == es[..i - 1] + [es[i - 1]];
      RunInv(ws, es, cap, i - 1);
      assert TokenOk(ws[i - 1].s, t);
      StepGrows(ws, es, cap, i - 1, t);
      ReportsAreLate(ws, es, cap, i - 1, t);
      assert Enabled(ws[i - 1], es[i - 1]);
    }
  }

  /** How one step changes the entry of a conversation. */
  lemma EntryStep(w: World, e: Event, cap: nat, c: string)
    requires Enabled(w, e) && Inv(w) && c in Apply(w, e, cap).s.reg.turns
    ensures var x := Apply(w, e, cap).s.reg.turns[c];
            if RegistersAs(w, e, c, x.token) then x == Entry(x.token, e.started, e.tenant, e.msgId, false, e.active)
            else
              && c in w.s.reg.turns
              && x == (var was := w.s.reg.turns[c];
                       if e == Wedge(was.token) then was.(wedged := true)
                       else if e.Activity? && e.token == was.token then was.(lastActivity := e.now)
                       else was)
  {
    hide PcOk, OwnerOk;
    var s := w.s;
    if e.Wedge? || e.Activity? {
      assert EntryOk(s, c) && TokenOk(s, e.token);
    }
  }

  lemma TellsStep(x: Entry, y: Entry, es: seq<Event>, e: Event, k: nat)
    requires k < |es| && es[k].RegisterTurn? && Tells(x, es, k)
    requires y == if e == Wedge(x.token) then x.(wedged := true)
                  else if e.Activity? && e.token == x.token then x.(lastActivity := e.now) else x
    ensures Tells(y, es + [e], k)
  {
    assert (es + [e])[..|es|] == es;
  }

  lemma TellsFirst(es: seq<Event>, e: Event, t: nat)
    requires e.RegisterTurn? && Wedge(t) !in es && LastActive(es, t) == None
    ensures Tells(Entry(t, e.started, e.tenant, e.msgId, false, e.active), es + [e], |es|)
  {
    assert (es + [e])[..|es|] == es;
  }

  /** In every run, whatever the registry says of the turn of a conversation is what was said at the registration of
      that generation and what its own collector reported since: no report of another generation shows, and none of
      its own is lost. */
  lemma {:induction false} EntryIsReported(ws: seq<World>, es: seq<Event>, cap: nat, i: nat, c: string) returns (k: nat)
    requires IsRun(ws, es, cap) && i < |ws| && c in ws[i].s.reg.turns
    ensures k < i && RegistersAs(ws[k], es[k], c, ws[i].s.reg.turns[c].token)
    ensures Tells(ws[i].s.reg.turns[c], es[..i], k)
  {
    hide Apply, Enabled, Tells;
    assert i > 0;
    var (w, e) := (ws[i - 1], es[i - 1]);
    RunInv(ws, es, cap, i - 1);
    EntryStep(w, e, cap, c);
    assert es[..i] == es[..i - 1] + [e];
    var x := ws[i].s.reg.turns[c];
    if RegistersAs(w, e, c, x.token) {
      k := i - 1;
      ReportsAreLate(ws, es, cap, i - 1, x.token);
      TellsFirst(es[..i - 1], e, x.token);
    } else {
      k := EntryIsReported(ws, es, cap, i - 1, c);
      TellsStep(w.s.reg.turns[c], x, es[..i - 1], e, k);
    }
  }

  /** An interjection looks at the turn it is going to supersede, at moment i, and cancels it at moment j. It dispatches
      onto the session that the turn has wedged on exactly if the wedge was reported between the two. */
  lemma WedgeIsMissedIff(ws: seq<World>, es: seq<Event>, cap: nat, i: nat, j: nat, c: string, t: nat)
    requires IsRun(ws, es, cap) && i <= j < |ws| && Holds(ws[i].s.reg, c, t) && Holds(ws[j].s.reg, c, t)
    ensures (!ws[i].s.reg.turns[c].wedged && ws[j].s.reg.turns[c].wedged) <==>
            Wedge(t) !in es[..i] && Wedge(t) in es[i..j]
  {
    var k := EntryIsReported(ws, es, cap, i, c);
    var l := EntryIsReported(ws, es, cap, j, c);
    hide Apply, Enabled, LastActive;
    assert es[..j] == es[..i] + es[i..j];
  }
}
