/**
 How long the MCP client of a conversation lives (internal/askorchicon/ask_mcp.go), exactly: which call on it leaves it
 alone, which replaces it, and by what. And that a call which no other interrupts does in its lock sections what
 module McpClients says of it as one operation.
 */
module McpLifetime {
  import opened Common
  import opened McpClients
  import O = McpOverlap

  /** A client can be had for what was resolved, or none is needed. */
  predicate CanStart(r: Resolution) {
    r.Resolved? && !r.missing && (r.servers == [] || r.startable)
  }

  function EntryOf(s: State, conv: string): Option<Entry> {
    if conv in s.entries then Some(s.entries[conv]) else None
  }

  /** The entry that a start leaves behind. */
  predicate MadeFor(s: State, e: Entry, projectID: string, r: Resolution)
    requires r.Resolved?
  {
    && e.projectID == projectID && e.fingerprint == Fingerprint(projectID, r.servers)
    && e.client == if r.servers == [] then None else Some(s.next)
  }

  lemma StartedIs(s: State, projectID: string, r: Resolution)
    ensures var (s', e) := Started(s, projectID, r);
            && (e.Some? <==> CanStart(r))
            && (e.Some? ==> MadeFor(s, e.value, projectID, r))
            && s'.entries == s.entries && s'.closed == s.closed
            && s'.open == (if e.Some? && e.value.client.Some? then s.open + {s.next} else s.open)
            && (e.None? ==> s' == s)
  {
    hide Fingerprint;
  }

  /** A call for a conversation whose project has not changed is served by the entry that is there, whatever resolves,
      and touches nothing. Any other closes the client that is there, if one is, and is served by what can be started
      now, under the fingerprint of that, or fails if nothing can. */
  lemma LookUpIs(s: State, conv: string, projectID: string, r: Resolution)
    requires conv != ""
    ensures var (s', e) := LookedUp(s, conv, projectID, r);
            var was := EntryOf(s, conv);
            if was.Some? && was.value.projectID == projectID then s' == s && e == was
            else
              && EntryOf(s', conv) == e
              && (e.Some? <==> CanStart(r))
              && (e.Some? ==> MadeFor(s, e.value, projectID, r))
              && s'.closed == s.closed + (if was.Some? && was.value.client.Some?
                                          then multiset{was.value.client.value} else multiset{})
    ensures forall k :: k != conv ==> EntryOf(LookedUp(s, conv, projectID, r).0, k) == EntryOf(s, k)
  {
    StartedIs(ClosedFor(s, conv), projectID, r);
    hide Started, Fingerprint;
  }

  /** A call without a conversation is served by a client of its own, which nobody keeps; it changes no entry. */
  lemma UnnamedIs(s: State, projectID: string, r: Resolution)
    ensures var (s', e) := LookedUp(s, "", projectID, r);
            && s'.entries == s.entries && s'.closed == s.closed
            && (e.Some? <==> CanStart(r)) && (e.Some? ==> MadeFor(s, e.value, projectID, r))
    ensures Refreshed(s, "", projectID, r) == ClosedFor(s, "") == s
  {
    StartedIs(s, projectID, r);
    hide Started, Fingerprint;
  }

  /** What leaves the conversation's entry as it is: a call from the same project; a refresh that resolves the same, or
      nothing that can be started; and whatever is about another conversation. */
  predicate Keeps(op: Op, conv: string, e: Entry) {
    match op
    case LookUp(c, p, _) => c != conv || p == e.projectID
    case Refresh(c, p, r) => c != conv || !CanStart(r) || e.fingerprint == Fingerprint(p, r.servers)
    case Close(c) => c != conv
    case CloseEverything => false
  }

  lemma KeepsIff(s: State, op: Op, conv: string)
    requires conv != "" && conv in s.entries
    ensures EntryOf(Apply(s, op), conv) == EntryOf(s, conv) <==> Keeps(op, conv, s.entries[conv])
  {
    match op
    case LookUp(c, p, r) =>
      if c != "" {
        LookUpIs(s, c, p, r);
      } else {
        StartedIs(s, p, r);
      }
      hide LookedUp, Fingerprint, Started;
    case Refresh(c, p, r) =>
      StartedIs(s, p, r);
      hide Fingerprint, Started;
    case _ =>
  }

  /** In every run of operations the entry of a conversation, and with it its running client, lasts exactly as long as
      no call comes from another project, no refresh finds another fingerprint that can be started, and nothing closes
      it. */
  lemma {:induction false} ClientLastsIff(ops: seq<Op>, i: nat, conv: string)
    requires Named(ops) && i <= |ops| && conv != "" && conv in Run(ops[..i]).entries
    ensures var e := Run(ops[..i]).entries[conv];
            (forall j :: i <= j <= |ops| ==> EntryOf(Run(ops[..j]), conv) == Some(e))
            <==> (forall k :: i <= k < |ops| ==> Keeps(ops[k], conv, e))
    ensures forall j :: i <= j <= |ops| && conv in Run(ops[..j]).entries ==>
              var c := Run(ops[..j]).entries[conv].client; c.Some? ==> c.value in Run(ops[..j]).open
    decreases |ops| - i
  {
    hide Apply, Keeps, Run;
    var e := Run(ops[..i]).entries[conv];
    forall j | i <= j <= |ops| && conv in Run(ops[..j]).entries
      ensures var c := Run(ops[..j]).entries[conv].client; c.Some? ==> c.value in Run(ops[..j]).open
    {
      RunInv(ops[..j]);
      OpenAreClients(Run(ops[..j]));
    }
    if i < |ops| {
      RunSnoc(ops, i);
      KeepsIff(Run(ops[..i]), ops[i], conv);
      if Keeps(ops[i], conv, e) {
        ClientLastsIff(ops, i + 1, conv);
      } else {
        assert EntryOf(Run(ops[..i + 1]), conv) != Some(e);
      }
    }
  }

  lemma RunSnoc(ops: seq<Op>, i: nat)
    requires i < |ops|
    ensures Run(ops[..i + 1]) == Apply(Run(ops[..i]), ops[i])
  {
    hide Apply;
    assert ops[..i + 1][..i] == ops[..i];
  }

  // ---------------------------------------------------------------- sections and operations

  /** These events, of one call, lead from w to w'. */
  ghost predicate Leads(w: O.World, a: nat, es: seq<O.Event>, w': O.World)
    decreases |es|
  {
    if es == [] then w == w'
    else es[0].a == a && O.Enabled(w, es[0]) && Leads(O.Step(w, es[0]), a, es[1..], w')
  }

  function At(w: O.World, s: State, a: nat, pc: O.Pc): O.World {
    O.World(s, w.actors[a := pc])
  }

  lemma LeadsOn(w: O.World, a: nat, e: O.Event, w1: O.World, es: seq<O.Event>, w2: O.World)
    requires e.a == a && O.Enabled(w, e) && O.Step(w, e) == w1 && Leads(w1, a, es, w2)
    ensures Leads(w, a, [e] + es, w2)
  {
    hide O.Enabled, O.Step;
    assert ([e] + es)[1..] == es;
  }

  /** From where a call starts a client to where it has stored it. */
  lemma StartAlone(w: O.World, s: State, a: nat, conv: string, projectID: string, r: Resolution)
    returns (es: seq<O.Event>)
    ensures var (s1, e) := Started(s, projectID, r);
            Leads(At(w, s, a, O.UseStart(conv, projectID)), a, es,
                  At(w, if e.Some? then s1.(entries := s1.entries[conv := e.value]) else s1, a, O.Idle))
  {
    var (s1, e) := Started(s, projectID, r);
    hide Started;
    var w0 := At(w, s, a, O.UseStart(conv, projectID));
    if e.None? {
      es := [O.Start(a, r)];
      assert O.Step(w0, es[0]) == At(w, s1, a, O.Idle);
      assert es[1..] == [];
    } else {
      var w1 := At(w, s1, a, O.Store(conv, e.value));
      var w2 := At(w, s1.(entries := s1.entries[conv := e.value]), a, O.Idle);
      assert O.Step(w0, O.Start(a, r)) == w1;
      assert O.Step(w1, O.StoreMade(a)) == w2;
      assert Leads(w2, a, [], w2);
      LeadsOn(w1, a, O.StoreMade(a), w2, [], w2);
      LeadsOn(w0, a, O.Start(a, r), w1, [O.StoreMade(a)] + [], w2);
      es := [O.Start(a, r)] + ([O.StoreMade(a)] + []);
    }
  }

  /** A use that nobody interrupts is a look-up. */
  lemma UseAlone(w: O.World, a: nat, conv: string, projectID: string, r: Resolution) returns (es: seq<O.Event>)
    requires O.PcOf(w, a).Idle? && conv != ""
    ensures Leads(w, a, es, At(w, LookedUp(w.s, conv, projectID, r).0, a, O.Idle))
  {
    var s := w.s;
    var begin := O.BeginUse(a, conv, projectID);
    var w' := At(w, LookedUp(s, conv, projectID, r).0, a, O.Idle);
    if conv in s.entries && s.entries[conv].projectID == projectID {
      es := [begin];
      assert O.Step(w, begin) == w' && es[1..] == [];
    } else if conv !in s.entries {
      assert ClosedFor(s, conv) == s by {
        assert s.entries - {conv} == s.entries;
      }
      es := StartAlone(w, s, a, conv, projectID, r);
      assert O.Step(w, begin) == At(w, s, a, O.UseStart(conv, projectID));
      LeadsOn(w, a, begin, At(w, s, a, O.UseStart(conv, projectID)), es, w');
      es := [begin] + es;
    } else {
      var s1 := s.(entries := s.entries - {conv});
      var w1 := At(w, s, a, O.UseTake(conv, projectID));
      var w2 := At(w, s1, a, O.UseClosing(conv, projectID, ClientOf(s, conv)));
      var w3 := At(w, ClosedFor(s, conv), a, O.UseStart(conv, projectID));
      es := StartAlone(w, ClosedFor(s, conv), a, conv, projectID, r);
      assert O.Step(w, begin) == w1 && O.Step(w1, O.Take(a)) == w2 && O.Step(w2, O.CloseOld(a)) == w3;
      assert Leads(w3, a, es, w');
      hide O.Step, LookedUp, Leads;
      LeadsOn(w2, a, O.CloseOld(a), w3, es, w');
      LeadsOn(w1, a, O.Take(a), w2, [O.CloseOld(a)] + es, w');
      LeadsOn(w, a, begin, w1, [O.Take(a)] + ([O.CloseOld(a)] + es), w');
      es := [begin] + ([O.Take(a)] + ([O.CloseOld(a)] + es));
    }
  }

  /** A refresh that nobody interrupts. */
  lemma RefreshAlone(w: O.World, a: nat, conv: string, projectID: string, r: Resolution) returns (es: seq<O.Event>)
    requires O.PcOf(w, a).Idle? && conv != ""
    ensures Leads(w, a, es, At(w, Refreshed(w.s, conv, projectID, r), a, O.Idle))
  {
    var s := w.s;
    var begin := O.BeginRefresh(a, conv, projectID, r);
    var w' := At(w, Refreshed(s, conv, projectID, r), a, O.Idle);
    if r.Unresolvable? || (conv in s.entries && s.entries[conv].fingerprint == Fingerprint(projectID, r.servers)) {
      es := [begin];
      assert O.Step(w, begin) == w' && es[1..] == [];
    } else {
      var (s1, e) := Started(s, projectID, r);
      var c := ClientOf(s, conv);
      var w1 := At(w, s, a, O.RefreshStart(conv, projectID, r, c));
      assert O.Step(w, begin) == w1;
      if e.None? {
        assert O.Step(w1, O.Start(a, r)) == w' && Leads(w', a, [], w');
        hide O.Step, Refreshed, Leads, Started;
        LeadsOn(w1, a, O.Start(a, r), w', [], w');
        LeadsOn(w, a, begin, w1, [O.Start(a, r)] + [], w');
        es := [begin] + ([O.Start(a, r)] + []);
      } else {
        es := SwapAlone(w, a, conv, projectID, r);
        hide O.Step, Refreshed, Leads, Started;
        LeadsOn(w, a, begin, w1, es, w');
        es := [begin] + es;
      }
    }
  }

  /** A refresh that starts a client: from there to where it has stored it. */
  lemma SwapAlone(w: O.World, a: nat, conv: string, projectID: string, r: Resolution) returns (es: seq<O.Event>)
    requires Started(w.s, projectID, r).1.Some?
    ensures var (s1, e) := Started(w.s, projectID, r);
            var c := ClientOf(w.s, conv);
            Leads(At(w, w.s, a, O.RefreshStart(conv, projectID, r, c)), a, es,
                  At(w, Closed(s1, c).(entries := s1.entries[conv := e.value]), a, O.Idle))
  {
    var (s1, e) := Started(w.s, projectID, r);
    hide Started;
    var c := ClientOf(w.s, conv);
    var w1 := At(w, w.s, a, O.RefreshStart(conv, projectID, r, c));
    var w2 := At(w, s1, a, O.RefreshClose(conv, e.value, c));
    var w3 := At(w, Closed(s1, c), a, O.Swap(conv, e.value, c));
    var w' := At(w, Closed(s1, c).(entries := s1.entries[conv := e.value]), a, O.Idle);
    assert O.Step(w1, O.Start(a, r)) == w2 && O.Step(w2, O.CloseOld(a)) == w3;
    assert O.Step(w3, O.StoreMade(a)) == w' && Leads(w', a, [], w');
    hide O.Step, Leads;
    LeadsOn(w3, a, O.StoreMade(a), w', [], w');
    LeadsOn(w2, a, O.CloseOld(a), w3, [O.StoreMade(a)] + [], w');
    LeadsOn(w1, a, O.Start(a, r), w2, [O.CloseOld(a)] + ([O.StoreMade(a)] + []), w');
    es := [O.Start(a, r)] + ([O.CloseOld(a)] + ([O.StoreMade(a)] + []));
  }

  /** And a closing. */
  lemma CloseAlone(w: O.World, a: nat, conv: string) returns (es: seq<O.Event>)
    requires O.PcOf(w, a).Idle? && conv != ""
    ensures Leads(w, a, es, At(w, ClosedFor(w.s, conv), a, O.Idle))
  {
    var s := w.s;
    var w1 := At(w, s.(entries := s.entries - {conv}), a, O.Closing(conv, ClientOf(s, conv)));
    var w' := At(w, ClosedFor(s, conv), a, O.Idle);
    assert O.Step(w, O.BeginClose(a, conv)) == w1 && O.Step(w1, O.CloseOld(a)) == w' && Leads(w', a, [], w');
    LeadsOn(w1, a, O.CloseOld(a), w', [], w');
    LeadsOn(w, a, O.BeginClose(a, conv), w1, [O.CloseOld(a)] + [], w');
    es := [O.BeginClose(a, conv)] + ([O.CloseOld(a)] + []);
  }
}
