/**
 How a whole ask turn ends (collectConversationReply in internal/askorchicon/chat.go): which error it ends with, if any,
 and with what reasoning, told from the results of its attempts alone.
 */
module TurnEnds {
  import opened Common
  import opened Collector
  import A = Attempt
  import L = ToolLedger

  /** The results of the attempts that connected and ended, in order. */
  function Results(p: Progress, rounds: seq<Round>, b: Budgets): seq<A.Result> {
    if rounds == [] then []
    else
      var (before, round) := (rounds[..|rounds| - 1], rounds[|rounds| - 1]);
      var q := Run(p, before, b);
      Results(p, before, b)
      + if q.Going? && ResultOf(q.t, round).Some? then [ResultOf(q.t, round).value] else []
  }

  /** All their reasoning. */
  function Reasons(rs: seq<A.Result>): seq<string> {
    if rs == [] then []
    else
      var r := rs[|rs| - 1];
      Reasons(rs[..|rs| - 1]) + if r.Recreated? then [] else r.reasoning
  }

  /** How many of them lost the bus, and how many met a wedge. */
  function Losses(rs: seq<A.Result>): nat {
    if rs == [] then 0 else Losses(rs[..|rs| - 1]) + if rs[|rs| - 1].Reattach? then 1 else 0
  }

  function Wedges(rs: seq<A.Result>): nat {
    if rs == [] then 0 else Wedges(rs[..|rs| - 1]) + if rs[|rs| - 1].ToolWedge? then 1 else 0
  }

  /** The turn knows that the serve was up. A wedge tells it only if it may recycle the session. */
  predicate KnownLive(rs: seq<A.Result>, b: Budgets) {
    exists k :: 0 <= k < |rs| && (rs[k].Reattach? || rs[k].Recreated? || (rs[k].ToolWedge? && b.reconnects > 0))
  }

  /** What a turn keeps of its attempts while it goes on. */
  predicate Counts(t: Turn, rs: seq<A.Result>, b: Budgets) {
    && t.reattaches == Losses(rs)
    && t.reconnects == (if Wedges(rs) < b.reconnects then Wedges(rs) else b.reconnects)
    && (t.everLive <==> KnownLive(rs, b))
  }

  lemma SnocResults(rs: seq<A.Result>, r: A.Result, b: Budgets)
    ensures Reasons(rs + [r]) == Reasons(rs) + if r.Recreated? then [] else r.reasoning
    ensures Losses(rs + [r]) == Losses(rs) + if r.Reattach? then 1 else 0
    ensures Wedges(rs + [r]) == Wedges(rs) + if r.ToolWedge? then 1 else 0
    ensures KnownLive(rs + [r], b) <==>
            KnownLive(rs, b) || r.Reattach? || r.Recreated? || (r.ToolWedge? && b.reconnects > 0)
  {
    var xs := rs + [r];
    assert xs[..|rs|] == rs && xs[|rs|] == r;
    if KnownLive(rs, b) {
      var k :| 0 <= k < |rs| && (rs[k].Reattach? || rs[k].Recreated? || (rs[k].ToolWedge? && b.reconnects > 0));
      assert xs[k] == rs[k];
    }
  }

  lemma ResultReasoning(t: Turn, r: A.Result, round: Round, b: Budgets)
    ensures OnResult(t, r, round, b).t.reasoning == t.reasoning + if r.Recreated? then [] else r.reasoning
  {
  }

  /** One round adds the reasoning of its attempt. */
  lemma NextReasoning(t: Turn, round: Round, b: Budgets)
    ensures Next(t, round, b).t.reasoning ==
            t.reasoning + match ResultOf(t, round)
                          case Some(r) => if r.Recreated? then [] else r.reasoning
                          case None => []
  {
    hide A.Run, A.Initial, A.Step, OnResult;
    if round.try.Connected? {
      match A.Run(A.Initial(t.ledger), round.try.trace, t.sid, t.recreated)
      case Draining(_) =>
      case Ended(s, r) => ResultReasoning(t.(log := Sent(t), ledger := s.ledger), r, round, b);
    }
  }

  /** However a turn goes, its reasoning is that of all its attempts, one after the other. */
  lemma {:induction false} TurnReasoning(p: Progress, rounds: seq<Round>, b: Budgets)
    requires p.t.reasoning == []
    ensures Run(p, rounds, b).t.reasoning == Reasons(Results(p, rounds, b))
  {
    hide Next, ResultOf;
    if rounds != [] {
      var (before, round) := (rounds[..|rounds| - 1], rounds[|rounds| - 1]);
      TurnReasoning(p, before, b);
      var (q, rs) := (Run(p, before, b), Results(p, before, b));
      assert rs + [] == rs && q.t.reasoning + [] == q.t.reasoning;
      if q.Going? {
        NextReasoning(q.t, round, b);
        if r :| ResultOf(q.t, round) == Some(r) {
          SnocResults(rs, r, b);
        }
      }
    }
  }

  lemma ResultCounts(t: Turn, r: A.Result, round: Round, rs: seq<A.Result>, b: Budgets)
    requires Counts(t, rs, b) && OnResult(t, r, round, b).Going?
    ensures Counts(OnResult(t, r, round, b).t, rs + [r], b)
  {
    SnocResults(rs, r, b);
    if Wedges(rs) > 0 && b.reconnects > 0 {
      RecycledIsLive(rs, b);
    }
    hide Losses, Wedges, KnownLive;
  }

  lemma {:induction false} RecycledIsLive(rs: seq<A.Result>, b: Budgets)
    requires Wedges(rs) > 0 && b.reconnects > 0
    ensures KnownLive(rs, b)
  {
    var n := |rs| - 1;
    if !rs[n].ToolWedge? {
      RecycledIsLive(rs[..n], b);
      var k :| 0 <= k < n && (rs[..n][k].Reattach? || rs[..n][k].Recreated? || rs[..n][k].ToolWedge?);
      assert rs[k] == rs[..n][k];
    }
  }

  lemma NextCounts(t: Turn, round: Round, rs: seq<A.Result>, b: Budgets)
    requires Counts(t, rs, b) && Next(t, round, b).Going?
    ensures match ResultOf(t, round)
            case Some(r) => Counts(Next(t, round, b).t, rs + [r], b)
            case None => Counts(Next(t, round, b).t, rs, b)
  {
    hide A.Run, A.Initial, A.Step, OnResult, Losses, Wedges, KnownLive;
    if round.try.Connected? {
      match A.Run(A.Initial(t.ledger), round.try.trace, t.sid, t.recreated)
      case Draining(_) =>
      case Ended(s, r) =>
        var t1 := t.(log := Sent(t), ledger := s.ledger);
        assert Counts(t1, rs, b);
        ResultCounts(t1, r, round, rs, b);
    }
  }

  lemma {:induction false} RunCounts(p: Progress, rounds: seq<Round>, b: Budgets)
    requires Run(p, rounds, b).Going? && Counts(p.t, [], b)
    ensures Counts(Run(p, rounds, b).t, Results(p, rounds, b), b)
  {
    hide Next, ResultOf, Counts;
    if rounds != [] {
      var (before, round) := (rounds[..|rounds| - 1], rounds[|rounds| - 1]);
      RunCounts(p, before, b);
      NextCounts(Run(p, before, b).t, round, Results(p, before, b), b);
      assert Results(p, before, b) + [] == Results(p, before, b);
    }
  }

  /** The wait after a round decides about the turn: it lost the bus within the budget, or did not connect. */
  predicate Waits(r: Option<A.Result>, rs: seq<A.Result>, round: Round, b: Budgets) {
    match r
    case Some(r) => r.Reattach? && Losses(rs) < b.reattaches
    case None => round.try.NoConnection? && (KnownLive(rs, b) || !round.graceOver)
  }

  /** The error with which a round ends a turn whose attempts gave `rs` before and give `r` now, if it ends it so. */
  function ErrorOf(r: Option<A.Result>, rs: seq<A.Result>, round: Round, b: Budgets): Option<Error> {
    if r.Some? && r.value.Failed? then Some(AttemptFailed(r.value.error))
    else if r.Some? && r.value.ToolWedge? && Wedges(rs) < b.reconnects && round.created == None
    then Some(RecreateFailed)
    else if r.Some? && r.value.Reattach? && Losses(rs) >= b.reattaches then Some(SessionLost)
    else if round.try.NoConnection? && !KnownLive(rs, b) && round.graceOver then Some(Unavailable)
    else if Waits(r, rs, round, b) && round.wait.ContextDone? then Some(Interrupted(round.wait.cause))
    else if Waits(r, rs, round, b) && round.wait.WindowOver? && (r.Some? || KnownLive(rs, b)) then Some(NotRecovered)
    else None
  }

  lemma ResultEnds(t: Turn, r: A.Result, round: Round, rs: seq<A.Result>, b: Budgets)
    requires Counts(t, rs, b)
    ensures var q := OnResult(t, r, round, b);
            && !q.Draining?
            && (q.Over? <==> r.Collected? || ErrorOf(Some(r), rs, round.(try := Connected([])), b).Some?)
            && (q.Over? ==> q.error == ErrorOf(Some(r), rs, round.(try := Connected([])), b))
  {
    hide Losses, Wedges, KnownLive;
  }

  lemma NextEnds(t: Turn, round: Round, rs: seq<A.Result>, b: Budgets)
    requires Counts(t, rs, b)
    ensures var (q, r) := (Next(t, round, b), ResultOf(t, round));
            && (q.Draining? <==> round.try.Connected? && r == None)
            && (q.Over? <==> (r.Some? && r.value.Collected?) || ErrorOf(r, rs, round, b).Some?)
            && (q.Over? ==> q.error == ErrorOf(r, rs, round, b))
  {
    hide A.Run, A.Initial, A.Step, OnResult, Losses, Wedges, KnownLive;
    if round.try.Connected? {
      match A.Run(A.Initial(t.ledger), round.try.trace, t.sid, t.recreated)
      case Draining(_) =>
      case Ended(s, r) =>
        var t1 := t.(log := Sent(t), ledger := s.ledger);
        assert Counts(t1, rs, b);
        ResultEnds(t1, r, round, rs, b);
    }
  }

  /** A turn that is going ends with its next round exactly if the attempt collects the reply, and then without an
      error, or if one of these holds, and then with that error: the attempt fails, with its own error; it meets a
      wedge, with budget left, and no session can be created; it loses the bus once more than may be; it finds no
      connection, the grace is over and the serve is not known to have been up; or the wait for the next try ends it. */
  lemma TurnEndsIff(sid: string, created: Option<string>, l: L.Ledger, rounds: seq<Round>, b: Budgets, i: nat)
    requires i < |rounds| && Run(Begin(sid, created, l), rounds[..i], b).Going?
    ensures var p := Begin(sid, created, l);
            var (t, q) := (Run(p, rounds[..i], b).t, Run(p, rounds[..i + 1], b));
            var r := ResultOf(t, rounds[i]);
            var e := ErrorOf(r, Results(p, rounds[..i], b), rounds[i], b);
            && (q.Draining? <==> rounds[i].try.Connected? && r == None)
            && (q.Over? <==> (r.Some? && r.value.Collected?) || e.Some?)
            && (q.Over? ==> q.error == e && Run(p, rounds, b) == q)
            && (q.Over? ==> (q.error == None <==> r.Some? && r.value.Collected?))
  {
    var p := Begin(sid, created, l);
    assert rounds[..i + 1][..i] == rounds[..i];
    BeginCounts(sid, created, l, b, rounds[..i]);
    hide Next, ResultOf, Counts, Begin, Waits, KnownLive;
    RunCounts(p, rounds[..i], b);
    NextEnds(Run(p, rounds[..i], b).t, rounds[i], Results(p, rounds[..i], b), b);
    if Run(p, rounds[..i + 1], b).Over? {
      StoppedStays(p, rounds, i + 1, b);
    }
  }

  lemma BeginCounts(sid: string, created: Option<string>, l: L.Ledger, b: Budgets, rounds: seq<Round>)
    ensures var p := Begin(sid, created, l);
            && Counts(p.t, [], b) && p.t.reasoning == []
            && (p.Over? <==> sid == "" && created == None) && (p.Over? ==> p.error == Some(CreateFailed))
            && !p.Draining?
  {
  }

  /** With no recycle allowed, a wedge does not tell the turn that the serve was up: if the serve is down when it
      tries again, the turn ends as if the serve had never been there, though an attempt ran on it. */
  lemma WedgedTurnIsTakenForDown(sid: string, l: L.Ledger, tool: string, b: Budgets)
    requires sid != "" && b.reconnects == 0
    ensures var wedged := Round(Connected([A.Accepted, A.StallTick(Some(tool), None)]), None, false, Elapsed);
            var o := Run(Begin(sid, None, l), [wedged, Round(NoConnection, None, true, Elapsed)], b);
            o.Over? && o.error == Some(Unavailable) && o.t.log == [Send(sid, false)]
  {
    var wedged := Round(Connected([A.Accepted, A.StallTick(Some(tool), None)]), None, false, Elapsed);
    var p := Begin(sid, None, l);
    var rounds := [wedged, Round(NoConnection, None, true, Elapsed)];
    assert rounds[..1] == [wedged] && [wedged][..0] == [];
    WedgeGoesOn(p.t, tool, b);
    hide Next;
    assert Run(p, [wedged], b) == Next(p.t, wedged, b);
    hide Run;
    NotConnected(Next(p.t, wedged, b).t, b);
    assert Run(p, rounds, b) == Next(Next(p.t, wedged, b).t, rounds[1], b) by {
      RunTwo(p, rounds, b);
    }
  }

  lemma RunTwo(p: Progress, rounds: seq<Round>, b: Budgets)
    requires |rounds| == 2 && Run(p, rounds[..1], b).Going?
    ensures Run(p, rounds, b) == Next(Run(p, rounds[..1], b).t, rounds[1], b)
  {
  }

  lemma NotConnected(t: Turn, b: Budgets)
    requires !t.everLive
    ensures Next(t, Round(NoConnection, None, true, Elapsed), b) == Over(t, "", Some(Unavailable))
  {
  }

  lemma WedgeGoesOn(t: Turn, tool: string, b: Budgets)
    requires b.reconnects == 0
    ensures var wedged := Round(Connected([A.Accepted, A.StallTick(Some(tool), None)]), None, false, Elapsed);
            var q := Next(t, wedged, b);
            q.Going? && q.t.everLive == t.everLive && q.t.log == Sent(t)
  {
    var (s, tick) := (A.Initial(t.ledger), A.StallTick(Some(tool), None));
    A.RunAccepts(s, t.sid, t.recreated);
    A.RunSnoc(s, [A.Accepted], tick, t.sid, t.recreated);
    assert [A.Accepted] + [tick] == [A.Accepted, tick];
    A.EndsIff(t.ledger, [A.Accepted], tick, t.sid, t.recreated);
    hide A.Run, A.Initial, A.Step;
  }
}
