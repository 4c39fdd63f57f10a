/**
 The collector of one ask turn (collectConversationReply in internal/askorchicon/chat.go): attempts follow each other
 until one of them ends the turn, with budgets for re-attaching and recycling. The attempts are those of
 module Attempt, run on what the environment sends them.
 */
module Collector {
  import opened Common
  import A = Attempt
  import L = ToolLedger
  import R = LedgerRepair

  datatype Budgets = Budgets(reconnects: nat, reattaches: nat)

  datatype Wait = Elapsed | ContextDone(cause: string) | WindowOver

  datatype Try = NoConnection | Connected(trace: seq<A.Input>)

  /** What the environment does in one round: the attempt's inputs, the session the serve creates if it is asked
      for one, whether the grace for a serve that was never up is over, and how the wait before the next try ends. */
  datatype Round = Round(try: Try, created: Option<string>, graceOver: bool, wait: Wait)

  datatype Why = First | Gone | Wedged

  datatype Action =
    | Create(sid: string, why: Why)
    | Persist(sid: string)
    | Send(sid: string, seeded: bool)
    | MarkWedged
    | Abort(sid: string)

  datatype Error =
    | CreateFailed | AttemptFailed(e: A.Error) | RecreateFailed | SessionLost | NotRecovered | Unavailable
    | Interrupted(cause: string)

  /** `seeded` says which system prompt is in use; `log` is what was done to the serve and the database. */
  datatype Turn = Turn(sid: string, seeded: bool, recreated: bool, reconnects: nat, reattaches: nat, everLive: bool,
                       reasoning: seq<string>, ledger: L.Ledger, log: seq<Action>)

  datatype Progress =
    | Going(t: Turn)
    | Draining(t: Turn)
    | Over(t: Turn, text: string, error: Option<Error>)

  function Begin(sid: string, created: Option<string>, ledger: L.Ledger): Progress {
    var t := Turn(sid, false, false, 0, 0, false, [], ledger, []);
    if sid != "" then Going(t)
    else match created
      case None => Over(t, "", Some(CreateFailed))
      case Some(first) => Going(t.(sid := first, seeded := true, log := [Create(first, First), Persist(first)]))
  }

  function Reseeded(t: Turn, sid: string, why: Why): Turn {
    t.(sid := sid, seeded := true, recreated := true, everLive := true, log := t.log + [Create(sid, why), Persist(sid)])
  }

  function AfterWait(t: Turn, text: string, w: Wait): Progress {
    match w
    case Elapsed => Going(t)
    case ContextDone(cause) => Over(t, text, Some(Interrupted(cause)))
    case WindowOver => Over(t, text, Some(NotRecovered))
  }

  function OnResult(t0: Turn, r: A.Result, round: Round, b: Budgets): Progress {
    match r
    case Collected(text, rsn) => Over(t0.(reasoning := t0.reasoning + rsn), text, None)
    case Failed(text, rsn, e) => Over(t0.(reasoning := t0.reasoning + rsn), text, Some(AttemptFailed(e)))
    case Recreated(newSid) => Going(Reseeded(t0, newSid, Gone))
    case ToolWedge(text, rsn, _) =>
      var t := t0.(reasoning := t0.reasoning + rsn);
      if t.reconnects >= b.reconnects then Going(t)
      else
        var t1 := t.(reconnects := t.reconnects + 1, log := t.log + [MarkWedged, Abort(t.sid)]);
        (match round.created
         case None => Over(t1, text, Some(RecreateFailed))
         case Some(next) => Going(Reseeded(t1, next, Wedged)))
    case Reattach(text, rsn) =>
      var t := t0.(reasoning := t0.reasoning + rsn, everLive := true, reattaches := t0.reattaches + 1);
      if t.reattaches > b.reattaches then Over(t, text, Some(SessionLost)) else AfterWait(t, text, round.wait)
  }

  function Next(t: Turn, round: Round, b: Budgets): Progress {
    match round.try
    case NoConnection =>
      if t.everLive then AfterWait(t, "", round.wait)
      else if round.graceOver then Over(t, "", Some(Unavailable))
      else if round.wait.ContextDone? then Over(t, "", Some(Interrupted(round.wait.cause)))
      else Going(t)
    case Connected(trace) =>
      var t1 := t.(log := t.log + [Send(t.sid, t.seeded)]);
      match A.Run(A.Initial(t.ledger), trace, t.sid, t.recreated)
      case Draining(s) => Draining(t1.(ledger := s.ledger))
      case Ended(s, r) => OnResult(t1.(ledger := s.ledger), r, round, b)
  }

  function Run(p: Progress, rounds: seq<Round>, b: Budgets): Progress {
    if rounds == [] then p
    else
      match Run(p, rounds[..|rounds| - 1], b)
      case Going(t) => Next(t, rounds[|rounds| - 1], b)
      case stopped => stopped
  }

  class ReplyCollector {
    const budgets: Budgets
    const ledger: L.LiveLedger
    var sid: string
    var system: bool
    var recreated: bool
    var reconnects: nat
    var reattaches: nat
    var everLive: bool
    var reasoning: seq<string>
    var log: seq<Action>

    function Value(): Turn
      reads this, ledger
    {
      Turn(sid, system, recreated, reconnects, reattaches, everLive, reasoning, ledger.Value(), log)
    }

    constructor (sid: string, budgets: Budgets, ledger: L.LiveLedger)
      ensures Value() == Turn(sid, false, false, 0, 0, false, [], ledger.Value(), [])
      ensures this.budgets == budgets && this.ledger == ledger
    {
      this.budgets, this.ledger, this.sid := budgets, ledger, sid;
      system, recreated, everLive, reconnects, reattaches, reasoning, log := false, false, false, 0, 0, [], [];
    }

    method Reseed(newSid: string, why: Why)
      modifies this
      ensures Value() == Reseeded(old(Value()), newSid, why)
    {
      sid, system, recreated, everLive := newSid, true, true, true;
      log := log + [Create(newSid, why), Persist(newSid)];
    }

    /** One round; `text` and `error` are what the turn returns if it is over. */
    method TakeRound(round: Round) returns (over: bool, draining: bool, text: string, error: Option<Error>)
      modifies this, ledger
      ensures match Next(old(Value()), round, budgets)
              case Going(t) => Value() == t && !over && !draining
              case Draining(t) => Value() == t && draining && !over
              case Over(t, x, e) => Value() == t && over && !draining && text == x && error == e
    {
      hide A.Run, A.Initial, OnResult, A.Step;
      over, draining, text, error := false, false, "", None;
      match round.try
      case NoConnection =>
        if !everLive {
          if round.graceOver {
            return true, false, "", Some(Unavailable);
          }
          if round.wait.ContextDone? {
            return true, false, "", Some(Interrupted(round.wait.cause));
          }
        } else if !round.wait.Elapsed? {
          return true, false, "", Some(if round.wait.WindowOver? then NotRecovered else Interrupted(round.wait.cause));
        }
      case Connected(trace) =>
        log := log + [Send(sid, system)];
        var attempt := new A.DrainLoop(sid, recreated, ledger);
        var res := attempt.Drain(trace);
        if res.None? {
          draining := true;
          return;
        }
        over, text, error := TakeResult(res.value, round);
    }

    method TakeResult(r: A.Result, round: Round) returns (over: bool, text: string, error: Option<Error>)
      modifies this
      ensures match OnResult(old(Value()), r, round, budgets)
              case Going(t) => Value() == t && !over
              case Draining(_) => false
              case Over(t, x, e) => Value() == t && over && text == x && error == e
    {
      over, text, error := false, "", None;
      match r
      case Collected(x, rsn) =>
        reasoning := reasoning + rsn;
        over, text := true, x;
      case Failed(x, rsn, e) =>
        reasoning := reasoning + rsn;
        over, text, error := true, x, Some(AttemptFailed(e));
      case Recreated(newSid) =>
        Reseed(newSid, Gone);
      case ToolWedge(x, rsn, _) =>
        reasoning := reasoning + rsn;
        if reconnects >= budgets.reconnects {
          return;
        }
        reconnects := reconnects + 1;
        log := log + [MarkWedged, Abort(sid)];
        if round.created.None? {
          return true, x, Some(RecreateFailed);
        }
        Reseed(round.created.value, Wedged);
      case Reattach(x, rsn) =>
        reasoning := reasoning + rsn;
        everLive := true;
        reattaches := reattaches + 1;
        if reattaches > budgets.reattaches {
          return true, x, Some(SessionLost);
        }
        if !round.wait.Elapsed? {
          return true, x, Some(if round.wait.WindowOver? then NotRecovered else Interrupted(round.wait.cause));
        }
    }

    method Collect(created: Option<string>, rounds: seq<Round>) returns (over: bool, text: string, error: Option<Error>)
      requires Value() == Turn(sid, false, false, 0, 0, false, [], ledger.Value(), [])
      modifies this, ledger
      ensures match Run(Begin(old(sid), created, old(ledger.Value())), rounds, budgets)
              case Going(t) => Value() == t && !over
              case Draining(t) => Value() == t && !over
              case Over(t, x, e) => Value() == t && over && text == x && error == e
    {
      hide Next;
      over, text, error := false, "", None;
      ghost var p := Begin(sid, created, ledger.Value());
      if sid == "" {
        if created.None? {
          StoppedStays(p, rounds, 0, budgets);
          return true, "", Some(CreateFailed);
        }
        sid, system := created.value, true;
        log := [Create(sid, First), Persist(sid)];
      }
      for i := 0 to |rounds|
        invariant !over && Run(p, rounds[..i], budgets) == Going(Value())
      {
        assert rounds[..i + 1][..i] == rounds[..i];
        var draining;
        over, draining, text, error := TakeRound(rounds[i]);
        if over || draining {
          StoppedStays(p, rounds, i + 1, budgets);
          return;
        }
      }
      assert rounds[..|rounds|] == rounds;
    }
  }

  lemma {:induction false} StoppedStays(p: Progress, rounds: seq<Round>, i: nat, b: Budgets)
    requires i <= |rounds| && !Run(p, rounds[..i], b).Going?
    ensures Run(p, rounds, b) == Run(p, rounds[..i], b)
    decreases |rounds|
  {
    hide Next;
    if i < |rounds| {
      var n := |rounds| - 1;
      assert rounds[..n][..i] == rounds[..i];
      StoppedStays(p, rounds[..n], i, b);
    } else {
      assert rounds[..i] == rounds;
    }
  }

  // ---------------------------------------------------------------- the whole turn

  function Created(log: seq<Action>, why: Why): nat {
    if log == [] then 0
    else Created(log[..|log| - 1], why) + if log[|log| - 1].Create? && log[|log| - 1].why == why then 1 else 0
  }

  function Aborts(log: seq<Action>): nat {
    if log == [] then 0 else Aborts(log[..|log| - 1]) + if log[|log| - 1].Abort? then 1 else 0
  }

  /** The session id the database knows. */
  function Persisted(log: seq<Action>, given: string): string {
    if log == [] then given
    else if log[|log| - 1].Persist? then log[|log| - 1].sid
    else Persisted(log[..|log| - 1], given)
  }

  predicate CreatedSome(log: seq<Action>) {
    exists k :: 0 <= k < |log| && log[k].Create?
  }

  /** What is done at position k of the log is done to the session the database knows; the seed prompt goes exactly
      to sessions created in this turn; and no session is created for a 404 after a recycle. */
  predicate ActionOk(log: seq<Action>, given: string, k: nat)
    requires k < |log|
  {
    match log[k]
    case Send(sid, seeded) => sid == Persisted(log[..k], given) && (seeded <==> CreatedSome(log[..k]))
    case Abort(sid) => sid == Persisted(log[..k], given) && k > 0 && log[k - 1] == MarkWedged
    case Create(sid, Gone) => Aborts(log[..k]) == 0
    case _ => true
  }

  predicate LogOk(log: seq<Action>, given: string) {
    forall k :: 0 <= k < |log| ==> ActionOk(log, given, k)
  }

  predicate TurnOk(t: Turn, given: string, b: Budgets) {
    && LogOk(t.log, given)
    && t.sid == Persisted(t.log, given)
    && (t.seeded <==> CreatedSome(t.log))
    && Created(t.log, First) <= 1
    && Created(t.log, Gone) <= (if t.recreated then 1 else 0)
    && Created(t.log, Wedged) <= Aborts(t.log) == t.reconnects <= b.reconnects
  }

  lemma LogSnoc(log: seq<Action>, a: Action, given: string)
    ensures forall w :: Created(log + [a], w) == Created(log, w) + if a.Create? && a.why == w then 1 else 0
    ensures Aborts(log + [a]) == Aborts(log) + if a.Abort? then 1 else 0
    ensures Persisted(log + [a], given) == if a.Persist? then a.sid else Persisted(log, given)
    ensures CreatedSome(log + [a]) <==> CreatedSome(log) || a.Create?
    ensures LogOk(log, given) && ActionOk(log + [a], given, |log|) ==> LogOk(log + [a], given)
  {
    var log' := log + [a];
    assert log'[..|log|] == log;
    assert log'[|log|] == a;
    if CreatedSome(log) {
      var k :| 0 <= k < |log| && log[k].Create?;
      assert log'[k].Create?;
    }
    if LogOk(log, given) && ActionOk(log', given, |log|) {
      forall k | 0 <= k < |log'| ensures ActionOk(log', given, k) {
        if k < |log| {
          assert ActionOk(log, given, k) && log'[..k] == log[..k] && log'[k] == log[k];
          assert k > 0 ==> log'[k - 1] == log[k - 1];
        }
      }
    }
  }

  lemma BeginOk(sid: string, created: Option<string>, ledger: L.Ledger, b: Budgets)
    ensures TurnOk(Begin(sid, created, ledger).t, sid, b)
  {
    if sid == "" && created.Some? {
      LogSnoc([], Create(created.value, First), sid);
      LogSnoc([Create(created.value, First)], Persist(created.value), sid);
      assert [] + [Create(created.value, First)] == [Create(created.value, First)];
      assert [Create(created.value, First)] + [Persist(created.value)] ==
          [Create(created.value, First), Persist(created.value)];
    }
  }

  lemma SentOk(t: Turn, given: string, b: Budgets)
    requires TurnOk(t, given, b)
    ensures TurnOk(t.(log := t.log + [Send(t.sid, t.seeded)]), given, b)
  {
    assert (t.log + [Send(t.sid, t.seeded)])[..|t.log|] == t.log;
    hide LogOk, Created, Aborts, Persisted, CreatedSome;
    LogSnoc(t.log, Send(t.sid, t.seeded), given);
  }

  lemma AbortedOk(t: Turn, given: string, b: Budgets)
    requires TurnOk(t, given, b) && t.reconnects < b.reconnects
    ensures TurnOk(t.(reconnects := t.reconnects + 1, log := t.log + [MarkWedged, Abort(t.sid)]), given, b)
    ensures Created(t.log + [MarkWedged, Abort(t.sid)], Wedged) < t.reconnects + 1
  {
    var l1 := t.log + [MarkWedged];
    assert l1[..|t.log|] == t.log && (l1 + [Abort(t.sid)])[..|l1|] == l1
        && l1 + [Abort(t.sid)] == t.log + [MarkWedged, Abort(t.sid)];
    hide LogOk, Created, Aborts, Persisted, CreatedSome;
    LogSnoc(t.log, MarkWedged, given);
    LogSnoc(l1, Abort(t.sid), given);
  }

  lemma ReseededOk(t: Turn, sid: string, why: Why, given: string, b: Budgets)
    requires TurnOk(t, given, b)
    requires why == Gone ==> !t.recreated && t.reconnects == 0
    requires why == Wedged ==> Created(t.log, Wedged) < t.reconnects
    requires why != First
    ensures TurnOk(Reseeded(t, sid, why), given, b)
  {
    var l1 := t.log + [Create(sid, why)];
    assert l1[..|t.log|] == t.log && (l1 + [Persist(sid)])[..|l1|] == l1;
    assert l1 + [Persist(sid)] == t.log + [Create(sid, why), Persist(sid)];
    hide LogOk, Created, Aborts, Persisted, CreatedSome;
    LogSnoc(t.log, Create(sid, why), given);
    LogSnoc(l1, Persist(sid), given);
  }

  /** A turn that goes on after a recycle is on the session made for it. */
  predicate ProgressOk(p: Progress, given: string, b: Budgets) {
    && TurnOk(p.t, given, b)
    && (p.Going? ==> (p.t.reconnects > 0 ==> p.t.recreated) && p.t.reattaches <= b.reattaches)
    && p.t.reattaches <= b.reattaches + 1
  }

  lemma FrameOk(t: Turn, t': Turn, given: string, b: Budgets)
    requires TurnOk(t, given, b)
    requires t'.sid == t.sid && t'.seeded == t.seeded && t'.recreated == t.recreated
    requires t'.reconnects == t.reconnects && t'.log == t.log
    ensures TurnOk(t', given, b)
  {
  }

  lemma OnResultOk(t: Turn, r: A.Result, round: Round, given: string, b: Budgets)
    requires ProgressOk(Going(t), given, b) && (r.Recreated? ==> !t.recreated)
    ensures ProgressOk(OnResult(t, r, round, b), given, b)
  {
    hide TurnOk, LogOk, Created, Aborts, Persisted, CreatedSome, Reseeded;
    var t' := OnResult(t, r, round, b).t;
    if r.Recreated? {
      ReseededOk(t, r.newSid, Gone, given, b);
      ReseededFrame(t, r.newSid, Gone);
    } else if r.ToolWedge? && t.reconnects < b.reconnects {
      var t1 := t.(reasoning := t.reasoning + r.reasoning);
      FrameOk(t, t1, given, b);
      AbortedOk(t1, given, b);
      var t2 := t1.(reconnects := t1.reconnects + 1, log := t1.log + [MarkWedged, Abort(t1.sid)]);
      if round.created.Some? {
        ReseededOk(t2, round.created.value, Wedged, given, b);
        ReseededFrame(t2, round.created.value, Wedged);
      }
    } else {
      FrameOk(t, t', given, b);
    }
  }

  lemma ReseededFrame(t: Turn, sid: string, why: Why)
    ensures var t' := Reseeded(t, sid, why);
            t'.recreated && t'.reattaches == t.reattaches && t'.reconnects == t.reconnects
  {
  }

  lemma NextOk(t: Turn, round: Round, given: string, b: Budgets)
    requires ProgressOk(Going(t), given, b)
    ensures ProgressOk(Next(t, round, b), given, b)
  {
    hide TurnOk, OnResult, A.Run, A.Initial, A.Step;
    if round.try.Connected? {
      var t1 := t.(log := t.log + [Send(t.sid, t.seeded)]);
      SentOk(t, given, b);
      match A.Run(A.Initial(t.ledger), round.try.trace, t.sid, t.recreated)
      case Draining(s) =>
        FrameOk(t1, t1.(ledger := s.ledger), given, b);
      case Ended(s, r) =>
        FrameOk(t1, t1.(ledger := s.ledger), given, b);
        A.RecreatedOnce(A.Initial(t.ledger), round.try.trace, t.sid, t.recreated);
        OnResultOk(t1.(ledger := s.ledger), r, round, given, b);
    }
  }

  lemma {:induction false} RunOk(given: string, created: Option<string>, ledger: L.Ledger, rounds: seq<Round>,
                                 b: Budgets)
    ensures ProgressOk(Run(Begin(given, created, ledger), rounds, b), given, b)
  {
    hide TurnOk, Next;
    if rounds == [] {
      BeginOk(given, created, ledger, b);
    } else {
      RunOk(given, created, ledger, rounds[..|rounds| - 1], b);
      var p := Run(Begin(given, created, ledger), rounds[..|rounds| - 1], b);
      if p.Going? {
        NextOk(p.t, rounds[|rounds| - 1], given, b);
      }
    }
  }

  /** Over a whole turn: at most one session is created because the serve forgot the old one, and none once a session
      was recycled; at most the reconnect budget of sessions is aborted; so at most 2 plus that budget are created;
      and at most the re-attach budget plus one attempt lost a live connection. */
  lemma SessionsAreBounded(given: string, created: Option<string>, ledger: L.Ledger, rounds: seq<Round>, b: Budgets)
    ensures var t := Run(Begin(given, created, ledger), rounds, b).t;
            && Created(t.log, Gone) <= 1
            && (forall k :: 0 <= k < |t.log| && t.log[k].Create? && t.log[k].why == Gone ==> Aborts(t.log[..k]) == 0)
            && Aborts(t.log) <= b.reconnects
            && Created(t.log, First) + Created(t.log, Gone) + Created(t.log, Wedged) <= 2 + b.reconnects
            && t.reattaches <= b.reattaches + 1
  {
    RunOk(given, created, ledger, rounds, b);
    var t := Run(Begin(given, created, ledger), rounds, b).t;
    hide Run, Created, Aborts, Persisted, CreatedSome;
    forall k | 0 <= k < |t.log| && t.log[k].Create? && t.log[k].why == Gone ensures Aborts(t.log[..k]) == 0 {
      assert ActionOk(t.log, given, k);
    }
  }

  /** Every attempt sends to the session the database knows, and with the seed prompt exactly if a session was
      created in this turn; only that session is ever aborted, and only after the turn was marked wedged. */
  lemma SendsGoToThePersistedSession(given: string, created: Option<string>, ledger: L.Ledger, rounds: seq<Round>,
                                     b: Budgets,
                                     k: nat)
    requires k < |Run(Begin(given, created, ledger), rounds, b).t.log|
    ensures var log := Run(Begin(given, created, ledger), rounds, b).t.log;
            match log[k]
            case Send(sid, seeded) =>
              sid == Persisted(log[..k], given) && (seeded <==> exists c :: 0 <= c < k && log[c].Create?)
            case Abort(sid) => sid == Persisted(log[..k], given) && k > 0 && log[k - 1] == MarkWedged
            case _ => true
  {
    RunOk(given, created, ledger, rounds, b);
    var log := Run(Begin(given, created, ledger), rounds, b).t.log;
    hide Run, Created, Aborts, Persisted;
    assert ActionOk(log, given, k);
    assert forall c :: 0 <= c < k ==> log[..k][c] == log[c];
  }

  // ---------------------------------------------------------------- what attempts leave behind

  /** The reasoning that attempts already brought is never lost, and a serve that was up once stays known to have
      been: the short grace for a serve that was never up applies no more. */
  lemma NextKeeps(t: Turn, round: Round, b: Budgets)
    ensures var t' := Next(t, round, b).t;
            t.reasoning <= t'.reasoning && (t.everLive ==> t'.everLive) && t.log <= t'.log
    ensures t.everLive ==> Next(t, round, b) != Over(t, "", Some(Unavailable))
  {
    hide A.Run, A.Initial, A.Step;
  }

  lemma {:induction false} RunKeeps(p: Progress, rounds: seq<Round>, b: Budgets, i: nat)
    requires i <= |rounds|
    ensures var (t, t') := (Run(p, rounds[..i], b).t, Run(p, rounds, b).t);
            t.reasoning <= t'.reasoning && (t.everLive ==> t'.everLive) && t.log <= t'.log
    decreases |rounds|
  {
    hide Next;
    if i == |rounds| {
      assert rounds[..i] == rounds;
    } else {
      var n := |rounds| - 1;
      assert rounds[..n][..i] == rounds[..i];
      RunKeeps(p, rounds[..n], b, i);
      var q := Run(p, rounds[..n], b);
      if q.Going? {
        NextKeeps(q.t, rounds[n], b);
      }
    }
  }

  // ---------------------------------------------------------------- the ledger of a turn

  /** What a round puts into the tool ledger. */
  function RoundOps(t: Turn, round: Round): seq<L.Op> {
    match round.try
    case NoConnection => []
    case Connected(trace) => A.Recorded(A.Received(t.ledger, trace, t.sid, t.recreated), t.sid)
  }

  function TurnOps(p: Progress, rounds: seq<Round>, b: Budgets): seq<L.Op> {
    if rounds == [] then []
    else
      var n := |rounds| - 1;
      var q := Run(p, rounds[..n], b);
      TurnOps(p, rounds[..n], b) + if q.Going? then RoundOps(q.t, rounds[n]) else []
  }

  lemma NextLedger(t: Turn, round: Round, b: Budgets)
    ensures Next(t, round, b).t.ledger == L.ApplyAll(t.ledger, RoundOps(t, round))
  {
    A.ApplyOne(t.ledger, L.Start("", 0));
    hide A.Run, A.Initial, A.Recorded, A.Received, L.ApplyAll, OnResult;
    if round.try.Connected? {
      A.LedgerAgrees(t.ledger, round.try.trace, t.sid, t.recreated);
      match A.Run(A.Initial(t.ledger), round.try.trace, t.sid, t.recreated)
      case Draining(_) =>
      case Ended(s, r) => ResultKeepsLedger(t.(log := Sent(t), ledger := s.ledger), r, round, b);
    }
  }

  lemma ResultKeepsLedger(t: Turn, r: A.Result, round: Round, b: Budgets)
    ensures OnResult(t, r, round, b).t.ledger == t.ledger
  {
  }

  /** The one ledger of a turn, shared by its attempts, is what all of them recorded, one after the other. */
  lemma {:induction false} TurnLedger(p: Progress, rounds: seq<Round>, b: Budgets)
    ensures Run(p, rounds, b).t.ledger == L.ApplyAll(p.t.ledger, TurnOps(p, rounds, b))
  {
    hide Next, RoundOps, L.ApplyAll;
    A.ApplyOne(p.t.ledger, L.Start("", 0));
    if rounds != [] {
      var n := |rounds| - 1;
      var q := Run(p, rounds[..n], b);
      TurnLedger(p, rounds[..n], b);
      var ops := TurnOps(p, rounds[..n], b);
      assert ops + [] == ops;
      if q.Going? {
        NextLedger(q.t, rounds[n], b);
        L.ApplyConcat(p.t.ledger, ops, RoundOps(q.t, rounds[n]));
      }
    }
  }

  /** So the terminal write of a turn keeps every call of all its attempts exactly if no ask was put on record twice
      in the turn and none has an id that the ledger made itself. */
  lemma TurnKeepsCallsIff(sid: string, created: Option<string>, rounds: seq<Round>, b: Budgets)
    ensures var p := Begin(sid, created, L.EMPTY);
            var (ops, cs) := (TurnOps(p, rounds, b), L.Calls(Run(p, rounds, b).t.ledger));
            R.RepairedCalls(cs) == cs <==> L.AsksApart(L.AskIds(ops), L.Minted(L.Origins(ops)))
  {
    var p := Begin(sid, created, L.EMPTY);
    assert p.t.ledger == L.EMPTY;
    TurnLedger(p, rounds, b);
    hide Run, TurnOps, Begin, R.RepairedCalls, L.AsksApart, L.Minted, L.Origins, L.AskIds, L.ApplyAll;
    L.FromEmpty(TurnOps(p, rounds, b));
    L.TerminalWriteKeepsCallsIff(TurnOps(p, rounds, b));
  }

  // ---------------------------------------------------------------- sending again

  /** How the attempt of a round ended, if it did. */
  function ResultOf(t: Turn, round: Round): Option<A.Result> {
    if round.try.NoConnection? then None
    else match A.Run(A.Initial(t.ledger), round.try.trace, t.sid, t.recreated)
      case Draining(_) => None
      case Ended(_, r) => Some(r)
  }

  /** The attempt lost the bus, or met a wedge when the recycle budget was spent: it is to be listened on. */
  predicate ListensOn(t: Turn, round: Round, b: Budgets) {
    var r := ResultOf(t, round);
    r.Some? && (r.value.Reattach? || (r.value.ToolWedge? && t.reconnects >= b.reconnects))
  }

  function Sent(t: Turn): seq<Action> {
    t.log + [Send(t.sid, t.seeded)]
  }

  /** The session that a turn going on after the attempt continues on, if the serve was asked for one. */
  function NewSession(t: Turn, round: Round): Option<string> {
    match ResultOf(t, round)
    case Some(Recreated(newSid)) => Some(newSid)
    case Some(ToolWedge(_, _, _)) => round.created
    case _ => None
  }

  lemma AttemptStep(t: Turn, round: Round, b: Budgets)
    requires round.try.Connected? && Next(t, round, b).Going?
    ensures var t' := Next(t, round, b).t;
            && Sent(t) <= t'.log
            && if ListensOn(t, round, b) then t'.log == Sent(t) && t'.sid == t.sid && t'.seeded == t.seeded
               else NewSession(t, round) == Some(t'.sid) && |t'.log| > |Sent(t)| && t'.seeded
  {
    hide A.Run, A.Initial, A.Step;
  }

  lemma {:induction false} IdleRounds(p: Progress, rounds: seq<Round>, b: Budgets, i: nat, j: nat)
    requires i <= j <= |rounds| && Run(p, rounds[..j], b).Going?
    requires forall k :: i <= k < j ==> rounds[k].try.NoConnection?
    ensures Run(p, rounds[..i], b) == Run(p, rounds[..j], b)
    decreases j
  {
    if i < j {
      assert rounds[..j][..j - 1] == rounds[..j - 1];
      IdleRounds(p, rounds, b, i, j - 1);
    }
  }

  lemma GoingBefore(p: Progress, rounds: seq<Round>, b: Budgets, i: nat)
    requires i < |rounds| && Run(p, rounds[..i + 1], b).Going?
    ensures Run(p, rounds[..i], b).Going?
    ensures Run(p, rounds[..i + 1], b) == Next(Run(p, rounds[..i], b).t, rounds[i], b)
  {
    hide Next;
    assert rounds[..i + 1][..i] == rounds[..i];
  }

  /** Every attempt sends the message. Between the sends of one attempt and the next nothing is done, and the second
      goes to the same session with the same prompt, so that the session has the message twice, if and only if the
      first attempt lost the bus or met a wedge with the recycle budget spent; otherwise the second goes to the
      session that was created for it. */
  lemma MessageIsSentAgainIff(p: Progress, rounds: seq<Round>, b: Budgets, i: nat, j: nat)
    requires i < j < |rounds| && rounds[i].try.Connected? && rounds[j].try.Connected?
    requires forall k :: i < k < j ==> rounds[k].try.NoConnection?
    requires Run(p, rounds[..j], b).Going?
    ensures Run(p, rounds[..i], b).Going?
    ensures var (t, t') := (Run(p, rounds[..i], b).t, Run(p, rounds[..j], b).t);
            && Sent(t) <= t'.log && Sent(t') <= Run(p, rounds[..j + 1], b).t.log
            && (t'.log == Sent(t) <==> ListensOn(t, rounds[i], b))
            && (ListensOn(t, rounds[i], b) ==> t'.sid == t.sid && t'.seeded == t.seeded)
            && (!ListensOn(t, rounds[i], b) ==> NewSession(t, rounds[i]) == Some(t'.sid) && t'.seeded)
            && (NewSession(t, rounds[i]) != Some(t.sid) ==> (t'.sid == t.sid <==> ListensOn(t, rounds[i], b)))
  {
    hide Next, ListensOn, NewSession;
    IdleRounds(p, rounds, b, i + 1, j);
    GoingBefore(p, rounds, b, i);
    AttemptStep(Run(p, rounds[..i], b).t, rounds[i], b);
    assert rounds[..j + 1][..j] == rounds[..j];
    SentFirst(Run(p, rounds[..j], b).t, rounds[j], b);
  }

  lemma SentFirst(t: Turn, round: Round, b: Budgets)
    requires round.try.Connected?
    ensures Sent(t) <= Next(t, round, b).t.log
  {
    hide A.Run, A.Initial, A.Step;
  }

  // ---------------------------------------------------------------- the text of a turn

  /** The text an attempt hands over. */
  function TextOf(r: A.Result): string {
    match r
    case Collected(text, _) => text
    case Failed(text, _, _) => text
    case Reattach(text, _) => text
    case ToolWedge(text, _, _) => text
    case Recreated(_) => ""
  }

  lemma StepText(t: Turn, round: Round, b: Budgets)
    requires Next(t, round, b).Over?
    ensures Next(t, round, b).text == match ResultOf(t, round)
                                      case Some(r) => TextOf(r)
                                      case None => ""
  {
    hide A.Run, A.Initial, A.Step;
  }

  /** Reasoning is carried from attempt to attempt; text is not. However many attempts handed text over before, the
      text a turn ends with is that of its last attempt alone, and none if the turn ends because the serve is out of
      reach. */
  lemma TextIsTheLastAttempts(p: Progress, rounds: seq<Round>, b: Budgets, i: nat)
    requires i < |rounds| && Run(p, rounds[..i], b).Going? && Run(p, rounds[..i + 1], b).Over?
    ensures Run(p, rounds, b) == Run(p, rounds[..i + 1], b)
    ensures Run(p, rounds, b).text == match ResultOf(Run(p, rounds[..i], b).t, rounds[i])
                                      case Some(r) => TextOf(r)
                                      case None => ""
  {
    hide Next, ResultOf;
    assert rounds[..i + 1][..i] == rounds[..i];
    StoppedStays(p, rounds, i + 1, b);
    StepText(Run(p, rounds[..i], b).t, rounds[i], b);
  }

  /** So a reply that was complete but for the end of the turn is lost with the bus: the next attempt, which finds the
      session idle, ends the turn with no text and no error. */
  lemma CompletedPartIsLost(sid: string, ledger: L.Ledger, part: string, b: Budgets)
    requires sid != "" && A.CleanText(part) != "" && b.reattaches >= 1
    ensures var cut := [A.Accepted, A.Bus(sid, A.TextPart(part)), A.BusClosed];
            var first := Round(Connected(cut), None, false, Elapsed);
            var second := Round(Connected([A.Accepted, A.Bus(sid, A.Idle)]), None, false, Elapsed);
            var p := Begin(sid, None, ledger);
            var (r, o) := (ResultOf(p.t, first), Run(p, [first, second], b));
            && p.Going? && r.Some? && r.value.Reattach? && r.value.text == A.CleanText(part) + "\n\n"
            && o.Over? && o.text == "" && o.error == None
  {
    var k := A.TextPart(part);
    var first := Round(Connected([A.Accepted, A.Bus(sid, k), A.BusClosed]), None, false, Elapsed);
    var second := Round(Connected([A.Accepted, A.Bus(sid, A.Idle)]), None, false, Elapsed);
    var p := Begin(sid, None, ledger);
    var t := p.t;
    FirstAttempt(sid, ledger, part);
    hide A.Run, A.Initial, A.Step, A.Content, A.CleanText;
    assert [first, second][..1] == [first] && [first][..0] == [];
    var t1 := Next(t, first, b).t;
    assert Run(p, [first], b) == Next(t, first, b) == Going(t1);
    SecondAttempt(t1.ledger, sid);
  }

  lemma FirstAttempt(sid: string, ledger: L.Ledger, part: string)
    requires A.CleanText(part) != ""
    ensures var o := A.Run(A.Initial(ledger), [A.Accepted, A.Bus(sid, A.TextPart(part)), A.BusClosed], sid, false);
            o.Ended? && o.r.Reattach? && o.r.text == A.CleanText(part) + "\n\n"
  {
    var k := A.TextPart(part);
    A.EmptyPart();
    A.OneContent(A.Initial(ledger), k, sid);
    A.InitialFields(ledger);
    hide A.Run, A.Initial, A.CleanText, A.Settled;
    PartText(A.Initial(ledger).(sent := true), part);
  }

  lemma PartText(s: A.State, part: string)
    requires part != "" && A.CleanText(part) != "" && s.reply == ""
    ensures A.FinalText(A.Content(s, A.TextPart(part))) == A.CleanText(part) + "\n\n"
  {
    hide A.CleanText, A.FoldedBodies, A.CommittedAll;
    A.CommittedFrame(A.Observed(s, A.TextPart(part)).(liveText := "", liveReasoning := "", seg := A.S.START),
        A.FoldedBodies(part));
    var body := A.CleanText(part) + "\n\n";
    assert "" + A.CleanText(part) + "\n\n" == body && body + "" == body;
  }

  lemma SecondAttempt(ledger: L.Ledger, sid: string)
    ensures var o := A.Run(A.Initial(ledger), [A.Accepted, A.Bus(sid, A.Idle)], sid, false);
            o.Ended? && o.r.Collected? && o.r.text == ""
  {
    A.RunAccepts(A.Initial(ledger), sid, false);
    A.InitialFields(ledger);
    A.RunSnoc(A.Initial(ledger), [A.Accepted], A.Bus(sid, A.Idle), sid, false);
    IdleCollects(A.Initial(ledger).(sent := true), sid);
    hide A.Run, A.Initial, A.Step;
    assert [A.Accepted] + [A.Bus(sid, A.Idle)] == [A.Accepted, A.Bus(sid, A.Idle)];
  }

  lemma IdleCollects(s: A.State, sid: string)
    requires s.sent && s.reply == s.liveText == ""
    ensures var o := A.Step(s, A.Bus(sid, A.Idle), sid, false);
            o.Ended? && o.r.Collected? && o.r.text == ""
  {
    hide A.Settled, A.Content;
    assert A.FinalText(s) == "";
  }
}
