/**
 One attempt of an ask turn (runOneTurnAttempt in internal/askorchicon/chat.go): subscribe, send, and drain the bus
 until the turn ends. An input is what one `select` of the drain loop received; timers, the stall monitor's
 verdicts and the operator's state are labels of the inputs they decide. Texts are bytes, as in module Bytes.
 */
module Attempt {
  import opened Common
  import opened Bytes
  import S = ThinkSegmenter
  import T = ShownThinking
  import L = ToolLedger

  /** What the consent layer puts on record about an ask: that it was raised, or how it was decided. */
  datatype Consent = Consent(target: string, verdict: string, detail: string, askId: string, now: int)

  datatype Kind =
    | Idle
    | Ask(id: string, records: seq<Consent>)
    | ProviderError(message: string)
    | Delta(text: string, isReasoning: bool)
    | ToolIssued(tool: string, now: int)
    | ToolResolved(tool: string, args: string, output: string, isError: bool, now: int)
    | TextPart(text: string)
    | ReasoningPart(text: string)
    | ToolPart(tool: string, args: string, output: string, isError: bool, now: int)
    | StepFinish

  datatype Input =
    | Accepted
    | SendFailed(gone: bool, created: Option<string>, error: string)
    | Cancelled(cause: string)
    | WindowFired(waitingOnOperator: bool)
    | HandshakeFired
    | StallTick(wedge: Option<string>, stall: Option<string>)
    | ConsentReply(records: seq<Consent>)
    | MirrorTick
    | BusClosed
    | Bus(session: string, kind: Kind)

  datatype Error =
    | Cause(cause: string) | ReplyTimedOut | NotAccepted | Stalled(reason: string)
    | RecreateFailed | SendError(error: string) | Provider(message: string)

  datatype Result =
    | Collected(text: string, reasoning: seq<string>)
    | Failed(text: string, reasoning: seq<string>, error: Error)
    | Recreated(newSid: string)
    | Reattach(text: string, reasoning: seq<string>)
    | ToolWedge(text: string, reasoning: seq<string>, tool: string)

  /** `observed` is what the stall monitor was fed, `asks` what was put before the consent layer. */
  datatype State = State(sent: bool, reply: string, reasoning: seq<string>, liveText: string, liveReasoning: string,
                         seg: S.Seg, committed: set<string>, ledger: L.Ledger, observed: seq<Kind>, asks: seq<string>)

  function Initial(ledger: L.Ledger): State {
    State(false, "", [], "", "", S.START, {}, ledger, [], [])
  }

  // ---------------------------------------------------------------- thinking

  /** A folded body becomes reasoning once, however often it arrives. */
  function Committed(s: State, body: string): State {
    if body == "" || body in s.committed then s
    else s.(committed := s.committed + {body}, reasoning := s.reasoning + [body])
  }

  function CommittedAll(s: State, bodies: seq<string>): State {
    if bodies == [] then s else Committed(CommittedAll(s, bodies[..|bodies| - 1]), bodies[|bodies| - 1])
  }

  /** What the callbacks do with a piece of streamed text. */
  function Heard(s: State, p: S.Piece): State {
    match p
    case Plain(t) => s.(liveText := s.liveText + t)
    case Thought(t) => s.(liveReasoning := s.liveReasoning + S.Shown(t))
    case Opened(_) => s
    case Closed(_, body) => if body == "" then s else Committed(s.(liveReasoning := ""), body)
  }

  function HeardAll(s: State, ps: seq<S.Piece>): State {
    if ps == [] then s else Heard(HeardAll(s, ps[..|ps| - 1]), ps[|ps| - 1])
  }

  function Fed(s: State, text: string): State {
    HeardAll(s, S.Pieces(s.seg, text)).(seg := S.End(s.seg, text))
  }

  function OpenBody(seg: S.Seg): string {
    if seg.inBody then seg.body else ""
  }

  predicate HasSuffix(s: string, t: string) {
    |t| <= |s| && s[|s| - |t|..] == t
  }

  /** The streamed reasoning without the folded body that was just committed. */
  function FoldReasoningTail(tail: string, flushed: string): string {
    if flushed == "" then tail else if HasSuffix(tail, flushed) then tail[..|tail| - |flushed|] else tail
  }

  /** The one exit: folds in what streamed and was not superseded by a completed part. */
  function Settled(s: State): State {
    var body := OpenBody(s.seg);
    var s1 := Committed(s, body);
    var rest := FoldReasoningTail(s.liveReasoning, body);
    s1.(reasoning := if Blank(rest) then s1.reasoning else s1.reasoning + [rest], liveReasoning := "", seg := S.START)
  }

  function FinalText(s: State): string {
    s.reply + s.liveText
  }

  // ---------------------------------------------------------------- the drain loop

  function CleanText(text: string): string {
    S.Outs(S.Pieces(S.START, text)).text
  }

  /** The thoughts folded into a completed part, the one it leaves open included. */
  function FoldedBodies(text: string): seq<string> {
    S.Outs(S.Pieces(S.START, text)).commits
    + if OpenBody(S.End(S.START, text)) != "" then [OpenBody(S.End(S.START, text))] else []
  }

  /** A completed text part subsumes the deltas that built it. */
  function TextPartDone(s: State, text: string): State {
    var s1 := CommittedAll(s.(liveText := "", liveReasoning := "", seg := S.START), FoldedBodies(text));
    if CleanText(text) == "" then s1 else s1.(reply := s1.reply + CleanText(text) + "\n\n")
  }

  function LedgerAfter(l: L.Ledger, k: Kind): L.Ledger {
    match k
    case ToolIssued(tool, now) => L.Started(l, tool, now)
    case ToolResolved(tool, args, output, isError, now) => L.ResolvedTyped(l, tool, args, output, isError, now)
    case ToolPart(tool, args, output, isError, now) => L.ResolvedPart(l, tool, args, output, isError, now)
    case _ => l
  }

  function OpOf(c: Consent): L.Op {
    L.Permission(c.target, c.verdict, c.detail, c.askId, c.now)
  }

  function OpsOf(cs: seq<Consent>): seq<L.Op> {
    seq(|cs|, i requires 0 <= i < |cs| => OpOf(cs[i]))
  }

  predicate IsContent(k: Kind) {
    k.Delta? || k.ToolIssued? || k.ToolResolved? || k.TextPart? || k.ReasoningPart? || k.ToolPart? || k.StepFinish?
  }

  /** Content that arrives once the message was accepted. */
  function Content(s0: State, k: Kind): State
    requires IsContent(k)
  {
    var s := s0.(observed := s0.observed + [k], ledger := LedgerAfter(s0.ledger, k));
    match k
    case Delta(text, isReasoning) =>
      if isReasoning && !s.seg.inBody then s.(liveReasoning := s.liveReasoning + text) else Fed(s, text)
    case TextPart(text) => if text == "" then s else TextPartDone(s, text)
    case ReasoningPart(text) => if text == "" then s else s.(reasoning := s.reasoning + [text], liveReasoning := "")
    case _ => s
  }

  datatype Outcome = Draining(s: State) | Ended(s: State, r: Result)

  function Fail(s: State, e: Error): Outcome {
    Ended(Settled(s), Failed(FinalText(s), Settled(s).reasoning, e))
  }

  function OnBus(s: State, k: Kind): Outcome {
    match k
    case Idle =>
      if s.sent then Ended(Settled(s), Collected(TrimSpace(FinalText(s)), Settled(s).reasoning)) else Draining(s)
    case Ask(id, records) =>
      Draining(if id == "" then s
               else s.(asks := s.asks + [id], ledger := L.ApplyAll(s.ledger, OpsOf(records))))
    case ProviderError(m) => Fail(s, Provider(m))
    case _ => if s.sent then Draining(Content(s, k)) else Draining(s)
  }

  function Step(s: State, e: Input, sid: string, recreated: bool): Outcome {
    match e
    case Accepted => Draining(s.(sent := true))
    case SendFailed(gone, created, error) =>
      if gone && !recreated then
        (match created
         case None => Fail(s, RecreateFailed)
         case Some(newSid) => Ended(s, Recreated(newSid)))
      else Fail(s, SendError(error))
    case Cancelled(cause) => Fail(s, Cause(cause))
    case WindowFired(waiting) => if waiting then Draining(s) else Fail(s, ReplyTimedOut)
    case HandshakeFired => if s.sent then Draining(s) else Fail(s, NotAccepted)
    case StallTick(wedge, stall) =>
      if wedge.Some? then Ended(Settled(s), ToolWedge(FinalText(s), Settled(s).reasoning, wedge.value))
      else if stall.Some? then Fail(s, Stalled(stall.value))
      else Draining(s)
    case ConsentReply(records) => Draining(s.(ledger := L.ApplyAll(s.ledger, OpsOf(records))))
    case MirrorTick => Draining(s)
    case BusClosed => Ended(Settled(s), Reattach(FinalText(s), Settled(s).reasoning))
    case Bus(session, k) => if session != "" && session != sid then Draining(s) else OnBus(s, k)
  }

  function Run(s: State, trace: seq<Input>, sid: string, recreated: bool): Outcome {
    if trace == [] then Draining(s)
    else
      match Run(s, trace[..|trace| - 1], sid, recreated)
      case Draining(s1) => Step(s1, trace[|trace| - 1], sid, recreated)
      case Ended(s1, r) => Ended(s1, r)
  }

  class DrainLoop {
    const sid: string
    const recreated: bool
    const ledger: L.LiveLedger
    var sent: bool
    var reply: string
    var reasoning: seq<string>
    var liveText: string
    var liveReasoning: string
    var segThink: S.Seg
    var committedThink: set<string>
    var observed: seq<Kind>
    var asks: seq<string>

    function Value(): State
      reads this, ledger
    {
      State(sent, reply, reasoning, liveText, liveReasoning, segThink, committedThink, ledger.Value(), observed, asks)
    }

    constructor (sid: string, recreated: bool, ledger: L.LiveLedger)
      ensures this.sid == sid && this.recreated == recreated && this.ledger == ledger
      ensures Value() == Initial(ledger.Value())
    {
      this.sid, this.recreated, this.ledger := sid, recreated, ledger;
      sent, reply, reasoning, liveText, liveReasoning := false, "", [], "", "";
      segThink, committedThink, observed, asks := S.START, {}, [], [];
    }

    method CommitThink(body: string)
      modifies this
      ensures Value() == Committed(old(Value()), body)
    {
      if body == "" {
        return;
      }
      if body in committedThink {
        return;
      }
      committedThink := committedThink + {body};
      reasoning := reasoning + [body];
    }

    method SettleAttempt() returns (text: string)
      modifies this
      ensures Value() == Settled(old(Value())) && text == FinalText(old(Value()))
    {
      hide TrimSpace, HasSuffix;
      var tail := liveReasoning;
      var flushed := "";
      if segThink.inBody {
        flushed := segThink.body;
        CommitThink(flushed);
      }
      segThink := S.START;
      var rest := FoldReasoningTail(tail, flushed);
      if TrimSpace(rest) != "" {
        reasoning := reasoning + [rest];
      }
      liveReasoning := "";
      text := reply;
      if |liveText| > 0 {
        text := text + liveText;
      } else {
        assert reply + liveText == reply;
      }
    }

    method FeedDelta(text: string)
      modifies this
      ensures Value() == Fed(old(Value()), text)
    {
      hide Heard, S.Pieces, S.End;
      var ps := S.Pieces(segThink, text);
      var seg := S.End(segThink, text);
      for i := 0 to |ps|
        invariant Value() == HeardAll(old(Value()), ps[..i])
      {
        assert ps[..i + 1][..i] == ps[..i];
        OnPiece(ps[i]);
      }
      assert ps[..|ps|] == ps;
      segThink := seg;
    }

    method OnPiece(p: S.Piece)
      modifies this
      ensures Value() == Heard(old(Value()), p)
    {
      match p
      case Plain(t) => liveText := liveText + t;
      case Thought(t) => liveReasoning := liveReasoning + S.Shown(t);
      case Opened(_) =>
      case Closed(_, body) =>
        if body != "" {
          liveReasoning := "";
          CommitThink(body);
        }
    }

    method OnTextPart(text: string)
      requires text != ""
      modifies this
      ensures Value() == TextPartDone(old(Value()), text)
    {
      hide CleanText, FoldedBodies, Committed;
      var ct := CleanText(text);
      var foldedBodies := FoldedBodies(text);
      liveText, liveReasoning, segThink := "", "", S.START;
      ghost var s := Value();
      for i := 0 to |foldedBodies|
        invariant Value() == CommittedAll(s, foldedBodies[..i])
      {
        assert foldedBodies[..i + 1][..i] == foldedBodies[..i];
        CommitThink(foldedBodies[i]);
      }
      assert foldedBodies[..|foldedBodies|] == foldedBodies;
      if ct != "" {
        reply := reply + ct;
        reply := reply + "\n\n";
      }
    }

    method OnContent(k: Kind)
      requires IsContent(k)
      modifies this, ledger
      ensures Value() == Content(old(Value()), k)
    {
      hide Fed, TextPartDone, L.Started, L.ResolvedTyped, L.ResolvedPart;
      observed := observed + [k];
      match k
      case Delta(text, isReasoning) =>
        if isReasoning && !segThink.inBody {
          liveReasoning := liveReasoning + text;
        } else {
          FeedDelta(text);
        }
      case ToolIssued(tool, now) =>
        ledger.RecordStart(tool, now);
      case ToolResolved(tool, args, output, isError, now) =>
        ledger.RecordToolResolution(tool, args, output, isError, now);
      case TextPart(text) =>
        if text != "" {
          OnTextPart(text);
        }
      case ReasoningPart(text) =>
        if text != "" {
          reasoning := reasoning + [text];
          liveReasoning := "";
        }
      case ToolPart(tool, args, output, isError, now) =>
        ledger.RecordResolve(tool, args, output, isError, now);
      case StepFinish =>
    }

    method RecordConsents(records: seq<Consent>)
      modifies ledger
      ensures ledger.Value() == L.ApplyAll(old(ledger.Value()), OpsOf(records))
    {
      hide L.Permitted;
      for i := 0 to |records|
        invariant ledger.Value() == L.ApplyAll(old(ledger.Value()), OpsOf(records[..i]))
      {
        var c := records[i];
        OpsSnoc(records, i);
        ledger.RecordPermission(c.target, c.verdict, c.detail, c.askId, c.now);
      }
      assert records[..|records|] == records;
    }

    method Handle(e: Input) returns (r: Option<Result>)
      modifies this, ledger
      ensures match Step(old(Value()), e, sid, recreated)
              case Draining(s) => Value() == s && r == None
              case Ended(s, res) => Value() == s && r == Some(res)
    {
      hide Settled, FinalText, Content, Initial, OpsOf, TrimSpace, L.ApplyAll;
      r := None;
      match e
      case Accepted =>
        sent := true;
      case SendFailed(gone, created, error) =>
        if gone && !recreated {
          if created.Some? {
            return Some(Recreated(created.value));
          }
          var text := SettleAttempt();
          return Some(Failed(text, reasoning, RecreateFailed));
        }
        var text := SettleAttempt();
        r := Some(Failed(text, reasoning, SendError(error)));
      case Cancelled(cause) =>
        var text := SettleAttempt();
        r := Some(Failed(text, reasoning, Cause(cause)));
      case WindowFired(waiting) =>
        if !waiting {
          var text := SettleAttempt();
          r := Some(Failed(text, reasoning, ReplyTimedOut));
        }
      case HandshakeFired =>
        if !sent {
          var text := SettleAttempt();
          r := Some(Failed(text, reasoning, NotAccepted));
        }
      case StallTick(wedge, stall) =>
        if wedge.Some? {
          var text := SettleAttempt();
          return Some(ToolWedge(text, reasoning, wedge.value));
        }
        if stall.Some? {
          var text := SettleAttempt();
          r := Some(Failed(text, reasoning, Stalled(stall.value)));
        }
      case ConsentReply(records) =>
        RecordConsents(records);
      case MirrorTick =>
      case BusClosed =>
        var text := SettleAttempt();
        r := Some(Reattach(text, reasoning));
      case Bus(session, k) =>
        if session != "" && session != sid {
          return;
        }
        match k {
          case Idle =>
            if sent {
              var text := SettleAttempt();
              r := Some(Collected(TrimSpace(text), reasoning));
            }
          case Ask(id, records) =>
            if id != "" {
              asks := asks + [id];
              RecordConsents(records);
            }
          case ProviderError(m) =>
            var text := SettleAttempt();
            r := Some(Failed(text, reasoning, Provider(m)));
          case _ =>
            if sent {
              OnContent(k);
            }
        }
    }

    method Drain(trace: seq<Input>) returns (r: Option<Result>)
      modifies this, ledger
      ensures match Run(old(Value()), trace, sid, recreated)
              case Draining(s) => Value() == s && r == None
              case Ended(s, res) => Value() == s && r == Some(res)
    {
      hide Step;
      r := None;
      for i := 0 to |trace|
        invariant r == None && Run(old(Value()), trace[..i], sid, recreated) == Draining(Value())
      {
        assert trace[..i + 1][..i] == trace[..i];
        r := Handle(trace[i]);
        if r.Some? {
          EndedStays(old(Value()), trace, i + 1, sid, recreated);
          return;
        }
      }
      assert trace[..|trace|] == trace;
    }
  }

  lemma OpsSnoc(records: seq<Consent>, i: nat)
    requires i < |records|
    ensures OpsOf(records[..i + 1])[..i] == OpsOf(records[..i]) && OpsOf(records[..i + 1])[i] == OpOf(records[i])
    ensures |OpsOf(records[..i + 1])| == i + 1
  {
  }

  lemma {:induction false} EndedStays(s: State, trace: seq<Input>, i: nat, sid: string, recreated: bool)
    requires i <= |trace| && Run(s, trace[..i], sid, recreated).Ended?
    ensures Run(s, trace, sid, recreated) == Run(s, trace[..i], sid, recreated)
    decreases |trace|
  {
    hide Step;
    if i < |trace| {
      var n := |trace| - 1;
      assert trace[..n][..i] == trace[..i];
      EndedStays(s, trace[..n], i, sid, recreated);
    } else {
      assert trace[..i] == trace;
    }
  }

  // ---------------------------------------------------------------- what an attempt is not told

  /** Another session's events, and whatever a prior turn still sends before our message was accepted. */
  predicate Foreign(before: seq<Input>, e: Input, sid: string) {
    e.Bus? && ((e.session != "" && e.session != sid) || (Accepted !in before && (e.kind.Idle? || IsContent(e.kind))))
  }

  function WithoutForeign(trace: seq<Input>, sid: string): seq<Input> {
    if trace == [] then []
    else
      var n := |trace| - 1;
      WithoutForeign(trace[..n], sid) + if Foreign(trace[..n], trace[n], sid) then [] else [trace[n]]
  }

  lemma ContentKeepsSent(s: State, k: Kind)
    requires IsContent(k)
    ensures Content(s, k).sent == s.sent
  {
    hide S.Pieces, S.End, CleanText, FoldedBodies;
    match k
    case Delta(text, _) => HeardKeepsSent(s, S.Pieces(s.seg, text));
                           HeardKeepsSent(Observed(s, k), S.Pieces(s.seg, text));
    case TextPart(text) =>
      CommittedKeepsSent(Observed(s, k).(liveText := "", liveReasoning := "", seg := S.START), FoldedBodies(text));
    case _ =>
  }

  function Observed(s: State, k: Kind): State {
    s.(observed := s.observed + [k], ledger := LedgerAfter(s.ledger, k))
  }

  lemma {:induction false} HeardKeepsSent(s: State, ps: seq<S.Piece>)
    ensures HeardAll(s, ps).sent == s.sent
  {
    if ps != [] {
      HeardKeepsSent(s, ps[..|ps| - 1]);
    }
  }

  lemma {:induction false} CommittedKeepsSent(s: State, bodies: seq<string>)
    ensures CommittedAll(s, bodies).sent == s.sent
  {
    if bodies != [] {
      CommittedKeepsSent(s, bodies[..|bodies| - 1]);
    }
  }

  lemma StepSent(s: State, e: Input, sid: string, recreated: bool)
    requires Step(s, e, sid, recreated).Draining?
    ensures Step(s, e, sid, recreated).s.sent <==> s.sent || e == Accepted
  {
    hide Content, Settled;
    if e.Bus? && IsContent(e.kind) {
      ContentKeepsSent(s, e.kind);
    }
  }

  lemma {:induction false} SentIffAccepted(s: State, trace: seq<Input>, sid: string, recreated: bool)
    requires !s.sent && Run(s, trace, sid, recreated).Draining?
    ensures Run(s, trace, sid, recreated).s.sent <==> Accepted in trace
  {
    hide Step;
    if trace != [] {
      var n := |trace| - 1;
      SentIffAccepted(s, trace[..n], sid, recreated);
      StepSent(Run(s, trace[..n], sid, recreated).s, trace[n], sid, recreated);
      assert trace == trace[..n] + [trace[n]];
    }
  }

  lemma ForeignIgnored(s: State, before: seq<Input>, e: Input, sid: string, recreated: bool)
    requires Foreign(before, e, sid) && (s.sent <==> Accepted in before)
    ensures Step(s, e, sid, recreated) == Draining(s)
  {
    hide Content;
  }

  lemma RunSnoc(s: State, trace: seq<Input>, e: Input, sid: string, recreated: bool)
    ensures Run(s, trace + [e], sid, recreated) ==
              match Run(s, trace, sid, recreated)
              case Draining(s1) => Step(s1, e, sid, recreated)
              case Ended(s1, r) => Ended(s1, r)
  {
    assert (trace + [e])[..|trace|] == trace;
  }

  /** Non-interference: deleting everything that belongs to other sessions, and the whole output of a prior turn still
      draining before our message was accepted, changes neither the outcome nor any part of the state: not the
      text, the reasoning, the tool ledger, what the stall monitor saw, or the asks raised. */
  lemma {:induction false} ForeignEventsDoNotMatter(ledger: L.Ledger, trace: seq<Input>, sid: string, recreated: bool)
    ensures Run(Initial(ledger), trace, sid, recreated) ==
            Run(Initial(ledger), WithoutForeign(trace, sid), sid, recreated)
  {
    hide Step, Foreign;
    if trace != [] {
      var n := |trace| - 1;
      var s := Initial(ledger);
      ForeignEventsDoNotMatter(ledger, trace[..n], sid, recreated);
      var o := Run(s, trace[..n], sid, recreated);
      if Foreign(trace[..n], trace[n], sid) {
        if o.Draining? {
          SentIffAccepted(s, trace[..n], sid, recreated);
          ForeignIgnored(o.s, trace[..n], trace[n], sid, recreated);
        }
        assert WithoutForeign(trace, sid) == WithoutForeign(trace[..n], sid);
      } else {
        RunSnoc(s, WithoutForeign(trace[..n], sid), trace[n], sid, recreated);
      }
    }
  }

  lemma {:induction false} RecreatedOnce(s: State, trace: seq<Input>, sid: string, recreated: bool)
    ensures var o := Run(s, trace, sid, recreated); o.Ended? && o.r.Recreated? ==> !recreated
  {
    hide Content, Settled;
    if trace != [] {
      RecreatedOnce(s, trace[..|trace| - 1], sid, recreated);
    }
  }

  predicate OwnIdle(e: Input, sid: string) {
    Own(e, sid) && e.kind.Idle?
  }

  /** Position j is an idle of the attempt's own session, after the message was accepted, that the loop was still
      there to receive. */
  predicate CompletesAt(ledger: L.Ledger, trace: seq<Input>, sid: string, recreated: bool, j: nat) {
    && j < |trace| && OwnIdle(trace[j], sid) && Accepted in trace[..j]
    && Run(Initial(ledger), trace[..j], sid, recreated).Draining?
  }

  /** A turn is complete exactly at the first idle of its own session after the message was accepted, unless it
      ended before: a stale idle never completes it. */
  lemma {:induction false} CollectedIff(ledger: L.Ledger, trace: seq<Input>, sid: string, recreated: bool)
    ensures var o := Run(Initial(ledger), trace, sid, recreated);
            (o.Ended? && o.r.Collected?) <==> exists j: nat :: CompletesAt(ledger, trace, sid, recreated, j)
  {
    hide Step, CompletesAt, OwnIdle;
    if trace == [] {
      forall j: nat ensures !CompletesAt(ledger, trace, sid, recreated, j) {
        CompletesBefore(ledger, trace, sid, recreated, j);
      }
    } else {
      var n := |trace| - 1;
      var s := Initial(ledger);
      CollectedIff(ledger, trace[..n], sid, recreated);
      var o := Run(s, trace[..n], sid, recreated);
      forall j: nat
        ensures j != n ==>
                  (CompletesAt(ledger, trace, sid, recreated, j)
                   <==> CompletesAt(ledger, trace[..n], sid, recreated, j)) {
        CompletesEarlier(ledger, trace, sid, recreated, j);
      }
      forall j: nat ensures CompletesAt(ledger, trace[..n], sid, recreated, j) ==> j < n {
        CompletesBefore(ledger, trace[..n], sid, recreated, j);
      }
      CompletesLast(ledger, trace, sid, recreated);
    }
  }

  lemma CompletesBefore(ledger: L.Ledger, trace: seq<Input>, sid: string, recreated: bool, j: nat)
    ensures CompletesAt(ledger, trace, sid, recreated, j) ==> j < |trace|
  {
    hide Run;
  }

  lemma CompletesEarlier(ledger: L.Ledger, trace: seq<Input>, sid: string, recreated: bool, j: nat)
    requires trace != []
    ensures var n := |trace| - 1;
            j != n ==>
              (CompletesAt(ledger, trace, sid, recreated, j)
               <==> CompletesAt(ledger, trace[..n], sid, recreated, j))
  {
    hide Run, OwnIdle;
    var n := |trace| - 1;
    if j < n {
      assert trace[..n][j] == trace[j] && trace[..n][..j] == trace[..j];
    }
  }

  lemma CompletesLast(ledger: L.Ledger, trace: seq<Input>, sid: string, recreated: bool)
    requires trace != []
    ensures var n := |trace| - 1;
            var o := Run(Initial(ledger), trace[..n], sid, recreated);
            var o' := Run(Initial(ledger), trace, sid, recreated);
            && (CompletesAt(ledger, trace, sid, recreated, n) <==> o.Draining? && o'.Ended? && o'.r.Collected?)
            && (o.Ended? ==> o' == o)
  {
    hide Step, OwnIdle;
    var n := |trace| - 1;
    var o := Run(Initial(ledger), trace[..n], sid, recreated);
    if o.Draining? {
      SentIffAccepted(Initial(ledger), trace[..n], sid, recreated);
      StepCollects(o.s, trace[n], sid, recreated);
    }
  }

  lemma StepCollects(s: State, e: Input, sid: string, recreated: bool)
    ensures var o := Step(s, e, sid, recreated); (o.Ended? && o.r.Collected?) <==> OwnIdle(e, sid) && s.sent
  {
    hide Settled, Content;
  }

  // ---------------------------------------------------------------- what an attempt collects

  /** The content the attempt takes in: its own session's, after acceptance. */
  function Taken(trace: seq<Input>, sid: string): seq<Kind> {
    if trace == [] then []
    else
      var n := |trace| - 1;
      var e := trace[n];
      Taken(trace[..n], sid) +
      if e.Bus? && IsContent(e.kind) && !Foreign(trace[..n], e, sid) then [e.kind] else []
  }

  /** The completed parts, cleaned of thoughts, as paragraphs. */
  function Paragraphs(ks: seq<Kind>): string {
    if ks == [] then ""
    else
      var k := ks[|ks| - 1];
      var before := Paragraphs(ks[..|ks| - 1]);
      if k.TextPart? && CleanText(k.text) != "" then before + CleanText(k.text) + "\n\n" else before
  }

  /** The stream of deltas since the last completed text, as one text. A delta marked as reasoning is not part of
      it, except inside a thought, where the mark is not trusted. */
  function Streamed(ks: seq<Kind>): string {
    if ks == [] then ""
    else
      var k := ks[|ks| - 1];
      var before := Streamed(ks[..|ks| - 1]);
      if k.TextPart? && k.text != "" then ""
      else if k.Delta? && (!k.isReasoning || S.End(S.START, before).inBody) then before + k.text
      else before
  }

  /** The state agrees with the content taken in so far. */
  predicate Agrees(s: State, ks: seq<Kind>) {
    && s.reply == Paragraphs(ks)
    && s.seg == S.End(S.START, Streamed(ks))
    && s.liveText == S.Outs(S.Pieces(S.START, Streamed(ks))).text
    && s.observed == ks
  }

  lemma {:induction false} HeardText(s: State, ps: seq<S.Piece>)
    ensures var s' := HeardAll(s, ps);
            s'.liveText == s.liveText + S.Outs(ps).text && s'.reply == s.reply && s'.ledger == s.ledger
            && s'.observed == s.observed && s'.seg == s.seg
  {
    if ps != [] {
      HeardText(s, ps[..|ps| - 1]);
    }
  }

  lemma {:induction false} CommittedFrame(s: State, bodies: seq<string>)
    ensures var s' := CommittedAll(s, bodies);
            s'.(committed := s.committed, reasoning := s.reasoning) == s
  {
    if bodies != [] {
      CommittedFrame(s, bodies[..|bodies| - 1]);
    }
  }

  lemma SnocReferences(ks: seq<Kind>, k: Kind)
    ensures (ks + [k])[..|ks|] == ks && (ks + [k])[|ks|] == k
  {
  }

  lemma ContentAgrees(s: State, ks: seq<Kind>, k: Kind)
    requires Agrees(s, ks) && IsContent(k)
    ensures Agrees(Content(s, k), ks + [k])
  {
    if k.TextPart? {
      PartAgrees(s, ks, k);
    } else {
      StreamAgrees(s, ks, k);
    }
  }

  lemma PartAgrees(s: State, ks: seq<Kind>, k: Kind)
    requires Agrees(s, ks) && k.TextPart?
    ensures Agrees(Content(s, k), ks + [k])
  {
    SnocReferences(ks, k);
    hide S.Pieces, S.End, S.Outs, LedgerAfter, CommittedAll, CleanText, FoldedBodies, Fed;
    if k.text != "" {
      CommittedFrame(Observed(s, k).(liveText := "", liveReasoning := "", seg := S.START), FoldedBodies(k.text));
      S.RunNothing(S.START);
    } else {
      EmptyPart();
    }
  }

  lemma StreamAgrees(s: State, ks: seq<Kind>, k: Kind)
    requires Agrees(s, ks) && IsContent(k) && !k.TextPart?
    ensures Agrees(Content(s, k), ks + [k])
  {
    SnocReferences(ks, k);
    hide S.Pieces, S.End, S.Outs, LedgerAfter, HeardAll, TextPartDone, CleanText;
    if k.Delta? && !(k.isReasoning && !s.seg.inBody) {
      HeardText(Observed(s, k), S.Pieces(s.seg, k.text));
      S.RunConcat(S.START, Streamed(ks), k.text);
      S.OutsConcat(S.Pieces(S.START, Streamed(ks)), S.Pieces(s.seg, k.text));
    }
  }

  lemma EmptyPart()
    ensures CleanText("") == ""
  {
    S.RunNothing(S.START);
  }

  lemma StepTakes(s: State, e: Input, sid: string, recreated: bool)
    requires Step(s, e, sid, recreated).Draining?
    ensures var s' := Step(s, e, sid, recreated).s;
            if e.Bus? && IsContent(e.kind) && (e.session == "" || e.session == sid) && s.sent
            then s' == Content(s, e.kind)
            else s'.(sent := s.sent, asks := s.asks, ledger := s.ledger) == s
  {
    hide Content, Settled;
  }

  /** At every moment of an attempt the durable text is that of the completed parts alone, the live text is the text
      of the deltas since the last one (however they were cut), and the monitor has seen exactly the content of
      this turn. */
  lemma {:induction false} StateAgrees(l: L.Ledger, trace: seq<Input>, sid: string, recreated: bool)
    requires Run(Initial(l), trace, sid, recreated).Draining?
    ensures Agrees(Run(Initial(l), trace, sid, recreated).s, Taken(trace, sid))
  {
    hide Step, Content, Agrees;
    if trace == [] {
      InitialAgrees(l);
    } else {
      var n := |trace| - 1;
      StateAgrees(l, trace[..n], sid, recreated);
      var s := Run(Initial(l), trace[..n], sid, recreated).s;
      SentIffAccepted(Initial(l), trace[..n], sid, recreated);
      StepTakes(s, trace[n], sid, recreated);
      var ks := Taken(trace[..n], sid);
      if trace[n].Bus? && IsContent(trace[n].kind) && !Foreign(trace[..n], trace[n], sid) {
        ContentAgrees(s, ks, trace[n].kind);
      } else {
        assert Taken(trace, sid) == ks;
        AgreesFrame(s, Run(Initial(l), trace, sid, recreated).s, ks);
      }
    }
  }

  lemma InitialAgrees(l: L.Ledger)
    ensures Agrees(Initial(l), [])
  {
    S.RunNothing(S.START);
  }

  lemma AgreesFrame(s: State, s': State, ks: seq<Kind>)
    requires Agrees(s, ks) && s'.(sent := s.sent, asks := s.asks, ledger := s.ledger) == s
    ensures Agrees(s', ks)
  {
  }

  // ---------------------------------------------------------------- what an attempt records

  /** The operations on the tool ledger that an input causes, after these inputs: its content, if it is taken in, and
      what the consent layer has to say. */
  function RecordedBy(before: seq<Input>, e: Input, sid: string): seq<L.Op> {
    if e.ConsentReply? then OpsOf(e.records)
    else if !e.Bus? || (e.session != "" && e.session != sid) then []
    else if e.kind.Ask? then (if e.kind.id == "" then [] else OpsOf(e.kind.records))
    else if Accepted !in before then []
    else
      match e.kind
      case ToolIssued(tool, now) => [L.Start(tool, now)]
      case ToolResolved(tool, args, output, isError, now) => [L.Result(tool, args, output, isError, now)]
      case ToolPart(tool, args, output, isError, now) => [L.Part(tool, args, output, isError, now)]
      case _ => []
  }

  function Recorded(trace: seq<Input>, sid: string): seq<L.Op> {
    if trace == [] then []
    else
      var n := |trace| - 1;
      Recorded(trace[..n], sid) + RecordedBy(trace[..n], trace[n], sid)
  }

  lemma ApplyOne(l: L.Ledger, op: L.Op)
    ensures L.ApplyAll(l, [op]) == L.Apply(l, op) && L.ApplyAll(l, []) == l
  {
    hide L.Apply;
    assert [op][..0] == [];
  }

  lemma ContentLedger(s: State, k: Kind)
    requires IsContent(k)
    ensures Content(s, k).ledger == LedgerAfter(s.ledger, k)
  {
    hide S.Pieces, S.End, CleanText, FoldedBodies, LedgerAfter, HeardAll, CommittedAll;
    if k.Delta? {
      HeardText(Observed(s, k), S.Pieces(s.seg, k.text));
    } else if k.TextPart? {
      CommittedFrame(Observed(s, k).(liveText := "", liveReasoning := "", seg := S.START), FoldedBodies(k.text));
    }
  }

  lemma LedgerOfContent(l: L.Ledger, before: seq<Input>, k: Kind, session: string, sid: string)
    requires IsContent(k) && Accepted in before && (session == "" || session == sid)
    ensures LedgerAfter(l, k) == L.ApplyAll(l, RecordedBy(before, Bus(session, k), sid))
  {
    hide L.Started, L.ResolvedTyped, L.ResolvedPart;
    ApplyOne(l, L.Start("", 0));
    if k.ToolIssued? || k.ToolResolved? || k.ToolPart? {
      ApplyOne(l, RecordedBy(before, Bus(session, k), sid)[0]);
    }
  }

  /** One input changes the ledger by what it records, whether or not it ends the attempt. */
  lemma StepRecords(s: State, before: seq<Input>, e: Input, sid: string, recreated: bool)
    requires s.sent <==> Accepted in before
    ensures Step(s, e, sid, recreated).s.ledger == L.ApplyAll(s.ledger, RecordedBy(before, e, sid))
  {
    ApplyOne(s.ledger, L.Start("", 0));
    SettledLedger(s);
    hide Content, LedgerAfter, Settled, FinalText, TrimSpace, OpsOf, L.ApplyAll, L.Apply;
    if e.Bus? && IsContent(e.kind) && (e.session == "" || e.session == sid) && s.sent {
      ContentLedger(s, e.kind);
      LedgerOfContent(s.ledger, before, e.kind, e.session, sid);
    }
  }

  lemma SettledLedger(s: State)
    ensures Settled(s).ledger == s.ledger
  {
    hide Blank, FoldReasoningTail;
  }

  /** The inputs the loop received: up to the one that ended it, if one did. */
  function Received(l: L.Ledger, trace: seq<Input>, sid: string, recreated: bool): seq<Input> {
    if trace == [] || Run(Initial(l), trace[..|trace| - 1], sid, recreated).Draining? then trace
    else Received(l, trace[..|trace| - 1], sid, recreated)
  }

  /** At every moment and at every exit the tool ledger is what it was before the attempt, with exactly the tool calls
      and resolutions of this turn's content and the consent records of its asks and replies, in the order they
      came. */
  lemma {:induction false} LedgerAgrees(l: L.Ledger, trace: seq<Input>, sid: string, recreated: bool)
    ensures Run(Initial(l), trace, sid, recreated).s.ledger ==
              L.ApplyAll(l, Recorded(Received(l, trace, sid, recreated), sid))
  {
    hide Step, RecordedBy, L.ApplyAll;
    if trace == [] {
      ApplyOne(l, L.Start("", 0));
    } else {
      var n := |trace| - 1;
      LedgerAgrees(l, trace[..n], sid, recreated);
      var o := Run(Initial(l), trace[..n], sid, recreated);
      if o.Draining? {
        DrainingReceived(l, trace[..n], sid, recreated);
        SentIffAccepted(Initial(l), trace[..n], sid, recreated);
        StepRecords(o.s, trace[..n], trace[n], sid, recreated);
        L.ApplyConcat(l, Recorded(trace[..n], sid), RecordedBy(trace[..n], trace[n], sid));
      }
    }
  }

  lemma DrainingReceived(l: L.Ledger, trace: seq<Input>, sid: string, recreated: bool)
    requires Run(Initial(l), trace, sid, recreated).Draining?
    ensures Received(l, trace, sid, recreated) == trace
  {
    hide Step;
  }

  predicate Own(e: Input, sid: string) {
    e.Bus? && (e.session == "" || e.session == sid)
  }

  function RaisedBy(e: Input, sid: string): seq<string> {
    if Own(e, sid) && e.kind.Ask? && e.kind.id != "" then [e.kind.id] else []
  }

  /** The asks of the session that these inputs raise, in order. */
  function Raised(trace: seq<Input>, sid: string): seq<string> {
    if trace == [] then [] else Raised(trace[..|trace| - 1], sid) + RaisedBy(trace[|trace| - 1], sid)
  }

  lemma ContentAsks(s: State, k: Kind)
    requires IsContent(k)
    ensures Content(s, k).asks == s.asks
  {
    hide S.Pieces, S.End, CleanText, FoldedBodies, LedgerAfter, HeardAll, CommittedAll;
    if k.Delta? {
      HeardAsks(Observed(s, k), S.Pieces(s.seg, k.text));
    } else if k.TextPart? {
      CommittedFrame(Observed(s, k).(liveText := "", liveReasoning := "", seg := S.START), FoldedBodies(k.text));
    }
  }

  lemma {:induction false} HeardAsks(s: State, ps: seq<S.Piece>)
    ensures HeardAll(s, ps).asks == s.asks
  {
    if ps != [] {
      HeardAsks(s, ps[..|ps| - 1]);
    }
  }

  lemma StepAsks(s: State, e: Input, sid: string, recreated: bool)
    ensures Step(s, e, sid, recreated).s.asks == s.asks + RaisedBy(e, sid)
  {
    SettledAsks(s);
    hide Content, Settled, LedgerAfter, FinalText, TrimSpace, OpsOf, L.ApplyAll;
    assert s.asks + [] == s.asks;
    if Own(e, sid) && IsContent(e.kind) {
      ContentAsks(s, e.kind);
    }
  }

  lemma SettledAsks(s: State)
    ensures Settled(s).asks == s.asks
  {
    hide Blank, FoldReasoningTail;
  }

  /** Every ask of the own session, before and after acceptance, is put before the consent layer once, in order, and
      no other session's is. */
  lemma {:induction false} AsksAgree(l: L.Ledger, trace: seq<Input>, sid: string, recreated: bool)
    ensures Run(Initial(l), trace, sid, recreated).s.asks == Raised(Received(l, trace, sid, recreated), sid)
  {
    hide Step;
    if trace != [] {
      var n := |trace| - 1;
      AsksAgree(l, trace[..n], sid, recreated);
      var o := Run(Initial(l), trace[..n], sid, recreated);
      if o.Draining? {
        DrainingReceived(l, trace[..n], sid, recreated);
        StepAsks(o.s, trace[n], sid, recreated);
      }
    }
  }

  // ---------------------------------------------------------------- what ends an attempt

  /** The error that an input means for an attempt which received these inputs before, if it means one. */
  function ErrorOf(before: seq<Input>, e: Input, sid: string, recreated: bool): Option<Error> {
    if e.Cancelled? then Some(Cause(e.cause))
    else if e == WindowFired(false) then Some(ReplyTimedOut)
    else if e.HandshakeFired? && Accepted !in before then Some(NotAccepted)
    else if e.StallTick? && e.wedge == None && e.stall.Some? then Some(Stalled(e.stall.value))
    else if e.SendFailed? && (recreated || !e.gone) then Some(SendError(e.error))
    else if e.SendFailed? && e.created == None then Some(RecreateFailed)
    else if Own(e, sid) && e.kind.ProviderError? then Some(Provider(e.kind.message))
    else None
  }

  /** What ends an attempt, and how. A timer of the handshake that fires after acceptance, and one of the reply window
      that fires while the operator is being waited for, change nothing. */
  lemma EndsIff(l: L.Ledger, trace: seq<Input>, e: Input, sid: string, recreated: bool)
    requires Run(Initial(l), trace, sid, recreated).Draining?
    ensures var (was, o) := (Run(Initial(l), trace, sid, recreated), Run(Initial(l), trace + [e], sid, recreated));
            && (o.Ended? && o.r.Collected? <==> OwnIdle(e, sid) && Accepted in trace)
            && (o.Ended? && o.r.Reattach? <==> e == BusClosed)
            && (o.Ended? && o.r.ToolWedge? <==> e.StallTick? && e.wedge.Some?)
            && (o.Ended? && o.r.ToolWedge? ==> o.r.tool == e.wedge.value)
            && (o.Ended? && o.r.Recreated? <==> e.SendFailed? && e.gone && !recreated && e.created.Some?)
            && (o.Ended? && o.r.Recreated? ==> o.r.newSid == e.created.value)
            && (o.Ended? && o.r.Failed? <==> ErrorOf(trace, e, sid, recreated).Some?)
            && (o.Ended? && o.r.Failed? ==> o.r.error == ErrorOf(trace, e, sid, recreated).value)
            && (e == WindowFired(true) || (e == HandshakeFired && Accepted in trace) ==> o == was)
  {
    SentIffAccepted(Initial(l), trace, sid, recreated);
    RunSnoc(Initial(l), trace, e, sid, recreated);
    StepEnds(Run(Initial(l), trace, sid, recreated).s, trace, e, sid, recreated);
    hide Step;
  }

  lemma StepEnds(s: State, before: seq<Input>, e: Input, sid: string, recreated: bool)
    requires s.sent <==> Accepted in before
    ensures var o := Step(s, e, sid, recreated);
            && (o.Ended? && o.r.Collected? <==> OwnIdle(e, sid) && s.sent)
            && (o.Ended? && o.r.Reattach? <==> e == BusClosed)
            && (o.Ended? && o.r.ToolWedge? <==> e.StallTick? && e.wedge.Some?)
            && (o.Ended? && o.r.ToolWedge? ==> o.r.tool == e.wedge.value)
            && (o.Ended? && o.r.Recreated? <==> e.SendFailed? && e.gone && !recreated && e.created.Some?)
            && (o.Ended? && o.r.Recreated? ==> o.r.newSid == e.created.value)
            && (o.Ended? && o.r.Failed? <==> ErrorOf(before, e, sid, recreated).Some?)
            && (o.Ended? && o.r.Failed? ==> o.r.error == ErrorOf(before, e, sid, recreated).value)
            && (e == WindowFired(true) || (e == HandshakeFired && s.sent) ==> o == Draining(s))
  {
    hide Settled, Content, FinalText, TrimSpace, L.ApplyAll;
  }

  function TextOf(ks: seq<Kind>): string {
    Paragraphs(ks) + S.Outs(S.Pieces(S.START, Streamed(ks))).text
  }

  /** Nothing that streamed is dropped: whichever way an attempt ends, it hands over the paragraphs of its completed
      parts followed by the text streamed since, trimmed only if the turn completed. */
  lemma TextIsComplete(l: L.Ledger, trace: seq<Input>, e: Input, sid: string, recreated: bool)
    requires Run(Initial(l), trace, sid, recreated).Draining? && Run(Initial(l), trace + [e], sid, recreated).Ended?
    ensures match Run(Initial(l), trace + [e], sid, recreated).r
            case Collected(text, _) => text == TrimSpace(TextOf(Taken(trace, sid)))
            case Failed(text, _, _) => text == TextOf(Taken(trace, sid))
            case Reattach(text, _) => text == TextOf(Taken(trace, sid))
            case ToolWedge(text, _, _) => text == TextOf(Taken(trace, sid))
            case Recreated(_) => e.SendFailed?
  {
    hide Step, Agrees, Paragraphs, Streamed, Taken, Initial, FinalText, TextOf;
    StateAgrees(l, trace, sid, recreated);
    RunSnoc(Initial(l), trace, e, sid, recreated);
    var s := Run(Initial(l), trace, sid, recreated).s;
    StepText(s, e, sid, recreated);
    AgreedText(s, Taken(trace, sid));
  }

  lemma AgreedText(s: State, ks: seq<Kind>)
    requires Agrees(s, ks)
    ensures FinalText(s) == TextOf(ks)
  {
  }

  lemma StepText(s: State, e: Input, sid: string, recreated: bool)
    requires Step(s, e, sid, recreated).Ended?
    ensures match Step(s, e, sid, recreated).r
            case Collected(text, _) => text == TrimSpace(FinalText(s))
            case Failed(text, _, _) => text == FinalText(s)
            case Reattach(text, _) => text == FinalText(s)
            case ToolWedge(text, _, _) => text == FinalText(s)
            case Recreated(_) => e.SendFailed?
  {
    hide Settled, Content, FinalText, TrimSpace, S.START;
  }

  // ---------------------------------------------------------------- the thought that is still open

  function SegOf(ks: seq<Kind>): S.Seg {
    S.End(S.START, Streamed(ks))
  }

  predicate OnStream(ks: seq<Kind>, k: Kind) {
    k.Delta? && (!k.isReasoning || SegOf(ks).inBody)
  }

  /** The model's own reasoning that the live tail holds: what came since a thought was committed, a text part or a
      reasoning part was completed. */
  function Native(ks: seq<Kind>): string {
    if ks == [] then ""
    else
      var (before, k) := (ks[..|ks| - 1], ks[|ks| - 1]);
      if (k.TextPart? || k.ReasoningPart?) && k.text != "" then ""
      else if OnStream(before, k) then NativeAfter(Native(before), SegOf(before), k.text)
      else if k.Delta? then Native(before) + k.text
      else Native(before)
  }

  function NativeAfter(n: string, seg: S.Seg, text: string): string {
    if text == "" then n
    else NativeByte(NativeAfter(n, seg, text[..|text| - 1]), S.End(seg, text[..|text| - 1]), text[|text| - 1])
  }

  function NativeByte(n: string, seg: S.Seg, c: char): string {
    var ps := S.Emit(seg, c);
    if ps != [] && ps[0].Closed? && ps[0].body != "" then "" else n
  }

  /** How much of the open thought was there when a completed reasoning part last tore it; 0 if none did. */
  function Torn(ks: seq<Kind>): nat {
    if ks == [] then 0
    else
      var (before, k) := (ks[..|ks| - 1], ks[|ks| - 1]);
      if k.TextPart? && k.text != "" then 0
      else if k.ReasoningPart? && k.text != "" then |OpenBody(SegOf(before))|
      else if OnStream(before, k) then TornAfter(Torn(before), SegOf(before), k.text)
      else Torn(before)
  }

  function TornAfter(d: nat, seg: S.Seg, text: string): nat {
    if text == "" then d
    else TornByte(TornAfter(d, seg, text[..|text| - 1]), S.End(seg, text[..|text| - 1]), text[|text| - 1])
  }

  function TornByte(d: nat, seg: S.Seg, c: char): nat {
    var ps := S.Emit(seg, c);
    if ps != [] && ps[0].Closed? then 0 else d
  }

  /** The live tail: the native reasoning n, then what the open thought has shown since its first d bytes. */
  predicate TailIs(s: State, n: string, d: nat) {
    && S.SegOk(s.seg)
    && (d > 0 ==> n == "")
    && if s.seg.inBody then d <= |s.seg.body| && T.Settles(s.seg.body[d..])
       && s.liveReasoning == n + T.ShownAs(s.seg.body[d..])
       else d == 0 && s.liveReasoning == n
  }

  lemma {:induction false} HeardConcat(s: State, ps: seq<S.Piece>, qs: seq<S.Piece>)
    ensures HeardAll(s, ps + qs) == HeardAll(HeardAll(s, ps), qs)
  {
    hide Heard;
    if qs == [] {
      assert ps + qs == ps;
    } else {
      assert (ps + qs)[..|ps + qs| - 1] == ps + qs[..|qs| - 1];
      HeardConcat(s, ps, qs[..|qs| - 1]);
    }
  }

  /** What one byte of a delta does. */
  function FedByte(s: State, c: char): State {
    HeardAll(s, S.Emit(s.seg, c)).(seg := S.Next(s.seg, c))
  }

  lemma HeardSeg(s: State, seg: S.Seg, ps: seq<S.Piece>)
    ensures HeardAll(s.(seg := seg), ps) == HeardAll(s, ps).(seg := seg)
  {
    if ps != [] {
      HeardSeg(s, seg, ps[..|ps| - 1]);
    }
  }

  lemma FedSnoc(s: State, text: string, c: char)
    ensures Fed(s, text + [c]) == FedByte(Fed(s, text), c)
  {
    hide HeardAll, S.Pieces, S.End, S.Emit, S.Next;
    S.SnocRun(s.seg, text, c);
    var seg := S.End(s.seg, text);
    HeardConcat(s, S.Pieces(s.seg, text), S.Emit(seg, c));
    HeardSeg(HeardAll(s, S.Pieces(s.seg, text)), seg, S.Emit(seg, c));
  }

  lemma HeardOne(s: State, p: S.Piece)
    ensures HeardAll(s, [p]) == Heard(s, p)
  {
    assert [p][..0] == [];
  }

  lemma FedByteTail(s: State, c: char, n: string, d: nat)
    requires TailIs(s, n, d)
    ensures TailIs(FedByte(s, c), NativeByte(n, s.seg, c), TornByte(d, s.seg, c))
  {
    S.SegOkStep(s.seg, c);
    OutsideBody(s.seg);
    var p := s.seg.pending + [c];
    hide S.SegOk, S.Tags, S.CouldBe, T.Settles, T.ShownAs;
    if S.Judge(s.seg.inBody, p).Take? {
      TakenTail(s, c, n, d);
    } else if S.Judge(s.seg.inBody, p).PassOn? {
      HeardOne(s, S.Pass(s.seg.inBody, p));
      if s.seg.inBody {
        PassedTail(s, c, n, d);
      }
    }
  }

  lemma TakenTail(s: State, c: char, n: string, d: nat)
    requires TailIs(s, n, d) && S.Judge(s.seg.inBody, s.seg.pending + [c]).Take? && S.SegOk(S.Next(s.seg, c))
    requires !s.seg.inBody ==> s.seg.body == ""
    ensures TailIs(FedByte(s, c), NativeByte(n, s.seg, c), TornByte(d, s.seg, c))
  {
    hide S.SegOk, S.Tags, S.CouldBe, T.Settles, T.ShownAs;
    T.SettlesNothing();
    HeardOne(s, S.Emit(s.seg, c)[0]);
    assert s.seg.body[|s.seg.body|..] == "" && n + "" == n;
  }

  lemma PassedTail(s: State, c: char, n: string, d: nat)
    requires TailIs(s, n, d) && s.seg.inBody && S.Judge(true, s.seg.pending + [c]).PassOn?
    ensures var p := s.seg.pending + [c];
            && (s.seg.body + p)[d..] == s.seg.body[d..] + p
            && T.Settles(s.seg.body[d..] + p)
            && s.liveReasoning + S.Shown(p) == n + T.ShownAs(s.seg.body[d..] + p)
  {
    hide S.Judge, S.CouldBe, T.Settles, T.ShownAs, S.Shown, S.CloseTags;
    T.PieceSettles(s.seg.pending, c);
    T.ShownConcat(s.seg.body[d..], s.seg.pending + [c]);
  }

  lemma OutsideBody(seg: S.Seg)
    requires S.SegOk(seg)
    ensures !seg.inBody ==> seg.body == ""
  {
  }

  lemma {:induction false} FedTail(s: State, text: string, n: string, d: nat)
    requires TailIs(s, n, d)
    ensures TailIs(Fed(s, text), NativeAfter(n, s.seg, text), TornAfter(d, s.seg, text))
    ensures Fed(s, text).seg == S.End(s.seg, text)
  {
    hide TailIs, FedByte, HeardAll, S.End, S.Pieces, NativeByte, TornByte;
    if text == "" {
      S.RunNothing(s.seg);
      assert Fed(s, "") == s by { HeardNothing(s); }
    } else {
      var m := |text| - 1;
      assert text == text[..m] + [text[m]];
      FedTail(s, text[..m], n, d);
      FedByteTail(Fed(s, text[..m]), text[m], NativeAfter(n, s.seg, text[..m]), TornAfter(d, s.seg, text[..m]));
      FedSnoc(s, text[..m], text[m]);
    }
  }

  lemma HeardNothing(s: State)
    ensures HeardAll(s, []) == s
  {
  }

  lemma SnocTail(ks: seq<Kind>, k: Kind)
    ensures var ks' := ks + [k];
            && Native(ks') == (if (k.TextPart? || k.ReasoningPart?) && k.text != "" then ""
                               else if OnStream(ks, k) then NativeAfter(Native(ks), SegOf(ks), k.text)
                               else if k.Delta? then Native(ks) + k.text
                               else Native(ks))
            && Torn(ks') == (if k.TextPart? && k.text != "" then 0
                             else if k.ReasoningPart? && k.text != "" then |OpenBody(SegOf(ks))|
                             else if OnStream(ks, k) then TornAfter(Torn(ks), SegOf(ks), k.text)
                             else Torn(ks))
  {
    assert (ks + [k])[..|ks|] == ks;
  }

  lemma ContentTail(s: State, ks: seq<Kind>, k: Kind)
    requires IsContent(k) && s.seg == SegOf(ks) && TailIs(s, Native(ks), Torn(ks))
    ensures TailIs(Content(s, k), Native(ks + [k]), Torn(ks + [k]))
  {
    SnocTail(ks, k);
    hide S.Pieces, S.End, Fed, CommittedAll, S.SegOk, SegOf, Native, Torn, NativeAfter, TornAfter, T.Settles, T.ShownAs;
    var s1 := Observed(s, k);
    T.SettlesNothing();
    if OnStream(ks, k) {
      FedTail(s1, k.text, Native(ks), Torn(ks));
    } else if k.TextPart? && k.text != "" {
      CommittedFrame(s1.(liveText := "", liveReasoning := "", seg := S.START), FoldedBodies(k.text));
      StartOk();
    } else if k.ReasoningPart? && k.text != "" {
      assert s.seg.inBody ==> s.seg.body[|s.seg.body|..] == "";
    }
  }

  lemma StartOk()
    ensures S.SegOk(S.START)
  {
  }

  lemma AgreedSeg(s: State, ks: seq<Kind>)
    requires Agrees(s, ks)
    ensures s.seg == SegOf(ks)
  {
  }

  lemma TailFrame(s: State, s': State, n: string, d: nat)
    requires TailIs(s, n, d) && s'.(sent := s.sent, asks := s.asks, ledger := s.ledger) == s
    ensures TailIs(s', n, d)
  {
  }

  lemma InitialTail(l: L.Ledger)
    ensures TailIs(Initial(l), Native([]), Torn([]))
  {
  }

  /** At every moment of an attempt the live reasoning is the native reasoning since the last reset, then the open
      thought as shown, from where a completed reasoning part last tore it. */
  lemma {:induction false} TailAgrees(l: L.Ledger, trace: seq<Input>, sid: string, recreated: bool)
    requires Run(Initial(l), trace, sid, recreated).Draining?
    ensures var ks := Taken(trace, sid); TailIs(Run(Initial(l), trace, sid, recreated).s, Native(ks), Torn(ks))
  {
    hide Step, Content, TailIs, Agrees, Native, Torn, SegOf;
    if trace == [] {
      InitialTail(l);
    } else {
      var n := |trace| - 1;
      var s := Run(Initial(l), trace[..n], sid, recreated).s;
      var ks := Taken(trace[..n], sid);
      TailAgrees(l, trace[..n], sid, recreated);
      StateAgrees(l, trace[..n], sid, recreated);
      SentIffAccepted(Initial(l), trace[..n], sid, recreated);
      StepTakes(s, trace[n], sid, recreated);
      if trace[n].Bus? && IsContent(trace[n].kind) && !Foreign(trace[..n], trace[n], sid) {
        AgreedSeg(s, ks);
        ContentTail(s, ks, trace[n].kind);
      } else {
        assert Taken(trace, sid) == ks;
        TailFrame(s, Run(Initial(l), trace, sid, recreated).s, Native(ks), Torn(ks));
      }
    }
  }

  // ---------------------------------------------------------------- thoughts are texts

  predicate TextDeltas(ks: seq<Kind>) {
    forall j :: 0 <= j < |ks| ==> ks[j].Delta? ==> Utf8Shaped(ks[j].text)
  }

  /** What the open thought has got since its first d bytes, with what is still buffered, is a text. */
  predicate RestIsText(seg: S.Seg, d: nat) {
    && S.SegOk(seg)
    && if seg.inBody then d <= |seg.body| && Utf8Shaped(seg.body[d..] + seg.pending) else d == 0
  }

  /** After k bytes of a delta: the thought that was open goes on, or one that opened in the delta. */
  ghost predicate CameFrom(seg: S.Seg, d: nat, text: string, k: nat)
    requires k <= |text|
  {
    var (e, d') := (S.End(seg, text[..k]), TornAfter(d, seg, text[..k]));
    && S.SegOk(e)
    && (!e.inBody ==> d' == 0)
    && (e.inBody ==>
          && d' <= |e.body|
          && RestFrom(seg, d, text, k, e.body[d'..] + e.pending))
  }

  ghost predicate RestFrom(seg: S.Seg, d: nat, text: string, k: nat, rest: string)
    requires k <= |text|
  {
    || (seg.inBody && d <= |seg.body| && rest == seg.body[d..] + seg.pending + text[..k])
    || exists m: nat :: OpenedAt(text, m, k, rest)
  }

  predicate OpenedAt(text: string, m: nat, k: nat, rest: string)
    requires k <= |text|
  {
    1 <= m <= k && !High(text[m - 1]) && rest == text[m..k]
  }

  lemma CameFromStep(seg: S.Seg, d: nat, text: string, k: nat)
    requires k < |text| && CameFrom(seg, d, text, k)
    ensures CameFrom(seg, d, text, k + 1)
  {
    var (e, d', c) := (S.End(seg, text[..k]), TornAfter(d, seg, text[..k]), text[k]);
    S.SegOkStep(e, c);
    SnocTorn(d, seg, text, k);
    hide S.End, S.SegOk, S.Tags, S.CouldBe, TornAfter, High, S.Next, S.Emit, TornByte, RestFrom, OpenedAt;
    if e.inBody {
      BodyGoesOn(seg, d, text, k, e, d');
    } else {
      OutsideBody(e);
      BodyBegins(text, k, e);
      RestBegins(seg, d, text, k, S.Next(e, c));
    }
  }

  lemma RestBegins(seg: S.Seg, d: nat, text: string, k: nat, e: S.Seg)
    requires k < |text| && (e.inBody ==> OpenedAt(text, k + 1, k + 1, e.body[0..] + e.pending))
    ensures e.inBody ==> RestFrom(seg, d, text, k + 1, e.body[0..] + e.pending)
  {
  }

  lemma SnocTorn(d: nat, seg: S.Seg, text: string, k: nat)
    requires k < |text|
    ensures S.End(seg, text[..k + 1]) == S.Next(S.End(seg, text[..k]), text[k])
    ensures TornAfter(d, seg, text[..k + 1]) == TornByte(TornAfter(d, seg, text[..k]), S.End(seg, text[..k]), text[k])
  {
    hide S.Next, S.Emit;
    assert text[..k + 1][..k] == text[..k] && text[..k + 1] == text[..k] + [text[k]];
    S.SnocRun(seg, text[..k], text[k]);
  }

  /** A thought begins where its opening tag ends. */
  lemma BodyBegins(text: string, k: nat, e: S.Seg)
    requires k < |text| && !e.inBody && e.body == ""
    ensures var e' := S.Next(e, text[k]);
            TornByte(0, e, text[k]) == 0 && (e'.inBody ==> OpenedAt(text, k + 1, k + 1, e'.body[0..] + e'.pending))
  {
    hide S.Tags, S.CouldBe, High;
    var p := e.pending + [text[k]];
    if S.Judge(e.inBody, p).Take? {
      TagEndsInAscii(p);
      assert p[|p| - 1] == text[k] && text[k + 1..k + 1] == "" && ""[0..] + "" == "";
    }
  }

  lemma BodyGoesOn(seg: S.Seg, d: nat, text: string, k: nat, e: S.Seg, d': nat)
    requires k < |text| && e.inBody && d' <= |e.body| && RestFrom(seg, d, text, k, e.body[d'..] + e.pending)
    ensures var (e', d'') := (S.Next(e, text[k]), TornByte(d', e, text[k]));
            && (!e'.inBody ==> d'' == 0)
            && (e'.inBody ==> d'' <= |e'.body|)
            && (e'.inBody ==> RestFrom(seg, d, text, k + 1, e'.body[d''..] + e'.pending))
  {
    BodyGrows(e, d', text[k]);
    RestGrows(seg, d, text, k, e.body[d'..] + e.pending);
    hide S.Next, TornByte, RestFrom;
  }

  lemma RestGrows(seg: S.Seg, d: nat, text: string, k: nat, rest: string)
    requires k < |text| && RestFrom(seg, d, text, k, rest)
    ensures RestFrom(seg, d, text, k + 1, rest + [text[k]])
  {
    hide High;
    if seg.inBody && d <= |seg.body| && rest == seg.body[d..] + seg.pending + text[..k] {
      assert rest + [text[k]] == seg.body[d..] + seg.pending + text[..k + 1];
    } else {
      var m: nat :| OpenedAt(text, m, k, rest);
      assert OpenedAt(text, m, k + 1, rest + [text[k]]);
    }
  }

  lemma BodyGrows(e: S.Seg, d: nat, c: char)
    requires e.inBody && d <= |e.body|
    ensures var (e', d') := (S.Next(e, c), TornByte(d, e, c));
            && (!e'.inBody ==> d' == 0)
            && (e'.inBody ==> d' <= |e'.body| && e'.body[d'..] + e'.pending == e.body[d..] + e.pending + [c])
  {
    hide S.Tags, S.CouldBe;
    var p := e.pending + [c];
    assert S.Judge(true, p).PassOn? ==> (e.body + p)[d..] + "" == e.body[d..] + e.pending + [c];
    assert S.Judge(true, p).Buffer? ==> e.body[d..] + p == e.body[d..] + e.pending + [c];
  }

  lemma TagEndsInAscii(p: string)
    requires p in S.Tags(false)
    ensures p != "" && !High(p[|p| - 1])
  {
    hide S.OpenTags, S.CloseTags;
    var k :| 0 <= k < |S.Tags(false)| && S.Tags(false)[k] == p;
    S.TagStarts(false, p);
    S.TagAscii(false, k);
  }

  lemma {:induction false} DeltaCameFrom(seg: S.Seg, d: nat, text: string, k: nat)
    requires k <= |text| && RestIsText(seg, d)
    ensures CameFrom(seg, d, text, k)
  {
    hide CameFrom;
    if k == 0 {
      CameFromNothing(seg, d, text);
    } else {
      DeltaCameFrom(seg, d, text, k - 1);
      CameFromStep(seg, d, text, k - 1);
    }
  }

  lemma CameFromNothing(seg: S.Seg, d: nat, text: string)
    requires RestIsText(seg, d)
    ensures CameFrom(seg, d, text, 0)
  {
    S.RunNothing(seg);
    assert text[..0] == "" && seg.inBody ==> seg.body[d..] + seg.pending + "" == seg.body[d..] + seg.pending;
  }

  lemma DeltaIsText(seg: S.Seg, d: nat, text: string)
    requires RestIsText(seg, d) && Utf8Shaped(text)
    ensures RestIsText(S.End(seg, text), TornAfter(d, seg, text))
  {
    DeltaCameFrom(seg, d, text, |text|);
    assert text[..|text|] == text;
    hide S.End, S.SegOk, TornAfter;
    var (e, d') := (S.End(seg, text), TornAfter(d, seg, text));
    if e.inBody {
      var rest := e.body[d'..] + e.pending;
      if m: nat :| OpenedAt(text, m, |text|, rest) {
        Utf8Drop(text, m);
        assert text[m..|text|] == text[m..];
      } else {
        Utf8Concat(seg.body[d..] + seg.pending, text);
      }
    }
  }

  lemma {:induction false} OpenThoughtIsText(ks: seq<Kind>)
    requires TextDeltas(ks)
    ensures RestIsText(SegOf(ks), Torn(ks))
  {
    if ks == [] {
      S.RunNothing(S.START);
      StartOk();
    } else {
      var n := |ks| - 1;
      OpenThoughtIsText(ks[..n]);
      assert ks == ks[..n] + [ks[n]];
      OpenThoughtStep(ks[..n], ks[n]);
    }
  }

  lemma OpenThoughtStep(before: seq<Kind>, k: Kind)
    requires RestIsText(SegOf(before), Torn(before)) && (k.Delta? ==> Utf8Shaped(k.text))
    ensures RestIsText(SegOf(before + [k]), Torn(before + [k]))
  {
    hide RestIsText, SegOf, Torn, TornAfter, NativeAfter, Native, S.End, Utf8Shaped, OnStream;
    SnocTail(before, k);
    SnocSeg(before, k);
    var seg := SegOf(before);
    if OnStream(before, k) {
      StreamIsDelta(before, k);
      DeltaIsText(seg, Torn(before), k.text);
    } else if k.TextPart? && k.text != "" {
      NoRest();
    } else if k.ReasoningPart? && k.text != "" {
      TornRest(seg, Torn(before));
    }
  }

  lemma StreamIsDelta(ks: seq<Kind>, k: Kind)
    requires OnStream(ks, k)
    ensures k.Delta?
  {
  }

  lemma SnocSeg(ks: seq<Kind>, k: Kind)
    ensures SegOf(ks + [k]) == if k.TextPart? && k.text != "" then S.START
                               else if OnStream(ks, k) then S.End(SegOf(ks), k.text)
                               else SegOf(ks)
  {
    assert (ks + [k])[..|ks|] == ks;
    S.RunNothing(S.START);
    hide S.End;
    if OnStream(ks, k) {
      S.RunConcat(S.START, Streamed(ks), k.text);
    }
  }

  lemma NoRest()
    ensures RestIsText(S.START, 0)
  {
    StartOk();
  }

  lemma TornRest(seg: S.Seg, d: nat)
    requires RestIsText(seg, d)
    ensures RestIsText(seg, |OpenBody(seg)|)
  {
    FragmentIsText(seg);
    hide S.SegOk, Utf8Shaped;
    if seg.inBody {
      assert seg.body[|seg.body|..] + seg.pending == seg.pending;
    }
  }

  lemma FragmentIsText(seg: S.Seg)
    requires S.SegOk(seg)
    ensures Utf8Shaped(seg.pending) && Ascii(seg.pending)
  {
    hide S.OpenTags, S.CloseTags;
    if seg.pending != "" {
      var k :| 0 <= k < |S.Tags(seg.inBody)| && seg.pending <= S.Tags(seg.inBody)[k];
      S.TagAscii(seg.inBody, k);
      assert forall i :: 0 <= i < |seg.pending| ==> seg.pending[i] == S.Tags(seg.inBody)[k][i];
    }
  }

  // ---------------------------------------------------------------- once, or twice

  /** The exit adds the open thought, if it is new, and behind it the native reasoning, unless that is blank; and
      nothing else. */
  predicate KeptOnce(s: State, native: string) {
    Settled(s).reasoning == Committed(s, OpenBody(s.seg)).reasoning + if Blank(native) then [] else [native]
  }

  /** When the open thought `body`, torn after its first d bytes or not torn (d = 0), is kept once. */
  predicate SurvivesTheExit(body: string, d: nat)
    requires d <= |body|
  {
    var rest := body[d..];
    if d == 0 then Ascii(body)
    else if Ascii(rest) then Blank(rest)
    else HasSuffix(T.ShownAs(rest), body) && Blank(T.ShownAs(rest)[..|T.ShownAs(rest)| - |body|])
  }

  lemma SettledTail(s: State, native: string)
    ensures var rest := FoldReasoningTail(s.liveReasoning, OpenBody(s.seg));
            KeptOnce(s, native) <==> ((Blank(rest) && Blank(native)) || rest == native)
  {
    hide Blank, HasSuffix;
    var rest := FoldReasoningTail(s.liveReasoning, OpenBody(s.seg));
    var r := Committed(s, OpenBody(s.seg)).reasoning;
    assert Settled(s).reasoning == if Blank(rest) then r else r + [rest];
    assert (r + [rest])[|r|] == rest && |r + [rest]| != |r + []|;
    assert (r + [native])[|r|] == native;
  }

  lemma FoldsOff(n: string, body: string)
    requires body != ""
    ensures FoldReasoningTail(n + body, body) == n
  {
    assert (n + body)[|n|..] == body && (n + body)[..|n|] == n;
  }

  lemma FoldedTail(tail: string, body: string)
    requires body != ""
    ensures var rest := FoldReasoningTail(tail, body);
            if HasSuffix(tail, body) then tail == rest + body else rest == tail
  {
  }

  lemma UntornTail(n: string, body: string)
    requires body != "" && T.Settles(body) && Utf8Shaped(body)
    ensures var rest := FoldReasoningTail(n + T.ShownAs(body), body);
            ((Blank(rest) && Blank(n)) || rest == n) <==> Ascii(body)
  {
    T.ShownLengthOf(body);
    FoldsOff(n, body);
    if !Ascii(body) {
      T.ShownTrimsLonger(body);
      FoldedTail(n + T.ShownAs(body), body);
      hide T.ShownAs, T.Settles, Utf8Shaped, Ascii, FoldReasoningTail, HasSuffix, TrimLeft;
      MangledTail(n, T.ShownAs(body), body);
    }
  }

  /** A tail that shows more than the body leaves something of it behind. */
  lemma MangledTail(n: string, shown: string, body: string)
    requires |shown| > |body| && |TrimLeft(shown)| > |TrimLeft(body)|
    ensures var rest := FoldReasoningTail(n + shown, body); rest != n && !(Blank(rest) && Blank(n))
  {
    hide Blank, TrimLeft;
    var tail := n + shown;
    var rest := FoldReasoningTail(tail, body);
    BlankIff(rest);
    BlankIff(n);
    if TrimLeft(n) == "" {
      TrimBlankPrefix(n, shown);
      if TrimLeft(rest) == "" && rest != tail {
        assert tail == rest + body;
        TrimBlankPrefix(rest, body);
      }
    }
  }

  lemma TornTail(body: string, d: nat)
    requires 0 < d <= |body| && T.Settles(body[d..]) && Utf8Shaped(body[d..])
    ensures var rest := FoldReasoningTail(T.ShownAs(body[d..]), body);
            (Blank(rest) || rest == "") <==> SurvivesTheExit(body, d)
  {
    var x := body[d..];
    T.ShownLengthOf(x);
    NothingIsBlank();
    hide T.Settles, Utf8Shaped, Ascii, Blank, T.ShownAs;
    if !Ascii(x) {
      ShownIsNotBlank(x);
    }
  }

  lemma ShownIsNotBlank(x: string)
    requires T.Settles(x) && Utf8Shaped(x) && !Ascii(x)
    ensures !Blank(T.ShownAs(x))
  {
    T.ShownTrimsLonger(x);
    hide T.ShownAs, T.Settles, Utf8Shaped, Ascii;
    BlankIff(T.ShownAs(x));
  }

  lemma NothingIsBlank()
    ensures Blank("")
  {
  }

  /** Without an open thought, or with an empty one, the exit keeps the native reasoning; else it keeps the thought
      once exactly if no completed reasoning part tore it and it is ASCII, or all that came after the last such part
      is blank (or, by a coincidence, shows as the whole thought). */
  lemma SettlesOnceIff(l: L.Ledger, trace: seq<Input>, sid: string, recreated: bool)
    requires Run(Initial(l), trace, sid, recreated).Draining? && TextDeltas(Taken(trace, sid))
    ensures var s, ks := Run(Initial(l), trace, sid, recreated).s, Taken(trace, sid);
            && Torn(ks) <= |OpenBody(s.seg)|
            && (KeptOnce(s, Native(ks)) <==> OpenBody(s.seg) == "" || SurvivesTheExit(OpenBody(s.seg), Torn(ks)))
  {
    hide Run, Taken, Agrees, Native, Torn, SegOf, KeptOnce, SurvivesTheExit, Step, S.SegOk, T.Settles, T.ShownAs, Blank;
    TailAgrees(l, trace, sid, recreated);
    StateAgrees(l, trace, sid, recreated);
    var s, ks := Run(Initial(l), trace, sid, recreated).s, Taken(trace, sid);
    AgreedSeg(s, ks);
    OpenThoughtIsText(ks);
    SettledTail(s, Native(ks));
    var (body, d) := (OpenBody(s.seg), Torn(ks));
    if s.seg.inBody && body != "" {
      RestWithoutFragment(s.seg, d);
      if d == 0 {
        assert body[0..] == body;
        UntornTail(Native(ks), body);
        WholeSurvives(body);
      } else {
        assert "" + T.ShownAs(body[d..]) == T.ShownAs(body[d..]);
        NothingIsBlank();
        TornTail(body, d);
      }
    } else {
      NothingShown(s, Native(ks), d);
    }
  }

  lemma WholeSurvives(body: string)
    ensures SurvivesTheExit(body, 0) <==> Ascii(body)
  {
  }

  lemma NothingShown(s: State, n: string, d: nat)
    requires TailIs(s, n, d) && OpenBody(s.seg) == ""
    ensures d == 0 && s.liveReasoning == n
  {
    T.SettlesNothing();
    assert n + "" == n;
  }

  lemma RestWithoutFragment(seg: S.Seg, d: nat)
    requires RestIsText(seg, d) && seg.inBody
    ensures Utf8Shaped(seg.body[d..])
  {
    FragmentIsText(seg);
    hide S.SegOk;
    var t := seg.body[d..] + seg.pending;
    var n := |seg.body[d..]|;
    assert n < |t| ==> t[n] == seg.pending[0];
    Utf8Take(t, n);
    assert t[..n] == seg.body[d..];
  }

  // ---------------------------------------------------------------- thoughts that are kept twice

  /** Plain thinking is shown byte by byte. */
  function EachAsRune(b: string): string {
    if b == "" then "" else EachAsRune(b[..|b| - 1]) + AsRune(b[|b| - 1])
  }

  lemma ShownTwo(c: char, d: char)
    ensures EachAsRune([c, d]) == AsRune(c) + AsRune(d)
  {
    assert [c, d][..1] == [c] && [c][..0] == "";
    assert EachAsRune([c]) == AsRune(c);
  }

  lemma {:induction false} EachAscii(b: string)
    requires Ascii(b)
    ensures EachAsRune(b) == b
  {
    if b != "" {
      EachAscii(b[..|b| - 1]);
    }
  }

  lemma InsideByte(s: State, c: char)
    requires s.seg.inBody && s.seg.pending == "" && !S.Starter(c)
    ensures FedByte(s, c) == s.(liveReasoning := s.liveReasoning + AsRune(c), seg := S.Seg(true, "", s.seg.body + [c]))
  {
    hide S.Tags;
    assert s.seg.pending + [c] == [c];
    var p := S.Thought([c]);
    assert S.Emit(s.seg, c) == [p];
    HeardOne(s, p);
  }

  /** Plain thinking, fed inside a body, grows the live reasoning and nothing else. */
  lemma {:induction false} InsideFed(s: State, b: string)
    requires s.seg.inBody && s.seg.pending == "" && S.HasNoStarter(b)
    ensures Fed(s, b) == s.(liveReasoning := s.liveReasoning + EachAsRune(b), seg := S.Seg(true, "", s.seg.body + b))
  {
    if b == "" {
      S.RunNothing(s.seg);
      assert s.seg.body + b == s.seg.body && s.liveReasoning + EachAsRune(b) == s.liveReasoning;
    } else {
      var (a, c) := (b[..|b| - 1], b[|b| - 1]);
      assert b == a + [c];
      InsideFed(s, a);
      hide Fed, FedByte, AsRune, EachAsRune;
      FedSnoc(s, a, c);
      InsideByte(Fed(s, a), c);
      EachSnoc(a, c);
      Associates(s.seg.body, a, [c]);
      Associates(s.liveReasoning, EachAsRune(a), AsRune(c));
    }
  }

  lemma EachSnoc(a: string, c: char)
    ensures EachAsRune(a + [c]) == EachAsRune(a) + AsRune(c)
  {
    hide AsRune;
    assert (a + [c])[..|a|] == a;
  }

  lemma Associates(x: string, y: string, z: string)
    ensures x + (y + z) == x + y + z
  {
  }

  lemma OpeningFed(s: State, a: string)
    requires s.seg == S.START && S.HasNoStarter(a) && s.liveReasoning == ""
    ensures Fed(s, "<think>" + a) == s.(liveReasoning := EachAsRune(a), seg := S.Seg(true, "", a))
  {
    hide Fed, EachAsRune, S.HasNoStarter;
    OpensThought(s, a);
    InsideFed(s.(seg := S.Seg(true, "", "")), a);
    NothingBefore(a);
    NothingBefore(EachAsRune(a));
  }

  lemma NothingBefore(x: string)
    ensures "" + x == x
  {
  }

  /** The tag itself is heard as nothing. */
  lemma OpensThought(s: State, a: string)
    requires s.seg == S.START
    ensures Fed(s, "<think>" + a) == Fed(s.(seg := S.Seg(true, "", "")), a)
  {
    var s1 := s.(seg := S.Seg(true, "", ""));
    T.OpenedThinking("");
    T.OpenedThinking(a);
    hide S.Pieces, S.End, HeardAll;
    S.RunConcat(S.START, "<think>", a);
    var ps := S.Pieces(s1.seg, a);
    HeardConcat(s, [S.Opened("<think>")], ps);
    HeardOne(s, S.Opened("<think>"));
    HeardSeg(s, s1.seg, ps);
  }

  lemma OpeningContent(s: State, a: string)
    requires s.seg == S.START && S.HasNoStarter(a) && s.liveReasoning == ""
    ensures var k := Delta("<think>" + a, false);
            Content(s, k) == Observed(s, k).(liveReasoning := EachAsRune(a), seg := S.Seg(true, "", a))
  {
    hide LedgerAfter, Fed, EachAsRune, S.HasNoStarter;
    OpeningFed(Observed(s, Delta("<think>" + a, false)), a);
  }

  lemma InsideContent(s: State, b: string)
    requires s.seg.inBody && s.seg.pending == "" && S.HasNoStarter(b)
    ensures var k := Delta(b, false);
            Content(s, k) == Observed(s, k).(liveReasoning := s.liveReasoning + EachAsRune(b),
                                             seg := S.Seg(true, "", s.seg.body + b))
  {
    hide LedgerAfter, Fed, EachAsRune, S.HasNoStarter;
    InsideFed(Observed(s, Delta(b, false)), b);
  }

  lemma TearingContent(s: State, x: string)
    requires x != ""
    ensures var k := ReasoningPart(x);
            Content(s, k) == Observed(s, k).(reasoning := s.reasoning + [x], liveReasoning := "")
  {
  }

  /** A tail that neither is blank nor ends in the open thought is kept beside it. */
  lemma TwiceSettles(s: State, body: string, tail: string)
    requires s.seg == S.Seg(true, "", body) && s.liveReasoning == tail && body != "" && !Blank(tail)
             && !HasSuffix(tail, body)
    requires s.committed == {} && s.reply == s.liveText == ""
    ensures Settled(s).reasoning == s.reasoning + [body] + [tail] && FinalText(s) == ""
  {
    hide Blank, HasSuffix;
  }

  lemma RunAccepts(s: State, sid: string, recreated: bool)
    ensures Run(s, [Accepted], sid, recreated) == Draining(s.(sent := true))
  {
    assert [Accepted][..0] == [] && Run(s, [], sid, recreated) == Draining(s);
  }

  lemma RunTakes(s: State, trace: seq<Input>, k: Kind, sid: string, s1: State)
    requires Run(s, trace, sid, false) == Draining(s1) && s1.sent && IsContent(k)
    ensures Run(s, trace + [Bus(sid, k)], sid, false) == Draining(Content(s1, k)) && Content(s1, k).sent
  {
    hide Run, Content;
    RunSnoc(s, trace, Bus(sid, k), sid, false);
    ContentKeepsSent(s1, k);
  }

  lemma RunLosesTheBus(s: State, trace: seq<Input>, sid: string, s1: State)
    requires Run(s, trace, sid, false) == Draining(s1)
    ensures Run(s, trace + [BusClosed], sid, false) ==
            Ended(Settled(s1), Reattach(FinalText(s1), Settled(s1).reasoning))
  {
    hide Run, Settled, FinalText;
    RunSnoc(s, trace, BusClosed, sid, false);
  }

  /** An attempt that takes in one content, or three, and loses the bus. */
  lemma OneContent(s: State, k: Kind, sid: string)
    requires IsContent(k)
    ensures var s' := Content(s.(sent := true), k);
            Run(s, [Accepted, Bus(sid, k), BusClosed], sid, false) ==
                Ended(Settled(s'), Reattach(FinalText(s'), Settled(s').reasoning))
  {
    hide Run, Content, Settled, FinalText;
    var s1 := s.(sent := true);
    var trace := [Accepted] + [Bus(sid, k)];
    RunAccepts(s, sid, false);
    RunTakes(s, [Accepted], k, sid, s1);
    RunLosesTheBus(s, trace, sid, Content(s1, k));
    assert trace + [BusClosed] == [Accepted, Bus(sid, k), BusClosed];
  }

  lemma ThreeContents(s: State, k1: Kind, k2: Kind, k3: Kind, sid: string)
    requires IsContent(k1) && IsContent(k2) && IsContent(k3)
    ensures var s' := Content(Content(Content(s.(sent := true), k1), k2), k3);
            Run(s, [Accepted, Bus(sid, k1), Bus(sid, k2), Bus(sid, k3), BusClosed], sid, false) ==
            Ended(Settled(s'), Reattach(FinalText(s'), Settled(s').reasoning))
  {
    hide Run, Content, Settled, FinalText;
    var s1 := s.(sent := true);
    var trace := [Accepted] + [Bus(sid, k1)] + [Bus(sid, k2)] + [Bus(sid, k3)];
    RunAccepts(s, sid, false);
    RunTakes(s, [Accepted], k1, sid, s1);
    RunTakes(s, [Accepted] + [Bus(sid, k1)], k2, sid, Content(s1, k1));
    RunTakes(s, [Accepted] + [Bus(sid, k1)] + [Bus(sid, k2)], k3, sid, Content(Content(s1, k1), k2));
    RunLosesTheBus(s, trace, sid, Content(Content(Content(s1, k1), k2), k3));
    assert trace + [BusClosed] == [Accepted, Bus(sid, k1), Bus(sid, k2), Bus(sid, k3), BusClosed];
  }

  /** Plain thinking cut off by the loss of the bus comes out twice if what was shown of it is not blank and does not
      end in it: as it is, and as it was shown. */
  lemma ShownThoughtIsKeptTwice(l: L.Ledger, sid: string, a: string)
    requires S.HasNoStarter(a) && a != "" && !Blank(EachAsRune(a)) && !HasSuffix(EachAsRune(a), a)
    ensures var trace := [Accepted, Bus(sid, Delta("<think>" + a, false)), BusClosed];
            var o := Run(Initial(l), trace, sid, false);
            o.Ended? && o.r == Reattach("", [a, EachAsRune(a)])
  {
    hide EachAsRune, Settled, FinalText, Content, Run, Observed, Blank, HasSuffix, S.HasNoStarter, Initial;
    var (k, s1) := (Delta("<think>" + a, false), Initial(l).(sent := true));
    InitialFields(l);
    OneContent(Initial(l), k, sid);
    NonAsciiContent(s1, a, EachAsRune(a));
    TwiceSettles(Content(s1, k), a, EachAsRune(a));
    assert [] + [a] + [EachAsRune(a)] == [a, EachAsRune(a)];
  }

  /** One character that is not ASCII does it. The bytes are those of U+00E9. */
  lemma NonAsciiThoughtIsKeptTwice(l: L.Ledger, sid: string)
    ensures var a := ['\U{C3}', '\U{A9}'];
            var trace := [Accepted, Bus(sid, Delta("<think>" + a, false)), BusClosed];
            var o := Run(Initial(l), trace, sid, false);
            o.Ended? && o.r == Reattach("", [a, ['\U{C3}', '\U{83}', '\U{C2}', '\U{A9}']])
  {
    BytesOfE();
    ShownTwice('\U{C3}', '\U{A9}', '\U{C3}', '\U{83}', '\U{C2}', '\U{A9}');
    hide EachAsRune, AsRune, Run, Blank, HasSuffix, S.HasNoStarter, Initial;
    ShownThoughtIsKeptTwice(l, sid, ['\U{C3}', '\U{A9}']);
  }

  lemma NonAsciiContent(s: State, a: string, shown: string)
    requires s.seg == S.START && S.HasNoStarter(a) && s.liveReasoning == "" && EachAsRune(a) == shown
    ensures var s' := Content(s, Delta("<think>" + a, false));
            && s'.seg == S.Seg(true, "", a) && s'.liveReasoning == shown && s'.reasoning == s.reasoning
            && s'.committed == s.committed && s'.reply == s.reply && s'.liveText == s.liveText
  {
    hide Content, EachAsRune, Observed;
    OpeningContent(s, a);
    ObservedFrame(s, Delta("<think>" + a, false));
  }

  lemma ShownTwice(c: char, d: char, x0: char, x1: char, y0: char, y1: char)
    requires AsRune(c) == [x0, x1] && AsRune(d) == [y0, y1] && x0 as int == 0xC3 && y0 != c && !S.Starter(c)
             && !S.Starter(d)
    ensures var (a, shown) := ([c, d], [x0, x1, y0, y1]);
            EachAsRune(a) == shown && !Blank(shown) && !HasSuffix(shown, a) && S.HasNoStarter(a)
  {
    var (a, shown) := ([c, d], [x0, x1, y0, y1]);
    hide AsRune, TrimRight, Blank;
    T.NotTrimmed(shown);
    BlankIff(shown);
    hide EachAsRune, TrimLeft;
    assert shown[2..][0] == y0;
    ShownTwo(c, d);
  }

  lemma BytesOfE()
    ensures AsRune('\U{C3}') == ['\U{C3}', '\U{83}'] && AsRune('\U{A9}') == ['\U{C2}', '\U{A9}']
  {
  }

  lemma ObservedFrame(s: State, k: Kind)
    ensures var s' := Observed(s, k); s'.(observed := s.observed, ledger := s.ledger) == s
  {
    hide LedgerAfter;
  }

  /** A thought in ASCII torn after its part a comes out whole, and then its rest b once more. */
  lemma TornThoughtIsKeptTwice(l: L.Ledger, sid: string, a: string, x: string, b: string)
    requires S.HasNoStarter(a) && S.HasNoStarter(b) && Ascii(a) && Ascii(b) && a != "" && x != "" && !Blank(b)
    ensures var trace := [Accepted, Bus(sid, Delta("<think>" + a, false)), Bus(sid, ReasoningPart(x)),
            Bus(sid, Delta(b, false)), BusClosed];
            var o := Run(Initial(l), trace, sid, false);
            o.Ended? && o.r == Reattach("", [x, a + b, b])
  {
    hide Settled, FinalText, Content, Run, Blank, S.HasNoStarter, Ascii, Initial;
    InitialFields(l);
    ThreeContents(Initial(l), Delta("<think>" + a, false), ReasoningPart(x), Delta(b, false), sid);
    TornSettles(Initial(l).(sent := true), a, x, b);
  }

  lemma TornSettles(s1: State, a: string, x: string, b: string)
    requires S.HasNoStarter(a) && S.HasNoStarter(b) && Ascii(a) && Ascii(b) && a != "" && x != "" && !Blank(b)
    requires s1.reply == s1.liveText == s1.liveReasoning == "" && s1.reasoning == [] && s1.committed == {}
             && s1.seg == S.START
    ensures var s4 := Content(Content(Content(s1, Delta("<think>" + a, false)), ReasoningPart(x)), Delta(b, false));
            Settled(s4).reasoning == [x, a + b, b] && FinalText(s4) == ""
  {
    TailIsShorter(a, b);
    TornContents(s1, a, x, b);
    hide Settled, FinalText, Content, Blank, HasSuffix, S.HasNoStarter, Ascii;
    var s2 := Content(s1, Delta("<think>" + a, false));
    TwiceSettles(Content(Content(s2, ReasoningPart(x)), Delta(b, false)), a + b, b);
    ThreeTexts(x, a + b, b);
  }

  lemma ThreeTexts(x: string, y: string, z: string)
    ensures [] + [x] + [y] + [z] == [x, y, z]
  {
  }

  lemma InitialFields(l: L.Ledger)
    ensures var s := Initial(l);
            s.reply == s.liveText == s.liveReasoning == "" && s.reasoning == [] && s.committed == {} && s.seg == S.START
  {
  }

  lemma TailIsShorter(a: string, b: string)
    requires a != ""
    ensures !HasSuffix(b, a + b)
  {
  }

  lemma TornContents(s1: State, a: string, x: string, b: string)
    requires S.HasNoStarter(a) && S.HasNoStarter(b) && Ascii(a) && Ascii(b) && x != ""
    requires s1.seg == S.START && s1.liveReasoning == ""
    ensures var s2 := Content(s1, Delta("<think>" + a, false));
            var s3 := Content(s2, ReasoningPart(x));
            var s4 := Content(s3, Delta(b, false));
            && s4.seg == S.Seg(true, "", a + b) && s4.liveReasoning == b && s4.reasoning == s1.reasoning + [x]
            && s4.committed == s1.committed && s4.reply == s1.reply && s4.liveText == s1.liveText
  {
    var (k1, k2, k3) := (Delta("<think>" + a, false), ReasoningPart(x), Delta(b, false));
    EachAscii(b);
    assert "" + b == b;
    hide EachAsRune, Content, Observed, S.HasNoStarter, Ascii;
    OpeningContent(s1, a);
    ObservedFrame(s1, k1);
    var s2 := Content(s1, k1);
    TearingContent(s2, x);
    ObservedFrame(s2, k2);
    var s3 := Content(s2, k2);
    InsideContent(s3, b);
    ObservedFrame(s3, k3);
  }
}
