/**
 What an attempt hands over as reasoning (internal/askorchicon/chat.go): folded thoughts of the delta stream and of
 completed parts, each at its first arrival, completed reasoning parts, and at the exit what the live tail still held.
 Everything is stated as a function of the content the attempt took in.
 */
module Reasoning {
  import opened Common
  import opened Bytes
  import opened Attempt
  import S = ThinkSegmenter
  import T = ShownThinking
  import L = ToolLedger

  /** Reasoning as it arrives: a thought folded into text, of which only the first arrival counts, or a completed
      reasoning part, which always does. */
  datatype Arrival = Folded(text: string) | Stated(text: string)

  function AllFolded(bodies: seq<string>): (r: seq<Arrival>)
    ensures |r| == |bodies| && forall i :: 0 <= i < |r| ==> r[i] == Folded(bodies[i])
  {
    seq(|bodies|, i requires 0 <= i < |bodies| => Folded(bodies[i]))
  }

  /** The thoughts that a text closes, read from the given state of the machine. */
  function Closes(seg: S.Seg, text: string): seq<string> {
    S.Outs(S.Pieces(seg, text)).commits
  }

  /** The thought that is open behind a text, if there is anything in it. */
  function LeftOpen(seg: S.Seg): seq<string> {
    if seg.inBody && seg.body != "" then [seg.body] else []
  }

  function Arrivals(ks: seq<Kind>): seq<Arrival> {
    if ks == [] then []
    else
      var (before, k) := (ks[..|ks| - 1], ks[|ks| - 1]);
      Arrivals(before)
      + if k.TextPart? then AllFolded(Closes(S.START, k.text) + LeftOpen(S.End(S.START, k.text)))
        else if k.ReasoningPart? && k.text != "" then [Stated(k.text)]
        else if OnStream(before, k) then AllFolded(Closes(SegOf(before), k.text))
        else []
  }

  /** The texts of the arrivals that count, in order. */
  function Distinct(arrivals: seq<Arrival>): seq<string> {
    if arrivals == [] then []
    else
      var (before, a) := (arrivals[..|arrivals| - 1], arrivals[|arrivals| - 1]);
      if a.Folded? && a in before then Distinct(before) else Distinct(before) + [a.text]
  }

  /** The state has on record what arrived. */
  ghost predicate Keeps(s: State, arrivals: seq<Arrival>) {
    && s.reasoning == Distinct(arrivals)
    && forall b :: b in s.committed <==> Folded(b) in arrivals
  }

  lemma SnocArrivals(xs: seq<Arrival>, a: Arrival)
    ensures Distinct(xs + [a]) == if a.Folded? && a in xs then Distinct(xs) else Distinct(xs) + [a.text]
  {
    assert (xs + [a])[..|xs|] == xs;
  }

  lemma CommittedKeeps(s: State, arrivals: seq<Arrival>, body: string)
    requires Keeps(s, arrivals) && body != ""
    ensures Keeps(Committed(s, body), arrivals + [Folded(body)])
  {
    SnocArrivals(arrivals, Folded(body));
  }

  lemma {:induction false} CommittedAllKeeps(s: State, arrivals: seq<Arrival>, bodies: seq<string>)
    requires Keeps(s, arrivals) && "" !in bodies
    ensures Keeps(CommittedAll(s, bodies), arrivals + AllFolded(bodies))
  {
    hide Keeps, Committed;
    if bodies == [] {
      assert arrivals + AllFolded([]) == arrivals;
    } else {
      var n := |bodies| - 1;
      CommittedAllKeeps(s, arrivals, bodies[..n]);
      CommittedKeeps(CommittedAll(s, bodies[..n]), arrivals + AllFolded(bodies[..n]), bodies[n]);
      assert AllFolded(bodies) == AllFolded(bodies[..n]) + [Folded(bodies[n])];
      assert arrivals + AllFolded(bodies[..n]) + [Folded(bodies[n])] == arrivals + AllFolded(bodies);
    }
  }

  lemma {:induction false} CommitsAreNotEmpty(ps: seq<S.Piece>)
    ensures "" !in S.Outs(ps).commits
  {
    if ps != [] {
      CommitsAreNotEmpty(ps[..|ps| - 1]);
    }
  }

  lemma {:induction false} HeardKeeps(s: State, arrivals: seq<Arrival>, ps: seq<S.Piece>)
    requires Keeps(s, arrivals)
    ensures Keeps(HeardAll(s, ps), arrivals + AllFolded(S.Outs(ps).commits))
  {
    if ps == [] {
      assert arrivals + AllFolded([]) == arrivals;
    } else {
      var n := |ps| - 1;
      HeardKeeps(s, arrivals, ps[..n]);
      hide Keeps, Heard, S.OutOf;
      HeardOneKeeps(HeardAll(s, ps[..n]), arrivals + AllFolded(S.Outs(ps[..n]).commits), ps[n]);
      FoldedConcat(arrivals, S.Outs(ps[..n]).commits, S.OutOf(ps[n]).commits);
    }
  }

  lemma FoldedConcat(arrivals: seq<Arrival>, xs: seq<string>, ys: seq<string>)
    ensures arrivals + AllFolded(xs) + AllFolded(ys) == arrivals + AllFolded(xs + ys)
  {
  }

  lemma HeardOneKeeps(s: State, arrivals: seq<Arrival>, p: S.Piece)
    requires Keeps(s, arrivals)
    ensures Keeps(Heard(s, p), arrivals + AllFolded(S.OutOf(p).commits))
  {
    if p.Closed? && p.body != "" {
      CommittedKeeps(s.(liveReasoning := ""), arrivals, p.body);
      assert AllFolded([p.body]) == [Folded(p.body)];
    } else {
      assert arrivals + AllFolded([]) == arrivals;
    }
  }

  lemma KeepsFrame(s: State, s': State, arrivals: seq<Arrival>)
    requires Keeps(s, arrivals) && s'.reasoning == s.reasoning && s'.committed == s.committed
    ensures Keeps(s', arrivals)
  {
  }

  lemma StatedKeeps(s: State, arrivals: seq<Arrival>, x: string)
    requires Keeps(s, arrivals)
    ensures Keeps(s.(reasoning := s.reasoning + [x], liveReasoning := ""), arrivals + [Stated(x)])
  {
    SnocArrivals(arrivals, Stated(x));
  }

  lemma SnocOfArrivals(ks: seq<Kind>, k: Kind)
    ensures Arrivals(ks + [k]) ==
            Arrivals(ks)
            + if k.TextPart? then AllFolded(Closes(S.START, k.text) + LeftOpen(S.End(S.START, k.text)))
              else if k.ReasoningPart? && k.text != "" then [Stated(k.text)]
              else if OnStream(ks, k) then AllFolded(Closes(SegOf(ks), k.text))
              else []
  {
    assert (ks + [k])[..|ks|] == ks;
    hide Closes, LeftOpen, OnStream, SegOf;
  }

  lemma PartKeeps(s: State, ks: seq<Kind>, k: Kind)
    requires Keeps(s, Arrivals(ks)) && k.TextPart?
    ensures Keeps(Content(s, k), Arrivals(ks + [k]))
  {
    SnocOfArrivals(ks, k);
    KeepsFrame(s, Observed(s, k), Arrivals(ks));
    hide LedgerAfter, TextPartDone, Keeps, Arrivals, Closes, LeftOpen;
    if k.text == "" {
      NothingArrives();
      assert Arrivals(ks) + [] == Arrivals(ks);
    } else {
      DoneKeeps(Observed(s, k), Arrivals(ks), k.text);
    }
  }

  lemma NothingArrives()
    ensures AllFolded(Closes(S.START, "") + LeftOpen(S.End(S.START, ""))) == []
  {
    S.RunNothing(S.START);
  }

  lemma DoneKeeps(s: State, arrivals: seq<Arrival>, text: string)
    requires Keeps(s, arrivals)
    ensures Keeps(TextPartDone(s, text), arrivals + AllFolded(Closes(S.START, text) + LeftOpen(S.End(S.START, text))))
  {
    hide S.Pieces, S.End, S.Outs, CommittedAll, CleanText, Keeps;
    CommitsAreNotEmpty(S.Pieces(S.START, text));
    var bodies := Closes(S.START, text) + LeftOpen(S.End(S.START, text));
    var s1 := s.(liveText := "", liveReasoning := "", seg := S.START);
    assert FoldedBodies(text) == bodies;
    KeepsFrame(s, s1, arrivals);
    CommittedAllKeeps(s1, arrivals, bodies);
    hide FoldedBodies, Closes, LeftOpen;
    KeepsFrame(CommittedAll(s1, bodies), TextPartDone(s, text), arrivals + AllFolded(bodies));
  }

  lemma StreamKeeps(s: State, ks: seq<Kind>, k: Kind)
    requires Keeps(s, Arrivals(ks)) && s.seg == SegOf(ks) && IsContent(k) && !k.TextPart?
    ensures Keeps(Content(s, k), Arrivals(ks + [k]))
  {
    SnocOfArrivals(ks, k);
    hide S.Pieces, S.End, S.Outs, LedgerAfter, HeardAll, Keeps, Arrivals, TextPartDone, SegOf;
    var xs := Arrivals(ks);
    assert xs + [] == xs;
    KeepsFrame(s, Observed(s, k), xs);
    if OnStream(ks, k) {
      var ps := S.Pieces(s.seg, k.text);
      HeardKeeps(Observed(s, k), xs, ps);
      KeepsFrame(HeardAll(Observed(s, k), ps), Content(s, k), xs + AllFolded(S.Outs(ps).commits));
    } else if k.ReasoningPart? && k.text != "" {
      StatedKeeps(Observed(s, k), xs, k.text);
    } else {
      KeepsFrame(s, Content(s, k), xs);
    }
  }

  lemma InitialKeeps(l: L.Ledger)
    ensures Keeps(Initial(l), Arrivals([]))
  {
  }

  /** At every moment of an attempt its reasoning is what arrived, in order, each folded thought once, at its first
      arrival, whether in the stream of deltas or in a completed part. */
  lemma {:induction false} ReasoningAgrees(l: L.Ledger, trace: seq<Input>, sid: string, recreated: bool)
    requires Run(Initial(l), trace, sid, recreated).Draining?
    ensures Keeps(Run(Initial(l), trace, sid, recreated).s, Arrivals(Taken(trace, sid)))
  {
    hide Step, Content, Agrees, Keeps, Arrivals, Initial, SegOf;
    if trace == [] {
      InitialKeeps(l);
    } else {
      var n := |trace| - 1;
      ReasoningAgrees(l, trace[..n], sid, recreated);
      StateAgrees(l, trace[..n], sid, recreated);
      var s := Run(Initial(l), trace[..n], sid, recreated).s;
      SentAgrees(l, trace[..n], sid, recreated);
      StepTakes(s, trace[n], sid, recreated);
      var ks := Taken(trace[..n], sid);
      if trace[n].Bus? && IsContent(trace[n].kind) && !Foreign(trace[..n], trace[n], sid) {
        AgreedSeg(s, ks);
        if trace[n].kind.TextPart? {
          PartKeeps(s, ks, trace[n].kind);
        } else {
          StreamKeeps(s, ks, trace[n].kind);
        }
      } else {
        assert Taken(trace, sid) == ks;
        KeepsFrame(s, Run(Initial(l), trace, sid, recreated).s, Arrivals(ks));
      }
    }
  }

  lemma SentAgrees(l: L.Ledger, trace: seq<Input>, sid: string, recreated: bool)
    requires Run(Initial(l), trace, sid, recreated).Draining?
    ensures Run(Initial(l), trace, sid, recreated).s.sent <==> Accepted in trace
  {
    hide Run;
    SentIffAccepted(Initial(l), trace, sid, recreated);
  }

  // ---------------------------------------------------------------- at the exit

  /** The live tail: native reasoning, then what the open thought has shown since a reasoning part last tore it. */
  function LiveTail(ks: seq<Kind>): string {
    var seg := SegOf(ks);
    if seg.inBody && Torn(ks) <= |seg.body| then Native(ks) + T.ShownAs(seg.body[Torn(ks)..]) else Native(ks)
  }

  /** What arrived, with the thought that is open when the attempt ends. */
  function WithOpen(ks: seq<Kind>): seq<string> {
    Distinct(Arrivals(ks) + AllFolded(LeftOpen(SegOf(ks))))
  }

  function UnlessBlank(t: string): seq<string> {
    if Blank(t) then [] else [t]
  }

  /** The live tail without the open thought, if it ends in it. */
  function Leftover(ks: seq<Kind>): string {
    var (tail, open) := (LiveTail(ks), LeftOpen(SegOf(ks)));
    if open != [] && HasSuffix(tail, open[0]) then tail[..|tail| - |open[0]|] else tail
  }

  lemma SettledReasoning(s: State, ks: seq<Kind>)
    requires Keeps(s, Arrivals(ks)) && s.seg == SegOf(ks) && s.liveReasoning == LiveTail(ks)
    ensures Settled(s).reasoning == WithOpen(ks) + UnlessBlank(Leftover(ks))
    ensures Committed(s, OpenBody(s.seg)).reasoning == WithOpen(ks)
  {
    hide Arrivals, SegOf, LiveTail, Blank, HasSuffix, Keeps;
    var body := OpenBody(s.seg);
    if LeftOpen(s.seg) == [] {
      assert body == "" && Arrivals(ks) + AllFolded([]) == Arrivals(ks);
      KeptReasoning(s, Arrivals(ks));
    } else {
      assert LeftOpen(s.seg) == [body] && AllFolded([body]) == [Folded(body)];
      CommittedKeeps(s, Arrivals(ks), body);
      KeptReasoning(Committed(s, body), Arrivals(ks) + [Folded(body)]);
    }
    assert WithOpen(ks) + [] == WithOpen(ks);
  }

  lemma KeptReasoning(s: State, arrivals: seq<Arrival>)
    requires Keeps(s, arrivals)
    ensures s.reasoning == Distinct(arrivals)
  {
  }

  lemma TailIsLive(s: State, ks: seq<Kind>)
    requires TailIs(s, Native(ks), Torn(ks)) && s.seg == SegOf(ks)
    ensures s.liveReasoning == LiveTail(ks)
  {
    hide Native, Torn, SegOf, T.ShownAs, T.Settles, S.SegOk;
  }

  lemma ExitReasoning(s: State, e: Input, sid: string, recreated: bool)
    requires Step(s, e, sid, recreated).Ended?
    ensures var r := Step(s, e, sid, recreated).r;
            if r.Recreated? then e.SendFailed? else r.reasoning == Settled(s).reasoning
  {
    hide Settled, Content, FinalText, TrimSpace, S.START;
  }

  /** Whichever way an attempt ends, the reasoning it hands over is what arrived, the thought still open included,
      each folded thought once, and then what the live tail holds besides that thought, unless it is blank. */
  lemma ReasoningIsComplete(l: L.Ledger, trace: seq<Input>, e: Input, sid: string, recreated: bool)
    requires Run(Initial(l), trace, sid, recreated).Draining? && Run(Initial(l), trace + [e], sid, recreated).Ended?
    ensures var (r, ks) := (Run(Initial(l), trace + [e], sid, recreated).r, Taken(trace, sid));
            if r.Recreated? then e.SendFailed? else r.reasoning == WithOpen(ks) + UnlessBlank(Leftover(ks))
  {
    var ks := Taken(trace, sid);
    var s := Run(Initial(l), trace, sid, recreated).s;
    hide Step, Agrees, Keeps, Arrivals, Initial, SegOf, Taken, Settled, LiveTail, WithOpen, Leftover, Native, Torn;
    AtExit(l, trace, sid, recreated);
    RunSnoc(Initial(l), trace, e, sid, recreated);
    ExitReasoning(s, e, sid, recreated);
  }

  lemma AtExit(l: L.Ledger, trace: seq<Input>, sid: string, recreated: bool)
    requires Run(Initial(l), trace, sid, recreated).Draining?
    ensures var (s, ks) := (Run(Initial(l), trace, sid, recreated).s, Taken(trace, sid));
            && Settled(s).reasoning == WithOpen(ks) + UnlessBlank(Leftover(ks))
            && Committed(s, OpenBody(s.seg)).reasoning == WithOpen(ks) && s.seg == SegOf(ks)
  {
    hide Run, Agrees, Keeps, Arrivals, Initial, SegOf, Taken, Settled, LiveTail, Native, Torn, TailIs, Committed,
      WithOpen, Leftover, OpenBody;
    var (s, ks) := (Run(Initial(l), trace, sid, recreated).s, Taken(trace, sid));
    ReasoningAgrees(l, trace, sid, recreated);
    StateAgrees(l, trace, sid, recreated);
    AgreedSeg(s, ks);
    TailAgrees(l, trace, sid, recreated);
    TailIsLive(s, ks);
    SettledReasoning(s, ks);
  }

  /** The open thought and the native reasoning are handed over once each: nothing else is behind what arrived. With
      no thought open, or an empty one, they are; else exactly if no completed reasoning part tore the thought and it
      is ASCII, or all that came after the last such part is blank (or, by a coincidence, shows as the whole of it). */
  lemma OpenThoughtIsKeptOnceIff(l: L.Ledger, trace: seq<Input>, e: Input, sid: string, recreated: bool)
    requires Run(Initial(l), trace, sid, recreated).Draining? && TextDeltas(Taken(trace, sid))
    requires var o := Run(Initial(l), trace + [e], sid, recreated); o.Ended? && !o.r.Recreated?
    ensures var (r, ks) := (Run(Initial(l), trace + [e], sid, recreated).r, Taken(trace, sid));
            var open := LeftOpen(SegOf(ks));
            && (open != [] ==> Torn(ks) <= |open[0]|)
            && (r.reasoning == WithOpen(ks) + UnlessBlank(Native(ks)) <==>
                  open == [] || SurvivesTheExit(open[0], Torn(ks)))
  {
    hide Step, Initial, Taken, Settled, WithOpen, Leftover, Native, Torn, TextDeltas, SurvivesTheExit, SegOf, Committed;
    AtExit(l, trace, sid, recreated);
    ReasoningIsComplete(l, trace, e, sid, recreated);
    SettlesOnceIff(l, trace, sid, recreated);
    hide Run, Blank;
  }
}
