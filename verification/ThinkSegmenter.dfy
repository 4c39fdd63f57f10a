/**
 The streaming demultiplexer of internal/askorchicon/thinksegmenter.go: it splits a stream of text deltas
 into plain text and folded thinking, using the tag table of internal/opencode/think_tags.go. As a value the
 machine has a side (in a body or not), the candidate tag it is still buffering, and the body so far. Deltas are
 bytes, as in module Bytes.
 */
module ThinkSegmenter {
  import opened Bytes

  function OpenTags(): seq<string> {
    ["|<thinking>", "<thinking>", "|think", "<think>", "<thought>", "<reasoning>"]
  }

  function CloseTags(): seq<string> {
    ["|</thinking>", "</thinking>", "|/think", "</think>", "</thought>", "</reasoning>"]
  }

  /** The tags that end a run of text, or of thinking. */
  function Tags(inBody: bool): seq<string> {
    if inBody then CloseTags() else OpenTags()
  }

  datatype Seg = Seg(inBody: bool, pending: string, body: string)

  const START := Seg(false, "", "")

  /** What the input turned out to be, piece by piece. A closing tag commits the body it ends. */
  datatype Piece = Plain(text: string) | Opened(tag: string) | Thought(text: string) | Closed(tag: string, body: string)

  /** The closing tag of the same spelling: a slash in front of the name. */
  function Slashed(tag: string): string
    requires tag != ""
  {
    if tag[0] == '<' then "</" + tag[1..]
    else if |tag| > 1 && tag[1] == '<' then tag[..1] + "</" + tag[2..]
    else tag[..1] + "/" + tag[1..]
  }

  /** The four names between angle brackets are opening tags, and so are two spellings behind a bar; six in all. */
  lemma TagNames()
    ensures "<" + "think" + ">" in OpenTags() && "<" + "thinking" + ">" in OpenTags()
    ensures "<" + "thought" + ">" in OpenTags() && "<" + "reasoning" + ">" in OpenTags()
    ensures "|" + "<thinking>" in OpenTags() && "|" + "think" in OpenTags() && |OpenTags()| == 6
  {
    var open := OpenTags();
    assert open[3] == "<" + "think" + ">" && open[1] == "<" + "thinking" + ">";
    assert open[4] == "<" + "thought" + ">" && open[5] == "<" + "reasoning" + ">";
    assert open[0] == "|" + "<thinking>" && open[2] == "|" + "think";
  }

  /** Each opening tag has the closing tag of its spelling. */
  lemma TagTable(k: nat)
    requires k < |OpenTags()|
    ensures |CloseTags()| == |OpenTags()| && OpenTags()[k] != "" && CloseTags()[k] == Slashed(OpenTags()[k])
  {
    var (open, close) := (OpenTags(), CloseTags());
    match k
    case 0 => assert Slashed(open[0]) == close[0];
    case 1 => assert Slashed(open[1]) == close[1];
    case 2 => assert Slashed(open[2]) == close[2];
    case 3 => assert Slashed(open[3]) == close[3];
    case 4 => assert Slashed(open[4]) == close[4];
    case _ => assert Slashed(open[5]) == close[5];
  }

  predicate Starter(c: char) {
    c == '|' || c == '<'
  }

  predicate CouldBe(tags: seq<string>, p: string) {
    exists k :: 0 <= k < |tags| && p <= tags[k]
  }

  /** Text that is not a tag: plain text outside a body, more of the body inside. */
  function Pass(inBody: bool, text: string): Piece {
    if inBody then Thought(text) else Plain(text)
  }

  /** s after it passed text on, or took a tag. */
  function After(s: Seg, text: string): Seg {
    Seg(s.inBody, "", if s.inBody then s.body + text else s.body)
  }

  function Switch(s: Seg): Seg {
    Seg(!s.inBody, "", if s.inBody then "" else s.body)
  }

  datatype Verdict = Buffer | PassOn | Take

  /** What becomes of the candidate p. */
  function Judge(inBody: bool, p: string): Verdict {
    if |p| == 1 then (if Starter(p[0]) then Buffer else PassOn)
    else if p in Tags(inBody) then Take
    else if CouldBe(Tags(inBody), p) then Buffer
    else PassOn
  }

  function Next(s: Seg, c: char): Seg {
    var p := s.pending + [c];
    match Judge(s.inBody, p)
    case Buffer => s.(pending := p)
    case PassOn => After(s, p)
    case Take => Switch(s)
  }

  function Emit(s: Seg, c: char): seq<Piece> {
    var p := s.pending + [c];
    match Judge(s.inBody, p)
    case Buffer => []
    case PassOn => [Pass(s.inBody, p)]
    case Take => [if s.inBody then Closed(p, s.body) else Opened(p)]
  }

  function End(s: Seg, input: string): Seg {
    if input == "" then s else Next(End(s, input[..|input| - 1]), input[|input| - 1])
  }

  function Pieces(s: Seg, input: string): seq<Piece> {
    if input == "" then []
    else Pieces(s, input[..|input| - 1]) + Emit(End(s, input[..|input| - 1]), input[|input| - 1])
  }

  /** What the three callbacks receive: text, growing thoughts, and finished bodies that are not empty. */
  datatype Out = Out(text: string, grown: string, commits: seq<string>)

  const NOTHING := Out("", "", [])

  /** How a piece of thinking is shown as it grows: a byte that comes alone is converted to a string by itself, as if
      it were a code point; bytes that were buffered are passed on as they are. */
  function Shown(text: string): string {
    if |text| == 1 then AsRune(text[0]) else text
  }

  function Plus(a: Out, b: Out): Out {
    Out(a.text + b.text, a.grown + b.grown, a.commits + b.commits)
  }

  function OutOf(p: Piece): Out {
    match p
    case Plain(t) => Out(t, "", [])
    case Thought(t) => Out("", Shown(t), [])
    case Opened(_) => NOTHING
    case Closed(_, b) => Out("", "", if b != "" then [b] else [])
  }

  /** A byte completes one piece at most. */
  function OutOfAll(ps: seq<Piece>): Out {
    if ps == [] then NOTHING else OutOf(ps[0])
  }

  function Outs(ps: seq<Piece>): Out {
    if ps == [] then NOTHING else Plus(Outs(ps[..|ps| - 1]), OutOf(ps[|ps| - 1]))
  }

  // ---------------------------------------------------------------- the machine

  datatype Mode = InText | InOpenTag | InBody | InCloseTag

  class Segmenter {
    var state: Mode
    var buf: string
    var pendingOpen: string
    var pendingClose: string
    var bodyStarted: bool

    ghost predicate Valid()
      reads this
    {
      && (pendingOpen != "" <==> state.InOpenTag?)
      && (pendingClose != "" <==> state.InCloseTag?)
      && (bodyStarted <==> state.InBody? || state.InCloseTag?)
    }

    ghost function Value(): Seg
      reads this
    {
      Seg(bodyStarted, if bodyStarted then pendingClose else pendingOpen, buf)
    }

    constructor ()
      ensures Valid() && Value() == START
    {
      state, buf, pendingOpen, pendingClose, bodyStarted := InText, "", "", "", false;
    }

    method Reset()
      modifies this
      ensures Valid() && Value() == START
    {
      state, buf, pendingOpen, pendingClose, bodyStarted := InText, "", "", "", false;
    }

    /** Ends a body; an empty one is not reported. */
    method Commit() returns (commits: seq<string>)
      modifies this
      ensures commits == (if old(buf) != "" then [old(buf)] else [])
      ensures buf == "" && pendingClose == "" && !bodyStarted
      ensures state == old(state) && pendingOpen == old(pendingOpen)
    {
      commits := if buf != "" then [buf] else [];
      buf, pendingClose, bodyStarted := "", "", false;
    }

    /** One byte, unless it belongs to a run of plain text. */
    method FeedByte(c: char) returns (text: string, grown: string, commits: seq<string>)
      requires Valid() && (state.InText? ==> Starter(c))
      modifies this
      ensures Valid() && Value() == Next(old(Value()), c)
      ensures Out(text, grown, commits) == OutOfAll(Emit(old(Value()), c))
    {
      hide OpenTags, CloseTags, CouldBe;
      text, grown, commits := "", "", [];
      match state
      case InText =>
        state := InOpenTag;
        pendingOpen := pendingOpen + [c];
      case InOpenTag =>
        pendingOpen := pendingOpen + [c];
        var p := pendingOpen;
        if p in OpenTags() {
          state, pendingOpen, bodyStarted := InBody, "", true;
        } else if !CouldBe(OpenTags(), p) {
          text := p;
          pendingOpen, state := "", InText;
        }
      case InBody =>
        if Starter(c) {
          state, pendingClose := InCloseTag, pendingClose + [c];
        } else {
          buf := buf + [c];
          grown := AsRune(c);
        }
      case InCloseTag =>
        pendingClose := pendingClose + [c];
        var p := pendingClose;
        if p in CloseTags() {
          commits := Commit();
          state := InText;
        } else if !CouldBe(CloseTags(), p) {
          buf := buf + p;
          grown := p;
          pendingClose, state := "", InBody;
        }
    }

    method Feed(delta: string) returns (text: string, grown: string, commits: seq<string>)
      requires Valid()
      modifies this
      ensures Valid()
      ensures Value() == End(old(Value()), delta)
      ensures Out(text, grown, commits) == Outs(Pieces(old(Value()), delta))
    {
      hide End, Pieces, Outs, Next, Emit, OutOfAll, HasNoStarter;
      text, grown, commits := "", "", [];
      RunNothing(Value());
      assert delta[..0] == "";
      var i := 0;
      while i < |delta|
        invariant 0 <= i <= |delta| && Valid()
        invariant Value() == End(old(Value()), delta[..i])
        invariant Out(text, grown, commits) == Outs(Pieces(old(Value()), delta[..i]))
      {
        var j := i;
        while state.InText? && j < |delta| && !Starter(delta[j])
          invariant i <= j <= |delta| && (j > i ==> state.InText?)
          invariant forall k :: i <= k < j ==> !Starter(delta[k])
        {
          j := j + 1;
        }
        if j > i {
          PlainRun(old(Value()), delta, i, j);
          text := text + delta[i..j];
          i := j;
        } else {
          ByteRun(old(Value()), delta, i);
          var t, g, c := FeedByte(delta[i]);
          text, grown, commits := text + t, grown + g, commits + c;
          i := i + 1;
        }
      }
      assert delta[..i] == delta;
    }

    /** Ends the turn: an unterminated body is committed, a tag fragment still buffered is dropped. */
    method FlushBody() returns (commits: seq<string>)
      requires Valid()
      modifies this
      ensures Valid() && Value() == START
      ensures commits == if old(bodyStarted) && old(buf) != "" then [old(buf)] else []
    {
      commits := [];
      if bodyStarted {
        commits := Commit();
      }
      Reset();
    }
  }

  lemma SnocRun(s: Seg, input: string, c: char)
    ensures End(s, input + [c]) == Next(End(s, input), c)
    ensures Pieces(s, input + [c]) == Pieces(s, input) + Emit(End(s, input), c)
  {
    assert (input + [c])[..|input|] == input;
  }

  /** What one more byte adds to the outputs. */
  lemma StepOuts(ps: seq<Piece>, s: Seg, c: char)
    ensures Outs(ps + Emit(s, c)) == Plus(Outs(ps), OutOfAll(Emit(s, c)))
  {
    if Emit(s, c) == [] {
      assert ps + [] == ps;
      assert Plus(Outs(ps), NOTHING) == Outs(ps);
    } else {
      assert (ps + Emit(s, c))[..|ps|] == ps;
    }
  }

  /** What one more byte of a delta does. */
  lemma ByteRun(s: Seg, delta: string, i: nat)
    requires i < |delta|
    ensures var e := End(s, delta[..i]);
            && End(s, delta[..i + 1]) == Next(e, delta[i])
            && Outs(Pieces(s, delta[..i + 1])) == Plus(Outs(Pieces(s, delta[..i])), OutOfAll(Emit(e, delta[i])))
  {
    hide End, Pieces, Outs, Next, Emit, OutOfAll, Plus;
    SnocRun(s, delta[..i], delta[i]);
    assert delta[..i] + [delta[i]] == delta[..i + 1];
    StepOuts(Pieces(s, delta[..i]), End(s, delta[..i]), delta[i]);
  }

  /** And what a run of plain text does. */
  lemma PlainRun(s: Seg, delta: string, i: nat, j: nat)
    requires i <= j <= |delta| && forall k :: i <= k < j ==> !Starter(delta[k])
    requires End(s, delta[..i]).pending == "" && !End(s, delta[..i]).inBody
    ensures End(s, delta[..j]) == End(s, delta[..i])
    ensures var o := Outs(Pieces(s, delta[..i]));
            Outs(Pieces(s, delta[..j])) == o.(text := o.text + delta[i..j])
  {
    hide End, Pieces, Outs;
    var e := End(s, delta[..i]);
    PlainPasses(e, delta[i..j]);
    assert e.pending + delta[i..j] == delta[i..j];
    RunConcat(s, delta[..i], delta[i..j]);
    assert delta[..i] + delta[i..j] == delta[..j];
    OutsConcat(Pieces(s, delta[..i]), Pieces(e, delta[i..j]));
  }

  // ---------------------------------------------------------------- deltas do not matter

  lemma {:induction false} RunConcat(s: Seg, a: string, b: string)
    ensures End(s, a + b) == End(End(s, a), b)
    ensures Pieces(s, a + b) == Pieces(s, a) + Pieces(End(s, a), b)
  {
    hide Next, Emit;
    if b == "" {
      assert a + b == a;
    } else {
      assert (a + b)[..|a + b| - 1] == a + b[..|b| - 1];
      RunConcat(s, a, b[..|b| - 1]);
    }
  }

  lemma {:induction false} OutsConcat(ps: seq<Piece>, qs: seq<Piece>)
    ensures Outs(ps + qs) == Plus(Outs(ps), Outs(qs))
  {
    hide OutOf;
    if qs == [] {
      assert ps + qs == ps;
    } else {
      assert (ps + qs)[..|ps + qs| - 1] == ps + qs[..|qs| - 1];
      OutsConcat(ps, qs[..|qs| - 1]);
    }
  }

  function Joined(deltas: seq<string>): string {
    if deltas == [] then "" else Joined(deltas[..|deltas| - 1]) + deltas[|deltas| - 1]
  }

  /** The state after feeding the deltas one by one, and all that the callbacks received. */
  function FedState(s: Seg, deltas: seq<string>): Seg {
    if deltas == [] then s else End(FedState(s, deltas[..|deltas| - 1]), deltas[|deltas| - 1])
  }

  function FedOuts(s: Seg, deltas: seq<string>): Out {
    if deltas == [] then NOTHING
    else var before := deltas[..|deltas| - 1];
      Plus(FedOuts(s, before), Outs(Pieces(FedState(s, before), deltas[|deltas| - 1])))
  }

  /** However the provider cuts its stream into deltas, tags split anywhere included, the outcome is that of
      the stream in one piece. */
  lemma {:induction false} ChunkingIndependent(s: Seg, deltas: seq<string>)
    ensures FedState(s, deltas) == End(s, Joined(deltas))
    ensures FedOuts(s, deltas) == Outs(Pieces(s, Joined(deltas)))
  {
    hide Next, Emit, Plus, OutOf;
    if deltas != [] {
      var before, last := deltas[..|deltas| - 1], deltas[|deltas| - 1];
      ChunkingIndependent(s, before);
      RunConcat(s, Joined(before), last);
      OutsConcat(Pieces(s, Joined(before)), Pieces(End(s, Joined(before)), last));
    }
  }

  // ---------------------------------------------------------------- conservation

  function Raw(p: Piece): string {
    match p
    case Plain(t) => t
    case Opened(t) => t
    case Thought(t) => t
    case Closed(t, _) => t
  }

  function RawOf(ps: seq<Piece>): string {
    if ps == [] then "" else RawOf(ps[..|ps| - 1]) + Raw(ps[|ps| - 1])
  }

  function BodiesOf(ps: seq<Piece>): string {
    if ps == [] then ""
    else var p := ps[|ps| - 1];
      BodiesOf(ps[..|ps| - 1]) + if p.Closed? then p.body else ""
  }

  function ThinkingOf(ps: seq<Piece>): string {
    if ps == [] then ""
    else var p := ps[|ps| - 1];
      ThinkingOf(ps[..|ps| - 1]) + if p.Thought? then p.text else ""
  }

  predicate TagsOk(ps: seq<Piece>) {
    forall k :: 0 <= k < |ps| ==>
      (ps[k].Opened? ==> ps[k].tag in OpenTags()) && (ps[k].Closed? ==> ps[k].tag in CloseTags())
  }

  /** The machine buffers only what may still become a tag. */
  predicate SegOk(s: Seg) {
    && (s.pending != "" ==> s.pending !in Tags(s.inBody) && CouldBe(Tags(s.inBody), s.pending))
    && (!s.inBody ==> s.body == "")
  }

  lemma SegOkStep(s: Seg, c: char)
    requires SegOk(s)
    ensures SegOk(Next(s, c)) && TagsOk(Emit(s, c))
  {
    hide OpenTags, CloseTags, CouldBe;
    StarterCouldBe(s.inBody, c);
    assert s.pending == "" ==> s.pending + [c] == [c];
  }

  lemma TotalsSnoc(ps: seq<Piece>, p: Piece)
    ensures RawOf(ps + [p]) == RawOf(ps) + Raw(p)
    ensures BodiesOf(ps + [p]) == BodiesOf(ps) + if p.Closed? then p.body else ""
    ensures ThinkingOf(ps + [p]) == ThinkingOf(ps) + if p.Thought? then p.text else ""
  {
    assert (ps + [p])[..|ps|] == ps;
  }

  /** The pieces and the buffer make up the input; the bodies committed and the one begun make up the thinking. */
  predicate Accounted(s: Seg, ps: seq<Piece>, input: string) {
    RawOf(ps) + s.pending == input && BodiesOf(ps) + s.body == ThinkingOf(ps)
  }

  lemma AccountedStep(s: Seg, ps: seq<Piece>, input: string, c: char)
    requires Accounted(s, ps, input) && SegOk(s)
    ensures Accounted(Next(s, c), ps + Emit(s, c), input + [c])
  {
    hide OpenTags, CloseTags, CouldBe, Judge, ThinkingOf, RawOf, BodiesOf;
    var qs := Emit(s, c);
    assert input + [c] == RawOf(ps) + (s.pending + [c]);
    if qs == [] {
      assert ps + qs == ps;
    } else {
      TotalsSnoc(ps, qs[0]);
      assert qs == [qs[0]];
      assert RawOf(ps) + (s.pending + [c]) + "" == input + [c];
      assert BodiesOf(ps) + s.body + (s.pending + [c]) == BodiesOf(ps) + (s.body + (s.pending + [c]));
    }
  }

  lemma TagsConcat(ps: seq<Piece>, qs: seq<Piece>)
    requires TagsOk(ps) && TagsOk(qs)
    ensures TagsOk(ps + qs)
  {
    hide OpenTags, CloseTags;
  }

  lemma NothingYet()
    ensures Accounted(START, [], "") && TagsOk([]) && SegOk(START)
    ensures End(START, "") == START && Pieces(START, "") == []
  {
  }

  /** Every byte of the stream is accounted for, once and in order: it is text, thinking, part of a tag that was
      recognized, or still buffered; and the bodies, committed or begun, are the thinking. */
  lemma {:induction false} NothingLost(input: string)
    ensures Accounted(End(START, input), Pieces(START, input), input)
    ensures TagsOk(Pieces(START, input)) && SegOk(End(START, input))
  {
    hide Next, Emit, OpenTags, CloseTags, CouldBe, RawOf, BodiesOf, ThinkingOf, End, Pieces, Accounted, TagsOk, SegOk;
    if input == "" {
      NothingYet();
    } else {
      var n := |input| - 1;
      NothingLost(input[..n]);
      assert input[..n] + [input[n]] == input;
      NothingLostStep(input[..n], input[n]);
    }
  }

  lemma NothingLostStep(before: string, c: char)
    requires Accounted(End(START, before), Pieces(START, before), before)
    requires TagsOk(Pieces(START, before)) && SegOk(End(START, before))
    ensures Accounted(End(START, before + [c]), Pieces(START, before + [c]), before + [c])
    ensures TagsOk(Pieces(START, before + [c])) && SegOk(End(START, before + [c]))
  {
    hide Next, Emit, OpenTags, CloseTags, CouldBe, RawOf, BodiesOf, ThinkingOf, End, Pieces, Accounted, TagsOk, SegOk;
    var s, ps := End(START, before), Pieces(START, before);
    AccountedStep(s, ps, before, c);
    SegOkStep(s, c);
    SnocRun(START, before, c);
    TagsConcat(ps, Emit(s, c));
  }

  // ---------------------------------------------------------------- what is shown

  /** A byte of the input that is inside a thought, with nothing buffered before it, and not ASCII. */
  ghost predicate Mangled(input: string, k: nat)
    requires k < |input|
  {
    High(input[k]) && End(START, input[..k]).inBody && End(START, input[..k]).pending == ""
  }

  ghost predicate SomeMangledPiece(ps: seq<Piece>) {
    exists k :: 0 <= k < |ps| && MangledPiece(ps[k])
  }

  ghost predicate SomeMangled(input: string) {
    exists k :: 0 <= k < |input| && Mangled(input, k)
  }

  predicate MangledPiece(p: Piece) {
    p.Thought? && |p.text| == 1 && High(p.text[0])
  }

  /** What is shown is never shorter than the thinking, and of the same length only if it is the thinking. */
  lemma {:induction false} ShownLength(ps: seq<Piece>)
    ensures |Outs(ps).grown| >= |ThinkingOf(ps)|
    ensures (forall k :: 0 <= k < |ps| ==> !MangledPiece(ps[k])) ==> Outs(ps).grown == ThinkingOf(ps)
    ensures (exists k :: 0 <= k < |ps| && MangledPiece(ps[k])) ==> |Outs(ps).grown| > |ThinkingOf(ps)|
  {
    if ps != [] {
      var n := |ps| - 1;
      ShownLength(ps[..n]);
      assert forall k :: 0 <= k < n ==> ps[..n][k] == ps[k];
    }
  }

  lemma EmitMangles(s: Seg, c: char)
    ensures (Emit(s, c) != [] && MangledPiece(Emit(s, c)[0])) <==> High(c) && s.inBody && s.pending == ""
    ensures |Emit(s, c)| <= 1
  {
    hide Tags, CouldBe;
    assert s.pending == "" ==> s.pending + [c] == [c];
  }

  lemma {:induction false} MangledPieces(input: string)
    ensures SomeMangledPiece(Pieces(START, input)) <==> SomeMangled(input)
  {
    hide Emit, Next, MangledPiece, SomeMangled, SomeMangledPiece;
    if input != "" {
      var n := |input| - 1;
      MangledPieces(input[..n]);
      EmitMangles(End(START, input[..n]), input[n]);
      MangledSnoc(Pieces(START, input[..n]), Emit(End(START, input[..n]), input[n]));
      MangledPrefix(input);
    } else {
      NoneMangled();
    }
  }

  lemma NoneMangled()
    ensures !SomeMangled("") && Pieces(START, "") == [] && !SomeMangledPiece([])
  {
  }

  lemma MangledSnoc(ps: seq<Piece>, qs: seq<Piece>)
    requires |qs| <= 1
    ensures SomeMangledPiece(ps + qs) <==> SomeMangledPiece(ps) || (qs != [] && MangledPiece(qs[0]))
  {
    hide MangledPiece;
    assert forall k :: 0 <= k < |ps| ==> (ps + qs)[k] == ps[k];
    if qs != [] {
      assert (ps + qs)[|ps|] == qs[0];
    }
  }

  lemma MangledPrefix(input: string)
    requires input != ""
    ensures SomeMangled(input) <==> SomeMangled(input[..|input| - 1]) || Mangled(input, |input| - 1)
  {
    hide End;
    var n := |input| - 1;
    forall k | 0 <= k < n ensures Mangled(input[..n], k) <==> Mangled(input, k) {
      assert input[..n][..k] == input[..k] && input[..n][k] == input[k];
    }
  }

  /** The thinking shown as it grows is the thinking that is committed exactly if no byte of it comes mangled. */
  lemma GrownIsThinkingIff(input: string)
    ensures Outs(Pieces(START, input)).grown == ThinkingOf(Pieces(START, input)) <==>
              forall k :: 0 <= k < |input| ==> !Mangled(input, k)
  {
    ShownLength(Pieces(START, input));
    MangledPieces(input);
  }

  lemma TagAscii(inBody: bool, k: nat)
    requires k < |Tags(inBody)|
    ensures Ascii(Tags(inBody)[k])
  {
  }

  lemma HighIsNoTag(inBody: bool, p: string, i: nat)
    requires i < |p| && High(p[i])
    ensures !CouldBe(Tags(inBody), p) && p !in Tags(inBody)
  {
    hide OpenTags, CloseTags;
    forall k | 0 <= k < |Tags(inBody)| ensures !(p <= Tags(inBody)[k]) {
      TagAscii(inBody, k);
    }
  }

  /** Behind a fragment, a byte that is not ASCII is passed on with the fragment. */
  lemma HighAfterFragment(s: Seg, c: char)
    requires s.pending != "" && High(c)
    ensures Next(s, c) == After(s, s.pending + [c])
  {
    hide Tags, CouldBe;
    HighIsNoTag(s.inBody, s.pending + [c], |s.pending|);
  }

  /** For text, that is exactly if all its thoughts are ASCII: a character that is not has a byte that comes
      mangled. */
  lemma GrownIsThinkingForText(input: string)
    requires Utf8Shaped(input)
    ensures Outs(Pieces(START, input)).grown == ThinkingOf(Pieces(START, input)) <==>
              forall k :: 0 <= k < |input| && End(START, input[..k]).inBody ==> !High(input[k])
  {
    GrownIsThinkingIff(input);
    hide Outs, Pieces, ThinkingOf;
    if k :| 0 <= k < |input| && End(START, input[..k]).inBody && High(input[k]) {
      if !Mangled(input, k) {
        MangledNext(input, k);
        assert Mangled(input, k + 1);
      }
    }
  }

  lemma MangledNext(input: string, k: nat)
    requires Utf8Shaped(input) && k < |input| && High(input[k])
    requires End(START, input[..k]).inBody && End(START, input[..k]).pending != ""
    ensures k + 1 < |input| && Mangled(input, k + 1)
  {
    hide End, Next, CouldBe, Tags;
    var s := End(START, input[..k]);
    BufferBegins(input[..k]);
    BufferedCouldBe(START, input[..k]);
    assert k > 0 && s.pending[|s.pending| - 1] == input[k - 1];
    assert InCharacter(input, k);
    if High(input[k - 1]) {
      HighIsNoTag(s.inBody, s.pending, |s.pending| - 1);
    }
    HighAfterFragment(s, input[k]);
    assert input[..k] + [input[k]] == input[..k + 1];
    SnocRun(START, input[..k], input[k]);
  }

  // ---------------------------------------------------------------- round trip

  predicate OccursAt(p: string, t: string, i: nat) {
    i + |p| <= |t| && t[i..i + |p|] == p
  }

  ghost predicate Occurs(p: string, t: string) {
    exists i :: OccursAt(p, t, i)
  }

  ghost predicate NoTagIn(inBody: bool, t: string) {
    forall k :: 0 <= k < |Tags(inBody)| ==> !Occurs(Tags(inBody)[k], t)
  }

  /** No tag of the side occurs in t, and none begins in it. */
  ghost predicate Clean(inBody: bool, t: string) {
    NoTagIn(inBody, t) && forall i :: 0 <= i < |t| ==> !CouldBe(Tags(inBody), t[i..])
  }

  /** What the machine hands on when it has passed t on, apart from how thinking is shown. */
  predicate HandsOn(s: Seg, ps: seq<Piece>, t: string) {
    && Outs(ps).commits == []
    && if s.inBody then Outs(ps).text == "" else Outs(ps).text == t && Outs(ps).grown == ""
  }

  /** From s, the machine passes on t, behind what it had buffered, and buffers nothing. */
  predicate Passes(s: Seg, t: string) {
    End(s, t) == After(s, s.pending + t) && HandsOn(s, Pieces(s, t), s.pending + t)
  }

  lemma HandsOnConcat(s: Seg, ps: seq<Piece>, x: string, qs: seq<Piece>, y: string)
    requires HandsOn(s, ps, x) && HandsOn(s, qs, y)
    ensures HandsOn(s, ps + qs, x + y)
  {
    hide Outs;
    OutsConcat(ps, qs);
  }

  lemma PassTwice(s: Seg, x: string, y: string)
    ensures After(After(s, x), y) == After(s, x + y)
  {
    assert s.body + x + y == s.body + (x + y);
  }

  lemma SameSide(s: Seg, s': Seg, ps: seq<Piece>, t: string)
    requires s.inBody == s'.inBody && HandsOn(s, ps, t)
    ensures HandsOn(s', ps, t)
  {
  }

  lemma PassesConcat(s: Seg, a: string, b: string)
    requires Passes(s, a) && Passes(After(s, s.pending + a), b)
    ensures Passes(s, a + b)
  {
    hide End, Pieces, HandsOn;
    var x := s.pending + a;
    RunConcat(s, a, b);
    assert "" + b == b && s.pending + (a + b) == x + b;
    SameSide(After(s, x), s, Pieces(After(s, x), b), b);
    HandsOnConcat(s, Pieces(s, a), x, Pieces(After(s, x), b), b);
    PassTwice(s, x, b);
  }

  lemma RunNothing(s: Seg)
    ensures End(s, "") == s && Pieces(s, "") == [] && Outs([]) == NOTHING
  {
  }

  lemma OneOut(p: Piece)
    ensures Outs([p]) == OutOf(p)
  {
    assert [p][..0] == [];
  }

  /** A candidate that fails is passed on with everything buffered for it. */
  lemma PassStep(s: Seg, c: char)
    requires Judge(s.inBody, s.pending + [c]).PassOn?
    ensures Passes(s, [c])
  {
    hide OpenTags, CloseTags, CouldBe, Judge, End, Pieces, HandsOn;
    RunNothing(s);
    assert "" + [c] == [c];
    SnocRun(s, "", c);
    assert Pieces(s, [c]) == Emit(s, c) == [Pass(s.inBody, s.pending + [c])];
    OnePassed(s, s.pending + [c]);
  }

  /** After k bytes of a text without tags, all but what is buffered has been passed on. */
  predicate PassedSoFar(s: Seg, t: string, k: nat)
    requires k <= |t|
  {
    var e := End(s, t[..k]);
    && e.inBody == s.inBody && |e.pending| <= k && e.pending == t[k - |e.pending|..k]
    && e.(pending := "") == After(s, t[..k - |e.pending|])
    && HandsOn(s, Pieces(s, t[..k]), t[..k - |e.pending|])
  }

  lemma NoTake(inBody: bool, t: string, k: nat, p: string)
    requires NoTagIn(inBody, t) && k < |t| && |p| <= k + 1 && p == t[k + 1 - |p|..k + 1]
    ensures p !in Tags(inBody)
  {
    hide OpenTags, CloseTags;
    assert OccursAt(p, t, k + 1 - |p|);
    assert Occurs(p, t);
  }

  lemma PassedStep(s: Seg, t: string, k: nat)
    requires NoTagIn(s.inBody, t) && k < |t| && PassedSoFar(s, t, k)
    ensures PassedSoFar(s, t, k + 1)
  {
    hide End, Pieces, Tags, CouldBe, HandsOn, NoTagIn;
    var e := End(s, t[..k]);
    var p := e.pending + [t[k]];
    assert p == t[k + 1 - |p|..k + 1];
    NoTake(s.inBody, t, k, p);
    assert t[..k] + [t[k]] == t[..k + 1];
    SnocRun(s, t[..k], t[k]);
    if Judge(s.inBody, p).Buffer? {
      assert Pieces(s, t[..k]) + [] == Pieces(s, t[..k]);
    } else {
      var before := t[..k - |e.pending|];
      assert before + p == t[..k + 1];
      PassTwice(s, before, p);
      OnePassed(s, p);
      HandsOnConcat(s, Pieces(s, t[..k]), before, [Pass(s.inBody, p)], p);
    }
  }

  lemma OnePassed(s: Seg, p: string)
    ensures HandsOn(s, [Pass(s.inBody, p)], p)
  {
    OneOut(Pass(s.inBody, p));
  }

  lemma {:induction false} NoTagPasses(s: Seg, t: string, k: nat)
    requires s.pending == "" && NoTagIn(s.inBody, t) && k <= |t|
    ensures PassedSoFar(s, t, k)
  {
    hide PassedSoFar, NoTagIn;
    if k == 0 {
      PassesNothing(s, t);
    } else {
      NoTagPasses(s, t, k - 1);
      PassedStep(s, t, k - 1);
    }
  }

  lemma PassesNothing(s: Seg, t: string)
    requires s.pending == ""
    ensures PassedSoFar(s, t, 0)
  {
    RunNothing(s);
    assert s.body + "" == s.body && t[..0] == "";
  }

  /** What is buffered may become a tag. */
  lemma {:induction false} BufferedCouldBe(s: Seg, t: string)
    requires s.pending == ""
    ensures End(s, t).pending != "" ==>
              CouldBe(Tags(End(s, t).inBody), End(s, t).pending) && End(s, t).pending !in Tags(End(s, t).inBody)
  {
    hide Tags, CouldBe;
    if t != "" {
      var n := |t| - 1;
      BufferedCouldBe(s, t[..n]);
      StarterCouldBe(End(s, t[..n]).inBody, t[n]);
      assert End(s, t[..n]).pending == "" ==> End(s, t[..n]).pending + [t[n]] == [t[n]];
    }
  }

  lemma StarterCouldBe(inBody: bool, c: char)
    ensures Starter(c) ==> CouldBe(Tags(inBody), [c]) && [c] !in Tags(inBody)
  {
    if Starter(c) {
      assert [c] <= Tags(inBody)[if c == '|' then 0 else 1];
      TagStarts(inBody, Tags(inBody)[0]);
      if [c] in Tags(inBody) {
        TagStarts(inBody, [c]);
      }
    }
  }

  lemma CleanPasses(s: Seg, t: string)
    requires s.pending == "" && Clean(s.inBody, t)
    ensures Passes(s, t)
  {
    hide End, Pieces, HandsOn, CouldBe, Tags, NoTagIn;
    NoTagPasses(s, t, |t|);
    BufferedCouldBe(s, t);
    assert t[..|t|] == t;
    var p := End(s, t).pending;
    assert p == t[|t| - |p|..];
    assert s.pending + t == t && t[..|t| - |p|] == t;
  }

  predicate HasNoStarter(t: string) {
    forall k :: 0 <= k < |t| ==> !Starter(t[k])
  }

  lemma PlainIsClean(inBody: bool, t: string)
    requires HasNoStarter(t)
    ensures Clean(inBody, t)
  {
    hide OpenTags, CloseTags;
    forall k | 0 <= k < |Tags(inBody)| ensures |Tags(inBody)[k]| > 0 && Starter(Tags(inBody)[k][0]) {
      TagStarts(inBody, Tags(inBody)[k]);
    }
    forall k | 0 <= k < |Tags(inBody)| ensures !Occurs(Tags(inBody)[k], t) {
      var m := Tags(inBody)[k];
      forall i: nat ensures !OccursAt(m, t, i) {
        assert i + |m| <= |t| ==> t[i..i + |m|][0] == t[i];
      }
    }
    forall i | 0 <= i < |t| ensures !CouldBe(Tags(inBody), t[i..]) {
      assert t[i..][0] == t[i];
    }
  }

  lemma PlainPasses(s: Seg, t: string)
    requires s.pending == "" && HasNoStarter(t)
    ensures Passes(s, t)
  {
    hide Passes;
    PlainIsClean(s.inBody, t);
    CleanPasses(s, t);
  }

  /** No tag is the beginning of another, so none is taken for complete too early. */
  lemma PrefixFree(inBody: bool, t: string, k: nat)
    requires t in Tags(inBody) && k < |t|
    ensures t[..k] !in Tags(inBody)
  {
    hide OpenTags, CloseTags;
    var j :| 0 <= j < |Tags(inBody)| && Tags(inBody)[j] == t;
    forall i | 0 <= i < |Tags(inBody)| ensures t[..k] != Tags(inBody)[i] {
      NoTagBegins(inBody, i, j, k);
    }
  }

  lemma NoTagBegins(inBody: bool, i: nat, j: nat, k: nat)
    requires i < |Tags(inBody)| && j < |Tags(inBody)| && k < |Tags(inBody)[j]|
    ensures Tags(inBody)[j][..k] != Tags(inBody)[i]
  {
    var m, t := Tags(inBody)[i], Tags(inBody)[j];
    if |m| == k {
      assert m[0] != t[0] || m[1] != t[1] || m[2] != t[2] || m[6] != t[6] || (k > 7 && m[7] != t[7]);
    }
  }

  /** Tags hold a bar only in front, and an angle there or, in one of them, right after the bar. */
  predicate TagShape(inBody: bool, t: string) {
    && |t| >= 6 && Starter(t[0])
    && (forall i :: 2 <= i < |t| ==> !Starter(t[i]))
    && (if t == Tags(inBody)[0] then t[0] == '|' && t[1] == '<' else !Starter(t[1]))
  }

  lemma OpenTagShape(k: nat)
    requires k < 6
    ensures TagShape(false, OpenTags()[k])
  {
  }

  lemma CloseTagShape(k: nat)
    requires k < 6
    ensures TagShape(true, CloseTags()[k])
  {
  }

  lemma TagStarts(inBody: bool, t: string)
    requires t in Tags(inBody)
    ensures TagShape(inBody, t) && |Tags(inBody)| == 6
  {
    var k :| 0 <= k < |Tags(inBody)| && Tags(inBody)[k] == t;
    assert k < 6;
    hide TagShape;
    if inBody {
      CloseTagShape(k);
    } else {
      OpenTagShape(k);
    }
  }

  lemma BarPrefixed(inBody: bool)
    ensures var ts := Tags(inBody); |ts| == 6 && ts[0] == "|" + ts[1] && ts[0] in ts && ts[1] in ts && "<" <= ts[1]
  {
  }

  lemma TagPrefixBuffers(inBody: bool, t: string, k: nat)
    requires t in Tags(inBody) && 1 <= k < |t|
    ensures Judge(inBody, t[..k]).Buffer?
  {
    TagStarts(inBody, t);
    PrefixFree(inBody, t, k);
    hide Tags;
    assert t[..k] <= t && CouldBe(Tags(inBody), t[..k]);
    assert t[..k][0] == t[0];
  }

  lemma {:induction false} RunTagPrefix(s: Seg, t: string, k: nat)
    requires s.pending == "" && t in Tags(s.inBody) && k < |t|
    ensures End(s, t[..k]) == s.(pending := t[..k]) && Pieces(s, t[..k]) == []
  {
    hide End, Pieces, Tags, Judge;
    if k == 0 {
      RunNothing(s);
    } else {
      RunTagPrefix(s, t, k - 1);
      TagPrefixBuffers(s.inBody, t, k);
      assert t[..k - 1] + [t[k - 1]] == t[..k];
      SnocRun(s, t[..k - 1], t[k - 1]);
    }
  }

  lemma TakeStep(s: Seg, c: char)
    requires Judge(s.inBody, s.pending + [c]).Take?
    ensures Next(s, c) == Switch(s)
    ensures Emit(s, c) == [if s.inBody then Closed(s.pending + [c], s.body) else Opened(s.pending + [c])]
  {
  }

  lemma RunTag(s: Seg, t: string)
    requires s.pending == "" && t in Tags(s.inBody)
    ensures End(s, t) == Switch(s) && Pieces(s, t) == [if s.inBody then Closed(t, s.body) else Opened(t)]
  {
    hide End, Pieces, Tags, OpenTags, CloseTags, CouldBe, Next, Emit;
    var n := |t| - 1;
    TagStarts(s.inBody, t);
    hide TagShape;
    RunTagPrefix(s, t, n);
    var s1 := s.(pending := t[..n]);
    assert t[..n] + [t[n]] == t && Judge(s.inBody, t).Take?;
    SnocRun(s, t[..n], t[n]);
    TakeStep(s1, t[n]);
  }

  /** Text followed by a folded thought. */
  datatype Part = Part(text: string, open: string, body: string, close: string)

  ghost predicate IsPart(p: Part) {
    Clean(false, p.text) && p.open in Tags(false) && Clean(true, p.body) && p.close in Tags(true)
  }

  function PrintPart(p: Part): string {
    (p.text + p.open) + (p.body + p.close)
  }

  function Print(parts: seq<Part>): string {
    if parts == [] then "" else Print(parts[..|parts| - 1]) + PrintPart(parts[|parts| - 1])
  }

  /** The texts of the parts, and their thoughts. */
  function Texts(parts: seq<Part>): string {
    if parts == [] then "" else Texts(parts[..|parts| - 1]) + parts[|parts| - 1].text
  }

  function Thoughts(parts: seq<Part>): seq<string> {
    if parts == [] then []
    else Thoughts(parts[..|parts| - 1]) + if parts[|parts| - 1].body != "" then [parts[|parts| - 1].body] else []
  }

  lemma RunTextAndTag(s: Seg, t: string, tag: string)
    requires s.pending == "" && Clean(s.inBody, t) && tag in Tags(s.inBody)
    ensures End(s, t + tag) == Switch(After(s, t))
    ensures Outs(Pieces(s, t + tag)).text == if s.inBody then "" else t
    ensures Outs(Pieces(s, t + tag)).commits == if s.inBody && s.body + t != "" then [s.body + t] else []
  {
    hide End, Pieces, Outs, Clean, Tags;
    CleanPasses(s, t);
    assert s.pending + t == t;
    RunTag(After(s, t), tag);
    RunConcat(s, t, tag);
    var p := if s.inBody then Closed(tag, s.body + t) else Opened(tag);
    OutsConcat(Pieces(s, t), [p]);
    OneOut(p);
  }

  lemma RunPart(p: Part)
    requires IsPart(p)
    ensures End(START, PrintPart(p)) == START
    ensures Outs(Pieces(START, PrintPart(p))).text == p.text
    ensures Outs(Pieces(START, PrintPart(p))).commits == if p.body != "" then [p.body] else []
  {
    hide End, Pieces, Outs, Clean, Tags;
    var s1 := Seg(true, "", "");
    RunTextAndTag(START, p.text, p.open);
    RunTextAndTag(s1, p.body, p.close);
    RunConcat(START, p.text + p.open, p.body + p.close);
    OutsConcat(Pieces(START, p.text + p.open), Pieces(s1, p.body + p.close));
    assert "" + p.body == p.body;
  }

  /** A stream of texts and thoughts, with any of the spellings on either side, is split into exactly its text and its
      thoughts, in order and without a trace of the tags, if no text holds an opening tag or ends in the beginning
      of one, and no thought does so with a closing tag. */
  lemma {:induction false} PrintSplits(parts: seq<Part>)
    requires forall k :: 0 <= k < |parts| ==> IsPart(parts[k])
    ensures End(START, Print(parts)) == START
    ensures Outs(Pieces(START, Print(parts))).text == Texts(parts)
    ensures Outs(Pieces(START, Print(parts))).commits == Thoughts(parts)
  {
    hide IsPart, PrintPart, Next, Emit, OutOf;
    if parts != [] {
      var n := |parts| - 1;
      PrintSplits(parts[..n]);
      RunPart(parts[n]);
      RunConcat(START, Print(parts[..n]), PrintPart(parts[n]));
      OutsConcat(Pieces(START, Print(parts[..n])), Pieces(START, PrintPart(parts[n])));
    }
  }

  // ---------------------------------------------------------------- tags that are missed

  /** A tag that comes while a candidate p is buffered is recognized only if the two together are a tag, or if it
      is the one spelling whose own tail is a tag; otherwise its bytes are passed on like any text: an opening
      tag leaks into the answer, a closing tag into the thought, which then goes on. */
  lemma TagAfterFragmentIff(s: Seg, t: string)
    requires SegOk(s) && s.pending != "" && t in Tags(s.inBody)
    ensures End(s, t).inBody != s.inBody <==>
              (s.pending == "|" && t == Tags(s.inBody)[1]) || t == Tags(s.inBody)[0]
    ensures End(s, t).inBody == s.inBody ==> Passes(s, t)
  {
    hide End, Pieces, Outs, OpenTags, CloseTags, CouldBe;
    TagStarts(s.inBody, t);
    BarPrefixed(s.inBody);
    if s.pending == "|" && t[0] == '<' {
      AngleAfterPipe(s, t);
    } else {
      FragmentFails(s.inBody, s.pending, t[0]);
      PassStep(s, t[0]);
      var s1 := After(s, s.pending + [t[0]]);
      RunConcat(s, [t[0]], t[1..]);
      assert t == [t[0]] + t[1..];
      if t == Tags(s.inBody)[0] {
        assert t[1..] == Tags(s.inBody)[1];
        RunTag(s1, t[1..]);
      } else {
        PlainPasses(s1, t[1..]);
        PassesConcat(s, [t[0]], t[1..]);
      }
    }
  }

  /** How far a tag agrees with the angle spelling that may follow a bar. */
  function Agreement(inBody: bool, t: string): nat {
    (if t == Tags(inBody)[3] then 6 else if t == Tags(inBody)[4] then 3 else 1) + (if inBody then 1 else 0)
  }

  lemma AgreementEnds(inBody: bool, t: string)
    requires t in Tags(inBody) && t[0] == '<' && t != Tags(inBody)[1]
    ensures var k, m := Agreement(inBody, t), Tags(inBody)[0];
            1 <= k < |t| && k + 2 < |m| && "|" + t[..k] == m[..k + 1] && m[k + 1] != t[k]
  {
    var k, m := Agreement(inBody, t), Tags(inBody)[0];
    assert forall i :: 0 <= i < k ==> t[i] == m[i + 1];
  }

  /** Only the first tag has an angle right after the bar. */
  lemma BarAngle(inBody: bool, p: string, c: char)
    requires |p| >= 2 && p < Tags(inBody)[0] && c != Tags(inBody)[0][|p|]
    ensures Judge(inBody, p + [c]).PassOn?
  {
    hide OpenTags, CloseTags;
    BarPrefixed(inBody);
    var q := p + [c];
    TagStarts(inBody, Tags(inBody)[0]);
    assert q[0] == '|' && q[1] == '<' && q[|p|] == c;
    forall k | 0 <= k < 6 ensures !(q <= Tags(inBody)[k]) {
      TagStarts(inBody, Tags(inBody)[k]);
    }
  }

  lemma AngleAfterPipe(s: Seg, t: string)
    requires s.pending == "|" && t in Tags(s.inBody) && t[0] == '<'
    ensures End(s, t).inBody != s.inBody <==> t == Tags(s.inBody)[1]
    ensures End(s, t).inBody == s.inBody ==> Passes(s, t)
  {
    hide End, Pieces, Outs, OpenTags, CloseTags, CouldBe;
    BarPrefixed(s.inBody);
    var s0, m := s.(pending := ""), Tags(s.inBody)[0];
    TagStarts(s.inBody, m);
    assert m[..1] == "|" && s == s0.(pending := m[..1]);
    RunTagPrefix(s0, m, 1);
    if t == Tags(s.inBody)[1] {
      assert m == m[..1] + t;
      RunConcat(s0, m[..1], t);
      RunTag(s0, m);
    } else {
      AngleFails(s, s0, t);
    }
  }

  lemma AngleFails(s: Seg, s0: Seg, t: string)
    requires s0.pending == "" && t in Tags(s0.inBody) && t[0] == '<' && t != Tags(s0.inBody)[1]
    requires s == s0.(pending := "|") && End(s0, "|") == s && Pieces(s0, "|") == []
    ensures Passes(s, t)
  {
    hide End, Pieces, Outs, OpenTags, CloseTags, CouldBe, Agreement, Tags;
    BarPrefixed(s.inBody);
    var k, m := Agreement(s.inBody, t), Tags(s.inBody)[0];
    AgreementEnds(s.inBody, t);
    TagStarts(s.inBody, m);
    TagStarts(s.inBody, t);
    RunTagPrefix(s0, m, k + 1);
    BarAngle(s.inBody, m[..k + 1], t[k]);
    BufferedSoFar(s, s0, t[..k], m[..k + 1]);
    var s1 := s.(pending := m[..k + 1]);
    PassStep(s1, t[k]);
    PassesLater(s, s1, t[..k], t[k]);
    assert t[..k] + [t[k]] == t[..k + 1] && t == t[..k + 1] + t[k + 1..];
    PlainPasses(After(s, s.pending + t[..k + 1]), t[k + 1..]);
    PassesConcat(s, t[..k + 1], t[k + 1..]);
  }

  lemma PassesLater(s: Seg, s1: Seg, a: string, c: char)
    requires End(s, a) == s1 == s.(pending := s.pending + a) && Pieces(s, a) == [] && Passes(s1, [c])
    ensures Passes(s, a + [c])
  {
    hide End, Pieces, HandsOn;
    RunConcat(s, a, [c]);
    assert [] + Pieces(s1, [c]) == Pieces(s1, [c]) && s1.pending + [c] == s.pending + (a + [c]);
    SameSide(s1, s, Pieces(s1, [c]), s1.pending + [c]);
  }

  lemma BufferedSoFar(s: Seg, s0: Seg, a: string, b: string)
    requires End(s0, "|") == s && Pieces(s0, "|") == [] && "|" + a == b
    requires End(s0, b) == s0.(pending := b) && Pieces(s0, b) == []
    ensures End(s, a) == s0.(pending := b) && Pieces(s, a) == []
  {
    RunConcat(s0, "|", a);
  }

  lemma FragmentFails(inBody: bool, p: string, c: char)
    requires p != "" && CouldBe(Tags(inBody), p) && Starter(c) && !(p == "|" && c == '<')
    ensures Judge(inBody, p + [c]).PassOn?
  {
    hide OpenTags, CloseTags;
    BarPrefixed(inBody);
    forall k | 0 <= k < 6 ensures !(p + [c] <= Tags(inBody)[k]) {
      TagStarts(inBody, Tags(inBody)[k]);
      FragmentFailsFor(inBody, Tags(inBody)[k], p, c);
    }
  }

  lemma FragmentFailsFor(inBody: bool, m: string, p: string, c: char)
    requires TagShape(inBody, m) && p != "" && Starter(c) && !(p == "|" && c == '<')
    ensures !(p + [c] <= m)
  {
    hide Tags;
    assert (p + [c])[|p|] == c;
    if |p| == 1 {
      assert p == [p[0]];
    }
  }

  // ---------------------------------------------------------------- the end of a stream

  /** From position n on, where nothing is buffered, the stream goes on with the beginning of a tag, and ends. */
  ghost predicate EndsInFragment(input: string, n: nat)
    requires n < |input|
  {
    var s := End(START, input[..n]);
    s.pending == "" && exists k :: 0 <= k < |Tags(s.inBody)| && input[n..] < Tags(s.inBody)[k]
  }

  /** Where the machine began to buffer what it buffers. */
  lemma {:induction false} BufferBegins(input: string)
    ensures BeginsAt(input, |End(START, input).pending|)
  {
    hide End, BeginsAt;
    if input == "" {
      NothingBuffered();
    } else {
      var (a, c) := (input[..|input| - 1], input[|input| - 1]);
      assert input == a + [c];
      BufferBegins(a);
      BeginsStep(a, c);
    }
  }

  /** The last m bytes of the input are what is buffered, and nothing was before them. */
  predicate BeginsAt(input: string, m: nat) {
    var s := End(START, input);
    && m <= |input| && s.pending == input[|input| - m..]
    && End(START, input[..|input| - m]) == s.(pending := "")
  }

  lemma NothingBuffered()
    ensures BeginsAt("", |End(START, "").pending|)
  {
    RunNothing(START);
  }

  lemma BeginsStep(input: string, c: char)
    requires BeginsAt(input, |End(START, input).pending|)
    ensures BeginsAt(input + [c], |End(START, input + [c]).pending|)
  {
    hide Next, Emit, End, BeginsAt;
    var s := End(START, input);
    SnocRun(START, input, c);
    BuffersOrNot(s, c);
    if Next(s, c).pending == "" {
      BeginsAtEnd(input + [c]);
    } else {
      BeginsBefore(input, c);
    }
  }

  lemma BeginsAtEnd(input: string)
    requires End(START, input).pending == ""
    ensures BeginsAt(input, 0)
  {
    hide End;
    assert input[..|input|] == input;
  }

  lemma BeginsBefore(input: string, c: char)
    requires BeginsAt(input, |End(START, input).pending|)
    requires var s := End(START, input); End(START, input + [c]) == s.(pending := s.pending + [c])
    ensures BeginsAt(input + [c], |End(START, input).pending| + 1)
  {
    hide End;
    var m := |input| - |End(START, input).pending|;
    assert (input + [c])[..m] == input[..m];
    assert (input + [c])[m..] == input[m..] + [c];
  }

  lemma BuffersOrNot(s: Seg, c: char)
    ensures Next(s, c).pending == "" || Next(s, c) == s.(pending := s.pending + [c])
  {
    hide Judge;
  }

  /** The end of a turn drops what is still buffered. The stream survives whole, as text, tags and thinking, exactly
      if it does not end in a fragment; if it does, exactly the fragment is lost. */
  lemma StreamSurvivesIff(input: string)
    ensures RawOf(Pieces(START, input)) == input <==> forall n :: 0 <= n < |input| ==> !EndsInFragment(input, n)
    ensures forall n :: 0 <= n < |input| && EndsInFragment(input, n) ==> RawOf(Pieces(START, input)) == input[..n]
  {
    hide End, Pieces, RawOf, OpenTags, CloseTags, EndsInFragment, Accounted;
    RawIsPrefix(input);
    forall n | 0 <= n < |input| && EndsInFragment(input, n) ensures RawOf(Pieces(START, input)) == input[..n] {
      FragmentIsBuffered(input, n);
    }
    if End(START, input).pending != "" {
      BufferIsFragment(input);
    }
  }

  lemma RawIsPrefix(input: string)
    ensures var p := End(START, input).pending;
            |p| <= |input| && p == input[|input| - |p|..] && RawOf(Pieces(START, input)) == input[..|input| - |p|]
  {
    NothingLost(input);
    hide End, Pieces, RawOf;
    var raw, p := RawOf(Pieces(START, input)), End(START, input).pending;
    assert (raw + p)[..|raw|] == raw && (raw + p)[|raw|..] == p;
  }

  lemma BufferIsFragment(input: string)
    requires End(START, input).pending != ""
    ensures var n := |input| - |End(START, input).pending|; 0 <= n < |input| && EndsInFragment(input, n)
  {
    hide End, OpenTags, CloseTags;
    BufferBegins(input);
    BufferedCouldBe(START, input);
    var s := End(START, input);
    var k :| 0 <= k < |Tags(s.inBody)| && s.pending <= Tags(s.inBody)[k];
    assert Tags(s.inBody)[k] in Tags(s.inBody) && s.pending != Tags(s.inBody)[k];
    assert input[|input| - |s.pending|..] < Tags(s.inBody)[k];
  }

  lemma FragmentIsBuffered(input: string, n: nat)
    requires n < |input| && EndsInFragment(input, n)
    ensures End(START, input).pending == input[n..]
  {
    hide End, Pieces, Tags;
    var s := End(START, input[..n]);
    var k :| 0 <= k < |Tags(s.inBody)| && input[n..] < Tags(s.inBody)[k];
    var (t, u) := (Tags(s.inBody)[k], input[n..]);
    assert t[..|u|] == u;
    RunTagPrefix(s, t, |u|);
    RunConcat(START, input[..n], u);
    assert input[..n] + u == input;
  }

  /** In particular nothing is lost of a stream no end of which begins a tag. */
  lemma CleanEndSurvives(input: string)
    requires forall n, b :: 0 <= n < |input| ==> !CouldBe(Tags(b), input[n..])
    ensures RawOf(Pieces(START, input)) == input
  {
    StreamSurvivesIff(input);
    hide End, Pieces, RawOf, OpenTags, CloseTags;
    forall n | 0 <= n < |input| ensures !EndsInFragment(input, n) {
      var s := End(START, input[..n]);
      assert !CouldBe(Tags(s.inBody), input[n..]);
    }
  }
}
