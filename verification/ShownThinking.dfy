/**
 How thinking looks while it grows (internal/askorchicon/thinksegmenter.go:115-141): the machine shows it byte by byte,
 each byte converted to a string of its own, so that a character that is not ASCII comes out as several.
 */
module ShownThinking {
  import opened Bytes
  import opened ThinkSegmenter

  /** Inside a body, with nothing of it seen. */
  const IN := Seg(true, "", "")

  /** What grows while t is fed inside a body. */
  function ShownAs(t: string): string {
    Outs(Pieces(IN, t)).grown
  }

  predicate AllThought(ps: seq<Piece>) {
    forall k :: 0 <= k < |ps| ==> ps[k].Thought?
  }

  /** Fed inside a body, all of t becomes thinking, and nothing of it is buffered. */
  predicate Settles(t: string) {
    End(IN, t) == Seg(true, "", t) && AllThought(Pieces(IN, t))
  }

  lemma AllThoughtConcat(ps: seq<Piece>, qs: seq<Piece>)
    ensures AllThought(ps + qs) <==> AllThought(ps) && AllThought(qs)
  {
    assert forall k :: 0 <= k < |qs| ==> (ps + qs)[|ps| + k] == qs[k];
    assert forall k :: 0 <= k < |ps| ==> (ps + qs)[k] == ps[k];
  }

  /** Same machine, other body: x instead of y before what t adds. */
  predicate Alike(x: string, y: string, t: string) {
    var e, e' := End(Seg(true, "", x), t), End(Seg(true, "", y), t);
    && e.inBody && e'.inBody && e.pending == e'.pending && x <= e.body && e' == e.(body := y + e.body[|x|..])
    && Pieces(Seg(true, "", y), t) == Pieces(Seg(true, "", x), t)
  }

  lemma AlikeStep(x: string, y: string, t: string, c: char)
    requires Alike(x, y, t) && AllThought(Pieces(Seg(true, "", x), t + [c]))
    ensures Alike(x, y, t + [c])
  {
    hide End, Pieces, Tags, CouldBe;
    SnocRun(Seg(true, "", x), t, c);
    SnocRun(Seg(true, "", y), t, c);
    var e := End(Seg(true, "", x), t);
    AllThoughtConcat(Pieces(Seg(true, "", x), t), Emit(e, c));
    var p := e.pending + [c];
    if Judge(true, p).Take? {
      TakeCloses(e, c);
    }
    assert e.body == x + e.body[|x|..];
    assert (e.body + p)[|x|..] == e.body[|x|..] + p && y + (e.body[|x|..] + p) == y + e.body[|x|..] + p;
  }

  lemma TakeCloses(s: Seg, c: char)
    requires s.inBody && Judge(true, s.pending + [c]).Take?
    ensures !AllThought(Emit(s, c))
  {
    hide Tags, CouldBe;
    assert Emit(s, c)[0].Closed?;
  }

  lemma {:induction false} BodyIrrelevant(x: string, y: string, t: string)
    requires AllThought(Pieces(Seg(true, "", x), t))
    ensures Alike(x, y, t)
  {
    hide Alike, End, Pieces, AllThought;
    if t == "" {
      AlikeNothing(x, y);
    } else {
      var n := |t| - 1;
      assert t[..n] + [t[n]] == t;
      SnocRun(Seg(true, "", x), t[..n], t[n]);
      AllThoughtConcat(Pieces(Seg(true, "", x), t[..n]), Emit(End(Seg(true, "", x), t[..n]), t[n]));
      BodyIrrelevant(x, y, t[..n]);
      AlikeStep(x, y, t[..n], t[n]);
    }
  }

  lemma AlikeNothing(x: string, y: string)
    ensures Alike(x, y, "")
  {
    assert y + x[|x|..] == y;
  }

  /** Thinking is shown piece by piece. */
  lemma ShownConcat(x: string, t: string)
    requires Settles(x) && Settles(t)
    ensures Settles(x + t) && ShownAs(x + t) == ShownAs(x) + ShownAs(t)
  {
    hide End, Pieces, Outs, AllThought;
    RunConcat(IN, x, t);
    BodyIrrelevant("", x, t);
    AllThoughtConcat(Pieces(IN, x), Pieces(IN, t));
    OutsConcat(Pieces(IN, x), Pieces(IN, t));
  }

  lemma SettlesNothing()
    ensures Settles("") && ShownAs("") == ""
  {
    RunNothing(IN);
  }

  lemma PassOnStep(s: Seg, c: char)
    requires Judge(s.inBody, s.pending + [c]).PassOn?
    ensures Next(s, c) == After(s, s.pending + [c]) && Emit(s, c) == [Pass(s.inBody, s.pending + [c])]
  {
    hide Judge;
  }

  /** A buffered fragment with the byte that ends it is one piece. */
  lemma PieceSettles(pending: string, c: char)
    requires pending != "" ==> CouldBe(CloseTags(), pending) && pending !in CloseTags()
    requires Judge(true, pending + [c]).PassOn?
    ensures Settles(pending + [c]) && ShownAs(pending + [c]) == Shown(pending + [c])
  {
    hide End, Pieces, Outs, Judge, CouldBe, CloseTags, Next, Emit, AllThought, Shown;
    if pending == "" {
      RunNothing(IN);
    } else {
      FragmentRuns(pending);
    }
    var p := pending + [c];
    PassOnStep(IN.(pending := pending), c);
    SnocRun(IN, pending, c);
    OnePiece(p);
    assert [] + [Thought(p)] == [Thought(p)];
    assert After(IN.(pending := pending), p) == Seg(true, "", p) by { assert "" + p == p; }
  }

  lemma OnePiece(p: string)
    ensures AllThought([Thought(p)]) && Outs([Thought(p)]).grown == Shown(p)
  {
    hide Shown;
    OneOut(Thought(p));
  }

  lemma FragmentRuns(pending: string)
    requires CouldBe(CloseTags(), pending) && pending !in CloseTags()
    ensures End(IN, pending) == IN.(pending := pending) && Pieces(IN, pending) == []
  {
    hide End, Pieces, CloseTags;
    var k :| 0 <= k < |CloseTags()| && pending <= CloseTags()[k];
    assert CloseTags()[k] in CloseTags() && pending != CloseTags()[k];
    assert CloseTags()[k][..|pending|] == pending;
    RunTagPrefix(IN, CloseTags()[k], |pending|);
  }

  // ---------------------------------------------------------------- from the front

  lemma ShownPlainFirst(t: string)
    requires t != "" && Settles(t) && !Starter(t[0])
    ensures Settles(t[1..]) && ShownAs(t) == AsRune(t[0]) + ShownAs(t[1..])
  {
    var x := t[..1];
    assert "" + [t[0]] == x == [t[0]] && t == x + t[1..];
    PieceSettles("", t[0]);
    hide End, Pieces, Outs, AllThought;
    RunConcat(IN, x, t[1..]);
    AllThoughtConcat(Pieces(IN, x), Pieces(Seg(true, "", x), t[1..]));
    BodyIrrelevant(x, "", t[1..]);
    assert "" + t[|x|..] == t[1..];
    OutsConcat(Pieces(IN, x), Pieces(IN, t[1..]));
  }

  /** After a byte that may start a tag, either all is still buffered or that byte was shown first. */
  predicate StarterFirst(t: string, k: nat)
    requires 1 <= k <= |t|
  {
    (End(IN, t[..k]).pending == t[..k] && Pieces(IN, t[..k]) == [])
    || (ShownAs(t[..k]) != "" && ShownAs(t[..k])[0] == t[0])
  }

  lemma StarterFirstStep(t: string, k: nat)
    requires 1 <= k < |t| && StarterFirst(t, k) && AllThought(Pieces(IN, t[..k + 1])) && End(IN, t[..k]).inBody
    ensures StarterFirst(t, k + 1)
  {
    hide End, Pieces, Tags, CouldBe, Outs;
    assert t[..k] + [t[k]] == t[..k + 1];
    SnocRun(IN, t[..k], t[k]);
    var e := End(IN, t[..k]);
    OutsConcat(Pieces(IN, t[..k]), Emit(e, t[k]));
    if Pieces(IN, t[..k]) == [] && e.pending == t[..k] {
      if Judge(true, t[..k + 1]).PassOn? {
        OneOut(Thought(t[..k + 1]));
        assert [] + Emit(e, t[k]) == [Thought(t[..k + 1])];
      } else if Judge(true, t[..k + 1]).Take? {
        assert [] + Emit(e, t[k]) == Emit(e, t[k]);
        TakeCloses(e, t[k]);
      }
    }
  }

  lemma {:induction false} StarterStays(t: string, k: nat)
    requires t != "" && Starter(t[0]) && AllThought(Pieces(IN, t)) && 1 <= k <= |t|
    ensures StarterFirst(t, k)
  {
    hide End, Pieces, AllThought, StarterFirst;
    if k == 1 {
      StarterBuffered(t);
    } else {
      StarterStays(t, k - 1);
      PrefixThought(t, k);
      PrefixThought(t, k - 1);
      StarterFirstStep(t, k - 1);
    }
  }

  lemma StarterBuffered(t: string)
    requires t != "" && Starter(t[0])
    ensures StarterFirst(t, 1)
  {
    RunNothing(IN);
    assert t[..1] == "" + [t[0]] == [t[0]];
    SnocRun(IN, "", t[0]);
  }

  lemma PrefixThought(t: string, k: nat)
    requires AllThought(Pieces(IN, t)) && k <= |t|
    ensures AllThought(Pieces(IN, t[..k])) && End(IN, t[..k]).inBody
  {
    hide End, Pieces, AllThought;
    assert t[..k] + t[k..] == t;
    RunConcat(IN, t[..k], t[k..]);
    AllThoughtConcat(Pieces(IN, t[..k]), Pieces(End(IN, t[..k]), t[k..]));
    BodyIrrelevant("", "", t[..k]);
  }

  lemma ShownStarterFirst(t: string)
    requires t != "" && Settles(t) && Starter(t[0])
    ensures ShownAs(t) != "" && ShownAs(t)[0] == t[0]
  {
    StarterStays(t, |t|);
    assert t[..|t|] == t;
  }

  // ---------------------------------------------------------------- how much is shown

  lemma {:induction false} ThinkingIsBody(t: string)
    requires AllThought(Pieces(IN, t))
    ensures ThinkingOf(Pieces(IN, t)) == End(IN, t).body
  {
    hide End, Pieces, AllThought, ThinkingOf;
    if t == "" {
      RunNothing(IN);
      assert ThinkingOf([]) == "" by { NoThinking(); }
    } else {
      var n := |t| - 1;
      assert t[..n] + [t[n]] == t;
      PrefixThought(t, n);
      ThinkingIsBody(t[..n]);
      ThinkingStep(t[..n], t[n]);
    }
  }

  lemma NoThinking()
    ensures ThinkingOf([]) == ""
  {
  }

  lemma ThinkingStep(t: string, c: char)
    requires AllThought(Pieces(IN, t + [c])) && End(IN, t).inBody && ThinkingOf(Pieces(IN, t)) == End(IN, t).body
    ensures ThinkingOf(Pieces(IN, t + [c])) == End(IN, t + [c]).body
  {
    hide End, Pieces, Tags, CouldBe, ThinkingOf;
    SnocRun(IN, t, c);
    var e, ps := End(IN, t), Pieces(IN, t);
    if Emit(e, c) == [] {
      assert ps + [] == ps;
    } else {
      TotalsSnoc(ps, Emit(e, c)[0]);
      assert (ps + Emit(e, c))[|ps|] == Emit(e, c)[0];
    }
  }

  lemma OpenedThinking(t: string)
    ensures End(START, "<think>") == IN
    ensures Pieces(START, "<think>" + t) == [Opened("<think>")] + Pieces(IN, t)
  {
    assert OpenTags()[3] == "<think>" && "<think>" in Tags(false);
    RunTag(START, "<think>");
    hide End, Pieces;
    RunConcat(START, "<think>", t);
  }

  /** Text of ASCII alone is shown as it is; any other text is shown longer than it is. */
  lemma ShownLengthOf(t: string)
    requires Settles(t) && Utf8Shaped(t)
    ensures Ascii(t) ==> ShownAs(t) == t
    ensures !Ascii(t) ==> |ShownAs(t)| > |t|
  {
    var input := "<think>" + t;
    OpenedThinking(t);
    ThinkingIsBody(t);
    ShownLength(Pieces(IN, t));
    MangledPieces(input);
    hide End, Pieces, Outs, ThinkingOf, MangledPiece;
    MangledSnocFront(Opened("<think>"), Pieces(IN, t));
    if Ascii(t) {
      AsciiNotMangled(t);
    } else {
      HighMangled(t);
    }
  }

  lemma MangledSnocFront(p: Piece, ps: seq<Piece>)
    requires !p.Thought?
    ensures SomeMangledPiece([p] + ps) <==> SomeMangledPiece(ps)
  {
    assert forall k :: 0 <= k < |ps| ==> ([p] + ps)[k + 1] == ps[k];
    assert forall k :: 1 <= k < |[p] + ps| ==> ([p] + ps)[k] == ps[k - 1];
  }

  lemma AsciiNotMangled(t: string)
    requires Ascii(t)
    ensures !SomeMangled("<think>" + t)
  {
    var input := "<think>" + t;
    forall k | 0 <= k < |input| ensures !High(input[k]) {
      assert k >= 7 ==> input[k] == t[k - 7];
    }
  }

  lemma HighMangled(t: string)
    requires !Ascii(t) && Utf8Shaped(t) && AllThought(Pieces(IN, t))
    ensures SomeMangled("<think>" + t)
  {
    hide End, Pieces, AllThought;
    var input := "<think>" + t;
    var i :| 0 <= i < |t| && High(t[i]);
    var k := 7 + i;
    OpenedThinking(t);
    PrefixThought(t, i);
    assert input[..k] == "<think>" + t[..i] && input[k] == t[i];
    RunConcat(START, "<think>", t[..i]);
    TagShaped();
    Utf8Concat("<think>", t);
    if !Mangled(input, k) {
      MangledNext(input, k);
    }
  }

  lemma TagShaped()
    ensures Utf8Shaped("<think>")
  {
  }

  /** A first byte that no white space begins with is not trimmed. */
  lemma NotTrimmed(t: string)
    requires t != "" && !('\t' <= t[0] <= '\r') && t[0] != ' ' && t[0] as int !in {0xC2, 0xE1, 0xE2, 0xE3}
    ensures TrimLeft(t) == t && SpaceAt(t) == 0
  {
  }

  lemma FirstShown(t: string)
    requires t != "" && Settles(t) && Utf8Shaped(t)
    ensures ShownAs(t) != ""
    ensures ShownAs(t)[0] == if High(t[0]) then 0xC3 as char else t[0]
    ensures !High(t[0]) && !Starter(t[0]) ==> Settles(t[1..]) && ShownAs(t)[1..] == ShownAs(t[1..])
  {
    hide Settles, ShownAs;
    assert InCharacter(t, 0);
    if Starter(t[0]) {
      ShownStarterFirst(t);
    } else {
      ShownPlainFirst(t);
    }
  }

  /** Thinking that is not ASCII stays longer than it is even when what is shown of it is trimmed. */
  lemma {:induction false} ShownTrimsLonger(t: string)
    requires Settles(t) && Utf8Shaped(t) && !Ascii(t)
    ensures |TrimLeft(ShownAs(t))| > |TrimLeft(t)|
    decreases |t|
  {
    ShownLengthOf(t);
    FirstShown(t);
    var i :| 0 <= i < |t| && High(t[i]);
    hide Settles, ShownAs, SpaceAt, TrimLeft, Utf8Shaped;
    if '\t' <= t[0] <= '\r' || t[0] == ' ' {
      Utf8Drop(t, 1);
      assert High(t[1..][i - 1]);
      ShownTrimsLonger(t[1..]);
      TrimmedFirst(t);
      TrimmedFirst(ShownAs(t));
    } else {
      NotTrimmed(ShownAs(t));
    }
  }

  lemma TrimmedFirst(t: string)
    requires t != "" && ('\t' <= t[0] <= '\r' || t[0] == ' ')
    ensures TrimLeft(t) == TrimLeft(t[1..])
  {
  }
}
