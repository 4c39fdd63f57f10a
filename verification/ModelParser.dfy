/**
 parseModelOutput of internal/aigateway/models.go: a line and brace-depth machine that reads the listing of
 `opencode models --verbose`. JSON decoding is a parameter: any partial function of the reference and the text.
 */
module ModelParser {
  import opened Common
  import opened Text

  datatype Model = Model(id: string, providerId: string, name: string, modelRef: string, detail: string)

  type Decoder = (string, string) -> Option<Model>

  datatype Listing = Listed(models: seq<Model>) | NothingPrinted | Unreadable

  /** A reference with the text of its metadata block, which is empty for a bare reference. */
  datatype Entry = Entry(ref: string, text: string)

  /** `depth` is the brace depth, negative outside a block; `out` is what was flushed so far. */
  datatype State = State(ref: string, buf: string, depth: int, out: seq<Entry>)

  const START := State("", "", -1, [])

  function ModelFromRef(ref: string): Model {
    var i := IndexOf(ref, '/');
    if i > 0 then Model(ref[i + 1..], ref[..i], ref[i + 1..], ref, "") else Model(ref, "", ref, ref, "")
  }

  /** bufio.ScanLines: lines end at a newline and lose one carriage return before it. */
  function Lines(data: string): seq<string> {
    if data == "" then []
    else
      var i := IndexOf(data, '\n');
      if i < 0 then [DropCR(data)] else [DropCR(data[..i])] + Lines(data[i + 1..])
  }

  function DropCR(line: string): string {
    if line != "" && line[|line| - 1] == '\r' then line[..|line| - 1] else line
  }

  /** What a line adds to the brace depth. */
  function Delta(line: string): int {
    if line == "" then 0
    else Delta(line[..|line| - 1]) + (if line[|line| - 1] == '{' then 1 else if line[|line| - 1] == '}' then -1 else 0)
  }

  predicate IsRef(trimmed: string) {
    '/' in trimmed && !HasPrefix(trimmed, "{")
  }

  predicate OpensBlock(line: string) {
    HasPrefix(TrimSpace(line), "{")
  }

  function Flush(s: State): State {
    if s.ref == "" then s else State("", "", -1, s.out + [Entry(s.ref, s.buf)])
  }

  function Step(s: State, line: string): State {
    if Blank(line) then s
    else if s.depth < 0 then
      if IsRef(TrimSpace(line)) then Flush(s).(ref := TrimSpace(line))
      else if OpensBlock(line) then s.(depth := 1, buf := s.buf + line + "\n")
      else s
    else
      var s1 := s.(depth := s.depth + Delta(line), buf := s.buf + line + "\n");
      if s1.depth == 0 then Flush(s1) else s1
  }

  function Run(s: State, lines: seq<string>): State
    decreases |lines|
  {
    if lines == [] then s else Run(Step(s, lines[0]), lines[1..])
  }

  /** The entries found in a listing. */
  function Found(lines: seq<string>): seq<Entry> {
    Flush(Run(START, lines)).out
  }

  function ModelsOf(e: Entry, decode: Decoder): seq<Model> {
    if e.text == "" then [ModelFromRef(e.ref)]
    else match decode(e.ref, e.text)
      case Some(m) => [m]
      case None => []
  }

  function Decoded(es: seq<Entry>, decode: Decoder): seq<Model> {
    if es == [] then [] else Decoded(es[..|es| - 1], decode) + ModelsOf(es[|es| - 1], decode)
  }

  // ---------------------------------------------------------------- the parser

  method DepthAfter(line: string, depth: int) returns (d: int)
    ensures d == depth + Delta(line)
  {
    d := depth;
    for i := 0 to |line|
      invariant d == depth + Delta(line[..i])
    {
      assert line[..i + 1][..i] == line[..i];
      if line[i] == '{' {
        d := d + 1;
      } else if line[i] == '}' {
        d := d - 1;
      }
    }
    assert line[..|line|] == line;
  }

  method FlushEntry(models: seq<Model>, currentRef: string, jsonBuf: string, bracing: int, decode: Decoder,
                    ghost out: seq<Entry>)
    returns (models': seq<Model>, currentRef': string, jsonBuf': string, bracing': int)
    requires models == Decoded(out, decode)
    ensures var s := Flush(State(currentRef, jsonBuf, bracing, out));
            currentRef' == s.ref && jsonBuf' == s.buf && bracing' == s.depth && models' == Decoded(s.out, decode)
  {
    models', currentRef', jsonBuf', bracing' := models, currentRef, jsonBuf, bracing;
    if currentRef == "" {
      return;
    }
    ghost var e := Entry(currentRef, jsonBuf);
    assert (out + [e])[..|out|] == out;
    if jsonBuf == "" {
      models' := models + [ModelFromRef(currentRef)];
      currentRef', bracing' := "", -1;
      return;
    }
    match decode(currentRef, jsonBuf)
    case None =>
      jsonBuf', currentRef', bracing' := "", "", -1;
      assert models' == models + [];
    case Some(m) =>
      models' := models + [m];
      jsonBuf', currentRef', bracing' := "", "", -1;
  }

  /** The parser finds what `Found` says, in order, decoded; and an empty listing is told apart from an
      unreadable one exactly by whether anything but white space was printed. */
  method ParseModelOutput(data: string, decode: Decoder) returns (r: Listing)
    ensures var ms := Decoded(Found(Lines(data)), decode);
            r == if ms != [] then Listed(ms) else if Blank(data) then NothingPrinted else Unreadable
    ensures r == NothingPrinted <==> Blank(data)
  {
    var lines := Lines(data);
    var models: seq<Model>, currentRef, jsonBuf, bracing := [], "", "", -1;
    ghost var out: seq<Entry> := [];
    for i := 0 to |lines|
      invariant models == Decoded(out, decode)
      invariant Run(State(currentRef, jsonBuf, bracing, out), lines[i..]) == Run(START, lines)
    {
      var line := lines[i];
      ghost var s := State(currentRef, jsonBuf, bracing, out);
      assert lines[i..][1..] == lines[i + 1..];
      var trimmed := TrimSpace(line);
      if trimmed == "" {
        continue;
      }
      if bracing < 0 {
        if '/' in trimmed && !HasPrefix(trimmed, "{") {
          models, currentRef, jsonBuf, bracing := FlushEntry(models, currentRef, jsonBuf, bracing, decode, out);
          currentRef := trimmed;
          out := Flush(s).out;
          continue;
        }
        if HasPrefix(trimmed, "{") {
          bracing := 1;
          jsonBuf := jsonBuf + line + "\n";
          continue;
        }
        continue;
      }
      jsonBuf := jsonBuf + line + "\n";
      bracing := DepthAfter(line, bracing);
      if bracing == 0 {
        ghost var s1 := State(currentRef, jsonBuf, bracing, out);
        models, currentRef, jsonBuf, bracing := FlushEntry(models, currentRef, jsonBuf, bracing, decode, out);
        out := Flush(s1).out;
      }
    }
    models, currentRef, jsonBuf, bracing := FlushEntry(models, currentRef, jsonBuf, bracing, decode, out);
    BlankFindsNothing(data);
    if models == [] {
      return if Blank(data) then NothingPrinted else Unreadable;
    }
    r := Listed(models);
  }

  predicate AllBlank(lines: seq<string>) {
    forall k :: 0 <= k < |lines| ==> Blank(lines[k])
  }

  lemma {:induction false} BlankLines(data: string)
    requires Blank(data)
    ensures AllBlank(Lines(data))
  {
    var i := IndexOf(data, '\n');
    if data != "" && i >= 0 {
      BlankLines(data[i + 1..]);
    }
  }

  lemma {:induction false} RunBlank(s: State, lines: seq<string>)
    requires AllBlank(lines)
    ensures Run(s, lines) == s
  {
    if lines != [] {
      RunBlank(s, lines[1..]);
    }
  }

  lemma BlankFindsNothing(data: string)
    ensures Blank(data) ==> Found(Lines(data)) == []
  {
    if Blank(data) {
      BlankLines(data);
      RunBlank(START, Lines(data));
    }
  }

  // ---------------------------------------------------------------- printing

  /** One printed model: a line with its reference, optionally a metadata block, and lines between them that
      mean nothing to the parser. */
  datatype Item = Item(before: seq<string>, refLine: string, between: seq<string>, block: seq<string>)

  predicate Noise(line: string) {
    Blank(line) || (!IsRef(TrimSpace(line)) && !OpensBlock(line))
  }

  predicate AllNoise(lines: seq<string>) {
    forall k :: 0 <= k < |lines| ==> Noise(lines[k])
  }

  /** The line-end brace depth, from d, first reaches 0 on the last line that is not blank; while it is negative, such
      a line must open a block again. */
  predicate Closes(lines: seq<string>, d: int) {
    lines != [] &&
    if Blank(lines[0]) then Closes(lines[1..], d)
    else if d < 0 then OpensBlock(lines[0]) && Closes(lines[1..], 1)
    else if d + Delta(lines[0]) == 0 then AllBlank(lines[1..])
    else Closes(lines[1..], d + Delta(lines[0]))
  }

  /** A block opens with a line whose net brace depth the parser takes to be 1, whatever else it holds. */
  predicate IsBlock(block: seq<string>) {
    block != [] && OpensBlock(block[0]) && Closes(block[1..], 1)
  }

  predicate IsItem(it: Item) {
    && AllNoise(it.before) && AllNoise(it.between)
    && IsRef(TrimSpace(it.refLine))
    && (it.block == [] || IsBlock(it.block))
  }

  predicate AllItems(items: seq<Item>) {
    forall k :: 0 <= k < |items| ==> IsItem(items[k])
  }

  function TextOf(lines: seq<string>): string {
    if lines == [] then ""
    else (if Blank(lines[0]) then "" else lines[0] + "\n") + TextOf(lines[1..])
  }

  function EntryOf(it: Item): Entry {
    Entry(TrimSpace(it.refLine), TextOf(it.block))
  }

  function Entries(items: seq<Item>): seq<Entry> {
    seq(|items|, i requires 0 <= i < |items| => EntryOf(items[i]))
  }

  function PrintItem(it: Item): seq<string> {
    it.before + [it.refLine] + it.between + it.block
  }

  function Print(items: seq<Item>): seq<string> {
    if items == [] then [] else PrintItem(items[0]) + Print(items[1..])
  }

  /** The listing as one text, each line ended by a newline. */
  function Unlines(lines: seq<string>): string {
    if lines == [] then "" else lines[0] + "\n" + Unlines(lines[1..])
  }

  predicate IsLine(line: string) {
    '\n' !in line && (line == "" || line[|line| - 1] != '\r')
  }

  // ---------------------------------------------------------------- round trip

  lemma {:induction false} RunConcat(s: State, a: seq<string>, b: seq<string>)
    ensures Run(s, a + b) == Run(Run(s, a), b)
    decreases |a|
  {
    if a == [] {
      assert a + b == b;
    } else {
      assert (a + b)[0] == a[0] && (a + b)[1..] == a[1..] + b;
      RunConcat(Step(s, a[0]), a[1..], b);
    }
  }

  lemma {:induction false} RunNoise(s: State, lines: seq<string>)
    requires s.depth < 0 && AllNoise(lines)
    ensures Run(s, lines) == s
  {
    if lines != [] {
      assert Step(s, lines[0]) == s;
      RunNoise(s, lines[1..]);
    }
  }

  /** The state in which the lines, added to what s has collected, have come out as one entry. */
  function ReadBack(s: State, lines: seq<string>): State {
    State("", "", -1, s.out + [Entry(s.ref, s.buf + TextOf(lines))])
  }

  lemma TextSnoc(buf: string, lines: seq<string>)
    requires lines != [] && !Blank(lines[0])
    ensures buf + TextOf(lines) == buf + lines[0] + "\n" + TextOf(lines[1..])
    ensures |buf| + |TextOf(lines[1..])| < |buf + TextOf(lines)|
  {
    hide Blank;
    assert TextOf(lines) == lines[0] + "\n" + TextOf(lines[1..]);
  }

  lemma {:induction false} NoText(lines: seq<string>)
    ensures TextOf(lines) == "" <==> AllBlank(lines)
  {
    hide Blank;
    if lines != [] {
      NoText(lines[1..]);
      assert lines == [lines[0]] + lines[1..];
    }
  }

  lemma {:induction false} OutGrows(s: State, lines: seq<string>)
    ensures s.out <= Run(s, lines).out
    decreases |lines|
  {
    hide Blank, IsRef, OpensBlock, Delta;
    if lines != [] {
      OutGrows(Step(s, lines[0]), lines[1..]);
    }
  }

  /** What s has collected came out with less text than n, or not at all. */
  predicate ComesOutShort(s: State, s': State, n: nat) {
    if |s'.out| <= |s.out| then s'.ref != "" else |s'.out[|s.out|].text| < n
  }

  lemma FlushedShort(s: State, s1: State, lines: seq<string>, n: nat)
    requires |s1.out| == |s.out| + 1 && |s1.out[|s.out|].text| < n
    ensures ComesOutShort(s, Run(s1, lines), n)
  {
    OutGrows(s1, lines);
  }

  lemma StepOut(s: State, line: string)
    requires s.ref != ""
    ensures var s1 := Step(s, line);
            if s1.out == s.out then s1.ref == s.ref && s.buf <= s1.buf
            else s1.out == s.out + [Entry(s.ref, s1.out[|s.out|].text)] && s.buf <= s1.out[|s.out|].text
  {
    hide Blank, IsRef, OpensBlock, Delta;
  }

  lemma StepText(s: State, line: string)
    ensures var s1 := Step(s, line);
            |s1.buf| <= |s.buf| + |TextOf([line])|
            && (|s1.out| > |s.out| ==> |s1.out[|s.out|].text| <= |s.buf| + |TextOf([line])|)
  {
    hide IsRef, OpensBlock, Delta, Blank;
    assert TextOf([line]) == (if Blank(line) then "" else line + "\n") + TextOf([]);
  }

  lemma TextOfFirst(lines: seq<string>)
    requires lines != []
    ensures |TextOf(lines)| == |TextOf([lines[0]])| + |TextOf(lines[1..])|
  {
    hide Blank;
    assert TextOf([lines[0]]) == (if Blank(lines[0]) then "" else lines[0] + "\n") + TextOf([]);
  }

  lemma {:induction false} RunsShort(s: State, lines: seq<string>, n: nat)
    requires s.ref != "" && |s.buf| + |TextOf(lines)| < n
    ensures ComesOutShort(s, Run(s, lines), n)
    decreases |lines|
  {
    hide Step, TextOf;
    if lines != [] {
      var s1 := Step(s, lines[0]);
      StepOut(s, lines[0]);
      StepText(s, lines[0]);
      TextOfFirst(lines);
      if s1.out == s.out {
        RunsShort(s1, lines[1..], n);
      } else {
        FlushedShort(s, s1, lines[1..], n);
      }
    }
  }

  lemma NotReadBack(s: State, s': State, lines: seq<string>)
    requires s.ref != "" && ComesOutShort(s, s', |s.buf + TextOf(lines)|)
    ensures s' != ReadBack(s, lines)
  {
    hide TextOf;
    assert (s.out + [Entry(s.ref, s.buf + TextOf(lines))])[|s.out|].text == s.buf + TextOf(lines);
  }

  lemma ReadBackNext(s: State, s1: State, lines: seq<string>)
    requires lines != [] && !Blank(lines[0]) && s1.ref == s.ref && s1.out == s.out && s1.buf == s.buf + lines[0] + "\n"
    ensures ReadBack(s1, lines[1..]) == ReadBack(s, lines)
  {
    hide Blank, TextOf;
    TextSnoc(s.buf, lines);
  }

  /** A line that closes the block: nothing may follow but blank lines. */
  lemma ClosingLine(s: State, lines: seq<string>)
    requires s.ref != "" && s.depth >= 0 && lines != [] && !Blank(lines[0]) && s.depth + Delta(lines[0]) == 0
    ensures Run(s, lines) == ReadBack(s, lines) <==> AllBlank(lines[1..])
  {
    hide IsRef, OpensBlock, Delta, TextOf, Blank;
    var s1 := Step(s, lines[0]);
    TextSnoc(s.buf, lines);
    NoText(lines[1..]);
    assert s1 == State("", "", -1, s.out + [Entry(s.ref, s.buf + lines[0] + "\n")]);
    if AllBlank(lines[1..]) {
      RunBlank(s1, lines[1..]);
      assert s.buf + lines[0] + "\n" + "" == s.buf + lines[0] + "\n";
    } else {
      FlushedShort(s, s1, lines[1..], |s.buf + TextOf(lines)|);
      NotReadBack(s, Run(s, lines), lines);
    }
  }

  /** A line outside a block that does not open one again is not collected, or has the entry come out before it. */
  lemma LostLine(s: State, lines: seq<string>)
    requires s.ref != "" && s.depth < 0 && lines != [] && !Blank(lines[0]) && !OpensBlock(lines[0])
    ensures Run(s, lines) != ReadBack(s, lines)
  {
    hide IsRef, OpensBlock, Delta, TextOf, Blank;
    var s1 := Step(s, lines[0]);
    TextSnoc(s.buf, lines);
    var n := |s.buf + TextOf(lines)|;
    if s1 == s {
      RunsShort(s, lines[1..], n);
    } else {
      FlushedShort(s, s1, lines[1..], n);
    }
    NotReadBack(s, Run(s, lines), lines);
  }

  /** The machine reads back exactly the rest of a block, and is outside again with nothing collected, if and only if
      the rest closes the block. */
  lemma {:induction false} ReadBackIff(s: State, lines: seq<string>)
    requires s.ref != "" && s.depth != 0
    ensures Run(s, lines) == ReadBack(s, lines) <==> Closes(lines, s.depth)
    decreases |lines|
  {
    hide IsRef, Delta, TextOf, Blank, AllBlank, ReadBack;
    if lines == [] {
      assert Run(s, lines) != ReadBack(s, lines) by { StillOpen(s, lines); }
    } else if Blank(lines[0]) {
      ReadBackIff(s, lines[1..]);
      BlankLine(s, lines);
    } else if s.depth < 0 {
      if OpensBlock(lines[0]) {
        BlockIsNoRef(lines[0]);
        ReadBackNext(s, Step(s, lines[0]), lines);
        ReadBackIff(Step(s, lines[0]), lines[1..]);
      } else {
        LostLine(s, lines);
      }
    } else if s.depth + Delta(lines[0]) == 0 {
      ClosingLine(s, lines);
    } else {
      ReadBackNext(s, Step(s, lines[0]), lines);
      ReadBackIff(Step(s, lines[0]), lines[1..]);
    }
  }

  lemma StillOpen(s: State, lines: seq<string>)
    requires s.ref != ""
    ensures s != ReadBack(s, lines)
  {
  }

  lemma BlankLine(s: State, lines: seq<string>)
    requires lines != [] && Blank(lines[0])
    ensures Step(s, lines[0]) == s && ReadBack(s, lines) == ReadBack(s, lines[1..])
  {
    TextFirst(lines);
  }

  lemma BlockIsNoRef(line: string)
    requires OpensBlock(line)
    ensures !IsRef(TrimSpace(line))
  {
    hide TrimSpace;
  }

  /** Outside a block, with no text collected. */
  predicate Quiet(s: State) {
    s.depth == -1 && s.buf == ""
  }

  /** Printed after a reference, a block that opens with a brace comes out as exactly the metadata of that reference,
      with the machine ready for the next, if and only if its depth, counted as 1 after the first line, closes. */
  lemma BlockReadBackIff(s: State, block: seq<string>)
    requires Quiet(s) && s.ref != "" && block != [] && OpensBlock(block[0])
    ensures Run(s, block) == State("", "", -1, s.out + [Entry(s.ref, TextOf(block))]) <==> Closes(block[1..], 1)
  {
    hide Delta, Closes, IsRef, TextOf, Blank;
    BlockIsNoRef(block[0]);
    BlockNotBlank(block[0]);
    var s1 := Step(s, block[0]);
    assert s1 == s.(depth := 1, buf := s.buf + block[0] + "\n");
    ReadBackNext(s, s1, block);
    ReadBackIff(s1, block[1..]);
    assert s.buf + TextOf(block) == TextOf(block);
  }

  lemma BlockNotBlank(line: string)
    requires OpensBlock(line)
    ensures !Blank(line)
  {
  }

  lemma RunItem(s: State, it: Item)
    requires Quiet(s) && IsItem(it)
    ensures Quiet(Run(s, PrintItem(it)))
    ensures Flush(Run(s, PrintItem(it))).out == Flush(s).out + [EntryOf(it)]
  {
    hide Noise, IsRef, Closes, OpensBlock;
    var r := TrimSpace(it.refLine);
    var s1 := Flush(s).(ref := r);
    RunNoise(s, it.before);
    RunConcat(s, it.before, [it.refLine]);
    RunConcat(s, it.before + [it.refLine], it.between);
    RunConcat(s, it.before + [it.refLine] + it.between, it.block);
    StepRef(s, it.refLine);
    assert Run(s, [it.refLine]) == Run(Step(s, it.refLine), []) == s1;
    RunNoise(s1, it.between);
    if it.block != [] {
      BlockReadBackIff(s1, it.block);
    }
  }

  lemma StepRef(s: State, line: string)
    requires Quiet(s) && IsRef(TrimSpace(line))
    ensures Step(s, line) == Flush(s).(ref := TrimSpace(line)) && TrimSpace(line) != ""
  {
  }

  lemma {:induction false} RunItems(s: State, items: seq<Item>)
    requires Quiet(s) && AllItems(items)
    ensures Quiet(Run(s, Print(items)))
    ensures Flush(Run(s, Print(items))).out == Flush(s).out + Entries(items)
    decreases |items|
  {
    hide IsItem, EntryOf, PrintItem, Step;
    if items != [] {
      RunItem(s, items[0]);
      RunConcat(s, PrintItem(items[0]), Print(items[1..]));
      RunItems(Run(s, PrintItem(items[0])), items[1..]);
      assert Entries(items) == [EntryOf(items[0])] + Entries(items[1..]);
    }
  }

  lemma {:induction false} LinesOfPrinted(lines: seq<string>)
    requires forall k :: 0 <= k < |lines| ==> IsLine(lines[k])
    ensures Lines(Unlines(lines)) == lines
  {
    if lines != [] {
      var data := Unlines(lines);
      var i := |lines[0]|;
      assert data[..i] == lines[0] && data[i] == '\n' && data[i + 1..] == Unlines(lines[1..]);
      assert IndexOf(data, '\n') == i;
      LinesOfPrinted(lines[1..]);
    }
  }

  /** The same with a carriage return before each newline. */
  function UnlinesCR(lines: seq<string>): string {
    if lines == [] then "" else lines[0] + "\r\n" + UnlinesCR(lines[1..])
  }

  lemma {:induction false} LinesOfCarriageReturns(lines: seq<string>)
    requires forall k :: 0 <= k < |lines| ==> '\n' !in lines[k]
    ensures Lines(UnlinesCR(lines)) == lines
  {
    if lines != [] {
      var data := UnlinesCR(lines);
      var i := |lines[0]| + 1;
      assert data[..i] == lines[0] + "\r" && data[i] == '\n' && data[i + 1..] == UnlinesCR(lines[1..]);
      assert IndexOf(data, '\n') == i;
      assert (lines[0] + "\r")[..|lines[0]|] == lines[0];
      LinesOfCarriageReturns(lines[1..]);
    }
  }

  /** Outside a block a line that begins with a brace, but for blanks, opens one; any other with a slash is a reference;
      all else is noise. */
  lemma OutsideIsOneOfThree(s: State, line: string)
    requires s.depth < 0
    ensures var t := TrimSpace(line);
            if t != "" && t[0] == '{' then Step(s, line) == State(s.ref, s.buf + line + "\n", 1, s.out)
            else if '/' in t then
              Step(s, line) == (if s.ref == "" then s.(ref := t) else State(t, "", -1, s.out + [Entry(s.ref, s.buf)]))
            else Step(s, line) == s
  {
    hide TrimSpace;
    var t := TrimSpace(line);
    assert Blank(line) <==> t == "";
    assert t != "" ==> (HasPrefix(t, "{") <==> t[0] == '{');
  }

  /** Every brace counts, those in strings included. */
  lemma {:induction false} DeltaCounts(line: string)
    ensures Delta(line) == multiset(line)['{'] as int - multiset(line)['}'] as int
  {
    if line != "" {
      var n := |line| - 1;
      assert line == line[..n] + [line[n]];
      DeltaCounts(line[..n]);
    }
  }

  /** Printing any list of items, with noise after the last one too, reads back as exactly those entries in
      order: references trimmed, blocks with their blank lines dropped. */
  lemma PrintParses(items: seq<Item>, after: seq<string>)
    requires AllItems(items)
    requires AllNoise(after) && forall k :: 0 <= k < |Print(items) + after| ==> IsLine((Print(items) + after)[k])
    ensures Found(Lines(Unlines(Print(items) + after))) == Entries(items)
  {
    hide IsItem, AllNoise, IsLine, Entries, Step;
    LinesOfPrinted(Print(items) + after);
    RunItems(START, items);
    RunConcat(START, Print(items), after);
    RunNoise(Run(START, Print(items)), after);
  }

  lemma {:induction false} DecodedConcat(a: seq<Entry>, b: seq<Entry>, decode: Decoder)
    ensures Decoded(a + b, decode) == Decoded(a, decode) + Decoded(b, decode)
  {
    if b == [] {
      assert a + b == a;
    } else {
      assert (a + b)[..|a + b| - 1] == a + b[..|b| - 1];
      DecodedConcat(a, b[..|b| - 1], decode);
    }
  }

  /** Every entry is a model in its place, a bare one by its reference alone, if all blocks can be decoded. */
  lemma {:induction false} DecodedIs(es: seq<Entry>, decode: Decoder)
    requires forall k :: 0 <= k < |es| ==> es[k].text == "" || decode(es[k].ref, es[k].text).Some?
    ensures |Decoded(es, decode)| == |es|
    ensures forall k :: 0 <= k < |es| ==>
              Decoded(es, decode)[k] ==
              if es[k].text == "" then ModelFromRef(es[k].ref) else decode(es[k].ref, es[k].text).value
  {
    if es != [] {
      DecodedIs(es[..|es| - 1], decode);
    }
  }

  lemma ItemsFound(items: seq<Item>)
    requires AllItems(items)
    ensures Found(Print(items)) == Entries(items)
  {
    hide IsItem, Entries, Step;
    RunItems(START, items);
  }

  lemma EntriesConcat(a: seq<Item>, b: seq<Item>)
    ensures Entries(a + b) == Entries(a) + Entries(b)
    ensures AllItems(a) && AllItems(b) ==> AllItems(a + b)
  {
    hide EntryOf, IsItem;
  }

  lemma DroppedEntry(a: seq<Entry>, e: Entry, b: seq<Entry>, decode: Decoder)
    requires ModelsOf(e, decode) == []
    ensures Decoded(a + [e] + b, decode) == Decoded(a + b, decode)
  {
    DecodedConcat(a + [e], b, decode);
    DecodedConcat(a, b, decode);
    assert (a + [e])[..|a|] == a;
  }

  /** A block the decoder rejects is dropped as if it had not been printed: its neighbours come out the same. */
  lemma UndecodableIsDropped(a: seq<Item>, it: Item, b: seq<Item>, decode: Decoder)
    requires AllItems(a) && AllItems([it]) && AllItems(b)
    requires it.block != [] && decode(EntryOf(it).ref, EntryOf(it).text).None?
    ensures Decoded(Found(Print(a + [it] + b)), decode) == Decoded(Found(Print(a + b)), decode)
  {
    hide IsItem, Found, Print, Decoded, EntryOf;
    assert IsItem([it][0]);
    BlockHasText(it);
    assert Entries([it]) == [EntryOf(it)];
    hide Entries, AllItems;
    EntriesConcat(a + [it], b);
    EntriesConcat(a, [it]);
    EntriesConcat(a, b);
    ItemsFound(a + [it] + b);
    ItemsFound(a + b);
    DroppedEntry(Entries(a), EntryOf(it), Entries(b), decode);
  }

  lemma BlockHasText(it: Item)
    requires IsItem(it) && it.block != []
    ensures TextOf(it.block) != "" && EntryOf(it).text != ""
  {
    assert !Blank(it.block[0]);
  }

  /** A bare reference keeps its text: provider and id rejoin to it, unless it starts with the slash. */
  lemma RefRejoins(ref: string)
    requires IsRef(ref)
    ensures var m := ModelFromRef(ref);
            && (ref[0] != '/' <==> m.providerId + "/" + m.id == ref)
            && '/' !in m.providerId && m.modelRef == ref && m.name == m.id
  {
    var i := IndexOf(ref, '/');
    if i >= 0 {
      assert ref == ref[..i] + [ref[i]] + ref[i + 1..];
    }
  }

  // ---------------------------------------------------------------- listings that are not read back

  /** The depth, from d, never falls below `low` at a line end. */
  predicate StaysAbove(lines: seq<string>, d: int, low: int) {
    lines != [] ==>
      if Blank(lines[0]) then StaysAbove(lines[1..], d, low)
      else d + Delta(lines[0]) >= low && StaysAbove(lines[1..], d + Delta(lines[0]), low)
  }

  lemma {:induction false} WithoutRefNothingIsFound(s: State, lines: seq<string>)
    requires s.ref == "" && s.depth >= 0 && StaysAbove(lines, s.depth, 0)
    ensures Run(s, lines).ref == "" && Run(s, lines).out == s.out
    decreases |lines|
  {
    hide Blank, Delta;
    if lines != [] {
      WithoutRefNothingIsFound(Step(s, lines[0]), lines[1..]);
    }
  }

  lemma {:induction false} OrphanRuns(s: State, lines: seq<string>)
    requires s.ref == "" && s.depth != 0 && Closes(lines, s.depth)
    ensures Run(s, lines) == State("", s.buf + TextOf(lines), 0, s.out)
    decreases |lines|
  {
    hide Blank, Delta, IsRef, OpensBlock, AllBlank;
    if Blank(lines[0]) {
      OrphanRuns(s, lines[1..]);
      BlankLine(s, lines);
      assert TextOf(lines) == TextOf(lines[1..]);
    } else {
      var s1 := Step(s, lines[0]);
      TextSnoc(s.buf, lines);
      if s.depth < 0 {
        BlockIsNoRef(lines[0]);
        OrphanRuns(s1, lines[1..]);
      } else if s.depth + Delta(lines[0]) == 0 {
        NoText(lines[1..]);
        RunBlank(s1, lines[1..]);
        assert s.buf + lines[0] + "\n" + "" == s.buf + lines[0] + "\n";
      } else {
        OrphanRuns(s1, lines[1..]);
      }
    }
  }

  /** After a block that has no reference: nothing came out, its text is still collected, and it still counts
      as open. */
  lemma OrphanBlock(block: seq<string>)
    requires IsBlock(block)
    ensures Run(START, block) == State("", TextOf(block), 0, [])
  {
    hide Delta, Closes, Blank, IsRef;
    BlockIsNoRef(block[0]);
    BlockNotBlank(block[0]);
    var s1 := Step(START, block[0]);
    assert s1 == State("", "" + block[0] + "\n", 1, []);
    hide TextOf;
    OrphanRuns(s1, block[1..]);
    TextSnoc("", block);
    assert "" + TextOf(block) == TextOf(block);
  }

  /** What comes out next, if anything does, begins with this text, and goes on. */
  predicate Carries(s: State, s': State, text: string) {
    if |s'.out| <= |s.out| then s'.out == s.out && (s'.ref != "" ==> text < s'.buf) else text < s'.out[|s.out|].text
  }

  lemma StepCarries(s: State, line: string, text: string)
    requires text < s.buf
    ensures var s1 := Step(s, line);
            if s1.out == s.out then text < s1.buf else |s1.out| == |s.out| + 1 && text < s1.out[|s.out|].text
  {
    hide Blank, IsRef, OpensBlock, Delta;
  }

  lemma {:induction false} CollectedStays(s: State, lines: seq<string>, text: string)
    requires text < s.buf
    ensures Carries(s, Run(s, lines), text)
    decreases |lines|
  {
    hide Step;
    if lines != [] {
      var s1 := Step(s, lines[0]);
      StepCarries(s, lines[0], text);
      if s1.out == s.out {
        CollectedStays(s1, lines[1..], text);
      } else {
        OutGrows(s1, lines[1..]);
      }
    }
  }

  lemma {:induction false} OrphanCarries(s: State, lines: seq<string>)
    requires s.ref == "" && s.depth >= 0
    ensures Carries(s, Run(s, lines), s.buf)
    decreases |lines|
  {
    hide IsRef, OpensBlock, Delta, Blank;
    if lines != [] {
      var s1 := Step(s, lines[0]);
      if s1 == s {
        OrphanCarries(s, lines[1..]);
      } else {
        assert s.buf < s1.buf && s1.out == s.out;
        CollectedStays(s1, lines[1..], s.buf);
      }
    }
  }

  predicate NoNewline(lines: seq<string>) {
    forall k :: 0 <= k < |lines| ==> '\n' !in lines[k]
  }

  /** The first line of a text is told by its newline. */
  lemma SameFirstLine(x: string, xs: string, y: string, ys: string)
    requires '\n' !in x && '\n' !in y && x + "\n" + xs < y + "\n" + ys
    ensures x == y && xs < ys
  {
    var (t, u) := (x + "\n" + xs, y + "\n" + ys);
    assert t[|x|] == '\n' && u[|y|] == '\n' && forall k :: 0 <= k < |t| ==> t[k] == u[k];
    assert forall k :: 0 <= k < |x| ==> t[k] == x[k];
    assert forall k :: 0 <= k < |y| ==> u[k] == y[k];
    assert |x| == |y|;
    assert x == t[..|x|] == u[..|y|] == y;
    assert t[|x| + 1..] == xs && u[|x| + 1..] == ys;
  }

  lemma TextFirst(lines: seq<string>)
    requires lines != []
    ensures TextOf(lines) == if Blank(lines[0]) then TextOf(lines[1..]) else lines[0] + "\n" + TextOf(lines[1..])
  {
    hide Blank;
    assert "" + TextOf(lines[1..]) == TextOf(lines[1..]);
  }

  /** No block goes on where another is closed. */
  lemma {:induction false} ClosesOnce(a: seq<string>, b: seq<string>, d: int)
    requires Closes(a, d) && Closes(b, d) && NoNewline(a) && NoNewline(b)
    ensures !(TextOf(a) < TextOf(b))
    decreases |a| + |b|
  {
    hide Blank, Delta, OpensBlock, TextOf, AllBlank;
    TextFirst(a);
    TextFirst(b);
    if Blank(a[0]) {
      ClosesOnce(a[1..], b, d);
    } else if Blank(b[0]) {
      ClosesOnce(a, b[1..], d);
    } else if TextOf(a) < TextOf(b) {
      SameFirstLine(a[0], TextOf(a[1..]), b[0], TextOf(b[1..]));
      if d < 0 {
        ClosesOnce(a[1..], b[1..], 1);
      } else if d + Delta(a[0]) == 0 {
        NoText(a[1..]);
        NoText(b[1..]);
      } else {
        ClosesOnce(a[1..], b[1..], d + Delta(a[0]));
      }
    }
  }

  lemma BlocksApart(a: seq<string>, b: seq<string>)
    requires IsBlock(a) && IsBlock(b) && NoNewline(a) && NoNewline(b)
    ensures !(TextOf(a) < TextOf(b))
  {
    hide Closes, OpensBlock, TextOf, Blank;
    TextFirst(a);
    TextFirst(b);
    BlockNotBlank(a[0]);
    BlockNotBlank(b[0]);
    if TextOf(a) < TextOf(b) {
      SameFirstLine(a[0], TextOf(a[1..]), b[0], TextOf(b[1..]));
      ClosesOnce(a[1..], b[1..], 1);
    }
  }

  /** After a leading block, the first entry to come out, if any does, begins with the text of that block and
      goes on. */
  lemma AfterOrphan(block: seq<string>, lines: seq<string>)
    requires IsBlock(block)
    ensures var es := Found(block + lines); es == [] || TextOf(block) < es[0].text
  {
    hide Step, TextOf, IsBlock;
    OrphanBlock(block);
    RunConcat(START, block, lines);
    OrphanCarries(Run(START, block), lines);
  }

  /** The code expects that a listing may open with a block that has no reference. Such a listing is read back, as its
      items, if and only if it has no such block or no items. */
  lemma LeadingBlockIff(block: seq<string>, items: seq<Item>)
    requires (block == [] || IsBlock(block)) && AllItems(items) && NoNewline(block + Print(items))
    ensures Found(block + Print(items)) == Entries(items) <==> block == [] || items == []
  {
    hide IsBlock, EntryOf, IsItem, Found, PrintItem, NoNewline;
    if block == [] {
      assert block + Print(items) == Print(items);
      ItemsFound(items);
    } else if items == [] {
      assert block + Print(items) == block;
      OrphanFindsNothing(block);
    } else {
      AfterOrphan(block, Print(items));
      assert IsItem(items[0]);
      FirstBlockApart(block, items);
      assert Entries(items)[0] == EntryOf(items[0]);
    }
  }

  lemma OrphanFindsNothing(block: seq<string>)
    requires IsBlock(block)
    ensures Found(block) == []
  {
    hide IsBlock, TextOf;
    OrphanBlock(block);
  }

  lemma FirstBlockApart(block: seq<string>, items: seq<Item>)
    requires IsBlock(block) && items != [] && IsItem(items[0]) && NoNewline(block + Print(items))
    ensures !(TextOf(block) < EntryOf(items[0]).text)
  {
    hide IsBlock, TextOf, Noise, Step;
    var it := items[0];
    var lines := block + Print(items);
    assert NoNewline(block) by {
      assert forall k :: 0 <= k < |block| ==> lines[k] == block[k];
    }
    if it.block == [] {
      assert TextOf(it.block) == "" by { NoText([]); }
    } else {
      var n := |it.before| + 1 + |it.between|;
      assert forall k :: 0 <= k < |it.block| ==> PrintItem(it)[n + k] == it.block[k];
      assert forall k :: 0 <= k < |it.block| ==> lines[|block| + n + k] == it.block[k];
      BlocksApart(block, it.block);
    }
  }

  /** If moreover the brace depth of the items never falls below 0, the block swallows all of them. */
  lemma LeadingBlockSwallowsAll(block: seq<string>, items: seq<Item>)
    requires IsBlock(block) && StaysAbove(Print(items), 0, 0)
    ensures Found(block + Print(items)) == []
  {
    hide Delta, StaysAbove, Print, IsBlock, TextOf, Step;
    OrphanBlock(block);
    RunConcat(START, block, Print(items));
    WithoutRefNothingIsFound(Run(START, block), Print(items));
  }

  lemma {:induction false} OpenBlockSwallows(s: State, lines: seq<string>)
    requires s.depth > 0 && StaysAbove(lines, s.depth, 1)
    ensures var s' := Run(s, lines); s'.ref == s.ref && s'.out == s.out && s'.buf == s.buf + TextOf(lines)
    decreases |lines|
  {
    hide Blank, Delta;
    if lines != [] {
      var s1 := Step(s, lines[0]);
      OpenBlockSwallows(s1, lines[1..]);
      assert s.buf + TextOf(lines) == s1.buf + TextOf(lines[1..]);
    }
  }

  /** A metadata block on one line counts as open at its end, even though its braces balance: whatever follows
      becomes part of it, and comes out as this one entry. */
  lemma OneLineBlockSwallows(ref: string, block: string, rest: seq<string>)
    requires Trimmed(ref) && IsRef(ref) && OpensBlock(block) && StaysAbove(rest, 1, 1)
    ensures Found([ref, block] + rest) == [Entry(ref, block + "\n" + TextOf(rest))]
  {
    hide Delta, StaysAbove;
    var s1, s2 := START.(ref := ref), START.(ref := ref, depth := 1, buf := block + "\n");
    StepRef(START, ref);
    assert !Blank(block);
    assert Step(s1, block) == s2;
    assert Run(START, [ref, block]) == Run(s1, [block]) == Run(s2, []);
    RunConcat(START, [ref, block], rest);
    OpenBlockSwallows(s2, rest);
  }
}
