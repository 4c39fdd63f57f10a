/**
 The model-reference grammar of internal/adapter/modelref.go: `adapter/provider/model`, the legacy
 `provider/model` and the bare `model`. Four functions read one grammar independently of each other;
 the lemmas say where they agree, and exactly where they do not.
 */
module ModelRef {
  import opened Text

  const DEFAULT_ADAPTER_KIND := "opencode"

  datatype Ref = Ref(adapter: string, provider: string, model: string)

  datatype ParseError = EmptyRef | Malformed | AdapterAsProvider(kind: string) | UnknownProvider(provider: string)
                      | UnknownAdapter(kind: string)

  datatype ParseResult = Parsed(ref: Ref) | Rejected(error: ParseError)

  /** The tenant's provider registry: the known adapter kinds, and the known providers of each kind. */
  datatype Registry = Registry(adapters: set<string>, providers: set<(string, string)>)

  datatype MaybeRegistry = NoRegistry | WithRegistry(reg: Registry)

  datatype ServePair = NoPair | Pair(provider: string, model: string)

  datatype Kinds = NoKinds | Known(kinds: set<string>)

  /** The head before the first slash and everything after it ("" when there is no slash). */
  function SplitFirst(s: string): (string, string) {
    var i := IndexOf(s, '/');
    if i < 0 then (s, "") else (s[..i], s[i + 1..])
  }

  function Parse(raw: string, registry: MaybeRegistry): ParseResult {
    var ref := TrimSpace(raw);
    if ref == "" then Rejected(EmptyRef) else
    var hasSlash := IndexOf(ref, '/') >= 0;
    var (head, rest) := SplitFirst(ref);
    var seg1 := TrimSpace(head);
    if seg1 == "" then Rejected(Malformed)
    else if !hasSlash then Parsed(Ref(DEFAULT_ADAPTER_KIND, "", seg1))
    else
      var (head2, modelRest) := SplitFirst(rest);
      var seg2 := TrimSpace(head2);
      if seg2 == "" then Rejected(Malformed)
      else if modelRest == "" then
        match registry
        case NoRegistry => Parsed(Ref(DEFAULT_ADAPTER_KIND, seg1, seg2))
        case WithRegistry(reg) =>
          if (DEFAULT_ADAPTER_KIND, seg1) in reg.providers then Parsed(Ref(DEFAULT_ADAPTER_KIND, seg1, seg2))
          else if seg1 in reg.adapters then Rejected(AdapterAsProvider(seg1))
          else Rejected(UnknownProvider(seg1))
      else if registry.WithRegistry? && seg1 !in registry.reg.adapters then Rejected(UnknownAdapter(seg1))
      else Parsed(Ref(seg1, seg2, modelRest))
  }

  /** The routing view: no registry, and "" for a malformed ref. */
  function AdapterKind(raw: string): string {
    var ref := TrimSpace(raw);
    if ref == "" then "" else
    var (head, rest) := SplitFirst(ref);
    var seg1 := TrimSpace(head);
    if seg1 == "" then ""
    else if IndexOf(ref, '/') < 0 then DEFAULT_ADAPTER_KIND
    else if TrimSpace(rest) == "" then ""
    else
      var (head2, _) := SplitFirst(rest);
      if TrimSpace(head2) == "" then ""
      else if IndexOf(rest, '/') < 0 then DEFAULT_ADAPTER_KIND
      else seg1
  }

  /** The provider/model pair that the serve API receives. */
  function SplitForServe(raw: string): ServePair {
    var ref := TrimSpace(raw);
    if ref == "" then NoPair else
    var (head, rest) := SplitFirst(ref);
    var seg1 := TrimSpace(head);
    if rest == "" || seg1 == "" then NoPair else
    var (head2, modelRest) := SplitFirst(rest);
    var seg2 := TrimSpace(head2);
    if seg2 == "" then NoPair
    else if modelRest == "" then Pair(seg1, seg2)
    else Pair(seg2, modelRest)
  }

  /** Rewrites a pre-namespace ref into canonical adapter/provider/model form. */
  function NormalizeRef(raw: string, known: Kinds): string {
    var ref := TrimSpace(raw);
    if ref == "" then "" else
    var (head, rest) := SplitFirst(ref);
    var first := TrimSpace(head);
    if first == "" then ref
    else if known.Known? && first in known.kinds then ref
    else if known.NoKinds? && '/' in rest then ref
    else DEFAULT_ADAPTER_KIND + "/" + ref
  }

  /** The data migration's view: the normalized ref, and whether the row has to be rewritten. */
  function NormalizeRefForMigration(ref: string, known: Kinds): (string, bool) {
    var out := NormalizeRef(ref, known);
    if out == "" then (ref, false) else (out, out != ref)
  }

  // ---------------------------------------------------------------- agreement of the four readers

  /** `x/y/`: a second slash with nothing behind it. */
  predicate TrailingSlashPair(raw: string) {
    var ref := TrimSpace(raw);
    var rest := SplitFirst(ref).1;
    IndexOf(rest, '/') >= 0 && SplitFirst(rest).1 == ""
  }

  /** Without a registry, a ref parses exactly when routing knows a kind for it. */
  lemma ParseSucceedsIffRoutable(raw: string)
    ensures Parse(raw, NoRegistry).Parsed? <==> AdapterKind(raw) != ""
  {
    hide TrimSpace, IndexOf;
    var ref := TrimSpace(raw);
    var rest := SplitFirst(ref).1;
    if Blank(rest) {
      var head2 := SplitFirst(rest).0;
      assert Blank(head2);
    }
  }

  /** The routed kind is the parsed adapter, for every parseable ref but the `x/y/` shape. */
  lemma AdaptersAgreeExceptTrailingSlash(raw: string)
    requires Parse(raw, NoRegistry).Parsed?
    ensures !TrailingSlashPair(raw) ==> AdapterKind(raw) == Parse(raw, NoRegistry).ref.adapter
    ensures TrailingSlashPair(raw) ==>
              AdapterKind(raw) == Parse(raw, NoRegistry).ref.provider
              && Parse(raw, NoRegistry).ref.adapter == DEFAULT_ADAPTER_KIND
  {
    hide TrimSpace, IndexOf, Blank, Trimmed;
    ParseSucceedsIffRoutable(raw);
    var ref := TrimSpace(raw);
    var rest := SplitFirst(ref).1;
    assert IndexOf(ref, '/') < 0 ==> rest == "" && IndexOf("", '/') < 0;
    assert IndexOf(rest, '/') < 0 ==> SplitFirst(rest).1 == "";
    hide SplitFirst;
  }

  /** The two readers do disagree: `a/b/` routes to `a` but parses under the default adapter. */
  lemma TrailingSlashDisagrees()
    ensures Parse("a/b/", NoRegistry) == Parsed(Ref("opencode", "a", "b"))
    ensures AdapterKind("a/b/") == "a"
  {
    hide TrimSpace, IndexOf;
    var ref := "a/b/";
    assert Trimmed(ref);
    assert ref[1] == '/' && IndexOf(ref, '/') == 1;
    assert ref[..1] == "a" && ref[2..] == "b/";
    assert "b/"[1] == '/' && IndexOf("b/", '/') == 1;
    assert "b/"[..1] == "b" && "b/"[2..] == "";
    assert Trimmed("a") && Trimmed("b");
  }

  /** The serve pair exists exactly when the parse names a provider, and it is the same pair. */
  lemma ServePairIsParsedPair(raw: string)
    ensures SplitForServe(raw).Pair? <==>
              (Parse(raw, NoRegistry).Parsed? && Parse(raw, NoRegistry).ref.provider != "")
    ensures SplitForServe(raw).Pair? ==>
              var r := Parse(raw, NoRegistry).ref;
              SplitForServe(raw) == Pair(r.provider, r.model)
  {
    hide TrimSpace, IndexOf;
    var ref := TrimSpace(raw);
    if ref != "" && IndexOf(ref, '/') >= 0 {
      var rest := SplitFirst(ref).1;
      if rest == "" {
        assert SplitFirst(rest) == ("", "") && TrimSpace("") == "";
      }
      hide SplitFirst;
    } else if ref != "" {
      assert SplitFirst(ref) == (ref, "");
    }
  }

  /** A registry can only reject: whatever it lets through is the registry-free parse, and it rejects
      exactly an unknown adapter in front of a full ref or an unknown provider of a legacy pair. */
  lemma RegistryOnlyRejects(raw: string, reg: Registry)
    ensures Parse(raw, WithRegistry(reg)).Parsed? ==> Parse(raw, WithRegistry(reg)) == Parse(raw, NoRegistry)
    ensures Parse(raw, NoRegistry).Rejected? ==> Parse(raw, WithRegistry(reg)) == Parse(raw, NoRegistry)
    ensures Parse(raw, NoRegistry).Parsed? ==>
              var r := Parse(raw, NoRegistry).ref;
              var full := SplitFirst(SplitFirst(TrimSpace(raw)).1).1 != "";
              Parse(raw, WithRegistry(reg)).Rejected? <==>
              (if full then r.adapter !in reg.adapters
               else r.provider != "" && (DEFAULT_ADAPTER_KIND, r.provider) !in reg.providers)
  {
    hide TrimSpace, IndexOf, Blank, Trimmed;
    var ref := TrimSpace(raw);
    if ref != "" && IndexOf(ref, '/') < 0 {
      assert SplitFirst(ref) == (ref, "");
      assert SplitFirst("") == ("", "");
    }
    hide SplitFirst;
  }

  predicate Segment(s: string) {
    s != "" && Trimmed(s) && '/' !in s
  }

  function Print(r: Ref): string {
    r.adapter + "/" + r.provider + "/" + r.model
  }

  lemma SplitFirstOfJoin(head: string, tail: string)
    requires '/' !in head
    ensures SplitFirst(head + "/" + tail) == (head, tail)
    ensures IndexOf(head + "/" + tail, '/') == |head|
  {
    var s := head + "/" + tail;
    assert s[..|head|] == head && s[|head|] == '/';
    assert s[|head| + 1..] == tail;
  }

  lemma PrintPieces(r: Ref)
    requires Segment(r.adapter) && Segment(r.provider)
    requires r.model != "" && !IsSpace(r.model[|r.model| - 1])
    ensures var rest := r.provider + "/" + r.model;
            && TrimSpace(Print(r)) == Print(r)
            && SplitFirst(Print(r)) == (r.adapter, rest) && IndexOf(Print(r), '/') >= 0
            && SplitFirst(rest) == (r.provider, r.model) && IndexOf(rest, '/') >= 0
            && TrimSpace(rest) != ""
    ensures TrimSpace(r.adapter) == r.adapter && TrimSpace(r.provider) == r.provider
  {
    hide TrimSpace, IndexOf;
    var s := Print(r);
    var rest := r.provider + "/" + r.model;
    assert s == r.adapter + "/" + rest;
    assert s[0] == r.adapter[0] && s[|s| - 1] == r.model[|r.model| - 1];
    SplitFirstOfJoin(r.adapter, rest);
    SplitFirstOfJoin(r.provider, r.model);
    assert rest[0] == r.provider[0];
  }

  /** Printing a ref and parsing it gives the ref back; slashes inside the model are kept verbatim. */
  lemma PrintParses(r: Ref)
    requires Segment(r.adapter) && Segment(r.provider)
    requires r.model != "" && !IsSpace(r.model[|r.model| - 1])
    ensures Parse(Print(r), NoRegistry) == Parsed(r)
    ensures AdapterKind(Print(r)) == r.adapter
    ensures SplitForServe(Print(r)) == Pair(r.provider, r.model)
  {
    hide TrimSpace, IndexOf, SplitFirst;
    assert Print(r) != "";
    PrintPieces(r);
    hide Print;
  }

  // ---------------------------------------------------------------- what each shape reads as

  /** A registry's word on a pair: its provider is one of the default adapter's. */
  function PairVerdict(provider: string, model: string, registry: MaybeRegistry): ParseResult {
    if registry == NoRegistry || (DEFAULT_ADAPTER_KIND, provider) in registry.reg.providers
    then Parsed(Ref(DEFAULT_ADAPTER_KIND, provider, model))
    else Rejected(if provider in registry.reg.adapters then AdapterAsProvider(provider) else UnknownProvider(provider))
  }

  /** Every reference is one word, two words, or two words and whatever follows; which of its readings applies. */
  lemma ReadsWord(raw: string, registry: MaybeRegistry)
    requires '/' !in raw
    ensures Parse(raw, registry) == if Blank(raw) then Rejected(EmptyRef)
                                    else Parsed(Ref(DEFAULT_ADAPTER_KIND, "", TrimSpace(raw)))
  {
    TrimIsInside(raw);
    hide TrimSpace, IndexOf, Blank;
    var ref := TrimSpace(raw);
    assert IndexOf(ref, '/') < 0;
    assert SplitFirst(ref) == (ref, "");
  }

  /** The second word may have a slash behind it. */
  lemma ReadsPair(raw: string, first: string, second: string, slash: string, registry: MaybeRegistry)
    requires TrimSpace(raw) == first + "/" + (second + slash) && '/' !in first && '/' !in second && slash in ["", "/"]
    ensures Parse(raw, registry) == if Blank(first) || Blank(second) then Rejected(Malformed)
                                    else PairVerdict(TrimSpace(first), TrimSpace(second), registry)
  {
    hide TrimSpace, IndexOf, Blank;
    SplitFirstOfJoin(first, second + slash);
    if slash == "/" {
      SplitFirstOfJoin(second, "");
      assert second + "/" + "" == second + "/";
    } else {
      assert second + "" == second;
      assert IndexOf(second, '/') < 0;
    }
    hide SplitFirst;
  }

  lemma ReadsTriple(raw: string, first: string, second: string, model: string, registry: MaybeRegistry)
    requires TrimSpace(raw) == first + "/" + (second + "/" + model) && '/' !in first && '/' !in second && model != ""
    ensures Parse(raw, registry) ==
            if Blank(first) || Blank(second) then Rejected(Malformed)
            else if registry.WithRegistry? && TrimSpace(first) !in registry.reg.adapters
            then Rejected(UnknownAdapter(TrimSpace(first)))
            else Parsed(Ref(TrimSpace(first), TrimSpace(second), model))
  {
    hide TrimSpace, IndexOf, Blank;
    SplitFirstOfJoin(first, second + "/" + model);
    SplitFirstOfJoin(second, model);
    hide SplitFirst;
  }

  lemma TrimIsInside(raw: string)
    ensures forall c :: c in TrimSpace(raw) ==> c in raw
  {
    LeftIsInside(raw);
    RightIsInside(TrimLeft(raw));
  }

  lemma {:induction false} LeftIsInside(s: string)
    ensures forall c :: c in TrimLeft(s) ==> c in s
  {
    if s != "" && IsSpace(s[0]) {
      LeftIsInside(s[1..]);
    }
  }

  lemma {:induction false} RightIsInside(s: string)
    ensures forall c :: c in TrimRight(s) ==> c in s
  {
    if s != "" && IsSpace(s[|s| - 1]) {
      RightIsInside(s[..|s| - 1]);
    }
  }

  // ---------------------------------------------------------------- normalization

  /** A ref whose trimmed head names no registered kind. */
  predicate LegacyHead(raw: string, kinds: set<string>) {
    var head := TrimSpace(SplitFirst(TrimSpace(raw)).0);
    head != "" && head !in kinds
  }

  /** There are two slashes or more. */
  predicate Deep(ref: string) {
    exists i, j :: 0 <= i < j < |ref| && ref[i] == '/' == ref[j]
  }

  /** Normalization leaves a reference as it is, but for the space around it, exactly if it is blank or has a blank
      head, if its head is a registered kind or, when no kinds are known, if it has two slashes. Else it puts the
      default adapter in front. */
  lemma NormalizeIs(raw: string, known: Kinds)
    ensures var ref := TrimSpace(raw);
            var head := TrimSpace(SplitFirst(ref).0);
            var kept := head == "" || match known
                                      case Known(kinds) => head in kinds
                                      case NoKinds => Deep(ref);
            && NormalizeRef(raw, known) == (if kept then ref else DEFAULT_ADAPTER_KIND + "/" + ref)
            && (NormalizeRef(raw, known) == ref <==> kept)
  {
    DeepIff(TrimSpace(raw));
    hide TrimSpace, IndexOf, Deep;
    var ref := TrimSpace(raw);
    if ref == "" {
      assert SplitFirst(ref).0 == "" && Trimmed("");
    }
    hide SplitFirst;
    assert |DEFAULT_ADAPTER_KIND + "/" + ref| > |ref|;
  }

  lemma DeepIff(ref: string)
    ensures Deep(ref) <==> '/' in SplitFirst(ref).1
  {
    var i := IndexOf(ref, '/');
    if i >= 0 {
      var rest := ref[i + 1..];
      if Deep(ref) {
        var a, b :| 0 <= a < b < |ref| && ref[a] == '/' == ref[b];
        assert rest[b - i - 1] == '/';
      }
      if '/' in rest {
        var k :| 0 <= k < |rest| && rest[k] == '/';
        assert ref[i + 1 + k] == '/';
      }
    }
  }

  lemma NormalizedLegacyShape(ref: string)
    requires ref != "" && Trimmed(ref)
    ensures var n := DEFAULT_ADAPTER_KIND + "/" + ref;
            TrimSpace(n) == n && SplitFirst(n) == (DEFAULT_ADAPTER_KIND, ref) && IndexOf(n, '/') == 8
            && TrimSpace(DEFAULT_ADAPTER_KIND) == DEFAULT_ADAPTER_KIND
  {
    var n := DEFAULT_ADAPTER_KIND + "/" + ref;
    assert n[0] == 'o' && n[|n| - 1] == ref[|ref| - 1];
    assert Trimmed(n) && Trimmed(DEFAULT_ADAPTER_KIND);
    SplitFirstOfJoin(DEFAULT_ADAPTER_KIND, ref);
  }

  /** With a kind set that knows the default adapter, normalizing twice is normalizing once. */
  lemma NormalizeIdempotent(raw: string, kinds: set<string>)
    requires DEFAULT_ADAPTER_KIND in kinds
    ensures NormalizeRef(NormalizeRef(raw, Known(kinds)), Known(kinds)) == NormalizeRef(raw, Known(kinds))
  {
    var ref := TrimSpace(raw);
    if LegacyHead(raw, kinds) && ref != "" {
      NormalizedLegacyShape(ref);
    }
  }

  /** A legacy ref with a tail is routed to the default adapter, and the serve pair is its head with the
      whole tail, verbatim. */
  lemma NormalizeRoutesLegacy(raw: string, kinds: set<string>)
    requires LegacyHead(raw, kinds) && SplitFirst(TrimSpace(raw)).1 != ""
    ensures var n := NormalizeRef(raw, Known(kinds));
            var (head, tail) := SplitFirst(TrimSpace(raw));
            && AdapterKind(n) == DEFAULT_ADAPTER_KIND
            && SplitForServe(n) == Pair(TrimSpace(head), tail)
            && Parse(n, NoRegistry) == Parsed(Ref(DEFAULT_ADAPTER_KIND, TrimSpace(head), tail))
  {
    hide TrimSpace, IndexOf;
    var ref := TrimSpace(raw);
    NormalizedLegacyShape(ref);
    assert Trimmed(ref);
  }

  /** So a two-segment ref keeps its serve pair under normalization exactly when no space follows its
      slash; a space there moves from the parse's trim into the model id. */
  lemma NormalizeKeepsLegacyPair(raw: string, kinds: set<string>)
    requires LegacyHead(raw, kinds)
    requires var tail := SplitFirst(TrimSpace(raw)).1; tail != "" && '/' !in tail
    ensures SplitForServe(NormalizeRef(raw, Known(kinds))) == SplitForServe(raw) <==>
            Trimmed(SplitFirst(TrimSpace(raw)).1)
  {
    NormalizeRoutesLegacy(raw, kinds);
    var ref := TrimSpace(raw);
    var tail := SplitFirst(ref).1;
    assert IndexOf(tail, '/') < 0;
    assert SplitFirst(tail) == (tail, "");
    assert tail[|tail| - 1] == ref[|ref| - 1];
    assert !Blank(tail);
  }

  /** Without kind knowledge idempotence fails: a bare id gains a segment on each of two passes. */
  lemma NormalizeNilNotIdempotent()
    ensures NormalizeRef("m", NoKinds) == "opencode/m"
    ensures NormalizeRef("opencode/m", NoKinds) == "opencode/opencode/m"
  {
    hide TrimSpace, IndexOf;
    assert Trimmed("m");
    assert IndexOf("m", '/') < 0;
    NormalizedLegacyShape("m");
    NormalizedLegacyShape("opencode/m");
    assert DEFAULT_ADAPTER_KIND + "/" + "m" == "opencode/m";
    assert IndexOf("m", '/') < 0;
  }

  /** Exactly the refs that are empty or already hold a slash normalize idempotently without kinds. */
  lemma NormalizeNilIdempotentIff(raw: string)
    ensures NormalizeRef(NormalizeRef(raw, NoKinds), NoKinds) == NormalizeRef(raw, NoKinds) <==>
            (TrimSpace(raw) == "" || '/' in TrimSpace(raw))
  {
    var ref := TrimSpace(raw);
    if ref != "" {
      assert Trimmed(ref);
      NormalizedLegacyShape(ref);
      var n := DEFAULT_ADAPTER_KIND + "/" + ref;
      if '/' !in ref {
        assert SplitFirst(ref) == (ref, "");
        NormalizedLegacyShape(n);
        assert |NormalizeRef(n, NoKinds)| == |n| + 9;
      } else {
        assert n[9..] == ref;
      }
    }
  }

  /** A row is rewritten by the migration only when its text changes, and a second migration changes
      nothing. */
  lemma MigrationSettles(raw: string, kinds: set<string>)
    requires DEFAULT_ADAPTER_KIND in kinds
    ensures var (once, changed) := NormalizeRefForMigration(raw, Known(kinds));
            && (changed <==> once != raw)
            && NormalizeRefForMigration(once, Known(kinds)) == (once, false)
  {
    NormalizeIdempotent(raw, kinds);
  }
}
