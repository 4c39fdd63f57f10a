/**
 The attachments of an approval (validateAttachments in internal/approval/service.go): each file is checked, and
 names that collide are renamed so that no file overwrites another.
 */
module Attachments {
  import opened Common
  import opened Text

  /** `data` is the file's bytes. */
  datatype Attachment = Attachment(filename: string, contentType: string, data: string)

  /** The numbers count from 1, nil entries included. */
  datatype Error = TooMany | InvalidFilename(number: nat) | Empty(number: nat) | TooLarge(number: nat)

  datatype Result<T> = Ok(value: T) | Err(error: Error)

  const MAX_ATTACHMENTS := 20
  const MAX_BYTES := 0x200000
  const MAX_IMAGE_BYTES := 0x300000

  // ---------------------------------------------------------------- one attachment

  predicate PlainChar(c: char) {
    'A' <= c <= 'Z' || 'a' <= c <= 'z' || '0' <= c <= '9' || c == '.' || c == '_' || c == ' ' || c == '-'
  }

  predicate NoDotDot(s: string) {
    forall i :: 0 <= i < |s| - 1 ==> s[i] == '.' ==> s[i + 1] != '.'
  }

  /** No separator is a plain character, so a safe name is a file of the directory it is written to. */
  predicate SafeName(s: string) {
    s != "" && AllPlain(s) && NoDotDot(s)
  }

  /** Whether the lower-case form of the type starts with "image/"; U+0130 is the one other letter that
      becomes an i. */
  predicate IsImage(contentType: string) {
    && |contentType| >= 6
    && contentType[0] in "iI\U{0130}" && contentType[1] in "mM" && contentType[2] in "aA"
    && contentType[3] in "gG" && contentType[4] in "eE" && contentType[5] == '/'
  }

  function Problem(a: Option<Attachment>, i: nat): Option<Error> {
    match a
    case None => None
    case Some(a) =>
      if !SafeName(TrimSpace(a.filename)) then Some(InvalidFilename(i + 1))
      else if a.data == "" then Some(Empty(i + 1))
      else if |a.data| > (if IsImage(a.contentType) then MAX_IMAGE_BYTES else MAX_BYTES) then Some(TooLarge(i + 1))
      else None
  }

  predicate AllPlain(s: string) {
    forall i :: 0 <= i < |s| ==> PlainChar(s[i])
  }

  predicate ContainsDotDot(s: string) {
    exists i :: 0 <= i < |s| - 1 && s[i] == '.' && s[i + 1] == '.'
  }

  /** Where strings.ToLower leads a character, as far as an ASCII letter can come of it. */
  function Lower(c: char): char {
    if 'A' <= c <= 'Z' then c + 32 as char
    else if c == '\U{0130}' then 'i'
    else if c == '\U{212A}' then 'k'
    else c
  }

  function Lowered(s: string): (t: string)
    ensures |t| == |s| && forall i :: 0 <= i < |t| ==> t[i] == Lower(s[i])
  {
    seq(|s|, i requires 0 <= i < |s| => Lower(s[i]))
  }

  /** An image is what has a type that begins with "image/", however it is written. */
  lemma IsImageIff(contentType: string)
    ensures IsImage(contentType) <==> HasPrefix(Lowered(contentType), "image/")
  {
    var t := Lowered(contentType);
    if |t| >= 6 {
      assert t[..6] == [t[0], t[1], t[2], t[3], t[4], t[5]];
      assert "image/" == ['i', 'm', 'a', 'g', 'e', '/'];
    }
  }

  predicate NameChar(c: char) {
    || c in "ABCDEFGHIJKLMNOPQRSTUVWXYZ" || c in "abcdefghijklmnopqrstuvwxyz"
    || c in "0123456789" || c in "._ -"
  }

  /** A plain file name: letters, digits, points, underscores, blanks and hyphens, and no two points in a row. */
  predicate PlainName(s: string) {
    s != "" && (forall i :: 0 <= i < |s| ==> NameChar(s[i])) && !ContainsDotDot(s)
  }

  lemma UpperIff(c: char)
    ensures 'A' <= c <= 'Z' <==> c in "ABCDEFGHIJKLMNOPQRSTUVWXYZ"
  {
    var s := "ABCDEFGHIJKLMNOPQRSTUVWXYZ";
    assert forall k :: 0 <= k < 26 ==> s[k] == 'A' + k as char;
    if 'A' <= c <= 'Z' {
      assert s[(c - 'A') as int] == c;
    }
  }

  lemma LowerIff(c: char)
    ensures 'a' <= c <= 'z' <==> c in "abcdefghijklmnopqrstuvwxyz"
  {
    var s := "abcdefghijklmnopqrstuvwxyz";
    assert forall k :: 0 <= k < 26 ==> s[k] == 'a' + k as char;
    if 'a' <= c <= 'z' {
      assert s[(c - 'a') as int] == c;
    }
  }

  lemma DigitIff(c: char)
    ensures '0' <= c <= '9' <==> c in "0123456789"
  {
    var s := "0123456789";
    assert forall k :: 0 <= k < 10 ==> s[k] == '0' + k as char;
    if '0' <= c <= '9' {
      assert s[(c - '0') as int] == c;
    }
  }

  lemma NameCharIff(c: char)
    ensures PlainChar(c) <==> NameChar(c)
  {
    UpperIff(c);
    LowerIff(c);
    DigitIff(c);
  }

  lemma SafeIsPlain(s: string)
    ensures SafeName(s) <==> PlainName(s)
  {
    forall c ensures PlainChar(c) <==> NameChar(c) {
      NameCharIff(c);
    }
    hide PlainChar, NameChar;
  }

  /** What is wrong with file i: its name, if it is not plain; else that it is empty; else that it has more than two
      mebibytes, or three if it is an image. */
  lemma ProblemIff(a: Attachment, i: nat, e: Error)
    ensures Problem(Some(a), i) == Some(e) <==>
            var limit := if HasPrefix(Lowered(a.contentType), "image/") then 3 * 1024 * 1024 else 2 * 1024 * 1024;
            var plain := PlainName(TrimSpace(a.filename));
            || (e == InvalidFilename(i + 1) && !plain)
            || (e == Empty(i + 1) && plain && a.data == [])
            || (e == TooLarge(i + 1) && plain && |a.data| > limit)
  {
    SafeIsPlain(TrimSpace(a.filename));
    IsImageIff(a.contentType);
    hide SafeName, PlainName, IsImage, TrimSpace, Lowered;
  }

  // ---------------------------------------------------------------- renaming

  /** Where filepath.Ext begins: at the last dot, or at the end. */
  function ExtAt(base: string): (i: nat)
    ensures i <= |base| && (i < |base| ==> base[i] == '.') && forall k :: i < k < |base| ==> base[k] != '.'
    ensures i == |base| ==> '.' !in base
  {
    if base == "" then 0
    else if base[|base| - 1] == '.' then |base| - 1
    else
      var i := ExtAt(base[..|base| - 1]);
      if i == |base| - 1 then |base| else i
  }

  function Candidate(base: string, n: nat): string {
    base[..ExtAt(base)] + "-" + Decimal(n) + base[ExtAt(base)..]
  }

  lemma CandidatesDiffer(base: string, m: nat, n: nat)
    requires Candidate(base, m) == Candidate(base, n)
    ensures m == n
  {
    var i := ExtAt(base);
    var (a, b) := (Candidate(base, m), Candidate(base, n));
    assert a[i + 1..|a| - (|base| - i)] == Decimal(m);
    assert b[i + 1..|b| - (|base| - i)] == Decimal(n);
    DecimalInjective(m, n);
  }

  lemma CandidateIsNew(base: string, n: nat)
    ensures Candidate(base, n) != base
  {
    assert |Candidate(base, n)| >= |base| + 2;
  }

  lemma CandidateIsSafe(base: string, n: nat)
    requires SafeName(base)
    ensures SafeName(Candidate(base, n))
  {
    var i := ExtAt(base);
    var (d, c) := (Decimal(n), Candidate(base, n));
    forall k | 0 <= k < |c| ensures PlainChar(c[k]) && (k + 1 < |c| && c[k] == '.' ==> c[k + 1] != '.') {
      if k < i {
        assert c[k] == base[k] && (k + 1 < i ==> c[k + 1] == base[k + 1]);
        assert k + 1 == i ==> c[k + 1] == '-';
      } else if k == i {
        assert c[k] == '-';
      } else if k <= i + |d| {
        assert c[k] == d[k - i - 1];
      } else {
        assert c[k] == base[k - 1 - |d|] && (k + 1 < |c| ==> c[k + 1] == base[k - |d|]);
      }
    }
  }

  /** The names tried before number n: the base and its numbered forms below n. */
  function Tried(base: string, n: nat): (names: set<string>)
    requires n >= 2
    ensures base in names && forall k :: 2 <= k < n ==> Candidate(base, k) in names
  {
    if n == 2 then {base} else Tried(base, n - 1) + {Candidate(base, n - 1)}
  }

  lemma {:induction false} NotTriedYet(base: string, n: nat, m: nat)
    requires 2 <= n <= m
    ensures Candidate(base, m) !in Tried(base, n)
  {
    hide Candidate;
    CandidateIsNew(base, m);
    if n > 2 {
      NotTriedYet(base, n - 1, m);
      if Candidate(base, m) == Candidate(base, n - 1) {
        CandidatesDiffer(base, m, n - 1);
      }
    }
  }

  lemma {:induction false} TriedSize(base: string, n: nat)
    requires n >= 2
    ensures |Tried(base, n)| == n - 1
  {
    hide Candidate;
    if n > 2 {
      TriedSize(base, n - 1);
      NotTriedYet(base, n - 1, n - 1);
    }
  }

  lemma {:induction false} TriedWithin(base: string, n: nat, used: set<string>)
    requires n >= 2 && base in used && forall k :: 2 <= k < n ==> Candidate(base, k) in used
    ensures n - 1 <= |used|
  {
    hide Candidate;
    TriedInside(base, n, used);
    TriedSize(base, n);
    SubsetSize(Tried(base, n), used);
  }

  lemma {:induction false} TriedInside(base: string, n: nat, used: set<string>)
    requires n >= 2 && base in used && forall k :: 2 <= k < n ==> Candidate(base, k) in used
    ensures Tried(base, n) <= used
  {
    if n > 2 {
      TriedInside(base, n - 1, used);
    }
  }

  /** The base name if it is free, else its first numbered form that is. */
  predicate IsUnused(name: string, base: string, used: set<string>) {
    && name !in used
    && (base !in used ==> name == base)
    && (base in used ==>
          exists n :: 2 <= n <= |used| + 1 && name == Candidate(base, n)
                      && forall k :: 2 <= k < n ==> Candidate(base, k) in used)
  }

  /** The renaming loop ends after at most as many renamings as there are names in use: the numbered forms are all
      different, so by then one of them is free. */
  method UnusedName(base: string, used: set<string>) returns (name: string)
    ensures IsUnused(name, base, used)
    ensures SafeName(base) ==> SafeName(name)
  {
    hide Candidate, SafeName, Tried;
    name := base;
    var n := 2;
    while name in used
      invariant n >= 2
      invariant name == if n == 2 then base else Candidate(base, n - 1)
      invariant n > 2 ==> base in used && forall k :: 2 <= k < n - 1 ==> Candidate(base, k) in used
      invariant n - 1 <= |used| + 1
      decreases |used| + 2 - n
    {
      TriedWithin(base, n, used);
      var ext := base[ExtAt(base)..];
      name := base[..|base| - |ext|] + "-" + Decimal(n) + ext;
      assert name == Candidate(base, n) by { CandidateForm(base, n, ext); }
      n := n + 1;
    }
    if n > 2 {
      assert name == Candidate(base, n - 1);
      if SafeName(base) {
        CandidateIsSafe(base, n - 1);
      }
    }
  }

  lemma CandidateForm(base: string, n: nat, ext: string)
    requires ext == base[ExtAt(base)..]
    ensures base[..|base| - |ext|] + "-" + Decimal(n) + ext == Candidate(base, n)
  {
  }

  // ---------------------------------------------------------------- the list

  /** The attachments that are there, in order. */
  function Present(input: seq<Option<Attachment>>): seq<Attachment> {
    if input == [] then []
    else Present(input[..|input| - 1]) + if input[|input| - 1].Some? then [input[|input| - 1].value] else []
  }

  function Names(out: seq<Attachment>): set<string> {
    set k | 0 <= k < |out| :: out[k].filename
  }

  /** Accepted lists keep their files, in order, with types and contents; each has a safe name that is its own unless
      an earlier file took it. */
  predicate Renamed(input: seq<Attachment>, out: seq<Attachment>) {
    && |out| == |input|
    && forall k :: 0 <= k < |out| ==>
         && out[k] == input[k].(filename := out[k].filename)
         && SafeName(out[k].filename)
         && IsUnused(out[k].filename, TrimSpace(input[k].filename), Names(out[..k]))
  }

  lemma RenamedSnoc(input: seq<Attachment>, out: seq<Attachment>, a: Attachment, name: string)
    requires Renamed(input, out) && SafeName(name) && IsUnused(name, TrimSpace(a.filename), Names(out))
    ensures Renamed(input + [a], out + [a.(filename := name)])
  {
    hide SafeName, IsUnused, Names;
    var out' := out + [a.(filename := name)];
    assert out'[..|out|] == out;
    forall k | 0 <= k < |out'|
      ensures out'[k] == (input + [a])[k].(filename := out'[k].filename) && SafeName(out'[k].filename)
              && IsUnused(out'[k].filename, TrimSpace((input + [a])[k].filename), Names(out'[..k]))
    {
      if k < |out| {
        assert out'[k] == out[k] && out'[..k] == out[..k];
      }
    }
  }

  lemma NamesSnoc(out: seq<Attachment>, a: Attachment)
    ensures Names(out + [a]) == Names(out) + {a.filename}
  {
    var out' := out + [a];
    assert out'[|out|] == a;
    forall x | x in Names(out) ensures x in Names(out') {
      var k :| 0 <= k < |out| && out[k].filename == x;
      assert out'[k].filename == x;
    }
    forall x | x in Names(out') ensures x in Names(out) + {a.filename} {
      var k :| 0 <= k < |out'| && out'[k].filename == x;
      assert k < |out| ==> out[k].filename == x;
    }
  }

  /** A list is refused exactly when it is too long or a file of it has a problem, with the problem of the first. */
  method ValidateAttachments(input: seq<Option<Attachment>>) returns (r: Result<seq<Attachment>>)
    ensures r.Ok? <==> |input| <= MAX_ATTACHMENTS && forall i :: 0 <= i < |input| ==> Problem(input[i], i) == None
    ensures r.Err? ==>
              if |input| > MAX_ATTACHMENTS then r.error == TooMany
              else exists i :: 0 <= i < |input| && Problem(input[i], i) == Some(r.error)
                               && forall j :: 0 <= j < i ==> Problem(input[j], j) == None
    ensures r.Ok? ==> Renamed(Present(input), r.value)
  {
    hide IsUnused, Renamed, Names, SafeName, AllPlain, ContainsDotDot, Present;
    if |input| > MAX_ATTACHMENTS {
      return Err(TooMany);
    }
    var out: seq<Attachment> := [];
    var used: set<string> := {};
    NothingRenamed();
    for i := 0 to |input|
      invariant forall j :: 0 <= j < i ==> Problem(input[j], j) == None
      invariant Renamed(Present(input[..i]), out) && used == Names(out)
    {
      PresentSnoc(input, i);
      if input[i].None? {
        continue;
      }
      var a := input[i].value;
      var base := TrimSpace(a.filename);
      SafeIff(base);
      if base == "" || '/' in base || '\\' in base || ContainsDotDot(base) || !AllPlain(base) {
        return Err(InvalidFilename(i + 1));
      }
      var limit := if IsImage(a.contentType) then MAX_IMAGE_BYTES else MAX_BYTES;
      if |a.data| == 0 {
        return Err(Empty(i + 1));
      }
      if |a.data| > limit {
        return Err(TooLarge(i + 1));
      }
      var name := UnusedName(base, used);
      RenamedSnoc(Present(input[..i]), out, a, name);
      NamesSnoc(out, a.(filename := name));
      used := used + {name};
      out := out + [a.(filename := name)];
    }
    assert input[..|input|] == input;
    r := Ok(out);
  }

  lemma NothingRenamed()
    ensures Renamed(Present([]), []) && Names([]) == {}
  {
  }

  lemma PresentSnoc(input: seq<Option<Attachment>>, i: nat)
    requires i < |input|
    ensures Present(input[..i + 1]) ==
            if input[i].Some? then Present(input[..i]) + [input[i].value] else Present(input[..i])
  {
    assert input[..i + 1][..i] == input[..i];
    assert Present(input[..i]) + [] == Present(input[..i]);
  }

  /** The separators need no test of their own, they are no plain characters. */
  lemma SafeIff(s: string)
    ensures SafeName(s) <==> !(s == "" || '/' in s || '\\' in s || ContainsDotDot(s) || !AllPlain(s))
  {
  }

  /** So no two files of an accepted list have the same name: none clobbers another when they are written. */
  lemma NamesAreDistinct(input: seq<Attachment>, out: seq<Attachment>, j: nat, k: nat)
    requires Renamed(input, out) && j < k < |out|
    ensures out[j].filename != out[k].filename
  {
    assert out[..k][j] == out[j];
    assert out[j].filename in Names(out[..k]);
  }

  /** A file keeps its name exactly if no earlier one took it; else it gets the first numbered form that none did. */
  lemma RenamedIff(input: seq<Attachment>, out: seq<Attachment>, k: nat)
    requires Renamed(input, out) && k < |out|
    ensures var base := TrimSpace(input[k].filename);
            && (out[k].filename == base <==> base !in Names(out[..k]))
            && (out[k].filename != base ==>
                  exists n: nat ::
                    && n >= 2 && out[k].filename == Candidate(base, n) && Candidate(base, n) !in Names(out[..k])
                    && forall m :: 2 <= m < n ==> Candidate(base, m) in Names(out[..k]))
  {
    hide SafeName, Names, TrimSpace, Candidate;
  }
}
