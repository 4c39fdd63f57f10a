/**
 Go strings as the byte sequences they are: a character of a `string` stands for one byte. Modules that import this
 one work on bytes; the others work on code points.
 */
module Bytes {

  /** A byte of a character that is not ASCII. */
  predicate High(b: char) {
    b as int >= 0x80
  }

  /** The first byte of such a character. */
  predicate Lead(b: char) {
    b as int >= 0xC0
  }

  predicate Ascii(t: string) {
    forall k :: 0 <= k < |t| ==> !High(t[k])
  }

  /** A byte; a lead byte is followed by another byte of its character, and any other high byte stands behind one. */
  predicate InCharacter(t: string, k: nat)
    requires k < |t|
  {
    t[k] as int < 256 && (High(t[k]) ==> if Lead(t[k]) then k + 1 < |t| && High(t[k + 1]) else k > 0 && High(t[k - 1]))
  }

  /** What every UTF-8 text satisfies. */
  predicate Utf8Shaped(t: string) {
    forall k :: 0 <= k < |t| ==> InCharacter(t, k)
  }

  /** Go's string(b) of a byte b: the UTF-8 encoding of the code point with that number. */
  function AsRune(b: char): (r: string)
    ensures |r| == if High(b) then 2 else 1
  {
    if !High(b) then [b]
    else [(0xC0 + b as int / 64) as char, (0x80 + b as int % 64) as char]
  }

  /** The length of the white-space character that t begins with, or 0. */
  function SpaceAt(t: string): (n: nat)
    ensures n <= |t| && n <= 3
  {
    if |t| >= 1 && ('\t' <= t[0] <= '\r' || t[0] == ' ') then 1
    else if |t| >= 2 && t[0] as int == 0xC2 && (t[1] as int == 0x85 || t[1] as int == 0xA0) then 2
    else if |t| >= 3 && WideSpace(t[0] as int, t[1] as int, t[2] as int) then 3
    else 0
  }

  predicate WideSpace(a: int, b: int, c: int) {
    || (a == 0xE1 && b == 0x9A && c == 0x80)
    || (a == 0xE2 && b == 0x80 && (0x80 <= c <= 0x8A || c == 0xA8 || c == 0xA9 || c == 0xAF))
    || (a == 0xE2 && b == 0x81 && c == 0x9F)
    || (a == 0xE3 && b == 0x80 && c == 0x80)
  }

  /** The length of the white-space character that t ends with, or 0. */
  function SpaceBefore(t: string): (n: nat)
    ensures n <= |t| && n <= 3
  {
    if |t| >= 1 && SpaceAt(t[|t| - 1..]) == 1 then 1
    else if |t| >= 2 && SpaceAt(t[|t| - 2..]) == 2 then 2
    else if |t| >= 3 && SpaceAt(t[|t| - 3..]) == 3 then 3
    else 0
  }

  function TrimLeft(t: string): (r: string)
    ensures |r| <= |t|
    decreases |t|
  {
    if SpaceAt(t) == 0 then t else TrimLeft(t[SpaceAt(t)..])
  }

  function TrimRight(t: string): string
    decreases |t|
  {
    if SpaceBefore(t) == 0 then t else TrimRight(t[..|t| - SpaceBefore(t)])
  }

  /** strings.TrimSpace. */
  function TrimSpace(t: string): string {
    TrimRight(TrimLeft(t))
  }

  predicate Blank(t: string) {
    TrimSpace(t) == ""
  }

  // ---------------------------------------------------------------- trimming

  lemma SpaceAtPrefix(t: string, u: string)
    requires SpaceAt(t) > 0
    ensures SpaceAt(t + u) == SpaceAt(t)
  {
  }

  lemma SpaceAtWhole(t: string, n: nat)
    requires 1 <= n <= |t| && SpaceAt(t[|t| - n..]) == n && |t| == n
    ensures SpaceAt(t) == n
  {
    assert t[0..] == t;
  }

  lemma EndsInSpace(t: string)
    ensures SpaceBefore(t) > 0 ==> SpaceAt(t[|t| - SpaceBefore(t)..]) == SpaceBefore(t)
  {
    hide SpaceAt;
  }

  /** What is trimmed to nothing from the right begins with white space. */
  lemma {:induction false} TrimRightNothing(t: string)
    requires t != "" && TrimRight(t) == ""
    ensures SpaceAt(t) > 0
    decreases |t|
  {
    hide SpaceAt, SpaceBefore;
    var n := SpaceBefore(t);
    EndsInSpace(t);
    if n == |t| {
      SpaceAtWhole(t, n);
    } else {
      TrimRightNothing(t[..|t| - n]);
      SpaceAtPrefix(t[..|t| - n], t[|t| - n..]);
      assert t == t[..|t| - n] + t[|t| - n..];
    }
  }

  lemma {:induction false} TrimLeftStops(t: string)
    ensures TrimLeft(t) == "" || SpaceAt(TrimLeft(t)) == 0
    decreases |t|
  {
    if SpaceAt(t) > 0 {
      TrimLeftStops(t[SpaceAt(t)..]);
    }
  }

  lemma BlankIff(t: string)
    ensures Blank(t) <==> TrimLeft(t) == ""
  {
    TrimLeftStops(t);
    if TrimLeft(t) != "" && TrimRight(TrimLeft(t)) == "" {
      TrimRightNothing(TrimLeft(t));
    }
  }

  lemma {:induction false} TrimBlankPrefix(t: string, u: string)
    requires TrimLeft(t) == ""
    ensures TrimLeft(t + u) == TrimLeft(u)
    decreases |t|
  {
    if t == "" {
      assert t + u == u;
    } else {
      var n := SpaceAt(t);
      SpaceAtPrefix(t, u);
      assert (t + u)[n..] == t[n..] + u;
      TrimBlankPrefix(t[n..], u);
    }
  }

  // ---------------------------------------------------------------- texts

  lemma Utf8Concat(t: string, u: string)
    requires Utf8Shaped(t) && Utf8Shaped(u)
    ensures Utf8Shaped(t + u)
  {
    forall k | 0 <= k < |t + u| ensures InCharacter(t + u, k) {
      if k < |t| {
        assert InCharacter(t, k);
      } else {
        assert InCharacter(u, k - |t|);
      }
    }
  }

  /** Cutting a text where ASCII begins or ends leaves texts. */
  lemma Utf8Take(t: string, n: nat)
    requires Utf8Shaped(t) && n <= |t| && (n < |t| ==> !High(t[n]))
    ensures Utf8Shaped(t[..n])
  {
    forall k | 0 <= k < n ensures InCharacter(t[..n], k) {
      assert InCharacter(t, k);
    }
  }

  lemma Utf8Drop(t: string, n: nat)
    requires Utf8Shaped(t) && n <= |t| && (n > 0 ==> !High(t[n - 1]))
    ensures Utf8Shaped(t[n..])
  {
    forall k | 0 <= k < |t| - n ensures InCharacter(t[n..], k) {
      assert InCharacter(t, k + n);
    }
  }
}
