/**
 * Text as bytes: UTF-8 as section 3 of RFC 3629 defines it, cutUTF8 of
 * turnoutput/reducer.go, and the trimming of white space it works after.
 */
module Utf8 {
  import opened Bytes

  predicate Tail(b: Byte) {
    0x80 <= b <= 0xBF
  }

  /** utf8.RuneStart: any byte that does not continue a character. */
  predicate RuneStart(b: Byte) {
    !Tail(b)
  }

  /** The length of the character s starts with, 0 for none (the UTF8-char rule). */
  function CharLen(s: seq<Byte>): (n: nat)
    ensures n <= |s| && n <= 4
  {
    if s == [] then 0
    else if s[0] <= 0x7F then 1
    else if |s| < 2 || !Tail(s[1]) then 0
    else if 0xC2 <= s[0] <= 0xDF then 2
    else if |s| < 3 || !Tail(s[2]) then 0
    else if (s[0] == 0xE0 && 0xA0 <= s[1]) || 0xE1 <= s[0] <= 0xEC || (s[0] == 0xED && s[1] <= 0x9F)
            || 0xEE <= s[0] <= 0xEF then 3
    else if |s| < 4 || !Tail(s[3]) then 0
    else if (s[0] == 0xF0 && 0x90 <= s[1]) || 0xF1 <= s[0] <= 0xF3 || (s[0] == 0xF4 && s[1] <= 0x8F) then 4
    else 0
  }

  predicate Valid(s: seq<Byte>) {
    s == [] || (CharLen(s) > 0 && Valid(s[CharLen(s)..]))
  }

  /** A place between characters. */
  predicate Boundary(s: seq<Byte>, k: nat) {
    k == |s| || (k < |s| && RuneStart(s[k]))
  }

  // ---- where valid text can be cut -----------------------------------------------------------

  lemma SliceOfPrefix(s: seq<Byte>, n: nat, k: nat)
    requires n <= k <= |s|
    ensures s[..k][n..] == s[n..][..k - n] && s[n..][k - n..] == s[k..]
  {
  }

  /** Valid text cut at the start of a character, or at its end, is valid on both sides. */
  lemma {:induction false} CutAtBoundary(s: seq<Byte>, k: nat)
    requires Valid(s) && k <= |s| && Boundary(s, k)
    ensures Valid(s[..k]) && Valid(s[k..])
    decreases |s|
  {
    if k == 0 {
      assert s[k..] == s;
    } else {
      var n := CharLen(s);
      SliceOfPrefix(s, n, k);
      CutAtBoundary(s[n..], k - n);
    }
  }

  /** Valid text has no other valid prefixes. */
  lemma {:induction false} ValidPrefixEndsAtBoundary(s: seq<Byte>, k: nat)
    requires Valid(s) && k <= |s| && Valid(s[..k])
    ensures Boundary(s, k)
    decreases |s|
  {
    if k == 0 {
    } else {
      var n := CharLen(s);
      SliceOfPrefix(s, n, k);
      ValidPrefixEndsAtBoundary(s[n..], k - n);
    }
  }

  lemma {:induction false} ValidJoin(a: seq<Byte>, b: seq<Byte>)
    requires Valid(a) && Valid(b)
    ensures Valid(a + b)
    decreases |a|
  {
    if a == [] {
      assert a + b == b;
    } else {
      CharOfJoin(a, b);
      ValidJoin(a[CharLen(a)..], b);
    }
  }

  lemma CharOfJoin(a: seq<Byte>, b: seq<Byte>)
    requires CharLen(a) > 0
    ensures CharLen(a + b) == CharLen(a) && (a + b)[CharLen(a)..] == a[CharLen(a)..] + b
  {
  }

  // ---- cutUTF8 ---------------------------------------------------------------------------------

  /** The last start of a character at or before n, or 0. */
  function LastStart(s: seq<Byte>, n: nat): (k: nat)
    requires n < |s| || n == 0
    ensures k <= n
    ensures forall i :: k < i <= n ==> Tail(s[i])
    ensures k > 0 ==> RuneStart(s[k])
  {
    if n == 0 || RuneStart(s[n]) then n else LastStart(s, n - 1)
  }

  function Cut(s: seq<Byte>, n: int): (r: seq<Byte>)
    ensures r <= s && (|r| <= n || r == [])
  {
    if n >= |s| then s else s[..LastStart(s, if n < 0 then 0 else n)]
  }

  /** Valid text is cut to its longest valid prefix of at most n bytes. */
  lemma CutIsTheLongestValidPrefix(s: seq<Byte>, n: nat)
    requires Valid(s)
    ensures Valid(Cut(s, n)) && Cut(s, n) <= s && |Cut(s, n)| <= n
    ensures forall k: nat :: k <= |s| && k <= n && Valid(s[..k]) ==> k <= |Cut(s, n)|
  {
    if n < |s| {
      var cut := LastStart(s, n);
      CutAtBoundary(s, cut);
      forall k: nat | k <= n && Valid(s[..k]) ensures k <= cut {
        ValidPrefixEndsAtBoundary(s, k);
      }
    }
  }

  method CutUTF8(s: seq<Byte>, limit: int) returns (r: seq<Byte>)
    ensures r == Cut(s, limit)
  {
    if limit >= |s| {
      return s;
    }
    var n: nat := if limit < 0 then 0 else limit;
    ghost var from := n;
    while n > 0 && !RuneStart(s[n])
      invariant n <= from && (n < |s| || n == 0) && (from < |s| || from == 0) && LastStart(s, n) == LastStart(s, from)
    {
      n := n - 1;
    }
    return s[..n];
  }

  // ---- strings.TrimSpace -------------------------------------------------------------------------

  /** The length of the white space character s starts with, 0 for none. */
  function SpaceAtStart(s: seq<Byte>): (n: nat)
    ensures n <= |s|
  {
    if |s| >= 1 && IsSpace([s[0]]) then 1
    else if |s| >= 2 && IsSpace([s[0], s[1]]) then 2
    else if |s| >= 3 && IsSpace([s[0], s[1], s[2]]) then 3
    else 0
  }

  function SpaceAtEnd(s: seq<Byte>): (n: nat)
    ensures n <= |s|
  {
    var n := |s|;
    if n >= 1 && IsSpace([s[n - 1]]) then 1
    else if n >= 2 && IsSpace([s[n - 2], s[n - 1]]) then 2
    else if n >= 3 && IsSpace([s[n - 3], s[n - 2], s[n - 1]]) then 3
    else 0
  }

  /** The encodings of the characters unicode.IsSpace accepts. */
  predicate IsSpace(c: seq<Byte>) {
    || (|c| == 1 && (9 <= c[0] <= 13 || c[0] == 32))
    || (|c| == 2 && c[0] == 0xC2 && (c[1] == 0x85 || c[1] == 0xA0))
    || c == [0xE1, 0x9A, 0x80]
    || (|c| == 3 && c[0] == 0xE2 && c[1] == 0x80 && (0x80 <= c[2] <= 0x8A || c[2] == 0xA8 || c[2] == 0xA9 || c[2] == 0xAF))
    || c == [0xE2, 0x81, 0x9F]
    || c == [0xE3, 0x80, 0x80]
  }

  function TrimLeft(s: seq<Byte>): seq<Byte>
    decreases |s|
  {
    if SpaceAtStart(s) == 0 then s else TrimLeft(s[SpaceAtStart(s)..])
  }

  function TrimRight(s: seq<Byte>): seq<Byte>
    decreases |s|
  {
    if SpaceAtEnd(s) == 0 then s else TrimRight(s[..|s| - SpaceAtEnd(s)])
  }

  function TrimSpace(s: seq<Byte>): seq<Byte> {
    TrimRight(TrimLeft(s))
  }

  lemma {:induction false} TrimLeftKeepsValid(s: seq<Byte>)
    requires Valid(s)
    ensures Valid(TrimLeft(s))
    decreases |s|
  {
    var n := SpaceAtStart(s);
    if n > 0 {
      assert CharLen(s) == n;
      TrimLeftKeepsValid(s[n..]);
    }
  }

  lemma {:induction false} TrimRightKeepsValid(s: seq<Byte>)
    requires Valid(s)
    ensures Valid(TrimRight(s))
    decreases |s|
  {
    if SpaceAtEnd(s) > 0 {
      SpaceIsCharacter(s);
      CutAtBoundary(s, |s| - SpaceAtEnd(s));
      TrimRightKeepsValid(s[..|s| - SpaceAtEnd(s)]);
    }
  }

  lemma SpaceIsCharacter(s: seq<Byte>)
    ensures Boundary(s, |s| - SpaceAtEnd(s))
  {
  }

  /** Trimming never leaves half a character. */
  lemma TrimKeepsValid(s: seq<Byte>)
    requires Valid(s)
    ensures Valid(TrimSpace(s))
  {
    TrimLeftKeepsValid(s);
    TrimRightKeepsValid(TrimLeft(s));
  }
}
