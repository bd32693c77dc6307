/**
 * The few string primitives the source relies on: ECMAScript white space
 * (shared by `String.prototype.trim` and the regular-expression class `\s`),
 * substring containment (`String.prototype.includes`), lower-casing, and the
 * UTF-16 code units that `charCodeAt` and `.length` observe.
 */
module Text {
  import opened Wrappers

  /** ECMAScript WhiteSpace and LineTerminator code points. */
  predicate IsSpace(c: char) {
    || c == '\t' || c == '\n' || c == '\U{B}' || c == '\U{C}' || c == '\r' || c == ' '
    || c == '\U{A0}' || c == '\U{1680}' || ('\U{2000}' <= c <= '\U{200A}')
    || c == '\U{2028}' || c == '\U{2029}' || c == '\U{202F}' || c == '\U{205F}'
    || c == '\U{3000}' || c == '\U{FEFF}'
  }

  /**
   * Every white-space character lies in the basic plane (one UTF-16 code
   * unit) and none is a printable ASCII character, so no letter, digit,
   * '@' or '.' is ever trimmed or matched by `\s`.
   */
  lemma SpaceIsInvisible(c: char)
    ensures IsSpace(c) ==> c as int < 0x1_0000
    ensures IsSpace(c) ==> !('!' <= c <= '~')
  {
  }

  /** `s.trimStart()`: drop the leading white space. */
  function TrimStart(s: string): (r: string)
    ensures |r| <= |s| && r == s[|s| - |r|..]
    ensures forall i :: 0 <= i < |s| - |r| ==> IsSpace(s[i])
    ensures r == [] || !IsSpace(r[0])
  {
    if s != [] && IsSpace(s[0]) then TrimStart(s[1..]) else s
  }

  /** `s.trimEnd()`: drop the trailing white space. */
  function TrimEnd(s: string): (r: string)
    ensures |r| <= |s| && r == s[..|r|]
    ensures forall i :: |r| <= i < |s| ==> IsSpace(s[i])
    ensures r == [] || !IsSpace(r[|r| - 1])
  {
    if s != [] && IsSpace(s[|s| - 1]) then TrimEnd(s[..|s| - 1]) else s
  }

  /** `r` is `s[i..i + |r|]`, and everything of `s` before and after it is white space. */
  predicate TrimmedAt(s: string, i: int, r: string) {
    && 0 <= i && i + |r| <= |s| && r == s[i..i + |r|]
    && (forall k :: 0 <= k < i ==> IsSpace(s[k]))
    && (forall k :: i + |r| <= k < |s| ==> IsSpace(s[k]))
  }

  /** `s.trim()`: drop the white space at both ends. */
  function Trim(s: string): (r: string)
    ensures |r| <= |s|
    ensures exists i :: TrimmedAt(s, i, r)
    ensures r == [] || (!IsSpace(r[0]) && !IsSpace(r[|r| - 1]))
    ensures r == [] <==> forall i :: 0 <= i < |s| ==> IsSpace(s[i])
  {
    TrimWindow(s);
    TrimEnd(TrimStart(s))
  }

  /** Trimming the start, then the end, leaves a window of `s` with only white space around it. */
  lemma TrimWindow(s: string)
    ensures TrimmedAt(s, |s| - |TrimStart(s)|, TrimEnd(TrimStart(s)))
    ensures TrimStart(s) != [] ==> TrimEnd(TrimStart(s)) != []
  {
    var t := TrimStart(s);
    var r := TrimEnd(t);
    var i := |s| - |t|;
    assert r == t[..|r|];
    assert t == s[i..];
    assert r == s[i..i + |r|];
    forall k | i + |r| <= k < |s|
      ensures IsSpace(s[k])
    {
      assert s[k] == t[k - i];
    }
  }

  /** `!s.trim()`: nothing is left once the white space at both ends is removed, that is, every character is white space. */
  predicate IsBlank(s: string): (b: bool)
    ensures b <==> forall i :: 0 <= i < |s| ==> IsSpace(s[i])
  {
    Trim(s) == []
  }

  /** Text that starts with a printable ASCII character is never blank. */
  lemma VisibleFirstNotBlank(s: string)
    requires |s| > 0 && '!' <= s[0] <= '~'
    ensures !IsBlank(s)
  {
    SpaceIsInvisible(s[0]);
  }

  /** `hay.includes(needle)`: the empty needle is in every string, and no needle longer than `hay` is. */
  predicate Contains(hay: string, needle: string): (b: bool)
    ensures needle == [] ==> b
    ensures b ==> |needle| <= |hay|
  {
    var found := exists i :: 0 <= i <= |hay| - |needle| && needle <= hay[i..];
    assert needle == [] ==> needle <= hay[0..];
    found
  }

  /** A needle whose first character occurs at no position where it could start is not contained. */
  lemma NotContainedByFirstChar(hay: string, needle: string)
    requires |needle| > 0
    requires forall i :: 0 <= i <= |hay| - |needle| ==> hay[i] != needle[0]
    ensures !Contains(hay, needle)
  {
    forall i | 0 <= i <= |hay| - |needle|
      ensures !(needle <= hay[i..])
    {
      assert hay[i..][0] == hay[i] != needle[0];
    }
  }

  /** A needle longer than `hay` is never contained in it. */
  lemma NotContainedByLength(hay: string, needle: string)
    requires |needle| > |hay|
    ensures !Contains(hay, needle)
  {
  }

  function LowerChar(c: char): char {
    if 'A' <= c <= 'Z' then (c as int + 32) as char else c
  }

  /** `toLowerCase` restricted to ASCII letters. */
  function Lower(s: string): (r: string)
    ensures |r| == |s|
    ensures forall i :: 0 <= i < |s| ==> r[i] == LowerChar(s[i])
  {
    seq(|s|, i requires 0 <= i < |s| => LowerChar(s[i]))
  }

  /** Lower-casing twice is lower-casing once. */
  lemma LowerIdempotent(s: string)
    ensures Lower(Lower(s)) == Lower(s)
  {
  }

  /** A string without upper-case ASCII letters is its own lower-case form. */
  lemma LowerOfLower(s: string)
    requires forall i :: 0 <= i < |s| ==> !('A' <= s[i] <= 'Z')
    ensures Lower(s) == s
  {
  }

  /** A UTF-16 code unit, as returned by `charCodeAt`. */
  type CodeUnit = c: int | 0 <= c < 0x1_0000

  /** The UTF-16 encoding of one scalar value: itself, or a surrogate pair. */
  function Utf16Char(c: char): (r: seq<CodeUnit>)
    ensures |r| == (if c as int < 0x1_0000 then 1 else 2)
    ensures c as int < 0x1_0000 ==> r[0] == c as int
    ensures c as int >= 0x1_0000 ==> 0xD800 <= r[0] < 0xDC00 <= r[1] < 0xE000
  {
    var v := c as int;
    if v < 0x1_0000 then [v]
    else
      var u := v - 0x1_0000;
      [0xD800 + u / 0x400, 0xDC00 + u % 0x400]
  }

  /** The number of characters outside the basic plane, each of which takes a surrogate pair. */
  function AstralCount(s: string): nat {
    if s == [] then 0 else AstralCount(s[..|s| - 1]) + (if s[|s| - 1] as int < 0x1_0000 then 0 else 1)
  }

  /** The code units a JavaScript string holds for `s`: one per character, plus one more per astral character. */
  function Utf16(s: string): (r: seq<CodeUnit>)
    ensures |r| >= |s|
    ensures |r| == |s| + AstralCount(s)
    ensures s == [] ==> r == []
  {
    if s == [] then [] else Utf16(s[..|s| - 1]) + Utf16Char(s[|s| - 1])
  }

  /** Encoding is character by character: the units of two strings joined are their units joined. */
  lemma {:induction false} Utf16Append(a: string, b: string)
    ensures Utf16(a + b) == Utf16(a) + Utf16(b)
    decreases |b|
  {
    if b == [] {
      assert a + b == a;
    } else {
      var init := b[..|b| - 1];
      assert (a + b)[..|a + b| - 1] == a + init;
      assert (a + b)[|a + b| - 1] == b[|b| - 1];
      Utf16Append(a, init);
    }
  }

  /** For text of basic-plane characters only (every host name is), code units and characters coincide. */
  lemma {:induction false} Utf16OfBasicPlane(s: string)
    requires forall i :: 0 <= i < |s| ==> s[i] as int < 0x1_0000
    ensures |Utf16(s)| == |s|
    ensures forall i :: 0 <= i < |s| ==> Utf16(s)[i] == s[i] as int
  {
    if s != [] {
      Utf16OfBasicPlane(s[..|s| - 1]);
    }
  }

  /** `s.indexOf(c)`: the first position holding `c`, if any. */
  function IndexOf(s: string, c: char): (r: Option<nat>)
    ensures r.Some? ==> r.value < |s| && s[r.value] == c
    ensures r.Some? ==> forall k :: 0 <= k < r.value ==> s[k] != c
    ensures r.None? ==> forall k :: 0 <= k < |s| ==> s[k] != c
  {
    if s == [] then None
    else if s[0] == c then Some(0)
    else match IndexOf(s[1..], c)
      case None => None
      case Some(k) => Some(k + 1)
  }

  /** `s.split(sep)` for a one-character separator. */
  function Split(s: string, sep: char): (parts: seq<string>)
    ensures |parts| >= 1
    ensures forall i, k :: 0 <= i < |parts| && 0 <= k < |parts[i]| ==> parts[i][k] != sep
    ensures |parts| == 1 <==> forall k :: 0 <= k < |s| ==> s[k] != sep
    decreases |s|
  {
    match IndexOf(s, sep)
    case None => [s]
    case Some(i) => [s[..i]] + Split(s[i + 1..], sep)
  }

  /** `parts.join(sep)`. */
  function Join(parts: seq<string>, sep: char): string
    requires |parts| >= 1
  {
    if |parts| == 1 then parts[0] else parts[0] + [sep] + Join(parts[1..], sep)
  }

  /** Splitting loses nothing: joining the parts back gives the original text. */
  lemma {:induction false} JoinSplit(s: string, sep: char)
    ensures Join(Split(s, sep), sep) == s
    decreases |s|
  {
    match IndexOf(s, sep)
    case None =>
    case Some(i) =>
      JoinSplit(s[i + 1..], sep);
      JoinSplitStep(s, sep, i);
  }

  /** The step of the induction: the first separator splits off the first part. */
  lemma JoinSplitStep(s: string, sep: char, i: nat)
    requires IndexOf(s, sep) == Some(i)
    requires Join(Split(s[i + 1..], sep), sep) == s[i + 1..]
    ensures Join(Split(s, sep), sep) == s
  {
    var head, tail := s[..i], s[i + 1..];
    SplitAtFirst(s, sep, i);
    JoinCons(head, Split(tail, sep), sep);
    assert s == head + [sep] + tail;
  }

  lemma SplitAtFirst(s: string, sep: char, i: nat)
    requires IndexOf(s, sep) == Some(i)
    ensures Split(s, sep) == [s[..i]] + Split(s[i + 1..], sep)
  {
  }

  lemma JoinCons(head: string, rest: seq<string>, sep: char)
    requires |rest| >= 1
    ensures Join([head] + rest, sep) == head + [sep] + Join(rest, sep)
  {
    assert ([head] + rest)[1..] == rest;
  }
}
