// The two JavaScript string operations the board store relies on:
// `String.prototype.trim` (board titles and tags) and `charCodeAt` over the
// UTF-16 code units of a string (tag colours). A Dafny `char` is a Unicode
// scalar value; a JavaScript string is a sequence of UTF-16 code units.
module JsText {

  /** WhiteSpace and LineTerminator code points, which `trim` removes at both ends. Each is a
      single UTF-16 code unit, so trimming scalar values trims the same code units. */
  predicate IsWhiteSpace(c: char): (b: bool)
    ensures b ==> (c as int) < 0x10000
  {
    var n := c as int;
    (0x09 <= n <= 0x0D)                 // tab, line feed, vertical tab, form feed, carriage return
    || n == 0x20 || n == 0xA0 || n == 0x1680
    || (0x2000 <= n <= 0x200A)
    || n == 0x2028 || n == 0x2029       // line and paragraph separators
    || n == 0x202F || n == 0x205F || n == 0x3000
    || n == 0xFEFF                      // byte order mark
  }

  predicate AllWhiteSpace(s: string) {
    forall i :: 0 <= i < |s| ==> IsWhiteSpace(s[i])
  }

  /** `s` with its leading white space removed. */
  function TrimStart(s: string): (r: string)
    ensures |r| <= |s| && r == s[|s| - |r|..]
    ensures AllWhiteSpace(s[..|s| - |r|])
    ensures r == [] || !IsWhiteSpace(r[0])
  {
    if s != [] && IsWhiteSpace(s[0]) then TrimStart(s[1..]) else s
  }

  /** `s` with its trailing white space removed. */
  function TrimEnd(s: string): (r: string)
    ensures |r| <= |s| && r == s[..|r|]
    ensures AllWhiteSpace(s[|r|..])
    ensures r == [] || !IsWhiteSpace(r[|r| - 1])
  {
    if s != [] && IsWhiteSpace(s[|s| - 1]) then TrimEnd(s[..|s| - 1]) else s
  }

  /** `s.trim()`: a part of `s` that, when non-empty, neither starts nor ends with white space. */
  function Trim(s: string): (r: string)
    ensures |r| <= |s|
    ensures r != [] ==> !IsWhiteSpace(r[0]) && !IsWhiteSpace(r[|r| - 1])
  {
    TrimEnd(TrimStart(s))
  }

  /** `r` occurs in `s` as a contiguous block. */
  ghost predicate IsInfix(r: string, s: string) {
    exists i :: 0 <= i <= |s| - |r| && s[i..][..|r|] == r
  }

  /** `trim` keeps a contiguous middle part of `s`. */
  lemma TrimIsInfix(s: string)
    ensures IsInfix(Trim(s), s)
  {
    var t := TrimStart(s);
    var i := |s| - |t|;
    assert s[i..][..|Trim(s)|] == Trim(s);
  }

  /** `trim` yields the empty string exactly when `s` is all white space. */
  lemma TrimEmptyIff(s: string)
    ensures Trim(s) == [] <==> AllWhiteSpace(s)
  {
    var t := TrimStart(s);
    var i := |s| - |t|;
    if Trim(s) == [] {
      assert t[0..] == t;
      assert t == [];
      assert s[..i] == s;
    } else {
      assert Trim(s)[0] == t[0] == s[i];
    }
  }

  /** A string that neither starts nor ends with white space is its own `trim`. */
  lemma TrimUnpadded(s: string)
    requires s != [] && !IsWhiteSpace(s[0]) && !IsWhiteSpace(s[|s| - 1])
    ensures Trim(s) == s
  {
    assert TrimStart(s) == s;
  }

  /** Trimming twice is trimming once. */
  lemma TrimIdempotent(s: string)
    ensures Trim(Trim(s)) == Trim(s)
  {
    var r := Trim(s);
    if r != [] {
      assert TrimStart(r) == r;
      assert TrimEnd(r) == r;
    }
  }

  /** The UTF-16 code units that encode `c`: one below U+10000, else a surrogate pair. */
  function CodeUnits(c: char): (units: seq<int>)
    ensures 1 <= |units| <= 2
    ensures forall i :: 0 <= i < |units| ==> 0 <= units[i] < 0x10000
    ensures |units| == 1 <==> (c as int) < 0x10000
    ensures |units| == 1 ==> units[0] == c as int
    ensures |units| == 2 ==> 0xD800 <= units[0] < 0xDC00 <= units[1] < 0xE000
    ensures |units| == 2 ==> 0x10000 + (units[0] - 0xD800) * 0x400 + (units[1] - 0xDC00) == c as int
  {
    var n := c as int;
    if n < 0x10000 then [n]
    else [0xD800 + (n - 0x10000) / 0x400, 0xDC00 + (n - 0x10000) % 0x400]
  }

  /** The sum of the code units of one character: the code point itself below U+10000. */
  function CharCodeSum(c: char): (n: nat)
    ensures n <= 0x1FFFF
    ensures (c as int) < 0x10000 ==> n == c as int
  {
    var units := CodeUnits(c);
    if |units| == 1 then units[0] else units[0] + units[1]
  }

  /** `s.split('').reduce((acc, ch) => acc + ch.charCodeAt(0), 0)`: the sum of the
      UTF-16 code units of `s`, accumulated left to right. */
  function CodeUnitSum(s: string): (n: nat)
    ensures n <= 0x1FFFF * |s|
  {
    if s == [] then 0 else CodeUnitSum(s[..|s| - 1]) + CharCodeSum(s[|s| - 1])
  }

  /** The code unit sum of a concatenation is the sum of the parts' sums. */
  lemma {:induction false} CodeUnitSumConcat(a: string, b: string)
    ensures CodeUnitSum(a + b) == CodeUnitSum(a) + CodeUnitSum(b)
    decreases |b|
  {
    if b == [] {
      assert a + b == a;
    } else {
      var b' := b[..|b| - 1];
      assert (a + b)[..|a + b| - 1] == a + b';
      assert (a + b)[|a + b| - 1] == b[|b| - 1];
      CodeUnitSumConcat(a, b');
    }
  }

  /** The sum does not depend on the order of the characters: anagrams have equal sums. */
  lemma {:induction false} CodeUnitSumPermutation(s: string, t: string)
    requires multiset(s) == multiset(t)
    ensures CodeUnitSum(s) == CodeUnitSum(t)
    decreases |s|
  {
    if s == [] {
      assert |t| == |multiset(t)| == 0;
    } else {
      var c := s[|s| - 1];
      var s' := s[..|s| - 1];
      assert s == s' + [c];
      assert c in multiset(t);
      var j :| 0 <= j < |t| && t[j] == c;
      var t' := t[..j] + t[j + 1..];
      assert t == t[..j] + [c] + t[j + 1..];
      assert multiset(t) == multiset(t[..j]) + multiset{c} + multiset(t[j + 1..]);
      assert multiset(t') == multiset(t[..j]) + multiset(t[j + 1..]);
      assert multiset(s) == multiset(s') + multiset{c};
      assert multiset(s') == multiset(s) - multiset{c};
      assert multiset(t') == multiset(t) - multiset{c};
      CodeUnitSumPermutation(s', t');
      calc {
        CodeUnitSum(t);
        { CodeUnitSumConcat(t[..j] + [c], t[j + 1..]); }
        CodeUnitSum(t[..j] + [c]) + CodeUnitSum(t[j + 1..]);
        { CodeUnitSumConcat(t[..j], [c]); }
        CodeUnitSum(t[..j]) + CodeUnitSum([c]) + CodeUnitSum(t[j + 1..]);
        { CodeUnitSumConcat(t[..j], t[j + 1..]); }
        CodeUnitSum(t') + CodeUnitSum([c]);
        CodeUnitSum(s') + CodeUnitSum([c]);
        { CodeUnitSumConcat(s', [c]); }
        CodeUnitSum(s);
      }
    }
  }
}
