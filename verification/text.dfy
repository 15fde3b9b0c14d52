/** The string primitives the UI code relies on: `String.prototype.trim`,
    `toLowerCase` (ASCII letters only), `String.prototype.includes`, and the
    decimal rendering of a positive integer inside a template literal. */
module Text {

  /** The characters `trim` strips: ECMAScript WhiteSpace (tab, vertical tab,
      form feed, space, no-break space, byte order mark and the Zs category)
      and LineTerminator (line feed, carriage return, U+2028, U+2029). */
  predicate IsSpace(c: char) {
    || c == ' '
    || ('\t' <= c <= '\r')
    || c == '\U{00A0}' || c == '\U{1680}'
    || ('\U{2000}' <= c <= '\U{200A}')
    || c == '\U{2028}' || c == '\U{2029}' || c == '\U{202F}'
    || c == '\U{205F}' || c == '\U{3000}' || c == '\U{FEFF}'
  }

  /** Every character of `s` is whitespace (the empty string included). */
  predicate AllSpace(s: string) {
    forall k :: 0 <= k < |s| ==> IsSpace(s[k])
  }

  /** Neither end of `s` is whitespace. */
  predicate Trimmed(s: string) {
    s == [] || (!IsSpace(s[0]) && !IsSpace(s[|s| - 1]))
  }

  /** `s` without its leading whitespace. */
  function TrimStart(s: string): (r: string)
    ensures |r| <= |s| && r == s[|s| - |r|..]
    ensures AllSpace(s[..|s| - |r|])
    ensures r == [] || !IsSpace(r[0])
    decreases |s|
  {
    if |s| > 0 && IsSpace(s[0]) then TrimStart(s[1..]) else s
  }

  /** `s` without its trailing whitespace. */
  function TrimEnd(s: string): (r: string)
    ensures |r| <= |s| && r == s[..|r|]
    ensures AllSpace(s[|r|..])
    ensures r == [] || !IsSpace(r[|r| - 1])
    decreases |s|
  {
    if |s| > 0 && IsSpace(s[|s| - 1]) then TrimEnd(s[..|s| - 1]) else s
  }

  /** `r` sits at position `i` of `s` with only whitespace around it. */
  predicate SurroundedBySpace(s: string, r: string, i: nat) {
    && i + |r| <= |s|
    && s[i..i + |r|] == r
    && AllSpace(s[..i])
    && AllSpace(s[i + |r|..])
  }

  /** Whitespace-only strings concatenate to a whitespace-only string. */
  lemma AllSpaceConcat(a: string, b: string)
    ensures AllSpace(a + b) <==> AllSpace(a) && AllSpace(b)
  {
    if AllSpace(a + b) {
      forall k | 0 <= k < |a|
        ensures IsSpace(a[k])
      {
        assert (a + b)[k] == a[k];
      }
      forall k | 0 <= k < |b|
        ensures IsSpace(b[k])
      {
        assert (a + b)[|a| + k] == b[k];
      }
    }
  }

  /** `s.trim()`: an infix of `s` with whitespace on neither of its ends and
      only whitespace cut away on either side. */
  function Trim(s: string): (r: string)
    ensures Trimmed(r)
    ensures |r| <= |s|
    ensures exists i: nat :: SurroundedBySpace(s, r, i)
    ensures r == [] <==> AllSpace(s)
  {
    var t := TrimStart(s);
    var r := TrimEnd(t);
    TrimParts(s, t, r);
    r
  }

  /** A suffix of a suffix is a suffix. */
  lemma SuffixOfSuffix(s: string, i: nat, j: nat)
    requires i + j <= |s|
    ensures s[i..][j..] == s[i + j..]
  {
  }

  /** The facts `Trim` promises, from those of its two halves. */
  lemma TrimParts(s: string, t: string, r: string)
    requires |t| <= |s| && t == s[|s| - |t|..] && AllSpace(s[..|s| - |t|])
    requires t == [] || !IsSpace(t[0])
    requires |r| <= |t| && r == t[..|r|] && AllSpace(t[|r|..])
    ensures SurroundedBySpace(s, r, |s| - |t|)
    ensures r == [] <==> AllSpace(s)
  {
    var i := |s| - |t|;
    assert t == s[i..];
    assert r == t[..|r|];
    assert s[i..i + |r|] == r;
    SuffixOfSuffix(s, i, |r|);
    assert s == s[..i] + t;
    AllSpaceConcat(s[..i], t);
    if r == [] {
      assert t[|r|..] == t;
    }
  }

  /** Trimming twice is trimming once. */
  lemma TrimIdempotent(s: string)
    ensures Trim(Trim(s)) == Trim(s)
  {
    var r := Trim(s);
    assert TrimStart(r) == r;
    assert TrimEnd(r) == r;
  }

  /** ASCII `toLowerCase` on one character. */
  function LowerChar(c: char): char {
    if 'A' <= c <= 'Z' then (c as int - 'A' as int + 'a' as int) as char else c
  }

  /** `s.toLowerCase()` restricted to ASCII letters; length and every
      non-letter are kept. */
  function Lower(s: string): (r: string)
    ensures |r| == |s|
    ensures forall k :: 0 <= k < |s| ==> r[k] == LowerChar(s[k])
  {
    seq(|s|, k requires 0 <= k < |s| => LowerChar(s[k]))
  }

  /** `hay.includes(needle)`: `needle` occurs as a contiguous infix of `hay`;
      the empty needle occurs everywhere. */
  predicate Contains(hay: string, needle: string)
    decreases |hay|
  {
    needle <= hay || (|hay| > 0 && Contains(hay[1..], needle))
  }

  /** The first position at which `needle` occurs in `hay`. */
  function IndexOf(hay: string, needle: string): (i: nat)
    requires Contains(hay, needle)
    ensures i + |needle| <= |hay| && hay[i..i + |needle|] == needle
    decreases |hay|
  {
    if needle <= hay then 0 else 1 + IndexOf(hay[1..], needle)
  }

  /** `needle` occurs in `hay` starting at position `i`. */
  predicate OccursAt(hay: string, needle: string, i: nat) {
    i + |needle| <= |hay| && hay[i..i + |needle|] == needle
  }

  /** An occurrence at any position witnesses `Contains`. */
  lemma {:induction false} ContainsAt(hay: string, needle: string, i: nat)
    requires OccursAt(hay, needle, i)
    ensures Contains(hay, needle)
    decreases i
  {
    if i > 0 {
      assert hay[1..][i - 1..i - 1 + |needle|] == hay[i..i + |needle|];
      ContainsAt(hay[1..], needle, i - 1);
    }
  }

  /** `Contains` holds exactly when some position holds an occurrence. */
  lemma ContainsIff(hay: string, needle: string)
    ensures Contains(hay, needle) <==> exists i: nat :: OccursAt(hay, needle, i)
  {
    if Contains(hay, needle) {
      assert OccursAt(hay, needle, IndexOf(hay, needle));
    }
    if exists i: nat :: OccursAt(hay, needle, i) {
      var i: nat :| OccursAt(hay, needle, i);
      ContainsAt(hay, needle, i);
    }
  }

  /** A slice of a slice is a slice. */
  lemma SliceOfSlice(a: string, i: nat, n: nat, j: nat, m: nat)
    requires i + n <= |a| && j + m <= n
    ensures a[i..i + n][j..j + m] == a[i + j..i + j + m]
  {
    var inner := a[i..i + n][j..j + m];
    var direct := a[i + j..i + j + m];
    forall k | 0 <= k < m
      ensures inner[k] == direct[k]
    {
    }
  }

  /** An infix of an infix is an infix. */
  lemma ContainsTransitive(a: string, b: string, c: string)
    requires Contains(a, b) && Contains(b, c)
    ensures Contains(a, c)
  {
    var i := IndexOf(a, b);
    var j := IndexOf(b, c);
    SliceOfSlice(a, i, |b|, j, |c|);
    ContainsAt(a, c, i + j);
  }

  /** Lowering both sides keeps an occurrence. */
  lemma LowerContains(hay: string, needle: string)
    requires Contains(hay, needle)
    ensures Contains(Lower(hay), Lower(needle))
  {
    var i := IndexOf(hay, needle);
    assert Lower(hay)[i..i + |needle|] == Lower(needle);
    ContainsAt(Lower(hay), Lower(needle), i);
  }

  /** Every string contains the empty string. */
  lemma ContainsEmpty(hay: string)
    ensures Contains(hay, "")
  {
  }

  /** One decimal digit. */
  function Digit(d: nat): (c: char)
    requires d < 10
    ensures '0' <= c <= '9'
  {
    ('0' as int + d) as char
  }

  /** The value of a digit character. */
  function DigitValue(c: char): nat {
    if '0' <= c <= '9' then c as int - '0' as int else 0
  }

  /** The decimal rendering of `n` that a template literal produces:
      at least one digit, no leading zero. */
  function NatToString(n: nat): (r: string)
    ensures |r| >= 1
    ensures forall k :: 0 <= k < |r| ==> '0' <= r[k] <= '9'
    ensures |r| > 1 ==> r[0] != '0'
    decreases n
  {
    if n < 10 then [Digit(n)] else NatToString(n / 10) + [Digit(n % 10)]
  }

  /** Reading a string of digits back as a number, most significant first. */
  function ParseNat(s: string): nat
    decreases |s|
  {
    if |s| == 0 then 0 else 10 * ParseNat(s[..|s| - 1]) + DigitValue(s[|s| - 1])
  }

  /** Rendering then reading gives the number back. */
  lemma {:induction false} ParseNatToString(n: nat)
    ensures ParseNat(NatToString(n)) == n
    decreases n
  {
    if n >= 10 {
      var r := NatToString(n);
      assert r[..|r| - 1] == NatToString(n / 10);
      ParseNatToString(n / 10);
    }
  }

  /** Different numbers render differently. */
  lemma NatToStringInjective(a: nat, b: nat)
    requires NatToString(a) == NatToString(b)
    ensures a == b
  {
    ParseNatToString(a);
    ParseNatToString(b);
  }
}
