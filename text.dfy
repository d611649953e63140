/**
 * String helpers shared by the Go client and the Python agent: the two
 * languages' notions of white space, splitting on white space or on a
 * separator, trimming, prefix and substring tests, ASCII lower-casing and
 * decimal rendering of integers.
 */
module Text {

  /** Whose definition of white space applies: Go's unicode.IsSpace or Python's str.isspace. */
  datatype Flavor = Go | Py

  /** Go's unicode.IsSpace. */
  predicate IsGoSpace(c: char) {
    c == '\t' || c == '\n' || c == '\U{B}' || c == '\U{C}' || c == '\r' || c == ' '
    || c == '\U{85}' || c == '\U{A0}' || c == '\U{1680}'
    || ('\U{2000}' <= c <= '\U{200A}')
    || c == '\U{2028}' || c == '\U{2029}' || c == '\U{202F}' || c == '\U{205F}' || c == '\U{3000}'
  }

  /** Python's str.isspace: Go's set plus the separators U+001C to U+001F. */
  predicate IsPySpace(c: char) {
    IsGoSpace(c) || ('\U{1C}' <= c <= '\U{1F}')
  }

  predicate IsSpace(f: Flavor, c: char) {
    if f == Go then IsGoSpace(c) else IsPySpace(c)
  }

  predicate NoSpace(f: Flavor, s: string) {
    forall i | 0 <= i < |s| :: !IsSpace(f, s[i])
  }

  predicate AllSpace(f: Flavor, s: string) {
    forall i | 0 <= i < |s| :: IsSpace(f, s[i])
  }

  /** A word as strings.Fields returns it: non-empty, without white space. */
  predicate IsWord(w: string) {
    w != [] && NoSpace(Go, w)
  }

  // ---------------------------------------------------------------------
  // strings.Fields

  /** The characters of `s` that are not Go white space, in order. */
  function Squeeze(s: string): string {
    if s == [] then []
    else if IsGoSpace(s[0]) then Squeeze(s[1..])
    else [s[0]] + Squeeze(s[1..])
  }

  /** The concatenation of a list of strings. */
  function Concat(ws: seq<string>): string {
    if ws == [] then [] else ws[0] + Concat(ws[1..])
  }

  /** The words joined with `sep` between neighbours (Go's strings.Join). */
  function Join(ws: seq<string>, sep: string): string {
    if |ws| == 0 then []
    else if |ws| == 1 then ws[0]
    else ws[0] + sep + Join(ws[1..], sep)
  }

  lemma {:induction false} SqueezeAppend(a: string, b: string)
    ensures Squeeze(a + b) == Squeeze(a) + Squeeze(b)
    decreases |a|
  {
    if a == [] {
      assert a + b == b;
    } else {
      assert (a + b)[0] == a[0];
      assert (a + b)[1..] == a[1..] + b;
      SqueezeAppend(a[1..], b);
    }
  }

  lemma {:induction false} SqueezeWord(w: string)
    requires NoSpace(Go, w)
    ensures Squeeze(w) == w
    decreases |w|
  {
    if w != [] {
      assert NoSpace(Go, w[1..]) by {
        forall i | 0 <= i < |w[1..]| ensures !IsGoSpace(w[1..][i]) {
          assert w[1..][i] == w[i + 1];
        }
      }
      SqueezeWord(w[1..]);
      assert w == [w[0]] + w[1..];
    }
  }

  /** The length of the run of non-space characters that starts `s`. */
  function WordLength(s: string): (n: nat)
    ensures n <= |s|
    ensures NoSpace(Go, s[..n])
    ensures n < |s| ==> IsGoSpace(s[n])
    decreases |s|
  {
    if s == [] || IsGoSpace(s[0]) then 0
    else
      var m := WordLength(s[1..]);
      assert s[..m + 1] == [s[0]] + s[1..][..m];
      m + 1
  }

  /**
   * Go's strings.Fields: the maximal runs of non-space characters. Every
   * field is a word, and together the fields hold exactly the non-space
   * characters of the input, in order.
   */
  function Fields(s: string): (r: seq<string>)
    ensures forall k | 0 <= k < |r| :: IsWord(r[k])
    ensures Concat(r) == Squeeze(s)
    decreases |s|
  {
    if s == [] then []
    else if IsGoSpace(s[0]) then Fields(s[1..])
    else
      var n := WordLength(s);
      var rest := Fields(s[n..]);
      SqueezeWord(s[..n]);
      assert s == s[..n] + s[n..];
      SqueezeAppend(s[..n], s[n..]);
      [s[..n]] + rest
  }

  lemma {:induction false} WordLengthOfWord(w: string, rest: string)
    requires IsWord(w)
    requires rest == [] || IsGoSpace(rest[0])
    ensures WordLength(w + rest) == |w|
    decreases |w|
  {
    var s := w + rest;
    assert s[0] == w[0];
    if |w| == 1 {
      assert s[1..] == rest;
    } else {
      assert s[1..] == w[1..] + rest;
      assert IsWord(w[1..]) by {
        forall i | 0 <= i < |w[1..]| ensures !IsGoSpace(w[1..][i]) {
          assert w[1..][i] == w[i + 1];
        }
      }
      WordLengthOfWord(w[1..], rest);
    }
  }

  lemma FieldsOfWordThen(w: string, rest: string)
    requires IsWord(w)
    requires rest == [] || IsGoSpace(rest[0])
    ensures Fields(w + rest) == [w] + Fields(rest)
  {
    WordLengthOfWord(w, rest);
    var s := w + rest;
    assert s[..|w|] == w;
    assert s[|w|..] == rest;
  }

  /**
   * Splitting words joined by single spaces gives the words back, so a
   * command sent as one string decodes to the same argument list as the
   * list itself.
   */
  lemma {:induction false} FieldsOfJoin(ws: seq<string>)
    requires forall k | 0 <= k < |ws| :: IsWord(ws[k])
    ensures Fields(Join(ws, " ")) == ws
    decreases |ws|
  {
    if |ws| == 1 {
      FieldsOfWordThen(ws[0], []);
      assert ws[0] + [] == ws[0];
    } else if |ws| > 1 {
      var tail := Join(ws[1..], " ");
      assert Join(ws, " ") == ws[0] + (" " + tail);
      FieldsOfWordThen(ws[0], " " + tail);
      assert (" " + tail)[1..] == tail;
      FieldsOfJoin(ws[1..]);
      assert ws == [ws[0]] + ws[1..];
    }
  }

  // ---------------------------------------------------------------------
  // Trimming (Go's strings.TrimSpace, Python's str.strip)

  /** The number of white-space characters that start `s`. */
  function LeadingSpace(f: Flavor, s: string): (n: nat)
    ensures n <= |s|
    ensures forall i | 0 <= i < n :: IsSpace(f, s[i])
    ensures n < |s| ==> !IsSpace(f, s[n])
    decreases |s|
  {
    if s == [] || !IsSpace(f, s[0]) then 0
    else
      var m := LeadingSpace(f, s[1..]);
      assert forall i | 1 <= i < m + 1 :: s[i] == s[1..][i - 1];
      m + 1
  }

  /** The number of white-space characters that end `s`. */
  function TrailingSpace(f: Flavor, s: string): (n: nat)
    ensures n <= |s|
    ensures forall i | |s| - n <= i < |s| :: IsSpace(f, s[i])
    ensures n < |s| ==> !IsSpace(f, s[|s| - n - 1])
    decreases |s|
  {
    if s == [] || !IsSpace(f, s[|s| - 1]) then 0
    else
      var m := TrailingSpace(f, s[..|s| - 1]);
      assert forall i | 0 <= i < |s| - 1 :: s[i] == s[..|s| - 1][i];
      m + 1
  }

  /**
   * `s` without leading and trailing white space: the result is the slice
   * of `s` that starts after its leading white space, only white space
   * follows it, and it neither starts nor ends with white space.
   */
  function Strip(f: Flavor, s: string): (r: string)
    ensures r != [] ==> !IsSpace(f, r[0]) && !IsSpace(f, r[|r| - 1])
    ensures var i := LeadingSpace(f, s);
              i + |r| <= |s| && r == s[i..i + |r|]
              && (forall j | i + |r| <= j < |s| :: IsSpace(f, s[j]))
    ensures s == [] || (!IsSpace(f, s[0]) && !IsSpace(f, s[|s| - 1])) ==> r == s
  {
    var a := LeadingSpace(f, s);
    var n := TrailingSpace(f, s[a..]);
    TrimmedSlice(f, s, a, n);
    s[a..|s| - n]
  }

  /** The facts Strip states, about the slice it returns. */
  lemma TrimmedSlice(f: Flavor, s: string, a: nat, n: nat)
    requires a == LeadingSpace(f, s) && n == TrailingSpace(f, s[a..])
    ensures a <= |s| - n
    ensures var r := s[a..|s| - n];
              (r != [] ==> !IsSpace(f, r[0]) && !IsSpace(f, r[|r| - 1]))
              && (forall j | a + |r| <= j < |s| :: IsSpace(f, s[j]))
    ensures s == [] || (!IsSpace(f, s[0]) && !IsSpace(f, s[|s| - 1])) ==> s[a..|s| - n] == s
  {
    var t := s[a..];
    var r := s[a..|s| - n];
    assert r == t[..|t| - n];
    forall j | a + |r| <= j < |s|
      ensures IsSpace(f, s[j])
    {
      assert s[j] == t[j - a];
    }
    if r != [] {
      assert r[0] == t[0];
      assert r[|r| - 1] == t[|t| - n - 1];
    }
    if s != [] && !IsSpace(f, s[0]) && !IsSpace(f, s[|s| - 1]) {
      EdgeSpaceFree(f, s);
      assert t == s;
    }
  }

  /** A string that neither starts nor ends with white space has none to trim at either end. */
  lemma EdgeSpaceFree(f: Flavor, s: string)
    ensures s != [] && !IsSpace(f, s[0]) ==> LeadingSpace(f, s) == 0
    ensures s != [] && !IsSpace(f, s[|s| - 1]) ==> TrailingSpace(f, s) == 0
  {
  }

  /** Go's strings.TrimSpace. */
  function TrimSpace(s: string): string {
    Strip(Go, s)
  }

  /** Strip keeps a leading non-space prefix of its input. */
  lemma StripKeepsPrefix(f: Flavor, s: string, p: string)
    requires StartsWith(s, p) && NoSpace(f, p)
    ensures StartsWith(Strip(f, s), p)
  {
    if p != [] {
      assert s[0] == p[0] && s[|p| - 1] == p[|p| - 1];
      assert !IsSpace(f, s[|p| - 1]);
      var r := Strip(f, s);
      assert |r| >= |p|;
      assert r[..|p|] == p;
    }
  }

  /** Strip keeps a trailing non-space suffix of its input. */
  lemma StripKeepsSuffix(f: Flavor, s: string, p: string)
    requires EndsWith(s, p) && NoSpace(f, p)
    ensures EndsWith(Strip(f, s), p)
  {
    if p != [] {
      var r := Strip(f, s);
      var i := LeadingSpace(f, s);
      assert s[|s| - |p|] == p[0];
      assert !IsSpace(f, s[|s| - |p|]);
      assert i <= |s| - |p|;
      assert s[|s| - 1] == p[|p| - 1];
      assert i + |r| == |s|;
      assert r[|r| - |p|..] == p;
    }
  }

  // ---------------------------------------------------------------------
  // Prefixes, suffixes, substrings

  predicate StartsWith(s: string, p: string) {
    |p| <= |s| && s[..|p|] == p
  }

  predicate EndsWith(s: string, p: string) {
    |p| <= |s| && s[|s| - |p|..] == p
  }

  /** Go's strings.Contains and Python's `in` on strings. */
  predicate Contains(s: string, p: string)
    decreases |s|
  {
    StartsWith(s, p) || (s != [] && Contains(s[1..], p))
  }

  lemma {:induction false} ContainsMiddle(a: string, x: string, b: string)
    ensures Contains(a + x + b, x)
    decreases |a|
  {
    if a == [] {
      assert (a + x + b)[..|x|] == x;
    } else {
      assert (a + x + b)[1..] == a[1..] + x + b;
      ContainsMiddle(a[1..], x, b);
    }
  }

  // ---------------------------------------------------------------------
  // Splitting on one separator character (Python's str.split and Go's
  // strings.Split with a one-character separator)

  /** The position of the first occurrence of `c` in `s`. */
  function IndexOf(s: string, c: char): (i: nat)
    requires c in s
    ensures i < |s| && s[i] == c && c !in s[..i]
  {
    if s[0] == c then 0
    else
      var j := IndexOf(s[1..], c);
      assert s[..j + 1] == [s[0]] + s[1..][..j];
      j + 1
  }

  /**
   * The pieces of `s` between occurrences of `sep`. There is always at
   * least one piece, no piece holds the separator, and joining the pieces
   * with the separator gives `s` back.
   */
  function Split(s: string, sep: char): (r: seq<string>)
    ensures |r| >= 1
    ensures forall k | 0 <= k < |r| :: sep !in r[k]
    ensures Join(r, [sep]) == s
    decreases |s|
  {
    if sep !in s then [s]
    else
      var i := IndexOf(s, sep);
      var rest := Split(s[i + 1..], sep);
      assert s == s[..i] + [sep] + s[i + 1..];
      [s[..i]] + rest
  }

  /** A first piece free of the separator is split off as it stands. */
  lemma SplitFirst(a: string, sep: char, b: string)
    requires sep !in a
    ensures Split(a + [sep] + b, sep) == [a] + Split(b, sep)
  {
    var s := a + [sep] + b;
    assert s[|a|] == sep;
    var i := IndexOf(s, sep);
    assert forall j | 0 <= j < |a| :: s[j] == a[j];
    assert s[..i] == a && s[i + 1..] == b;
  }

  /** Splitting pieces joined with the separator gives the pieces back. */
  lemma {:induction false} SplitJoin(ws: seq<string>, sep: char)
    requires |ws| >= 1
    requires forall k | 0 <= k < |ws| :: sep !in ws[k]
    ensures Split(Join(ws, [sep]), sep) == ws
    decreases |ws|
  {
    if |ws| > 1 {
      SplitJoin(ws[1..], sep);
      SplitFirst(ws[0], sep, Join(ws[1..], [sep]));
      assert [ws[0]] + ws[1..] == ws;
    }
  }

  /** Slicing and stripping never bring in a character. */
  lemma StripWithout(f: Flavor, s: string, c: char)
    ensures c !in s ==> c !in Strip(f, s)
  {
    var r := Strip(f, s);
    var i := LeadingSpace(f, s);
    assert forall k | 0 <= k < |r| :: r[k] == s[i + k];
  }

  // ---------------------------------------------------------------------
  // Lower-casing

  function LowerChar(c: char): char {
    if 'A' <= c <= 'Z' then (c as int + 32) as char else c
  }

  /** ASCII lower-casing (Go's strings.ToLower, Python's str.lower, on ASCII text). */
  function Lower(s: string): (r: string)
    ensures |r| == |s|
    ensures forall i | 0 <= i < |s| :: r[i] == LowerChar(s[i])
  {
    if s == [] then [] else [LowerChar(s[0])] + Lower(s[1..])
  }

  // ---------------------------------------------------------------------
  // Decimal numbers (Go's %d, Python's str() of an int)

  function DigitChar(d: nat): char
    requires d < 10
  {
    ('0' as int + d) as char
  }

  predicate IsDigit(c: char) {
    '0' <= c <= '9'
  }

  /** The decimal digits of `n`, without leading zeros. */
  function NatToString(n: nat): (r: string)
    ensures r != []
    ensures forall i | 0 <= i < |r| :: IsDigit(r[i])
    ensures |r| > 1 ==> r[0] != '0'
  {
    if n < 10 then [DigitChar(n)]
    else NatToString(n / 10) + [DigitChar(n % 10)]
  }

  function IntToString(n: int): string {
    if n < 0 then "-" + NatToString(-n) else NatToString(n)
  }

  /** The value of a string of decimal digits. */
  function ParseDigits(s: string): int
    requires forall i | 0 <= i < |s| :: IsDigit(s[i])
  {
    if s == [] then 0
    else ParseDigits(s[..|s| - 1]) * 10 + (s[|s| - 1] as int - '0' as int)
  }

  /** Reading the rendered digits back gives the number. */
  lemma {:induction false} ParseNatToString(n: nat)
    ensures ParseDigits(NatToString(n)) == n
  {
    if n >= 10 {
      var s := NatToString(n);
      assert s[..|s| - 1] == NatToString(n / 10);
      ParseNatToString(n / 10);
    }
  }
}
