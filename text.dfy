/**
 * The JavaScript string built-ins the core relies on, over `string` (a sequence of
 * Unicode scalar values): `split` on one character, `split(sep)[1]` on a longer
 * separator, `trim`, `startsWith`, substring matching, decimal rendering of numbers
 * in template literals, and `Number(string)` restricted to decimal digits.
 */
module Text {
  import opened Results

  /** `String.prototype.trim` whitespace: WhiteSpace and LineTerminator code points. */
  predicate IsWhitespace(c: char) {
    c == ' ' || c == '\t' || c == '\n' || c == '\r' || c == '\U{B}' || c == '\U{C}'
    || c == '\U{A0}' || c == '\U{FEFF}' || c == '\U{1680}' || ('\U{2000}' <= c <= '\U{200A}')
    || c == '\U{2028}' || c == '\U{2029}' || c == '\U{202F}' || c == '\U{205F}' || c == '\U{3000}'
  }

  predicate IsDigit(c: char) {
    '0' <= c <= '9'
  }

  predicate AllDigits(s: string) {
    forall i :: 0 <= i < |s| ==> IsDigit(s[i])
  }

  /** `s.startsWith(p)`. */
  predicate StartsWith(s: string, p: string) {
    |p| <= |s| && s[..|p|] == p
  }

  /** A string starts with any of its prefixes. */
  lemma StartsWithConcat(a: string, b: string)
    ensures StartsWith(a + b, a)
  {
    assert (a + b)[..|a|] == a;
  }

  /** A string that differs from `p` at a position inside both does not start with `p`. */
  lemma NotStartsWithAt(s: string, p: string, i: nat)
    requires i < |s| && i < |p| && s[i] != p[i]
    ensures !StartsWith(s, p)
  {
    if |p| <= |s| {
      assert s[..|p|][i] == s[i];
    }
  }

  /** `s.match(p)` for a regular expression made only of literal characters: `p` occurs in `s`. */
  predicate Contains(s: string, p: string)
    decreases |s|
  {
    StartsWith(s, p) || (|s| > 0 && Contains(s[1..], p))
  }

  /** Leading whitespace removed. */
  function TrimStart(s: string): (r: string)
    ensures |r| <= |s| && r == s[|s| - |r|..]
    ensures forall i :: 0 <= i < |s| - |r| ==> IsWhitespace(s[i])
    ensures r != [] ==> !IsWhitespace(r[0])
  {
    if |s| > 0 && IsWhitespace(s[0]) then TrimStart(s[1..]) else s
  }

  /** Trailing whitespace removed. */
  function TrimEnd(s: string): (r: string)
    ensures |r| <= |s| && r == s[..|r|]
    ensures forall i :: |r| <= i < |s| ==> IsWhitespace(s[i])
    ensures r != [] ==> !IsWhitespace(r[|r| - 1])
  {
    if |s| > 0 && IsWhitespace(s[|s| - 1]) then TrimEnd(s[..|s| - 1]) else s
  }

  /** Number of whitespace characters `trim` removes from the front of `s`. */
  function Lead(s: string): (n: nat)
    ensures n <= |s|
  {
    |s| - |TrimStart(s)|
  }

  /** `s.trim()`: the infix of `s` left once whitespace is removed from both ends. */
  function Trim(s: string): (r: string)
    ensures Lead(s) + |r| <= |s|
    ensures forall i :: 0 <= i < |r| ==> r[i] == s[Lead(s) + i]
    ensures forall i :: 0 <= i < Lead(s) ==> IsWhitespace(s[i])
    ensures forall i :: Lead(s) + |r| <= i < |s| ==> IsWhitespace(s[i])
    ensures r != [] ==> !IsWhitespace(r[0]) && !IsWhitespace(r[|r| - 1])
  {
    TrimBothEnds(s);
    TrimEnd(TrimStart(s))
  }

  lemma TrimBothEnds(s: string)
    ensures var r := TrimEnd(TrimStart(s));
      && Lead(s) + |r| <= |s|
      && (forall i :: 0 <= i < |r| ==> r[i] == s[Lead(s) + i])
      && (forall i :: 0 <= i < Lead(s) ==> IsWhitespace(s[i]))
      && (forall i :: Lead(s) + |r| <= i < |s| ==> IsWhitespace(s[i]))
      && (r != [] ==> !IsWhitespace(r[0]) && !IsWhitespace(r[|r| - 1]))
  {
    var t := TrimStart(s);
    TrimInfix(s, t, Lead(s), TrimEnd(t));
  }

  /** Taking a prefix `r` of the suffix `t` that starts at `n` keeps the characters of `s` from `n` on. */
  lemma TrimInfix(s: string, t: string, n: nat, r: string)
    requires n + |t| == |s| && t == s[n..]
    requires |r| <= |t| && r == t[..|r|]
    requires forall i :: |r| <= i < |t| ==> IsWhitespace(t[i])
    requires r != [] ==> !IsWhitespace(t[0])
    ensures n + |r| <= |s|
    ensures forall i :: 0 <= i < |r| ==> r[i] == s[n + i]
    ensures forall i :: n + |r| <= i < |s| ==> IsWhitespace(s[i])
    ensures r != [] ==> !IsWhitespace(r[0])
  {
    forall i | n + |r| <= i < |s| ensures IsWhitespace(s[i]) {
      assert s[i] == t[i - n];
    }
  }

  /** Trimming leaves a string that already starts and ends with non-whitespace unchanged. */
  lemma TrimUnchanged(s: string)
    requires s != [] ==> !IsWhitespace(s[0]) && !IsWhitespace(s[|s| - 1])
    ensures Trim(s) == s
  {
  }

  /** `s.split(c)` for a one-character separator `c`. */
  function Split(s: string, c: char): (r: seq<string>)
    ensures |r| >= 1
    ensures forall i :: 0 <= i < |r| ==> c !in r[i]
  {
    if |s| == 0 then [""]
    else if s[0] == c then [""] + Split(s[1..], c)
    else
      var t := Split(s[1..], c);
      [[s[0]] + t[0]] + t[1..]
  }

  /** `parts.join(c)`: the inverse of `Split`. */
  function Join(parts: seq<string>, c: char): string {
    if |parts| == 0 then ""
    else if |parts| == 1 then parts[0]
    else parts[0] + [c] + Join(parts[1..], c)
  }

  /** Appending a piece to a non-empty list of pieces appends the separator and the piece to the join. */
  lemma {:induction false} JoinAppend(parts: seq<string>, x: string, c: char)
    requires |parts| >= 1
    ensures Join(parts + [x], c) == Join(parts, c) + [c] + x
  {
    if |parts| > 1 {
      JoinAppend(parts[1..], x, c);
      assert (parts + [x])[1..] == parts[1..] + [x];
    } else {
      assert (parts + [x])[1..] == [x];
    }
  }

  /** Appending at most one piece: the join grows by the separator and that piece, or not at all. */
  lemma JoinOptional(parts: seq<string>, opt: seq<string>, c: char)
    requires |parts| >= 1 && |opt| <= 1
    ensures Join(parts + opt, c) == if opt == [] then Join(parts, c) else Join(parts, c) + ([c] + opt[0])
  {
    if opt == [] {
      assert parts + opt == parts;
    } else {
      assert parts + opt == parts + [opt[0]];
      JoinAppend(parts, opt[0], c);
      AppendAssoc(Join(parts, c), [c], opt[0]);
    }
  }

  /** Two pieces joined: the first, the separator, the second. */
  lemma JoinTwo(a: string, b: string, c: char)
    ensures Join([a, b], c) == a + [c] + b
  {
    assert [a, b][1..] == [b];
  }

  lemma AppendAssoc<T>(a: seq<T>, b: seq<T>, c: seq<T>)
    ensures a + b + c == a + (b + c)
  {
  }

  /** Splitting and re-joining on the same character gives back the original string. */
  lemma {:induction false} JoinSplit(s: string, c: char)
    ensures Join(Split(s, c), c) == s
  {
    if |s| == 0 {
    } else if s[0] == c {
      JoinSplit(s[1..], c);
      assert [""] + Split(s[1..], c) == Split(s, c);
      assert s == [c] + s[1..];
    } else {
      var t := Split(s[1..], c);
      JoinSplit(s[1..], c);
      assert s == [s[0]] + s[1..];
      if |t| == 1 {
        assert Split(s, c) == [[s[0]] + t[0]];
      } else {
        assert Split(s, c)[1..] == t[1..];
        assert Join(t, c) == t[0] + [c] + Join(t[1..], c);
      }
    }
  }

  /** A string without the separator is a single piece. */
  lemma {:induction false} SplitWithout(s: string, c: char)
    requires c !in s
    ensures Split(s, c) == [s]
  {
    if |s| > 0 {
      SplitWithout(s[1..], c);
      assert [s[0]] + s[1..] == s;
    }
  }

  /** A separator-free piece followed by the separator is split off as the first piece. */
  lemma {:induction false} SplitPiece(a: string, c: char, b: string)
    requires c !in a
    ensures Split(a + [c] + b, c) == [a] + Split(b, c)
  {
    if |a| == 0 {
      assert a + [c] + b == [c] + b;
      assert ([c] + b)[1..] == b;
    } else {
      SplitPiece(a[1..], c, b);
      assert (a + [c] + b)[1..] == a[1..] + [c] + b;
      assert [a[0]] + a[1..] == a;
    }
  }

  /** Joining separator-free pieces and splitting again gives back the pieces. */
  lemma {:induction false} SplitJoin(parts: seq<string>, c: char)
    requires |parts| >= 1
    requires forall i :: 0 <= i < |parts| ==> c !in parts[i]
    ensures Split(Join(parts, c), c) == parts
  {
    if |parts| == 1 {
      SplitWithout(parts[0], c);
    } else {
      SplitJoin(parts[1..], c);
      SplitPiece(parts[0], c, Join(parts[1..], c));
      assert [parts[0]] + parts[1..] == parts;
    }
  }

  /** `s.split(sep)[1]` for a string starting with `sep`: the text after it, up to the next occurrence. */
  function UpTo(s: string, sep: string): (r: string)
    ensures |r| <= |s| && r == s[..|r|]
    ensures forall i :: 0 <= i < |r| ==> !StartsWith(s[i..], sep)
    ensures r == s || StartsWith(s[|r|..], sep)
  {
    if StartsWith(s, sep) || |s| == 0 then ""
    else
      var t := UpTo(s[1..], sep);
      assert forall i :: 1 <= i <= |t| ==> s[i..] == s[1..][i - 1..];
      [s[0]] + t
  }

  /** A character missing from `s` is missing from every piece of `Split(s, c)`. */
  lemma {:induction false} SplitPiecesWithout(s: string, c: char, x: char)
    requires x !in s
    ensures forall i :: 0 <= i < |Split(s, c)| ==> x !in Split(s, c)[i]
  {
    if |s| > 0 {
      assert x !in s[1..] by {
        forall i | 0 <= i < |s| - 1 ensures s[1..][i] != x {
          assert s[1..][i] == s[i + 1];
        }
      }
      SplitPiecesWithout(s[1..], c, x);
    }
  }

  /** A string lacking one of the characters of `p` does not contain `p`. */
  lemma {:induction false} NotContainsWithout(s: string, p: string, k: nat)
    requires k < |p| && p[k] !in s
    ensures !Contains(s, p)
    decreases |s|
  {
    if k < |s| {
      NotStartsWithAt(s, p, k);
    }
    if |s| > 0 {
      assert p[k] !in s[1..] by {
        forall i | 0 <= i < |s| - 1 ensures s[1..][i] != p[k] {
          assert s[1..][i] == s[i + 1];
        }
      }
      NotContainsWithout(s[1..], p, k);
    }
  }

  /** A string of digits holds no other character. */
  lemma DigitsWithout(s: string, x: char)
    requires AllDigits(s) && !IsDigit(x)
    ensures x !in s
  {
    forall i | 0 <= i < |s| ensures s[i] != x {
      assert IsDigit(s[i]);
    }
  }

  /** With no character that could start `sep`, the text up to `sep` is the whole string. */
  lemma {:induction false} UpToWithout(s: string, sep: string)
    requires sep != [] && sep[0] !in s
    ensures UpTo(s, sep) == s
  {
    if |s| > 0 {
      NotStartsWithAt(s, sep, 0);
      assert sep[0] !in s[1..] by {
        forall i | 0 <= i < |s| - 1 ensures s[1..][i] != sep[0] {
          assert s[1..][i] == s[i + 1];
        }
      }
      UpToWithout(s[1..], sep);
    }
  }

  /** Trailing whitespace after a text that starts and ends with non-whitespace is trimmed away. */
  lemma TrimTrailing(core: string, trailer: string)
    requires core != [] && !IsWhitespace(core[0]) && !IsWhitespace(core[|core| - 1])
    requires forall i :: 0 <= i < |trailer| ==> IsWhitespace(trailer[i])
    ensures Trim(core + trailer) == core
  {
    var s := core + trailer;
    var r := Trim(s);
    assert !IsWhitespace(s[0]);
    assert !IsWhitespace(s[|core| - 1]);
    assert forall i :: |core| <= i < |s| ==> IsWhitespace(s[i]) by {
      forall i | |core| <= i < |s| ensures IsWhitespace(s[i]) {
        assert s[i] == trailer[i - |core|];
      }
    }
    assert Lead(s) == 0;
    assert |r| >= |core|;
    assert r != [] && r[|r| - 1] == s[|r| - 1];
    assert r == s[..|core|] == core;
  }

  /** Decimal value of a string of digits, most significant first. */
  function DigitsValue(s: string): nat
    requires AllDigits(s)
  {
    if s == [] then 0 else DigitsValue(s[..|s| - 1]) * 10 + (s[|s| - 1] as int - '0' as int)
  }

  function DigitChar(d: nat): (c: char)
    requires d < 10
    ensures IsDigit(c) && c as int - '0' as int == d
  {
    ('0' as int + d) as char
  }

  /** `${n}` for a non-negative integer: its decimal rendering without leading zeros. */
  function NatToString(n: nat): (r: string)
    ensures r != [] && AllDigits(r)
    ensures r[0] == '0' ==> n == 0
  {
    if n < 10 then [DigitChar(n)] else NatToString(n / 10) + [DigitChar(n % 10)]
  }

  /** Reading back the decimal rendering of a number gives the number. */
  lemma {:induction false} NatToStringRoundTrip(n: nat)
    ensures DigitsValue(NatToString(n)) == n
  {
    if n >= 10 {
      var s := NatToString(n);
      assert s[..|s| - 1] == NatToString(n / 10);
      NatToStringRoundTrip(n / 10);
    }
  }

  /** `${i}` for an integer. */
  function IntToString(i: int): string {
    if i < 0 then "-" + NatToString(-i) else NatToString(i)
  }

  /** A JavaScript number as `Number(text)` can produce it for the texts modelled here. */
  datatype Num = N(value: nat) | NaN

  /**
   * `Number(s)`: surrounding whitespace is ignored, an empty remainder is 0, a remainder of
   * decimal digits is its value, and anything else is modelled as NaN.
   */
  function ToNumber(s: string): (r: Num)
    ensures r.N? <==> AllDigits(Trim(s))
  {
    var t := Trim(s);
    if t == [] then N(0) else if AllDigits(t) then N(DigitsValue(t)) else NaN
  }

  /** `Number` inverts the decimal rendering used in template literals. */
  lemma ToNumberOfNatToString(n: nat)
    ensures ToNumber(NatToString(n)) == N(n)
  {
    var s := NatToString(n);
    assert !IsWhitespace(s[0]) && !IsWhitespace(s[|s| - 1]);
    TrimUnchanged(s);
    NatToStringRoundTrip(n);
  }
}
