/**
 * The JavaScript string operations the app relies on, at ASCII level:
 * decimal printing of integers (template literals), `parseInt(s, 10)`,
 * `split`/`join` on one separator character, `trim`, `toLowerCase` and `includes`.
 */
module Strings {
  import opened Wrappers

  // ---------------------------------------------------------------------------
  // Decimal digits, printing and parsing

  predicate IsDigit(c: char) {
    '0' <= c <= '9'
  }

  predicate AllDigits(s: string) {
    forall i :: 0 <= i < |s| ==> IsDigit(s[i])
  }

  function DigitChar(d: nat): (c: char)
    requires d < 10
    ensures IsDigit(c) && c as int - '0' as int == d
  {
    ('0' as int + d) as char
  }

  function DigitValue(c: char): (d: nat)
    requires IsDigit(c)
    ensures d < 10 && DigitChar(d) == c
  {
    c as int - '0' as int
  }

  /** How `${n}` prints a non-negative integer: decimal, no leading zeros. */
  function NatToString(n: nat): (s: string)
    ensures |s| >= 1 && AllDigits(s)
    ensures (s[0] == '0') <==> n == 0
    decreases n
  {
    if n < 10 then [DigitChar(n)] else NatToString(n / 10) + [DigitChar(n % 10)]
  }

  /** How `${i}` prints any integer: a minus sign in front of a negative one. */
  function IntToString(i: int): (s: string)
    ensures |s| >= 1
    ensures i >= 0 ==> AllDigits(s) && '-' !in s
    ensures i < 0 ==> s[0] == '-' && '-' !in s[1..]
  {
    if i < 0 then "-" + NatToString(-i) else NatToString(i)
  }

  /** The number a string of decimal digits denotes (most significant digit first). */
  function DigitsValue(s: string): nat
    requires AllDigits(s)
  {
    if s == [] then 0 else DigitsValue(s[..|s| - 1]) * 10 + DigitValue(s[|s| - 1])
  }

  lemma {:induction false} DigitsValueOfNatToString(n: nat)
    ensures DigitsValue(NatToString(n)) == n
    decreases n
  {
    if n >= 10 {
      var s := NatToString(n);
      assert s[..|s| - 1] == NatToString(n / 10);
      DigitsValueOfNatToString(n / 10);
    }
  }

  /** Printing is injective on non-negative integers. */
  lemma NatToStringInjective(m: nat, n: nat)
    requires NatToString(m) == NatToString(n)
    ensures m == n
  {
    DigitsValueOfNatToString(m);
    DigitsValueOfNatToString(n);
  }

  /** The longest prefix of `s` made of decimal digits. */
  function LeadingDigits(s: string): (d: string)
    ensures d <= s && AllDigits(d)
    ensures |d| < |s| ==> !IsDigit(s[|d|])
  {
    if s != [] && IsDigit(s[0]) then [s[0]] + LeadingDigits(s[1..]) else []
  }

  predicate IsWhitespace(c: char) {
    c == ' ' || c == '\t' || c == '\n' || c == '\r' || c == '\U{B}' || c == '\U{C}'
  }

  function TrimStart(s: string): (r: string)
    ensures |r| <= |s| && r == s[|s| - |r|..]
    ensures r == [] || !IsWhitespace(r[0])
    ensures forall i :: 0 <= i < |s| - |r| ==> IsWhitespace(s[i])
  {
    if s != [] && IsWhitespace(s[0]) then
      var r := TrimStart(s[1..]);
      assert forall i :: 1 <= i < |s| - |r| ==> s[i] == s[1..][i - 1];
      r
    else s
  }

  function TrimEnd(s: string): (r: string)
    ensures |r| <= |s| && r == s[..|r|]
    ensures r == [] || !IsWhitespace(r[|r| - 1])
    ensures forall i :: |r| <= i < |s| ==> IsWhitespace(s[i])
  {
    if s != [] && IsWhitespace(s[|s| - 1]) then
      var r := TrimEnd(s[..|s| - 1]);
      assert forall i :: |r| <= i < |s| - 1 ==> s[i] == s[..|s| - 1][i];
      r
    else s
  }

  /** `r` is a contiguous piece of `s`. */
  predicate IsSlice(r: string, s: string) {
    exists i, j :: 0 <= i <= j <= |s| && r == s[i..j]
  }

  /** A piece of a piece of `s` is a piece of `s`. */
  lemma SliceOfSlice(r: string, m: string, s: string)
    requires IsSlice(r, m) && IsSlice(m, s)
    ensures IsSlice(r, s)
  {
    var i, j :| 0 <= i <= j <= |m| && r == m[i..j];
    var k, l :| 0 <= k <= l <= |s| && m == s[k..l];
    SliceOfSliceAt(s, k, l, i, j);
  }

  lemma SliceOfSliceAt(s: string, k: int, l: int, i: int, j: int)
    requires 0 <= k <= l <= |s| && 0 <= i <= j <= l - k
    ensures s[k..l][i..j] == s[k + i..k + j]
  {
    assert forall n :: 0 <= n < j - i ==> s[k..l][i..j][n] == s[k + i + n];
  }

  /**
   * `s.trim()`: drops leading and trailing whitespace. The result is the piece
   * of `s` starting after its leading whitespace; everything cut off on either
   * side is whitespace.
   */
  function Trim(s: string): (r: string)
    ensures |r| <= |s|
    ensures r == [] || (!IsWhitespace(r[0]) && !IsWhitespace(r[|r| - 1]))
    ensures var front := |s| - |TrimStart(s)|;
            && front + |r| <= |s|
            && (forall i :: 0 <= i < |r| ==> r[i] == s[front + i])
            && (forall i :: 0 <= i < front ==> IsWhitespace(s[i]))
            && (forall i :: front + |r| <= i < |s| ==> IsWhitespace(s[i]))
  {
    TrimPieces(s);
    TrimEnd(TrimStart(s))
  }

  /** What `TrimEnd(TrimStart(s))` keeps and drops, in terms of `s`. */
  lemma TrimPieces(s: string)
    ensures var front := |s| - |TrimStart(s)|;
            var r := TrimEnd(TrimStart(s));
            && front + |r| <= |s|
            && (forall i :: 0 <= i < |r| ==> r[i] == s[front + i])
            && (forall i :: front + |r| <= i < |s| ==> IsWhitespace(s[i]))
  {
    var t := TrimStart(s);
    TrimPiecesOf(s, t, TrimEnd(t));
  }

  lemma TrimPiecesOf(s: string, t: string, r: string)
    requires |t| <= |s| && t == s[|s| - |t|..]
    requires |r| <= |t| && r == t[..|r|]
    requires forall i :: |r| <= i < |t| ==> IsWhitespace(t[i])
    ensures var front := |s| - |t|;
            && (forall i :: 0 <= i < |r| ==> r[i] == s[front + i])
            && (forall i :: front + |r| <= i < |s| ==> IsWhitespace(s[i]))
  {
    var front := |s| - |t|;
    forall i | 0 <= i < |r|
      ensures r[i] == s[front + i]
    {
      assert r[i] == t[i];
    }
    forall i | front + |r| <= i < |s|
      ensures IsWhitespace(s[i])
    {
      assert s[i] == t[i - front];
    }
  }

  /** The trimmed string is a contiguous piece of the original. */
  lemma TrimIsSlice(s: string)
    ensures IsSlice(Trim(s), s)
  {
    var i := |s| - |TrimStart(s)|;
    assert Trim(s) == s[i..i + |Trim(s)|];
  }

  /**
   * `parseInt(s, 10)`: skip leading whitespace, accept one sign, then the longest
   * run of decimal digits; `None` stands for NaN (no digit after the optional sign).
   */
  function ParseInt(s: string): (r: Option<int>)
    ensures AllDigits(s) && s != [] ==> r == Some(DigitsValue(s))
    ensures var t := TrimStart(s);
            t == [] || (!IsDigit(t[0]) && t[0] != '-' && t[0] != '+') ==> r.None?
    ensures var t := TrimStart(s);
            t != [] && IsDigit(t[0]) ==> r.Some? && r.value >= 0
  {
    var t := TrimStart(s);
    var digits := LeadingDigits(SkipSign(t));
    assert AllDigits(s) && s != [] ==> digits == s by {
      if AllDigits(s) && s != [] {
        ParseIntReadsDigits(s);
      }
    }
    assert t == [] || (!IsDigit(t[0]) && t[0] != '-' && t[0] != '+') ==> digits == [] by {
      if t == [] || (!IsDigit(t[0]) && t[0] != '-' && t[0] != '+') {
        ParseIntReadsNoDigits(t);
      }
    }
    assert t != [] && IsDigit(t[0]) ==> digits != [] by {
      if t != [] && IsDigit(t[0]) {
        ParseIntReadsSomeDigit(t);
      }
    }
    var magnitude: int := if digits == [] then 0 else DigitsValue(digits);
    if digits == [] then None
    else if |t| > 0 && t[0] == '-' then Some(-magnitude)
    else Some(magnitude)
  }

  function SkipSign(t: string): string {
    if |t| > 0 && (t[0] == '-' || t[0] == '+') then t[1..] else t
  }

  /** A string of digits is read whole: no whitespace to skip, no sign. */
  lemma ParseIntReadsDigits(s: string)
    requires AllDigits(s) && s != []
    ensures LeadingDigits(SkipSign(TrimStart(s))) == s
  {
    assert !IsWhitespace(s[0]);
    assert TrimStart(s) == s;
    assert SkipSign(s) == s;
    LeadingDigitsOfDigits(s);
  }

  /** After the whitespace, a character other than a digit or a sign leaves no digits to read. */
  lemma ParseIntReadsNoDigits(t: string)
    requires t == [] || (!IsDigit(t[0]) && t[0] != '-' && t[0] != '+')
    ensures LeadingDigits(SkipSign(t)) == []
  {
    assert SkipSign(t) == t;
  }

  /** After the whitespace, a digit is read. */
  lemma ParseIntReadsSomeDigit(t: string)
    requires t != [] && IsDigit(t[0])
    ensures LeadingDigits(SkipSign(t)) != []
  {
    assert SkipSign(t) == t;
  }

  lemma {:induction false} LeadingDigitsOfDigits(s: string)
    requires AllDigits(s)
    ensures LeadingDigits(s) == s
  {
    if s != [] {
      LeadingDigitsOfDigits(s[1..]);
    }
  }

  /** `parseInt` reads back what a template literal prints, negative numbers included. */
  lemma ParseIntOfIntToString(i: int)
    ensures ParseInt(IntToString(i)) == Some(i)
  {
    var s := IntToString(i);
    var n: nat := if i < 0 then -i else i;
    var digits := NatToString(n);
    assert !IsWhitespace(s[0]);
    assert TrimStart(s) == s;
    assert SkipSign(s) == digits by {
      if i >= 0 {
        assert IsDigit(s[0]);
      }
    }
    LeadingDigitsOfDigits(digits);
    DigitsValueOfNatToString(n);
  }

  // ---------------------------------------------------------------------------
  // split / join on a single separator character

  /** Number of occurrences of `c` in `s`. */
  function Occurrences(s: string, c: char): nat {
    if s == [] then 0 else (if s[0] == c then 1 else 0) + Occurrences(s[1..], c)
  }

  lemma {:induction false} NoOccurrences(s: string, c: char)
    ensures Occurrences(s, c) == 0 <==> c !in s
  {
    if s != [] {
      NoOccurrences(s[1..], c);
      assert s == [s[0]] + s[1..];
    }
  }

  /**
   * `s.split(sep)` for a one-character separator: one more part than there are
   * separators (so `"".split(sep)` is `[""]`), and no part contains the separator.
   */
  function Split(s: string, sep: char): (parts: seq<string>)
    ensures |parts| == Occurrences(s, sep) + 1
    ensures forall i :: 0 <= i < |parts| ==> sep !in parts[i]
  {
    if s == [] then [[]]
    else
      var rest := Split(s[1..], sep);
      if s[0] == sep then [[]] + rest
      else [[s[0]] + rest[0]] + rest[1..]
  }

  /** `parts.join(sep)`. */
  function Join(parts: seq<string>, sep: char): string {
    if |parts| == 0 then []
    else if |parts| == 1 then parts[0]
    else parts[0] + [sep] + Join(parts[1..], sep)
  }

  /** Joining the parts of a split gives the original string back. */
  lemma {:induction false} JoinSplit(s: string, sep: char)
    ensures Join(Split(s, sep), sep) == s
  {
    if s != [] {
      var rest := Split(s[1..], sep);
      JoinSplit(s[1..], sep);
      if s[0] == sep {
        assert Split(s, sep)[1..] == rest;
      } else if |rest| > 1 {
        assert Split(s, sep)[1..] == rest[1..];
      }
    }
  }

  /** A string without the separator splits into itself alone. */
  lemma {:induction false} SplitWithoutSeparator(s: string, sep: char)
    requires sep !in s
    ensures Split(s, sep) == [s]
  {
    if s != [] {
      assert s[0] != sep;
      assert sep !in s[1..] by {
        forall i | 0 <= i < |s[1..]| ensures s[1..][i] != sep {
          assert s[1..][i] == s[i + 1];
        }
      }
      SplitWithoutSeparator(s[1..], sep);
      assert [s[0]] + s[1..] == s;
    }
  }

  /** Splitting `a + sep + b` splits `a` and `b` separately. */
  lemma {:induction false} SplitAround(a: string, b: string, sep: char)
    ensures Split(a + [sep] + b, sep) == Split(a, sep) + Split(b, sep)
  {
    var s := a + [sep] + b;
    if a == [] {
      assert s[1..] == b;
    } else {
      assert s[1..] == a[1..] + [sep] + b;
      SplitAround(a[1..], b, sep);
    }
  }

  /** `s.lastIndexOf(c)`: the index of the last `c` in `s`, or -1. */
  function LastIndexOf(s: string, c: char): (k: int)
    ensures -1 <= k < |s|
    ensures k >= 0 ==> s[k] == c
    ensures forall i :: k < i < |s| ==> s[i] != c
  {
    if s == [] then -1
    else if s[|s| - 1] == c then |s| - 1
    else LastIndexOf(s[..|s| - 1], c)
  }

  lemma {:induction false} LastIndexOfSeparator(a: string, x: string, c: char)
    requires c !in x
    ensures LastIndexOf(a + [c] + x, c) == |a|
  {
    var s := a + [c] + x;
    if x != [] {
      assert s[|s| - 1] == x[|x| - 1];
      assert s[..|s| - 1] == a + [c] + x[..|x| - 1];
      LastIndexOfSeparator(a, x[..|x| - 1], c);
    }
  }

  /** A string splits uniquely at its last occurrence of a separator. */
  lemma SplitAtLastSeparator(a: string, x: string, b: string, y: string, c: char)
    requires c !in x && c !in y
    requires a + [c] + x == b + [c] + y
    ensures a == b && x == y
  {
    var s := a + [c] + x;
    LastIndexOfSeparator(a, x, c);
    LastIndexOfSeparator(b, y, c);
    assert a == s[..|a|] && b == s[..|b|];
    assert x == s[|a| + 1..] && y == s[|b| + 1..];
  }

  /** Joining `ps + [q]` puts one separator before `q`. */
  lemma {:induction false} JoinSnoc(ps: seq<string>, q: string, sep: char)
    requires |ps| >= 1
    ensures Join(ps + [q], sep) == Join(ps, sep) + [sep] + q
  {
    if |ps| > 1 {
      assert (ps + [q])[1..] == ps[1..] + [q];
      JoinSnoc(ps[1..], q, sep);
    }
  }

  /** A sequence of at least two elements is its front followed by its last two elements. */
  lemma LastTwo<T>(s: seq<T>)
    requires |s| >= 2
    ensures s == s[..|s| - 2] + [s[|s| - 2]] + [s[|s| - 1]]
  {
  }

  /** Joining some parts followed by two more: the two come last, each after a separator. */
  lemma JoinLastTwo(front: seq<string>, p: string, q: string, sep: char)
    requires |front| >= 1
    ensures Join(front + [p] + [q], sep) == Join(front, sep) + [sep] + p + [sep] + q
  {
    JoinSnoc(front + [p], q, sep);
    JoinSnoc(front, p, sep);
  }

  /** Three separator-free parts joined by `sep` split back into exactly those parts. */
  lemma SplitThree(a: string, b: string, c: string, sep: char)
    requires sep !in a && sep !in b && sep !in c
    ensures Split(a + [sep] + b + [sep] + c, sep) == [a, b, c]
  {
    SplitAround(a + [sep] + b, c, sep);
    SplitAround(a, b, sep);
    SplitWithoutSeparator(a, sep);
    SplitWithoutSeparator(b, sep);
    SplitWithoutSeparator(c, sep);
  }

  // ---------------------------------------------------------------------------
  // toLowerCase and includes

  function LowerChar(c: char): (d: char)
    ensures !('A' <= d <= 'Z')
    ensures 'A' <= c <= 'Z' ==> d as int == c as int + 32
    ensures !('A' <= c <= 'Z') ==> d == c
  {
    if 'A' <= c <= 'Z' then (c as int + 32) as char else c
  }

  /** `s.toLowerCase()` restricted to the ASCII letters. */
  function ToLower(s: string): (r: string)
    ensures |r| == |s|
    ensures forall i :: 0 <= i < |s| ==> r[i] == LowerChar(s[i])
  {
    if s == [] then [] else [LowerChar(s[0])] + ToLower(s[1..])
  }

  /** `s.includes(sub)`: `sub` occurs in `s` at some position. */
  predicate Contains(s: string, sub: string) {
    sub <= s || (s != [] && Contains(s[1..], sub))
  }

  /** `sub` occurs in `s` starting at index `i`. */
  predicate OccursAt(s: string, sub: string, i: int) {
    0 <= i <= |s| - |sub| && s[i..i + |sub|] == sub
  }

  lemma {:induction false} ContainsAt(s: string, sub: string)
    ensures Contains(s, sub) <==> exists i :: OccursAt(s, sub, i)
  {
    if s != [] {
      ContainsAt(s[1..], sub);
      if Contains(s, sub) {
        if sub <= s {
          assert OccursAt(s, sub, 0);
        } else {
          var i :| OccursAt(s[1..], sub, i);
          assert s[1..][i..i + |sub|] == s[i + 1..i + 1 + |sub|];
          assert OccursAt(s, sub, i + 1);
        }
      }
      if exists i :: OccursAt(s, sub, i) {
        var i :| OccursAt(s, sub, i);
        if i > 0 {
          assert s[1..][i - 1..i - 1 + |sub|] == s[i..i + |sub|];
          assert OccursAt(s[1..], sub, i - 1);
        } else {
          assert sub <= s;
        }
      }
    } else if sub == [] {
      assert OccursAt(s, sub, 0);
    }
  }

  /** Every string includes the empty string. */
  lemma ContainsEmpty(s: string)
    ensures Contains(s, "")
  {
  }
}
