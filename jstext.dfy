/**
 * The JavaScript string operations the source relies on, stated over Dafny
 * strings: `trim`, `split` on one character, `join`, `length` in UTF-16 code
 * units, `parseInt` with no radix, and number-to-string for integers.
 */
module JsText {
  import opened Wrappers

  /** LineTerminator of ECMAScript: LF, CR, LINE SEPARATOR, PARAGRAPH SEPARATOR. */
  predicate IsLineTerminator(c: char) {
    c == '\n' || c == '\r' || c == '\U{2028}' || c == '\U{2029}'
  }

  /**
   * WhiteSpace or LineTerminator of ECMAScript: the characters that `trim`
   * removes, that `parseInt` skips, and that the regular-expression class
   * `\s` matches. The WhiteSpace part is TAB, VT, FF, ZWNBSP and the
   * space separators (category Zs) of Unicode; with LF and CR, TAB to CR
   * form one run of code points.
   */
  predicate IsWhitespace(c: char) {
    if c <= ' ' then ('\t' <= c <= '\r') || c == ' '
    else
      || c == '\U{00A0}' || c == '\U{1680}' || ('\U{2000}' <= c <= '\U{200A}')
      || c == '\U{2028}' || c == '\U{2029}' || c == '\U{202F}' || c == '\U{205F}'
      || c == '\U{3000}' || c == '\U{FEFF}'
  }

  predicate AllWhitespace(s: string) {
    forall i :: 0 <= i < |s| ==> IsWhitespace(s[i])
  }

  /** A string with no whitespace at either end. */
  predicate IsTrimmed(s: string) {
    s == [] || (!IsWhitespace(s[0]) && !IsWhitespace(s[|s| - 1]))
  }

  /** The end of the whitespace run that starts at `k`: what `\s*` consumes there. */
  function SkipWhitespace(s: string, k: nat): (e: nat)
    requires k <= |s|
    ensures k <= e <= |s|
    ensures forall i :: k <= i < e ==> IsWhitespace(s[i])
    ensures e == |s| || !IsWhitespace(s[e])
    decreases |s| - k
  {
    if k < |s| && IsWhitespace(s[k]) then SkipWhitespace(s, k + 1) else k
  }

  /** The start of the whitespace run that ends at `k`, going no further back than `lo`. */
  function SkipWhitespaceBack(s: string, lo: nat, k: nat): (b: nat)
    requires lo <= k <= |s|
    ensures lo <= b <= k
    ensures forall i :: b <= i < k ==> IsWhitespace(s[i])
    ensures b == lo || !IsWhitespace(s[b - 1])
    decreases k
  {
    if lo < k && IsWhitespace(s[k - 1]) then SkipWhitespaceBack(s, lo, k - 1) else k
  }

  /** `\s*` from `k` stops at `e` exactly when whitespace fills `k..e` and `e` ends the run. */
  lemma {:induction false} SkipWhitespaceIs(s: string, k: nat, e: nat)
    requires k <= e <= |s|
    requires forall i :: k <= i < e ==> IsWhitespace(s[i])
    requires e == |s| || !IsWhitespace(s[e])
    ensures SkipWhitespace(s, k) == e
    decreases e - k
  {
    if k < e {
      SkipWhitespaceIs(s, k + 1, e);
    }
  }

  /** Going back from `k`, `\s*` stops at `b` exactly when whitespace fills `b..k` and `b` starts the run. */
  lemma {:induction false} SkipWhitespaceBackIs(s: string, lo: nat, k: nat, b: nat)
    requires lo <= b <= k <= |s|
    requires forall i :: b <= i < k ==> IsWhitespace(s[i])
    requires b == lo || !IsWhitespace(s[b - 1])
    ensures SkipWhitespaceBack(s, lo, k) == b
    decreases k - b
  {
    if b < k {
      SkipWhitespaceBackIs(s, lo, k - 1, b);
    }
  }

  /** Where `Trim(s)` starts in `s`: the length of the leading whitespace. */
  function TrimOffset(s: string): (i: nat)
    ensures i <= |s|
  {
    SkipWhitespace(s, 0)
  }

  /**
   * `s.trim()`: `s` without its leading and its trailing whitespace. What is
   * left is no longer than `s` and has no whitespace at either end.
   */
  function Trim(s: string): (r: string)
    ensures |r| <= |s|
    ensures IsTrimmed(r)
  {
    var o := TrimOffset(s);
    var e := SkipWhitespaceBack(s, o, |s|);
    assert o < e ==> s[o..e][0] == s[o] && s[o..e][e - o - 1] == s[e - 1];
    s[o..e]
  }

  /** `trim` drops the whitespace at both ends and nothing else. */
  lemma {:induction false} TrimDrops(s: string)
    ensures TrimOffset(s) + |Trim(s)| <= |s| && Trim(s) == s[TrimOffset(s)..TrimOffset(s) + |Trim(s)|]
    ensures forall i :: 0 <= i < TrimOffset(s) ==> IsWhitespace(s[i])
    ensures forall i :: TrimOffset(s) + |Trim(s)| <= i < |s| ==> IsWhitespace(s[i])
  {
  }

  /** Trimming keeps every character that is not whitespace. */
  lemma {:induction false} TrimKeeps(s: string, i: nat)
    requires i < |s| && !IsWhitespace(s[i])
    ensures TrimOffset(s) <= i < TrimOffset(s) + |Trim(s)|
  {
    TrimDrops(s);
  }

  /** Padding a trimmed string with whitespace on both sides and trimming gives it back. */
  lemma {:induction false} TrimPadded(a: string, c: string, b: string)
    requires AllWhitespace(a) && AllWhitespace(b) && IsTrimmed(c)
    ensures Trim(a + c + b) == c
  {
    var s := a + c + b;
    if c == [] {
      SkipWhitespaceIs(s, 0, |s|);
    } else {
      SkipWhitespaceIs(s, 0, |a|);
      SkipWhitespaceBackIs(s, |a|, |s|, |a| + |c|);
      assert s[|a|..|a| + |c|] == c;
    }
  }

  /** A string with no whitespace at either end trims to itself. */
  lemma {:induction false} TrimOfTrimmed(s: string)
    requires IsTrimmed(s)
    ensures Trim(s) == s
  {
    TrimPadded([], s, []);
    assert [] + s + [] == s;
  }

  /** Trimming is idempotent. */
  lemma {:induction false} TrimIdempotent(s: string)
    ensures Trim(Trim(s)) == Trim(s)
  {
    TrimPadded([], Trim(s), []);
    assert [] + Trim(s) + [] == Trim(s);
  }

  /** `s.split(sep)` for a one-character separator: always at least one piece, none containing `sep`. */
  function Split(s: string, sep: char): (r: seq<string>)
    ensures |r| >= 1
    ensures forall i :: 0 <= i < |r| ==> sep !in r[i]
  {
    if s == [] then [[]]
    else
      var rest := Split(s[1..], sep);
      if s[0] == sep then [[]] + rest
      else [[s[0]] + rest[0]] + rest[1..]
  }

  /** A split has more than one piece exactly when the separator occurs. */
  lemma {:induction false} SplitPieces(s: string, sep: char)
    ensures |Split(s, sep)| == 1 <==> sep !in s
  {
    if s != [] {
      SplitPieces(s[1..], sep);
      assert s == [s[0]] + s[1..];
    }
  }

  /** `parts.join(sep)`: the pieces with `sep` between neighbours; `[].join(sep)` is "". */
  function Join(parts: seq<string>, sep: string): (r: string)
    ensures parts == [] ==> r == []
    ensures parts != [] ==> parts[0] <= r
  {
    if parts == [] then []
    else if |parts| == 1 then parts[0]
    else parts[0] + sep + Join(parts[1..], sep)
  }

  /** Joining with no separator gives "" exactly when every piece is "". */
  lemma {:induction false} JoinWithoutSeparatorEmpty(parts: seq<string>)
    ensures Join(parts, "") == [] <==> forall i :: 0 <= i < |parts| ==> parts[i] == []
  {
    if |parts| > 1 {
      JoinWithoutSeparatorEmpty(parts[1..]);
      assert forall i :: 1 <= i < |parts| ==> parts[i] == parts[1..][i - 1];
    }
  }

  /** Joining with no separator works piece by piece. */
  lemma {:induction false} JoinWithoutSeparatorConcat(a: seq<string>, b: seq<string>)
    ensures Join(a + b, "") == Join(a, "") + Join(b, "")
  {
    if a == [] {
      assert a + b == b;
    } else if |a| == 1 {
      if b == [] {
        assert a + b == a;
      } else {
        assert (a + b)[1..] == b;
      }
    } else {
      assert (a + b)[1..] == a[1..] + b;
      JoinWithoutSeparatorConcat(a[1..], b);
    }
  }

  /** `${v}` in a template literal: a missing value renders as "undefined". */
  function Show(v: Option<string>): (r: string)
    ensures v.Some? ==> r == v.value
    ensures v.None? ==> r == "undefined"
  {
    match v
    case Some(s) => s
    case None => "undefined"
  }

  /** `parts.join(sep)` over an array that may hold `undefined`: such elements render as "". */
  function JoinOptional(parts: seq<Option<string>>, sep: string): (r: string)
    ensures (forall i :: 0 <= i < |parts| ==> parts[i].Some?) ==> r == Join(Values(parts), sep)
  {
    if parts == [] then []
    else if |parts| == 1 then parts[0].GetOr([])
    else parts[0].GetOr([]) + sep + JoinOptional(parts[1..], sep)
  }

  function Values(parts: seq<Option<string>>): (r: seq<string>)
    requires forall i :: 0 <= i < |parts| ==> parts[i].Some?
    ensures |r| == |parts| && forall i :: 0 <= i < |parts| ==> r[i] == parts[i].value
  {
    if parts == [] then [] else [parts[0].value] + Values(parts[1..])
  }

  /** `t` occurs in `s` starting at index `i`. */
  predicate OccursAt(s: string, t: string, i: int) {
    0 <= i <= |s| - |t| && s[i..i + |t|] == t
  }

  /** `s.includes(t)`: `t` occurs somewhere in `s`. */
  ghost predicate Includes(s: string, t: string) {
    exists i :: OccursAt(s, t, i)
  }

  /** What contains `a + t + b` contains `t`. */
  lemma {:induction false} IncludesInner(s: string, a: string, t: string, b: string)
    requires Includes(s, a + t + b)
    ensures Includes(s, t)
  {
    var w := a + t + b;
    var i :| OccursAt(s, w, i);
    var j := i + |a|;
    forall k | 0 <= k < |t| ensures s[j..j + |t|][k] == t[k] {
      assert s[j + k] == s[i..i + |w|][|a| + k];
      assert w[|a| + k] == t[k];
    }
    assert s[j..j + |t|] == t;
    assert OccursAt(s, t, j);
  }

  /** The pieces of a template literal, one after another. */
  function Concat(pieces: seq<string>): string {
    if pieces == [] then [] else pieces[0] + Concat(pieces[1..])
  }

  /** A template literal includes each of its pieces. */
  lemma {:induction false} ConcatIncludes(pieces: seq<string>, k: nat)
    requires k < |pieces|
    ensures Includes(Concat(pieces), pieces[k])
    decreases k
  {
    var s := Concat(pieces);
    var t := pieces[k];
    if k == 0 {
      assert OccursAt(s, t, 0);
    } else {
      var rest := Concat(pieces[1..]);
      ConcatIncludes(pieces[1..], k - 1);
      var i :| OccursAt(rest, t, i);
      assert s == pieces[0] + rest;
      assert s[|pieces[0]| + i..|pieces[0]| + i + |t|] == rest[i..i + |t|];
      assert OccursAt(s, t, |pieces[0]| + i);
    }
  }

  /** Joining the pieces of a split with the separator gives the string back. */
  lemma {:induction false} SplitJoin(s: string, sep: char)
    ensures Join(Split(s, sep), [sep]) == s
  {
    if s != [] {
      var rest := Split(s[1..], sep);
      SplitJoin(s[1..], sep);
      if s[0] != sep && |rest| > 1 {
        assert Join(rest, [sep]) == rest[0] + [sep] + Join(rest[1..], [sep]);
      }
    }
  }

  /** A string without the separator splits into itself alone. */
  lemma {:induction false} SplitWithoutSeparator(a: string, sep: char)
    requires sep !in a
    ensures Split(a, sep) == [a]
  {
    if a != [] {
      SplitWithoutSeparator(a[1..], sep);
      assert [a[0]] + a[1..] == a;
    }
  }

  /** Text up to the first separator becomes the first piece. */
  lemma {:induction false} SplitAtSeparator(a: string, sep: char, t: string)
    requires sep !in a
    ensures Split(a + [sep] + t, sep) == [a] + Split(t, sep)
  {
    if a == [] {
      assert a + [sep] + t == [sep] + t;
      assert ([sep] + t)[1..] == t;
    } else {
      assert (a + [sep] + t)[1..] == a[1..] + [sep] + t;
      SplitAtSeparator(a[1..], sep, t);
      assert [a[0]] + a[1..] == a;
    }
  }

  /** Splitting a join of separator-free pieces gives the pieces back. */
  lemma {:induction false} JoinSplit(parts: seq<string>, sep: char)
    requires |parts| >= 1
    requires forall i :: 0 <= i < |parts| ==> sep !in parts[i]
    ensures Split(Join(parts, [sep]), sep) == parts
  {
    if |parts| == 1 {
      SplitWithoutSeparator(parts[0], sep);
    } else {
      JoinSplit(parts[1..], sep);
      SplitAtSeparator(parts[0], sep, Join(parts[1..], [sep]));
      assert [parts[0]] + parts[1..] == parts;
    }
  }

  /** `s.length`: UTF-16 code units; a character beyond the Basic Multilingual Plane takes two. */
  function Utf16Length(s: string): (n: nat)
    ensures |s| <= n <= 2 * |s|
  {
    if s == [] then 0
    else (if s[0] as int > 0xFFFF then 2 else 1) + Utf16Length(s[1..])
  }

  /** UTF-16 length adds up over concatenation. */
  lemma {:induction false} Utf16LengthConcat(s: string, t: string)
    ensures Utf16Length(s + t) == Utf16Length(s) + Utf16Length(t)
  {
    if s == [] {
      assert s + t == t;
    } else {
      assert (s + t)[1..] == s[1..] + t;
      Utf16LengthConcat(s[1..], t);
    }
  }

  /** The digit value of `c` in base `radix` (10 or 16), or -1 when `c` is not such a digit. */
  function DigitValue(c: char, radix: nat): (d: int)
    ensures -1 <= d < (if radix == 16 then 16 else 10)
  {
    if '0' <= c <= '9' then (if c as int - '0' as int < radix || radix != 16 then c as int - '0' as int else -1)
    else if radix == 16 && 'a' <= c <= 'f' then c as int - 'a' as int + 10
    else if radix == 16 && 'A' <= c <= 'F' then c as int - 'A' as int + 10
    else -1
  }

  /** The first index at or after `k` that is not a digit in base `radix`. */
  function DigitEnd(s: string, k: nat, radix: nat): (e: nat)
    requires k <= |s|
    ensures k <= e <= |s|
    ensures forall i :: k <= i < e ==> DigitValue(s[i], radix) >= 0
    ensures e == |s| || DigitValue(s[e], radix) < 0
    decreases |s| - k
  {
    if k < |s| && DigitValue(s[k], radix) >= 0 then DigitEnd(s, k + 1, radix) else k
  }

  /** The digit run from `k` ends at `e` exactly when digits fill `k..e` and `e` is not one. */
  lemma {:induction false} DigitEndIs(s: string, k: nat, e: nat, radix: nat)
    requires k <= e <= |s|
    requires forall i :: k <= i < e ==> DigitValue(s[i], radix) >= 0
    requires e == |s| || DigitValue(s[e], radix) < 0
    ensures DigitEnd(s, k, radix) == e
    decreases e - k
  {
    if k < e {
      DigitEndIs(s, k + 1, e, radix);
    }
  }

  /** The value of a string of digits in base `radix`, most significant first. */
  function DigitsValue(s: string, radix: nat): (v: nat)
    requires forall i :: 0 <= i < |s| ==> DigitValue(s[i], radix) >= 0
  {
    if s == [] then 0
    else DigitsValue(s[..|s| - 1], radix) * radix + DigitValue(s[|s| - 1], radix)
  }

  /**
   * `parseInt(s)` with no radix: skip leading whitespace, take one optional
   * sign, then read the digits that follow. `None` is NaN (no digit at all).
   */
  function ParseInt(s: string): (r: Option<int>)
    ensures AllWhitespace(s) ==> r.None?
    ensures r.Some? && r.value < 0 ==> '-' in s
  {
    var p := SkipWhitespace(s, 0);
    if p < |s| && s[p] == '-' then
      match Magnitude(s, p + 1)
      case None => None
      case Some(n) => Some(-n)
    else if p < |s| && s[p] == '+' then Magnitude(s, p + 1)
    else Magnitude(s, p)
  }

  /**
   * The unsigned part of `parseInt` from `q` on: hexadecimal after a `0x`/`0X`
   * prefix and decimal otherwise, up to the first non-digit; `None` when no
   * digit follows.
   */
  function Magnitude(s: string, q: nat): (r: Option<int>)
    requires q <= |s|
    ensures r.Some? ==> r.value >= 0 && q < |s|
  {
    var hex := q + 2 <= |s| && s[q] == '0' && (s[q + 1] == 'x' || s[q + 1] == 'X');
    var radix := if hex then 16 else 10;
    var d := if hex then q + 2 else q;
    var e := DigitEnd(s, d, radix);
    if e == d then None else Some(DigitsValue(s[d..e], radix))
  }

  /** Decimal digits to the end of `s`, not starting with `0x`, are read whole. */
  lemma {:induction false} MagnitudeOfDigits(s: string, q: nat)
    requires q < |s| && forall k :: q <= k < |s| ==> DigitValue(s[k], 10) >= 0
    requires q + 1 < |s| ==> s[q] != '0'
    ensures Magnitude(s, q) == Some(DigitsValue(s[q..], 10))
  {
    DigitEndIs(s, q, |s|, 10);
    assert s[q..|s|] == s[q..];
  }

  /** The decimal digits of `n`, most significant first, with no leading zero. */
  function NatToString(n: nat): (s: string)
    ensures |s| >= 1
    ensures forall i :: 0 <= i < |s| ==> '0' <= s[i] <= '9'
    ensures |s| > 1 ==> s[0] != '0'
  {
    if n < 10 then ['0' + n as char]
    else NatToString(n / 10) + ['0' + (n % 10) as char]
  }

  /** `${n}` for an integer below 10^21 (larger ones JavaScript writes with an exponent). */
  function IntToString(n: int): (r: string)
    ensures ParseInt(r) == Some(n)
  {
    if n < 0 then
      ParseIntOfNegated(-n);
      "-" + NatToString(-n)
    else
      ParseIntOfNatToString(n);
      NatToString(n)
  }

  lemma {:induction false} DigitsOfNatToString(n: nat)
    ensures DigitsValue(NatToString(n), 10) == n
  {
    var s := NatToString(n);
    if n >= 10 {
      DigitsOfNatToString(n / 10);
      assert s[..|s| - 1] == NatToString(n / 10);
    }
  }

  /** `parseInt` reads back the decimal rendering of any non-negative integer. */
  lemma {:induction false} ParseIntOfNatToString(n: nat)
    ensures ParseInt(NatToString(n)) == Some(n)
  {
    var s := NatToString(n);
    assert !IsWhitespace(s[0]) && s[0] != '-' && s[0] != '+';
    SkipWhitespaceIs(s, 0, 0);
    MagnitudeOfDigits(s, 0);
    assert s[0..] == s;
    DigitsOfNatToString(n);
  }

  /** `parseInt` of a minus sign followed by a printed natural number gives the negated number. */
  lemma {:induction false} ParseIntOfNegated(m: nat)
    ensures ParseInt("-" + NatToString(m)) == Some(-(m as int))
  {
    var t := NatToString(m);
    MinusSign(t);
    MagnitudeAfterMinus(t);
    DigitsOfNatToString(m);
  }

  /** A leading minus sign before a digit: `parseInt` negates what follows it. */
  lemma {:induction false} MinusSign(t: string)
    requires |t| >= 1 && forall k :: 0 <= k < |t| ==> '0' <= t[k] <= '9'
    ensures ParseInt("-" + t) == match Magnitude("-" + t, 1) case None => None case Some(n) => Some(-n)
  {
    var s := "-" + t;
    assert !IsWhitespace(s[0]);
    SkipWhitespaceIs(s, 0, 0);
  }

  /** After the minus sign, the digits of a printed number are read whole. */
  lemma {:induction false} MagnitudeAfterMinus(t: string)
    requires |t| >= 1 && forall k :: 0 <= k < |t| ==> DigitValue(t[k], 10) >= 0
    requires |t| > 1 ==> t[0] != '0'
    ensures Magnitude("-" + t, 1) == Some(DigitsValue(t, 10))
  {
    var s := "-" + t;
    forall k | 1 <= k < |s| ensures DigitValue(s[k], 10) >= 0 {
      assert s[k] == t[k - 1];
    }
    MagnitudeOfDigits(s, 1);
    assert s[1..] == t;
  }
}
