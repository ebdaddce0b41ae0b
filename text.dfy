/**
 * String helpers with JavaScript's meaning: String.prototype.trim, split on a
 * separator and join, the decimal rendering of a non-negative integer inside a
 * template literal, and plain lexicographic order (the model of localeCompare).
 */
module Text {

  /** The characters trim() strips: ECMAScript WhiteSpace and LineTerminator. */
  predicate IsSpace(c: char) {
    || c == '\t' || c == '\n' || c == '\U{B}' || c == '\U{C}' || c == '\r' || c == ' '
    || c == '\U{A0}' || c == '\U{1680}' || ('\U{2000}' <= c <= '\U{200A}')
    || c == '\U{2028}' || c == '\U{2029}' || c == '\U{202F}' || c == '\U{205F}'
    || c == '\U{3000}' || c == '\U{FEFF}'
  }

  /** The characters a regular-expression `.` does not match. */
  predicate IsLineTerminator(c: char) {
    c == '\n' || c == '\r' || c == '\U{2028}' || c == '\U{2029}'
  }

  /** A string that trim() empties. */
  predicate Blank(s: string) {
    forall i :: 0 <= i < |s| ==> IsSpace(s[i])
  }

  function TrimStart(s: string): (r: string)
    ensures |r| <= |s| && r == s[|s| - |r|..]
    ensures r == [] || !IsSpace(r[0])
    ensures forall i :: 0 <= i < |s| - |r| ==> IsSpace(s[i])
    decreases |s|
  {
    if s != [] && IsSpace(s[0]) then TrimStart(s[1..]) else s
  }

  function TrimEnd(s: string): (r: string)
    ensures |r| <= |s| && r == s[..|r|]
    ensures r == [] || !IsSpace(r[|r| - 1])
    ensures forall i :: |r| <= i < |s| ==> IsSpace(s[i])
    decreases |s|
  {
    if s != [] && IsSpace(s[|s| - 1]) then TrimEnd(s[..|s| - 1]) else s
  }

  /** String.prototype.trim. */
  function Trim(s: string): (r: string)
    ensures r == [] <==> Blank(s)
    ensures r != [] ==> !IsSpace(r[0]) && !IsSpace(r[|r| - 1])
    ensures exists a, b :: 0 <= a <= b <= |s| && r == s[a..b] &&
                           (forall i :: 0 <= i < a ==> IsSpace(s[i])) && (forall i :: b <= i < |s| ==> IsSpace(s[i]))
  {
    var t := TrimStart(s);
    var r := TrimEnd(t);
    InnerSlice(s, t, r, |s| - |t|);
    r
  }

  /** Cutting white space off the end of s[a..] leaves s[a..a + |r|], with only white space after it in s. */
  lemma InnerSlice(s: string, t: string, r: string, a: nat)
    requires a <= |s| && t == s[a..] && |r| <= |t| && r == t[..|r|]
    requires forall i :: |r| <= i < |t| ==> IsSpace(t[i])
    ensures r == s[a..a + |r|]
    ensures forall i :: a + |r| <= i < |s| ==> IsSpace(s[i])
  {
    forall i | a + |r| <= i < |s| ensures IsSpace(s[i]) {
      assert s[i] == t[i - a];
    }
  }

  /** A string with no white space at either end is its own trim. */
  lemma TrimKeepsTrimmed(s: string)
    requires s == [] || (!IsSpace(s[0]) && !IsSpace(s[|s| - 1]))
    ensures Trim(s) == s
  {
  }

  /** String.prototype.split with a one-character separator. */
  function Split(s: string, sep: char): (parts: seq<string>)
    ensures |parts| >= 1
    ensures forall i :: 0 <= i < |parts| ==> sep !in parts[i]
    decreases |s|
  {
    if s == [] then [[]]
    else
      var rest := Split(s[1..], sep);
      if s[0] == sep then [[]] + rest else [[s[0]] + rest[0]] + rest[1..]
  }

  /** Array.prototype.join with a one-character separator. */
  function Join(parts: seq<string>, sep: char): string
    requires |parts| >= 1
    decreases |parts|
  {
    if |parts| == 1 then parts[0] else parts[0] + [sep] + Join(parts[1..], sep)
  }

  /** Joining the pieces of a split gives the original string back. */
  lemma {:induction false} JoinSplit(s: string, sep: char)
    ensures Join(Split(s, sep), sep) == s
    decreases |s|
  {
    if s != [] {
      var rest := Split(s[1..], sep);
      JoinSplit(s[1..], sep);
      if s[0] == sep {
        assert Split(s, sep)[1..] == rest;
        assert s == [s[0]] + s[1..];
      } else if |rest| == 1 {
        assert Split(s, sep) == [[s[0]] + rest[0]];
        assert s == [s[0]] + s[1..];
      } else {
        var parts := Split(s, sep);
        assert parts[1..] == rest[1..];
        calc {
          Join(parts, sep);
          ([s[0]] + rest[0]) + [sep] + Join(rest[1..], sep);
          [s[0]] + (rest[0] + [sep] + Join(rest[1..], sep));
          [s[0]] + Join(rest, sep);
          s;
        }
      }
    }
  }

  lemma {:induction false} SplitAfterPlainPrefix(x: string, y: string, sep: char)
    requires sep !in x
    ensures Split(x + y, sep) == [x + Split(y, sep)[0]] + Split(y, sep)[1..]
    decreases |x|
  {
    if x != [] {
      assert (x + y)[0] == x[0] && (x + y)[1..] == x[1..] + y;
      SplitAfterPlainPrefix(x[1..], y, sep);
      var rest := Split(x[1..] + y, sep);
      var sy := Split(y, sep);
      assert Split(x + y, sep) == [[x[0]] + rest[0]] + rest[1..];
      assert rest[0] == x[1..] + sy[0] && rest[1..] == sy[1..];
      assert [x[0]] + (x[1..] + sy[0]) == x + sy[0];
    } else {
      var sy := Split(y, sep);
      assert x + y == y && sy == [sy[0]] + sy[1..] && x + sy[0] == sy[0];
    }
  }

  /** Splitting a join of separator-free pieces gives the pieces back. */
  lemma {:induction false} SplitJoin(parts: seq<string>, sep: char)
    requires |parts| >= 1
    requires forall i :: 0 <= i < |parts| ==> sep !in parts[i]
    ensures Split(Join(parts, sep), sep) == parts
    decreases |parts|
  {
    if |parts| == 1 {
      SplitAfterPlainPrefix(parts[0], [], sep);
      assert parts[0] + [] == parts[0];
    } else {
      var tail := Join(parts[1..], sep);
      SplitJoin(parts[1..], sep);
      assert Join(parts, sep) == parts[0] + ([sep] + tail);
      SplitAfterPlainPrefix(parts[0], [sep] + tail, sep);
      assert ([sep] + tail)[1..] == tail && ([sep] + tail)[0] == sep;
      var st := Split([sep] + tail, sep);
      assert st == [[]] + Split(tail, sep);
      assert st[0] == [] && st[1..] == parts[1..];
      assert parts[0] + st[0] == parts[0];
      assert parts == [parts[0]] + parts[1..];
    }
  }

  /** Lexicographic order on character codes (the model of localeCompare). */
  predicate StrLess(a: string, b: string)
    decreases |a|
  {
    if a == [] then b != []
    else if b == [] then false
    else if a[0] != b[0] then a[0] < b[0]
    else StrLess(a[1..], b[1..])
  }

  lemma {:induction false} StrLessIrreflexive(a: string)
    ensures !StrLess(a, a)
    decreases |a|
  {
    if a != [] {
      StrLessIrreflexive(a[1..]);
    }
  }

  lemma {:induction false} StrLessAsymmetric(a: string, b: string)
    ensures StrLess(a, b) ==> !StrLess(b, a)
    decreases |a|
  {
    if a != [] && b != [] && a[0] == b[0] {
      StrLessAsymmetric(a[1..], b[1..]);
    }
  }

  lemma {:induction false} StrLessTotal(a: string, b: string)
    ensures a == b || StrLess(a, b) || StrLess(b, a)
    decreases |a|
  {
    if a != [] && b != [] && a[0] == b[0] {
      StrLessTotal(a[1..], b[1..]);
      if a[1..] == b[1..] {
        assert a == [a[0]] + a[1..] && b == [b[0]] + b[1..];
      }
    }
  }

  lemma {:induction false} StrLessTransitive(a: string, b: string, c: string)
    requires StrLess(a, b) && StrLess(b, c)
    ensures StrLess(a, c)
    decreases |a|
  {
    if a != [] && a[0] == b[0] && b[0] == c[0] {
      StrLessTransitive(a[1..], b[1..], c[1..]);
    }
  }

  /** a.localeCompare(b), approximated by code-point order: negative, zero or positive. */
  function StrCompare(a: string, b: string): (r: int)
    ensures r == -1 || r == 0 || r == 1
    ensures r == 0 <==> a == b
    ensures r < 0 <==> StrLess(a, b)
    ensures r > 0 <==> StrLess(b, a)
  {
    StrLessIrreflexive(a);
    StrLessAsymmetric(a, b);
    StrLessTotal(a, b);
    if a == b then 0 else if StrLess(a, b) then -1 else 1
  }

  predicate IsDigit(c: char) {
    '0' <= c <= '9'
  }

  predicate AllDigits(s: string) {
    forall i :: 0 <= i < |s| ==> IsDigit(s[i])
  }

  function DigitChar(d: nat): (c: char)
    requires d < 10
    ensures IsDigit(c) && c as int - '0' as int == d
  {
    (d + '0' as int) as char
  }

  /** The decimal text a template literal produces for a non-negative integer. */
  function Decimal(n: nat): (s: string)
    ensures |s| >= 1 && AllDigits(s)
    decreases n
  {
    if n < 10 then [DigitChar(n)] else Decimal(n / 10) + [DigitChar(n % 10)]
  }

  /** Reads a string of decimal digits back as a number. */
  function ParseDecimal(s: string): nat
    requires AllDigits(s)
    decreases |s|
  {
    if s == [] then 0
    else ParseDecimal(s[..|s| - 1]) * 10 + (s[|s| - 1] as int - '0' as int)
  }

  lemma {:induction false} ParseDecimalOfDecimal(n: nat)
    ensures ParseDecimal(Decimal(n)) == n
    decreases n
  {
    if n >= 10 {
      var s := Decimal(n);
      assert s[..|s| - 1] == Decimal(n / 10);
      ParseDecimalOfDecimal(n / 10);
    }
  }

  /** Different amounts never render to the same text. */
  lemma DecimalInjective(m: nat, n: nat)
    ensures Decimal(m) == Decimal(n) ==> m == n
  {
    ParseDecimalOfDecimal(m);
    ParseDecimalOfDecimal(n);
  }
}
