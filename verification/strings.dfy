/**
 * The string operations the Python service and the userscript rely on:
 * Python's `str()` of None, booleans and integers, `int()` of a text,
 * `str.isnumeric()`, and `split` on a one-character separator (Python's
 * `str.split(c)` and JavaScript's `String.prototype.split(c)` agree on it).
 */
module Strings {
  import opened Wrappers

  predicate IsDigit(c: char) {
    '0' <= c <= '9'
  }

  predicate AllDigits(s: string) {
    forall i :: 0 <= i < |s| ==> IsDigit(s[i])
  }

  function DigitChar(d: nat): (c: char)
    requires d < 10
    ensures IsDigit(c)
  {
    ('0' as int + d) as char
  }

  function DigitValue(c: char): (d: nat)
    requires IsDigit(c)
    ensures d < 10
  {
    c as int - '0' as int
  }

  /** Decimal digits of `n`, as Python's `str()` writes a non-negative int. */
  function NatToString(n: nat): (s: string)
    ensures |s| >= 1 && AllDigits(s)
    decreases n
  {
    if n < 10 then [DigitChar(n)] else NatToString(n / 10) + [DigitChar(n % 10)]
  }

  /** The value of a string of decimal digits (the empty string reads as 0). */
  function ParseDigits(s: string): nat
    requires AllDigits(s)
    decreases |s|
  {
    if s == [] then 0 else ParseDigits(s[..|s| - 1]) * 10 + DigitValue(s[|s| - 1])
  }

  /** Reading back the digits of `n` gives `n`. */
  lemma {:induction false} ParseNatToString(n: nat)
    ensures ParseDigits(NatToString(n)) == n
    decreases n
  {
    if n >= 10 {
      var s := NatToString(n / 10);
      ParseNatToString(n / 10);
      assert (s + [DigitChar(n % 10)])[..|s|] == s;
    }
  }

  lemma NatToStringInjective(m: nat, n: nat)
    requires NatToString(m) == NatToString(n)
    ensures m == n
  {
    ParseNatToString(m);
    ParseNatToString(n);
  }

  /** Python's `str()` of an int: a minus sign for negatives, then the digits. */
  function ShowInt(n: int): (s: string)
    ensures |s| >= 1
  {
    if n < 0 then "-" + NatToString(-n) else NatToString(n)
  }

  /**
   * Python's `int()` of a text: an optional sign followed by decimal digits;
   * anything else is a ValueError (None here).
   */
  function PyInt(s: string): Option<int> {
    if |s| >= 2 && s[0] == '-' && AllDigits(s[1..]) then Some(-(ParseDigits(s[1..]) as int))
    else if |s| >= 2 && s[0] == '+' && AllDigits(s[1..]) then Some(ParseDigits(s[1..]))
    else if |s| >= 1 && AllDigits(s) then Some(ParseDigits(s))
    else None
  }

  /** `int(str(n)) == n`. */
  lemma PyIntShowInt(n: int)
    ensures PyInt(ShowInt(n)) == Some(n)
  {
    ParseNatToString(if n < 0 then -n else n);
    if n < 0 {
      assert ShowInt(n)[1..] == NatToString(-n);
    }
  }

  /** Python's `str.isnumeric()`, for ASCII text: non-empty and all digits. */
  predicate IsNumeric(s: string) {
    |s| > 0 && AllDigits(s)
  }

  /** `str(n)` is numeric exactly when `n` is not negative. */
  lemma IsNumericShowInt(n: int)
    ensures IsNumeric(ShowInt(n)) <==> n >= 0
  {
    if n < 0 {
      assert !IsDigit(ShowInt(n)[0]);
    }
  }

  /** Python's truthiness of an optional string: present and non-empty. */
  predicate Truthy(s: Option<string>) {
    s.Some? && s.value != ""
  }

  /** Python's `str()` (or an f-string field) of an optional string. */
  function ShowOptStr(s: Option<string>): string {
    if s.None? then "None" else s.value
  }

  /** Python's `str()` of an optional bool: `True`, `False` or `None`. */
  function ShowOptBool(b: Option<bool>): string {
    match b
    case None => "None"
    case Some(true) => "True"
    case Some(false) => "False"
  }

  /** Python's `str()` of an optional int. */
  function ShowOptInt(n: Option<int>): string {
    if n.None? then "None" else ShowInt(n.value)
  }

  /** The texts of two booleans (or None) never share a prefix unless they are equal. */
  lemma ShowOptBoolPrefix(a: Option<bool>, b: Option<bool>, x: string, y: string)
    requires ShowOptBool(a) + x == ShowOptBool(b) + y
    ensures a == b && x == y
  {
    assert (ShowOptBool(a) + x)[0] == ShowOptBool(a)[0];
    assert (ShowOptBool(b) + y)[0] == ShowOptBool(b)[0];
    if a == b {
      var k := |ShowOptBool(a)|;
      assert x == (ShowOptBool(a) + x)[k..];
      assert y == (ShowOptBool(b) + y)[k..];
    }
  }

  /** The number of leading decimal digits of `s`. */
  function DigitRunLength(s: string): nat
    decreases |s|
  {
    if s == [] || !IsDigit(s[0]) then 0 else 1 + DigitRunLength(s[1..])
  }

  lemma {:induction false} LeadingDigits(d: string, x: string)
    requires AllDigits(d)
    requires x == [] || !IsDigit(x[0])
    ensures DigitRunLength(d + x) == |d|
    decreases |d|
  {
    if d == [] {
      assert d + x == x;
    } else {
      assert (d + x)[1..] == d[1..] + x;
      LeadingDigits(d[1..], x);
    }
  }

  /** A run of digits followed by a non-digit (or nothing) ends at the same place in equal texts. */
  lemma DigitRunPrefix(d1: string, d2: string, x: string, y: string)
    requires AllDigits(d1) && AllDigits(d2)
    requires x == [] || !IsDigit(x[0])
    requires y == [] || !IsDigit(y[0])
    requires d1 + x == d2 + y
    ensures d1 == d2 && x == y
  {
    LeadingDigits(d1, x);
    LeadingDigits(d2, y);
    assert d1 == (d1 + x)[..|d1|];
    assert d2 == (d2 + y)[..|d2|];
    assert x == (d1 + x)[|d1|..];
    assert y == (d2 + y)[|d2|..];
  }

  /**
   * The text of an optional int, followed by something that does not start
   * with a digit, determines the int: equal texts mean equal values.
   */
  lemma ShowOptIntPrefix(a: Option<int>, b: Option<int>, x: string, y: string)
    requires x == [] || !IsDigit(x[0])
    requires y == [] || !IsDigit(y[0])
    requires ShowOptInt(a) + x == ShowOptInt(b) + y
    ensures a == b && x == y
  {
    var sa, sb := ShowOptInt(a), ShowOptInt(b);
    assert (sa + x)[0] == sa[0] && (sb + y)[0] == sb[0];
    if a.None? && b.None? {
      assert x == (sa + x)[4..] && y == (sb + y)[4..];
    } else if a.Some? && b.Some? {
      ShowIntPrefix(a.value, b.value, x, y);
    } else {
      assert false;
    }
  }

  lemma ShowIntPrefix(m: int, n: int, x: string, y: string)
    requires x == [] || !IsDigit(x[0])
    requires y == [] || !IsDigit(y[0])
    requires ShowInt(m) + x == ShowInt(n) + y
    ensures m == n && x == y
  {
    DropFirst(ShowInt(m), x);
    DropFirst(ShowInt(n), y);
    if m < 0 && n < 0 {
      NegativePrefix(m, n, x, y);
    } else if m >= 0 && n >= 0 {
      DigitRunPrefix(ShowInt(m), ShowInt(n), x, y);
      NatToStringInjective(m, n);
    } else {
      assert false;
    }
  }

  lemma NegativePrefix(m: int, n: int, x: string, y: string)
    requires m < 0 && n < 0
    requires x == [] || !IsDigit(x[0])
    requires y == [] || !IsDigit(y[0])
    requires ShowInt(m) + x == ShowInt(n) + y
    ensures m == n && x == y
  {
    var da, db := NatToString(-m), NatToString(-n);
    assert ShowInt(m) == "-" + da && ShowInt(n) == "-" + db;
    AppendAssoc3("-", da, x);
    AppendAssoc3("-", db, y);
    CommonPrefix("-", da + x, db + y);
    DigitRunPrefix(da, db, x, y);
    NatToStringInjective(-m, -n);
  }

  /**
   * `s.split(sep)` for a one-character separator: the pieces between
   * separators, empty ones included; there is always at least one piece.
   */
  function Split(s: string, sep: char): (parts: seq<string>)
    ensures |parts| >= 1
    ensures forall i :: 0 <= i < |parts| ==> sep !in parts[i]
    ensures parts[0] <= s && (|parts[0]| == |s| || s[|parts[0]|] == sep)
    decreases |s|
  {
    if s == [] then [""]
    else
      var rest := Split(s[1..], sep);
      if s[0] == sep then [""] + rest
      else [[s[0]] + rest[0]] + rest[1..]
  }

  /** `sep.join(parts)`. */
  function Join(parts: seq<string>, sep: char): string
    requires |parts| >= 1
    decreases |parts|
  {
    if |parts| == 1 then parts[0] else parts[0] + [sep] + Join(parts[1..], sep)
  }

  /** Joining the pieces of a split gives the original text back. */
  lemma {:induction false} JoinSplit(s: string, sep: char)
    ensures Join(Split(s, sep), sep) == s
    decreases |s|
  {
    if s != [] {
      var rest := Split(s[1..], sep);
      JoinSplit(s[1..], sep);
      if s[0] == sep {
        assert Split(s, sep)[1..] == rest;
      } else {
        var parts := Split(s, sep);
        assert parts[1..] == rest[1..];
        if |rest| > 1 {
          assert rest[1..][1..] == rest[2..];
        }
      }
    }
  }

  /** A split cuts at a separator: the pieces before it, then the pieces after it. */
  lemma {:induction false} SplitAround(a: string, b: string, sep: char)
    ensures Split(a + [sep] + b, sep) == Split(a, sep) + Split(b, sep)
    decreases |a|
  {
    if a == [] {
      assert (a + [sep] + b)[1..] == b;
    } else {
      AppendAssoc3(a, [sep], b);
      DropFirst(a, [sep] + b);
      AppendAssoc3(a[1..], [sep], b);
      SplitAround(a[1..], b, sep);
    }
  }

  /** Dropping the first element of a concatenation with a non-empty front. */
  lemma DropFirst<T>(a: seq<T>, b: seq<T>)
    requires a != []
    ensures (a + b)[0] == a[0] && (a + b)[1..] == a[1..] + b
  {
  }

  /** The first piece of a split is the text before the first separator. */
  lemma {:induction false} FirstPiece(name: string, rest: string, sep: char)
    requires sep !in name && (rest == [] || rest[0] == sep)
    ensures Split(name + rest, sep)[0] == name
    decreases |name|
  {
    if name == [] {
      assert name + rest == rest;
    } else {
      DropFirst(name, rest);
      FirstPiece(name[1..], rest, sep);
      assert [name[0]] + name[1..] == name;
    }
  }

  /** Text without the separator is a single piece. */
  lemma {:induction false} SplitWithout(s: string, sep: char)
    requires sep !in s
    ensures Split(s, sep) == [s]
    decreases |s|
  {
    if s != [] {
      assert sep !in s[1..];
      SplitWithout(s[1..], sep);
      assert [s[0]] + s[1..] == s;
    }
  }

  /** Splitting joined pieces that hold no separator gives the pieces back. */
  lemma {:induction false} SplitJoin(parts: seq<string>, sep: char)
    requires |parts| >= 1
    requires forall i :: 0 <= i < |parts| ==> sep !in parts[i]
    ensures Split(Join(parts, sep), sep) == parts
    decreases |parts|
  {
    if |parts| == 1 {
      SplitWithout(parts[0], sep);
    } else {
      SplitJoin(parts[1..], sep);
      SplitAround(parts[0], Join(parts[1..], sep), sep);
      SplitWithout(parts[0], sep);
    }
  }

  lemma AppendAssoc3<T>(a: seq<T>, b: seq<T>, c: seq<T>)
    ensures a + b + c == a + (b + c)
  {
  }

  /** Texts that are equal after a common prefix are equal. */
  lemma CommonPrefix(a: string, x: string, y: string)
    requires a + x == a + y
    ensures x == y
  {
    assert x == (a + x)[|a|..];
    assert y == (a + y)[|a|..];
  }

  /** Texts that are equal before a common suffix are equal. */
  lemma CommonSuffix(x: string, y: string, c: string)
    requires x + c == y + c
    ensures x == y
  {
    assert |x| == |y|;
    assert x == (x + c)[..|x|];
    assert y == (y + c)[..|y|];
  }

  /** The pieces written one after another, as repeated `+=` builds them. */
  function Concat(ss: seq<string>): string
    decreases |ss|
  {
    if ss == [] then "" else Concat(ss[..|ss| - 1]) + ss[|ss| - 1]
  }

}
