/**
 The string operations of the panel: `trim`, `\d`, `\s`, decimal printing of
 integers, and `Number(text)` on decimal digits.
 */
module JsText {

  import opened Options

  /** JavaScript white space and line terminators: what `trim` removes and `\s` matches. */
  predicate IsSpace(c: char) {
    || '\t' <= c <= '\r'
    || c == ' '
    || c == '\U{A0}' || c == '\U{1680}'
    || '\U{2000}' <= c <= '\U{200A}'
    || c == '\U{2028}' || c == '\U{2029}' || c == '\U{202F}' || c == '\U{205F}'
    || c == '\U{3000}' || c == '\U{FEFF}'
  }

  function TrimStart(s: string): (t: string)
    ensures |t| <= |s|
  {
    if s != "" && IsSpace(s[0]) then TrimStart(s[1..]) else s
  }

  function TrimEnd(s: string): string {
    if s != "" && IsSpace(s[|s| - 1]) then TrimEnd(s[..|s| - 1]) else s
  }

  function Trim(s: string): string {
    TrimEnd(TrimStart(s))
  }

  lemma {:induction false} TrimStartCuts(s: string)
    ensures var t := TrimStart(s);
            && t == s[|s| - |t|..]
            && (forall i :: 0 <= i < |s| - |t| ==> IsSpace(s[i]))
            && (t != "" ==> !IsSpace(t[0]))
  {
    hide IsSpace;
    if s != "" && IsSpace(s[0]) {
      TrimStartCuts(s[1..]);
    }
  }

  lemma {:induction false} TrimEndCuts(s: string)
    ensures var t := TrimEnd(s);
            && t <= s
            && (forall i :: |t| <= i < |s| ==> IsSpace(s[i]))
            && (t != "" ==> !IsSpace(t[|t| - 1]))
  {
    hide IsSpace;
    if s != "" && IsSpace(s[|s| - 1]) {
      TrimEndCuts(s[..|s| - 1]);
    }
  }

  /** No white space at either end. */
  predicate IsTrimmed(s: string) {
    s != "" ==> !IsSpace(s[0]) && !IsSpace(s[|s| - 1])
  }

  lemma TrimTrims(s: string)
    ensures IsTrimmed(Trim(s))
    ensures IsTrimmed(s) ==> Trim(s) == s
    ensures Trim(s) == "" <==> forall c :: c in s ==> IsSpace(c)
  {
    hide IsSpace;
    var t := TrimStart(s);
    TrimStartCuts(s);
    TrimEndCuts(t);
    if t != "" {
      assert !IsSpace(t[0]) && t[0] in s;
      assert TrimEnd(t) != "";
    }
  }

  lemma TrimmedFixed(s: string)
    requires IsTrimmed(s)
    ensures Trim(s) == s
  {
    TrimTrims(s);
  }

  predicate IsDigit(c: char) {
    '0' <= c <= '9'
  }

  /** `/^\d+$/` */
  predicate AllDigits(s: string) {
    s != "" && forall i :: 0 <= i < |s| ==> IsDigit(s[i])
  }

  /** How many digits `s` starts with. */
  function DigitRun(s: string): (n: nat)
    ensures n <= |s|
    ensures forall i :: 0 <= i < n ==> IsDigit(s[i])
    ensures n < |s| ==> !IsDigit(s[n])
  {
    if s != "" && IsDigit(s[0]) then 1 + DigitRun(s[1..]) else 0
  }

  lemma {:induction false} DigitRunOf(digits: string, tail: string)
    requires forall c :: c in digits ==> IsDigit(c)
    requires tail == "" || !IsDigit(tail[0])
    ensures DigitRun(digits + tail) == |digits|
  {
    if digits == "" {
      assert digits + tail == tail;
    } else {
      assert digits[0] in digits;
      assert (digits + tail)[1..] == digits[1..] + tail;
      DigitRunOf(digits[1..], tail);
    }
  }

  function DigitValue(c: char): (d: nat)
    requires IsDigit(c)
    ensures d < 10
  {
    (c as int) - ('0' as int)
  }

  function DigitChar(d: nat): (c: char)
    requires d < 10
    ensures IsDigit(c) && DigitValue(c) == d
  {
    (('0' as int) + d) as char
  }

  /** The number a string of decimal digits denotes. */
  function DecimalValue(s: string): nat
    requires AllDigits(s)
  {
    var d := DigitValue(s[|s| - 1]);
    if |s| == 1 then d
    else assert AllDigits(s[..|s| - 1]); 10 * DecimalValue(s[..|s| - 1]) + d
  }

  /** The decimal text of a natural number, as a template literal prints it. */
  function Decimal(n: nat): (s: string)
    ensures AllDigits(s)
    ensures |s| > 1 ==> s[0] != '0'
    ensures |s| > 1 ==> n >= 10
  {
    if n < 10 then [DigitChar(n)] else Decimal(n / 10) + [DigitChar(n % 10)]
  }

  lemma {:induction false} DecimalRoundTrip(n: nat)
    ensures DecimalValue(Decimal(n)) == n
  {
    if n >= 10 {
      DecimalRoundTrip(n / 10);
      var s := Decimal(n);
      assert s[..|s| - 1] == Decimal(n / 10);
    }
  }

  /** Digits without a leading zero are the only decimal text of their value. */
  lemma {:induction false} DecimalUnique(s: string)
    requires AllDigits(s) && (|s| > 1 ==> s[0] != '0')
    ensures Decimal(DecimalValue(s)) == s
  {
    var d := DigitValue(s[|s| - 1]);
    assert DigitChar(d) == s[|s| - 1];
    if |s| > 1 {
      var front := s[..|s| - 1];
      assert AllDigits(front);
      DecimalUnique(front);
      var v := DecimalValue(front);
      assert (10 * v + d) / 10 == v && (10 * v + d) % 10 == d;
      assert s == front + [s[|s| - 1]];
    }
  }

  lemma DecimalInjective(m: nat, n: nat)
    requires Decimal(m) == Decimal(n)
    ensures m == n
  {
    DecimalRoundTrip(m);
    DecimalRoundTrip(n);
  }

  /** Largest integer JavaScript represents exactly with all its predecessors. */
  const MAX_SAFE_INTEGER: nat := 9007199254740991

  /**
   `Number(text)` when it is finite. Digit strings up to the largest safe
   integer are exact; every other text (signs, fractions, hexadecimal, blanks,
   longer digit strings, junk) is decided by the parameter `other`.
   */
  function NumberOf(other: string -> Option<real>, text: string): Option<real> {
    if AllDigits(text) && DecimalValue(text) <= MAX_SAFE_INTEGER then Some(DecimalValue(text) as real)
    else other(text)
  }

  function LowerChar(c: char): char {
    if 'A' <= c <= 'Z' then ((c as int) + 32) as char else c
  }

  /** `toLowerCase` on ASCII letters. */
  function ToLower(s: string): (t: string)
    ensures |t| == |s|
    ensures forall i :: 0 <= i < |s| ==> t[i] == LowerChar(s[i])
  {
    if s == "" then "" else [LowerChar(s[0])] + ToLower(s[1..])
  }

  /** Position of the first `c`, or the length. */
  function IndexOf(s: string, c: char): (n: nat)
    ensures n <= |s|
    ensures forall i :: 0 <= i < n ==> s[i] != c
    ensures n < |s| ==> s[n] == c
  {
    if s == "" || s[0] == c then 0 else 1 + IndexOf(s[1..], c)
  }

  lemma IndexOfAt(s: string, c: char, n: nat)
    requires n < |s| && s[n] == c && forall i :: 0 <= i < n ==> s[i] != c
    ensures IndexOf(s, c) == n
  {
  }

  // ----- splitting -----

  /** `s.split(separator)` for one-character separators. */
  function Split(separates: char -> bool, s: string): (parts: seq<string>)
    ensures |parts| >= 1
  {
    if s == "" then [""]
    else
      var rest := Split(separates, s[1..]);
      if separates(s[0]) then [""] + rest else [[s[0]] + rest[0]] + rest[1..]
  }

  ghost predicate Unbroken(separates: char -> bool, s: string) {
    forall c :: c in s ==> !separates(c)
  }

  lemma {:induction false} SplitUnbroken(separates: char -> bool, s: string)
    requires Unbroken(separates, s)
    ensures Split(separates, s) == [s]
  {
    if s != "" {
      assert s[0] in s;
      assert forall c :: c in s[1..] ==> c in s;
      SplitUnbroken(separates, s[1..]);
      assert s == [s[0]] + s[1..];
    }
  }

  lemma {:induction false} SplitFirst(separates: char -> bool, s: string, c: char, rest: string)
    requires Unbroken(separates, s) && separates(c)
    ensures Split(separates, s + [c] + rest) == [s] + Split(separates, rest)
  {
    var text := s + [c] + rest;
    if s == "" {
      assert text[1..] == rest;
    } else {
      assert s[0] in s;
      assert forall x :: x in s[1..] ==> x in s;
      SplitFirst(separates, s[1..], c, rest);
      assert text[1..] == s[1..] + [c] + rest;
      assert text[0] == s[0];
      assert s == [s[0]] + s[1..];
      assert ([s[1..]] + Split(separates, rest))[1..] == Split(separates, rest);
    }
  }

  function Join(parts: seq<string>, c: char): string
    requires parts != []
  {
    if |parts| == 1 then parts[0] else parts[0] + [c] + Join(parts[1..], c)
  }

  lemma {:induction false} SplitJoined(separates: char -> bool, c: char, parts: seq<string>)
    requires separates(c) && parts != [] && forall i :: 0 <= i < |parts| ==> Unbroken(separates, parts[i])
    ensures Split(separates, Join(parts, c)) == parts
  {
    if |parts| == 1 {
      SplitUnbroken(separates, parts[0]);
    } else {
      SplitJoined(separates, c, parts[1..]);
      SplitFirst(separates, parts[0], c, Join(parts[1..], c));
      assert parts == [parts[0]] + parts[1..];
    }
  }

  lemma {:induction false} JoinSplit(s: string, c: char)
    ensures Join(Split((x: char) => x == c, s), c) == s
  {
    if s != "" {
      JoinSplit(s[1..], c);
      var rest := Split((x: char) => x == c, s[1..]);
      var parts := Split((x: char) => x == c, s);
      if s[0] == c {
        assert parts[1..] == rest;
        assert s == "" + [c] + s[1..];
      } else if |rest| > 1 {
        assert parts[1..] == rest[1..];
        assert s == [s[0]] + s[1..];
      } else {
        assert s == [s[0]] + s[1..];
      }
    }
  }
}
