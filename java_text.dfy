/**
 * The small part of the Java platform that the harness code relies on:
 * null as Option, exceptions as Result, and the String and Integer
 * operations the core calls (toLowerCase, equalsIgnoreCase, startsWith,
 * replace, lastIndexOf, Integer.parseInt, String.valueOf).
 * Characters are modelled as ASCII: case mapping touches 'A'..'Z' only and
 * only '0'..'9' are digits.
 */
module JavaText {

  /** A Java reference that may be null. */
  datatype Option<T> = None | Some(value: T) {
    function GetOr(default: T): T {
      match this
      case Some(v) => v
      case None => default
    }
  }

  /** A computation that returns normally or throws. */
  datatype Result<T, E> = Ok(value: T) | Err(error: E)

  /** The exceptions that can escape the modelled code paths. */
  datatype Exception =
    | NumberFormat(input: string)          // Integer.parseInt
    | NullPointer                          // dereferencing null
    | IndexOutOfBounds                     // String.substring with index -1
    | NegativeArraySize                    // new Object[rows][-1]
    | IllegalArgument(message: string)     // explicit throw
    | IllegalState                         // POI: wrong cell type for getStringCellValue
    | WebDriver                            // any failure raised by the browser client

  /** A Throwable as the report shows it: its class name and its message (None for null). */
  datatype Throwable = Throwable(className: string, message: Option<string>)

  const INT_MIN: int := -0x8000_0000
  const INT_MAX: int := 0x7fff_ffff

  predicate IsInt32(n: int) {
    INT_MIN <= n <= INT_MAX
  }

  // ---------------------------------------------------------------- case

  /** Character.toLowerCase restricted to ASCII letters. */
  function LowerChar(c: char): char {
    if 'A' <= c <= 'Z' then (c as int + 32) as char else c
  }

  /** String.toLowerCase: every character mapped, length kept. */
  function ToLowerCase(s: string): (r: string)
    ensures |r| == |s|
    ensures forall i :: 0 <= i < |s| ==> r[i] == LowerChar(s[i])
  {
    seq(|s|, i requires 0 <= i < |s| => LowerChar(s[i]))
  }

  /** A string without upper-case letters is its own lower case. */
  lemma LowerCaseUnchanged(s: string)
    requires forall i :: 0 <= i < |s| ==> !('A' <= s[i] <= 'Z')
    ensures ToLowerCase(s) == s
  {
  }

  /** String.equalsIgnoreCase, compared character by character as Java does. */
  function EqualsIgnoreCase(a: string, b: string): bool {
    |a| == |b| &&
    (|a| == 0 || (LowerChar(a[0]) == LowerChar(b[0]) && EqualsIgnoreCase(a[1..], b[1..])))
  }

  /** equalsIgnoreCase agrees with comparing the lower-cased strings. */
  lemma {:induction false} EqualsIgnoreCaseIsLowerEqual(a: string, b: string)
    ensures EqualsIgnoreCase(a, b) <==> ToLowerCase(a) == ToLowerCase(b)
  {
    if |a| == |b| && |a| > 0 {
      EqualsIgnoreCaseIsLowerEqual(a[1..], b[1..]);
      if ToLowerCase(a) == ToLowerCase(b) {
        assert ToLowerCase(a)[0] == ToLowerCase(b)[0];
        assert ToLowerCase(a[1..]) == ToLowerCase(a)[1..];
        assert ToLowerCase(b[1..]) == ToLowerCase(b)[1..];
      }
    } else if |a| != |b| {
      assert |ToLowerCase(a)| != |ToLowerCase(b)|;
    }
  }

  /** Against a text without upper-case letters, equalsIgnoreCase is comparing the lower case. */
  lemma EqualsIgnoreCaseLowerText(s: string, lower: string)
    requires forall i :: 0 <= i < |lower| ==> !('A' <= lower[i] <= 'Z')
    ensures EqualsIgnoreCase(s, lower) <==> ToLowerCase(s) == lower
  {
    EqualsIgnoreCaseIsLowerEqual(s, lower);
    LowerCaseUnchanged(lower);
  }

  /** String.valueOf(boolean): the text Boolean.parseBoolean reads back as the same value. */
  function BoolString(b: bool): (r: string)
    ensures r == "true" || r == "false"
    ensures ParseBoolean(r) == b
  {
    LowerCaseUnchanged("true");
    LowerCaseUnchanged("false");
    if b then "true" else "false"
  }

  /** Boolean.parseBoolean of a non-null string. */
  function ParseBoolean(s: string): (r: bool)
    ensures r <==> ToLowerCase(s) == "true"
  {
    EqualsIgnoreCaseIsLowerEqual(s, "true");
    EqualsIgnoreCase(s, "true")
  }

  // ------------------------------------------------------------- search

  /** String.lastIndexOf(char): the last position holding c, or -1. */
  function LastIndexOf(s: string, c: char): (r: int)
    ensures -1 <= r < |s|
    ensures r >= 0 ==> s[r] == c
    ensures forall k :: r < k < |s| ==> s[k] != c
  {
    if |s| == 0 then -1
    else if s[|s| - 1] == c then |s| - 1
    else LastIndexOf(s[..|s| - 1], c)
  }

  /** The position of c that has no further c after it is the last one. */
  lemma LastIndexOfAt(s: string, c: char, i: nat)
    requires i < |s| && s[i] == c
    requires forall k :: i < k < |s| ==> s[k] != c
    ensures LastIndexOf(s, c) == i
  {
  }

  /** Whether t occurs in s as a contiguous block. */
  predicate Occurs(s: string, t: string)
    decreases |s|
  {
    |t| <= |s| && (t <= s || Occurs(s[1..], t))
  }

  /**
   * String.replace(target, replacement) for a non-empty target: occurrences
   * are found left to right and do not overlap.
   */
  function Replace(s: string, target: string, replacement: string): string
    requires |target| > 0
    decreases |s|
  {
    if |s| < |target| then s
    else if target <= s then replacement + Replace(s[|target|..], target, replacement)
    else [s[0]] + Replace(s[1..], target, replacement)
  }

  /** Replacing a target that does not occur leaves the string as it was. */
  lemma {:induction false} ReplaceAbsent(s: string, target: string, replacement: string)
    requires |target| > 0 && !Occurs(s, target)
    ensures Replace(s, target, replacement) == s
  {
    if |s| >= |target| {
      assert !(target <= s);
      ReplaceAbsent(s[1..], target, replacement);
    }
  }

  /** Removing the target from target + rest gives rest when rest holds no further copy. */
  lemma ReplaceLeadingOnly(target: string, rest: string)
    requires |target| > 0 && !Occurs(rest, target)
    ensures Replace(target + rest, target, "") == rest
  {
    var s := target + rest;
    assert target <= s;
    assert s[|target|..] == rest;
    ReplaceAbsent(rest, target, "");
  }

  // ------------------------------------------------------------ numbers

  predicate IsDigit(c: char) {
    '0' <= c <= '9'
  }

  predicate AllDigits(s: string) {
    forall i :: 0 <= i < |s| ==> IsDigit(s[i])
  }

  function DigitChar(d: nat): (c: char)
    requires d < 10
    ensures IsDigit(c)
  {
    ('0' as int + d) as char
  }

  /** The value of a string of decimal digits, most significant first. */
  function DigitsValue(s: string): nat
    requires AllDigits(s)
  {
    if |s| == 0 then 0
    else 10 * DigitsValue(s[..|s| - 1]) + (s[|s| - 1] as int - '0' as int)
  }

  /** The decimal digits of n without leading zeros ("0" for zero). */
  function Digits(n: nat): (s: string)
    ensures |s| > 0 && AllDigits(s)
  {
    if n < 10 then [DigitChar(n)] else Digits(n / 10) + [DigitChar(n % 10)]
  }

  /** String.valueOf(int) and String.valueOf(long). */
  function DecimalString(n: int): string {
    if n < 0 then "-" + Digits(-n) else Digits(n)
  }

  /**
   * Integer.parseInt(s): an optional '+' or '-', at least one digit, and a
   * value that fits in 32 bits; anything else throws NumberFormatException.
   */
  function ParseInt(s: string): (r: Result<int, Exception>)
    ensures r.Ok? ==> IsInt32(r.value)
    ensures r.Err? ==> r.error == NumberFormat(s)
    ensures r.Ok? ==> |s| > 0
  {
    if |s| == 0 then Err(NumberFormat(s))
    else
      var signed := s[0] == '-' || s[0] == '+';
      var body := if signed then s[1..] else s;
      if |body| == 0 || !AllDigits(body) then Err(NumberFormat(s))
      else
        var magnitude: int := DigitsValue(body);
        var v := if s[0] == '-' then -magnitude else magnitude;
        if IsInt32(v) then Ok(v) else Err(NumberFormat(s))
  }

  lemma {:induction false} DigitsRoundTrip(n: nat)
    ensures DigitsValue(Digits(n)) == n
  {
    if n >= 10 {
      DigitsRoundTrip(n / 10);
      var s := Digits(n);
      assert s[..|s| - 1] == Digits(n / 10);
    }
  }

  /** Integer.parseInt(String.valueOf(n)) == n for every int n. */
  lemma ParseIntRoundTrip(n: int)
    requires IsInt32(n)
    ensures ParseInt(DecimalString(n)) == Ok(n)
  {
    var s := DecimalString(n);
    if n < 0 {
      var d := Digits(-n);
      assert s == "-" + d;
      assert s[0] == '-' && s[1..] == d;
      DigitsRoundTrip(-n);
    } else {
      assert s == Digits(n);
      assert IsDigit(s[0]);
      DigitsRoundTrip(n);
    }
  }
}
