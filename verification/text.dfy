/** Text helpers the application relies on: `String.prototype.trim`, the
    decimal rendering of integers (`String(n)`), its inverse `Number(s)` on the
    strings it produces, and the 30-character chat title. */
module Text {
  import opened Wrappers

  /** The characters `String.prototype.trim` removes: ECMAScript WhiteSpace
      and LineTerminator code points. */
  predicate IsJsSpace(c: char)
  {
    c == '\t' || c == '\n' || c == '\U{B}' || c == '\U{C}' || c == '\r' ||
    c == ' ' || c == '\U{A0}' || c == '\U{1680}' ||
    ('\U{2000}' <= c <= '\U{200A}') ||
    c == '\U{2028}' || c == '\U{2029}' || c == '\U{202F}' || c == '\U{205F}' ||
    c == '\U{3000}' || c == '\U{FEFF}'
  }

  /** Number of leading white-space characters. */
  function LeadingSpaces(s: string): (k: nat)
    ensures k <= |s|
    ensures forall i :: 0 <= i < k ==> IsJsSpace(s[i])
    ensures k < |s| ==> !IsJsSpace(s[k])
  {
    if |s| > 0 && IsJsSpace(s[0]) then 1 + LeadingSpaces(s[1..]) else 0
  }

  /** Index where the trailing white space of `s` begins. */
  function TrailingStart(s: string): (e: nat)
    ensures e <= |s|
    ensures forall i :: e <= i < |s| ==> IsJsSpace(s[i])
    ensures e > 0 ==> !IsJsSpace(s[e - 1])
  {
    if |s| > 0 && IsJsSpace(s[|s| - 1]) then TrailingStart(s[..|s| - 1]) else |s|
  }

  /** `s.trim()`. */
  function Trim(s: string): (r: string)
  {
    var k := LeadingSpaces(s);
    if k == |s| then "" else s[k..TrailingStart(s)]
  }

  /** `trim` removes white space at both ends and nothing else: the result is
      a slice of the input that neither starts nor ends with white space, and
      it is empty exactly when the input is all white space. */
  lemma TrimIsInnerSlice(s: string)
    ensures exists i, j :: (0 <= i <= j <= |s| && Trim(s) == s[i..j] &&
      (forall k :: 0 <= k < i ==> IsJsSpace(s[k])) &&
      (forall k :: j <= k < |s| ==> IsJsSpace(s[k])))
    ensures Trim(s) != "" ==> !IsJsSpace(Trim(s)[0]) && !IsJsSpace(Trim(s)[|Trim(s)| - 1])
    ensures Trim(s) == "" <==> forall k :: 0 <= k < |s| ==> IsJsSpace(s[k])
  {
    var k := LeadingSpaces(s);
    if k == |s| {
      assert Trim(s) == s[|s|..|s|];
    } else {
      var e := TrailingStart(s);
      assert !IsJsSpace(s[k]);
      assert k < e;
      assert Trim(s) == s[k..e];
    }
  }

  function Digit(d: nat): char
    requires d < 10
  {
    "0123456789"[d]
  }

  predicate IsDigit(c: char)
  {
    '0' <= c <= '9'
  }

  /** `String(n)` for a non-negative integer. */
  function NatToString(n: nat): (r: string)
    ensures |r| > 0
    ensures forall i :: 0 <= i < |r| ==> IsDigit(r[i])
    ensures |r| > 1 ==> r[0] != '0'
  {
    if n < 10 then [Digit(n)] else NatToString(n / 10) + [Digit(n % 10)]
  }

  /** `String(i)` for any integer. */
  function IntToString(i: int): (r: string)
    ensures |r| > 0
  {
    if i < 0 then "-" + NatToString(-i) else NatToString(i)
  }

  function DigitValue(c: char): nat
    requires IsDigit(c)
  {
    c as int - '0' as int
  }

  /** Value of a string of decimal digits. */
  function DigitsValue(s: string): nat
    requires forall i :: 0 <= i < |s| ==> IsDigit(s[i])
  {
    if s == [] then 0
    else 10 * DigitsValue(s[..|s| - 1]) + DigitValue(s[|s| - 1])
  }

  /** `Number(s)` on the strings `String` produces for non-negative integers:
      a non-empty run of decimal digits. Anything else is `NaN`, rendered
      `None`, which compares unequal to every timestamp. */
  function ParseDecimal(s: string): Option<nat>
  {
    if s != [] && forall i :: 0 <= i < |s| ==> IsDigit(s[i]) then Some(DigitsValue(s)) else None
  }

  /** `Number(String(n)) === n`: a timestamp written into a DOM data attribute
      and read back with `Number` is the same timestamp. */
  lemma {:induction false} DecimalRoundTrip(n: nat)
    ensures ParseDecimal(NatToString(n)) == Some(n)
  {
    DigitsOfNat(n);
  }

  lemma {:induction false} DigitsOfNat(n: nat)
    ensures DigitsValue(NatToString(n)) == n
  {
    var s := NatToString(n);
    if n < 10 {
      assert s[..|s| - 1] == [];
    } else {
      DigitsOfNat(n / 10);
      assert s[..|s| - 1] == NatToString(n / 10);
    }
  }

  const TitleLimit: nat := 30

  /** The chat title taken from the first user message:
      `text.substring(0, 30) + (text.length > 30 ? '...' : '')`. */
  function ChatTitle(text: string): (r: string)
  {
    if |text| > TitleLimit then text[..TitleLimit] + "..." else text
  }

  /** A title is the message itself when it fits, and otherwise its first 30
      characters followed by an ellipsis; it never exceeds 33 characters. */
  lemma ChatTitleShape(text: string)
    ensures |ChatTitle(text)| <= TitleLimit + 3
    ensures |text| <= TitleLimit ==> ChatTitle(text) == text
    ensures |text| > TitleLimit ==>
      ChatTitle(text)[..TitleLimit] == text[..TitleLimit] && ChatTitle(text)[TitleLimit..] == "..."
  {
    if |text| > TitleLimit {
      assert |ChatTitle(text)| == TitleLimit + 3;
    }
  }
}
