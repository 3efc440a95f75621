/**
 * The small part of the Java platform the plugin leans on: nullable strings,
 * exceptions as values, 32-bit int bounds, String.trim, String.startsWith /
 * endsWith, the regex "\\d+" and Integer.parseInt.
 */
module JavaLang {

  datatype Option<+T> = None | Some(value: T)

  /** A Java String reference: None stands for null. */
  type JString = Option<string>

  /** The exceptions that cross the plugin's code paths. */
  datatype Exception =
    | DockerException(message: string)
    | ImageNotFoundException
    | DockerCertificateException
    | InterruptedException
    | IllegalStateException(message: string)
    | IllegalArgumentException
    | NullPointerException
    | NumberFormatException
    | StringIndexOutOfBoundsException
    | UnsupportedOperationException
    | IOException(cause: Exception)  // `new IOException(cause.getMessage(), cause)`

  /** The checked exceptions a Docker client call declares. */
  predicate IsDockerException(e: Exception) {
    e.DockerException? || e.ImageNotFoundException?
  }

  /** The unchecked (runtime) exceptions among them. */
  predicate IsUnchecked(e: Exception) {
    e.IllegalStateException? || e.IllegalArgumentException? || e.NullPointerException?
    || e.NumberFormatException? || e.StringIndexOutOfBoundsException? || e.UnsupportedOperationException?
  }

  /** What a Java method call does: return a value or throw. */
  datatype Outcome<+T> = Returned(value: T) | Threw(exception: Exception)

  const IntMax: int := 0x7fff_ffff
  const IntMin: int := -0x8000_0000

  /** Java's `"" + s`: a null reference prints as "null". */
  function ToJavaString(s: JString): (r: string)
    ensures s.Some? ==> r == s.value
    ensures s.None? ==> r == "null"
  {
    if s.None? then "null" else s.value
  }

  /** String.trim removes every leading and trailing char up to U+0020. */
  predicate IsTrimmed(c: char) { c <= ' ' }

  /** Index of the first char at or after i that String.trim keeps (|s| if none). */
  function TrimStartIndex(s: string, i: nat): (j: nat)
    requires i <= |s|
    ensures i <= j <= |s|
    ensures forall k :: i <= k < j ==> IsTrimmed(s[k])
    ensures j == |s| || !IsTrimmed(s[j])
    decreases |s| - i
  {
    if i < |s| && IsTrimmed(s[i]) then TrimStartIndex(s, i + 1) else i
  }

  /** End (exclusive) of the part of s[lo..hi] that String.trim keeps. */
  function TrimEndIndex(s: string, lo: nat, hi: nat): (e: nat)
    requires lo <= hi <= |s|
    ensures lo <= e <= hi
    ensures forall k :: e <= k < hi ==> IsTrimmed(s[k])
    ensures e == lo || !IsTrimmed(s[e - 1])
  {
    if hi > lo && IsTrimmed(s[hi - 1]) then TrimEndIndex(s, lo, hi - 1) else hi
  }

  /**
   * String.trim(): the infix left after dropping every leading and trailing
   * char up to U+0020; it neither starts nor ends with such a char.
   */
  function Trim(s: string): (r: string)
    ensures var st := TrimStartIndex(s, 0);
      st + |r| <= |s| && r == s[st..st + |r|]
      && (forall k :: 0 <= k < st ==> IsTrimmed(s[k]))
      && (forall k :: st + |r| <= k < |s| ==> IsTrimmed(s[k]))
    ensures r == [] || (!IsTrimmed(r[0]) && !IsTrimmed(r[|r| - 1]))
    ensures r == [] <==> forall k :: 0 <= k < |s| ==> IsTrimmed(s[k])
  {
    var st := TrimStartIndex(s, 0);
    var en := TrimEndIndex(s, st, |s|);
    assert st < en ==> s[st..en][0] == s[st] && s[st..en][en - st - 1] == s[en - 1];
    s[st..en]
  }

  /** `s != null && s.trim().length() > 0` */
  predicate HasText(s: JString) {
    s.Some? && |Trim(s.value)| > 0
  }

  /** `s == null || s.length() < 1` */
  predicate IsNullOrEmpty(s: JString) {
    s.None? || |s.value| < 1
  }

  /** String.startsWith */
  predicate StartsWith(s: string, prefix: string) {
    |prefix| <= |s| && s[..|prefix|] == prefix
  }

  /** String.endsWith */
  predicate EndsWith(s: string, suffix: string) {
    |suffix| <= |s| && s[|s| - |suffix|..] == suffix
  }

  predicate IsDigit(c: char) { '0' <= c <= '9' }

  /** `s.matches("\\d+")`: one or more ASCII decimal digits. */
  predicate IsDigits(s: string) {
    |s| > 0 && forall k :: 0 <= k < |s| ==> IsDigit(s[k])
  }

  /** The decimal value of a string of digits (an empty string is 0). */
  function DigitsValue(s: string): (v: nat)
    requires forall k :: 0 <= k < |s| ==> IsDigit(s[k])
  {
    if |s| == 0 then 0
    else
      assert IsDigit(s[|s| - 1]);
      10 * DigitsValue(s[..|s| - 1]) + (s[|s| - 1] as int - '0' as int)
  }

  /** A digit string has value 0 exactly when all its digits are '0'. */
  lemma {:induction false} DigitsValueZero(s: string)
    requires forall k :: 0 <= k < |s| ==> IsDigit(s[k])
    ensures DigitsValue(s) == 0 <==> forall k :: 0 <= k < |s| ==> s[k] == '0'
  {
    if |s| > 0 {
      var init := s[..|s| - 1];
      DigitsValueZero(init);
      assert forall k :: 0 <= k < |init| ==> init[k] == s[k];
    }
  }

  /**
   * Integer.parseInt(s) on ASCII input: an optional '+' or '-' followed by at
   * least one digit, with a value inside the 32-bit range; anything else
   * throws NumberFormatException (None here).
   */
  function ParseInt(s: string): (r: Option<int>)
    ensures r.Some? ==> IntMin <= r.value <= IntMax
  {
    if |s| == 0 then None
    else if s[0] == '-' || s[0] == '+' then
      var rest := s[1..];
      if IsDigits(rest) then
        var v := if s[0] == '-' then -(DigitsValue(rest) as int) else DigitsValue(rest);
        if IntMin <= v <= IntMax then Some(v) else None
      else None
    else if IsDigits(s) && DigitsValue(s) <= IntMax then Some(DigitsValue(s))
    else None
  }

  /** On a digit string parseInt succeeds exactly when the value fits, and yields it. */
  lemma ParseIntDigits(s: string)
    requires IsDigits(s)
    ensures ParseInt(s).Some? <==> DigitsValue(s) <= IntMax
    ensures ParseInt(s).Some? ==> ParseInt(s).value == DigitsValue(s)
  {
    assert s[0] != '-' && s[0] != '+';
  }

  /** parseInt of a minus sign and a digit string that fits is the negated value. */
  lemma ParseIntNegative(digits: string)
    requires IsDigits(digits) && DigitsValue(digits) <= -IntMin
    ensures ParseInt("-" + digits) == Some(-(DigitsValue(digits) as int))
  {
    assert ("-" + digits)[1..] == digits;
  }

  /** java.util.List.indexOf: the first position of x, or -1. */
  function IndexOf<T(==)>(s: seq<T>, x: T): (k: int)
    ensures -1 <= k < |s|
    ensures k == -1 <==> x !in s
    ensures k >= 0 ==> s[k] == x && x !in s[..k]
  {
    if s == [] then -1
    else if s[0] == x then 0
    else
      var j := IndexOf(s[1..], x);
      assert s == [s[0]] + s[1..];
      if j < 0 then -1
      else
        assert s[..j + 1] == [s[0]] + s[1..][..j];
        j + 1
  }

  /**
   * java.util.List.remove(Object): drop the first element equal to x (for a
   * class without equals, the same reference); no element equal to x means
   * no change.
   */
  function ListRemove<T(==)>(s: seq<T>, x: T): (r: seq<T>)
    ensures x !in s ==> r == s
    ensures x in s ==> |r| == |s| - 1 && multiset(r) == multiset(s) - multiset{x}
    ensures x in s ==> var k := IndexOf(s, x); r == s[..k] + s[k + 1..]
  {
    var k := IndexOf(s, x);
    if k < 0 then s
    else
      assert s == s[..k] + [s[k]] + s[k + 1..];
      s[..k] + s[k + 1..]
  }
}
