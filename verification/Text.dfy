/** The few string operations of Go's standard library that the flows depend on. */
module Text {
  import opened Common

  // Go's unicode.IsSpace
  predicate IsSpace(c: char) {
    c in "\t\n\U{000B}\U{000C}\r \U{0085}\U{00A0}\U{1680}\U{2028}\U{2029}\U{202F}\U{205F}\U{3000}"
    || '\U{2000}' <= c <= '\U{200A}'
  }

  predicate IsBlank(c: char) {
    c == ' '
  }

  // Length of the longest prefix without a separator
  function TokenLength(s: string, separates: char -> bool): (n: nat)
    ensures n <= |s| && (n < |s| ==> separates(s[n]))
    ensures forall i :: 0 <= i < n ==> !separates(s[i])
  {
    if s == "" || separates(s[0]) then 0 else 1 + TokenLength(s[1..], separates)
  }

  // The maximal runs of non-separators
  function Tokens(s: string, separates: char -> bool): (r: seq<string>)
    ensures forall t :: t in r ==> IsToken(t, separates)
    decreases |s|
  {
    if s == "" then []
    else if separates(s[0]) then Tokens(s[1..], separates)
    else
      var n := TokenLength(s, separates);
      [s[..n]] + Tokens(s[n..], separates)
  }

  predicate IsToken(t: string, separates: char -> bool) {
    t != "" && forall c | c in t :: !separates(c)
  }

  // strings.Fields
  function Fields(s: string): seq<string> {
    Tokens(s, IsSpace)
  }

  // How a scope parameter is read: split at blanks, empty parts removed
  function SplitScopes(s: string): seq<string> {
    Tokens(s, IsBlank)
  }

  // strings.Join with a blank
  function JoinScopes(scopes: seq<string>): string {
    if scopes == [] then ""
    else if |scopes| == 1 then scopes[0]
    else scopes[0] + " " + JoinScopes(scopes[1..])
  }

  lemma FirstToken(t: string, rest: string)
    requires IsToken(t, IsBlank) && (rest == "" || rest[0] == ' ')
    ensures SplitScopes(t + rest) == [t] + SplitScopes(rest)
  {
    var s := t + rest;
    assert t[0] in t && s[0] == t[0];
    assert forall i :: 0 <= i < |t| ==> s[i] in t;
    var n := TokenLength(s, IsBlank);
    assert n == |t| by {
      assert rest != "" ==> s[|t|] == ' ';
    }
    assert s[..n] == t && s[n..] == rest;
  }

  /** A stored scope parameter reads back as exactly the scopes it was written from. */
  lemma {:induction false} ScopesRoundTrip(scopes: seq<string>)
    requires forall t :: t in scopes ==> IsToken(t, IsBlank)
    ensures SplitScopes(JoinScopes(scopes)) == scopes
  {
    if scopes == [] {
    } else {
      var t, rest := scopes[0], scopes[1..];
      ScopesRoundTrip(rest);
      var tail := if rest == [] then "" else " " + JoinScopes(rest);
      assert JoinScopes(scopes) == t + tail;
      FirstToken(t, tail);
      assert rest != [] ==> tail[1..] == JoinScopes(rest);
    }
  }

  // ---------------------------------------------------------------- integers

  const INT64_MAX: int := 0x7FFF_FFFF_FFFF_FFFF

  predicate IsDigit(c: char) {
    '0' <= c <= '9'
  }

  predicate AllDigits(s: string) {
    forall c | c in s :: IsDigit(c)
  }

  function DigitsValue(s: string): (r: nat)
    requires AllDigits(s)
  {
    if s == "" then 0
    else
      var last := s[|s| - 1];
      assert IsDigit(last);
      10 * DigitsValue(s[..|s| - 1]) + (last as int - '0' as int)
  }

  // strconv.ParseInt(s, 10, 64)
  function ParseInt(s: string): Option<int> {
    var signed := s != "" && (s[0] == '-' || s[0] == '+');
    var digits := if signed then s[1..] else s;
    if digits == "" || !AllDigits(digits) then None
    else
      var value: int := if signed && s[0] == '-' then 0 - DigitsValue(digits) else DigitsValue(digits);
      if -INT64_MAX - 1 <= value <= INT64_MAX then Some(value) else None
  }

  function Digit(n: nat): char
    requires n < 10
  {
    (n + '0' as int) as char
  }

  function Decimal(n: nat): string {
    if n < 10 then [Digit(n)] else Decimal(n / 10) + [Digit(n % 10)]
  }

  lemma {:induction false} DecimalReadsBack(n: nat)
    ensures AllDigits(Decimal(n)) && Decimal(n) != "" && DigitsValue(Decimal(n)) == n
  {
    if n < 10 {
      var s := [Digit(n)];
      assert s[..|s| - 1] == "" && DigitsValue("") == 0;
      assert Decimal(n) == s;
    } else {
      DecimalReadsBack(n / 10);
      var s := Decimal(n / 10) + [Digit(n % 10)];
      assert s[..|s| - 1] == Decimal(n / 10);
    }
  }

  /** A decimal numeral is read as its number, with its sign, if and only if it fits into 64 bits. */
  lemma ParseIntReadsNumerals(n: int)
    requires n >= 0
    ensures ParseInt(Decimal(n)) == if n <= 0x7FFF_FFFF_FFFF_FFFF then Some(n) else None
    ensures ParseInt("-" + Decimal(n)) == if n <= 0x8000_0000_0000_0000 then Some(-n) else None
    ensures ParseInt("") == None
  {
    DecimalReadsBack(n);
    var s := Decimal(n);
    assert s[0] in s;
    assert ("-" + s)[1..] == s;
    hide DigitsValue, Decimal;
  }

  // A product computed in 64-bit two's complement
  function WrapInt64(x: int): int {
    (x + INT64_MAX + 1) % (2 * (INT64_MAX + 1)) - INT64_MAX - 1
  }
}
