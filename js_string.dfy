/** The pieces of JavaScript string behaviour the handler relies on:
    `String.prototype.trim`, template-literal concatenation and the
    decimal rendering of an array length. */
module JsString {

  /** The code points `trim` removes: the ECMAScript WhiteSpace set (tab,
      vertical tab, form feed, space, no-break space, byte-order mark and the
      Unicode space separators) together with the LineTerminator set. */
  predicate IsWhitespace(c: char) {
    || c == '\t' || c == '\U{000B}' || c == '\U{000C}' || c == ' '
    || c == '\n' || c == '\r' || c == '\U{2028}' || c == '\U{2029}'
    || c == '\U{00A0}' || c == '\U{FEFF}' || c == '\U{1680}'
    || ('\U{2000}' <= c <= '\U{200A}')
    || c == '\U{202F}' || c == '\U{205F}' || c == '\U{3000}'
  }

  predicate AllWhitespace(s: string) {
    forall i :: 0 <= i < |s| ==> IsWhitespace(s[i])
  }

  /** The number of whitespace characters `s` starts with. */
  function Leading(s: string): (n: nat)
    ensures n <= |s|
    ensures forall i :: 0 <= i < n ==> IsWhitespace(s[i])
    ensures n < |s| ==> !IsWhitespace(s[n])
  {
    if s != [] && IsWhitespace(s[0]) then 1 + Leading(s[1..]) else 0
  }

  /** The length of `s` once its trailing whitespace is dropped. */
  function Trailing(s: string): (m: nat)
    ensures m <= |s|
    ensures forall i :: m <= i < |s| ==> IsWhitespace(s[i])
    ensures 0 < m ==> !IsWhitespace(s[m - 1])
  {
    if s != [] && IsWhitespace(s[|s| - 1]) then Trailing(s[..|s| - 1]) else |s|
  }

  /** `s.trim()`: the slice of `s` between its leading and trailing
      whitespace. Only whitespace before and after the slice is dropped,
      and it is empty exactly when `s` is all whitespace. */
  function Trim(s: string): (r: string)
    ensures exists a :: OccursAt(s, r, a) && AllWhitespace(s[..a]) && AllWhitespace(s[a + |r|..])
    ensures r != [] ==> !IsWhitespace(r[0]) && !IsWhitespace(r[|r| - 1])
    ensures r == [] <==> AllWhitespace(s)
  {
    var a, b := Leading(s), Trailing(s);
    if b <= a then
      assert a < |s| ==> a < b;
      assert OccursAt(s, [], 0) && AllWhitespace(s[..0]) && AllWhitespace(s[0..]);
      []
    else
      assert OccursAt(s, s[a..b], a) && AllWhitespace(s[..a]) && AllWhitespace(s[b..]);
      s[a..b]
  }

  /** Template-literal concatenation of a list of pieces. */
  function Concat(parts: seq<string>): string {
    if parts == [] then [] else parts[0] + Concat(parts[1..])
  }

  /** `t` occurs in `s` starting at index `i`. */
  predicate OccursAt(s: string, t: string, i: int) {
    0 <= i <= |s| - |t| && s[i..i + |t|] == t
  }

  /** `t` occurs somewhere inside `s`. */
  ghost predicate Contains(s: string, t: string) {
    exists i :: OccursAt(s, t, i)
  }

  /** Every piece of a concatenation occurs in it. */
  lemma {:induction false} ConcatContains(parts: seq<string>, k: nat)
    requires k < |parts|
    ensures Contains(Concat(parts), parts[k])
  {
    var whole, t := Concat(parts), parts[k];
    assert whole == parts[0] + Concat(parts[1..]);
    if k == 0 {
      assert OccursAt(whole, t, 0);
    } else {
      ConcatContains(parts[1..], k - 1);
      var rest := Concat(parts[1..]);
      var i :| OccursAt(rest, t, i);
      var j := |parts[0]| + i;
      assert whole[j..j + |t|] == rest[i..i + |t|];
      assert OccursAt(whole, t, j);
    }
  }

  /** The character of one decimal digit. */
  function DigitChar(d: nat): (c: char)
    requires d < 10
    ensures '0' <= c <= '9'
  {
    (48 + d) as char
  }

  predicate IsDigit(c: char) {
    '0' <= c <= '9'
  }

  /** How JavaScript writes a non-negative integer such as `photos.length`:
      decimal digits, most significant first, with no leading zero. */
  function Decimal(n: nat): (r: string)
    ensures r != [] && forall i :: 0 <= i < |r| ==> IsDigit(r[i])
    ensures r[0] == '0' ==> n == 0 && r == "0"
  {
    if n < 10 then [DigitChar(n)] else Decimal(n / 10) + [DigitChar(n % 10)]
  }

  /** The value of a string of decimal digits: the reading `Decimal` must
      agree with. */
  function DecimalValue(s: string): nat
    requires forall i :: 0 <= i < |s| ==> IsDigit(s[i])
  {
    if s == [] then 0
    else
      var last := s[|s| - 1];
      assert IsDigit(last);
      10 * DecimalValue(s[..|s| - 1]) + (last as int - 48)
  }

  /** Reading back the rendered count gives the count. */
  lemma {:induction false} DecimalRoundTrip(n: nat)
    ensures DecimalValue(Decimal(n)) == n
  {
    var r := Decimal(n);
    if n >= 10 {
      DecimalRoundTrip(n / 10);
      assert r[..|r| - 1] == Decimal(n / 10);
    }
  }
}
