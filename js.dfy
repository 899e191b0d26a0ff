/**
 * The handful of JavaScript semantics the lead pipeline relies on:
 * truthiness of optional strings (`x || y`), `String.prototype.includes`,
 * `String.prototype.trim` and `String.prototype.slice(0, n)`.
 */
module Js {
  import opened Wrappers

  /** A JavaScript value, as far as the modelled code inspects it. */
  datatype JsVal = Undefined | Null | Str(s: string)

  /** JavaScript truthiness of a string-or-nullish value. */
  predicate Truthy(v: JsVal) {
    v.Str? && v.s != ""
  }

  /** Truthiness of an optional string: `undefined`, `null` and `""` are falsy. */
  predicate Present(o: Option<string>) {
    o.Some? && o.value != ""
  }

  /** `o || fallback` where `o` is a string, `null` or `undefined`. */
  function OrElse(o: Option<string>, fallback: string): (r: string)
    ensures Present(o) ==> r == o.value
    ensures !Present(o) ==> r == fallback
  {
    if Present(o) then o.value else fallback
  }

  /** `o || undefined` (or `o || null`): falsy strings become absent. */
  function NonEmpty(o: Option<string>): (r: Option<string>)
    ensures r.None? <==> !Present(o)
    ensures r.Some? ==> r == o
  {
    if Present(o) then o else None
  }

  /** `sub` occurs in `s` starting at index `i`. */
  ghost predicate OccursAt(sub: string, s: string, i: int) {
    0 <= i && i + |sub| <= |s| && s[i..i + |sub|] == sub
  }

  /** The specification of `s.includes(sub)`: `sub` occurs at some index of `s`. */
  ghost predicate Occurs(sub: string, s: string) {
    exists i :: OccursAt(sub, s, i)
  }

  /** `s.includes(sub)`, computed by scanning `s` left to right. */
  function Contains(s: string, sub: string): (b: bool)
    ensures b <==> Occurs(sub, s)
    decreases |s|
  {
    if |sub| > |s| then false
    else if s[..|sub|] == sub then
      assert OccursAt(sub, s, 0);
      true
    else
      var rest := Contains(s[1..], sub);
      if rest then
        assert Occurs(sub, s) by {
          var i :| OccursAt(sub, s[1..], i);
          assert s[i + 1..i + 1 + |sub|] == s[1..][i..i + |sub|];
          assert OccursAt(sub, s, i + 1);
        }
        true
      else
        assert forall i :: OccursAt(sub, s, i) ==> i == 0 || OccursAt(sub, s[1..], i - 1) by {
          forall i | OccursAt(sub, s, i) && i != 0 ensures OccursAt(sub, s[1..], i - 1) {
            assert s[1..][i - 1..i - 1 + |sub|] == s[i..i + |sub|];
          }
        }
        false
  }

  /**
   * The characters `String.prototype.trim` removes: the ECMAScript WhiteSpace
   * (tab, vertical tab, form feed, space, no-break space, byte order mark and
   * the Unicode space separators) and LineTerminator code points.
   */
  predicate IsSpace(c: char) {
    c == '\t' || c == '\n' || c == '\U{000B}' || c == '\U{000C}' || c == '\r' || c == ' '
    || c == '\U{00A0}' || c == '\U{1680}' || ('\U{2000}' <= c <= '\U{200A}')
    || c == '\U{2028}' || c == '\U{2029}' || c == '\U{202F}' || c == '\U{205F}'
    || c == '\U{3000}' || c == '\U{FEFF}'
  }

  /** The number of white-space characters at the start of `s`. */
  function LeadingSpaces(s: string): (n: nat)
    ensures n <= |s|
    ensures forall k :: 0 <= k < n ==> IsSpace(s[k])
    ensures n == |s| || !IsSpace(s[n])
  {
    if s == [] || !IsSpace(s[0]) then 0 else 1 + LeadingSpaces(s[1..])
  }

  /** The number of white-space characters at the end of `s`. */
  function TrailingSpaces(s: string): (n: nat)
    ensures n <= |s|
    ensures forall k :: |s| - n <= k < |s| ==> IsSpace(s[k])
    ensures n == |s| || !IsSpace(s[|s| - 1 - n])
  {
    if s == [] || !IsSpace(s[|s| - 1]) then 0 else 1 + TrailingSpaces(s[..|s| - 1])
  }

  /** `s.trim()`: `s` without its leading and trailing white space. */
  function Trim(s: string): (r: string)
    ensures |r| <= |s|
    ensures r == [] || (!IsSpace(r[0]) && !IsSpace(r[|r| - 1]))
    ensures r == s[LeadingSpaces(s)..|s| - TrailingSpaces(s[LeadingSpaces(s)..])]
  {
    var rest := s[LeadingSpaces(s)..];
    rest[..|rest| - TrailingSpaces(rest)]
  }

  /** Only white space is removed: a string with no white space at either end is its own trim. */
  lemma TrimKeepsBareString(s: string)
    requires s == [] || (!IsSpace(s[0]) && !IsSpace(s[|s| - 1]))
    ensures Trim(s) == s
  {
    assert LeadingSpaces(s) == 0;
    assert s[0..] == s;
  }

  /** Trimming twice is trimming once. */
  lemma TrimIdempotent(s: string)
    ensures Trim(Trim(s)) == Trim(s)
  {
    TrimKeepsBareString(Trim(s));
  }

  /** A string of white space only trims to the empty string. */
  lemma TrimAllSpaces(s: string)
    requires forall k :: 0 <= k < |s| ==> IsSpace(s[k])
    ensures Trim(s) == ""
  {
  }

  /** `s.slice(0, n)`: the first `n` characters, or all of `s` when it is shorter. */
  function Prefix(s: string, n: nat): (r: string)
    ensures |r| == if |s| < n then |s| else n
    ensures r <= s
  {
    if |s| <= n then s else s[..n]
  }

  /** `response.ok` of the Fetch API: a status in the 2xx range. */
  predicate IsOk(status: nat) {
    200 <= status <= 299
  }

  /** The value of a decimal digit character. */
  function DigitValue(c: char): int {
    c as int - '0' as int
  }

  /** The number a string of decimal digits denotes, most significant first. */
  function Value(s: string): int
    decreases |s|
  {
    if s == [] then 0 else Value(s[..|s| - 1]) * 10 + DigitValue(s[|s| - 1])
  }

  /** The decimal digit for `d`. */
  function Digit(d: nat): (c: char)
    requires d < 10
    ensures '0' <= c <= '9'
    ensures DigitValue(c) == d
  {
    (d + '0' as int) as char
  }

  /** `${n}` for a natural number: its decimal digits, most significant first, without leading zeros. */
  function DecimalString(n: nat): (s: string)
    ensures |s| >= 1 && forall k :: 0 <= k < |s| ==> '0' <= s[k] <= '9'
    ensures Value(s) == n
    ensures s[0] == '0' <==> n == 0
    ensures n < 10 <==> |s| == 1
  {
    if n < 10 then
      [Digit(n)]
    else
      var high := DecimalString(n / 10);
      var s := high + [Digit(n % 10)];
      assert s[..|s| - 1] == high;
      s
  }

  /** The status in a gateway error message reads back as that status. */
  lemma DecimalStringReadsBack(n: nat, m: nat)
    requires DecimalString(n) == DecimalString(m)
    ensures n == m
  {
  }
}
