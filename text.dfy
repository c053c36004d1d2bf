/**
 * The string operations the pages rely on: `toLowerCase` (restricted to ASCII),
 * `String.prototype.includes`, and the decimal form of `parseInt`.
 */
module Text {
  import opened Wrappers

  predicate IsUpper(c: char) { 'A' <= c <= 'Z' }

  predicate IsDigit(c: char) { '0' <= c <= '9' }

  /** ASCII case folding of one character; every other character is left alone. */
  function LowerChar(c: char): (r: char)
    ensures !IsUpper(r)
    ensures !IsUpper(c) ==> r == c
    ensures IsUpper(c) ==> 'a' <= r <= 'z' && r != c
  {
    if IsUpper(c) then (c as int + 32) as char else c
  }

  /** `s.toLowerCase()` for ASCII text. */
  function ToLower(s: string): (r: string)
    ensures |r| == |s|
    ensures forall i :: 0 <= i < |s| ==> r[i] == LowerChar(s[i])
  {
    seq(|s|, i requires 0 <= i < |s| => LowerChar(s[i]))
  }

  /** `pat` occurs in `text` starting at index `i`. */
  predicate OccursAt(text: string, pat: string, i: int)
  {
    0 <= i && i + |pat| <= |text| && text[i..i + |pat|] == pat
  }

  /** `text.includes(pat)`: some window of `text` equals `pat`. */
  function Includes(text: string, pat: string): (r: bool)
    ensures r <==> exists i :: OccursAt(text, pat, i)
    decreases |text|
  {
    if pat <= text then
      assert OccursAt(text, pat, 0);
      true
    else if |text| == 0 then
      assert pat != [];
      false
    else
      var rest := Includes(text[1..], pat);
      assert forall i :: OccursAt(text[1..], pat, i) <==> OccursAt(text, pat, i + 1) by {
        forall i ensures OccursAt(text[1..], pat, i) <==> OccursAt(text, pat, i + 1) {
          if 0 <= i && i + |pat| <= |text[1..]| {
            assert text[1..][i..i + |pat|] == text[i + 1..i + 1 + |pat|];
          }
        }
      }
      assert !OccursAt(text, pat, 0);
      if rest then
        var j :| OccursAt(text[1..], pat, j);
        assert OccursAt(text, pat, j + 1);
        true
      else
        assert forall i :: !OccursAt(text, pat, i) by {
          forall i ensures !OccursAt(text, pat, i) {
            if i > 0 { assert !OccursAt(text[1..], pat, i - 1); }
          }
        }
        false
  }

  /** The case-insensitive test every search box of the application performs:
      `field.toLowerCase().includes(query.toLowerCase())`. */
  predicate MatchesQuery(field: string, query: string)
    ensures MatchesQuery(field, query) <==> exists i :: OccursAt(ToLower(field), ToLower(query), i)
  {
    Includes(ToLower(field), ToLower(query))
  }

  /** The empty query is found in every field. */
  lemma EmptyQueryMatches(field: string)
    ensures MatchesQuery(field, "")
  {
    assert ToLower("") == "";
    assert OccursAt(ToLower(field), "", 0);
  }

  /** Case does not matter on either side of the search. */
  lemma {:induction false} MatchesQueryIgnoresCase(field: string, query: string)
    ensures MatchesQuery(field, query) == MatchesQuery(ToLower(field), ToLower(query))
  {
    ToLowerIdempotent(field);
    ToLowerIdempotent(query);
  }

  lemma ToLowerIdempotent(s: string)
    ensures ToLower(ToLower(s)) == ToLower(s)
  {
  }

  // ----- parseInt -----

  predicate IsSpace(c: char)
  {
    c == ' ' || c == '\t' || c == '\n' || c == '\r' || c == '\U{000B}' || c == '\U{000C}'
  }

  /** Drops the leading white space `parseInt` skips. */
  function TrimStart(s: string): (r: string)
    ensures r == [] || !IsSpace(r[0])
    decreases |s|
  {
    if |s| > 0 && IsSpace(s[0]) then TrimStart(s[1..]) else s
  }

  lemma TrimStartDigit(s: string)
    requires |s| > 0 && IsDigit(s[0])
    ensures TrimStart(s) == s
  {
    assert !IsSpace(s[0]);
  }

  lemma TrimStartSign(s: string)
    requires |s| > 0 && s[0] == '-'
    ensures TrimStart(s) == s
  {
    assert !IsSpace(s[0]);
  }

  /** What is left after the white space is a suffix of the input. */
  lemma {:induction false} TrimStartSuffix(s: string)
    ensures |TrimStart(s)| <= |s| && TrimStart(s) == s[|s| - |TrimStart(s)|..]
    decreases |s|
  {
    if |s| > 0 && IsSpace(s[0]) {
      TrimStartSuffix(s[1..]);
    }
  }

  /** The longest prefix of `s` made of decimal digits. */
  function DigitPrefix(s: string): (r: string)
    ensures r <= s
    ensures forall i :: 0 <= i < |r| ==> IsDigit(r[i])
    ensures |r| < |s| ==> !IsDigit(s[|r|])
    decreases |s|
  {
    if |s| > 0 && IsDigit(s[0]) then [s[0]] + DigitPrefix(s[1..]) else []
  }

  function DigitValue(c: char): nat
    requires IsDigit(c)
  {
    c as int - '0' as int
  }

  /** The value of a run of decimal digits, most significant first. */
  function DigitsValue(d: string): nat
    requires forall i :: 0 <= i < |d| ==> IsDigit(d[i])
  {
    if d == [] then 0 else DigitsValue(d[..|d| - 1]) * 10 + DigitValue(d[|d| - 1])
  }

  /** The value of the digits at the start of `body`; `None` when it does not start with one. */
  function ParseDigits(body: string): (r: Option<nat>)
    ensures r.None? <==> body == [] || !IsDigit(body[0])
  {
    var digits := DigitPrefix(body);
    if digits == [] then None else Some(DigitsValue(digits))
  }

  /** An optional sign, then the digits. */
  function ParseSigned(t: string): Option<int>
  {
    if |t| > 0 && t[0] == '-' then
      match ParseDigits(t[1..])
      case None => None
      case Some(v) => Some(-(v as int))
    else if |t| > 0 && t[0] == '+' then
      match ParseDigits(t[1..])
      case None => None
      case Some(v) => Some(v as int)
    else
      match ParseDigits(t)
      case None => None
      case Some(v) => Some(v as int)
  }

  /** `parseInt(s)` in base 10: skip white space, read an optional sign, then the
      longest run of digits; `None` stands for `NaN` (no digit at all). */
  function ParseInt(s: string): (r: Option<int>)
    ensures var t := TrimStart(s); |t| > 0 && IsDigit(t[0]) ==> r.Some? && r.value >= 0
    ensures var t := TrimStart(s); r.Some? ==> |t| > 0 && (r.value < 0 ==> t[0] == '-')
  {
    ParseSigned(TrimStart(s))
  }

  function DigitChar(n: nat): (c: char)
    requires n < 10
    ensures IsDigit(c) && DigitValue(c) == n
  {
    ('0' as int + n) as char
  }

  /** The decimal numeral of `n`, as `String(n)` prints it. */
  function Decimal(n: nat): (r: string)
    ensures |r| > 0
    ensures forall i :: 0 <= i < |r| ==> IsDigit(r[i])
  {
    if n < 10 then [DigitChar(n)] else Decimal(n / 10) + [DigitChar(n % 10)]
  }

  lemma {:induction false} DecimalValue(n: nat)
    ensures DigitsValue(Decimal(n)) == n
  {
    if n >= 10 {
      var d := Decimal(n);
      assert d[..|d| - 1] == Decimal(n / 10);
      DecimalValue(n / 10);
    }
  }

  lemma {:induction false} DigitPrefixOfDigits(d: string, tail: string)
    requires forall i :: 0 <= i < |d| ==> IsDigit(d[i])
    requires tail == [] || !IsDigit(tail[0])
    ensures DigitPrefix(d + tail) == d
    decreases |d|
  {
    if d != [] {
      assert (d + tail)[1..] == d[1..] + tail;
      DigitPrefixOfDigits(d[1..], tail);
    }
  }

  lemma ParseDigitsDecimal(n: nat, tail: string)
    requires tail == [] || !IsDigit(tail[0])
    ensures ParseDigits(Decimal(n) + tail) == Some(n)
  {
    DigitPrefixOfDigits(Decimal(n), tail);
    DecimalValue(n);
  }

  /** `parseInt` reads back the numeral of every natural number, and stops at the
      first character that is not a digit (`parseInt("12abc") == 12`). */
  lemma ParseIntDecimal(n: nat, tail: string)
    requires tail == [] || !IsDigit(tail[0])
    ensures ParseInt(Decimal(n) + tail) == Some(n)
  {
    var s := Decimal(n) + tail;
    assert s[0] == Decimal(n)[0];
    TrimStartDigit(s);
    ParseDigitsDecimal(n, tail);
    assert ParseDigits(s) == Some(n);
    assert ParseSigned(s) == Some(n);
  }

  /** A leading minus sign negates the numeral that follows it. */
  lemma ParseIntNegative(n: nat, tail: string)
    requires tail == [] || !IsDigit(tail[0])
    ensures ParseInt("-" + Decimal(n) + tail) == Some(-(n as int))
  {
    var body := Decimal(n) + tail;
    var s := ['-'] + body;
    assert s == "-" + Decimal(n) + tail;
    assert s[1..] == body;
    TrimStartSign(s);
    ParseDigitsDecimal(n, tail);
    assert ParseDigits(body) == Some(n);
    assert ParseSigned(s) == Some(-(n as int));
  }

  /** `parseInt` gives `NaN` exactly when, after the white space, there is nothing, or a
      character that is neither a digit nor a sign, or a sign not followed by a digit. */
  lemma ParseIntNaN(s: string)
    ensures var t := TrimStart(s);
      ParseInt(s).None? <==>
        || t == []
        || (t[0] != '-' && t[0] != '+' && !IsDigit(t[0]))
        || ((t[0] == '-' || t[0] == '+') && (|t| == 1 || !IsDigit(t[1])))
  {
  }
}
