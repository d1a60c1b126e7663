/**
  The few JavaScript string primitives the chatbot component relies on:
  `String.prototype.trim`, `slice(0, n)`, the decimal text of a number in a
  template literal, and the falsy empty string behind `s || fallback`.
  Characters are Unicode scalar values.
 */
module JsString {

  /** ECMAScript WhiteSpace and LineTerminator code points: what `trim` strips. */
  predicate IsJsWhitespace(c: char) {
    c == '\t' || c == '\n' || c == '\U{000B}' || c == '\U{000C}' || c == '\r' || c == ' '
    || c == '\U{00A0}' || c == '\U{1680}' || ('\U{2000}' <= c <= '\U{200A}')
    || c == '\U{2028}' || c == '\U{2029}' || c == '\U{202F}' || c == '\U{205F}'
    || c == '\U{3000}' || c == '\U{FEFF}'
  }

  predicate AllWhitespace(s: string) {
    forall i :: 0 <= i < |s| ==> IsJsWhitespace(s[i])
  }

  /** Strips leading whitespace: what is removed is whitespace, what is kept is a suffix. */
  function TrimStart(s: string): (r: string)
    ensures |r| <= |s| && r == s[|s| - |r|..]
    ensures AllWhitespace(s[..|s| - |r|])
    ensures r == [] || !IsJsWhitespace(r[0])
  {
    if s != [] && IsJsWhitespace(s[0]) then TrimStart(s[1..]) else s
  }

  /** Strips trailing whitespace: what is removed is whitespace, what is kept is a prefix. */
  function TrimEnd(s: string): (r: string)
    ensures |r| <= |s| && r == s[..|r|]
    ensures AllWhitespace(s[|r|..])
    ensures r == [] || !IsJsWhitespace(r[|r| - 1])
  {
    if s != [] && IsJsWhitespace(s[|s| - 1]) then TrimEnd(s[..|s| - 1]) else s
  }

  /** `s.trim()`: empty exactly when `s` is all whitespace; otherwise it starts and ends on a non-blank. */
  function Trim(s: string): (r: string)
    ensures r == [] <==> AllWhitespace(s)
    ensures r != [] ==> !IsJsWhitespace(r[0]) && !IsJsWhitespace(r[|r| - 1])
  {
    var t := TrimStart(s);
    assert s == s[..|s| - |t|] + t;
    TrimEnd(t)
  }

  /**
    `!s.trim()`, the test the component uses for "nothing was typed" and "no
    API key": by the contract of Trim, the trimmed text is empty exactly when
    every character is whitespace.
   */
  predicate IsBlank(s: string) {
    AllWhitespace(s)
  }

  /** Blankness is the component's `!s.trim()`: trimming leaves nothing. */
  lemma BlankIsTrimmedEmpty(s: string)
    ensures IsBlank(s) <==> Trim(s) == []
  {
  }

  function Min(a: nat, b: nat): nat {
    if a <= b then a else b
  }

  /** `s.slice(0, n)`: the first `n` characters, or all of `s` when it is shorter. */
  function Take(s: string, n: nat): (r: string)
    ensures |r| == Min(|s|, n) && r <= s
  {
    if |s| <= n then s else s[..n]
  }

  /** JavaScript's `s || fallback` on a string: only the empty string is falsy. */
  function OrDefault(s: string, fallback: string): (r: string)
    ensures s != "" ==> r == s
    ensures r == "" <==> s == "" && fallback == ""
  {
    if s == "" then fallback else s
  }

  predicate IsDigit(c: char) {
    '0' <= c <= '9'
  }

  function DigitChar(d: nat): (c: char)
    requires d < 10
    ensures IsDigit(c) && c as int - '0' as int == d
  {
    "0123456789"[d]
  }

  function DigitValue(c: char): nat {
    if IsDigit(c) then (c as int - '0' as int) as nat else 0
  }

  /** The text a template literal gives a non-negative integer: decimal digits, no leading zero. */
  function NatToDecimal(n: nat): (r: string)
    ensures r != [] && forall i :: 0 <= i < |r| ==> IsDigit(r[i])
    ensures r[0] == '0' ==> n == 0
  {
    if n < 10 then [DigitChar(n)] else NatToDecimal(n / 10) + [DigitChar(n % 10)]
  }

  /** Reads a string of decimal digits back as a number. */
  function DecimalToNat(s: string): nat {
    if s == [] then 0 else 10 * DecimalToNat(s[..|s| - 1]) + DigitValue(s[|s| - 1])
  }

  /** The decimal text determines the number: reading it back gives the number written. */
  lemma {:induction false} DecimalRoundTrip(n: nat)
    ensures DecimalToNat(NatToDecimal(n)) == n
  {
    if n >= 10 {
      var r := NatToDecimal(n);
      assert r[..|r| - 1] == NatToDecimal(n / 10);
      DecimalRoundTrip(n / 10);
    }
  }

  /** `sub` sits in `s` starting at index `i`. */
  predicate OccursAt(sub: string, s: string, i: nat) {
    i + |sub| <= |s| && s[i..i + |sub|] == sub
  }

  ghost predicate Occurs(sub: string, s: string) {
    exists i: nat :: OccursAt(sub, s, i)
  }

  lemma OccursBetween(a: string, b: string, c: string)
    ensures OccursAt(b, a + b + c, |a|) && Occurs(b, a + b + c)
  {
    assert (a + b + c)[|a|..|a| + |b|] == b;
    var i: nat := |a|;
    assert OccursAt(b, a + b + c, i);
  }

  /** An occurrence moves right by the length of text put in front of it. */
  lemma OccursPrepend(sub: string, s: string, i: nat, t: string)
    requires OccursAt(sub, s, i)
    ensures OccursAt(sub, t + s, |t| + i)
  {
    assert (t + s)[|t| + i..|t| + i + |sub|] == s[i..i + |sub|];
  }

  /** The concatenation of a list of template pieces. */
  function Join(parts: seq<string>): string {
    if parts == [] then "" else parts[0] + Join(parts[1..])
  }

  /** Joining two lists of pieces joins their texts. */
  lemma {:induction false} JoinConcat(p: seq<string>, q: seq<string>)
    ensures Join(p + q) == Join(p) + Join(q)
  {
    if p == [] {
      assert p + q == q;
    } else {
      assert (p + q)[1..] == p[1..] + q;
      JoinConcat(p[1..], q);
      assert Join(p + q) == p[0] + (Join(p[1..]) + Join(q));
    }
  }

  /** Piece `k` of a template sits in the joined text right after the pieces before it. */
  lemma {:induction false} JoinPartOccurs(parts: seq<string>, k: nat)
    requires k < |parts|
    ensures OccursAt(parts[k], Join(parts), |Join(parts[..k])|) && Occurs(parts[k], Join(parts))
  {
    if k == 0 {
      OccursBetween("", parts[0], Join(parts[1..]));
      assert "" + parts[0] + Join(parts[1..]) == Join(parts);
    } else {
      JoinPartOccurs(parts[1..], k - 1);
      OccursPrepend(parts[k], Join(parts[1..]), |Join(parts[1..][..k - 1])|, parts[0]);
      assert parts[..k] == [parts[0]] + parts[1..][..k - 1];
      assert Join(parts[..k]) == parts[0] + Join(parts[1..][..k - 1]);
    }
    var i: nat := |Join(parts[..k])|;
    assert OccursAt(parts[k], Join(parts), i);
  }

  /** The joined text ends with the last piece. */
  lemma {:induction false} JoinEndsWithLast(parts: seq<string>)
    requires parts != []
    ensures |parts[|parts| - 1]| <= |Join(parts)|
    ensures Join(parts)[|Join(parts)| - |parts[|parts| - 1]|..] == parts[|parts| - 1]
  {
    if |parts| > 1 {
      JoinEndsWithLast(parts[1..]);
    } else {
      assert Join(parts) == parts[0] + "";
    }
  }
}
