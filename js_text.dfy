/**
 * The JavaScript string operations the client's helpers rely on:
 * `String.prototype.trim`, `toLowerCase` (on the Latin, Greek and Cyrillic capitals), `includes`,
 * and `String(x)` applied to an identifier that is a number or a string.
 */
module JsText {

  /** The white space and line terminators that `trim` removes. */
  predicate IsSpace(c: char) {
    || c == ' ' || c == '\t' || c == '\n' || c == '\r' || c == '\U{000B}' || c == '\U{000C}'
    || c == '\U{00A0}' || c == '\U{FEFF}' || c == '\U{1680}'
    || ('\U{2000}' <= c <= '\U{200A}')
    || c == '\U{2028}' || c == '\U{2029}' || c == '\U{202F}' || c == '\U{205F}' || c == '\U{3000}'
  }

  predicate AllSpace(s: string) {
    forall i :: 0 <= i < |s| ==> IsSpace(s[i])
  }

  /** Drops leading white space: the result is a suffix of `s` that starts with a non-space. */
  function TrimStart(s: string): (r: string)
    ensures |r| <= |s| && r == s[|s| - |r|..]
    ensures AllSpace(s[..|s| - |r|])
    ensures r == [] || !IsSpace(r[0])
  {
    if s != [] && IsSpace(s[0]) then
      var r := TrimStart(s[1..]);
      assert s[..|s| - |r|] == [s[0]] + s[1..][..|s| - 1 - |r|];
      r
    else s
  }

  /** Drops trailing white space: the result is a prefix of `s` that ends with a non-space. */
  function TrimEnd(s: string): (r: string)
    ensures |r| <= |s| && r == s[..|r|]
    ensures AllSpace(s[|r|..])
    ensures r == [] || !IsSpace(r[|r| - 1])
  {
    if s != [] && IsSpace(s[|s| - 1]) then
      var r := TrimEnd(s[..|s| - 1]);
      assert s[|r|..] == s[..|s| - 1][|r|..] + [s[|s| - 1]];
      r
    else s
  }

  /** `r` is `s` with the white-space run `s[..i]` before it and another after it. */
  predicate TrimmedAt(s: string, r: string, i: int) {
    0 <= i <= |s| - |r| && r == s[i..i + |r|] && AllSpace(s[..i]) && AllSpace(s[i + |r|..])
  }

  /** `s.trim()`: the middle slice of `s` left once both white-space runs are gone. */
  function Trim(s: string): (r: string)
    ensures exists i :: TrimmedAt(s, r, i)
    ensures r == [] || (!IsSpace(r[0]) && !IsSpace(r[|r| - 1]))
  {
    var a := TrimStart(s);
    var r := TrimEnd(a);
    var i := |s| - |a|;
    assert r == s[i..i + |r|];
    assert s[i + |r|..] == a[|r|..];
    assert TrimmedAt(s, r, i);
    r
  }

  /** A string trims to nothing exactly when it is all white space. */
  lemma TrimEmpty(s: string)
    ensures Trim(s) == [] <==> AllSpace(s)
  {
    var a := TrimStart(s);
    var r := TrimEnd(a);
    var i := |s| - |a|;
    assert a != [] ==> a[0] == s[i];
    assert forall k :: |r| <= k < |a| ==> IsSpace(a[k]) by {
      forall k | |r| <= k < |a| ensures IsSpace(a[k]) {
        assert a[k] == a[|r|..][k - |r|];
      }
    }
    assert a == [] ==> s[..i] == s;
  }

  /**
   * The capitals whose lower case is 32 code points further on: ASCII
   * `A`-`Z`, Latin-1 `À`-`Þ` except `×`, Greek `Α`-`Ω` except the unassigned
   * U+03A2 and the context-dependent `Σ`, and Cyrillic `А`-`Я`.
   */
  predicate ShiftBy32(c: char) {
    || ('A' <= c <= 'Z')
    || ('\U{00C0}' <= c <= '\U{00DE}' && c != '\U{00D7}')
    || ('\U{0391}' <= c <= '\U{03A9}' && c != '\U{03A2}' && c != '\U{03A3}')
    || ('\U{0410}' <= c <= '\U{042F}')
  }

  /** The Cyrillic capitals `Ѐ`-`Џ`, whose lower case is 80 code points further on. */
  predicate ShiftBy80(c: char) {
    '\U{0400}' <= c <= '\U{040F}'
  }

  /** The lower case of one character, for the Latin, Greek and Cyrillic capitals above. */
  function LowerChar(c: char): (r: char)
    ensures !ShiftBy32(r) && !ShiftBy80(r)
    ensures ShiftBy32(c) ==> r as int == c as int + 32
    ensures ShiftBy80(c) ==> r as int == c as int + 80
    ensures !ShiftBy32(c) && !ShiftBy80(c) ==> r == c
  {
    if ShiftBy32(c) then (c as int + 32) as char
    else if ShiftBy80(c) then (c as int + 80) as char
    else c
  }

  /** `s.toLowerCase()` on the capitals `LowerChar` knows (other characters are kept). */
  function ToLower(s: string): (r: string)
    ensures |r| == |s|
    ensures forall i :: 0 <= i < |s| ==> r[i] == LowerChar(s[i])
  {
    seq(|s|, i requires 0 <= i < |s| => LowerChar(s[i]))
  }

  /** Lower-casing twice is lower-casing once. */
  lemma ToLowerIdempotent(s: string)
    ensures ToLower(ToLower(s)) == ToLower(s)
  {
  }

  /** `sub` sits in `s` starting at position `i`. */
  predicate OccursAt(s: string, sub: string, i: int) {
    0 <= i && i + |sub| <= |s| && s[i..i + |sub|] == sub
  }

  /** `s.includes(sub)`: `sub` occurs in `s` at some position. */
  function Includes(s: string, sub: string): (r: bool)
    ensures r <==> exists i :: OccursAt(s, sub, i)
    decreases |s|
  {
    if |sub| <= |s| && s[..|sub|] == sub then
      assert OccursAt(s, sub, 0);
      true
    else if |sub| >= |s| then
      assert forall i :: OccursAt(s, sub, i) ==> i == 0;
      false
    else
      var r := Includes(s[1..], sub);
      assert forall i :: 1 <= i && OccursAt(s, sub, i) ==> OccursAt(s[1..], sub, i - 1) by {
        forall i | 1 <= i && OccursAt(s, sub, i) ensures OccursAt(s[1..], sub, i - 1) {
          assert s[1..][i - 1..i - 1 + |sub|] == s[i..i + |sub|];
        }
      }
      assert r ==> exists i :: OccursAt(s, sub, i) by {
        if r {
          var j :| OccursAt(s[1..], sub, j);
          assert s[1..][j..j + |sub|] == s[j + 1..j + 1 + |sub|];
          assert OccursAt(s, sub, j + 1);
        }
      }
      r
  }

  /** The empty string occurs in every string, so an empty query matches everything. */
  lemma IncludesEmpty(s: string)
    ensures Includes(s, "")
  {
    assert OccursAt(s, "", 0);
  }

  /** A value that the client uses as an identifier: a number or a string. */
  datatype JsId = Num(n: int) | Str(s: string)

  /** JavaScript truthiness of an identifier: `0` and `""` are falsy. */
  predicate Truthy(x: JsId) {
    match x
    case Num(n) => n != 0
    case Str(s) => s != ""
  }

  function DigitChar(d: nat): char
    requires d < 10
  {
    ('0' as int + d) as char
  }

  /** The decimal digits of `n`, most significant first, without leading zeros. */
  function NatDigits(n: nat): (r: string)
    ensures 1 <= |r|
    ensures n >= 10 <==> |r| >= 2
    ensures forall i :: 0 <= i < |r| ==> '0' <= r[i] <= '9'
    ensures r[0] != '0' || n == 0
    decreases n
  {
    if n < 10 then [DigitChar(n)] else NatDigits(n / 10) + [DigitChar(n % 10)]
  }

  /** Different numbers are written differently. */
  lemma {:induction false} NatDigitsInjective(a: nat, b: nat)
    requires NatDigits(a) == NatDigits(b)
    ensures a == b
    decreases a
  {
    var da, db := NatDigits(a), NatDigits(b);
    if a >= 10 {
      assert b >= 10;
      assert da[|da| - 1] == DigitChar(a % 10) && db[|db| - 1] == DigitChar(b % 10);
      assert a % 10 == b % 10;
      assert da[..|da| - 1] == NatDigits(a / 10);
      assert db[..|db| - 1] == NatDigits(b / 10);
      NatDigitsInjective(a / 10, b / 10);
    } else {
      assert b < 10;
      assert da[0] == DigitChar(a) && db[0] == DigitChar(b);
    }
  }

  /** `String(n)` for an integer below 10^21 in magnitude (larger ones print in exponent form). */
  function IntToString(n: int): (r: string)
    ensures r != [] && (r[0] == '-' <==> n < 0)
  {
    if n < 0 then "-" + NatDigits(-n) else NatDigits(n)
  }

  lemma IntToStringInjective(a: int, b: int)
    requires IntToString(a) == IntToString(b)
    ensures a == b
  {
    if a < 0 {
      assert b < 0;
      assert NatDigits(-a) == IntToString(a)[1..] == IntToString(b)[1..] == NatDigits(-b);
      NatDigitsInjective(-a, -b);
    } else {
      assert b >= 0;
      NatDigitsInjective(a, b);
    }
  }

  /** `String(x)` for an identifier. */
  function IdToString(x: JsId): (r: string)
    ensures x.Str? ==> r == x.s
  {
    match x
    case Num(n) => IntToString(n)
    case Str(s) => s
  }
}
