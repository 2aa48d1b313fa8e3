/** The JavaScript built-ins that the core relies on: `String.prototype.includes`
    and `startsWith`, the decimal `toString` of an integral number, `parseInt`
    with no radix on decimal text, and `Array.prototype.slice(0, n)` and `map`. */
module Js {
  import opened Gateway

  /** `sub` occurs in `s` starting at index `i`. */
  ghost predicate OccursAt(s: string, sub: string, i: int) {
    0 <= i && i + |sub| <= |s| && s[i..i + |sub|] == sub
  }

  /** `s.startsWith(p)`. */
  predicate StartsWith(s: string, p: string) {
    |p| <= |s| && s[..|p|] == p
  }

  /** `s.includes(sub)`: scans the start offsets from left to right. */
  function Includes(s: string, sub: string): (b: bool)
    ensures b <==> exists i :: OccursAt(s, sub, i)
    decreases |s|
  {
    if StartsWith(s, sub) then
      assert OccursAt(s, sub, 0);
      true
    else if |s| == 0 then
      false
    else
      var r := Includes(s[1..], sub);
      ShiftOccurrence(s, sub);
      r
  }

  lemma ShiftOccurrence(s: string, sub: string)
    requires |s| > 0 && !StartsWith(s, sub)
    ensures (exists i :: OccursAt(s, sub, i)) <==> (exists i :: OccursAt(s[1..], sub, i))
  {
    if exists i :: OccursAt(s, sub, i) {
      var i :| OccursAt(s, sub, i);
      assert i != 0;
      assert s[1..][i - 1..i - 1 + |sub|] == s[i..i + |sub|];
      assert OccursAt(s[1..], sub, i - 1);
    }
    if exists i :: OccursAt(s[1..], sub, i) {
      var i :| OccursAt(s[1..], sub, i);
      assert s[1..][i..i + |sub|] == s[i + 1..i + 1 + |sub|];
      assert OccursAt(s, sub, i + 1);
    }
  }

  /** An occurrence inside one part is an occurrence of the whole. */
  lemma IncludesInfix(a: string, sub: string, b: string)
    ensures Includes(a + sub + b, sub)
  {
    var s := a + sub + b;
    assert s[|a|..|a| + |sub|] == sub;
    assert OccursAt(s, sub, |a|);
  }

  predicate IsDigit(c: char) {
    '0' <= c <= '9'
  }

  function DigitChar(d: int): (c: char)
    requires 0 <= d < 10
    ensures IsDigit(c)
  {
    ('0' as int + d) as char
  }

  function DigitValue(c: char): (d: int)
    requires IsDigit(c)
    ensures 0 <= d < 10
  {
    c as int - '0' as int
  }

  /** The decimal digits of `n`, most significant first, with no leading zero. */
  function NatToDecimal(n: nat): (r: string)
    ensures |r| >= 1 && (forall i :: 0 <= i < |r| ==> IsDigit(r[i]))
    ensures r[0] == '0' ==> n == 0 && r == "0"
  {
    if n < 10 then [DigitChar(n)] else NatToDecimal(n / 10) + [DigitChar(n % 10)]
  }

  /** `String(n)` for an integral number `n` below 10^21 in magnitude. */
  function IntToDecimal(n: int): string {
    if n < 0 then "-" + NatToDecimal(-n) else NatToDecimal(n)
  }

  /** The value of a run of decimal digits. */
  function DigitsValue(s: string): nat
    requires forall i :: 0 <= i < |s| ==> IsDigit(s[i])
  {
    if |s| == 0 then 0 else DigitsValue(s[..|s| - 1]) * 10 + DigitValue(s[|s| - 1])
  }

  /** The length of the run of decimal digits at the start of `s`. */
  function DigitRun(s: string): (k: nat)
    ensures k <= |s|
    ensures forall i :: 0 <= i < k ==> IsDigit(s[i])
    ensures k < |s| ==> !IsDigit(s[k])
  {
    if |s| == 0 || !IsDigit(s[0]) then 0 else 1 + DigitRun(s[1..])
  }

  /** The value of the run of digits at the start of `s`; `None` when `s`
      does not start with a digit. */
  function LeadingDigits(s: string): Option<int> {
    var k := DigitRun(s);
    if k == 0 then None else Some(DigitsValue(s[..k]))
  }

  /** `parseInt(s)` on decimal text: an optional sign, then the longest run of
      digits; `None` stands for `NaN`, which is the result when no digit follows. */
  function ParseInt(s: string): Option<int> {
    if |s| > 0 && s[0] == '-' then
      match LeadingDigits(s[1..])
      case None => None
      case Some(m) => Some(-m)
    else if |s| > 0 && s[0] == '+' then LeadingDigits(s[1..])
    else LeadingDigits(s)
  }

  lemma {:induction false} DigitsValueOfDecimal(n: nat)
    ensures DigitsValue(NatToDecimal(n)) == n
  {
    var r := NatToDecimal(n);
    if n >= 10 {
      DigitsValueOfDecimal(n / 10);
      assert r[..|r| - 1] == NatToDecimal(n / 10);
    }
  }

  /** `parseInt(String(n)) === n`: the group-size selects store the number
      whose decimal text they offer, and the proxy can read the width back. */
  lemma ParseIntOfDecimal(n: int)
    ensures ParseInt(IntToDecimal(n)) == Some(n)
  {
    ParseIntOfDecimalThen(n, "");
    assert IntToDecimal(n) + "" == IntToDecimal(n);
  }

  /** `parseInt` stops at the first character after the number: an integer's
      text followed by anything that does not start with a digit still reads
      back as that integer. */
  lemma ParseIntOfDecimalThen(n: int, rest: string)
    requires |rest| == 0 || !IsDigit(rest[0])
    ensures ParseInt(IntToDecimal(n) + rest) == Some(n)
  {
    var text := IntToDecimal(n);
    if n < 0 {
      var digits := NatToDecimal(-n);
      assert text == "-" + digits;
      assert text + rest == "-" + (digits + rest);
      ParseNegativeDecimalThen(-n, rest);
    } else {
      assert text == NatToDecimal(n);
      ParsePositiveDecimalThen(n, rest);
    }
  }

  lemma ParsePositiveDecimalThen(m: nat, rest: string)
    requires |rest| == 0 || !IsDigit(rest[0])
    ensures ParseInt(NatToDecimal(m) + rest) == Some(m)
  {
    LeadingDigitsOfDecimal(m, rest);
  }

  lemma ParseNegativeDecimalThen(m: nat, rest: string)
    requires |rest| == 0 || !IsDigit(rest[0])
    ensures ParseInt("-" + (NatToDecimal(m) + rest)) == Some(-(m as int))
  {
    var body := NatToDecimal(m) + rest;
    LeadingDigitsOfDecimal(m, rest);
    var s := "-" + body;
    assert s[0] == '-' && s[1..] == body;
  }

  lemma LeadingDigitsOfDecimal(m: nat, rest: string)
    requires |rest| == 0 || !IsDigit(rest[0])
    ensures var body := NatToDecimal(m) + rest;
      |body| > 0 && IsDigit(body[0]) && LeadingDigits(body) == Some(m)
  {
    var digits := NatToDecimal(m);
    var body := digits + rest;
    DigitsValueOfDecimal(m);
    DigitRunAfter(digits, rest);
    assert body[..|digits|] == digits;
    assert body[0] == digits[0];
  }

  lemma {:induction false} DigitRunAfter(digits: string, rest: string)
    requires forall i :: 0 <= i < |digits| ==> IsDigit(digits[i])
    requires |rest| == 0 || !IsDigit(rest[0])
    ensures DigitRun(digits + rest) == |digits|
  {
    if |digits| > 0 {
      assert (digits + rest)[1..] == digits[1..] + rest;
      DigitRunAfter(digits[1..], rest);
    } else {
      assert digits + rest == rest;
    }
  }

  function Min(a: int, b: int): int {
    if a <= b then a else b
  }

  /** `s.slice(0, n)`: the first `n` elements, or all of them when there are fewer. */
  function Take<T>(s: seq<T>, n: nat): (r: seq<T>)
    ensures |r| == Min(n, |s|)
    ensures forall i :: 0 <= i < |r| ==> r[i] == s[i]
  {
    if |s| <= n then s else s[..n]
  }

  /** `s.map(f)`. */
  function Map<A, B>(s: seq<A>, f: A -> B): seq<B> {
    seq(|s|, i requires 0 <= i < |s| => f(s[i]))
  }

  /** Mapping keeps the order of the list: the results for `a + b` are those
      for `a` followed by those for `b`, and mapping commutes with taking a
      prefix. */
  lemma MapKeepsOrder<A, B>(a: seq<A>, b: seq<A>, f: A -> B, n: nat)
    ensures Map(a + b, f) == Map(a, f) + Map(b, f)
    ensures Map(Take(a, n), f) == Take(Map(a, f), n)
  {
    var ab, ma, mb := Map(a + b, f), Map(a, f), Map(b, f);
    assert |ab| == |ma + mb|;
    forall i | 0 <= i < |ab| ensures ab[i] == (ma + mb)[i] {
      if i < |a| {
        assert (a + b)[i] == a[i];
      } else {
        assert (a + b)[i] == b[i - |a|];
      }
    }
  }
}
