/** Base-36 numerals as JavaScript's `Number.prototype.toString(36)` writes
    them for non-negative integers (digits `0-9a-z`, no leading zeros), and the
    fixed-width, zero-padded suffix the request-id generators build from them. */
module Base36 {

  /** Number of characters in a request-id suffix. */
  const Width: nat := 10

  predicate IsDigit(ch: char)
  {
    '0' <= ch <= '9' || 'a' <= ch <= 'z'
  }

  predicate AllDigits(s: string)
  {
    forall i :: 0 <= i < |s| ==> IsDigit(s[i])
  }

  function Digit(d: nat): (ch: char)
    requires d < 36
    ensures IsDigit(ch)
  {
    if d < 10 then ('0' as int + d) as char else ('a' as int + d - 10) as char
  }

  function DigitValue(ch: char): (d: nat)
    requires IsDigit(ch)
    ensures d < 36 && Digit(d) == ch
  {
    if ch <= '9' then ch as int - '0' as int else ch as int - 'a' as int + 10
  }

  function Pow36(k: nat): (p: nat)
    ensures p >= 1
  {
    if k == 0 then 1 else 36 * Pow36(k - 1)
  }

  /** `n.toString(36)`. */
  function ToBase36(n: nat): (s: string)
    ensures |s| >= 1 && AllDigits(s)
  {
    if n < 36 then [Digit(n)] else ToBase36(n / 36) + [Digit(n % 36)]
  }

  /** The value of a base-36 numeral; leading zeros are allowed. */
  function FromBase36(s: string): nat
    requires AllDigits(s)
  {
    if |s| == 0 then 0 else FromBase36(s[..|s| - 1]) * 36 + DigitValue(s[|s| - 1])
  }

  function Zeros(k: nat): (s: string)
    ensures |s| == k && AllDigits(s)
    ensures forall i :: 0 <= i < k ==> s[i] == '0'
  {
    if k == 0 then "" else Zeros(k - 1) + "0"
  }

  /** `s.slice(-k)`: the last `k` characters, or all of them when there are fewer. */
  function Last(s: string, k: nat): (r: string)
    ensures |r| == if |s| <= k then |s| else k
  {
    if |s| <= k then s else s[|s| - k..]
  }

  /** `('0000000000' + n.toString(36)).slice(-10)`. */
  function Suffix(n: nat): (r: string)
    ensures |r| == Width && AllDigits(r)
  {
    Last(Zeros(Width) + ToBase36(n), Width)
  }

  /** Reading back what `toString(36)` writes gives the number. */
  lemma {:induction false} FromToBase36(n: nat)
    ensures FromBase36(ToBase36(n)) == n
  {
    if n >= 36 {
      FromToBase36(n / 36);
      var s := ToBase36(n);
      assert s[..|s| - 1] == ToBase36(n / 36);
    }
  }

  /** Leading zeros do not change the value of a numeral. */
  lemma {:induction false} LeadingZeros(k: nat, s: string)
    requires AllDigits(s)
    ensures FromBase36(Zeros(k) + s) == FromBase36(s)
    decreases |s|
  {
    if |s| == 0 {
      assert Zeros(k) + s == Zeros(k);
      ZerosValue(Zeros(k));
    } else {
      var t := Zeros(k) + s;
      assert t[..|t| - 1] == Zeros(k) + s[..|s| - 1];
      LeadingZeros(k, s[..|s| - 1]);
    }
  }

  /** A numeral made only of `0` digits has value zero. */
  lemma {:induction false} ZerosValue(s: string)
    requires forall i :: 0 <= i < |s| ==> s[i] == '0'
    ensures AllDigits(s) && FromBase36(s) == 0
    decreases |s|
  {
    if |s| > 0 {
      var init := s[..|s| - 1];
      assert forall i :: 0 <= i < |init| ==> init[i] == s[i];
      ZerosValue(init);
    }
  }

  /** A number below 36^k takes at most k digits. */
  lemma {:induction false} ToBase36Length(n: nat, k: nat)
    requires 1 <= k && n < Pow36(k)
    ensures |ToBase36(n)| <= k
  {
    if n >= 36 {
      assert k >= 2;
      assert n / 36 < Pow36(k - 1);
      ToBase36Length(n / 36, k - 1);
    }
  }

  /** Every counter value up to 36^10 - 1 fits the suffix without truncation:
      the suffix reads back as the counter. */
  lemma SuffixDecodes(n: nat)
    requires n < Pow36(Width)
    ensures FromBase36(Suffix(n)) == n
  {
    var b := ToBase36(n);
    ToBase36Length(n, Width);
    var z := Zeros(Width) + b;
    assert Suffix(n) == z[|b|..];
    assert z[|b|..] == Zeros(Width - |b|) + b;
    LeadingZeros(Width - |b|, b);
    FromToBase36(n);
  }

  /** Distinct counter values give distinct suffixes. */
  lemma SuffixInjective(m: nat, n: nat)
    requires m < Pow36(Width) && n < Pow36(Width)
    requires Suffix(m) == Suffix(n)
    ensures m == n
  {
    SuffixDecodes(m);
    SuffixDecodes(n);
  }
}
