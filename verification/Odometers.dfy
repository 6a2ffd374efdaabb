/** The digits of a reachable hierarchy are those of its rebuild count. */
module Odometers {
  import opened Arithmetic
  import opened Words
  import opened Doram
  import opened Invariants
  import opened Accessing

  lemma {:induction false} PowerAdd(amp: nat, a: nat, b: nat)
    ensures Power(amp, a + b) == Power(amp, a) * Power(amp, b)
  {
    if b > 0 {
      PowerAdd(amp, a, b - 1);
      Regroup(amp, Power(amp, a), Power(amp, b - 1));
    }
  }

  lemma Regroup(amp: nat, p: nat, q: nat)
    ensures amp * (p * q) == p * (amp * q)
  {
  }

  /** What the digits above `l` contribute is a multiple of the next power. */
  lemma {:induction false} HighPart(digits: seq<nat>, amp: nat, l: nat, b: nat) returns (h: nat)
    requires l < b <= |digits|
    ensures LowSum(digits, amp, b) == LowSum(digits, amp, l) + Power(amp, l) * (digits[l] + amp * h)
  {
    if b == l + 1 {
      h := 0;
    } else {
      var rest := HighPart(digits, amp, l, b - 1);
      var e: nat := b - 2 - l;
      hide *;
      PowerAdd(amp, l, e + 1);
      NextPower(amp, e);
      NextSum(digits, amp, b);
      h := OneDigitMore(LowSum(digits, amp, b), LowSum(digits, amp, b - 1), LowSum(digits, amp, l), Power(amp, l), digits[l], amp, rest,
                        digits[b - 1], Power(amp, b - 1), Power(amp, e + 1), Power(amp, e));
    }
  }

  lemma OneDigitMore(sum: nat, before: nat, low: nat, p: nat, d: nat, amp: nat, rest: nat, top: nat, last: nat, next: nat, q: nat) returns (h: nat)
    requires before == low + p * (d + amp * rest) && sum == before + top * last && last == p * next && next == amp * q
    ensures sum == low + p * (d + amp * h)
  {
    Joined(low, p, d, amp, rest, top, q);
    h := rest + top * q;
  }

  lemma NextPower(amp: nat, e: nat)
    ensures Power(amp, e + 1) == amp * Power(amp, e)
  {
  }

  lemma NextSum(digits: seq<nat>, amp: nat, b: nat)
    requires 0 < b <= |digits|
    ensures LowSum(digits, amp, b) == LowSum(digits, amp, b - 1) + digits[b - 1] * Power(amp, b - 1)
  {
  }

  lemma Joined(low: nat, p: nat, d: nat, amp: nat, rest: nat, top: nat, q: nat)
    ensures low + p * (d + amp * rest) + top * (p * (amp * q)) == low + p * (d + amp * (rest + top * q))
  {
    assert amp * (rest + top * q) == amp * rest + amp * (top * q);
    assert p * (d + amp * rest + amp * (top * q)) == p * (d + amp * rest) + p * (amp * (top * q));
    assert top * (p * (amp * q)) == p * (amp * (top * q)) by {
      assert top * (p * (amp * q)) == (top * p) * (amp * q);
      assert p * (amp * (top * q)) == p * ((amp * top) * q) == (p * (amp * top)) * q;
    }
  }

  lemma DigitArith(count: nat, low: nat, p: nat, d: nat, amp: nat, x: nat)
    requires p >= 1 && low < p && d < amp && count == low + p * (d + amp * x)
    ensures (count / p) % amp == d
  {
    QuotientIs(count, p, d + amp * x, low);
    QuotientIs(d + amp * x, amp, x, d);
  }

  /** Digit `l` below the bottom is digit `l`, in base `amp`, of the number of rebuilds since the hierarchy
      was created or last grown, and its level is live exactly when that digit is not 0. */
  lemma DigitsCountRebuilds(s: State, l: nat)
    requires Inv(s) && l < s.cfg.Bottom()
    ensures s.digits[l] == (s.rebuilds / Power(s.cfg.Amp(), l)) % s.cfg.Amp()
    ensures s.levels[l].Some? <==> s.digits[l] != 0
  {
    var amp, b := s.cfg.Amp(), s.cfg.Bottom();
    DigitFacts(s, l);
    hide *;
    var q, pb, low, pl, h, pr := Parts(s.digits, amp, l, b, s.rebuilds);
    Assembled(s.rebuilds, q, pb, low, pl, s.digits[l], amp, h, pr);
  }

  /** The count by its part below `l`, its digit, and the rest. */
  lemma Parts(digits: seq<nat>, amp: nat, l: nat, b: nat, count: nat) returns (q: nat, pb: nat, low: nat, pl: nat, h: nat, pr: nat)
    requires l < b <= |digits| && amp >= 1 && LowSum(digits, amp, b) == count % Power(amp, b)
    ensures low == LowSum(digits, amp, l) && pl == Power(amp, l)
    ensures pb == pl * (amp * pr) && count == q * pb + (low + pl * (digits[l] + amp * h))
  {
    hide Power, LowSum;
    pb, low, pl, pr := Power(amp, b), LowSum(digits, amp, l), Power(amp, l), Power(amp, b - l - 1);
    q := count / pb;
    h := HighPart(digits, amp, l, b);
    PowerAdd(amp, l, b - l);
    NextPower(amp, b - l - 1);
    Divided(count, pb);
  }

  lemma DigitFacts(s: State, l: nat)
    requires Inv(s) && l < s.cfg.Bottom()
    ensures s.cfg.Bottom() <= |s.digits| == |s.levels| && s.digits[l] < s.cfg.Amp() && (s.levels[l].Some? <==> s.digits[l] != 0)
    ensures LowSum(s.digits, s.cfg.Amp(), s.cfg.Bottom()) == s.rebuilds % Power(s.cfg.Amp(), s.cfg.Bottom())
    ensures LowSum(s.digits, s.cfg.Amp(), l) < Power(s.cfg.Amp(), l)
  {
    LowSumBound(s.cfg, s.digits, l);
    hide Power, LowSum;
  }

  lemma Assembled(count: nat, q: nat, pb: nat, low: nat, pl: nat, d: nat, amp: nat, h: nat, pr: nat)
    requires pb == pl * (amp * pr) && count == q * pb + (low + pl * (d + amp * h)) && low < pl && d < amp
    ensures (count / pl) % amp == d
  {
    Joined(low, pl, d, amp, h, q, pr);
    DigitArith(count, low, pl, d, amp, h + q * pr);
  }

  lemma Divided(a: nat, p: nat)
    requires p >= 1
    ensures a == (a / p) * p + a % p
  {
  }
}
