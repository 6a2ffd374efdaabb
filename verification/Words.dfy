/** Machine words as naturals: powers of two, single bits, bitwise exclusive or. */
module Words {

  datatype Option<+T> = None | Some(value: T)
  {
    predicate IsFailure() { None? }
    function PropagateFailure<U>(): Option<U> requires None? { None }
    function Extract(): T requires Some? { value }
  }

  function Pow2(n: nat): (r: nat)
    ensures r >= 1
  {
    if n == 0 then 1 else 2 * Pow2(n - 1)
  }

  lemma {:induction false} Pow2Add(a: nat, b: nat)
    ensures Pow2(a + b) == Pow2(a) * Pow2(b)
  {
    if b > 0 { Pow2Add(a, b - 1); }
  }

  lemma {:induction false} Pow2Mono(a: nat, b: nat)
    requires a <= b
    ensures Pow2(a) <= Pow2(b)
  {
    if a < b { Pow2Mono(a, b - 1); }
  }

  // 128-bit blocks: a 96-bit tag above a 32-bit index.

  const TWO32: nat := 0x1_0000_0000
  const TWO64: nat := 0x1_0000_0000_0000_0000
  const TWO96: nat := 0x1_0000_0000_0000_0000_0000_0000

  function LowU32(block: nat): nat { block % TWO32 }

  function SetLowU32(block: nat, low: nat): nat { block - block % TWO32 + low }

  function TagOf(block: nat): nat { block / TWO32 }

  lemma SetLowParts(block: nat, low: nat)
    requires low < TWO32
    ensures TagOf(SetLowU32(block, low)) == TagOf(block) && LowU32(SetLowU32(block, low)) == low
    ensures SetLowU32(block, low) / TWO64 == block / TWO64
    ensures SetLowU32(block, low) / TWO96 == block / TWO96
  {
    var q, r := block / TWO32, block % TWO32;
    var s := SetLowU32(block, low);
    assert block == q * TWO32 + r && s == q * TWO32 + low;
    LowPart(q, low);
    HighParts(block, q);
    HighParts(s, q);
  }

  lemma LowPart(q: nat, low: nat)
    requires low < TWO32
    ensures (q * TWO32 + low) / TWO32 == q && (q * TWO32 + low) % TWO32 == low
  {
  }

  lemma HighParts(x: nat, q: nat)
    requires x / TWO32 == q
    ensures x / TWO64 == q / TWO32 && x / TWO96 == q / TWO64
  {
  }

  /** Bitwise exclusive or. */
  function Xor(a: nat, b: nat): (r: nat)
    ensures a == 0 ==> r == b
    ensures b == 0 ==> r == a
    decreases a + b
  {
    if a == 0 && b == 0 then 0 else 2 * Xor(a / 2, b / 2) + (a % 2 + b % 2) % 2
  }

  lemma {:induction false} XorSelf(a: nat)
    ensures Xor(a, a) == 0
  {
    if a > 0 { XorSelf(a / 2); }
  }

  lemma {:induction false} XorComm(a: nat, b: nat)
    ensures Xor(a, b) == Xor(b, a)
    decreases a + b
  {
    if a + b > 0 { XorComm(a / 2, b / 2); }
  }

  lemma XorHalves(a: nat, b: nat)
    ensures Xor(a, b) / 2 == Xor(a / 2, b / 2) && Xor(a, b) % 2 == (a % 2 + b % 2) % 2
  {
  }

  lemma {:induction false} XorAssoc(a: nat, b: nat, c: nat)
    ensures Xor(Xor(a, b), c) == Xor(a, Xor(b, c))
    decreases a + b + c
  {
    hide Xor;
    if a > 0 && b > 0 && c > 0 {
      XorAssoc(a / 2, b / 2, c / 2);
      XorHalves(a, b);
      XorHalves(b, c);
      XorHalves(Xor(a, b), c);
      XorHalves(a, Xor(b, c));
      Parity(a % 2, b % 2, c % 2);
      Halves(Xor(Xor(a, b), c), Xor(a, Xor(b, c)));
    }
  }

  lemma Parity(a: nat, b: nat, c: nat)
    requires a < 2 && b < 2 && c < 2
    ensures ((a + b) % 2 + c) % 2 == (a + (b + c) % 2) % 2
  {
  }

  lemma Halves(x: nat, y: nat)
    requires x / 2 == y / 2 && x % 2 == y % 2
    ensures x == y
  {
  }

  /** Adding the same word twice changes nothing. */
  lemma XorCancel(a: nat, b: nat)
    ensures Xor(a, Xor(a, b)) == b
  {
    XorAssoc(a, a, b);
    XorSelf(a);
  }
}
