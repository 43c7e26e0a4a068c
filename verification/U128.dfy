/** The operations on `u128` that the replay bitmap uses, on integers below 2^128.
    `TestBit`, `ShiftLeft` and `SetBit` stand for `b & (1 << k) != 0`, `b << s` and
    `b | (1 << k)`; the lemmas say how they act bit by bit. */
module U128 {

  const BITS: nat := 128

  type u128 = n: nat | n < Pow2(BITS) witness (assert Pow2(BITS) > 0; 0)

  function Pow2(k: nat): (r: nat)
    ensures r > 0
  {
    if k == 0 then 1 else 2 * Pow2(k - 1)
  }

  predicate TestBit(b: nat, k: nat) {
    if k == 0 then b % 2 == 1 else TestBit(b / 2, k - 1)
  }

  /** The low `n` bits of `b`. */
  function LowBits(b: nat, n: nat): (r: nat)
    ensures r < Pow2(n)
  {
    if n == 0 then 0 else b % 2 + 2 * LowBits(b / 2, n - 1)
  }

  /** Bits shifted past position 127 are lost, as in `u128 << s`. */
  function ShiftLeft(b: u128, s: nat): u128
    requires s < BITS
  {
    LowBits(b * Pow2(s), BITS)
  }

  function SetBit(b: u128, k: nat): u128
    requires k < BITS
  {
    if TestBit(b, k) then
      b
    else
      AddBitInRange(b, BITS, k);
      b + Pow2(k)
  }

  lemma {:induction false} ScaleBit(b: nat, s: nat, k: nat)
    ensures TestBit(b * Pow2(s), k) <==> s <= k && TestBit(b, k - s)
  {
    if s > 0 {
      assert b * Pow2(s) == 2 * (b * Pow2(s - 1));
      if k > 0 {
        ScaleBit(b, s - 1, k - 1);
      }
    } else {
      assert b * Pow2(0) == b;
    }
  }

  lemma {:induction false} LowBitsBit(b: nat, n: nat, k: nat)
    requires k < n
    ensures TestBit(LowBits(b, n), k) <==> TestBit(b, k)
  {
    if k > 0 {
      LowBitsBit(b / 2, n - 1, k - 1);
    }
  }

  lemma {:induction false} AddBit(b: nat, d: nat, k: nat)
    requires !TestBit(b, d)
    ensures TestBit(b + Pow2(d), k) <==> k == d || TestBit(b, k)
  {
    if d > 0 {
      assert b + Pow2(d) == b + 2 * Pow2(d - 1);
      assert (b + Pow2(d)) / 2 == b / 2 + Pow2(d - 1);
      if k > 0 {
        AddBit(b / 2, d - 1, k - 1);
      }
    }
  }

  lemma {:induction false} AddBitInRange(b: nat, n: nat, d: nat)
    requires d < n && b < Pow2(n) && !TestBit(b, d)
    ensures b + Pow2(d) < Pow2(n)
  {
    var half := Pow2(n - 1);
    assert Pow2(n) == 2 * half;
    assert b / 2 < half;
    if d > 0 {
      AddBitInRange(b / 2, n - 1, d - 1);
    }
  }

  /** `(b << s)` moves every surviving bit up by `s` and clears the low `s` bits. */
  lemma ShiftLeftBit(b: u128, s: nat, k: nat)
    requires s < BITS && k < BITS
    ensures TestBit(ShiftLeft(b, s), k) <==> s <= k && TestBit(b, k - s)
  {
    LowBitsBit(b * Pow2(s), BITS, k);
    ScaleBit(b, s, k);
  }

  /** `b | (1 << d)` sets bit `d` and leaves the others alone. */
  lemma SetBitBit(b: u128, d: nat, k: nat)
    requires d < BITS && k < BITS
    ensures TestBit(SetBit(b, d), k) <==> k == d || TestBit(b, k)
  {
    if !TestBit(b, d) {
      AddBit(b, d, k);
    }
  }

  lemma {:induction false} ZeroBit(k: nat)
    ensures !TestBit(0, k)
  {
    if k > 0 {
      ZeroBit(k - 1);
    }
  }
}
