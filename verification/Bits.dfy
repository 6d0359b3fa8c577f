/** Numbers as bit strings, most significant bit first. */
module Bits {
  import opened Arithmetic

  function Pow2(k: nat): (r: nat)
    ensures r > 0
  {
    if k == 0 then 1 else 2 * Pow2(k - 1)
  }

  function Bit(b: bool): (r: nat)
    ensures r < 2
  {
    if b then 1 else 0
  }

  /** The number got from `v` by shifting in `bits`. */
  function Append(v: nat, bits: seq<bool>): nat {
    if bits == [] then v else 2 * Append(v, bits[..|bits| - 1]) + Bit(bits[|bits| - 1])
  }

  /** The low `k` bits of `v`. */
  function Low(v: nat, k: nat): (r: seq<bool>)
    ensures |r| == k
  {
    if k == 0 then [] else Low(v / 2, k - 1) + [v % 2 == 1]
  }

  /** The number of bits of a positive number. */
  function BitLen(v: nat): (r: nat)
    requires v > 0
    ensures r > 0
  {
    if v == 1 then 1 else 1 + BitLen(v / 2)
  }

  lemma HalfPow(v: nat, k: nat)
    requires k > 0
    ensures v % Pow2(k) == 2 * ((v / 2) % Pow2(k - 1)) + v % 2
  {
    var h, p := v / 2, Pow2(k - 1);
    DivMod(h, p);
    assert v == 2 * h + v % 2;
    assert h / p * Pow2(k) == 2 * (h / p * p);
    DivExact(h / p, Pow2(k), 2 * (h % p) + v % 2);
  }

  lemma DoubleMul(v: nat, p: nat)
    ensures v * (2 * p) == 2 * (v * p)
  {
  }

  lemma {:induction false} AppendLow(v: nat, x: nat, k: nat)
    ensures Append(v, Low(x, k)) == v * Pow2(k) + x % Pow2(k)
  {
    if k > 0 {
      AppendLow(v, x / 2, k - 1);
      HalfPow(x, k);
      assert Low(x, k)[..k - 1] == Low(x / 2, k - 1);
      DoubleMul(v, Pow2(k - 1));
    }
  }

  lemma {:induction false} LowAppend(v: nat, bits: seq<bool>)
    ensures Low(Append(v, bits), |bits|) == bits
  {
    if bits != [] {
      LowAppend(v, bits[..|bits| - 1]);
    }
  }

  /** A positive number is its leading one followed by its low bits. */
  lemma {:induction false} LeadingOne(x: nat)
    requires x > 0
    ensures Append(1, Low(x, BitLen(x) - 1)) == x
  {
    if x > 1 {
      LeadingOne(x / 2);
      var k := BitLen(x) - 1;
      assert Low(x, k)[..k - 1] == Low(x / 2, k - 1);
    }
  }

  lemma {:induction false} LenOfAppend(bits: seq<bool>)
    ensures Append(1, bits) > 0 && BitLen(Append(1, bits)) == |bits| + 1
  {
    if bits != [] {
      LenOfAppend(bits[..|bits| - 1]);
    }
  }

  /** The number written as a one followed by `bits`. */
  function WithOne(bits: seq<bool>): (r: nat)
    ensures r > 0
  {
    LenOfAppend(bits);
    Append(1, bits)
  }

  /** `v` shifted right by `i` bits. */
  function Shifted(v: nat, i: nat): nat {
    Quotient(v, Pow2(i))
  }

  lemma ShiftOne(v: nat, i: nat)
    ensures Shifted(v, i) / 2 == Shifted(v, i + 1)
  {
    DivTwice(v, Pow2(i), 2);
  }

  /** The highest of the low `k` bits. */
  lemma {:induction false} LowHead(v: nat, k: nat)
    requires k > 0
    ensures Low(v, k) == [Shifted(v, k - 1) % 2 == 1] + Low(v, k - 1)
  {
    if k > 1 {
      LowHead(v / 2, k - 1);
      DivTwice(v, 2, Pow2(k - 2));
    }
  }

  /** Only the low bits matter. */
  lemma {:induction false} LowMod(v: nat, k: nat)
    ensures Low(v % Pow2(k), k) == Low(v, k)
  {
    if k > 0 {
      HalfPow(v, k);
      LowMod(v / 2, k - 1);
    }
  }
}
