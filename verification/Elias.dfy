/** Elias delta codes as bit strings: the code of each positive integer, the parser, and the two
    directions of the round trip. */
module Elias {
  import opened Options
  import opened Arithmetic
  import opened Bits

  function Zeros(z: nat): (r: seq<bool>)
    ensures |r| == z
  {
    seq(z, _ => false)
  }

  /** The code of `x`: as many zeros as the length of its length needs further bits, then its
      length, then `x` without its leading one. */
  function Code(x: nat): seq<bool>
    requires x > 0
  {
    var len := BitLen(x);
    var more := BitLen(len) - 1;
    Zeros(more) + Low(len, more + 1) + Low(x, len - 1)
  }

  ghost predicate Positive(xs: seq<nat>) {
    forall i :: 0 <= i < |xs| ==> xs[i] > 0
  }

  /** The codes of the numbers from position `i` on. */
  ghost function CodeFrom(xs: seq<nat>, i: nat): seq<bool>
    requires Positive(xs) && i <= |xs|
    decreases |xs| - i
  {
    if i == |xs| then [] else Code(xs[i]) + CodeFrom(xs, i + 1)
  }

  /** The number of zeros from position `i` to the next one, or to the end. */
  function ZerosFrom(s: seq<bool>, i: nat): (z: nat)
    requires i <= |s|
    ensures i + z <= |s|
    decreases |s| - i
  {
    if i == |s| || s[i] then 0 else 1 + ZerosFrom(s, i + 1)
  }

  /** The number got from `v` by shifting in the bits from `lo` to `hi`. */
  function Read(v: nat, s: seq<bool>, lo: nat, hi: nat): nat
    requires lo <= hi <= |s|
  {
    if lo == hi then v else 2 * Read(v, s, lo, hi - 1) + Bit(s[hi - 1])
  }

  /** The number whose code starts at position `i`, and the position behind the code; nothing when
      the input ends too early. */
  function Parse(s: seq<bool>, i: nat): (r: Option<(nat, nat)>)
    requires i <= |s|
    ensures r.Some? ==> r.value.1 <= |s|
  {
    var z := ZerosFrom(s, i);
    if |s| < i + z + z + 1 then None else ParseNumber(s, i + z + z + 1, Read(1, s, i + z + 1, i + z + z + 1))
  }

  /** The last part of a code: the low bits of a number of `len` bits. */
  function ParseNumber(s: seq<bool>, k: nat, len: nat): (r: Option<(nat, nat)>)
    requires k <= |s|
    ensures r.Some? ==> r.value.1 <= |s|
  {
    if len == 0 || |s| < k + len - 1 then None else Some((Read(1, s, k, k + len - 1), k + len - 1))
  }

  lemma {:induction false} ZerosExact(s: seq<bool>, i: nat)
    requires i <= |s|
    ensures var z := ZerosFrom(s, i); (i + z < |s| ==> s[i + z]) && forall j :: i <= j < i + z ==> !s[j]
    decreases |s| - i
  {
    if i < |s| && !s[i] {
      ZerosExact(s, i + 1);
    }
  }

  lemma {:induction false} ReadIsAppend(v: nat, s: seq<bool>, lo: nat, hi: nat)
    requires lo <= hi <= |s|
    ensures Read(v, s, lo, hi) == Append(v, s[lo..hi])
  {
    if lo < hi {
      ReadIsAppend(v, s, lo, hi - 1);
      assert s[lo..hi][..hi - lo - 1] == s[lo..hi - 1];
    }
  }

  lemma LowOfLen(len: nat)
    requires len > 0
    ensures Low(len, BitLen(len)) == [true] + Low(len, BitLen(len) - 1)
  {
    var more := BitLen(len) - 1;
    LowHead(len, more + 1);
    LeadingOne(len);
    AppendLow(1, len, more);
    DivExact(1, Pow2(more), len % Pow2(more));
  }

  /** The parts of a code at position `i`. */
  ghost predicate CodeAt(s: seq<bool>, i: nat, z: nat, high: seq<bool>, low: seq<bool>) {
    && i + z + z + 1 + |low| <= |s| && |high| == z
    && (forall j :: i <= j < i + z ==> !s[j]) && s[i + z]
    && s[i + z + 1..i + z + z + 1] == high && s[i + z + z + 1..i + z + z + 1 + |low|] == low
  }

  lemma ZerosAt(s: seq<bool>, i: nat, z: nat)
    requires i + z < |s| && s[i + z] && forall j :: i <= j < i + z ==> !s[j]
    ensures ZerosFrom(s, i) == z
  {
    ZerosExact(s, i);
  }

  lemma ParsePieces(s: seq<bool>, i: nat, z: nat, high: seq<bool>, low: seq<bool>)
    requires CodeAt(s, i, z, high, low) && WithOne(high) == |low| + 1
    ensures Parse(s, i) == Some((WithOne(low), i + z + z + 1 + |low|))
  {
    ZerosAt(s, i, z);
    ReadIsAppend(1, s, i + z + 1, i + z + z + 1);
    ReadIsAppend(1, s, i + z + z + 1, i + z + z + 1 + |low|);
  }

  lemma CodeShape(x: nat) returns (z: nat, high: seq<bool>, low: seq<bool>)
    requires x > 0
    ensures |high| == z && Code(x) == Zeros(z) + ([true] + high) + low
    ensures WithOne(high) == |low| + 1 && WithOne(low) == x
  {
    var len := BitLen(x);
    z := BitLen(len) - 1;
    high, low := Low(len, z), Low(x, len - 1);
    LowOfLen(len);
    LeadingOne(len);
    LeadingOne(x);
  }

  lemma CodeSplits(s: seq<bool>, i: nat, z: nat, high: seq<bool>, low: seq<bool>)
    requires i + z + z + 1 + |low| <= |s| && |high| == z
    ensures CodeAt(s, i, z, high, low) <==> s[i..i + z + z + 1 + |low|] == Zeros(z) + ([true] + high) + low
  {
    var n := z + z + 1 + |low|;
    var code := Zeros(z) + ([true] + high) + low;
    if s[i..i + n] == code {
      assert forall j :: i <= j < i + n ==> s[j] == code[j - i];
    }
  }

  /** Parsing a code, wherever it stands and whatever follows it, gives back the number and takes
      exactly the code. */
  lemma ParseCode(s: seq<bool>, i: nat, x: nat)
    requires x > 0 && i + |Code(x)| <= |s| && s[i..i + |Code(x)|] == Code(x)
    ensures Parse(s, i) == Some((x, i + |Code(x)|))
  {
    var z, high, low := CodeShape(x);
    CodeSplits(s, i, z, high, low);
    ParsePieces(s, i, z, high, low);
  }

  lemma ParsedPieces(s: seq<bool>, i: nat) returns (z: nat, high: seq<bool>, low: seq<bool>)
    requires i <= |s| && Parse(s, i).Some?
    ensures CodeAt(s, i, z, high, low) && WithOne(high) == |low| + 1
    ensures Parse(s, i) == Some((WithOne(low), i + z + z + 1 + |low|))
  {
    z := ZerosFrom(s, i);
    ZerosExact(s, i);
    var k := i + z + z + 1;
    high := s[i + z + 1..k];
    ReadIsAppend(1, s, i + z + 1, k);
    LenOfAppend(high);
    low := s[k..k + WithOne(high) - 1];
    ReadIsAppend(1, s, k, k + WithOne(high) - 1);
  }

  /** Conversely, whatever the parser accepts is the code of what it returns. */
  lemma CodeParse(s: seq<bool>, i: nat)
    requires i <= |s| && Parse(s, i).Some?
    ensures var (x, n) := Parse(s, i).value; x > 0 && i <= n && Code(x) == s[i..n]
  {
    var z, high, low := ParsedPieces(s, i);
    CodeOfPieces(z, high, low);
    CodeSplits(s, i, z, high, low);
  }

  lemma CodeOfPieces(z: nat, high: seq<bool>, low: seq<bool>)
    requires |high| == z && WithOne(high) == |low| + 1
    ensures Code(WithOne(low)) == Zeros(z) + ([true] + high) + low
  {
    LenOfAppend(high);
    LenOfAppend(low);
    LowAppend(1, high);
    LowAppend(1, low);
    LowOfLen(WithOne(high));
  }

  /** No code is a prefix of another one, so a stream of codes has only one reading. */
  lemma PrefixFree(x: nat, y: nat)
    requires x > 0 && y > 0 && Code(x) <= Code(y)
    ensures x == y
  {
    ParseCode(Code(y), 0, x);
    ParseCode(Code(y), 0, y);
  }
}
