/** Writing bits into packed words and reading them back. */
module BitStreams {
  import opened Arithmetic
  import opened Bits
  import opened Elias

  // ---- words and the bits in them ----

  function Unpack(words: seq<nat>, width: nat): (r: seq<bool>) {
    if words == [] then [] else Low(words[0], width) + Unpack(words[1..], width)
  }

  /** The number of bits in `blocks` words. */
  function Span(blocks: nat, width: nat): nat {
    if blocks == 0 then 0 else Span(blocks - 1, width) + width
  }

  lemma {:induction false} SpanIsProduct(blocks: nat, width: nat)
    ensures Span(blocks, width) == blocks * width
  {
    if blocks > 0 {
      SpanIsProduct(blocks - 1, width);
    }
  }

  lemma {:induction false} UnpackLength(words: seq<nat>, width: nat)
    ensures |Unpack(words, width)| == Span(|words|, width)
  {
    if words != [] {
      UnpackLength(words[1..], width);
    }
  }

  lemma Associates(a: seq<bool>, b: seq<bool>, c: seq<bool>)
    ensures (a + b) + c == a + (b + c)
  {
  }

  lemma {:induction false} UnpackConcat(a: seq<nat>, b: seq<nat>, width: nat)
    ensures Unpack(a + b, width) == Unpack(a, width) + Unpack(b, width)
  {
    if a == [] {
      assert a + b == b;
    } else {
      UnpackConcat(a[1..], b, width);
      assert (a + b)[1..] == a[1..] + b;
      Associates(Low(a[0], width), Unpack(a[1..], width), Unpack(b, width));
    }
  }

  lemma UnpackSnoc(words: seq<nat>, w: nat, width: nat)
    ensures Unpack(words + [w], width) == Unpack(words, width) + Low(w, width)
  {
    UnpackConcat(words, [w], width);
    assert [w][1..] == [];
    assert Unpack([w], width) == Low(w, width);
  }

  /** Bit `j` of word `b` in the unpacked stream. */
  lemma UnpackAt(words: seq<nat>, width: nat, b: nat, j: nat)
    requires b < |words| && j < width
    ensures Span(b, width) + j < |Unpack(words, width)|
    ensures Unpack(words, width)[Span(b, width) + j] == Low(words[b], width)[j]
  {
    assert words == words[..b] + words[b..];
    UnpackConcat(words[..b], words[b..], width);
    UnpackLength(words[..b], width);
  }

  /** The bit that shifting by `k` brings to the lowest place. */
  lemma LowAt(v: nat, w: nat, k: nat)
    requires k < w
    ensures Low(v, w)[w - 1 - k] == (Shifted(v, k) % 2 == 1)
  {
    LowSuffix(v, w, k + 1);
    LowHead(v, k + 1);
    assert Low(v, w)[w - 1 - k] == Low(v, w)[w - 1 - k..][0];
  }

  lemma {:induction false} LowSuffix(v: nat, w: nat, k: nat)
    requires k <= w
    ensures Low(v, w)[w - k..] == Low(v, k)
  {
    if k > 0 {
      LowSuffix(v / 2, w - 1, k - 1);
    }
  }

  /** What a word of `w` bits drops from a larger number is not seen in its low `k` bits. */
  lemma LowOfWord(v: nat, w: nat, k: nat)
    requires k <= w
    ensures Low(v % Pow2(w), k) == Low(v, k)
  {
    LowMod(v, w);
    LowSuffix(v % Pow2(w), w, k);
    LowSuffix(v, w, k);
  }

  lemma ShiftIn(accum: nat, w: nat, b: bool, k: nat)
    requires k < w
    ensures 2 * accum % Pow2(w) + Bit(b) == (2 * accum + Bit(b)) % Pow2(w)
    ensures Low(2 * accum % Pow2(w) + Bit(b), k + 1) == Low(accum, k) + [b]
  {
    var v := 2 * accum + Bit(b);
    HalfPow(v, w);
    HalfPow(2 * accum, w);
    assert v / 2 == accum && v % 2 == Bit(b);
    LowOfWord(v, w, k + 1);
  }

  lemma {:induction false} LowShift(a: nat, k: nat, pad: nat)
    ensures Low(a * Pow2(pad), k + pad) == Low(a, k) + Zeros(pad)
  {
    if pad > 0 {
      LowShift(a, k, pad - 1);
      DoubleMul(a, Pow2(pad - 1));
      assert Zeros(pad) == Zeros(pad - 1) + [false];
    }
  }

  lemma PadWord(accum: nat, w: nat, k: nat)
    requires k <= w
    ensures Low(accum * Pow2(w - k) % Pow2(w), w) == Low(accum, k) + Zeros(w - k)
  {
    LowOfWord(accum * Pow2(w - k), w, w);
    LowShift(accum, k, w - k);
  }

  // ---- the writer ----

  class BitWriter {
    const width: nat
    const data: array<nat>
    var accum: nat
    var usedBits: nat
    var blocks: nat

    ghost predicate Valid()
      reads this
    {
      usedBits < width && accum < Pow2(width) && blocks <= data.Length
    }

    /** The bits put so far, `Bits()` of them. Of `accum` only the low `usedBits` bits count: the higher ones are
        left over from earlier words. */
    ghost function Written(): (s: seq<bool>)
      requires Valid()
      reads this, data
    {
      Unpack(data[..blocks], width) + Low(accum, usedBits)
    }

    /** There is room for `n` more bits. */
    ghost predicate Room(n: nat)
      requires Valid()
      reads this, data
    {
      |Written()| + n <= Span(data.Length, width)
    }

    constructor (width: nat, data: array<nat>)
      requires width > 0
      ensures Valid() && this.width == width && this.data == data && Written() == []
    {
      this.width, this.data := width, data;
      accum, usedBits, blocks := 0, 0, 0;
    }

    function Bits(): nat
      reads this
    {
      Span(blocks, width) + usedBits
    }

    lemma BitsAreWritten()
      requires Valid()
      ensures |Written()| == Bits()
    {
      UnpackLength(data[..blocks], width);
    }

    lemma RoomForOne()
      requires Valid() && Room(1)
      ensures blocks < data.Length
    {
      BitsAreWritten();
    }

    method Put(x: bool)
      requires Valid() && Room(1)
      modifies this, data
      ensures Valid() && Written() == old(Written()) + [x]
    {
      RoomForOne();
      ShiftIn(accum, width, x, usedBits);
      ghost var before := data[..blocks];
      accum := 2 * accum % Pow2(width) + Bit(x);
      usedBits := usedBits + 1;
      if usedBits == width {
        UnpackSnoc(before, accum, width);
        data[blocks] := accum;
        assert data[..blocks + 1] == before + [accum];
        blocks := blocks + 1;
        usedBits := 0;
      }
    }

    /** Stores the last, incomplete word, filled up with zeros. Nothing can be put after that. */
    method Flush()
      requires Valid() && Room(0)
      modifies this, data
      ensures Bits() == old(Bits()) && Blocks() <= data.Length
      ensures exists pad :: 0 <= pad < width && Unpack(data[..Blocks()], width) == old(Written()) + Zeros(pad)
    {
      BlocksRoom();
      ghost var before := data[..blocks];
      if usedBits > 0 {
        PadWord(accum, width, usedBits);
        accum := accum * Pow2(width - usedBits) % Pow2(width);
        data[blocks] := accum;
        UnpackSnoc(before, accum, width);
        assert data[..blocks + 1] == before + [accum];
        assert Unpack(data[..Blocks()], width) == old(Written()) + Zeros(width - usedBits);
      } else {
        assert Unpack(data[..Blocks()], width) == old(Written()) + Zeros(0);
      }
    }

    /** The number of words used, counting an incomplete one. */
    function Blocks(): nat
      requires width > 0
      reads this
    {
      (Bits() + width - 1) / width
    }

    lemma BlocksRoom()
      requires Valid() && Room(0)
      ensures Blocks() == if usedBits == 0 then blocks else blocks + 1
      ensures Blocks() <= data.Length
    {
      BitsAreWritten();
      SpanIsProduct(blocks, width);
      if usedBits == 0 {
        DivExact(blocks, width, width - 1);
      } else {
        assert (blocks + 1) * width == blocks * width + width;
        DivExact(blocks + 1, width, usedBits - 1);
      }
    }
  }

  // ---- the reader ----

  class BitReader {
    const width: nat
    const data: array<nat>
    var accum: nat
    var usedBits: nat
    var blocks: nat

    ghost predicate Valid()
      reads this, data
    {
      && 0 < width && usedBits < width && blocks <= data.Length
      && (usedBits > 0 ==> blocks > 0 && accum == data[blocks - 1])
    }

    /** All bits of the words. */
    ghost function Stream(): (s: seq<bool>)
      reads data
    {
      Unpack(data[..], width)
    }

    constructor (width: nat, data: array<nat>)
      requires width > 0
      ensures Valid() && this.width == width && this.data == data && Bits() == 0
    {
      this.width, this.data := width, data;
      accum, usedBits, blocks := 0, 0, 0;
    }

    /** The number of bits read so far: the position in the stream. */
    function Bits(): nat
      requires Valid()
      reads this, data
    {
      Span(blocks, width) - usedBits
    }

    lemma MoreWords()
      requires Valid() && usedBits == 0 && Bits() < |Stream()|
      ensures blocks < data.Length
    {
      UnpackLength(data[..], width);
    }

    lemma BitHere()
      requires Valid() && usedBits > 0
      ensures Bits() < |Stream()| && Stream()[Bits()] == (Shifted(accum, usedBits - 1) % 2 == 1)
    {
      UnpackAt(data[..], width, blocks - 1, width - usedBits);
      LowAt(accum, width, usedBits - 1);
    }

    lemma FirstBit()
      requires Valid() && usedBits == 0 && blocks < data.Length
      ensures Span(blocks, width) < |Stream()|
      ensures Stream()[Span(blocks, width)] == (Shifted(data[blocks], width - 1) % 2 == 1)
    {
      UnpackAt(data[..], width, blocks, 0);
      LowAt(data[blocks], width, width - 1);
    }

    method Get() returns (x: bool)
      requires Valid() && Bits() < |Stream()|
      modifies this
      ensures Valid() && Bits() == old(Bits()) + 1
      ensures x == Stream()[old(Bits())]
    {
      if usedBits == 0 {
        MoreWords();
        FirstBit();
        accum := data[blocks];
        blocks := blocks + 1;
        usedBits := width;
      } else {
        BitHere();
      }
      usedBits := usedBits - 1;
      x := Shifted(accum, usedBits) % 2 == 1;
    }
  }
}
