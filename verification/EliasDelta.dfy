/** Encoding and decoding Elias delta codes through packed words. */
module EliasDelta {
  import opened Options
  import opened Bits
  import opened Elias
  import opened BitStreams

  method PutZeros(w: BitWriter, count: nat)
    requires w.Valid() && w.Room(count)
    modifies w, w.data
    ensures w.Valid()
    ensures w.Written() == old(w.Written()) + Zeros(count)
  {
    var i: nat := count;
    while i > 0
      invariant i <= count && w.Valid()
      invariant w.Written() == old(w.Written()) + Zeros(count - i)
    {
      w.Put(false);
      i := i - 1;
      assert Zeros(count - i) == Zeros(count - i - 1) + [false];
    }
  }

  /** Puts the low `count` bits of `v`, the highest first. */
  method PutLow(w: BitWriter, v: nat, count: nat)
    requires w.Valid() && w.Room(count)
    modifies w, w.data
    ensures w.Valid()
    ensures w.Written() == old(w.Written()) + Low(v, count)
  {
    var i: nat := count;
    while i > 0
      invariant i <= count && w.Valid()
      invariant w.Written() == old(w.Written()) + Low(Shifted(v, i), count - i)
    {
      i := i - 1;
      ShiftOne(v, i);
      w.Put(Shifted(v, i) % 2 == 1);
    }
  }

  /** The encoder appends exactly the code of `x`. */
  method Encode(w: BitWriter, x: nat)
    requires x > 0 && w.Valid() && w.Room(|Code(x)|)
    modifies w, w.data
    ensures w.Valid()
    ensures w.Written() == old(w.Written()) + Code(x)
  {
    var len := BitLen(x);
    var more := BitLen(len) - 1;
    ghost var s := w.Written();
    PutZeros(w, more);
    PutLow(w, len, more + 1);
    PutLow(w, x, len - 1);
    Regroup(s, Zeros(more), Low(len, more + 1), Low(x, len - 1));
  }

  lemma Regroup(s: seq<bool>, a: seq<bool>, b: seq<bool>, c: seq<bool>)
    ensures s + a + b + c == s + (a + b + c)
  {
  }

  /** Shifts `count` bits from the reader into `v`. */
  method GetInto(r: BitReader, v: nat, count: nat) returns (x: nat)
    requires r.Valid() && r.Bits() + count <= |r.Stream()|
    modifies r
    ensures r.Valid() && r.Bits() == old(r.Bits()) + count
    ensures x == Read(v, r.Stream(), old(r.Bits()), r.Bits())
  {
    x := v;
    var i := 0;
    while i < count
      invariant i <= count && r.Valid() && r.Bits() == old(r.Bits()) + i
      invariant x == Read(v, r.Stream(), old(r.Bits()), r.Bits())
    {
      var b := r.Get();
      x := 2 * x;
      if b {
        x := x + 1;
      }
      i := i + 1;
    }
  }

  /** Skips zeros and the one behind them. */
  method GetZeros(r: BitReader) returns (z: nat)
    requires r.Valid() && r.Bits() <= |r.Stream()|
    requires r.Bits() + ZerosFrom(r.Stream(), r.Bits()) < |r.Stream()|
    modifies r
    ensures r.Valid() && z == ZerosFrom(r.Stream(), old(r.Bits())) && r.Bits() == old(r.Bits()) + z + 1
  {
    z := 0;
    var b := r.Get();
    while !b
      invariant r.Valid() && r.Bits() == old(r.Bits()) + z + 1 <= |r.Stream()| && b == r.Stream()[r.Bits() - 1]
      invariant ZerosFrom(r.Stream(), old(r.Bits())) == z + ZerosFrom(r.Stream(), r.Bits() - 1)
      decreases |r.Stream()| - r.Bits()
    {
      z := z + 1;
      b := r.Get();
    }
  }

  /** The decoder computes what the parser says and takes exactly the bits the parser takes. */
  method Decode(r: BitReader) returns (x: nat)
    requires r.Valid() && r.Bits() <= |r.Stream()| && Parse(r.Stream(), r.Bits()).Some?
    modifies r
    ensures r.Valid() && Parse(r.Stream(), old(r.Bits())).value == (x, r.Bits())
  {
    var z := GetZeros(r);
    var len := GetInto(r, 1, z);
    x := GetInto(r, 1, len - 1);
  }

  // ---- sequences of numbers ----

  lemma NextWritten(written: seq<bool>, xs: seq<nat>, i: nat)
    requires Positive(xs) && i < |xs|
    ensures written + Code(xs[i]) + CodeFrom(xs, i + 1) == written + CodeFrom(xs, i)
  {
    Regroup(written, [], Code(xs[i]), CodeFrom(xs, i + 1));
  }

  method EncodeAll(w: BitWriter, xs: seq<nat>)
    requires Positive(xs) && w.Valid() && w.Room(|CodeFrom(xs, 0)|)
    modifies w, w.data
    ensures w.Valid()
    ensures w.Written() == old(w.Written()) + CodeFrom(xs, 0)
  {
    var i := 0;
    while i < |xs|
      invariant i <= |xs| && w.Valid()
      invariant w.Written() + CodeFrom(xs, i) == old(w.Written()) + CodeFrom(xs, 0)
    {
      NextWritten(w.Written(), xs, i);
      Encode(w, xs[i]);
      i := i + 1;
    }
  }

  /** The codes of the numbers from number `i` on stand at position `at`. */
  ghost predicate CodesAt(s: seq<bool>, at: nat, xs: seq<nat>, i: nat) {
    Positive(xs) && i <= |xs| && at <= |s| && CodeFrom(xs, i) <= s[at..]
  }

  lemma NextCode(s: seq<bool>, at: nat, xs: seq<nat>, i: nat)
    requires CodesAt(s, at, xs, i) && i < |xs|
    ensures Parse(s, at) == Some((xs[i], at + |Code(xs[i])|))
    ensures CodesAt(s, at + |Code(xs[i])|, xs, i + 1)
  {
    var code, tail := Code(xs[i]), CodeFrom(xs, i + 1);
    assert s[at..][..|code + tail|] == code + tail;
    assert s[at..at + |code|] == (code + tail)[..|code|] == code;
    assert s[at + |code|..][..|tail|] == (code + tail)[|code|..] == tail;
    ParseCode(s, at, xs[i]);
  }

  /** Decoding `count` numbers where `count` codes stand; the codes are what `xs` says. */
  method DecodeAll(r: BitReader, count: nat, ghost xs: seq<nat>) returns (ys: seq<nat>)
    requires |xs| == count && r.Valid() && CodesAt(r.Stream(), r.Bits(), xs, 0)
    modifies r
    ensures r.Valid() && ys == xs && r.Bits() == old(r.Bits()) + |CodeFrom(xs, 0)|
  {
    ys := [];
    while |ys| < count
      invariant |ys| <= count && ys == xs[..|ys|] && r.Valid() && CodesAt(r.Stream(), r.Bits(), xs, |ys|)
      invariant r.Bits() + |CodeFrom(xs, |ys|)| == old(r.Bits()) + |CodeFrom(xs, 0)|
    {
      NextCode(r.Stream(), r.Bits(), xs, |ys|);
      var y := Decode(r);
      ys := ys + [y];
    }
  }

  lemma StreamStart(words: seq<nat>, blocks: nat, width: nat, xs: seq<nat>)
    requires Positive(xs) && blocks <= |words|
    requires exists pad :: 0 <= pad < width && Unpack(words[..blocks], width) == CodeFrom(xs, 0) + Zeros(pad)
    ensures CodesAt(Unpack(words, width), 0, xs, 0)
  {
    var s := Unpack(words, width);
    assert words == words[..blocks] + words[blocks..];
    UnpackConcat(words[..blocks], words[blocks..], width);
    assert s[0..] == s;
  }

  /** Encoding, flushing and decoding any numbers, with any word width, gives them back, and what
      the reader has read is what the writer has written. */
  method RoundTrip(width: nat, xs: seq<nat>, capacity: nat) returns (ys: seq<nat>, put: nat, got: nat)
    requires width > 0 && Positive(xs) && |CodeFrom(xs, 0)| <= capacity * width
    ensures ys == xs && put == got == |CodeFrom(xs, 0)|
  {
    var data := new nat[capacity];
    var w := new BitWriter(width, data);
    SpanIsProduct(capacity, width);
    EncodeAll(w, xs);
    w.BitsAreWritten();
    w.Flush();
    put := w.Bits();
    var r := new BitReader(width, data);
    StreamStart(data[..], w.Blocks(), width, xs);
    ys := DecodeAll(r, |xs|, xs);
    got := r.Bits();
  }
}
