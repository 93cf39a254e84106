/**
  The library's SHA-1 (`_sha1_block` and `sha1_dnas`, tools/dnas/install_packet.py)
  against the standard one of FIPS 180-4: the compression is the standard's,
  the padding is not.
 */
module Sha1 {
  import opened Bits
  import opened Codec
  import opened CodecBytes

  const W := 0x1_0000_0000

  // FIPS 180-4.

  datatype Hash = Hash(a: Word, b: Word, c: Word, d: Word, e: Word)

  const INITIAL := Hash(0x6745_2301, 0xEFCD_AB89, 0x98BA_DCFE, 0x1032_5476, 0xC3D2_E1F0)

  /** ROTL of section 2.2.2 by 1, 5 and 30: the top bits come in at the bottom. */
  function Rotl1(x: Word): Word { 2 * (x % 0x8000_0000) + x / 0x8000_0000 }

  function Rotl5(x: Word): Word { 32 * (x % 0x800_0000) + x / 0x800_0000 }

  function Rotl30(x: Word): Word { 0x4000_0000 * (x % 4) + x / 4 }

  function Xor(a: Word, b: Word): Word {
    PowersOfTwo();
    XorFits(a, b, 32);
    BitXor(a, b)
  }

  function And(a: Word, b: Word): Word {
    PowersOfTwo();
    AndFits(a, b, 32);
    BitAnd(a, b)
  }

  /** Section 4.1.1. */
  function F(t: nat, x: Word, y: Word, z: Word): Word {
    if t < 20 then Xor(And(x, y), And(W - 1 - x, z))
    else if t < 40 then Xor(Xor(x, y), z)
    else if t < 60 then Xor(Xor(And(x, y), And(x, z)), And(y, z))
    else Xor(Xor(x, y), z)
  }

  /** Section 4.2.1. */
  function K(t: nat): Word {
    if t < 20 then 0x5A82_7999 else if t < 40 then 0x6ED9_EBA1 else if t < 60 then 0x8F1B_BCDC else 0xCA62_C1D6
  }

  /** The round constants are the square roots of 2, 3, 5 and 10, in 2 to the 30th parts. */
  lemma RoundConstantsAreRoots(t: nat)
    ensures var n := if t < 20 then 2 else if t < 40 then 3 else if t < 60 then 5 else 10;
            K(t) * K(t) <= n * 0x1000_0000_0000_0000 < (K(t) + 1) * (K(t) + 1)
  {
  }

  /** Section 6.1.2, step 1: the message schedule. */
  function Schedule(block: Bytes, t: nat): Word
    requires |block| == 64
  {
    if t < 16 then U32(block, 4 * t)
    else Rotl1(Xor(Xor(Xor(Schedule(block, t - 3), Schedule(block, t - 8)), Schedule(block, t - 14)),
        Schedule(block, t - 16)))
  }

  /** Step 3, one round. */
  function Round(h: Hash, t: nat, w: Word): Hash {
    Hash((Rotl5(h.a) + F(t, h.b, h.c, h.d) + h.e + K(t) + w) % W, h.a, Rotl30(h.b), h.c, h.d)
  }

  function WordsUpTo(block: Bytes, n: nat): (ws: seq<Word>)
    requires |block| == 64
    ensures |ws| == n
  {
    seq(n, t requires 0 <= t < n => Schedule(block, t))
  }

  function Words(block: Bytes): seq<Word>
    requires |block| == 64
  {
    WordsUpTo(block, 80)
  }

  function Rounds(h: Hash, ws: seq<Word>): Hash {
    if ws == [] then h else Round(Rounds(h, ws[..|ws| - 1]), |ws| - 1, ws[|ws| - 1])
  }

  function Plus(x: Hash, y: Hash): Hash {
    Hash((x.a + y.a) % W, (x.b + y.b) % W, (x.c + y.c) % W, (x.d + y.d) % W, (x.e + y.e) % W)
  }

  function Compressed(h: Hash, block: Bytes): Hash
    requires |block| == 64
  {
    Plus(h, Rounds(h, Words(block)))
  }

  /** A message of whole blocks, block by block. */
  function Blocks(message: Bytes): (blocks: seq<Bytes>)
    requires |message| % 64 == 0
    ensures forall b :: b in blocks ==> |b| == 64
    decreases |message|
  {
    if message == [] then []
    else
      assert |message| >= 64;
      [message[..64]] + Blocks(message[64..])
  }

  /** Step 4: the hash carried from block to block. */
  function Hashed(h: Hash, blocks: seq<Bytes>): Hash
    requires forall b :: b in blocks ==> |b| == 64
  {
    if blocks == [] then h
    else
      var last := |blocks| - 1;
      assert blocks[last] in blocks && forall b :: b in blocks[..last] ==> b in blocks;
      Compressed(Hashed(h, blocks[..last]), blocks[last])
  }

  function Zeros(n: nat): (z: Bytes)
    ensures |z| == n
  {
    seq(n, _ => 0)
  }

  function Length64(n: nat): (b: Bytes)
    requires n < W * W
    ensures |b| == 8
  {
    Pack32(n / W) + Pack32(n % W)
  }

  /** Section 5.1.1, with `extra` more zero bytes than the standard's. */
  function Padded(data: Bytes, extra: nat): (m: Bytes)
    requires 8 * |data| < W * W
  {
    data + [0x80] + Zeros((119 - |data| % 64) % 64 + extra) + Length64(8 * |data|)
  }

  // The library's.

  function Unpadded(h: Hash): Bytes {
    Pack32(h.a) + Pack32(h.b) + Pack32(h.c) + Pack32(h.d) + Pack32(h.e)
  }

  lemma RotationIsASum(x: Word, left: nat, right: nat)
    requires left > 0 && right > 0 && left * right == W
    ensures left * (x % right) + W * (x / right) == x * left
  {
    assert x == right * (x / right) + x % right;
    assert x * left == left * right * (x / right) + left * (x % right);
  }

  /** Unmasked shifts or-ed together, as unbounded integers, are a rotation once masked. */
  lemma ShiftBy1(x: Word)
    ensures BitOr(x * 2, x / 0x8000_0000) % W == Rotl1(x)
  {
    PowersOfTwo();
    OrOfDisjointBits(x, x / 0x8000_0000, 1);
    RotationIsASum(x, 2, 0x8000_0000);
    MaskDropsMultiples(Rotl1(x), x / 0x8000_0000);
  }

  lemma ShiftBy5(x: Word)
    ensures BitOr(x * 32, x / 0x800_0000) % W == Rotl5(x)
  {
    PowersOfTwo();
    OrOfDisjointBits(x, x / 0x800_0000, 5);
    RotationIsASum(x, 32, 0x800_0000);
    MaskDropsMultiples(Rotl5(x), x / 0x800_0000);
  }

  lemma ShiftBy30(x: Word)
    ensures BitOr(x * 0x4000_0000, x / 4) % W == Rotl30(x)
  {
    PowersOfTwo();
    OrOfDisjointBits(x, x / 4, 30);
    RotationIsASum(x, 0x4000_0000, 4);
    MaskDropsMultiples(Rotl30(x), x / 4);
  }

  lemma MaskDropsMultiples(x: Word, k: nat)
    ensures (x + W * k) % W == x
  {
  }

  /** The choice and majority functions as the library computes them, complement of an unbounded integer included. */
  lemma FunctionsAgree(t: nat, b: Word, c: Word, d: Word)
    ensures t < 20 ==> BitOr(BitAnd(b, c), BitAndNot(b, d)) == F(t, b, c, d)
    ensures 40 <= t < 60 ==> BitOr(BitOr(BitAnd(b, c), BitAnd(b, d)), BitAnd(c, d)) == F(t, b, c, d)
  {
    PowersOfTwo();
    AndNotIsAndOfComplement(b, d, 32);
    ChooseOrIsXor(b, c, d);
    MajorityOrIsXor(b, c, d);
  }

  lemma ScheduleStep(block: Bytes, w: seq<Word>, t: nat)
    requires |block| == 64 && t >= 16 && w == WordsUpTo(block, t)
    ensures Schedule(block, t) == Rotl1(Xor(Xor(Xor(w[t - 3], w[t - 8]), w[t - 14]), w[t - 16]))
    ensures WordsUpTo(block, t + 1) == w + [Schedule(block, t)]
  {
  }

  lemma FirstWords(block: Bytes)
    requires |block| == 64
    ensures WordsUpTo(block, 16) == seq(16, i requires 0 <= i < 16 => U32(block, 4 * i))
  {
  }

  method ExpandBlock(block: Bytes) returns (w: seq<Word>)
    requires |block| == 64
    ensures w == Words(block)
  {
    w := seq(16, i requires 0 <= i < 16 => U32(block, 4 * i));
    FirstWords(block);
    for i := 16 to 80
      invariant w == WordsUpTo(block, i)
    {
      ScheduleStep(block, w, i);
      var x := Xor(Xor(Xor(w[i - 3], w[i - 8]), w[i - 14]), w[i - 16]);
      ShiftBy1(x);
      var n: nat := x;
      w := w + [BitOr(n * 2, n / 0x8000_0000) % W];
    }
  }

  method RoundFunction(i: nat, b: Word, c: Word, d: Word) returns (f: nat, k: nat)
    ensures f == F(i, b, c, d) && k == K(i)
  {
    FunctionsAgree(i, b, c, d);
    if i < 20 {
      f, k := BitOr(BitAnd(b, c), BitAndNot(b, d)), 0x5A82_7999;
    } else if i < 40 {
      f, k := Xor(Xor(b, c), d), 0x6ED9_EBA1;
    } else if i < 60 {
      f, k := BitOr(BitOr(BitAnd(b, c), BitAnd(b, d)), BitAnd(c, d)), 0x8F1B_BCDC;
    } else {
      f, k := Xor(Xor(b, c), d), 0xCA62_C1D6;
    }
  }

  /** One pass of the library's round loop. */
  method BlockRound(h: Hash, i: nat, word: Word) returns (r: Hash)
    ensures r == Round(h, i, word)
  {
    hide F, Rotl30;
    var f, k := RoundFunction(i, h.b, h.c, h.d);
    var a: nat, b: nat := h.a, h.b;
    ShiftBy5(h.a);
    ShiftBy30(h.b);
    var rotated: nat, rest: nat := BitOr(a * 32, a / 0x800_0000), f % W;
    rest := rest + h.e + k + word;
    MaskedSum(rotated, Rotl5(h.a), rest);
    r := Hash((rotated + rest) % W, h.a, BitOr(b * 0x4000_0000, b / 4) % W, h.c, h.d);
  }

  method BlockRounds(h: Hash, w: seq<Word>) returns (s: Hash)
    ensures s == Rounds(h, w)
  {
    s := h;
    for i := 0 to |w|
      invariant s == Rounds(h, w[..i])
    {
      s := BlockRound(s, i, w[i]);
      LastRound(h, w, i);
    }
    assert w[..|w|] == w;
  }

  lemma LastRound(h: Hash, w: seq<Word>, i: nat)
    requires i < |w|
    ensures Rounds(h, w[..i + 1]) == Round(Rounds(h, w[..i]), i, w[i])
  {
    assert w[..i + 1][..i] == w[..i];
  }

  method Sha1Block(h: Hash, block: Bytes) returns (r: Hash)
    requires |block| == 64
    ensures r == Compressed(h, block)
  {
    var w := ExpandBlock(block);
    var s := BlockRounds(h, w);
    r := Plus(h, s);
  }

  lemma MaskedSum(x: nat, y: Word, rest: nat)
    requires x % W == y
    ensures (x + rest) % W == (y + rest) % W
  {
  }

  // The padding.

  /** The zero bytes the library adds over the standard's. */
  function Extra(n: nat): nat {
    if 48 <= n % 64 <= 55 then 64 else 0
  }

  lemma {:induction false} BlocksAppend(m: Bytes, block: Bytes)
    requires |m| % 64 == 0 && |block| == 64
    ensures Blocks(m + block) == Blocks(m) + [block]
    decreases |m|
  {
    if m == [] {
      assert m + block == block && block[..64] == block && block[64..] == [];
    } else {
      assert |m| >= 64;
      BlocksAppend(m[64..], block);
      assert (m + block)[..64] == m[..64] && (m + block)[64..] == m[64..] + block;
    }
  }

  lemma OneMoreBlock(h: Hash, m: Bytes, block: Bytes)
    requires |m| % 64 == 0 && |block| == 64
    ensures Hashed(h, Blocks(m + block)) == Compressed(Hashed(h, Blocks(m)), block)
  {
    BlocksAppend(m, block);
    var blocks := Blocks(m) + [block];
    assert blocks[..|blocks| - 1] == Blocks(m) && blocks[|blocks| - 1] == block;
  }

  lemma {:induction false} BlockCount(m: Bytes)
    requires |m| % 64 == 0
    ensures |Blocks(m)| == |m| / 64
    decreases |m|
  {
    if m != [] {
      assert |m| >= 64;
      BlockCount(m[64..]);
    }
  }

  lemma WholeBlocks(n: nat)
    ensures (n + 9 + (119 - n % 64) % 64) % 64 == 0
  {
    var q, r := n / 64, n % 64;
    assert n == 64 * q + r;
    if r <= 55 { assert (119 - r) % 64 == 55 - r; } else { assert (119 - r) % 64 == 119 - r; }
  }

  lemma PaddedLength(data: Bytes, extra: nat)
    requires 8 * |data| < W * W && extra % 64 == 0
    ensures |Padded(data, extra)| % 64 == 0
    ensures |Padded(data, extra)| == |data| + 9 + (119 - |data| % 64) % 64 + extra
  {
    hide Length64, Zeros;
    WholeBlocks(|data|);
  }

  /** Without extra bytes it is the standard's: the fewest zero bytes after which the length ends a block. */
  lemma PaddingIsTheStandards(data: Bytes, zeros: nat)
    requires 8 * |data| < W * W
    ensures (|data| + 1 + (119 - |data| % 64) % 64) % 64 == 56
    ensures zeros < (119 - |data| % 64) % 64 ==> (|data| + 1 + zeros) % 64 != 56
  {
  }

  lemma ZerosNeeded(n: nat, r: nat)
    requires r == n % 64
    ensures (119 - r) % 64 + Extra(n) == if r < 48 then 55 - r else 119 - r
  {
  }

  lemma Regroup(whole: Bytes, a: Bytes, b: Bytes, c: Bytes)
    ensures whole + a + b + c == whole + (a + b + c)
  {
  }

  lemma RegroupTwo(whole: Bytes, a: Bytes, b: Bytes, c: Bytes, d: Bytes)
    ensures whole + a + (b + c) + d == whole + (a + b) + ([] + c + d)
  {
  }

  lemma ZerosSplit(m: nat, n: nat)
    ensures Zeros(m + n) == Zeros(m) + Zeros(n)
  {
  }

  lemma ShortTail(data: Bytes, whole: Bytes, tail: Bytes)
    requires 8 * |data| < W * W && data + [0x80] == whole + tail && |data| % 64 == |tail| - 1 < 48
    ensures Padded(data, Extra(|data|)) == whole + (tail + Zeros(56 - |tail|) + Length64(8 * |data|))
  {
    hide Zeros, Length64;
    ZerosNeeded(|data|, |tail| - 1);
    Regroup(whole, tail, Zeros(56 - |tail|), Length64(8 * |data|));
  }

  lemma LongTail(data: Bytes, whole: Bytes, tail: Bytes)
    requires 8 * |data| < W * W && data + [0x80] == whole + tail && 48 <= |data| % 64 == |tail| - 1
    ensures Padded(data, Extra(|data|))
         == whole + (tail + Zeros(64 - |tail|)) + ([] + Zeros(56) + Length64(8 * |data|))
  {
    hide Zeros, Length64;
    ZerosNeeded(|data|, |tail| - 1);
    ZerosSplit(64 - |tail|, 56);
    RegroupTwo(whole, tail, Zeros(64 - |tail|), Zeros(56), Length64(8 * |data|));
  }

  // The bytes: words are read and written with their most significant byte first.

  /** The first sixteen words of the schedule are the block's own, section 5.2.1. */
  lemma ScheduleBytes(block: Bytes, t: nat)
    requires |block| == 64 && t < 16
    ensures IsWord(block, 4 * t, Schedule(block, t))
  {
  }

  /** Section 5.1.1 byte by byte: the message, a single one bit, zeros, and the message's length in bits. */
  lemma PaddedBytes(data: Bytes, extra: nat)
    requires 8 * |data| < W * W && extra % 64 == 0
    ensures var m, bits := Padded(data, extra), 8 * |data|;
            && |m| >= |data| + 9 && m[..|data|] == data && m[|data|] == 0x80
            && (forall i :: |data| < i < |m| - 8 ==> m[i] == 0)
            && IsWord(m, |m| - 8, bits / 0x1_0000_0000) && IsWord(m, |m| - 4, bits % 0x1_0000_0000)
  {
    var high, low: Word := 8 * |data| / W, 8 * |data| % W;
    var front := data + [0x80] + Zeros((119 - |data| % 64) % 64 + extra);
    WordBytes(high);
    WordBytes(low);
    hide Pack32;
    WordsAtTheEnd(front, Pack32(high), Pack32(low), high, low);
  }

  lemma WordsAtTheEnd(front: Bytes, a: Bytes, b: Bytes, high: Word, low: Word)
    requires |a| == 4 && |b| == 4 && IsWord(a, 0, high) && IsWord(b, 0, low)
    ensures var m := front + (a + b); IsWord(m, |m| - 8, high) && IsWord(m, |m| - 4, low)
  {
  }

  lemma UnpaddedBytes(h: Hash)
    ensures var b := Unpadded(h);
            && |b| == 20 && IsWord(b, 0, h.a) && IsWord(b, 4, h.b) && IsWord(b, 8, h.c) && IsWord(b, 12, h.d)
            && IsWord(b, 16, h.e)
  {
    WordBytes(h.a);
    WordBytes(h.b);
    WordBytes(h.c);
    WordBytes(h.d);
    WordBytes(h.e);
  }

  /** The digest is the twenty bytes of the hash's five words. */
  lemma DigestBytes(data: Bytes, extra: nat)
    requires 8 * |data| < W * W && extra % 64 == 0
    ensures |Padded(data, extra)| % 64 == 0
    ensures var digest, h := Digest(data, extra), Hashed(INITIAL, Blocks(Padded(data, extra)));
            && |digest| == 20 && IsWord(digest, 0, h.a) && IsWord(digest, 4, h.b) && IsWord(digest, 8, h.c)
            && IsWord(digest, 12, h.d) && IsWord(digest, 16, h.e)
  {
    PaddedLength(data, extra);
    UnpaddedBytes(Hashed(INITIAL, Blocks(Padded(data, extra))));
  }

  function Digest(data: Bytes, extra: nat): Bytes
    requires 8 * |data| < W * W && extra % 64 == 0
  {
    PaddedLength(data, extra);
    Unpadded(Hashed(INITIAL, Blocks(Padded(data, extra))))
  }

  lemma DigestIs(data: Bytes)
    requires 8 * |data| < W * W
    ensures var m := Padded(data, Extra(|data|));
            |m| % 64 == 0 && Digest(data, Extra(|data|)) == Unpadded(Hashed(INITIAL, Blocks(m)))
  {
    PaddedLength(data, Extra(|data|));
  }

  method HashWholeBlocks(data: Bytes, end: nat) returns (h: Hash)
    requires end <= |data| && end % 64 == 0
    ensures h == Hashed(INITIAL, Blocks(data[..end]))
  {
    hide Compressed, Rounds;
    h := INITIAL;
    var i := 0;
    while i < end
      invariant i % 64 == 0 && i <= end && h == Hashed(INITIAL, Blocks(data[..i]))
    {
      h := CompressNext(h, data[..i], data[i..i + 64]);
      assert data[..i] + data[i..i + 64] == data[..i + 64];
      i := i + 64;
    }
  }

  /** The library's digest is the standard hash of the message padded with 64 more zero bytes in one case. */
  method Sha1Dnas(data: Bytes) returns (digest: Bytes)
    requires 8 * |data| < W * W
    ensures digest == Digest(data, Extra(|data|))
  {
    hide *;
    DigestIs(data);
    var end := |data| - |data| % 64;
    var h := HashWholeBlocks(data, end);
    ghost var hashed := data[..end];
    var tail := data[end..] + [0x80];
    assert data + [0x80] == hashed + tail;
    if |tail| > 48 {
      LongTail(data, hashed, tail);
      h := CompressNext(h, hashed, tail + Zeros(64 - |tail|));
      hashed := hashed + (tail + Zeros(64 - |tail|));
      tail := [];
    } else {
      ShortTail(data, hashed, tail);
    }
    h := CompressNext(h, hashed, tail + Zeros(56 - |tail|) + Length64(8 * |data|));
    digest := Unpadded(h);
  }

  method CompressNext(h: Hash, ghost hashed: Bytes, block: Bytes) returns (r: Hash)
    requires |block| == 64 && |hashed| % 64 == 0 && h == Hashed(INITIAL, Blocks(hashed))
    ensures |hashed + block| % 64 == 0 && r == Hashed(INITIAL, Blocks(hashed + block))
  {
    hide *;
    r := Sha1Block(h, block);
    OneMoreBlock(INITIAL, hashed, block);
  }

  /** The standard's digest for every input whose last partial block is not 48 to 55 bytes long. */
  lemma StandardOutsideTheGap(data: Bytes)
    requires 8 * |data| < W * W && !(48 <= |data| % 64 <= 55)
    ensures Digest(data, Extra(|data|)) == Digest(data, 0)
  {
  }

  /** Inside it, one more block than the standard is compressed, after the same first ones. */
  lemma OneBlockMoreInTheGap(data: Bytes)
    requires 8 * |data| < W * W && 48 <= |data| % 64 <= 55
    ensures |Padded(data, 64)| % 64 == 0 && |Padded(data, 0)| % 64 == 0 && Extra(|data|) == 64
    ensures |Blocks(Padded(data, 64))| == |Blocks(Padded(data, 0))| + 1
  {
    PaddedLength(data, 64);
    PaddedLength(data, 0);
    BlockCount(Padded(data, 64));
    BlockCount(Padded(data, 0));
  }
}
