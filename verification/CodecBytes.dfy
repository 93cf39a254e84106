/** Datagrams byte by byte: which byte of a packet holds what, and where an accepted datagram's messages lie in it. */
module CodecBytes {
  import opened Snap
  import opened Bits
  import opened Codec
  import opened CodecInverse

  /** Four bytes, the most significant first. */
  ghost predicate IsWord(b: Bytes, at: nat, w: int) {
    && at + 4 <= |b|
    && b[at] as int * 0x100_0000 + b[at + 1] as int * 0x1_0000 + b[at + 2] as int * 0x100 + b[at + 3] == w
  }

  ghost predicate EndsWithFooter(data: Bytes) {
    && |data| >= 4
    && data[|data| - 4] == 0xBA && data[|data| - 3] == 0x47 && data[|data| - 2] == 0x66
    && (data[|data| - 1] == 0x11 || data[|data| - 1] == 0x10)
  }

  function Joined(chunks: seq<Bytes>): Bytes {
    if chunks == [] then [] else chunks[0] + Joined(chunks[1..])
  }

  // Encoding.

  /** The bytes of one packet: the header's fields in order, then the payload. */
  ghost predicate IsPacket(b: Bytes, p: Packet) {
    && |b| == 16 + |p.payload|
    && b[0] as int * 256 + b[1] == (if p.sizeWord.Some? then p.sizeWord.value else BitOr(p.typeFlags, |p.payload| + 16))
    && b[2] == p.packetNumber % 256 && b[3] == p.command % 256
    && IsWord(b, 4, if p.source.Some? then p.source.value else p.sessionId)
    && IsWord(b, 8, p.sequence) && IsWord(b, 12, p.acknowledge)
    && forall i :: 0 <= i < |p.payload| ==> b[16 + i] == p.payload[i]
  }

  lemma WordBytes(w: Word)
    ensures IsWord(Pack32(w), 0, w)
  {
    PackedWordsReadBack(0, w);
  }

  lemma HeaderBytes(word: nat, p: Packet)
    requires word < 0x1_0000
    ensures var b := Header(word, p);
            && b[0] as int * 256 + b[1] == word && b[2] == p.packetNumber % 256 && b[3] == p.command % 256
            && IsWord(b, 4, if p.source.Some? then p.source.value else p.sessionId)
            && IsWord(b, 8, p.sequence) && IsWord(b, 12, p.acknowledge)
  {
    WordBytes(if p.source.Some? then p.source.value else p.sessionId);
    WordBytes(p.sequence);
    WordBytes(p.acknowledge);
  }

  lemma OnePacketBytes(p: Packet)
    requires Packs(p)
    ensures IsPacket(EncodedOne(p), p)
  {
    HeaderBytes(SizeWordOf(p), p);
    hide Header;
  }

  /** Packets are encoded exactly when every size word fits 16 bits, and then lie end to end before the footer. */
  lemma {:induction false} BodyBytes(ps: seq<Packet>) returns (chunks: seq<Bytes>)
    requires AllPack(ps)
    ensures Joined(chunks) == EncodedAll(ps) && |chunks| == |ps|
    ensures forall i :: 0 <= i < |ps| ==> IsPacket(chunks[i], ps[i])
  {
    chunks := [];
    if ps != [] {
      var rest := BodyBytes(ps[1..]);
      OnePacketBytes(ps[0]);
      chunks := [EncodedOne(ps[0])] + rest;
      assert chunks[1..] == rest;
      forall i | 0 <= i < |ps| ensures IsPacket(chunks[i], ps[i]) {
        if i > 0 { assert ps[i] == ps[1..][i - 1]; }
      }
    }
  }

  lemma EncodedDatagram(ps: seq<Packet>, footer: Bytes) returns (chunks: seq<Bytes>)
    requires ps != []
    requires forall i :: 0 <= i < |ps| ==>
               (if ps[i].sizeWord.Some? then ps[i].sizeWord.value else BitOr(ps[i].typeFlags, |ps[i].payload| + 16))
               < 0x1_0000
    ensures Encode(ps, footer) == Ok(Joined(chunks) + footer) && |chunks| == |ps|
    ensures forall i :: 0 <= i < |ps| ==> IsPacket(chunks[i], ps[i])
  {
    chunks := BodyBytes(ps);
  }

  /** The size word of a packet that fits the wire is its flags and its length, so the bytes say it outright. */
  lemma EncodedPacket(p: Packet, footer: Bytes)
    requires Encodable(p) && (footer == [0xBA, 0x47, 0x66, 0x11] || footer == [0xBA, 0x47, 0x66, 0x10])
    ensures Encode([p], footer).Ok?
    ensures var b := Encode([p], footer).value;
            && |b| == 16 + |p.payload| + 4
            && b[0] as int * 256 + b[1] == p.typeFlags + 16 + |p.payload| && b[2] == p.packetNumber && b[3] == p.command
            && b[4] as int * 0x100_0000 + b[5] as int * 0x1_0000 + b[6] as int * 0x100 + b[7]
               == (if p.source.Some? then p.source.value else p.sessionId)
            && b[8] as int * 0x100_0000 + b[9] as int * 0x1_0000 + b[10] as int * 0x100 + b[11] == p.sequence
            && b[12] as int * 0x100_0000 + b[13] as int * 0x1_0000 + b[14] as int * 0x100 + b[15] == p.acknowledge
            && b[16..16 + |p.payload|] == p.payload
            && EndsWithFooter(b)
  {
    EncodablePacks(p);
    var chunks := EncodedDatagram([p], footer);
    hide Encode, BitOr, IsPacket, EndsWithFooter, Encodable;
    assert chunks[1..] == [] && Joined(chunks) == chunks[0] + [];
    assert IsPacket(chunks[0], [p][0]);
    PacketThenFooter(chunks[0], p, footer);
  }

  lemma PacketThenFooter(chunk: Bytes, p: Packet, footer: Bytes)
    requires IsPacket(chunk, p) && Encodable(p) && SizeWordOf(p) == p.typeFlags + |p.payload| + 16
    requires footer == [0xBA, 0x47, 0x66, 0x11] || footer == [0xBA, 0x47, 0x66, 0x10]
    ensures var b := chunk + footer;
            && |b| == 16 + |p.payload| + 4
            && b[0] as int * 256 + b[1] == p.typeFlags + 16 + |p.payload|
            && b[2] == p.packetNumber && b[3] == p.command
            && IsWord(b, 4, if p.source.Some? then p.source.value else p.sessionId)
            && IsWord(b, 8, p.sequence) && IsWord(b, 12, p.acknowledge)
            && b[16..16 + |p.payload|] == p.payload && EndsWithFooter(b)
  {
    hide BitOr;
  }

  // Decoding.

  /** A whole message: at least a header, and as long as the low ten bits of its first two bytes say. */
  ghost predicate Whole(b: Bytes) {
    |b| >= 16 && (b[0] as int * 256 + b[1]) % 1024 == |b|
  }

  /** The message a whole one is read as, on its own or after a bundle's outer message. */
  ghost predicate IsRead(b: Bytes, p: Packet, embedded: bool) {
    && Whole(b)
    && p.typeFlags == b[0] as int * 256 + b[1] - |b| && p.packetNumber == b[2] && p.command == b[3]
    && IsWord(b, 4, p.sessionId) && IsWord(b, 12, p.acknowledge)
    && (if embedded then p.sequence == 0 else IsWord(b, 8, p.sequence))
    && p.payload == b[16..] && p.embedded == embedded && p.source == None
    && p.sizeWord == if HasFlag(p.typeFlags, FLAG_MULTI) then Some(b[0] as int * 256 + b[1]) else None
  }

  /** What no message starts with. */
  ghost predicate Broken(b: Bytes) {
    |b| < 16 || (b[0] as int * 256 + b[1]) % 1024 < 16 || (b[0] as int * 256 + b[1]) % 1024 > |b|
  }

  /** Every body is cut in one way: whole messages, then nothing or what no message starts with. */
  lemma {:induction false} Cut(b: Bytes) returns (chunks: seq<Bytes>, rest: Bytes)
    ensures b == Joined(chunks) + rest && (rest == [] || Broken(rest))
    ensures forall c :: c in chunks ==> Whole(c)
    decreases |b|
  {
    if b == [] || Broken(b) {
      chunks, rest := [], b;
    } else {
      var n := (b[0] as int * 256 + b[1]) % 1024;
      var chunks', rest' := Cut(b[n..]);
      chunks, rest := [b[..n]] + chunks', rest';
      assert chunks[1..] == chunks';
      assert b == b[..n] + b[n..];
      assert b == b[..n] + (Joined(chunks') + rest);
    }
  }

  lemma ReadsFirst(chunk: Bytes, more: Bytes, seen: bool) returns (p: Packet)
    requires Whole(chunk)
    ensures IsRead(chunk, p, seen)
    ensures var rest := DecodeBody(more, seen || p.Multi());
            DecodeBody(chunk + more, seen) == if rest.Ok? then Ok([p] + rest.value) else rest
  {
    p := DecodedOne(chunk + more, |chunk|, seen);
    assert (chunk + more)[16..|chunk|] == chunk[16..];
    assert (chunk + more)[|chunk|..] == more;
  }

  /** What whole messages followed by `rest` are decoded as. */
  lemma {:induction false} JoinedReads(chunks: seq<Bytes>, rest: Bytes, seen: bool)
    requires (rest == [] || Broken(rest)) && forall c :: c in chunks ==> Whole(c)
    ensures var r := DecodeBody(Joined(chunks) + rest, seen);
            && (rest != [] ==>
                  r == Err(if |rest| < 16 then HeaderCrossesEnd
                           else if (rest[0] as int * 256 + rest[1]) % 1024 < 16 then InvalidLength
                           else LengthExceedsBody))
            && (rest == [] ==> r.Ok? && |r.value| == |chunks|
                               && forall i :: 0 <= i < |chunks| ==>
                                    IsRead(chunks[i], r.value[i], seen || AfterMulti(r.value, i)))
    decreases |chunks|
  {
    if chunks == [] {
      assert Joined(chunks) + rest == rest;
    } else {
      hide DecodeBody, IsRead, Whole, Broken, DecodedOne;
      var more := Joined(chunks[1..]) + rest;
      var b := chunks[0] + more;
      assert Joined(chunks) + rest == b;
      var p := ReadsFirst(chunks[0], more, seen);
      JoinedReads(chunks[1..], rest, seen || p.Multi());
      if rest == [] {
        var ps := DecodeBody(more, seen || p.Multi()).value;
        forall i | 0 <= i < |chunks| ensures IsRead(chunks[i], ([p] + ps)[i], seen || AfterMulti([p] + ps, i)) {
          ReadAt(chunks, p, ps, seen, i);
        }
      }
    }
  }

  lemma ReadAt(chunks: seq<Bytes>, p: Packet, ps: seq<Packet>, seen: bool, i: nat)
    requires i < |chunks| == |ps| + 1 && IsRead(chunks[0], p, seen)
    requires i > 0 ==> IsRead(chunks[1..][i - 1], ps[i - 1], seen || p.Multi() || AfterMulti(ps, i - 1))
    ensures IsRead(chunks[i], ([p] + ps)[i], seen || AfterMulti([p] + ps, i))
  {
    hide IsRead;
    if i == 0 {
      assert !AfterMulti([p] + ps, 0);
    } else {
      MultiBefore(p, ps, i - 1);
      hide AfterMulti;
    }
  }

  lemma MultiBefore(p: Packet, ps: seq<Packet>, i: nat)
    requires i < |ps|
    ensures AfterMulti([p] + ps, i + 1) <==> p.Multi() || AfterMulti(ps, i)
  {
    if p.Multi() { assert ([p] + ps)[0].Multi(); }
    if AfterMulti(ps, i) {
      var j :| 0 <= j < i && ps[j].Multi();
      assert ([p] + ps)[j + 1].Multi();
    }
  }

  /**
    A datagram is refused for its size or its end, or it is cut into whole messages
    and each is read from its own bytes, or refused for what is left over.
   */
  lemma DecodedDatagram(data: Bytes) returns (chunks: seq<Bytes>, rest: Bytes)
    ensures |data| < 20 ==> Decode(data) == Err(TooSmall)
    ensures |data| >= 20 && !EndsWithFooter(data) ==> Decode(data) == Err(NoFooter)
    ensures |data| >= 20 && EndsWithFooter(data) ==>
              && data[..|data| - 4] == Joined(chunks) + rest && (rest == [] || Broken(rest))
              && (rest != [] ==>
                    Decode(data) == Err(if |rest| < 16 then HeaderCrossesEnd
                                        else if (rest[0] as int * 256 + rest[1]) % 1024 < 16 then InvalidLength
                                        else LengthExceedsBody))
              && (rest == [] ==>
                    && Decode(data).Ok? && |Decode(data).value| == |chunks|
                    && forall i :: 0 <= i < |chunks| ==>
                         IsRead(chunks[i], Decode(data).value[i], AfterMulti(Decode(data).value, i)))
  {
    chunks, rest := [], [];
    if |data| >= 20 {
      var footer := data[|data| - 4..];
      assert EndsWithFooter(data) <==> footer == FOOTER_BYTES || footer == FOOTER_BYTES_KAGE by {
        assert footer[0] == data[|data| - 4] && footer[1] == data[|data| - 3];
        assert footer[2] == data[|data| - 2] && footer[3] == data[|data| - 1];
      }
      if EndsWithFooter(data) {
        hide DecodeBody, IsRead, Broken;
        chunks, rest := Cut(data[..|data| - 4]);
        JoinedReads(chunks, rest, false);
      }
    }
  }
}
