/** Decoding undoes encoding, encoding undoes decoding but for what a bundle's children carry, and the lobby burst. */
module CodecInverse {
  import opened Snap
  import opened Codec

  // Decode after encode.

  /** What fits the wire: flags within their mask, a length within its own, and no size word but the true one. */
  predicate Encodable(p: Packet) {
    && p.typeFlags % TYPE_STEP == 0 && p.typeFlags < 0x1_0000 && p.packetNumber < 0x100 && p.command < 0x100
    && |p.payload| + HEADER_SIZE < TYPE_STEP
    && (p.sizeWord.Some? ==> p.sizeWord.value == p.typeFlags + |p.payload| + HEADER_SIZE)
  }

  ghost predicate AllEncodable(ps: seq<Packet>) {
    forall i :: 0 <= i < |ps| ==> Encodable(ps[i])
  }

  /** A packet as a peer reads it, after a bundle's outer packet or before any. */
  function ReadBack(p: Packet, seen: bool): Packet {
    p.(sessionId := if p.source.Some? then p.source.value else p.sessionId,
       source := None,
       sequence := if seen then 0 else p.sequence,
       sizeWord := if p.Multi() then Some(p.typeFlags + |p.payload| + HEADER_SIZE) else None,
       embedded := seen)
  }

  function AllReadBack(ps: seq<Packet>, seen: bool): seq<Packet>
    decreases |ps|
  {
    if ps == [] then [] else [ReadBack(ps[0], seen)] + AllReadBack(ps[1..], seen || ps[0].Multi())
  }

  lemma EncodablePacks(p: Packet)
    requires Encodable(p)
    ensures SizeWordOf(p) == p.typeFlags + |p.payload| + HEADER_SIZE && Packs(p)
  {
    SizeWordIsASum(p.typeFlags, |p.payload| + HEADER_SIZE);
  }

  lemma HeaderFields(word: nat, p: Packet, rest: Bytes)
    requires word < 0x1_0000 && p.packetNumber < 0x100 && p.command < 0x100
    ensures var b := Header(word, p) + rest;
            && U16(b, 0) == word && b[2] == p.packetNumber && b[3] == p.command
            && U32(b, 4) == (if p.source.Some? then p.source.value else p.sessionId)
            && U32(b, 8) == p.sequence && U32(b, 12) == p.acknowledge
  {
    var session: Word := if p.source.Some? then p.source.value else p.sessionId;
    PackedWordsReadBack(word, session);
    PackedWordsReadBack(0, p.sequence);
    PackedWordsReadBack(0, p.acknowledge);
  }

  lemma LengthReadsBack(p: Packet, rest: Bytes)
    requires Encodable(p) && Packs(p)
    ensures var b := EncodedOne(p) + rest;
            && |EncodedOne(p)| == HEADER_SIZE + |p.payload|
            && U16(b, 0) == p.typeFlags + HEADER_SIZE + |p.payload|
            && b[HEADER_SIZE..HEADER_SIZE + |p.payload|] == p.payload
            && b[HEADER_SIZE + |p.payload|..] == rest
            && b == Header(SizeWordOf(p), p) + (p.payload + rest)
  {
    EncodablePacks(p);
    var b := EncodedOne(p) + rest;
    assert b == Header(SizeWordOf(p), p) + (p.payload + rest);
    HeaderFields(SizeWordOf(p), p, p.payload + rest);
  }

  lemma FirstReadsBack(p: Packet, rest: Bytes, seen: bool)
    requires Encodable(p)
    ensures Packs(p) && |EncodedOne(p)| == HEADER_SIZE + |p.payload|
    ensures var b := EncodedOne(p) + rest;
            && U16(b, 0) % TYPE_STEP == HEADER_SIZE + |p.payload|
            && DecodedOne(b, HEADER_SIZE + |p.payload|, seen) == ReadBack(p, seen)
            && b[HEADER_SIZE + |p.payload|..] == rest
  {
    EncodablePacks(p);
    LengthReadsBack(p, rest);
    HeaderFields(SizeWordOf(p), p, p.payload + rest);
    SumOfFlags(p.typeFlags, HEADER_SIZE + |p.payload|);
  }

  lemma SumOfFlags(flags: nat, length: nat)
    requires flags % TYPE_STEP == 0 && length < TYPE_STEP
    ensures (flags + length) % TYPE_STEP == length && flags + length - length == flags
  {
  }

  /** Decoding an encoded body gives the packets back as a peer reads them. */
  lemma {:induction false} BodyReadsBack(ps: seq<Packet>, seen: bool)
    requires AllEncodable(ps)
    ensures AllPack(ps) && DecodeBody(EncodedAll(ps), seen) == Ok(AllReadBack(ps, seen))
    decreases |ps|
  {
    if ps != [] {
      BodyReadsBack(ps[1..], seen || ps[0].Multi());
      FirstReadsBack(ps[0], EncodedAll(ps[1..]), seen);
      assert AllPack(ps) by { assert forall i :: 1 <= i < |ps| ==> ps[i] == ps[1..][i - 1]; }
    }
  }

  /**
    Every encodable list decodes to the packets a peer reads, whatever bundles it holds
    and whichever footer ends it.
   */
  lemma DatagramReadsBack(ps: seq<Packet>, footer: Bytes)
    requires ps != [] && AllEncodable(ps) && (footer == FOOTER_BYTES || footer == FOOTER_BYTES_KAGE)
    ensures Encode(ps, footer).Ok? && Decode(Encode(ps, footer).value) == Ok(AllReadBack(ps, false))
  {
    BodyReadsBack(ps, false);
    FirstReadsBack(ps[0], EncodedAll(ps[1..]), false);
    var body := EncodedAll(ps);
    assert (body + footer)[..|body|] == body && (body + footer)[|body|..] == footer;
  }

  predicate AfterMulti(ps: seq<Packet>, i: nat)
    requires i <= |ps|
  {
    exists j :: 0 <= j < i && ps[j].Multi()
  }

  lemma {:induction false} ReadBackAt(ps: seq<Packet>, seen: bool, i: nat)
    requires i < |ps|
    ensures |AllReadBack(ps, seen)| == |ps| && AllReadBack(ps, seen)[i] == ReadBack(ps[i], seen || AfterMulti(ps, i))
    decreases |ps|
  {
    var rest := ps[1..];
    if |ps| > 1 { ReadBackAt(rest, seen || ps[0].Multi(), if i > 0 then i - 1 else 0); }
    if i > 0 {
      assert AfterMulti(ps, i) <==> ps[0].Multi() || AfterMulti(rest, i - 1) by {
        assert forall j :: 1 <= j < i ==> ps[j] == rest[j - 1];
        if j :| 0 <= j < i - 1 && rest[j].Multi() { assert ps[j + 1].Multi(); }
      }
    }
  }

  /**
    The round trip is the identity exactly when every child carries sequence 0, each
    flag and size word being its own.
   */
  lemma RoundTripIff(ps: seq<Packet>, footer: Bytes)
    requires ps != [] && AllEncodable(ps) && (footer == FOOTER_BYTES || footer == FOOTER_BYTES_KAGE)
    requires forall i :: 0 <= i < |ps| ==>
               ps[i].source == None && ps[i].embedded == AfterMulti(ps, i) && ps[i].sizeWord.Some? == ps[i].Multi()
    ensures Encode(ps, footer).Ok?
    ensures Decode(Encode(ps, footer).value) == Ok(ps)
       <==> forall i :: 0 <= i < |ps| && AfterMulti(ps, i) ==> ps[i].sequence == 0
  {
    DatagramReadsBack(ps, footer);
    hide Encode, Decode, Encodable;
    var back := AllReadBack(ps, false);
    forall i | 0 <= i < |ps|
      ensures |back| == |ps| && back[i] == ps[i].(sequence := if AfterMulti(ps, i) then 0 else ps[i].sequence)
    {
      ReadBackAt(ps, false, i);
    }
    hide AfterMulti, AllReadBack;
    if forall i :: 0 <= i < |ps| && AfterMulti(ps, i) ==> ps[i].sequence == 0 {
      assert back == ps;
    } else {
      var i :| 0 <= i < |ps| && AfterMulti(ps, i) && ps[i].sequence != 0;
      assert back[i] != ps[i];
    }
  }

  // Encode after decode.

  /** The sequence words as they stand in an accepted body. */
  function SequenceWords(b: Bytes, seen: bool): seq<Word>
    requires DecodeBody(b, seen).Ok?
    decreases |b|
  {
    if b == [] then []
    else
      var length := U16(b, 0) % TYPE_STEP;
      [U32(b, 8)] + SequenceWords(b[length..], seen || DecodedOne(b, length, seen).Multi())
  }

  function Renumbered(ps: seq<Packet>, words: seq<Word>): (r: seq<Packet>)
    requires |ps| == |words|
    ensures |r| == |ps|
  {
    seq(|ps|, i requires 0 <= i < |ps| => ps[i].(sequence := words[i]))
  }

  lemma SizeWordComesBack(b: Bytes, length: nat, seen: bool)
    requires HEADER_SIZE <= length <= |b| && length == U16(b, 0) % TYPE_STEP
    ensures SizeWordOf(DecodedOne(b, length, seen)) == U16(b, 0)
  {
    var word := U16(b, 0);
    var p := DecodedOne(b, length, seen);
    FlagsAreMasked(word);
    if p.Multi() {
      assert p.sizeWord == Some(word);
    } else {
      assert p.sizeWord == None && p.typeFlags == word - word % TYPE_STEP && |p.payload| + HEADER_SIZE == length;
      SizeWordIsASum(p.typeFlags, length);
    }
  }

  lemma FlagsAreMasked(word: nat)
    ensures (word - word % TYPE_STEP) % TYPE_STEP == 0 && word % TYPE_STEP < TYPE_STEP
  {
  }

  lemma ChunkEncodesBack(b: Bytes, length: nat, seen: bool)
    requires HEADER_SIZE <= length <= |b| && length == U16(b, 0) % TYPE_STEP
    ensures var p := DecodedOne(b, length, seen);
            && Packs(p) && |EncodedOne(p)| == length
            && EncodedOne(p.(sequence := U32(b, 8))) == b[..length]
            && (EncodedOne(p) == b[..length] <==> p.sequence == U32(b, 8))
  {
    var p := DecodedOne(b, length, seen);
    var q := p.(sequence := U32(b, 8));
    SizeWordComesBack(b, length, seen);
    HeaderOf(b, p, U16(b, 0));
    assert b[..length] == b[..HEADER_SIZE] + b[HEADER_SIZE..length];
    assert EncodedOne(q) == b[..length];
    SequenceShows(U16(b, 0), p, q);
  }

  lemma HeaderOf(b: Bytes, p: Packet, word: nat)
    requires |b| >= HEADER_SIZE && word == U16(b, 0) && p.packetNumber == b[2] && p.command == b[3]
    requires p.source == None && p.sessionId == U32(b, 4) && p.acknowledge == U32(b, 12)
    ensures Header(word, p.(sequence := U32(b, 8))) == b[..HEADER_SIZE]
  {
    hide U16, U32, Pack16, Pack32;
    ReadWordsPackBack(b, 0);
    ReadWordsPackBack(b, 4);
    ReadWordsPackBack(b, 8);
    ReadWordsPackBack(b, 12);
    FieldsOf(b);
  }

  lemma FieldsOf(b: Bytes)
    requires |b| >= HEADER_SIZE
    ensures b[..HEADER_SIZE] == b[0..2] + [b[2], b[3]] + b[4..8] + b[8..12] + b[12..16]
  {
  }

  lemma SequenceShows(word: nat, p: Packet, q: Packet)
    requires word < 0x1_0000 && p.packetNumber < 0x100 && p.command < 0x100 && q == p.(sequence := q.sequence)
    ensures Header(word, p) + p.payload == Header(word, q) + q.payload <==> p.sequence == q.sequence
  {
    HeaderFields(word, p, p.payload);
    HeaderFields(word, q, q.payload);
  }

  /** `b` is `ps` end to end but for the sequence words, which are `words`. */
  ghost predicate IsMessages(b: Bytes, ps: seq<Packet>, words: seq<Word>) {
    && |ps| == |words| && AllPack(ps) && AllPack(Renumbered(ps, words))
    && EncodedAll(Renumbered(ps, words)) == b
    && |EncodedAll(ps)| == |b|
    && (EncodedAll(ps) == b <==> Renumbered(ps, words) == ps)
  }

  lemma OneMoreMessage(chunk: Bytes, rest: Bytes, p: Packet, word: Word, ps: seq<Packet>, words: seq<Word>)
    requires IsMessages(rest, ps, words) && Packs(p) && |EncodedOne(p)| == |chunk|
    requires EncodedOne(p.(sequence := word)) == chunk && (EncodedOne(p) == chunk <==> p.sequence == word)
    ensures IsMessages(chunk + rest, [p] + ps, [word] + words)
  {
    PrependPacket(p, ps, word, words);
    SplitEqual(EncodedOne(p), EncodedAll(ps), chunk, rest);
  }

  lemma PrependPacket(p: Packet, ps: seq<Packet>, word: Word, words: seq<Word>)
    requires |ps| == |words| && AllPack(ps) && AllPack(Renumbered(ps, words)) && Packs(p)
    ensures var all, renumbered := [p] + ps, Renumbered([p] + ps, [word] + words);
            && AllPack(all) && AllPack(renumbered)
            && EncodedAll(all) == EncodedOne(p) + EncodedAll(ps)
            && EncodedAll(renumbered) == EncodedOne(p.(sequence := word)) + EncodedAll(Renumbered(ps, words))
            && (renumbered == all <==> p.sequence == word && Renumbered(ps, words) == ps)
  {
    var head := p.(sequence := word);
    RenumberedStartsWith(p, ps, word, words);
    SamePack(p, word);
    ConsAll(p, ps);
    ConsAll(head, Renumbered(ps, words));
    if [head] + Renumbered(ps, words) == [p] + ps {
      assert ([head] + Renumbered(ps, words))[0] == ([p] + ps)[0];
      assert Renumbered(ps, words) == ([p] + ps)[1..] == ps;
    }
  }

  lemma SamePack(p: Packet, word: Word)
    requires Packs(p)
    ensures Packs(p.(sequence := word))
  {
  }

  lemma RenumberedStartsWith(p: Packet, ps: seq<Packet>, word: Word, words: seq<Word>)
    requires |ps| == |words|
    ensures Renumbered([p] + ps, [word] + words) == [p.(sequence := word)] + Renumbered(ps, words)
  {
  }

  lemma ConsAll(p: Packet, ps: seq<Packet>)
    requires Packs(p) && AllPack(ps)
    ensures AllPack([p] + ps) && EncodedAll([p] + ps) == EncodedOne(p) + EncodedAll(ps)
  {
    assert ([p] + ps)[1..] == ps;
  }

  lemma DecodeStep(b: Bytes, seen: bool)
    requires b != [] && DecodeBody(b, seen).Ok?
    ensures |b| >= HEADER_SIZE && HEADER_SIZE <= U16(b, 0) % TYPE_STEP <= |b|
    ensures var length := U16(b, 0) % TYPE_STEP;
            var p := DecodedOne(b, length, seen);
            var rest := DecodeBody(b[length..], seen || p.Multi());
            && rest.Ok? && DecodeBody(b, seen).value == [p] + rest.value
            && SequenceWords(b, seen) == [U32(b, 8)] + SequenceWords(b[length..], seen || p.Multi())
  {
  }

  /**
    An accepted body is exactly its messages end to end, and encoding what was
    decoded gives it back exactly when no child's sequence word was dropped.
   */
  lemma {:induction false} BodyIsItsMessages(b: Bytes, seen: bool)
    requires DecodeBody(b, seen).Ok?
    ensures IsMessages(b, DecodeBody(b, seen).value, SequenceWords(b, seen))
    decreases |b|
  {
    if b == [] {
      assert Renumbered([], []) == [];
    } else {
      var length := U16(b, 0) % TYPE_STEP;
      DecodeStep(b, seen);
      var seen' := seen || DecodedOne(b, length, seen).Multi();
      BodyIsItsMessages(b[length..], seen');
      ChunkJoins(b, length, seen, DecodeBody(b[length..], seen').value, SequenceWords(b[length..], seen'));
    }
  }

  lemma ChunkJoins(b: Bytes, length: nat, seen: bool, ps: seq<Packet>, words: seq<Word>)
    requires HEADER_SIZE <= length <= |b| && length == U16(b, 0) % TYPE_STEP && IsMessages(b[length..], ps, words)
    ensures IsMessages(b, [DecodedOne(b, length, seen)] + ps, [U32(b, 8)] + words)
  {
    ChunkEncodesBack(b, length, seen);
    OneMoreMessage(b[..length], b[length..], DecodedOne(b, length, seen), U32(b, 8), ps, words);
    assert b == b[..length] + b[length..];
  }

  lemma SplitEqual(a: Bytes, b: Bytes, c: Bytes, d: Bytes)
    requires |a| == |c|
    ensures a + b == c + d <==> a == c && b == d
  {
    if a + b == c + d {
      assert a == (a + b)[..|a|] && c == (c + d)[..|c|] && b == (a + b)[|a|..] && d == (c + d)[|c|..];
    }
  }

  /**
    Re-encoding an accepted datagram with its own footer gives it back exactly when its
    children's sequence words are 0.
   */
  lemma EncodeAfterDecodeIff(data: Bytes)
    requires Decode(data).Ok?
    ensures var ps := Decode(data).value;
            var body, footer := data[..|data| - FOOTER_SIZE], data[|data| - FOOTER_SIZE..];
            && |SequenceWords(body, false)| == |ps|
            && (Encode(ps, footer) == Ok(data)
                <==> forall i :: 0 <= i < |ps| && ps[i].embedded ==> SequenceWords(body, false)[i] == 0)
  {
    var ps := Decode(data).value;
    var body, footer := data[..|data| - FOOTER_SIZE], data[|data| - FOOTER_SIZE..];
    var words := SequenceWords(body, false);
    BodyIsItsMessages(body, false);
    assert data == body + footer;
    SplitEqual(EncodedAll(ps), footer, body, footer);
    forall i | 0 <= i < |ps| ensures ps[i].sequence == if ps[i].embedded then 0 else words[i] {
      DecodedSequence(body, false, i);
    }
    assert Renumbered(ps, words) == ps <==> forall i :: 0 <= i < |ps| ==> words[i] == ps[i].sequence by {
      if Renumbered(ps, words) == ps { assert forall i :: 0 <= i < |ps| ==> Renumbered(ps, words)[i] == ps[i]; }
    }
  }

  lemma {:induction false} DecodedSequence(b: Bytes, seen: bool, i: nat)
    requires DecodeBody(b, seen).Ok? && i < |DecodeBody(b, seen).value|
    ensures |SequenceWords(b, seen)| == |DecodeBody(b, seen).value|
    ensures var p := DecodeBody(b, seen).value[i]; p.sequence == if p.embedded then 0 else SequenceWords(b, seen)[i]
    decreases |b|
  {
    BodyIsItsMessages(b, seen);
    if b != [] && i > 0 {
      var length := U16(b, 0) % TYPE_STEP;
      DecodedSequence(b[length..], seen || DecodedOne(b, length, seen).Multi(), i - 1);
    }
  }
}
