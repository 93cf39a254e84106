/** The SN@P datagram codec (opensnap/protocol/codec.py), bundles included. */
module Codec {
  import opened Snap
  import opened Bits

  const HEADER_SIZE := 16
  const FOOTER_SIZE := 4
  const TYPE_STEP := 0x400      // the type mask 0xFC00 keeps the bits from here up, the length mask 0x3FF those below
  const FOOTER_BYTES: Bytes := [0xBA, 0x47, 0x66, 0x11]
  const FOOTER_BYTES_KAGE: Bytes := [0xBA, 0x47, 0x66, 0x10]

  type Bytes = seq<Byte>

  type Word = x: int | 0 <= x < 0x1_0000_0000

  datatype Error =
    | TooSmall | NoFooter | HeaderCrossesEnd | InvalidLength | LengthExceedsBody   // decoding
    | NothingToEncode | Unpackable                                                // encoding

  datatype Result<+T> = Ok(value: T) | Err(error: Error)

  /** One message as the codec reads and writes it; `source` stands in for the session word when it is set. */
  datatype Packet = Packet(
    typeFlags: nat,
    packetNumber: nat,
    command: nat,
    sessionId: Word,
    sequence: Word,
    acknowledge: Word,
    payload: Bytes,
    sizeWord: Option<nat>,
    embedded: bool,
    source: Option<Word>)
  {
    predicate Multi() { HasFlag(typeFlags, FLAG_MULTI) }
  }

  // Big-endian words.

  function U16(b: Bytes, at: nat): nat
    requires at + 2 <= |b|
  {
    b[at] as int * 0x100 + b[at + 1] as int
  }

  function U32(b: Bytes, at: nat): Word
    requires at + 4 <= |b|
  {
    b[at] as int * 0x100_0000 + b[at + 1] as int * 0x1_0000 + b[at + 2] as int * 0x100 + b[at + 3] as int
  }

  function Pack16(n: nat): (b: Bytes)
    requires n < 0x1_0000
    ensures |b| == 2
  {
    [n / 0x100, n % 0x100]
  }

  function Pack32(n: Word): (b: Bytes)
    ensures |b| == 4
  {
    [n / 0x100_0000, n / 0x1_0000 % 0x100, n / 0x100 % 0x100, n % 0x100]
  }

  lemma PackedWordsReadBack(n: nat, w: Word)
    ensures n < 0x1_0000 ==> U16(Pack16(n), 0) == n
    ensures U32(Pack32(w), 0) == w
  {
    var top, next := w / 0x1_0000, w / 0x100;
    assert w / 0x100_0000 == top / 0x100 && top == next / 0x100;
  }

  lemma ReadWordsPackBack(b: Bytes, at: nat)
    ensures at + 2 <= |b| ==> Pack16(U16(b, at)) == b[at..at + 2]
    ensures at + 4 <= |b| ==> Pack32(U32(b, at)) == b[at..at + 4]
  {
    if at + 4 <= |b| {
      var w := U32(b, at);
      assert w / 0x100 == b[at] as int * 0x1_0000 + b[at + 1] as int * 0x100 + b[at + 2] as int;
      assert w / 0x1_0000 == b[at] as int * 0x100 + b[at + 1] as int;
      assert w / 0x100_0000 == b[at] as int;
    }
  }

  // The size word.

  lemma SizeWordIsASum(flags: nat, length: nat)
    requires flags % TYPE_STEP == 0 && length < TYPE_STEP
    ensures BitOr(flags, length) == flags + length
  {
    PowersOfTwo();
    OrOfDisjointBits(flags / TYPE_STEP, length, 10);
  }

  // Encoding.

  function SizeWordOf(p: Packet): nat {
    if p.sizeWord.Some? then p.sizeWord.value else BitOr(p.typeFlags, |p.payload| + HEADER_SIZE)
  }

  function Header(word: nat, p: Packet): (b: Bytes)
    requires word < 0x1_0000
    ensures |b| == HEADER_SIZE
  {
    Pack16(word) + [p.packetNumber % 0x100, p.command % 0x100]
    + Pack32(if p.source.Some? then p.source.value else p.sessionId) + Pack32(p.sequence) + Pack32(p.acknowledge)
  }

  predicate Packs(p: Packet) { SizeWordOf(p) < 0x1_0000 }

  predicate AllPack(ps: seq<Packet>) {
    forall i :: 0 <= i < |ps| ==> Packs(ps[i])
  }

  function EncodedOne(p: Packet): Bytes
    requires Packs(p)
  {
    Header(SizeWordOf(p), p) + p.payload
  }

  function EncodedAll(ps: seq<Packet>): Bytes
    requires AllPack(ps)
  {
    if ps == [] then [] else EncodedOne(ps[0]) + EncodedAll(ps[1..])
  }

  function Encode(ps: seq<Packet>, footer: Bytes): Result<Bytes> {
    if ps == [] then Err(NothingToEncode)
    else if AllPack(ps) then Ok(EncodedAll(ps) + footer)
    else Err(Unpackable)
  }

  method EncodeMessages(ps: seq<Packet>, footer: Bytes) returns (r: Result<Bytes>)
    ensures r == Encode(ps, footer)
  {
    if ps == [] {
      return Err(NothingToEncode);
    }
    var encoded: Bytes := [];
    assert ps[0..] == ps;
    for i := 0 to |ps|
      invariant forall k :: 0 <= k < i ==> Packs(ps[k])
      invariant AllPack(ps) ==> EncodedAll(ps) == encoded + EncodedAll(ps[i..])
    {
      var word := SizeWordOf(ps[i]);
      if word >= 0x1_0000 {
        assert !Packs(ps[i]);
        return Err(Unpackable);
      }
      if AllPack(ps) { FirstEncoded(ps[i..]); }
      encoded := encoded + Header(word, ps[i]);
      encoded := encoded + ps[i].payload;
      assert ps[i..][1..] == ps[i + 1..];
    }
    assert ps[|ps|..] == [] && encoded + [] == encoded;
    r := Ok(encoded + footer);
  }

  lemma FirstEncoded(ps: seq<Packet>)
    requires ps != [] && AllPack(ps)
    ensures EncodedAll(ps) == Header(SizeWordOf(ps[0]), ps[0]) + ps[0].payload + EncodedAll(ps[1..])
  {
  }

  // Decoding.

  /** The message at the start of `b`, whose size word gives length `length`. */
  function DecodedOne(b: Bytes, length: nat, seen: bool): Packet
    requires HEADER_SIZE <= length <= |b|
  {
    var word := U16(b, 0);
    var flags := word - word % TYPE_STEP;
    Packet(flags, b[2], b[3], U32(b, 4), if seen then 0 else U32(b, 8), U32(b, 12), b[HEADER_SIZE..length],
           if HasFlag(flags, FLAG_MULTI) then Some(word) else None, seen, None)
  }

  function DecodeBody(b: Bytes, seen: bool): Result<seq<Packet>>
    decreases |b|
  {
    if b == [] then Ok([])
    else if |b| < HEADER_SIZE then Err(HeaderCrossesEnd)
    else
      var length := U16(b, 0) % TYPE_STEP;
      if length < HEADER_SIZE then Err(InvalidLength)
      else if length > |b| then Err(LengthExceedsBody)
      else
        var p := DecodedOne(b, length, seen);
        var rest := DecodeBody(b[length..], seen || p.Multi());
        if rest.Ok? then Ok([p] + rest.value) else rest
  }

  function Decode(data: Bytes): Result<seq<Packet>> {
    if |data| < HEADER_SIZE + FOOTER_SIZE then Err(TooSmall)
    else if data[|data| - FOOTER_SIZE..] != FOOTER_BYTES && data[|data| - FOOTER_SIZE..] != FOOTER_BYTES_KAGE
    then Err(NoFooter)
    else DecodeBody(data[..|data| - FOOTER_SIZE], false)
  }

  method DecodeDatagram(data: Bytes) returns (r: Result<seq<Packet>>)
    ensures r == Decode(data)
  {
    if |data| < HEADER_SIZE + FOOTER_SIZE {
      return Err(TooSmall);
    }
    var footer := data[|data| - FOOTER_SIZE..];
    if footer != FOOTER_BYTES && footer != FOOTER_BYTES_KAGE {
      return Err(NoFooter);
    }
    var messages: seq<Packet> := [];
    var offset, limit := 0, |data| - FOOTER_SIZE;
    var seen := false;
    ghost var all := DecodeBody(data[..limit], false);
    assert data[0..limit] == data[..limit];
    NothingBefore(all);
    while offset < limit
      invariant 0 <= offset <= limit
      invariant all == After(messages, DecodeBody(data[offset..limit], seen))
    {
      ghost var here := data[offset..limit];
      if offset + HEADER_SIZE > limit {
        return Err(HeaderCrossesEnd);
      }
      assert U16(data, offset) == U16(here, 0);
      var length := U16(data, offset) % TYPE_STEP;
      if length < HEADER_SIZE {
        return Err(InvalidLength);
      }
      if offset + length > limit {
        return Err(LengthExceedsBody);
      }
      var message := DecodedOne(data[offset..limit], length, seen);
      OneMore(here, messages, seen);
      messages := messages + [message];
      offset := offset + length;
      seen := seen || message.Multi();
      assert here[length..] == data[offset..limit];
    }
    assert data[offset..limit] == [] && messages + [] == messages;
    r := Ok(messages);
  }

  function After(messages: seq<Packet>, rest: Result<seq<Packet>>): Result<seq<Packet>> {
    if rest.Ok? then Ok(messages + rest.value) else rest
  }

  lemma OneMore(b: Bytes, messages: seq<Packet>, seen: bool)
    requires |b| >= HEADER_SIZE && HEADER_SIZE <= U16(b, 0) % TYPE_STEP <= |b|
    ensures var length := U16(b, 0) % TYPE_STEP; var p := DecodedOne(b, length, seen);
            After(messages, DecodeBody(b, seen)) == After(messages + [p], DecodeBody(b[length..], seen || p.Multi()))
  {
    var length := U16(b, 0) % TYPE_STEP;
    var p := DecodedOne(b, length, seen);
    var rest := DecodeBody(b[length..], seen || p.Multi());
    if rest.Ok? { assert messages + ([p] + rest.value) == messages + [p] + rest.value; }
  }

  lemma NothingBefore(r: Result<seq<Packet>>)
    ensures After([], r) == r
  {
    if r.Ok? { assert [] + r.value == r.value; }
  }
}
