/**
  The multi-lobby USER reply (opensnap/plugins/automodellista/plugin.py): one
  packet whose payload runs on into embedded entries, so that the size word
  covers the first lobby only and a client reads one message per lobby.
 */
module LobbyBurst {
  import opened Snap
  import opened Codec
  import opened CodecInverse
  import opened CodecBytes

  const CMD_QUERY_ATTRIBUTE := 0x09
  const OUTER_FLAGS := 0x7800      // lobby channel 0x3000, response 0x4000, multi 0x0800
  const ENTRY_SIZE_WORD := 0x501C  // lobby flag, response, 28 bytes
  const ENTRY_SIZE := 0x1C
  const USER_TOKEN: Bytes := [0x55, 0x53, 0x45, 0x52]

  datatype Lobby = Lobby(id: Word, users: Word)

  /** The request words the burst echoes, and whether the reply is reliable. */
  datatype Request = Request(packetNumber: nat, sessionId: Word, sequence: Word, reply: Word, reliable: bool)

  function ReliableBit(q: Request): nat { if q.reliable then FLAG_RELIABLE else 0 }

  function UserCount(l: Lobby): (b: Bytes)
    ensures |b| == 12
  {
    Pack32(l.id) + USER_TOKEN + Pack32(l.users)
  }

  function EntryBytes(q: Request, n: nat, l: Lobby): Bytes {
    Pack16(ReliableBit(q) + ENTRY_SIZE_WORD) + [n % 0x100, CMD_QUERY_ATTRIBUTE]
    + Pack32(q.sessionId) + Pack32(0) + Pack32(q.sequence) + UserCount(l)
  }

  function EntriesBytes(q: Request, n: nat, lobbies: seq<Lobby>): Bytes
    decreases |lobbies|
  {
    if lobbies == [] then [] else EntryBytes(q, n, lobbies[0]) + EntriesBytes(q, n + 1, lobbies[1..])
  }

  method BuildMultiLobbyUserQueryPayload(q: Request, lobbies: seq<Lobby>) returns (payload: Bytes)
    ensures payload == if lobbies == [] then [] else UserCount(lobbies[0]) + EntriesBytes(q, 1, lobbies[1..])
  {
    if lobbies == [] {
      return [];
    }
    payload := UserCount(lobbies[0]);
    for n := 1 to |lobbies|
      invariant UserCount(lobbies[0]) + EntriesBytes(q, 1, lobbies[1..]) == payload + EntriesBytes(q, n, lobbies[n..])
    {
      assert lobbies[n..][1..] == lobbies[n + 1..];
      assert payload + (EntryBytes(q, n, lobbies[n]) + EntriesBytes(q, n + 1, lobbies[n + 1..]))
          == payload + EntryBytes(q, n, lobbies[n]) + EntriesBytes(q, n + 1, lobbies[n + 1..]);
      payload := payload + EntryBytes(q, n, lobbies[n]);
    }
    assert lobbies[|lobbies|..] == [] && payload + [] == payload;
  }

  /** The one packet the plugin builds, with its size word overridden. */
  function Outer(q: Request, payload: Bytes): Packet {
    Packet(OUTER_FLAGS + ReliableBit(q), q.packetNumber, CMD_QUERY_ATTRIBUTE, q.sessionId, q.reply, q.sequence, payload,
           Some(OUTER_FLAGS + ReliableBit(q) + ENTRY_SIZE), false, None)
  }

  /** The message a client reads for lobby `n` of the burst. */
  function Read(q: Request, n: nat, l: Lobby): Packet {
    if n == 0 then Outer(q, UserCount(l))
    else
      Packet(ReliableBit(q) + 0x5000, n % 0x100, CMD_QUERY_ATTRIBUTE, q.sessionId, 0, q.sequence, UserCount(l), None,
          true, None)
  }

  function ReadFrom(q: Request, n: nat, lobbies: seq<Lobby>): (r: seq<Packet>)
    ensures |r| == |lobbies| && forall i :: 0 <= i < |r| ==> r[i] == Read(q, n + i, lobbies[i])
  {
    seq(|lobbies|, i requires 0 <= i < |lobbies| => Read(q, n + i, lobbies[i]))
  }

  lemma EntryEncodes(q: Request, n: nat, l: Lobby)
    requires n > 0
    ensures Encodable(Read(q, n, l)) && Packs(Read(q, n, l)) && EncodedOne(Read(q, n, l)) == EntryBytes(q, n, l)
    ensures !Read(q, n, l).Multi()
  {
    EncodablePacks(Read(q, n, l));
    assert n % 0x100 % 0x100 == n % 0x100;
  }

  lemma {:induction false} EntriesEncode(q: Request, n: nat, lobbies: seq<Lobby>)
    requires n > 0
    ensures AllEncodable(ReadFrom(q, n, lobbies)) && AllPack(ReadFrom(q, n, lobbies))
    ensures EncodedAll(ReadFrom(q, n, lobbies)) == EntriesBytes(q, n, lobbies)
    ensures AllReadBack(ReadFrom(q, n, lobbies), true) == ReadFrom(q, n, lobbies)
    decreases |lobbies|
  {
    if lobbies != [] {
      EntryEncodes(q, n, lobbies[0]);
      EntriesEncode(q, n + 1, lobbies[1..]);
      var all, rest := ReadFrom(q, n, lobbies), ReadFrom(q, n + 1, lobbies[1..]);
      assert all == [Read(q, n, lobbies[0])] + rest;
      assert all[1..] == rest;
      assert forall i :: 1 <= i < |all| ==> all[i] == rest[i - 1];
    }
  }

  lemma BurstSplits(q: Request, lobbies: seq<Lobby>)
    requires lobbies != []
    ensures var ps, rest := ReadFrom(q, 0, lobbies), ReadFrom(q, 1, lobbies[1..]);
            ps == [Outer(q, UserCount(lobbies[0]))] + rest && ps[1..] == rest
  {
  }

  lemma OuterEncodes(q: Request, payload: Bytes)
    requires q.packetNumber < 0x100
    ensures Packs(Outer(q, payload))
    ensures EncodedOne(Outer(q, payload)) == Header(OUTER_FLAGS + ReliableBit(q) + ENTRY_SIZE, Outer(q, [])) + payload
    ensures |payload| == 12 ==> Encodable(Outer(q, payload))
    ensures Outer(q, payload).Multi()
  {
  }

  /** The burst's bytes are those of one ordinary packet followed by one entry per further lobby. */
  lemma BurstIsABundle(q: Request, lobbies: seq<Lobby>)
    requires lobbies != [] && q.packetNumber < 0x100
    ensures var burst := Outer(q, UserCount(lobbies[0]) + EntriesBytes(q, 1, lobbies[1..]));
            var ps := ReadFrom(q, 0, lobbies);
            && Packs(burst) && AllPack(ps) && EncodedAll([burst]) == EncodedAll(ps)
  {
    var first, entries := UserCount(lobbies[0]), EntriesBytes(q, 1, lobbies[1..]);
    EntriesEncode(q, 1, lobbies[1..]);
    BurstSplits(q, lobbies);
    OuterEncodes(q, first);
    OuterEncodes(q, first + entries);
    OneEncoded(Outer(q, first + entries));
    ConsAll(Outer(q, first), ReadFrom(q, 1, lobbies[1..]));
    Regroup(Header(OUTER_FLAGS + ReliableBit(q) + ENTRY_SIZE, Outer(q, [])), first, entries);
  }

  lemma OneEncoded(p: Packet)
    requires Packs(p)
    ensures AllPack([p]) && EncodedAll([p]) == EncodedOne(p)
  {
    assert [p][1..] == [];
    assert EncodedOne(p) + [] == EncodedOne(p);
  }

  lemma Regroup(a: Bytes, b: Bytes, c: Bytes)
    ensures a + (b + c) == a + b + c
  {
  }

  lemma BundleReadsAsItself(q: Request, lobbies: seq<Lobby>)
    requires lobbies != [] && q.packetNumber < 0x100
    ensures var ps := ReadFrom(q, 0, lobbies); AllEncodable(ps) && AllReadBack(ps, false) == ps
  {
    var rest := ReadFrom(q, 1, lobbies[1..]);
    EntriesEncode(q, 1, lobbies[1..]);
    BurstSplits(q, lobbies);
    OuterEncodes(q, UserCount(lobbies[0]));
    var ps := ReadFrom(q, 0, lobbies);
    assert forall i :: 1 <= i < |ps| ==> ps[i] == rest[i - 1];
    assert AllReadBack(ps, false) == [ReadBack(ps[0], false)] + AllReadBack(rest, true);
  }

  /**
    Sent as one packet, the burst decodes to one message per lobby, in lobby
    order, all but the first embedded, whichever footer ends the datagram.
   */
  lemma BurstReadsAsOneMessagePerLobby(q: Request, lobbies: seq<Lobby>, footer: Bytes)
    requires lobbies != [] && q.packetNumber < 0x100
    requires footer == FOOTER_BYTES || footer == FOOTER_BYTES_KAGE
    ensures var burst := Outer(q, UserCount(lobbies[0]) + EntriesBytes(q, 1, lobbies[1..]));
            && Encode([burst], footer).Ok?
            && Decode(Encode([burst], footer).value) == Ok(ReadFrom(q, 0, lobbies))
  {
    BurstIsABundle(q, lobbies);
    BundleReadsAsItself(q, lobbies);
    DatagramReadsBack(ReadFrom(q, 0, lobbies), footer);
  }

  /** Message `i` shows lobby `i`: its id, the letters USER, its users, and the request it answers. */
  lemma MessageShowsItsLobby(q: Request, lobbies: seq<Lobby>, i: nat)
    requires i < |lobbies|
    ensures var m := ReadFrom(q, 0, lobbies)[i];
            && |m.payload| == 12 && IsWord(m.payload, 0, lobbies[i].id) && IsWord(m.payload, 8, lobbies[i].users)
            && m.payload[4..8] == [0x55, 0x53, 0x45, 0x52]
            && m.command == 9 && m.sessionId == q.sessionId && m.acknowledge == q.sequence
            && HasFlag(m.typeFlags, FLAG_RESPONSE) && HasFlag(m.typeFlags, FLAG_RELIABLE) == q.reliable
            && (m.embedded <==> i > 0) && m.sequence == (if i == 0 then q.reply else 0)
            && m.packetNumber == (if i == 0 then q.packetNumber else i % 256)
  {
    WordBytes(lobbies[i].id);
    WordBytes(lobbies[i].users);
    hide Pack32;
  }

  /** Without a lobby the size word promises more than there is, and the datagram is refused. */
  lemma EmptyBurstIsRefused(q: Request)
    requires q.packetNumber < 0x100
    ensures Encode([Outer(q, [])], FOOTER_BYTES).Ok?
    ensures Decode(Encode([Outer(q, [])], FOOTER_BYTES).value) == Err(LengthExceedsBody)
  {
    var p := Outer(q, []);
    var word := OUTER_FLAGS + ReliableBit(q) + ENTRY_SIZE;
    OuterEncodes(q, []);
    OneEncoded(p);
    var body := EncodedAll([p]);
    assert body == Header(word, p) + [];
    HeaderFields(word, p, []);
    assert (body + FOOTER_BYTES)[..HEADER_SIZE] == body && (body + FOOTER_BYTES)[HEADER_SIZE..] == FOOTER_BYTES;
    assert word % TYPE_STEP == ENTRY_SIZE;
  }
}
