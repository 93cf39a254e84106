/** The SN@P message record and header flags that every other module shares. */
module Snap {

  datatype Option<+T> = None | Some(value: T)

  datatype Endpoint = Endpoint(host: string, port: nat)

  type Byte = x: int | 0 <= x < 256

  const FLAG_RELAY := 0x0400
  const FLAG_MULTI := 0x0800
  const FLAG_LOBBY := 0x1000
  const FLAG_ROOM := 0x2000
  const FLAG_RESPONSE := 0x4000
  const FLAG_RELIABLE := 0x8000

  const CMD_ACK := 0

  /** One message; `typeFlags` is the upper part of the size word, as a number. */
  datatype Message = Message(
    endpoint: Endpoint,
    typeFlags: nat,
    packetNumber: int,
    command: int,
    sessionId: int,
    sequence: nat,
    acknowledge: int,
    payload: seq<Byte>,
    embedded: bool)
  {
    predicate Reliable() { HasFlag(typeFlags, FLAG_RELIABLE) }

    predicate Response() { HasFlag(typeFlags, FLAG_RESPONSE) }
  }

  /** `flags & bit != 0`, for `bit` a power of two. */
  predicate HasFlag(flags: nat, bit: nat)
    requires bit > 0
  {
    flags / bit % 2 == 1
  }

  /** `flags | bit`, for `bit` a power of two. */
  function WithFlag(flags: nat, bit: nat): nat
    requires bit > 0
  {
    if HasFlag(flags, bit) then flags else flags + bit
  }

  /** `flags & ~bit`, for `bit` a power of two. */
  function WithoutFlag(flags: nat, bit: nat): nat
    requires bit > 0
  {
    if HasFlag(flags, bit) then
      assert flags >= bit;
      flags - bit
    else flags
  }

  lemma NextBit(flags: nat)
    ensures flags / FLAG_RELIABLE == flags / FLAG_RESPONSE / 2
  {
  }

  /** Setting or clearing the response bit (0x4000) does what it says and leaves the reliable bit (0x8000) alone. */
  lemma ResponseBitIsSeparate(flags: nat)
    ensures HasFlag(WithFlag(flags, FLAG_RESPONSE), FLAG_RESPONSE)
    ensures !HasFlag(WithoutFlag(flags, FLAG_RESPONSE), FLAG_RESPONSE)
    ensures HasFlag(WithFlag(flags, FLAG_RESPONSE), FLAG_RELIABLE) == HasFlag(flags, FLAG_RELIABLE)
    ensures HasFlag(WithoutFlag(flags, FLAG_RESPONSE), FLAG_RELIABLE) == HasFlag(flags, FLAG_RELIABLE)
  {
    var q := flags / FLAG_RESPONSE;
    NextBit(flags);
    if HasFlag(flags, FLAG_RESPONSE) {
      assert (flags - FLAG_RESPONSE) / FLAG_RESPONSE == q - 1;
      NextBit(flags - FLAG_RESPONSE);
    } else {
      assert (flags + FLAG_RESPONSE) / FLAG_RESPONSE == q + 1;
      NextBit(flags + FLAG_RESPONSE);
    }
  }

  /** Any element, for loops over a set whose order does not matter. */
  method Pick<T(==)>(s: set<T>) returns (x: T)
    requires s != {}
    ensures x in s
  {
    x :| x in s;
  }
}
