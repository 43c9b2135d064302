/** Packets as MessagePack items: how they are written, and the reader that takes them apart.

    A reader that meets an unexpected item goes into an error state in which every further read
    yields a default; packet processing finds out at the end. */
module Tokens {
  import opened HashList
  import opened Sequences

  /** Unsigned integers up to 32 bits; an array or map is its header followed by its items; Other is
      any item the protocol never uses. */
  datatype Token = Nil | Map(size: nat) | Array(size: nat) | Uint(v: bv32) | Str(s: string) | Bin(b: Blob) | Other

  type Blob = seq<bv8>
  type Packet = seq<Token>

  const NODE_NAME: bv32 := 0x8C
  const PROVIDED_ARRAY: bv32 := 0x4D
  const TRACKED_ARRAY: bv32 := 0xD4
  const LINK_GROUP: bv32 := 0x5A
  const CONTENT_GROUP: bv32 := 0xA5
  const MAX_NUM_LINK_DATA := 3
  const MAX_NUM_GROUPS := 2
  const MAX_MAP_SIZE := 0xFFFF_FFFF

  // ---------- writing ----------

  function HashTokens(hs: seq<Hash>): (p: Packet)
    ensures |p| == |hs|
  {
    seq(|hs|, i requires 0 <= i < |hs| => Uint(hs[i]))
  }

  function ArrayData(code: bv32, hs: seq<Hash>): Packet {
    [Uint(code), Array(|hs|)] + HashTokens(hs)
  }

  function KeepalivePacket(): Packet {
    [Nil]
  }

  function DiscoveryPacket(name: string, hs: seq<Hash>): Packet {
    [Map(1), Uint(LINK_GROUP), Map(2), Uint(NODE_NAME), Str(name)] + ArrayData(TRACKED_ARRAY, hs)
  }

  /** The reply to a link group; nothing at all when no hash matched. The arrays are written from
      their last entry to the first. */
  function ReplyPacket(name: string, tracked: seq<Hash>, provided: seq<Hash>): Packet {
    var groups := (if tracked != [] then 1 else 0) + (if provided != [] then 1 else 0);
    if groups == 0 then []
    else
      [Map(1), Uint(LINK_GROUP), Map(groups + 1), Uint(NODE_NAME), Str(name)]
      + (if tracked != [] then ArrayData(TRACKED_ARRAY, Reverse(tracked)) else [])
      + (if provided != [] then ArrayData(PROVIDED_ARRAY, Reverse(provided)) else [])
  }

  function ContentPacket(hash: Hash, blob: Blob): Packet {
    [Map(1), Uint(CONTENT_GROUP), Map(1), Uint(hash), Bin(blob)]
  }

  // ---------- reading ----------

  datatype Reader = Reader(tokens: Packet, ok: bool)

  function Fail(r: Reader): Reader {
    Reader(r.tokens, false)
  }

  function Next(r: Reader): Reader
    requires r.tokens != []
  {
    Reader(r.tokens[1..], true)
  }

  predicate CanRead(r: Reader) {
    r.ok && r.tokens != []
  }

  /** A map header of bounded size, or nil; whether it was a map, and its size. */
  function ExpectMapOrNil(r: Reader, max: nat): (bool, nat, Reader) {
    if !CanRead(r) then (false, 0, Fail(r))
    else match r.tokens[0]
      case Nil => (false, 0, Next(r))
      case Map(n) => if n <= max then (true, n, Next(r)) else (false, 0, Fail(r))
      case _ => (false, 0, Fail(r))
  }

  function ExpectArrayOrNil(r: Reader, max: nat): (bool, nat, Reader) {
    if !CanRead(r) then (false, 0, Fail(r))
    else match r.tokens[0]
      case Nil => (false, 0, Next(r))
      case Array(n) => if n <= max then (true, n, Next(r)) else (false, 0, Fail(r))
      case _ => (false, 0, Fail(r))
  }

  function ExpectU8(r: Reader): (bv32, Reader) {
    if CanRead(r) && r.tokens[0].Uint? && r.tokens[0].v < 256 then (r.tokens[0].v, Next(r)) else (0, Fail(r))
  }

  function ExpectU32(r: Reader): (bv32, Reader) {
    if CanRead(r) && r.tokens[0].Uint? then (r.tokens[0].v, Next(r)) else (0, Fail(r))
  }

  /** A string that fits a buffer with its terminator, and holds no terminator itself. */
  predicate FitsBuffer(s: string, size: nat) {
    |s| < size && '\0' !in s
  }

  function ExpectCstr(r: Reader, size: nat): (string, Reader) {
    if CanRead(r) && r.tokens[0].Str? && FitsBuffer(r.tokens[0].s, size) then (r.tokens[0].s, Next(r))
    else ("", Fail(r))
  }

  /** The length of a byte string and its bytes. */
  function ExpectBin(r: Reader): (Blob, Reader) {
    if CanRead(r) && r.tokens[0].Bin? then (r.tokens[0].b, Next(r)) else ([], Fail(r))
  }
}
