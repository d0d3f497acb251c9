/** Message frame sizes and the byte order of the size field.

    On the wire the 32-bit payload size is little-endian.  `HTONSIZE` and
    `NTOHSIZE` convert a size held in host order to and from that order: on a
    big-endian host both are `bswap32`, on a little-endian host both are the
    identity. */
module Frame {

  /** `msg_size_t` is a 32-bit unsigned integer. */
  type MsgSize = bv32
  type Byte = bv8

  /** The byte order the library is built for: `BigEndian` when the
      `BIG_ENDIAN` macro is defined at compile time, `LittleEndian` otherwise.
      The lemmas below take this to be the byte order of the host the library
      runs on; a build whose macro disagrees with the host is not modelled. */
  datatype Endianness = LittleEndian | BigEndian

  /** Length of an X protocol message header: 4 size bytes and 1 type byte. */
  const HeaderLength: nat := 5

  /** Upper bounds of the internal send and receive buffers (1 GiB each). */
  const MaxWrSize: nat := 1024 * 1024 * 1024
  const MaxRdSize: nat := MaxWrSize

  lemma BufferLimits()
    ensures HeaderLength == 4 + 1
    ensures MaxRdSize == MaxWrSize == 0x4000_0000
    ensures MaxWrSize < 0x1_0000_0000  // representable in the 32-bit size field
  {
  }

  /** Reverses the four bytes of a 32-bit value. */
  function Bswap32(x: MsgSize): (r: MsgSize)
    ensures var b := EncodeLE(x); EncodeLE(r) == [b[3], b[2], b[1], b[0]]
  {
    (x << 24) | ((x & 0xFF00) << 8) | ((x >> 8) & 0xFF00) | (x >> 24)
  }

  /** `HTONSIZE`: host order to wire order.  The converted value, kept in
      memory by the host, is laid out as the little-endian bytes of `s`. */
  function HtonSize(host: Endianness, s: MsgSize): (r: MsgSize)
    ensures StoreHost(host, r) == EncodeLE(s)
  {
    if host == BigEndian then Bswap32(s) else s
  }

  /** `NTOHSIZE`: wire order to host order.  The result is the little-endian
      value of the bytes the host keeps in memory for `s`. */
  function NtohSize(host: Endianness, s: MsgSize): (r: MsgSize)
    ensures r == DecodeLE(StoreHost(host, s))
  {
    if host == BigEndian then Bswap32(s) else s
  }

  /** The four bytes of `v` with the least significant first. */
  function EncodeLE(v: MsgSize): (b: seq<Byte>)
    ensures |b| == 4
  {
    [(v & 0xFF) as Byte, ((v >> 8) & 0xFF) as Byte,
     ((v >> 16) & 0xFF) as Byte, ((v >> 24) & 0xFF) as Byte]
  }

  /** The value of four bytes read least significant first. */
  function DecodeLE(b: seq<Byte>): (v: MsgSize)
    requires |b| == 4
  {
    Pack(b[0], b[1], b[2], b[3])
  }

  /** The 32-bit value whose bytes, least significant first, are `b0`..`b3`. */
  function Pack(b0: Byte, b1: Byte, b2: Byte, b3: Byte): (v: MsgSize) {
    (b0 as MsgSize) | ((b1 as MsgSize) << 8)
      | ((b2 as MsgSize) << 16) | ((b3 as MsgSize) << 24)
  }

  /** The bytes a host of the given order keeps in memory for `v`. */
  function StoreHost(host: Endianness, v: MsgSize): (b: seq<Byte>)
    ensures |b| == 4
  {
    var le := EncodeLE(v);
    if host == LittleEndian then le else [le[3], le[2], le[1], le[0]]
  }

  /** The value a host of the given order reads from four bytes of memory. */
  function LoadHost(host: Endianness, b: seq<Byte>): (v: MsgSize)
    requires |b| == 4
  {
    if host == LittleEndian then DecodeLE(b) else DecodeLE([b[3], b[2], b[1], b[0]])
  }

  lemma DecodeEncodeLE(v: MsgSize)
    ensures DecodeLE(EncodeLE(v)) == v
  {
  }

  lemma EncodeDecodeLE(b: seq<Byte>)
    requires |b| == 4
    ensures EncodeLE(DecodeLE(b)) == b
  {
  }

  lemma Bswap32Involutive(x: MsgSize)
    ensures Bswap32(Bswap32(x)) == x
  {
  }

  /** The two macros are the same transformation, and each undoes the other:
      a size converted host to wire to host (or wire to host to wire) is the
      original 32-bit value, on either kind of host. */
  lemma SizeConversionRoundTrip(host: Endianness, s: MsgSize)
    ensures HtonSize(host, s) == NtohSize(host, s)
    ensures NtohSize(host, HtonSize(host, s)) == s
    ensures HtonSize(host, NtohSize(host, s)) == s
  {
  }

  /** A size converted with `HTONSIZE` and then stored by the host occupies
      memory as the little-endian encoding of the original size: the bytes sent
      on the wire do not depend on the host order. */
  lemma HtonSizeStoresLittleEndian(host: Endianness, s: MsgSize)
    ensures StoreHost(host, HtonSize(host, s)) == EncodeLE(s)
  {
  }

  /** Four wire bytes loaded by the host and converted with `NTOHSIZE` give
      their little-endian value, on either kind of host. */
  lemma NtohSizeLoadsLittleEndian(host: Endianness, w: seq<Byte>)
    requires |w| == 4
    ensures NtohSize(host, LoadHost(host, w)) == DecodeLE(w)
  {
    if host == LittleEndian {
      EncodeDecodeLE(w);
    } else {
      var r := [w[3], w[2], w[1], w[0]];
      EncodeDecodeLE(r);
      assert StoreHost(host, LoadHost(host, w)) == [r[3], r[2], r[1], r[0]] == w;
    }
  }
}
