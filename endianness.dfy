/**
 * Byte-order helpers of the USB host library: the 16- and 32-bit byte
 * swaps (as compile-time macro and as run-time function), the in-place
 * n-byte reversal, and the mapping of the little/big-endian conversion
 * names onto those swaps for either kind of build.
 */
module Endianness {

  /** The byte order a build is configured for (ARCH_LITTLE_ENDIAN or ARCH_BIG_ENDIAN). */
  datatype Arch = LittleEndian | BigEndian

  /** Byte `i` of a 16-bit value, counted from the least significant byte. */
  function Byte16(x: bv16, i: nat): bv8
    requires i < 2
  {
    if i == 0 then (x & 0xFF) as bv8 else (x >> 8) as bv8
  }

  /** Byte `i` of a 32-bit value, counted from the least significant byte. */
  function Byte32(x: bv32, i: nat): bv8
    requires i < 4
  {
    if i == 0 then (x & 0xFF) as bv8
    else if i == 1 then ((x >> 8) & 0xFF) as bv8
    else if i == 2 then ((x >> 16) & 0xFF) as bv8
    else (x >> 24) as bv8
  }

  /** SWAPENDIAN_16: the two bytes of `x` exchanged. */
  function SwapEndian16Macro(x: bv16): (r: bv16)
    ensures Byte16(r, 0) == Byte16(x, 1) && Byte16(r, 1) == Byte16(x, 0)
  {
    ((x & 0xFF00) >> 8) | ((x & 0x00FF) << 8)
  }

  /** SWAPENDIAN_32: the four bytes of `x` in reverse order. */
  function SwapEndian32Macro(x: bv32): (r: bv32)
    ensures Byte32(r, 0) == Byte32(x, 3) && Byte32(r, 1) == Byte32(x, 2)
    ensures Byte32(r, 2) == Byte32(x, 1) && Byte32(r, 3) == Byte32(x, 0)
  {
    ((x & 0xFF00_0000) >> 24) | ((x & 0x00FF_0000) >> 8) |
    ((x & 0x0000_FF00) << 8) | ((x & 0x0000_00FF) << 24)
  }

  /** The bytes of a 16-bit word as they lie in memory (the union's `Bytes` view). */
  function NativeBytes16(arch: Arch, x: bv16): (b: seq<bv8>)
    ensures |b| == 2
  {
    match arch
    case LittleEndian => [Byte16(x, 0), Byte16(x, 1)]
    case BigEndian => [Byte16(x, 1), Byte16(x, 0)]
  }

  /** The 16-bit value with low byte `b0` and high byte `b1`. */
  function Compose16(b0: bv8, b1: bv8): bv16
  {
    (b1 as bv16 << 8) | b0 as bv16
  }

  /** The bytes of a composed value are the bytes it was composed of. */
  lemma Compose16Bytes(b0: bv8, b1: bv8)
    ensures Byte16(Compose16(b0, b1), 0) == b0 && Byte16(Compose16(b0, b1), 1) == b1
  {
  }

  /** A value is composed of its own bytes. */
  lemma Byte16Recompose(x: bv16)
    ensures Compose16(Byte16(x, 0), Byte16(x, 1)) == x
  {
  }

  /** The 16-bit word whose memory image is `b` (the union's `Word` view). */
  function FromNativeBytes16(arch: Arch, b: seq<bv8>): (x: bv16)
    requires |b| == 2
    ensures NativeBytes16(arch, x) == b
  {
    match arch
    case LittleEndian =>
      Compose16Bytes(b[0], b[1]);
      Compose16(b[0], b[1])
    case BigEndian =>
      Compose16Bytes(b[1], b[0]);
      Compose16(b[1], b[0])
  }

  /** The bytes of a 32-bit word as they lie in memory. */
  function NativeBytes32(arch: Arch, x: bv32): (b: seq<bv8>)
    ensures |b| == 4
  {
    match arch
    case LittleEndian => [Byte32(x, 0), Byte32(x, 1), Byte32(x, 2), Byte32(x, 3)]
    case BigEndian => [Byte32(x, 3), Byte32(x, 2), Byte32(x, 1), Byte32(x, 0)]
  }

  /** The 32-bit value with bytes `b0` (least significant) to `b3`. */
  function Compose32(b0: bv8, b1: bv8, b2: bv8, b3: bv8): bv32
  {
    (b3 as bv32 << 24) | (b2 as bv32 << 16) | (b1 as bv32 << 8) | b0 as bv32
  }

  /** The bytes of a composed value are the bytes it was composed of. */
  lemma Compose32Bytes(b0: bv8, b1: bv8, b2: bv8, b3: bv8)
    ensures var x := Compose32(b0, b1, b2, b3);
      Byte32(x, 0) == b0 && Byte32(x, 1) == b1 && Byte32(x, 2) == b2 && Byte32(x, 3) == b3
  {
  }

  /** A value is composed of its own bytes. */
  lemma Byte32Recompose(x: bv32)
    ensures Compose32(Byte32(x, 0), Byte32(x, 1), Byte32(x, 2), Byte32(x, 3)) == x
  {
  }

  /** The 32-bit word whose memory image is `b`. */
  function FromNativeBytes32(arch: Arch, b: seq<bv8>): (x: bv32)
    requires |b| == 4
    ensures NativeBytes32(arch, x) == b
  {
    match arch
    case LittleEndian =>
      Compose32Bytes(b[0], b[1], b[2], b[3]);
      Compose32(b[0], b[1], b[2], b[3])
    case BigEndian =>
      Compose32Bytes(b[3], b[2], b[1], b[0]);
      Compose32(b[3], b[2], b[1], b[0])
  }

  /** A 16-bit value is determined by its two bytes. */
  lemma Byte16Injective(x: bv16, y: bv16)
    requires Byte16(x, 0) == Byte16(y, 0) && Byte16(x, 1) == Byte16(y, 1)
    ensures x == y
  {
    Byte16Recompose(x);
    Byte16Recompose(y);
  }

  /** A 32-bit value is determined by its four bytes. */
  lemma Byte32Injective(x: bv32, y: bv32)
    requires Byte32(x, 0) == Byte32(y, 0) && Byte32(x, 1) == Byte32(y, 1)
    requires Byte32(x, 2) == Byte32(y, 2) && Byte32(x, 3) == Byte32(y, 3)
    ensures x == y
  {
    Byte32Recompose(x);
    Byte32Recompose(y);
  }

  /** Storing a word into the union and reading it back gives the word again. */
  lemma {:induction false} NativeBytes16RoundTrip(arch: Arch, x: bv16)
    ensures FromNativeBytes16(arch, NativeBytes16(arch, x)) == x
  {
    var y := FromNativeBytes16(arch, NativeBytes16(arch, x));
    assert NativeBytes16(arch, y) == NativeBytes16(arch, x);
    assert NativeBytes16(arch, y)[0] == NativeBytes16(arch, x)[0];
    assert NativeBytes16(arch, y)[1] == NativeBytes16(arch, x)[1];
    Byte16Injective(x, y);
  }

  /** Storing a double word into the union and reading it back gives it again. */
  lemma {:induction false} NativeBytes32RoundTrip(arch: Arch, x: bv32)
    ensures FromNativeBytes32(arch, NativeBytes32(arch, x)) == x
  {
    var y := FromNativeBytes32(arch, NativeBytes32(arch, x));
    var bx, bs := NativeBytes32(arch, x), NativeBytes32(arch, y);
    assert bs == bx;
    assert bs[0] == bx[0] && bs[1] == bx[1] && bs[2] == bx[2] && bs[3] == bx[3];
    Byte32Injective(x, y);
  }

  /**
   * SwapEndian_16 as it runs when its argument is not a compile-time
   * constant: the word is stored in a union, its two bytes are exchanged
   * through a temporary, and the word is read back. It agrees with the
   * macro on every input and for either memory layout.
   */
  function SwapEndian16(arch: Arch, word: bv16): (r: bv16)
    ensures r == SwapEndian16Macro(word)
  {
    var bytes := NativeBytes16(arch, word);
    var r := FromNativeBytes16(arch, [bytes[1], bytes[0]]);
    assert NativeBytes16(arch, r)[0] == bytes[1] && NativeBytes16(arch, r)[1] == bytes[0];
    Byte16Injective(r, SwapEndian16Macro(word));
    r
  }

  /**
   * SwapEndian_32 on a run-time value: bytes 0 and 3, then 1 and 2, of the
   * union are exchanged. It agrees with the macro on every input.
   */
  function SwapEndian32(arch: Arch, dword: bv32): (r: bv32)
    ensures r == SwapEndian32Macro(dword)
  {
    var bytes := NativeBytes32(arch, dword);
    var r := FromNativeBytes32(arch, [bytes[3], bytes[2], bytes[1], bytes[0]]);
    var br := NativeBytes32(arch, r);
    assert br[0] == bytes[3] && br[1] == bytes[2] && br[2] == bytes[1] && br[3] == bytes[0];
    Byte32Injective(r, SwapEndian32Macro(dword));
    r
  }

  lemma SwapEndian16Involution(x: bv16)
    ensures SwapEndian16Macro(SwapEndian16Macro(x)) == x
  {
  }

  lemma SwapEndian32Involution(x: bv32)
    ensures SwapEndian32Macro(SwapEndian32Macro(x)) == x
  {
  }

  // Wire encodings: the bytes a value has when sent little- or big-endian.

  function LeBytes16(x: bv16): seq<bv8> { [Byte16(x, 0), Byte16(x, 1)] }
  function BeBytes16(x: bv16): seq<bv8> { [Byte16(x, 1), Byte16(x, 0)] }
  function LeBytes32(x: bv32): seq<bv8> { [Byte32(x, 0), Byte32(x, 1), Byte32(x, 2), Byte32(x, 3)] }
  function BeBytes32(x: bv32): seq<bv8> { [Byte32(x, 3), Byte32(x, 2), Byte32(x, 1), Byte32(x, 0)] }

  // Run-time conversions. A `*_to_cpu` result is the value whose wire
  // encoding is the memory image of the argument; a `cpu_to_*` result is
  // the word whose memory image is the wire encoding of the argument.

  /** le16_to_cpu */
  function Le16ToCpu(arch: Arch, x: bv16): (r: bv16)
    ensures LeBytes16(r) == NativeBytes16(arch, x)
  {
    match arch
    case LittleEndian => x
    case BigEndian => SwapEndian16(arch, x)
  }

  /** le32_to_cpu */
  function Le32ToCpu(arch: Arch, x: bv32): (r: bv32)
    ensures LeBytes32(r) == NativeBytes32(arch, x)
  {
    match arch
    case LittleEndian => x
    case BigEndian => SwapEndian32(arch, x)
  }

  /** be16_to_cpu */
  function Be16ToCpu(arch: Arch, x: bv16): (r: bv16)
    ensures BeBytes16(r) == NativeBytes16(arch, x)
  {
    match arch
    case LittleEndian => SwapEndian16(arch, x)
    case BigEndian => x
  }

  /** be32_to_cpu */
  function Be32ToCpu(arch: Arch, x: bv32): (r: bv32)
    ensures BeBytes32(r) == NativeBytes32(arch, x)
  {
    match arch
    case LittleEndian => SwapEndian32(arch, x)
    case BigEndian => x
  }

  /** cpu_to_le16 */
  function CpuToLe16(arch: Arch, x: bv16): (r: bv16)
    ensures NativeBytes16(arch, r) == LeBytes16(x)
  {
    match arch
    case LittleEndian => x
    case BigEndian => SwapEndian16(arch, x)
  }

  /** cpu_to_le32 */
  function CpuToLe32(arch: Arch, x: bv32): (r: bv32)
    ensures NativeBytes32(arch, r) == LeBytes32(x)
  {
    match arch
    case LittleEndian => x
    case BigEndian => SwapEndian32(arch, x)
  }

  /** cpu_to_be16 */
  function CpuToBe16(arch: Arch, x: bv16): (r: bv16)
    ensures NativeBytes16(arch, r) == BeBytes16(x)
  {
    match arch
    case LittleEndian => SwapEndian16(arch, x)
    case BigEndian => x
  }

  /** cpu_to_be32 */
  function CpuToBe32(arch: Arch, x: bv32): (r: bv32)
    ensures NativeBytes32(arch, r) == BeBytes32(x)
  {
    match arch
    case LittleEndian => SwapEndian32(arch, x)
    case BigEndian => x
  }

  // Compile-time conversions: the same mapping, written with the macros.
  // Each gives the same value as its run-time counterpart.

  /** LE16_TO_CPU, and CPU_TO_LE16, which is defined identically */
  function Le16ToCpuConst(arch: Arch, x: bv16): (r: bv16)
    ensures r == Le16ToCpu(arch, x) && r == CpuToLe16(arch, x)
  {
    match arch
    case LittleEndian => x
    case BigEndian => SwapEndian16Macro(x)
  }

  /** LE32_TO_CPU, and CPU_TO_LE32, which is defined identically */
  function Le32ToCpuConst(arch: Arch, x: bv32): (r: bv32)
    ensures r == Le32ToCpu(arch, x) && r == CpuToLe32(arch, x)
  {
    match arch
    case LittleEndian => x
    case BigEndian => SwapEndian32Macro(x)
  }

  /** BE16_TO_CPU, and CPU_TO_BE16, which is defined identically */
  function Be16ToCpuConst(arch: Arch, x: bv16): (r: bv16)
    ensures r == Be16ToCpu(arch, x) && r == CpuToBe16(arch, x)
  {
    match arch
    case LittleEndian => SwapEndian16Macro(x)
    case BigEndian => x
  }

  /** BE32_TO_CPU, and CPU_TO_BE32, which is defined identically */
  function Be32ToCpuConst(arch: Arch, x: bv32): (r: bv32)
    ensures r == Be32ToCpu(arch, x) && r == CpuToBe32(arch, x)
  {
    match arch
    case LittleEndian => SwapEndian32Macro(x)
    case BigEndian => x
  }

  /** Converting from a wire order and back is the identity, on either build. */
  lemma ConversionRoundTrips(arch: Arch, x16: bv16, x32: bv32)
    ensures CpuToLe16(arch, Le16ToCpu(arch, x16)) == x16
    ensures CpuToBe16(arch, Be16ToCpu(arch, x16)) == x16
    ensures CpuToLe32(arch, Le32ToCpu(arch, x32)) == x32
    ensures CpuToBe32(arch, Be32ToCpu(arch, x32)) == x32
  {
    SwapEndian16Involution(x16);
    SwapEndian32Involution(x32);
  }

  /** A buffer's bytes in reverse order. */
  function Reversed(s: seq<bv8>): (r: seq<bv8>)
    ensures |r| == |s|
    ensures forall i :: 0 <= i < |s| ==> r[i] == s[|s| - 1 - i]
  {
    if s == [] then [] else Reversed(s[1..]) + [s[0]]
  }

  /** Reversing twice gives the buffer back: SwapEndian_n applied twice restores the bytes. */
  lemma ReversedInvolution(s: seq<bv8>)
    ensures Reversed(Reversed(s)) == s
  {
    var r := Reversed(s);
    assert forall i :: 0 <= i < |s| ==> Reversed(r)[i] == r[|s| - 1 - i] == s[i];
  }

  /**
   * `s` with its first `pos` bytes and the `pos` bytes before `length`
   * exchanged mirror-wise: the state SwapEndian_n has reached after `pos` steps.
   */
  function OuterSwapped(s: seq<bv8>, length: nat, pos: nat): (r: seq<bv8>)
    requires length <= |s| && 2 * pos <= length
    ensures |r| == |s|
  {
    seq(|s|, i requires 0 <= i < |s| =>
      if i < pos || length - pos <= i < length then s[length - 1 - i] else s[i])
  }

  /** One more exchanged pair advances OuterSwapped by one step. */
  lemma OuterSwappedStep(s: seq<bv8>, length: nat, pos: nat)
    requires length <= |s| && 2 * pos + 2 <= length
    ensures OuterSwapped(s, length, pos)[pos := s[length - 1 - pos]][length - 1 - pos := s[pos]]
            == OuterSwapped(s, length, pos + 1)
  {
  }

  /** With at most one byte left in the middle, OuterSwapped is the reversal. */
  lemma OuterSwappedDone(s: seq<bv8>, length: nat, pos: nat)
    requires length <= |s| && 2 * pos <= length <= 2 * pos + 1
    ensures OuterSwapped(s, length, pos)[..length] == Reversed(s[..length])
    ensures OuterSwapped(s, length, pos)[length..] == s[length..]
    ensures length % 2 == 1 ==> OuterSwapped(s, length, pos)[length / 2] == s[length / 2]
  {
    var r := OuterSwapped(s, length, pos);
    forall k | 0 <= k < length
      ensures r[k] == s[length - 1 - k]
    {
      if pos <= k < length - pos {
        assert k == length - 1 - k;
      }
    }
    assert r[..length] == Reversed(s[..length]);
  }

  /**
   * SwapEndian_n: reverses the first `length` bytes of `data` in place,
   * exchanging the outermost pair and moving inwards two bytes at a time.
   * `length` is the function's 8-bit length argument.
   */
  method SwapEndianN(data: array<bv8>, length: nat)
    requires length < 256 && length <= data.Length
    modifies data
    ensures data[..length] == Reversed(old(data[..length]))
    ensures length % 2 == 1 ==> data[length / 2] == old(data[length / 2])
    ensures data[length..] == old(data[length..])
  {
    ghost var was := data[..];
    var pos := 0;
    var len := length;
    assert data[..] == OuterSwapped(was, length, 0);
    while len > 1
      invariant 0 <= len && 2 * pos + len == length
      invariant data[..] == OuterSwapped(was, length, pos)
    {
      OuterSwappedStep(was, length, pos);
      var temp := data[pos];
      data[pos] := data[pos + len - 1];
      data[pos + len - 1] := temp;
      pos := pos + 1;
      len := len - 2;
    }
    OuterSwappedDone(was, length, pos);
    assert was[..length] == old(data[..length]);
  }
}
