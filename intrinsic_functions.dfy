/** The runtime primitives translated code calls for LLVM intrinsics
    (`IntrinsicFunctions`): block copy, move and fill on a byte memory,
    variadic-list slots, and the functions that only throw or return null.
    Native memory is one byte array and a pointer is an offset into it. */
module Intrinsics {
  import opened Wrappers

  newtype byte = x: int | 0 <= x < 0x100
  newtype sbyte = x: int | -0x80 <= x < 0x80
  newtype int32 = x: int | -0x8000_0000 <= x < 0x8000_0000
  newtype int64 = x: int | -0x8000_0000_0000_0000 <= x < 0x8000_0000_0000_0000

  /** A native pointer, as an offset into the memory array. */
  type Pointer = nat

  /** The unchecked conversion to `uint`: the low 32 bits. */
  function ToUInt32(x: int): (r: nat)
    ensures r < 0x1_0000_0000 && (x - r) % 0x1_0000_0000 == 0
    ensures 0 <= x < 0x1_0000_0000 ==> r == x
  {
    x % 0x1_0000_0000
  }

  /** The unchecked conversion to `int`: the low 32 bits, read as signed. */
  function ToInt32(x: int): (r: int32)
    ensures (x - r as int) % 0x1_0000_0000 == 0
    ensures -0x8000_0000 <= x < 0x8000_0000 ==> r as int == x
  {
    var m := x % 0x1_0000_0000;
    if m >= 0x8000_0000 then (m - 0x1_0000_0000) as int32 else m as int32
  }

  /** The unchecked conversion to `byte`: the value modulo 256. */
  function ToByte(x: sbyte): (r: byte)
    ensures (x as int - r as int) % 0x100 == 0
    ensures x >= 0 ==> r as int == x as int
  {
    (x as int % 0x100) as byte
  }

  /** Memory after `count` bytes starting at `src` were written at `dst`:
      the destination holds the source bytes as they were before. */
  function Copied(before: seq<byte>, dst: Pointer, src: Pointer, count: nat): (after: seq<byte>)
    requires dst + count <= |before| && src + count <= |before|
    ensures |after| == |before|
    ensures forall j :: dst <= j < dst + count ==> after[j] == before[j - dst + src]
    ensures forall j :: 0 <= j < |before| && !(dst <= j < dst + count) ==> after[j] == before[j]
  {
    before[..dst] + before[src..src + count] + before[dst + count..]
  }

  /** Memory after `count` bytes starting at `dst` were set to `b`. */
  function Filled(before: seq<byte>, dst: Pointer, count: nat, b: byte): (after: seq<byte>)
    requires dst + count <= |before|
    ensures |after| == |before|
    ensures forall j :: dst <= j < dst + count ==> after[j] == b
    ensures forall j :: 0 <= j < |before| && !(dst <= j < dst + count) ==> after[j] == before[j]
  {
    before[..dst] + seq(count, _ => b) + before[dst + count..]
  }

  /** Two regions of `count` bytes do not overlap. */
  predicate Disjoint(dst: Pointer, src: Pointer, count: nat)
  {
    dst + count <= src || src + count <= dst
  }

  /** `Unsafe.CopyBlock`: a forward byte copy of non-overlapping regions. */
  method CopyBlock(mem: array<byte>, dst: Pointer, src: Pointer, count: nat)
    requires dst + count <= mem.Length && src + count <= mem.Length
    requires Disjoint(dst, src, count)
    modifies mem
    ensures mem[..] == Copied(old(mem[..]), dst, src, count)
  {
    for k := 0 to count
      invariant forall j :: dst <= j < dst + k ==> mem[j] == old(mem[j - dst + src])
      invariant forall j :: 0 <= j < mem.Length && !(dst <= j < dst + k) ==> mem[j] == old(mem[j])
    {
      mem[dst + k] := mem[src + k];
    }
    assert mem[..] == Copied(old(mem[..]), dst, src, count) by {
      forall j | 0 <= j < mem.Length
        ensures mem[..][j] == Copied(old(mem[..]), dst, src, count)[j]
      {
      }
    }
  }

  /** `llvm.memcpy.p0.p0.i32`: the length is converted unchecked to `uint`,
      and the regions must not overlap. */
  method MemCpy32(mem: array<byte>, dst: Pointer, src: Pointer, length: int32, isVolatile: bool)
    requires dst + ToUInt32(length as int) <= mem.Length && src + ToUInt32(length as int) <= mem.Length
    requires Disjoint(dst, src, ToUInt32(length as int))
    modifies mem
    ensures mem[..] == Copied(old(mem[..]), dst, src, ToUInt32(length as int))
  {
    CopyBlock(mem, dst, src, ToUInt32(length as int));
  }

  /** `llvm.memcpy.p0.p0.i64`: the same copy; the 64-bit length is cut to
      its low 32 bits. */
  method MemCpy64(mem: array<byte>, dst: Pointer, src: Pointer, length: int64, isVolatile: bool)
    requires dst + ToUInt32(length as int) <= mem.Length && src + ToUInt32(length as int) <= mem.Length
    requires Disjoint(dst, src, ToUInt32(length as int))
    modifies mem
    ensures mem[..] == Copied(old(mem[..]), dst, src, ToUInt32(length as int))
  {
    CopyBlock(mem, dst, src, ToUInt32(length as int));
  }

  /** `llvm.memmove.p0.p0.i32`: the source bytes go through a rented buffer
      first, so the regions may overlap. Renting a buffer of negative length
      throws before anything is written. */
  method MemMove32(mem: array<byte>, dst: Pointer, src: Pointer, length: int32, isVolatile: bool)
    returns (o: Outcome)
    requires length >= 0 ==> dst + length as int <= mem.Length && src + length as int <= mem.Length
    modifies mem
    ensures length < 0 ==> o == Fail(ArgumentOutOfRangeException) && mem[..] == old(mem[..])
    ensures length >= 0 ==> o == Pass && mem[..] == Copied(old(mem[..]), dst, src, length as int)
  {
    if length < 0 {
      return Fail(ArgumentOutOfRangeException);
    }
    var count := length as int;
    var buffer := new byte[count];
    for k := 0 to count
      invariant forall j :: 0 <= j < k ==> buffer[j] == mem[src + j]
      invariant mem[..] == old(mem[..])
    {
      buffer[k] := mem[src + k];
    }
    for k := 0 to count
      invariant forall j :: 0 <= j < count ==> buffer[j] == old(mem[src + j])
      invariant forall j :: dst <= j < dst + k ==> mem[j] == old(mem[j - dst + src])
      invariant forall j :: 0 <= j < mem.Length && !(dst <= j < dst + k) ==> mem[j] == old(mem[j])
    {
      mem[dst + k] := buffer[k];
    }
    assert mem[..] == Copied(old(mem[..]), dst, src, count) by {
      forall j | 0 <= j < mem.Length
        ensures mem[..][j] == Copied(old(mem[..]), dst, src, count)[j]
      {
      }
    }
    return Pass;
  }

  /** `llvm.memmove.p0.p0.i64`: the 32-bit move with the length narrowed
      unchecked to `int`. */
  method MemMove64(mem: array<byte>, dst: Pointer, src: Pointer, length: int64, isVolatile: bool)
    returns (o: Outcome)
    requires ToInt32(length as int) >= 0 ==>
      dst + ToInt32(length as int) as int <= mem.Length && src + ToInt32(length as int) as int <= mem.Length
    modifies mem
    ensures ToInt32(length as int) < 0 ==> o == Fail(ArgumentOutOfRangeException) && mem[..] == old(mem[..])
    ensures ToInt32(length as int) >= 0 ==>
      o == Pass && mem[..] == Copied(old(mem[..]), dst, src, ToInt32(length as int) as int)
  {
    o := MemMove32(mem, dst, src, ToInt32(length as int), isVolatile);
  }

  /** `llvm.memset.p0.i32`: a span of negative length throws; otherwise every
      byte of the span gets the value converted unchecked to `byte`. */
  method MemSet32(mem: array<byte>, dst: Pointer, value: sbyte, length: int32, isVolatile: bool)
    returns (o: Outcome)
    requires length >= 0 ==> dst + length as int <= mem.Length
    modifies mem
    ensures length < 0 ==> o == Fail(ArgumentOutOfRangeException) && mem[..] == old(mem[..])
    ensures length >= 0 ==> o == Pass && mem[..] == Filled(old(mem[..]), dst, length as int, ToByte(value))
  {
    if length < 0 {
      return Fail(ArgumentOutOfRangeException);
    }
    var count := length as int;
    var b := ToByte(value);
    for k := 0 to count
      invariant forall j :: dst <= j < dst + k ==> mem[j] == b
      invariant forall j :: 0 <= j < mem.Length && !(dst <= j < dst + k) ==> mem[j] == old(mem[j])
    {
      mem[dst + k] := b;
    }
    assert mem[..] == Filled(old(mem[..]), dst, count, b) by {
      forall j | 0 <= j < mem.Length
        ensures mem[..][j] == Filled(old(mem[..]), dst, count, b)[j]
      {
      }
    }
    return Pass;
  }

  /** `llvm.memset.p0.i64`: the 32-bit fill with the length narrowed
      unchecked to `int`. */
  method MemSet64(mem: array<byte>, dst: Pointer, value: sbyte, length: int64, isVolatile: bool)
    returns (o: Outcome)
    requires ToInt32(length as int) >= 0 ==> dst + ToInt32(length as int) as int <= mem.Length
    modifies mem
    ensures ToInt32(length as int) < 0 ==> o == Fail(ArgumentOutOfRangeException) && mem[..] == old(mem[..])
    ensures ToInt32(length as int) >= 0 ==>
      o == Pass && mem[..] == Filled(old(mem[..]), dst, ToInt32(length as int) as int, ToByte(value))
  {
    o := MemSet32(mem, dst, value, ToInt32(length as int), isVolatile);
  }

  /** The narrowing of a 64-bit length keeps lengths below 2^31, turns
      lengths from 2^31 to 2^32 - 1 negative (so the move and fill throw),
      and lengths of 2^32 and more wrap around. */
  lemma NarrowedLengths(length: int64)
    ensures 0 <= length < 0x8000_0000 ==> ToInt32(length as int) as int == length as int
    ensures 0x8000_0000 <= length < 0x1_0000_0000 ==> ToInt32(length as int) < 0
    ensures 0x1_0000_0000 <= length < 0x1_8000_0000 ==>
      ToInt32(length as int) as int == length as int - 0x1_0000_0000
  {
  }

  /** `llvm.va.copy`: the pointer slot at `destination` gets the one at `source`. */
  method VaCopy(slots: array<Pointer>, destination: nat, source: nat)
    requires destination < slots.Length && source < slots.Length
    modifies slots
    ensures slots[..] == old(slots[..])[destination := old(slots[source])]
  {
    slots[destination] := slots[source];
  }

  /** `llvm.va.end`: nothing to release. */
  method VaEnd(slots: array<Pointer>, vaList: nat) returns (o: Outcome)
    ensures o == Pass
  {
    return Pass;
  }

  /** `llvm.va.start`: handled by the translator itself; the runtime
      function always throws. */
  method VaStart(slots: array<Pointer>, vaList: nat) returns (o: Outcome)
    ensures o == Fail(NotSupportedException)
  {
    return Fail(NotSupportedException);
  }

  /** `__std_terminate`: never returns normally. */
  method Terminate() returns (o: Outcome)
    ensures o == Fail(FatalException)
  {
    return Fail(FatalException);
  }

  /** `_expand`: in-place resizing is never offered, so the result is null. */
  function Expand(ptr: Option<Pointer>, size: int64): (r: Option<Pointer>)
    ensures r.None?
  {
    None
  }
}
