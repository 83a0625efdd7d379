/** The pieces of the IDX file format (the format the MNIST database is
    published in) that the readers and writers share: unsigned bytes, Java's
    32-bit `int`, the big-endian four-byte encoding of DataInputStream.readInt
    and RandomAccessFile.writeInt, and a file as a buffer of bytes that a
    RandomAccessFile or a DataInputStream moves through. */
module Idx {
  import opened Outcomes

  /** One byte of a file, read unsigned. */
  newtype byte = b: int | 0 <= b < 0x100

  /** Java's `int`. */
  type int32 = x: int | -0x8000_0000 <= x < 0x8000_0000

  const TwoTo32: int := 0x1_0000_0000

  /** Java int arithmetic: the result taken modulo 2^32 into the signed range. */
  function Wrap32(x: int): (r: int32)
    ensures (r - x) % TwoTo32 == 0
    ensures -0x8000_0000 <= x < 0x8000_0000 ==> r == x
  {
    ((x + 0x8000_0000) % TwoTo32) - 0x8000_0000
  }

  /** The Java cast `(byte) v` of an int, seen as the unsigned byte it stores. */
  function LowByte(v: int): (b: byte)
    ensures (b as int - v) % 0x100 == 0
  {
    (v % 0x100) as byte
  }

  /** The four bytes at `at`, most significant first, as an unsigned number. */
  function Unsigned(bs: seq<byte>, at: nat): (u: int)
    requires at + 4 <= |bs|
    ensures 0 <= u < TwoTo32
  {
    bs[at] as int * 0x100_0000 + bs[at + 1] as int * 0x1_0000 + bs[at + 2] as int * 0x100 + bs[at + 3] as int
  }

  /** readInt: `(ch1 << 24) + (ch2 << 16) + (ch3 << 8) + ch4` in int arithmetic. */
  function IntAt(bs: seq<byte>, at: nat): int32
    requires at + 4 <= |bs|
  {
    Wrap32(Unsigned(bs, at))
  }

  /** intToByteArray / writeInt: `v >>> 24`, `v >>> 16`, `v >>> 8`, `v`, each cast to a byte. */
  function IntToBytes(v: int32): (r: seq<byte>)
    ensures |r| == 4
  {
    var u := v % TwoTo32;
    [(u / 0x100_0000) as byte, (u / 0x1_0000 % 0x100) as byte, (u / 0x100 % 0x100) as byte, (u % 0x100) as byte]
  }

  /** A number below 2^32 is the sum of its four base-256 digits. */
  lemma Digits(u: int)
    requires 0 <= u < TwoTo32
    ensures u / 0x100_0000 < 0x100
    ensures (u / 0x100_0000) * 0x100_0000 + (u / 0x1_0000 % 0x100) * 0x1_0000 + (u / 0x100 % 0x100) * 0x100 + u % 0x100 == u
  {
    var a := u / 0x100;
    var b := a / 0x100;
    var c := b / 0x100;
    assert u == a * 0x100 + u % 0x100;
    assert a == b * 0x100 + a % 0x100;
    assert b == c * 0x100 + b % 0x100;
    assert b == u / 0x1_0000 && c == u / 0x100_0000;
  }

  /** A big-endian int read back is the int written. */
  lemma ReadIntToBytes(v: int32)
    ensures IntAt(IntToBytes(v), 0) == v
  {
    var u := v % TwoTo32;
    Digits(u);
    assert Unsigned(IntToBytes(v), 0) == u;
  }

  /** Division by 256 takes off the last base-256 digit. */
  lemma ShiftByte(a: int, d: int)
    requires 0 <= d < 0x100
    ensures (a * 0x100 + d) / 0x100 == a && (a * 0x100 + d) % 0x100 == d
  {
  }

  /** Four bytes read as an int and written back are the same four bytes. */
  lemma IntToBytesOfReadInt(bs: seq<byte>, at: nat)
    requires at + 4 <= |bs|
    ensures IntToBytes(IntAt(bs, at)) == bs[at..at + 4]
  {
    var b0, b1, b2, b3 := bs[at] as int, bs[at + 1] as int, bs[at + 2] as int, bs[at + 3] as int;
    var u := Unsigned(bs, at);
    assert IntAt(bs, at) % TwoTo32 == u;
    var a := b0 * 0x1_0000 + b1 * 0x100 + b2;
    var b := b0 * 0x100 + b1;
    assert u == a * 0x100 + b3 && a == b * 0x100 + b2 && b == b0 * 0x100 + b1;
    ShiftByte(a, b3);
    ShiftByte(b, b2);
    ShiftByte(b0, b1);
    assert u / 0x1_0000 == b && u / 0x100_0000 == b0;
  }

  /** readInt looks at the four bytes at `at` and at nothing else. */
  lemma IntAtSlice(bs: seq<byte>, at: nat)
    requires at + 4 <= |bs|
    ensures IntAt(bs, at) == IntAt(bs[at..at + 4], 0)
  {
    assert Unsigned(bs, at) == Unsigned(bs[at..at + 4], 0);
  }

  /** `n` zero bytes. */
  function Zeros(n: nat): (z: seq<byte>)
    ensures |z| == n && forall i :: 0 <= i < n ==> z[i] == 0
  {
    seq(n, i => 0)
  }

  /** A write of `data` at `at`: what was before stays, what was after stays
      where the write does not reach, and a write past the end first fills the
      gap (whose contents Java leaves undefined) with zeros. */
  function Overwrite(bs: seq<byte>, at: nat, data: seq<byte>): (r: seq<byte>)
    ensures |r| == Max(|bs|, at + |data|)
    ensures r[at..at + |data|] == data
    ensures forall i :: 0 <= i < |r| && (i < at || at + |data| <= i) ==> r[i] == if i < |bs| then bs[i] else 0
  {
    var before := if at <= |bs| then bs[..at] else bs + Zeros(at - |bs|);
    before + data + if at + |data| < |bs| then bs[at + |data|..] else []
  }

  function Max(a: int, b: int): int { if a < b then b else a }

  /** A file on disk: whether it exists, and its bytes (none when it does not). */
  class ByteFile {
    var present: bool
    var bytes: seq<byte>

    ghost predicate Valid()
      reads this
    {
      present || bytes == []
    }

    constructor (present: bool, bytes: seq<byte>)
      requires present || bytes == []
      ensures Valid() && this.present == present && this.bytes == bytes
    {
      this.present := present;
      this.bytes := bytes;
    }

    /** new FileOutputStream(file) followed by write(data): the file is created
        or truncated and then holds `data`. */
    method Create(data: seq<byte>)
      modifies this
      ensures Valid() && present && bytes == data
    {
      present := true;
      bytes := data;
    }

    /** new FileOutputStream(file, true) followed by write(data): the file is
        created if missing and `data` goes at its end. */
    method Append(data: seq<byte>)
      requires Valid()
      modifies this
      ensures Valid() && present && bytes == old(bytes) + data
    {
      present := true;
      bytes := bytes + data;
    }
  }

  /** java.io.RandomAccessFile opened in "rw" mode: a file pointer over a file. */
  class RandomAccessFile {
    const file: ByteFile
    var pointer: nat

    /** Opening in "rw" mode creates a missing file, empty, and puts the
        pointer at 0. */
    constructor (file: ByteFile)
      requires file.Valid()
      modifies file
      ensures this.file == file && pointer == 0
      ensures file.Valid() && file.present && file.bytes == old(file.bytes)
    {
      this.file := file;
      pointer := 0;
      new;
      file.present := true;
    }

    /** seek(p): a pointer past the end is allowed. */
    method Seek(p: nat)
      modifies this
      ensures pointer == p
    {
      pointer := p;
    }

    /** readInt: four bytes from the pointer; fewer than four left is an
        EOFException, after reading what there was. */
    method ReadInt() returns (r: Result<int32>)
      modifies this
      ensures old(pointer) + 4 <= |file.bytes| ==> r == Ok(IntAt(file.bytes, old(pointer))) && pointer == old(pointer) + 4
      ensures old(pointer) + 4 > |file.bytes| ==> r == Err(EndOfFile) && pointer == Max(old(pointer), |file.bytes|)
    {
      if pointer + 4 <= |file.bytes| {
        r := Ok(IntAt(file.bytes, pointer));
        pointer := pointer + 4;
      } else {
        r := Err(EndOfFile);
        pointer := Max(pointer, |file.bytes|);
      }
    }

    /** writeInt(v): the four bytes of v at the pointer, which moves past them. */
    method WriteInt(v: int32)
      requires file.Valid()
      modifies this, file
      ensures pointer == old(pointer) + 4 && file.Valid() && file.present
      ensures file.bytes == Overwrite(old(file.bytes), old(pointer), IntToBytes(v))
    {
      file.bytes := Overwrite(file.bytes, pointer, IntToBytes(v));
      file.present := true;
      pointer := pointer + 4;
    }
  }

  /** java.io.DataInputStream over the whole content of a stream. */
  class DataInputStream {
    const bytes: seq<byte>
    var pos: nat

    ghost predicate Valid()
      reads this
    {
      pos <= |bytes|
    }

    constructor (bytes: seq<byte>)
      ensures Valid() && this.bytes == bytes && pos == 0
    {
      this.bytes := bytes;
      pos := 0;
    }

    /** readInt: the next four bytes, big-endian; EOFException if fewer remain. */
    method ReadInt() returns (r: Result<int32>)
      requires Valid()
      modifies this
      ensures Valid()
      ensures old(pos) + 4 <= |bytes| ==> r == Ok(IntAt(bytes, old(pos))) && pos == old(pos) + 4
      ensures old(pos) + 4 > |bytes| ==> r == Err(EndOfFile) && pos == |bytes|
    {
      if pos + 4 <= |bytes| {
        r := Ok(IntAt(bytes, pos));
        pos := pos + 4;
      } else {
        r := Err(EndOfFile);
        pos := |bytes|;
      }
    }

    /** readUnsignedByte: the next byte; EOFException at the end. */
    method ReadUnsignedByte() returns (r: Result<byte>)
      requires Valid()
      modifies this
      ensures Valid()
      ensures old(pos) < |bytes| ==> r == Ok(bytes[old(pos)]) && pos == old(pos) + 1
      ensures old(pos) >= |bytes| ==> r == Err(EndOfFile) && pos == old(pos)
    {
      if pos < |bytes| {
        r := Ok(bytes[pos]);
        pos := pos + 1;
      } else {
        r := Err(EndOfFile);
      }
    }
  }
}
