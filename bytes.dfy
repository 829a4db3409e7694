/**
  Byte-level vocabulary shared by the frame model and the codecs: the Rust
  integer widths `u8` and `u16`, big-endian 16-bit fields (what `put_u16` and
  `get_u16` of the `bytes` crate write and read), and `ByteBuffer`, a model of
  the growable `BytesMut` buffer that the encoders append to and the decoders
  consume from the front.
*/
module Bytes {

  /** Rust `u8`. */
  type U8 = x: int | 0 <= x < 0x100

  /** Rust `u16`. */
  type U16 = x: int | 0 <= x < 0x1_0000

  /** The Rust cast `n as u16`: truncation to the low 16 bits. */
  function AsU16(n: nat): (r: U16)
    ensures n < 0x1_0000 ==> r == n
  {
    n % 0x1_0000
  }

  /** The Rust cast `n as u8`: truncation to the low 8 bits. */
  function AsU8(n: nat): (r: U8)
    ensures n < 0x100 ==> r == n
  {
    n % 0x100
  }

  /** The two bytes `put_u16` writes for `x`: high byte first. */
  function BigEndian(x: U16): (r: seq<U8>)
    ensures |r| == 2
    ensures (r[0] as int) * 0x100 + r[1] == x
  {
    [x / 0x100, x % 0x100]
  }

  /** The value `get_u16` reads from `s` at offset `i`: high byte first. */
  function U16At(s: seq<U8>, i: nat): (r: U16)
    requires i + 2 <= |s|
    ensures r / 0x100 == s[i] && r % 0x100 == s[i + 1]
  {
    (s[i] as int) * 0x100 + s[i + 1]
  }

  /** Reading back what `put_u16` wrote gives the same value, wherever it sits. */
  lemma U16AtBigEndian(x: U16, pre: seq<U8>, post: seq<U8>)
    ensures U16At(pre + BigEndian(x) + post, |pre|) == x
  {
    var s := pre + BigEndian(x) + post;
    assert s[|pre|] == x / 0x100 && s[|pre| + 1] == x % 0x100;
  }

  /** Distinct values have distinct big-endian encodings. */
  lemma BigEndianInjective(x: U16, y: U16)
    requires BigEndian(x) == BigEndian(y)
    ensures x == y
  {
    assert BigEndian(x)[0] == BigEndian(y)[0] && BigEndian(x)[1] == BigEndian(y)[1];
  }

  /**
    A model of `BytesMut`: a byte sequence that grows at the back (`put_*`)
    and is consumed from the front (`copy_to_bytes`, `get_u16`).
  */
  class ByteBuffer {
    var contents: seq<U8>

    /** `BytesMut::new()`. */
    constructor ()
      ensures contents == []
    {
      contents := [];
    }

    /** `BytesMut::from(&v[..])`. */
    constructor FromSlice(s: seq<U8>)
      ensures contents == s
    {
      contents := s;
    }

    /** `len()`: the number of bytes still buffered. */
    function Len(): (n: nat)
      reads this
      ensures n == |contents|
    {
      |contents|
    }

    /** `get(i)`: peek at offset `i` without consuming anything. */
    method Get(i: nat) returns (b: Option<U8>)
      ensures i < |contents| <==> b.Some?
      ensures b.Some? ==> b.value == contents[i]
    {
      if i < |contents| {
        b := Some(contents[i]);
      } else {
        b := None;
      }
    }

    /** `put_u8`. */
    method PutU8(b: U8)
      modifies this
      ensures contents == old(contents) + [b]
    {
      contents := contents + [b];
    }

    /** `put_u16`: big-endian. */
    method PutU16(x: U16)
      modifies this
      ensures contents == old(contents) + BigEndian(x)
    {
      contents := contents + BigEndian(x);
    }

    /** `put_slice` / `put`. */
    method PutSlice(s: seq<U8>)
      modifies this
      ensures contents == old(contents) + s
    {
      contents := contents + s;
    }

    /** `copy_to_bytes(n)`: take the first `n` bytes; Rust panics when fewer are buffered. */
    method CopyToBytes(n: nat) returns (s: seq<U8>)
      requires n <= |contents|
      modifies this
      ensures s == old(contents)[..n]
      ensures contents == old(contents)[n..]
    {
      s := contents[..n];
      contents := contents[n..];
    }

    /** `get_u16`: consume two bytes as a big-endian value; Rust panics when fewer are buffered. */
    method GetU16() returns (x: U16)
      requires 2 <= |contents|
      modifies this
      ensures x == U16At(old(contents), 0)
      ensures contents == old(contents)[2..]
    {
      x := U16At(contents, 0);
      contents := contents[2..];
    }
  }

  datatype Option<+T> = None | Some(value: T)
}
