/**
  The Modbus CRC-16 used as the RTU trailer: register preset to 0xFFFF,
  reflected polynomial 0xA001, bits processed least significant first, no
  final XOR.

  The encoder writes the checksum with the big-endian `put_u16` and the
  decoder reads it back with `get_u16`, yet on the wire the low byte of the
  register comes first. So the checksum value that `compute` hands to
  `put_u16` (and that `check` compares with) is the register with its two
  bytes swapped: 0xED6E for a register of 0x6EED.
*/
module Crc {
  import opened Bytes

  /** One bit of the shift register. */
  function Shift(reg: bv16): bv16 {
    if reg & 1 == 1 then (reg >> 1) ^ 0xA001 else reg >> 1
  }

  /** `k` further bit shifts. */
  function ShiftTimes(reg: bv16, k: nat): bv16
    decreases k
  {
    if k == 0 then reg else ShiftTimes(Shift(reg), k - 1)
  }

  /** The bits of a byte, built up from its binary digits (a cast the solver can evaluate on constants). */
  function Bits(b: nat): (r: bv16)
    requires b < 0x100
    decreases b
  {
    if b == 0 then 0 else (Bits(b / 2) << 1) | (if b % 2 == 1 then 1 else 0)
  }

  /** Feed one byte into the register. */
  function Feed(reg: bv16, b: U8): bv16 {
    ShiftTimes(reg ^ Bits(b), 8)
  }

  /** The register after feeding `data` in order, starting from 0xFFFF. */
  function Register(data: seq<U8>): bv16
    decreases |data|
  {
    if |data| == 0 then 0xFFFF else Feed(Register(data[..|data| - 1]), data[|data| - 1])
  }

  /** The register's two bytes swapped, as a `u16`. */
  function Swapped(reg: bv16): (r: U16)
    ensures BigEndian(r) == [(reg & 0xFF) as int, (reg >> 8) as int]
  {
    var lo := (reg & 0xFF) as int;
    var hi := (reg >> 8) as int;
    assert lo < 0x100 && hi < 0x100;
    lo * 0x100 + hi
  }

  /** The checksum of `data` as the `u16` the codec writes and reads. */
  function Checksum(data: seq<U8>): (c: U16)
    ensures BigEndian(c) == [(Register(data) & 0xFF) as int, (Register(data) >> 8) as int]
  {
    Swapped(Register(data))
  }

  /** Eight bit shifts of `reg` after mixing in `b`, one shift at a time. */
  method FeedByte(reg: bv16, b: U8) returns (r: bv16)
    ensures r == Feed(reg, b)
  {
    r := reg ^ Bits(b);
    var j := 0;
    while j < 8
      invariant 0 <= j <= 8
      invariant ShiftTimes(r, 8 - j) == Feed(reg, b)
    {
      r := Shift(r);
      j := j + 1;
    }
  }

  /** `crc::compute`, byte by byte and bit by bit. */
  method Compute(data: seq<U8>) returns (crc: U16)
    ensures crc == Checksum(data)
  {
    var reg: bv16 := 0xFFFF;
    var i := 0;
    while i < |data|
      invariant 0 <= i <= |data|
      invariant reg == Register(data[..i])
    {
      reg := FeedByte(reg, data[i]);
      assert data[..i + 1][..i] == data[..i];
      i := i + 1;
    }
    assert data[..i] == data;
    crc := Swapped(reg);
  }

  /**
    `crc::check`: the received trailer matches the checksum of `data`, that
    is, its two wire bytes are the register's low byte and then its high byte.
  */
  function Check(data: seq<U8>, crc: U16): (ok: bool)
    ensures ok <==> BigEndian(crc) == [(Register(data) & 0xFF) as int, (Register(data) >> 8) as int]
  {
    if BigEndian(crc) == BigEndian(Checksum(data)) then
      BigEndianInjective(crc, Checksum(data));
      true
    else
      false
  }

  /** Extending the data by one byte feeds that byte into the register. */
  lemma RegisterSnoc(d: seq<U8>, b: U8)
    ensures Register(d + [b]) == Feed(Register(d), b)
  {
    var e := d + [b];
    assert e[..|e| - 1] == d;
  }

  /** One step of a checksum computed by hand: mix in the byte, then shift eight times. */
  lemma RegisterStep(d: seq<U8>, b: U8, mixed: bv16, after: bv16)
    requires Register(d) ^ Bits(b) == mixed
    requires ShiftTimes(mixed, 8) == after
    ensures Register(d + [b]) == after
  {
    RegisterSnoc(d, b);
  }

  /** The register after the first 3 bytes of the RTU read-coils request of the encoder tests. */
  lemma ReadCoilsRequestRegister3(data: seq<U8>)
    requires data == [0x0B, 0x01, 0x00]
    ensures Register(data) == 0x9201
  {
    var d: seq<U8> := [];
    assert ShiftTimes(0xFFF4, 8) == 0x87FE by {}
    RegisterStep(d, 0x0B, 0xFFF4, 0x87FE);
    d := d + [0x0B];
    assert ShiftTimes(0x87FF, 8) == 0x40C7 by {}
    RegisterStep(d, 0x01, 0x87FF, 0x40C7);
    d := d + [0x01];
    assert ShiftTimes(0x40C7, 8) == 0x9201 by {}
    RegisterStep(d, 0x00, 0x40C7, 0x9201);
    d := d + [0x00];
    assert d == data;
  }

  /** The checksum of the RTU read-coils request of the encoder tests: wire bytes ED 6E. */
  lemma ReadCoilsRequestChecksum(data: seq<U8>)
    requires data == [0x0B, 0x01, 0x00, 0x1D, 0x00, 0x1F]
    ensures Checksum(data) == 0xED6E
  {
    var d: seq<U8> := [0x0B, 0x01, 0x00];
    ReadCoilsRequestRegister3(d);
    assert ShiftTimes(0x921C, 8) == 0xC993 by {}
    RegisterStep(d, 0x1D, 0x921C, 0xC993);
    d := d + [0x1D];
    assert ShiftTimes(0xC993, 8) == 0x6D89 by {}
    RegisterStep(d, 0x00, 0xC993, 0x6D89);
    d := d + [0x00];
    assert ShiftTimes(0x6D96, 8) == 0x6EED by {}
    RegisterStep(d, 0x1F, 0x6D96, 0x6EED);
    d := d + [0x1F];
    assert d == data;
    assert Swapped(0x6EED) == 0xED6E;
  }

  /** The register after the first 3 bytes of the RTU read-coils response of the decoder tests. */
  lemma ReadCoilsResponseRegister3(data: seq<U8>)
    requires data == [0x0B, 0x01, 0x04]
    ensures Register(data) == 0x5100
  {
    var d: seq<U8> := [];
    assert ShiftTimes(0xFFF4, 8) == 0x87FE by {}
    RegisterStep(d, 0x0B, 0xFFF4, 0x87FE);
    d := d + [0x0B];
    assert ShiftTimes(0x87FF, 8) == 0x40C7 by {}
    RegisterStep(d, 0x01, 0x87FF, 0x40C7);
    d := d + [0x01];
    assert ShiftTimes(0x40C3, 8) == 0x5100 by {}
    RegisterStep(d, 0x04, 0x40C3, 0x5100);
    d := d + [0x04];
    assert d == data;
  }

  /** The register after the first 6 bytes of the RTU read-coils response of the decoder tests. */
  lemma ReadCoilsResponseRegister6(data: seq<U8>)
    requires data == [0x0B, 0x01, 0x04, 0xCD, 0x6B, 0xB2]
    ensures Register(data) == 0x2A03
  {
    var d: seq<U8> := [0x0B, 0x01, 0x04];
    ReadCoilsResponseRegister3(d);
    assert ShiftTimes(0x51CD, 8) == 0x9590 by {}
    RegisterStep(d, 0xCD, 0x51CD, 0x9590);
    d := d + [0xCD];
    assert ShiftTimes(0x95FB, 8) == 0x83D4 by {}
    RegisterStep(d, 0x6B, 0x95FB, 0x83D4);
    d := d + [0x6B];
    assert ShiftTimes(0x8366, 8) == 0x2A03 by {}
    RegisterStep(d, 0xB2, 0x8366, 0x2A03);
    d := d + [0xB2];
    assert d == data;
  }

  /** The checksum of the RTU read-coils response of the decoder tests: wire bytes 2B E1. */
  lemma ReadCoilsResponseChecksum(data: seq<U8>)
    requires data == [0x0B, 0x01, 0x04, 0xCD, 0x6B, 0xB2, 0x7F]
    ensures Checksum(data) == 0x2BE1
  {
    var d: seq<U8> := [0x0B, 0x01, 0x04, 0xCD, 0x6B, 0xB2];
    ReadCoilsResponseRegister6(d);
    assert ShiftTimes(0x2A7C, 8) == 0xE12B by {}
    RegisterStep(d, 0x7F, 0x2A7C, 0xE12B);
    d := d + [0x7F];
    assert d == data;
    assert Swapped(0xE12B) == 0x2BE1;
  }

  /** The checksum of the RTU exception response of the encoder tests: wire bytes B0 53. */
  lemma ExceptionResponseChecksum(data: seq<U8>)
    requires data == [0x0A, 0x81, 0x02]
    ensures Checksum(data) == 0xB053
  {
    var d: seq<U8> := [];
    assert ShiftTimes(0xFFF5, 8) == 0x473F by {}
    RegisterStep(d, 0x0A, 0xFFF5, 0x473F);
    d := d + [0x0A];
    assert ShiftTimes(0x47BE, 8) == 0x70C7 by {}
    RegisterStep(d, 0x81, 0x47BE, 0x70C7);
    d := d + [0x81];
    assert ShiftTimes(0x70C5, 8) == 0x53B0 by {}
    RegisterStep(d, 0x02, 0x70C5, 0x53B0);
    d := d + [0x02];
    assert d == data;
    assert Swapped(0x53B0) == 0xB053;
  }

  /** The register after the first 3 bytes of the RTU write-multiple-coils request of the encoder tests. */
  lemma WriteMultipleCoilsRequestRegister3(data: seq<U8>)
    requires data == [0x0B, 0x0F, 0x00]
    ensures Register(data) == 0xF205
  {
    var d: seq<U8> := [];
    assert ShiftTimes(0xFFF4, 8) == 0x87FE by {}
    RegisterStep(d, 0x0B, 0xFFF4, 0x87FE);
    d := d + [0x0B];
    assert ShiftTimes(0x87F1, 8) == 0x8446 by {}
    RegisterStep(d, 0x0F, 0x87F1, 0x8446);
    d := d + [0x0F];
    assert ShiftTimes(0x8446, 8) == 0xF205 by {}
    RegisterStep(d, 0x00, 0x8446, 0xF205);
    d := d + [0x00];
    assert d == data;
  }

  /** The register after the first 6 bytes of the RTU write-multiple-coils request of the encoder tests. */
  lemma WriteMultipleCoilsRequestRegister6(data: seq<U8>)
    requires data == [0x0B, 0x0F, 0x00, 0x1B, 0x00, 0x09]
    ensures Register(data) == 0x60E5
  {
    var d: seq<U8> := [0x0B, 0x0F, 0x00];
    WriteMultipleCoilsRequestRegister3(d);
    assert ShiftTimes(0xF21E, 8) == 0x0872 by {}
    RegisterStep(d, 0x1B, 0xF21E, 0x0872);
    d := d + [0x1B];
    assert ShiftTimes(0x0872, 8) == 0x2588 by {}
    RegisterStep(d, 0x00, 0x0872, 0x2588);
    d := d + [0x00];
    assert ShiftTimes(0x2581, 8) == 0x60E5 by {}
    RegisterStep(d, 0x09, 0x2581, 0x60E5);
    d := d + [0x09];
    assert d == data;
  }

  /** The register after the first 8 bytes of the RTU write-multiple-coils request of the encoder tests. */
  lemma WriteMultipleCoilsRequestRegister8(data: seq<U8>)
    requires data == [0x0B, 0x0F, 0x00, 0x1B, 0x00, 0x09, 0x02, 0x4D]
    ensures Register(data) == 0xED8B
  {
    var d := data[..6];
    WriteMultipleCoilsRequestRegister6(d);
    assert ShiftTimes(0x60E7, 8) == 0x4A20 by {}
    RegisterStep(d, 0x02, 0x60E7, 0x4A20);
    d := d + [0x02];
    assert ShiftTimes(0x4A6D, 8) == 0xED8B by {}
    RegisterStep(d, 0x4D, 0x4A6D, 0xED8B);
    d := d + [0x4D];
    assert d == data;
  }

  /** The checksum of the RTU write-multiple-coils request of the encoder tests: wire bytes 6C A7. */
  lemma WriteMultipleCoilsRequestChecksum(data: seq<U8>)
    requires data == [0x0B, 0x0F, 0x00, 0x1B, 0x00, 0x09, 0x02, 0x4D, 0x01]
    ensures Checksum(data) == 0x6CA7
  {
    var d: seq<U8> := [0x0B, 0x0F, 0x00, 0x1B, 0x00, 0x09, 0x02, 0x4D];
    WriteMultipleCoilsRequestRegister8(d);
    assert ShiftTimes(0xED8A, 8) == 0xA76C by {}
    RegisterStep(d, 0x01, 0xED8A, 0xA76C);
    d := d + [0x01];
    assert d == data;
    assert Swapped(0xA76C) == 0x6CA7;
  }

  /** The register after the first 3 bytes of the RTU write-multiple-registers request of the encoder tests. */
  lemma WriteMultipleHoldingRegistersRequestRegister3(data: seq<U8>)
    requires data == [0x0B, 0x10, 0x00]
    ensures Register(data) == 0xC20D
  {
    var d: seq<U8> := [];
    assert ShiftTimes(0xFFF4, 8) == 0x87FE by {}
    RegisterStep(d, 0x0B, 0xFFF4, 0x87FE);
    d := d + [0x0B];
    assert ShiftTimes(0x87EE, 8) == 0x4C07 by {}
    RegisterStep(d, 0x10, 0x87EE, 0x4C07);
    d := d + [0x10];
    assert ShiftTimes(0x4C07, 8) == 0xC20D by {}
    RegisterStep(d, 0x00, 0x4C07, 0xC20D);
    d := d + [0x00];
    assert d == data;
  }

  /** The register after the first 6 bytes of the RTU write-multiple-registers request of the encoder tests. */
  lemma WriteMultipleHoldingRegistersRequestRegister6(data: seq<U8>)
    requires data == [0x0B, 0x10, 0x00, 0x12, 0x00, 0x02]
    ensures Register(data) == 0x67E1
  {
    var d: seq<U8> := [0x0B, 0x10, 0x00];
    WriteMultipleHoldingRegistersRequestRegister3(d);
    assert ShiftTimes(0xC21F, 8) == 0xC883 by {}
    RegisterStep(d, 0x12, 0xC21F, 0xC883);
    d := d + [0x12];
    assert ShiftTimes(0xC883, 8) == 0xA189 by {}
    RegisterStep(d, 0x00, 0xC883, 0xA189);
    d := d + [0x00];
    assert ShiftTimes(0xA18B, 8) == 0x67E1 by {}
    RegisterStep(d, 0x02, 0xA18B, 0x67E1);
    d := d + [0x02];
    assert d == data;
  }

  /** The register after the first 8 bytes of the RTU write-multiple-registers request of the encoder tests. */
  lemma WriteMultipleHoldingRegistersRequestRegister8(data: seq<U8>)
    requires data == [0x0B, 0x10, 0x00, 0x12, 0x00, 0x02, 0x04, 0x0B]
    ensures Register(data) == 0xBD4A
  {
    var d := data[..6];
    WriteMultipleHoldingRegistersRequestRegister6(d);
    assert ShiftTimes(0x67E5, 8) == 0x8BA6 by {}
    RegisterStep(d, 0x04, 0x67E5, 0x8BA6);
    d := d + [0x04];
    assert ShiftTimes(0x8BAD, 8) == 0xBD4A by {}
    RegisterStep(d, 0x0B, 0x8BAD, 0xBD4A);
    d := d + [0x0B];
    assert d == data;
  }

  /** The register after the first 10 bytes of the RTU write-multiple-registers request of the encoder tests. */
  lemma WriteMultipleHoldingRegistersRequestRegister10(data: seq<U8>)
    requires data == [0x0B, 0x10, 0x00, 0x12, 0x00, 0x02, 0x04, 0x0B, 0x0A, 0xC1]
    ensures Register(data) == 0x2130
  {
    var d: seq<U8> := [0x0B, 0x10, 0x00, 0x12, 0x00, 0x02, 0x04, 0x0B];
    WriteMultipleHoldingRegistersRequestRegister8(d);
    assert ShiftTimes(0xBD40, 8) == 0xF0BC by {}
    RegisterStep(d, 0x0A, 0xBD40, 0xF0BC);
    d := d + [0x0A];
    assert ShiftTimes(0xF07D, 8) == 0x2130 by {}
    RegisterStep(d, 0xC1, 0xF07D, 0x2130);
    d := d + [0xC1];
    assert d == data;
  }

  /** The checksum of the RTU write-multiple-registers request of the encoder tests: wire bytes A0 D5. */
  lemma WriteMultipleHoldingRegistersRequestChecksum(data: seq<U8>)
    requires data == [0x0B, 0x10, 0x00, 0x12, 0x00, 0x02, 0x04, 0x0B, 0x0A, 0xC1, 0x02]
    ensures Checksum(data) == 0xA0D5
  {
    var d: seq<U8> := [0x0B, 0x10, 0x00, 0x12, 0x00, 0x02, 0x04, 0x0B, 0x0A, 0xC1];
    WriteMultipleHoldingRegistersRequestRegister10(d);
    assert ShiftTimes(0x2132, 8) == 0xD5A0 by {}
    RegisterStep(d, 0x02, 0x2132, 0xD5A0);
    d := d + [0x02];
    assert d == data;
    assert Swapped(0xD5A0) == 0xA0D5;
  }
}
