/**
  The request side of `src/frame/request.rs`: one body per function, each
  with its `Length` and its constructor, the serialisers that write a body
  into a fresh `BytesMut`, the tagged `Request` union, `request_to_bytesmut`
  (head, body and, for RTU, the CRC trailer appended to a buffer) and the
  `Display` rendering as spaced hexadecimal.
*/
module Requests {
  import opened Bytes
  import opened Frame
  import Crc

  /** Function code 0x01: `first_address` and `coils_number`, four bytes on the wire. */
  datatype ReadCoilsRequest = ReadCoilsRequest(firstAddress: U16, coilsNumber: U16)
  {
    /** `Length::len`. */
    function Len(): U16 {
      4
    }

    /** `ReadCoilsRequest::new`. */
    static function New(firstAddress: U16, coilsNumber: U16): (r: ReadCoilsRequest)
      ensures r.firstAddress == firstAddress && r.coilsNumber == coilsNumber
    {
      ReadCoilsRequest(firstAddress, coilsNumber)
    }

    /** The body bytes: both fields big-endian, in declared order. */
    function Encoded(): (r: seq<U8>)
      ensures |r| == Len()
    {
      BigEndian(firstAddress) + BigEndian(coilsNumber)
    }

    /** `From<ReadCoilsRequest> for BytesMut`. */
    method ToBytesMut() returns (buf: ByteBuffer)
      ensures fresh(buf) && buf.contents == Encoded()
    {
      buf := new ByteBuffer();
      buf.PutU16(firstAddress);
      buf.PutU16(coilsNumber);
    }
  }

  /** Function code 0x02: `first_address` and `discrete_inputs_number`, four bytes on the wire. */
  datatype ReadDiscreteInputsRequest = ReadDiscreteInputsRequest(firstAddress: U16, discreteInputsNumber: U16)
  {
    /** `Length::len`. */
    function Len(): U16 {
      4
    }

    /** `ReadDiscreteInputsRequest::new`. */
    static function New(firstAddress: U16, discreteInputsNumber: U16): (r: ReadDiscreteInputsRequest)
      ensures r.firstAddress == firstAddress && r.discreteInputsNumber == discreteInputsNumber
    {
      ReadDiscreteInputsRequest(firstAddress, discreteInputsNumber)
    }

    /** The body bytes: both fields big-endian, in declared order. */
    function Encoded(): (r: seq<U8>)
      ensures |r| == Len()
    {
      BigEndian(firstAddress) + BigEndian(discreteInputsNumber)
    }

    /** `From<ReadDiscreteInputsRequest> for BytesMut`. */
    method ToBytesMut() returns (buf: ByteBuffer)
      ensures fresh(buf) && buf.contents == Encoded()
    {
      buf := new ByteBuffer();
      buf.PutU16(firstAddress);
      buf.PutU16(discreteInputsNumber);
    }
  }

  /** Function code 0x03: `first_address` and `registers_number`, four bytes on the wire. */
  datatype ReadMultipleHoldingRegistersRequest = ReadMultipleHoldingRegistersRequest(firstAddress: U16, registersNumber: U16)
  {
    /** `Length::len`. */
    function Len(): U16 {
      4
    }

    /** `ReadMultipleHoldingRegistersRequest::new`. */
    static function New(firstAddress: U16, registersNumber: U16): (r: ReadMultipleHoldingRegistersRequest)
      ensures r.firstAddress == firstAddress && r.registersNumber == registersNumber
    {
      ReadMultipleHoldingRegistersRequest(firstAddress, registersNumber)
    }

    /** The body bytes: both fields big-endian, in declared order. */
    function Encoded(): (r: seq<U8>)
      ensures |r| == Len()
    {
      BigEndian(firstAddress) + BigEndian(registersNumber)
    }

    /** `From<ReadMultipleHoldingRegistersRequest> for BytesMut`. */
    method ToBytesMut() returns (buf: ByteBuffer)
      ensures fresh(buf) && buf.contents == Encoded()
    {
      buf := new ByteBuffer();
      buf.PutU16(firstAddress);
      buf.PutU16(registersNumber);
    }
  }

  /** Function code 0x04: `first_address` and `registers_number`, four bytes on the wire. */
  datatype ReadInputRegistersRequest = ReadInputRegistersRequest(firstAddress: U16, registersNumber: U16)
  {
    /** `Length::len`. */
    function Len(): U16 {
      4
    }

    /** `ReadInputRegistersRequest::new`. */
    static function New(firstAddress: U16, registersNumber: U16): (r: ReadInputRegistersRequest)
      ensures r.firstAddress == firstAddress && r.registersNumber == registersNumber
    {
      ReadInputRegistersRequest(firstAddress, registersNumber)
    }

    /** The body bytes: both fields big-endian, in declared order. */
    function Encoded(): (r: seq<U8>)
      ensures |r| == Len()
    {
      BigEndian(firstAddress) + BigEndian(registersNumber)
    }

    /** `From<ReadInputRegistersRequest> for BytesMut`. */
    method ToBytesMut() returns (buf: ByteBuffer)
      ensures fresh(buf) && buf.contents == Encoded()
    {
      buf := new ByteBuffer();
      buf.PutU16(firstAddress);
      buf.PutU16(registersNumber);
    }
  }

  /** Function code 0x05: `coil_address` and `value`, four bytes on the wire. */
  datatype WriteSingleCoilRequest = WriteSingleCoilRequest(coilAddress: U16, value: U16)
  {
    /** `Length::len`. */
    function Len(): U16 {
      4
    }

    /** `WriteSingleCoilRequest::new`. */
    static function New(coilAddress: U16, value: U16): (r: WriteSingleCoilRequest)
      ensures r.coilAddress == coilAddress && r.value == value
    {
      WriteSingleCoilRequest(coilAddress, value)
    }

    /** The body bytes: both fields big-endian, in declared order. */
    function Encoded(): (r: seq<U8>)
      ensures |r| == Len()
    {
      BigEndian(coilAddress) + BigEndian(value)
    }

    /** `From<WriteSingleCoilRequest> for BytesMut`. */
    method ToBytesMut() returns (buf: ByteBuffer)
      ensures fresh(buf) && buf.contents == Encoded()
    {
      buf := new ByteBuffer();
      buf.PutU16(coilAddress);
      buf.PutU16(value);
    }
  }

  /** Function code 0x06: `register_address` and `value`, four bytes on the wire. */
  datatype WriteSingleHoldingRegisterRequest = WriteSingleHoldingRegisterRequest(registerAddress: U16, value: U16)
  {
    /** `Length::len`. */
    function Len(): U16 {
      4
    }

    /** `WriteSingleHoldingRegisterRequest::new`. */
    static function New(registerAddress: U16, value: U16): (r: WriteSingleHoldingRegisterRequest)
      ensures r.registerAddress == registerAddress && r.value == value
    {
      WriteSingleHoldingRegisterRequest(registerAddress, value)
    }

    /** The body bytes: both fields big-endian, in declared order. */
    function Encoded(): (r: seq<U8>)
      ensures |r| == Len()
    {
      BigEndian(registerAddress) + BigEndian(value)
    }

    /** `From<WriteSingleHoldingRegisterRequest> for BytesMut`. */
    method ToBytesMut() returns (buf: ByteBuffer)
      ensures fresh(buf) && buf.contents == Encoded()
    {
      buf := new ByteBuffer();
      buf.PutU16(registerAddress);
      buf.PutU16(value);
    }
  }

  /**
    Function code 0x0F: `first_address`, `coils_number`, the byte count `bytes_number`
    and the payload `values`.
  */
  datatype WriteMultipleCoilsRequest = WriteMultipleCoilsRequest(firstAddress: U16, coilsNumber: U16, bytesNumber: U8, values: seq<U8>)
  {
    /** `Length::len`: `5 + values.len() as u16`, wrapping as a release build does. */
    function Len(): (n: U16)
      ensures |values| <= 0xFFFA ==> n == 5 + |values|
    {
      AsU16(5 + AsU16(|values|))
    }

    /** `WriteMultipleCoilsRequest::new`: the byte count is taken from the payload. */
    static function New(firstAddress: U16, coilsNumber: U16, values: seq<U8>): (r: WriteMultipleCoilsRequest)
      ensures r.firstAddress == firstAddress && r.coilsNumber == coilsNumber && r.values == values
      ensures r.bytesNumber == AsU8(|values|)
      ensures |values| < 0x100 ==> r.Consistent()
    {
      WriteMultipleCoilsRequest(firstAddress, coilsNumber, AsU8(|values|), values)
    }

    /** The byte count on the wire describes the payload. */
    predicate Consistent() {
      bytesNumber == |values|
    }

    /** The body bytes: both fields big-endian, the byte count, then the payload. */
    function Encoded(): (r: seq<U8>)
      ensures |r| == 5 + |values|
      ensures |values| <= 0xFFFA ==> |r| == Len()
    {
      BigEndian(firstAddress) + BigEndian(coilsNumber) + [bytesNumber] + values
    }

    /** `From<WriteMultipleCoilsRequest> for BytesMut`. */
    method ToBytesMut() returns (buf: ByteBuffer)
      ensures fresh(buf) && buf.contents == Encoded()
    {
      buf := new ByteBuffer();
      buf.PutU16(firstAddress);
      buf.PutU16(coilsNumber);
      buf.PutU8(bytesNumber);
      buf.PutSlice(values);
    }
  }

  /**
    Function code 0x10: `first_address`, `registers_number`, the byte count `bytes_number`
    and the payload `values`.
  */
  datatype WriteMultipleHoldingRegistersRequest = WriteMultipleHoldingRegistersRequest(firstAddress: U16, registersNumber: U16, bytesNumber: U8, values: seq<U8>)
  {
    /** `Length::len`: `5 + values.len() as u16`, wrapping as a release build does. */
    function Len(): (n: U16)
      ensures |values| <= 0xFFFA ==> n == 5 + |values|
    {
      AsU16(5 + AsU16(|values|))
    }

    /**
      `WriteMultipleHoldingRegistersRequest::new`: the register count is half the payload length and the
      byte count is the payload length, both truncated as Rust's `as` casts do.
    */
    static function New(firstAddress: U16, values: seq<U8>): (r: WriteMultipleHoldingRegistersRequest)
      ensures r.firstAddress == firstAddress && r.values == values
      ensures r.bytesNumber == AsU8(|values|)
      ensures |values| < 0x1_0000 ==> r.registersNumber == |values| / 2
      ensures |values| < 0x100 ==> r.Consistent()
    {
      WriteMultipleHoldingRegistersRequest(firstAddress, AsU16(|values|) / 2, AsU8(|values|), values)
    }

    /** The byte count on the wire describes the payload. */
    predicate Consistent() {
      bytesNumber == |values|
    }

    /** The body bytes: both fields big-endian, the byte count, then the payload. */
    function Encoded(): (r: seq<U8>)
      ensures |r| == 5 + |values|
      ensures |values| <= 0xFFFA ==> |r| == Len()
    {
      BigEndian(firstAddress) + BigEndian(registersNumber) + [bytesNumber] + values
    }

    /** `From<WriteMultipleHoldingRegistersRequest> for BytesMut`. */
    method ToBytesMut() returns (buf: ByteBuffer)
      ensures fresh(buf) && buf.contents == Encoded()
    {
      buf := new ByteBuffer();
      buf.PutU16(firstAddress);
      buf.PutU16(registersNumber);
      buf.PutU8(bytesNumber);
      buf.PutSlice(values);
    }
  }
  /** A Modbus request: a head and the body of one function. */
  datatype Request =
    | ReadCoils(head: Head, readCoils: ReadCoilsRequest)
    | ReadDiscreteInputs(head: Head, readDiscreteInputs: ReadDiscreteInputsRequest)
    | ReadMultipleHoldingRegisters(head: Head, readMultipleHoldingRegisters: ReadMultipleHoldingRegistersRequest)
    | ReadInputRegisters(head: Head, readInputRegisters: ReadInputRegistersRequest)
    | WriteSingleCoil(head: Head, writeSingleCoil: WriteSingleCoilRequest)
    | WriteSingleHoldingRegister(head: Head, writeSingleHoldingRegister: WriteSingleHoldingRegisterRequest)
    | WriteMultipleCoils(head: Head, writeMultipleCoils: WriteMultipleCoilsRequest)
    | WriteMultipleHoldingRegisters(head: Head, writeMultipleHoldingRegisters: WriteMultipleHoldingRegistersRequest)
  {
    /** The function this variant stands for. */
    function Func(): Function {
      match this
      case ReadCoils(_, _) => Function.ReadCoils
      case ReadDiscreteInputs(_, _) => Function.ReadDiscreteInputs
      case ReadMultipleHoldingRegisters(_, _) => Function.ReadMultipleHoldingRegisters
      case ReadInputRegisters(_, _) => Function.ReadInputRegisters
      case WriteSingleCoil(_, _) => Function.WriteSingleCoil
      case WriteSingleHoldingRegister(_, _) => Function.WriteSingleHoldingRegister
      case WriteMultipleCoils(_, _) => Function.WriteMultipleCoils
      case WriteMultipleHoldingRegisters(_, _) => Function.WriteMultipleHoldingRegisters
    }

    /** `len()` of the body. */
    function BodyLen(): U16 {
      match this
      case ReadCoils(_, b) => b.Len()
      case ReadDiscreteInputs(_, b) => b.Len()
      case ReadMultipleHoldingRegisters(_, b) => b.Len()
      case ReadInputRegisters(_, b) => b.Len()
      case WriteSingleCoil(_, b) => b.Len()
      case WriteSingleHoldingRegister(_, b) => b.Len()
      case WriteMultipleCoils(_, b) => b.Len()
      case WriteMultipleHoldingRegisters(_, b) => b.Len()
    }

    /** The serialised body. */
    function BodyBytes(): seq<U8> {
      match this
      case ReadCoils(_, b) => b.Encoded()
      case ReadDiscreteInputs(_, b) => b.Encoded()
      case ReadMultipleHoldingRegisters(_, b) => b.Encoded()
      case ReadInputRegisters(_, b) => b.Encoded()
      case WriteSingleCoil(_, b) => b.Encoded()
      case WriteSingleHoldingRegister(_, b) => b.Encoded()
      case WriteMultipleCoils(_, b) => b.Encoded()
      case WriteMultipleHoldingRegisters(_, b) => b.Encoded()
    }

    /** Every byte count in the body describes its payload. */
    predicate BodyConsistent() {
      match this
      case WriteMultipleCoils(_, b) => b.Consistent()
      case WriteMultipleHoldingRegisters(_, b) => b.Consistent()
      case _ => true
    }

    /**
      The shape the frame builder gives a request: `Head::new` over the body
      length for the variant's own function, no exception flag, transaction
      id 0 on RTU (where it is not transmitted), and byte counts that match
      their payloads.
    */
    predicate Built() {
      && head == NewHead(head.tid, head.uid, Func(), BodyLen(), head.version, false)
      && (head.version == Rtu ==> head.tid == 0)
      && BodyConsistent()
    }
  }

  /** Every body of a fixed-size function is four bytes long. */
  lemma FixedBodiesAreFourBytes(x: Request)
    requires !x.Func().IsWriteMultiple()
    ensures x.BodyLen() == 4 && |x.BodyBytes()| == 4
  {
  }

  /**
    `request_to_bytesmut`: append the head and the body to `dst`; for RTU
    then append the CRC of everything `dst` holds, including whatever was in
    it before the call.
  */
  method RequestToBytesMut(item: Request, dst: ByteBuffer)
    modifies dst
    ensures dst.contents == Appended(old(dst.contents), item.head, item.BodyBytes())
  {
    var version;
    var body;
    match item {
      case ReadCoils(head, b) =>
        version := head.version;
        dst.PutSlice(HeadBytes(head));
        body := b.ToBytesMut();
      case ReadDiscreteInputs(head, b) =>
        version := head.version;
        dst.PutSlice(HeadBytes(head));
        body := b.ToBytesMut();
      case ReadMultipleHoldingRegisters(head, b) =>
        version := head.version;
        dst.PutSlice(HeadBytes(head));
        body := b.ToBytesMut();
      case ReadInputRegisters(head, b) =>
        version := head.version;
        dst.PutSlice(HeadBytes(head));
        body := b.ToBytesMut();
      case WriteSingleCoil(head, b) =>
        version := head.version;
        dst.PutSlice(HeadBytes(head));
        body := b.ToBytesMut();
      case WriteSingleHoldingRegister(head, b) =>
        version := head.version;
        dst.PutSlice(HeadBytes(head));
        body := b.ToBytesMut();
      case WriteMultipleCoils(head, b) =>
        version := head.version;
        dst.PutSlice(HeadBytes(head));
        body := b.ToBytesMut();
      case WriteMultipleHoldingRegisters(head, b) =>
        version := head.version;
        dst.PutSlice(HeadBytes(head));
        body := b.ToBytesMut();
    }
    dst.PutSlice(body.contents);
    if version == Rtu {
      var crc := Crc.Compute(dst.contents);
      dst.PutU16(crc);
    }
  }

  /** The upper-case hexadecimal digit of `d`. */
  function HexDigit(d: nat): (c: char)
    requires d < 16
    ensures c in "0123456789ABCDEF"
    ensures DigitValue(c) == d
  {
    if d < 10 then ('0' as int + d) as char else ('A' as int + d - 10) as char
  }

  /** The value of an upper-case hexadecimal digit; 16 for any other character. */
  function DigitValue(c: char): nat {
    if '0' <= c <= '9' then c as int - '0' as int
    else if 'A' <= c <= 'F' then c as int - 'A' as int + 10
    else 16
  }

  /** `{:02X}`: two upper-case hexadecimal digits, high digit first, that read back as `b`. */
  function Hex(b: U8): (r: string)
    ensures |r| == 2
    ensures DigitValue(r[0]) < 16 && DigitValue(r[1]) < 16
    ensures DigitValue(r[0]) * 16 + DigitValue(r[1]) == b
  {
    [HexDigit(b / 16), HexDigit(b % 16)]
  }

  /** Each byte as two hexadecimal digits, single spaces between bytes. */
  function Spaced(bytes: seq<U8>): string
    decreases |bytes|
  {
    if |bytes| == 0 then ""
    else if |bytes| == 1 then Hex(bytes[0])
    else Spaced(bytes[..|bytes| - 1]) + " " + Hex(bytes[|bytes| - 1])
  }

  /**
    The layout of the rendering: three characters per byte but the last,
    the digits of byte `k` at `3k` and `3k + 1`, a space after every byte
    but the last, and no leading or trailing space.
  */
  lemma {:induction false} SpacedAt(bytes: seq<U8>, k: nat)
    requires k < |bytes|
    ensures |Spaced(bytes)| == 3 * |bytes| - 1
    ensures Spaced(bytes)[3 * k] == HexDigit(bytes[k] / 16)
    ensures Spaced(bytes)[3 * k + 1] == HexDigit(bytes[k] % 16)
    ensures k + 1 < |bytes| ==> Spaced(bytes)[3 * k + 2] == ' '
  {
    if |bytes| > 1 {
      var init := bytes[..|bytes| - 1];
      if k < |init| {
        SpacedAt(init, k);
      } else {
        SpacedAt(init, 0);
      }
    }
  }

  /** Rendering one more byte appends a separator (except at the start) and its digits. */
  lemma SpacedSnoc(bytes: seq<U8>, i: nat)
    requires i < |bytes|
    ensures Spaced(bytes[..i + 1]) == Spaced(bytes[..i]) + (if i == 0 then "" else " ") + Hex(bytes[i])
  {
    assert bytes[..i + 1][..i] == bytes[..i];
  }

  /**
    `Display for Request`: render the RTU or TCP frame of `item` byte by
    byte, writing a space before every byte except the first.
  */
  method Display(item: Request) returns (s: string)
    ensures s == Spaced(Framed(item.head, item.BodyBytes()))
  {
    var buf := new ByteBuffer();
    RequestToBytesMut(item, buf);
    AppendedToEmpty(item.head, item.BodyBytes());
    var bytes := buf.contents;
    s := "";
    var first := true;
    var i := 0;
    while i < |bytes|
      invariant 0 <= i <= |bytes|
      invariant first <==> i == 0
      invariant s == Spaced(bytes[..i])
    {
      SpacedSnoc(bytes, i);
      if !first {
        s := s + " ";
      }
      s := s + Hex(bytes[i]);
      first := false;
      i := i + 1;
    }
    assert bytes[..i] == bytes;
  }
}
