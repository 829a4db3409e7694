/**
  The response side of `src/frame/response.rs`: one body per function plus
  the exception body, each with its `Length` and its constructor, and the
  tagged `Response` union. The response serialiser is not part of this
  model's source; its byte layout (head, body fields big-endian in declared
  order, the byte count before the payload of a read response, the exception
  code as one byte, and for RTU the CRC) is fixed by the encoder tests.
*/
module Responses {
  import opened Bytes
  import opened Frame
  import Crc

  /** Response to function code 0x01: the byte count and the payload. */
  datatype ReadCoilsResponse = ReadCoilsResponse(bytesNumber: U8, values: seq<U8>)
  {
    /** `Length::len`: `1 + values.len() as u16`, wrapping as a release build does. */
    function Len(): (n: U16)
      ensures |values| <= 0xFFFE ==> n == 1 + |values|
    {
      AsU16(1 + AsU16(|values|))
    }

    /** `ReadCoilsResponse::new`: the byte count is the payload length, truncated to `u8`. */
    static function New(values: seq<U8>): (r: ReadCoilsResponse)
      ensures r.values == values && r.bytesNumber == AsU8(|values|)
      ensures |values| < 0x100 ==> r.Consistent()
    {
      ReadCoilsResponse(AsU8(|values|), values)
    }

    /** The byte count on the wire describes the payload. */
    predicate Consistent() {
      bytesNumber == |values|
    }

    /** The body bytes: the byte count, then the payload. */
    function Encoded(): (r: seq<U8>)
      ensures |r| == 1 + |values|
      ensures |values| <= 0xFFFE ==> |r| == Len()
    {
      [bytesNumber] + values
    }
  }

  /** Response to function code 0x02: the byte count and the payload. */
  datatype ReadDiscreteInputsResponse = ReadDiscreteInputsResponse(bytesNumber: U8, values: seq<U8>)
  {
    /** `Length::len`: `1 + values.len() as u16`, wrapping as a release build does. */
    function Len(): (n: U16)
      ensures |values| <= 0xFFFE ==> n == 1 + |values|
    {
      AsU16(1 + AsU16(|values|))
    }

    /** `ReadDiscreteInputsResponse::new`: the byte count is the payload length, truncated to `u8`. */
    static function New(values: seq<U8>): (r: ReadDiscreteInputsResponse)
      ensures r.values == values && r.bytesNumber == AsU8(|values|)
      ensures |values| < 0x100 ==> r.Consistent()
    {
      ReadDiscreteInputsResponse(AsU8(|values|), values)
    }

    /** The byte count on the wire describes the payload. */
    predicate Consistent() {
      bytesNumber == |values|
    }

    /** The body bytes: the byte count, then the payload. */
    function Encoded(): (r: seq<U8>)
      ensures |r| == 1 + |values|
      ensures |values| <= 0xFFFE ==> |r| == Len()
    {
      [bytesNumber] + values
    }
  }

  /** Response to function code 0x03: the byte count and the payload. */
  datatype ReadMultipleHoldingRegistersResponse = ReadMultipleHoldingRegistersResponse(bytesNumber: U8, values: seq<U8>)
  {
    /** `Length::len`: `1 + values.len() as u16`, wrapping as a release build does. */
    function Len(): (n: U16)
      ensures |values| <= 0xFFFE ==> n == 1 + |values|
    {
      AsU16(1 + AsU16(|values|))
    }

    /** `ReadMultipleHoldingRegistersResponse::new`: the byte count is the payload length, truncated to `u8`. */
    static function New(values: seq<U8>): (r: ReadMultipleHoldingRegistersResponse)
      ensures r.values == values && r.bytesNumber == AsU8(|values|)
      ensures |values| < 0x100 ==> r.Consistent()
    {
      ReadMultipleHoldingRegistersResponse(AsU8(|values|), values)
    }

    /** The byte count on the wire describes the payload. */
    predicate Consistent() {
      bytesNumber == |values|
    }

    /** The body bytes: the byte count, then the payload. */
    function Encoded(): (r: seq<U8>)
      ensures |r| == 1 + |values|
      ensures |values| <= 0xFFFE ==> |r| == Len()
    {
      [bytesNumber] + values
    }
  }

  /** Response to function code 0x04: the byte count and the payload. */
  datatype ReadInputRegistersResponse = ReadInputRegistersResponse(bytesNumber: U8, values: seq<U8>)
  {
    /** `Length::len`: `1 + values.len() as u16`, wrapping as a release build does. */
    function Len(): (n: U16)
      ensures |values| <= 0xFFFE ==> n == 1 + |values|
    {
      AsU16(1 + AsU16(|values|))
    }

    /** `ReadInputRegistersResponse::new`: the byte count is the payload length, truncated to `u8`. */
    static function New(values: seq<U8>): (r: ReadInputRegistersResponse)
      ensures r.values == values && r.bytesNumber == AsU8(|values|)
      ensures |values| < 0x100 ==> r.Consistent()
    {
      ReadInputRegistersResponse(AsU8(|values|), values)
    }

    /** The byte count on the wire describes the payload. */
    predicate Consistent() {
      bytesNumber == |values|
    }

    /** The body bytes: the byte count, then the payload. */
    function Encoded(): (r: seq<U8>)
      ensures |r| == 1 + |values|
      ensures |values| <= 0xFFFE ==> |r| == Len()
    {
      [bytesNumber] + values
    }
  }

  /** Response to function code 0x05: `coil_address` and `value` echoed back, four bytes on the wire. */
  datatype WriteSingleCoilResponse = WriteSingleCoilResponse(coilAddress: U16, value: U16)
  {
    /** `Length::len`. */
    function Len(): U16 {
      4
    }

    /** `WriteSingleCoilResponse::new`. */
    static function New(coilAddress: U16, value: U16): (r: WriteSingleCoilResponse)
      ensures r.coilAddress == coilAddress && r.value == value
    {
      WriteSingleCoilResponse(coilAddress, value)
    }

    /** The body bytes: both fields big-endian, in declared order. */
    function Encoded(): (r: seq<U8>)
      ensures |r| == Len()
    {
      BigEndian(coilAddress) + BigEndian(value)
    }
  }

  /** Response to function code 0x06: `register_address` and `value` echoed back, four bytes on the wire. */
  datatype WriteSingleHoldingRegisterResponse = WriteSingleHoldingRegisterResponse(registerAddress: U16, value: U16)
  {
    /** `Length::len`. */
    function Len(): U16 {
      4
    }

    /** `WriteSingleHoldingRegisterResponse::new`. */
    static function New(registerAddress: U16, value: U16): (r: WriteSingleHoldingRegisterResponse)
      ensures r.registerAddress == registerAddress && r.value == value
    {
      WriteSingleHoldingRegisterResponse(registerAddress, value)
    }

    /** The body bytes: both fields big-endian, in declared order. */
    function Encoded(): (r: seq<U8>)
      ensures |r| == Len()
    {
      BigEndian(registerAddress) + BigEndian(value)
    }
  }

  /** Response to function code 0x0F: `first_address` and `coils_number` echoed back, four bytes on the wire. */
  datatype WriteMultipleCoilsResponse = WriteMultipleCoilsResponse(firstAddress: U16, coilsNumber: U16)
  {
    /** `Length::len`. */
    function Len(): U16 {
      4
    }

    /** `WriteMultipleCoilsResponse::new`. */
    static function New(firstAddress: U16, coilsNumber: U16): (r: WriteMultipleCoilsResponse)
      ensures r.firstAddress == firstAddress && r.coilsNumber == coilsNumber
    {
      WriteMultipleCoilsResponse(firstAddress, coilsNumber)
    }

    /** The body bytes: both fields big-endian, in declared order. */
    function Encoded(): (r: seq<U8>)
      ensures |r| == Len()
    {
      BigEndian(firstAddress) + BigEndian(coilsNumber)
    }
  }

  /** Response to function code 0x10: `first_address` and `registers_number` echoed back, four bytes on the wire. */
  datatype WriteMultipleHoldingRegistersResponse = WriteMultipleHoldingRegistersResponse(firstAddress: U16, registersNumber: U16)
  {
    /** `Length::len`. */
    function Len(): U16 {
      4
    }

    /** `WriteMultipleHoldingRegistersResponse::new`. */
    static function New(firstAddress: U16, registersNumber: U16): (r: WriteMultipleHoldingRegistersResponse)
      ensures r.firstAddress == firstAddress && r.registersNumber == registersNumber
    {
      WriteMultipleHoldingRegistersResponse(firstAddress, registersNumber)
    }

    /** The body bytes: both fields big-endian, in declared order. */
    function Encoded(): (r: seq<U8>)
      ensures |r| == Len()
    {
      BigEndian(firstAddress) + BigEndian(registersNumber)
    }
  }

  /** The body of an exception response: the reason, one byte on the wire. */
  datatype ExceptionResponse = ExceptionResponse(exception: Exception)
  {
    /** `Length::len`. */
    function Len(): U16 {
      1
    }

    /** `ExceptionResponse::new`. */
    static function New(exception: Exception): (r: ExceptionResponse)
      ensures r.exception == exception
    {
      ExceptionResponse(exception)
    }

    /** The body bytes: the exception code. */
    function Encoded(): (r: seq<U8>)
      ensures |r| == Len()
      ensures ExceptionFromCode(r[0]) == Some(exception)
    {
      [ExceptionCode(exception)]
    }
  }

  /** A Modbus response: a head and the body of one function, or an exception. */
  datatype Response =
    | ReadCoils(head: Head, readCoils: ReadCoilsResponse)
    | ReadDiscreteInputs(head: Head, readDiscreteInputs: ReadDiscreteInputsResponse)
    | ReadMultipleHoldingRegisters(head: Head, readMultipleHoldingRegisters: ReadMultipleHoldingRegistersResponse)
    | ReadInputRegisters(head: Head, readInputRegisters: ReadInputRegistersResponse)
    | WriteSingleCoil(head: Head, writeSingleCoil: WriteSingleCoilResponse)
    | WriteSingleHoldingRegister(head: Head, writeSingleHoldingRegister: WriteSingleHoldingRegisterResponse)
    | WriteMultipleCoils(head: Head, writeMultipleCoils: WriteMultipleCoilsResponse)
    | WriteMultipleHoldingRegisters(head: Head, writeMultipleHoldingRegisters: WriteMultipleHoldingRegistersResponse)
    | Exception(head: Head, exception: ExceptionResponse)
  {
    /** The function the response answers. */
    function Func(): Function {
      match this
      case ReadCoils(_, _) => Function.ReadCoils
      case ReadDiscreteInputs(_, _) => Function.ReadDiscreteInputs
      case ReadMultipleHoldingRegisters(_, _) => Function.ReadMultipleHoldingRegisters
      case ReadInputRegisters(_, _) => Function.ReadInputRegisters
      case WriteSingleCoil(_, _) => Function.WriteSingleCoil
      case WriteSingleHoldingRegister(_, _) => Function.WriteSingleHoldingRegister
      case WriteMultipleCoils(_, _) => Function.WriteMultipleCoils
      case WriteMultipleHoldingRegisters(_, _) => Function.WriteMultipleHoldingRegisters
      case Exception(h, _) => h.func
    }

    /** `len()` of the body. */
    function BodyLen(): U16 {
      match this
      case ReadCoils(_, b) => b.Len()
      case ReadDiscreteInputs(_, b) => b.Len()
      case ReadMultipleHoldingRegisters(_, b) => b.Len()
      case ReadInputRegisters(_, b) => b.Len()
      case WriteSingleCoil(_, b) => b.Len()
      case WriteSingleHoldingRegister(_, b) => b.Len()
      case WriteMultipleCoils(_, b) => b.Len()
      case WriteMultipleHoldingRegisters(_, b) => b.Len()
      case Exception(_, b) => b.Len()
    }

    /** The serialised body. */
    function BodyBytes(): seq<U8> {
      match this
      case ReadCoils(_, b) => b.Encoded()
      case ReadDiscreteInputs(_, b) => b.Encoded()
      case ReadMultipleHoldingRegisters(_, b) => b.Encoded()
      case ReadInputRegisters(_, b) => b.Encoded()
      case WriteSingleCoil(_, b) => b.Encoded()
      case WriteSingleHoldingRegister(_, b) => b.Encoded()
      case WriteMultipleCoils(_, b) => b.Encoded()
      case WriteMultipleHoldingRegisters(_, b) => b.Encoded()
      case Exception(_, b) => b.Encoded()
    }

    /** Every byte count in the body describes its payload. */
    predicate BodyConsistent() {
      match this
      case ReadCoils(_, b) => b.Consistent()
      case ReadDiscreteInputs(_, b) => b.Consistent()
      case ReadMultipleHoldingRegisters(_, b) => b.Consistent()
      case ReadInputRegisters(_, b) => b.Consistent()
      case _ => true
    }

    /**
      The shape the frame builder gives a response: `Head::new` over the body
      length for the function answered, the exception flag set exactly on the
      exception variant, transaction id 0 on RTU, and byte counts that match
      their payloads.
    */
    predicate Built() {
      && head == NewHead(head.tid, head.uid, Func(), BodyLen(), head.version, Exception?)
      && (head.version == Rtu ==> head.tid == 0)
      && BodyConsistent()
    }
  }

  /**
    Body lengths by kind: one byte for an exception, four for every write
    response, and the byte count plus the payload for a read response.
  */
  lemma ResponseBodyLengths(x: Response)
    ensures x.Exception? ==> x.BodyLen() == 1 && |x.BodyBytes()| == 1
    ensures !x.Exception? && !x.Func().IsRead() ==> x.BodyLen() == 4 && |x.BodyBytes()| == 4
    ensures !x.Exception? && x.Func().IsRead() && |x.BodyBytes()| <= 0xFFFF ==> x.BodyLen() == |x.BodyBytes()|
  {
  }

  /**
    The response serialiser: append the head and the body to `dst`; for RTU
    then append the CRC of everything `dst` holds.
  */
  method ResponseToBytesMut(item: Response, dst: ByteBuffer)
    modifies dst
    ensures dst.contents == Appended(old(dst.contents), item.head, item.BodyBytes())
  {
    dst.PutSlice(HeadBytes(item.head));
    dst.PutSlice(item.BodyBytes());
    if item.head.version == Rtu {
      var crc := Crc.Compute(dst.contents);
      dst.PutU16(crc);
    }
  }
}
