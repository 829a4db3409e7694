/**
  The four `Encoder::encode` impls of `src/codec/encoder.rs` and the byte
  vectors of its tests. Every impl delegates to the request or response
  serialiser and reports success; encoding has no failure path.
*/
module Encoder {
  import opened Bytes
  import opened Frame
  import opened Requests
  import opened Responses
  import opened Decoder
  import Crc

  /** `Encoder<Request> for RtuClientCodec`. */
  method RtuClientEncode(item: Request, dst: ByteBuffer) returns (r: Result<()>)
    modifies dst
    ensures r == Ok(())
    ensures dst.contents == Appended(old(dst.contents), item.head, item.BodyBytes())
  {
    RequestToBytesMut(item, dst);
    r := Ok(());
  }

  /** `Encoder<Response> for RtuServerCodec`. */
  method RtuServerEncode(item: Response, dst: ByteBuffer) returns (r: Result<()>)
    modifies dst
    ensures r == Ok(())
    ensures dst.contents == Appended(old(dst.contents), item.head, item.BodyBytes())
  {
    ResponseToBytesMut(item, dst);
    r := Ok(());
  }

  /** `Encoder<Request> for TcpClientCodec`. */
  method TcpClientEncode(item: Request, dst: ByteBuffer) returns (r: Result<()>)
    modifies dst
    ensures r == Ok(())
    ensures dst.contents == Appended(old(dst.contents), item.head, item.BodyBytes())
  {
    RequestToBytesMut(item, dst);
    r := Ok(());
  }

  /** `Encoder<Response> for TcpServerCodec`. */
  method TcpServerEncode(item: Response, dst: ByteBuffer) returns (r: Result<()>)
    modifies dst
    ensures r == Ok(())
    ensures dst.contents == Appended(old(dst.contents), item.head, item.BodyBytes())
  {
    ResponseToBytesMut(item, dst);
    r := Ok(());
  }

  /**
    The RTU read-coils request for unit 0x0B, first coil 0x001D and 0x001F
    coils is uid, function code, both fields big-endian, then the CRC low
    byte first.
  */
  lemma RtuReadCoilsRequestVector(x: Request, wire: seq<U8>)
    requires x == Request.ReadCoils(NewHead(0, 0x0B, Function.ReadCoils, 4, Rtu, false),
                                    ReadCoilsRequest.New(0x001D, 0x001F))
    requires wire == [0x0B, 0x01, 0x00, 0x1D, 0x00, 0x1F, 0xED, 0x6E]
    ensures x.Built() && Appended([], x.head, x.BodyBytes()) == wire
  {
    var head := HeadBytes(x.head);
    var body := x.BodyBytes();
    assert head == [0x0B, 0x01] && body == [0x00, 0x1D, 0x00, 0x1F];
    Crc.ReadCoilsRequestChecksum(head + body);
    AppendedRtu(x.head, body, 0xED6E);
  }

  /**
    Write multiple coils over RTU: unit 0x0B, first coil 0x001B, nine coils
    in two value bytes after the byte count 0x02, then the CRC 6C A7.
  */
  lemma RtuWriteMultipleCoilsRequestVector(x: Request, wire: seq<U8>)
    requires x == Request.WriteMultipleCoils(NewHead(0, 0x0B, Function.WriteMultipleCoils, 7, Rtu, false),
                                             WriteMultipleCoilsRequest.New(0x001B, 0x0009, [0x4D, 0x01]))
    requires wire == [0x0B, 0x0F, 0x00, 0x1B, 0x00, 0x09, 0x02, 0x4D, 0x01, 0x6C, 0xA7]
    ensures x.Built() && Appended([], x.head, x.BodyBytes()) == wire
  {
    var head := HeadBytes(x.head);
    var body := x.BodyBytes();
    assert head == [0x0B, 0x0F] && body == [0x00, 0x1B, 0x00, 0x09, 0x02, 0x4D, 0x01];
    Crc.WriteMultipleCoilsRequestChecksum(head + body);
    AppendedRtu(x.head, body, 0x6CA7);
  }

  /**
    Write multiple holding registers over RTU: unit 0x0B, first register
    0x0012, four value bytes, so two registers and byte count 0x04, then the
    CRC A0 D5.
  */
  lemma RtuWriteMultipleHoldingRegistersRequestVector(x: Request, wire: seq<U8>)
    requires x == Request.WriteMultipleHoldingRegisters(
                    NewHead(0, 0x0B, Function.WriteMultipleHoldingRegisters, 9, Rtu, false),
                    WriteMultipleHoldingRegistersRequest.New(0x0012, [0x0B, 0x0A, 0xC1, 0x02]))
    requires wire == [0x0B, 0x10, 0x00, 0x12, 0x00, 0x02, 0x04, 0x0B, 0x0A, 0xC1, 0x02, 0xA0, 0xD5]
    ensures x.Built() && Appended([], x.head, x.BodyBytes()) == wire
  {
    var head := HeadBytes(x.head);
    var body := x.BodyBytes();
    assert head == [0x0B, 0x10] && body == [0x00, 0x12, 0x00, 0x02, 0x04, 0x0B, 0x0A, 0xC1, 0x02];
    Crc.WriteMultipleHoldingRegistersRequestChecksum(head + body);
    AppendedRtu(x.head, body, 0xA0D5);
  }

  /**
    The first TCP read-coils request of a fresh builder: transaction id 1,
    protocol id 0, length 6 (four body bytes plus unit id and function), and
    no trailer.
  */
  lemma TcpReadCoilsRequestVector(x: Request, wire: seq<U8>)
    requires x == Request.ReadCoils(NewHead(1, 0x01, Function.ReadCoils, 4, Tcp, false),
                                    ReadCoilsRequest.New(0x02, 0x08))
    requires wire == [0x00, 0x01, 0x00, 0x00, 0x00, 0x06, 0x01, 0x01, 0x00, 0x02, 0x00, 0x08]
    ensures x.Built() && Appended([], x.head, x.BodyBytes()) == wire
  {
    AppendedToEmpty(x.head, x.BodyBytes());
  }

  /** Write multiple coils over TCP: the byte count 0x02 precedes the two values, and the length is 9. */
  lemma TcpWriteMultipleCoilsRequestVector(x: Request, wire: seq<U8>)
    requires x == Request.WriteMultipleCoils(NewHead(1, 0x01, Function.WriteMultipleCoils, 7, Tcp, false),
                                             WriteMultipleCoilsRequest.New(0x001B, 0x0009, [0x4D, 0x01]))
    requires wire == [0x00, 0x01, 0x00, 0x00, 0x00, 0x09, 0x01, 0x0F, 0x00, 0x1B, 0x00, 0x09, 0x02, 0x4D, 0x01]
    ensures x.Built() && Appended([], x.head, x.BodyBytes()) == wire
  {
    AppendedToEmpty(x.head, x.BodyBytes());
  }

  /** Write multiple holding registers over TCP with two value bytes: one register, byte count 2. */
  lemma TcpWriteMultipleHoldingRegistersRequestVector(x: Request, wire: seq<U8>)
    requires x == Request.WriteMultipleHoldingRegisters(
                    NewHead(1, 0x01, Function.WriteMultipleHoldingRegisters, 7, Tcp, false),
                    WriteMultipleHoldingRegistersRequest.New(0x0000, [0x00, 0x0F]))
    requires wire == [0x00, 0x01, 0x00, 0x00, 0x00, 0x09, 0x01, 0x10, 0x00, 0x00, 0x00, 0x01, 0x02, 0x00, 0x0F]
    ensures x.Built() && Appended([], x.head, x.BodyBytes()) == wire
  {
    AppendedToEmpty(x.head, x.BodyBytes());
  }

  /** A TCP read-input-registers response with ten value bytes: byte count 0x0A, length 0x0D. */
  lemma TcpReadInputRegistersResponseVector(x: Response, wire: seq<U8>)
    requires x == Response.ReadInputRegisters(
                    NewHead(1, 0x01, Function.ReadInputRegisters, 11, Tcp, false),
                    ReadInputRegistersResponse.New([0x00, 0x0C, 0x00, 0x00, 0x00, 0x00, 0x00, 0x00, 0x00, 0x00]))
    requires wire == [0x00, 0x01, 0x00, 0x00, 0x00, 0x0D, 0x01, 0x04, 0x0A, 0x00, 0x0C, 0x00, 0x00, 0x00,
                      0x00, 0x00, 0x00, 0x00, 0x00]
    ensures x.Built() && Appended([], x.head, x.BodyBytes()) == wire
  {
    assert HeadBytes(x.head) == [0x00, 0x01, 0x00, 0x00, 0x00, 0x0D, 0x01, 0x04];
    AppendedToEmpty(x.head, x.BodyBytes());
  }

  /** The TCP exception response: function byte 0x01 + 0x80, length 3, exception code 0x02. */
  lemma TcpExceptionResponseVector(x: Response, wire: seq<U8>)
    requires x == Response.Exception(NewHead(1, 0x0A, Function.ReadCoils, 1, Tcp, true),
                                     ExceptionResponse.New(IllegalDataAddress))
    requires wire == [0x00, 0x01, 0x00, 0x00, 0x00, 0x03, 0x0A, 0x81, 0x02]
    ensures x.Built() && Appended([], x.head, x.BodyBytes()) == wire
  {
    AppendedToEmpty(x.head, x.BodyBytes());
  }

  /** The RTU exception response: uid, 0x81, exception code 0x02, then the CRC B0 53. */
  lemma RtuExceptionResponseVector(x: Response, wire: seq<U8>)
    requires x == Response.Exception(NewHead(0, 0x0A, Function.ReadCoils, 1, Rtu, true),
                                     ExceptionResponse.New(IllegalDataAddress))
    requires wire == [0x0A, 0x81, 0x02, 0xB0, 0x53]
    ensures x.Built() && Appended([], x.head, x.BodyBytes()) == wire
  {
    var head := HeadBytes(x.head);
    var body := x.BodyBytes();
    assert head == [0x0A, 0x81] && body == [0x02];
    Crc.ExceptionResponseChecksum(head + body);
    AppendedRtu(x.head, body, 0xB053);
  }

  /**
    A built TCP read response with `n` value bytes carries the byte count
    `n` after the head and the length field `n + 3`.
  */
  lemma TcpReadResponseLayout(x: Response)
    requires x.Built() && x.head.version == Tcp && !x.Exception? && x.Func().IsRead()
    ensures var frame := Framed(x.head, x.BodyBytes());
            && |frame| == 8 + |x.BodyBytes()|
            && frame[8] == |x.BodyBytes()| - 1
            && U16At(frame, 4) == |x.BodyBytes()| + 2
  {
    var frame := Framed(x.head, x.BodyBytes());
    assert frame[..8] == HeadBytes(x.head);
    assert frame[4..6] == BigEndian(x.head.length);
  }
}
