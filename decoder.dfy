/**
  The decoding half of `src/codec/decoder.rs`: function-byte decoding, the
  two head parsers, the `From<Bytes>` body parsers, the `get_request` and
  `get_response` dispatchers, and the four `Decoder::decode` impls.

  A decode call has four possible outcomes: `Ok(None)` (wait for more
  bytes), `Ok(Some(frame))`, `Err(..)`, and, where the Rust code would
  panic (`copy_to_bytes`, `get_u8` or `get_u16` past the end, `unwrap` of an
  unknown exception code, `length - 2` below zero), the outcome `Panicked`.
  Each decode is specified by a function from the buffered bytes to its
  outcome and to the number of bytes it has consumed from the buffer by the
  time it returns (or panics); each decoder method is proved against it.
*/
module Decoder {
  import opened Bytes
  import opened Frame
  import opened Requests
  import opened Responses
  import Crc

  /**
    The `InvalidData` errors a decoder returns. The last two are the errors
    the corrected decoders of module `Findings` report where the code as
    written panics: `Exception::try_from` already builds the first (its
    result is unwrapped instead of propagated), and the second names a TCP
    length field that cannot describe the function's body.
  */
  datatype DecodeError =
    | InvalidFunctionCode(code: U8)
    | InvalidCrc(crc: U16)
    | InvalidExceptionCode(code: U8)
    | InvalidLength(length: U16)

  datatype Result<T> = Ok(value: T) | Err(error: DecodeError)

  /** What one call of `decode` produces. */
  datatype Outcome<T> =
    | Incomplete
    | Complete(frame: T)
    | Failed(error: DecodeError)
    | Panicked

  /** An outcome together with the number of bytes consumed from the buffer. */
  datatype Decoding<T> = Decoding(outcome: Outcome<T>, consumed: nat)

  /** `Function::try_from`: exactly the eight supported codes are accepted. */
  function FunctionTryFrom(b: U8): (r: Result<Function>)
    ensures r.Ok? <==> b in {0x01, 0x02, 0x03, 0x04, 0x05, 0x06, 0x0F, 0x10}
    ensures r.Ok? ==> FunctionCode(r.value) == b
    ensures r.Err? ==> r.error == InvalidFunctionCode(b)
  {
    match b
    case 0x01 => Ok(Function.ReadCoils)
    case 0x02 => Ok(Function.ReadDiscreteInputs)
    case 0x03 => Ok(Function.ReadMultipleHoldingRegisters)
    case 0x04 => Ok(Function.ReadInputRegisters)
    case 0x05 => Ok(Function.WriteSingleCoil)
    case 0x06 => Ok(Function.WriteSingleHoldingRegister)
    case 0x0F => Ok(Function.WriteMultipleCoils)
    case 0x10 => Ok(Function.WriteMultipleHoldingRegisters)
    case _ => Err(InvalidFunctionCode(b))
  }

  /** `Function::try_from` inverts the function code table. */
  lemma FunctionTryFromCode(f: Function)
    ensures FunctionTryFrom(FunctionCode(f)) == Ok(f)
  {
  }

  /**
    `get_function`: a byte up to 0x80 is a plain function code; a larger one
    is an exception response for the code 0x80 below it. So 0x80 itself is
    rejected, and both halves are tried with `Function::try_from`.
  */
  function GetFunction(b: U8): (r: Result<(Function, bool)>)
    ensures r.Ok? <==> (if b <= 0x80 then FunctionTryFrom(b).Ok? else FunctionTryFrom(b - 0x80).Ok?)
    ensures r.Ok? ==> (r.value.1 <==> b > 0x80) && FunctionByte(r.value.0, r.value.1) == b
    ensures r.Err? ==> r.error == InvalidFunctionCode(if b <= 0x80 then b else b - 0x80)
  {
    if b <= 0x80 then
      match FunctionTryFrom(b)
      case Err(e) => Err(e)
      case Ok(f) => Ok((f, false))
    else
      match FunctionTryFrom(b - 0x80)
      case Err(e) => Err(e)
      case Ok(f) => Ok((f, true))
  }

  /** Decoding the function byte that a head is written with gives back its function and flag. */
  lemma GetFunctionOfFunctionByte(f: Function, isException: bool)
    ensures GetFunction(FunctionByte(f, isException)) == Ok((f, isException))
  {
  }

  /** 0x80 is no function at all, and 0x81 is the exception response to read coils. */
  lemma GetFunctionBoundary()
    ensures GetFunction(0x80) == Err(InvalidFunctionCode(0x80))
    ensures GetFunction(0x81) == Ok((Function.ReadCoils, true))
  {
  }

  /** `Exception::try_from`: the code table, with an error for any other byte. */
  function ExceptionTryFrom(b: U8): (r: Option<Exception>)
    ensures r.Some? <==> 0x01 <= b <= 0x05
    ensures r.Some? ==> ExceptionCode(r.value) == b
  {
    ExceptionFromCode(b)
  }

  /**
    `Head::tcp_try_from` on the eight MBAP bytes: transaction id, protocol id
    and length big-endian, unit id, then the function byte.
  */
  function TcpHeadFrom(buf: seq<U8>): (r: Result<Head>)
    requires |buf| == 8
    ensures r.Ok? <==> GetFunction(buf[7]).Ok?
    ensures r.Err? ==> r.error == GetFunction(buf[7]).error
    ensures r.Ok? ==> r.value.version == Tcp && HeadBytes(r.value) == buf
  {
    match GetFunction(buf[7])
    case Err(e) => Err(e)
    case Ok((f, isException)) =>
      var h := Head(U16At(buf, 0), U16At(buf, 2), U16At(buf, 4), buf[6], f, Tcp, isException);
      assert HeadBytes(h) == buf by {
        assert BigEndian(U16At(buf, 0)) == buf[..2];
        assert BigEndian(U16At(buf, 2)) == buf[2..4];
        assert BigEndian(U16At(buf, 4)) == buf[4..6];
        assert buf == buf[..2] + buf[2..4] + buf[4..6] + [buf[6], buf[7]];
      }
      Ok(h)
  }

  /** `Head::rtu_try_from` on the two RTU head bytes; the MBAP fields are all zero. */
  function RtuHeadFrom(buf: seq<U8>): (r: Result<Head>)
    requires |buf| == 2
    ensures r.Ok? <==> GetFunction(buf[1]).Ok?
    ensures r.Err? ==> r.error == GetFunction(buf[1]).error
    ensures r.Ok? ==> r.value.version == Rtu && r.value.tid == 0 && r.value.pid == 0 && r.value.length == 0
    ensures r.Ok? ==> HeadBytes(r.value) == buf
  {
    match GetFunction(buf[1])
    case Err(e) => Err(e)
    case Ok((f, isException)) => Ok(Head(0, 0, 0, buf[0], f, Rtu, isException))
  }

  /** `From<Bytes> for ReadCoilsRequest`: two `get_u16`s; `None` where they would run past the end. */
  function ReadCoilsRequestFrom(buf: seq<U8>): (r: Option<ReadCoilsRequest>)
    ensures r.Some? <==> |buf| >= 4
    ensures r.Some? ==> r.value.Encoded() == buf[..4]
  {
    if |buf| < 4 then None
    else
      assert buf[..4] == buf[..2] + buf[2..4];
      Some(ReadCoilsRequest(U16At(buf, 0), U16At(buf, 2)))
  }

  /** `From<Bytes> for ReadDiscreteInputsRequest`: two `get_u16`s; `None` where they would run past the end. */
  function ReadDiscreteInputsRequestFrom(buf: seq<U8>): (r: Option<ReadDiscreteInputsRequest>)
    ensures r.Some? <==> |buf| >= 4
    ensures r.Some? ==> r.value.Encoded() == buf[..4]
  {
    if |buf| < 4 then None
    else
      assert buf[..4] == buf[..2] + buf[2..4];
      Some(ReadDiscreteInputsRequest(U16At(buf, 0), U16At(buf, 2)))
  }

  /** `From<Bytes> for ReadMultipleHoldingRegistersRequest`: two `get_u16`s; `None` where they would run past the end. */
  function ReadMultipleHoldingRegistersRequestFrom(buf: seq<U8>): (r: Option<ReadMultipleHoldingRegistersRequest>)
    ensures r.Some? <==> |buf| >= 4
    ensures r.Some? ==> r.value.Encoded() == buf[..4]
  {
    if |buf| < 4 then None
    else
      assert buf[..4] == buf[..2] + buf[2..4];
      Some(ReadMultipleHoldingRegistersRequest(U16At(buf, 0), U16At(buf, 2)))
  }

  /** `From<Bytes> for ReadInputRegistersRequest`: two `get_u16`s; `None` where they would run past the end. */
  function ReadInputRegistersRequestFrom(buf: seq<U8>): (r: Option<ReadInputRegistersRequest>)
    ensures r.Some? <==> |buf| >= 4
    ensures r.Some? ==> r.value.Encoded() == buf[..4]
  {
    if |buf| < 4 then None
    else
      assert buf[..4] == buf[..2] + buf[2..4];
      Some(ReadInputRegistersRequest(U16At(buf, 0), U16At(buf, 2)))
  }

  /** `From<Bytes> for WriteSingleCoilRequest`: two `get_u16`s; `None` where they would run past the end. */
  function WriteSingleCoilRequestFrom(buf: seq<U8>): (r: Option<WriteSingleCoilRequest>)
    ensures r.Some? <==> |buf| >= 4
    ensures r.Some? ==> r.value.Encoded() == buf[..4]
  {
    if |buf| < 4 then None
    else
      assert buf[..4] == buf[..2] + buf[2..4];
      Some(WriteSingleCoilRequest(U16At(buf, 0), U16At(buf, 2)))
  }

  /** `From<Bytes> for WriteSingleHoldingRegisterRequest`: two `get_u16`s; `None` where they would run past the end. */
  function WriteSingleHoldingRegisterRequestFrom(buf: seq<U8>): (r: Option<WriteSingleHoldingRegisterRequest>)
    ensures r.Some? <==> |buf| >= 4
    ensures r.Some? ==> r.value.Encoded() == buf[..4]
  {
    if |buf| < 4 then None
    else
      assert buf[..4] == buf[..2] + buf[2..4];
      Some(WriteSingleHoldingRegisterRequest(U16At(buf, 0), U16At(buf, 2)))
  }

  /**
    `From<Bytes> for WriteMultipleCoilsRequest`: two `get_u16`s, the byte count with `get_u8`,
    and every remaining byte as the payload, whatever the count says.
  */
  function WriteMultipleCoilsRequestFrom(buf: seq<U8>): (r: Option<WriteMultipleCoilsRequest>)
    ensures r.Some? <==> |buf| >= 5
    ensures r.Some? ==> r.value.Encoded() == buf
  {
    if |buf| < 5 then None
    else
      assert buf == buf[..2] + buf[2..4] + [buf[4]] + buf[5..];
      Some(WriteMultipleCoilsRequest(U16At(buf, 0), U16At(buf, 2), buf[4], buf[5..]))
  }

  /**
    `From<Bytes> for WriteMultipleHoldingRegistersRequest`: two `get_u16`s, the byte count with `get_u8`,
    and every remaining byte as the payload, whatever the count says.
  */
  function WriteMultipleHoldingRegistersRequestFrom(buf: seq<U8>): (r: Option<WriteMultipleHoldingRegistersRequest>)
    ensures r.Some? <==> |buf| >= 5
    ensures r.Some? ==> r.value.Encoded() == buf
  {
    if |buf| < 5 then None
    else
      assert buf == buf[..2] + buf[2..4] + [buf[4]] + buf[5..];
      Some(WriteMultipleHoldingRegistersRequest(U16At(buf, 0), U16At(buf, 2), buf[4], buf[5..]))
  }

  /** `From<Bytes> for ReadCoilsResponse`: the byte count, then every remaining byte as the payload. */
  function ReadCoilsResponseFrom(buf: seq<U8>): (r: Option<ReadCoilsResponse>)
    ensures r.Some? <==> |buf| >= 1
    ensures r.Some? ==> r.value.Encoded() == buf
  {
    if |buf| < 1 then None else Some(ReadCoilsResponse(buf[0], buf[1..]))
  }

  /** `From<Bytes> for ReadDiscreteInputsResponse`: the byte count, then every remaining byte as the payload. */
  function ReadDiscreteInputsResponseFrom(buf: seq<U8>): (r: Option<ReadDiscreteInputsResponse>)
    ensures r.Some? <==> |buf| >= 1
    ensures r.Some? ==> r.value.Encoded() == buf
  {
    if |buf| < 1 then None else Some(ReadDiscreteInputsResponse(buf[0], buf[1..]))
  }

  /** `From<Bytes> for ReadMultipleHoldingRegistersResponse`: the byte count, then every remaining byte as the payload. */
  function ReadMultipleHoldingRegistersResponseFrom(buf: seq<U8>): (r: Option<ReadMultipleHoldingRegistersResponse>)
    ensures r.Some? <==> |buf| >= 1
    ensures r.Some? ==> r.value.Encoded() == buf
  {
    if |buf| < 1 then None else Some(ReadMultipleHoldingRegistersResponse(buf[0], buf[1..]))
  }

  /** `From<Bytes> for ReadInputRegistersResponse`: the byte count, then every remaining byte as the payload. */
  function ReadInputRegistersResponseFrom(buf: seq<U8>): (r: Option<ReadInputRegistersResponse>)
    ensures r.Some? <==> |buf| >= 1
    ensures r.Some? ==> r.value.Encoded() == buf
  {
    if |buf| < 1 then None else Some(ReadInputRegistersResponse(buf[0], buf[1..]))
  }

  /** `From<Bytes> for WriteSingleCoilResponse`: two `get_u16`s. */
  function WriteSingleCoilResponseFrom(buf: seq<U8>): (r: Option<WriteSingleCoilResponse>)
    ensures r.Some? <==> |buf| >= 4
    ensures r.Some? ==> r.value.Encoded() == buf[..4]
  {
    if |buf| < 4 then None
    else
      assert buf[..4] == buf[..2] + buf[2..4];
      Some(WriteSingleCoilResponse(U16At(buf, 0), U16At(buf, 2)))
  }

  /** `From<Bytes> for WriteSingleHoldingRegisterResponse`: two `get_u16`s. */
  function WriteSingleHoldingRegisterResponseFrom(buf: seq<U8>): (r: Option<WriteSingleHoldingRegisterResponse>)
    ensures r.Some? <==> |buf| >= 4
    ensures r.Some? ==> r.value.Encoded() == buf[..4]
  {
    if |buf| < 4 then None
    else
      assert buf[..4] == buf[..2] + buf[2..4];
      Some(WriteSingleHoldingRegisterResponse(U16At(buf, 0), U16At(buf, 2)))
  }

  /** `From<Bytes> for WriteMultipleCoilsResponse`: two `get_u16`s. */
  function WriteMultipleCoilsResponseFrom(buf: seq<U8>): (r: Option<WriteMultipleCoilsResponse>)
    ensures r.Some? <==> |buf| >= 4
    ensures r.Some? ==> r.value.Encoded() == buf[..4]
  {
    if |buf| < 4 then None
    else
      assert buf[..4] == buf[..2] + buf[2..4];
      Some(WriteMultipleCoilsResponse(U16At(buf, 0), U16At(buf, 2)))
  }

  /** `From<Bytes> for WriteMultipleHoldingRegistersResponse`: two `get_u16`s. */
  function WriteMultipleHoldingRegistersResponseFrom(buf: seq<U8>): (r: Option<WriteMultipleHoldingRegistersResponse>)
    ensures r.Some? <==> |buf| >= 4
    ensures r.Some? ==> r.value.Encoded() == buf[..4]
  {
    if |buf| < 4 then None
    else
      assert buf[..4] == buf[..2] + buf[2..4];
      Some(WriteMultipleHoldingRegistersResponse(U16At(buf, 0), U16At(buf, 2)))
  }

  /**
    `From<Bytes> for ExceptionResponse`: one byte, converted with
    `Exception::try_from` and unwrapped, so an unknown code panics.
  */
  function ExceptionResponseFrom(buf: seq<U8>): (r: Option<ExceptionResponse>)
    ensures r.Some? <==> |buf| >= 1 && 0x01 <= buf[0] <= 0x05
    ensures r.Some? ==> r.value.Encoded() == buf[..1]
  {
    if |buf| < 1 then None
    else match ExceptionTryFrom(buf[0])
      case None => None
      case Some(e) => Some(ExceptionResponse(e))
  }

  /** The number of body bytes that the body parser of function `f` reads, at most. */
  function RequestBodyTaken(f: Function, body: seq<U8>): nat {
    if f.IsWriteMultiple() then |body| else 4
  }

  /**
    `get_request`: parse the body with the parser of the head's function and
    pair it with the head; `None` where the parser would panic.
  */
  function GetRequest(body: seq<U8>, head: Head): (r: Option<Request>)
    ensures r.Some? <==> |body| >= (if head.func.IsWriteMultiple() then 5 else 4)
    ensures r.Some? ==> r.value.head == head && r.value.Func() == head.func
    ensures r.Some? ==> r.value.BodyBytes() == body[..RequestBodyTaken(head.func, body)]
  {
    match head.func
    case ReadCoils =>
      var p := ReadCoilsRequestFrom(body);
      if p.None? then None else Some(Request.ReadCoils(head, p.value))
    case ReadDiscreteInputs =>
      var p := ReadDiscreteInputsRequestFrom(body);
      if p.None? then None else Some(Request.ReadDiscreteInputs(head, p.value))
    case ReadMultipleHoldingRegisters =>
      var p := ReadMultipleHoldingRegistersRequestFrom(body);
      if p.None? then None else Some(Request.ReadMultipleHoldingRegisters(head, p.value))
    case ReadInputRegisters =>
      var p := ReadInputRegistersRequestFrom(body);
      if p.None? then None else Some(Request.ReadInputRegisters(head, p.value))
    case WriteSingleCoil =>
      var p := WriteSingleCoilRequestFrom(body);
      if p.None? then None else Some(Request.WriteSingleCoil(head, p.value))
    case WriteSingleHoldingRegister =>
      var p := WriteSingleHoldingRegisterRequestFrom(body);
      if p.None? then None else Some(Request.WriteSingleHoldingRegister(head, p.value))
    case WriteMultipleCoils =>
      var p := WriteMultipleCoilsRequestFrom(body);
      if p.None? then None else Some(Request.WriteMultipleCoils(head, p.value))
    case WriteMultipleHoldingRegisters =>
      var p := WriteMultipleHoldingRegistersRequestFrom(body);
      if p.None? then None else Some(Request.WriteMultipleHoldingRegisters(head, p.value))
  }

  /** The number of body bytes that the response body parser for `head` reads, at most. */
  function ResponseBodyTaken(head: Head, body: seq<U8>): nat {
    if head.isException then 1 else if head.func.IsRead() then |body| else 4
  }

  /**
    `get_response`: an exception head takes the exception parser whatever
    its function; otherwise the parser of the head's function is used.
  */
  function GetResponse(body: seq<U8>, head: Head): (r: Option<Response>)
    ensures r.Some? <==>
      if head.isException then |body| >= 1 && 0x01 <= body[0] <= 0x05
      else |body| >= (if head.func.IsRead() then 1 else 4)
    ensures r.Some? ==> r.value.head == head && r.value.Func() == head.func
    ensures r.Some? ==> (r.value.Exception? <==> head.isException)
    ensures r.Some? ==> r.value.BodyBytes() == body[..ResponseBodyTaken(head, body)]
  {
    if head.isException then
      var p := ExceptionResponseFrom(body);
      if p.None? then None else Some(Response.Exception(head, p.value))
    else
      match head.func
      case ReadCoils =>
        var p := ReadCoilsResponseFrom(body);
        if p.None? then None else Some(Response.ReadCoils(head, p.value))
      case ReadDiscreteInputs =>
        var p := ReadDiscreteInputsResponseFrom(body);
        if p.None? then None else Some(Response.ReadDiscreteInputs(head, p.value))
      case ReadMultipleHoldingRegisters =>
        var p := ReadMultipleHoldingRegistersResponseFrom(body);
        if p.None? then None else Some(Response.ReadMultipleHoldingRegisters(head, p.value))
      case ReadInputRegisters =>
        var p := ReadInputRegistersResponseFrom(body);
        if p.None? then None else Some(Response.ReadInputRegisters(head, p.value))
      case WriteSingleCoil =>
        var p := WriteSingleCoilResponseFrom(body);
        if p.None? then None else Some(Response.WriteSingleCoil(head, p.value))
      case WriteSingleHoldingRegister =>
        var p := WriteSingleHoldingRegisterResponseFrom(body);
        if p.None? then None else Some(Response.WriteSingleHoldingRegister(head, p.value))
      case WriteMultipleCoils =>
        var p := WriteMultipleCoilsResponseFrom(body);
        if p.None? then None else Some(Response.WriteMultipleCoils(head, p.value))
      case WriteMultipleHoldingRegisters =>
        var p := WriteMultipleHoldingRegistersResponseFrom(body);
        if p.None? then None else Some(Response.WriteMultipleHoldingRegisters(head, p.value))
  }

  /**
    The body length the RTU client infers for a response: one byte for an
    exception, the byte count (the first byte after the head) plus one for a
    read, with 0 while that byte is not buffered, and four for every write.
  */
  function RtuClientBodyLength(head: Head, rest: seq<U8>): (len: nat)
    ensures len <= 0x100
  {
    if head.isException then 1
    else if head.func.IsRead() then (if |rest| > 0 then (rest[0] as int) + 1 else 0)
    else 4
  }

  /**
    The body length the RTU server infers for a request: four for reads and
    single writes, and for the multiple writes the byte count (the fifth byte
    after the head) plus five, with 0 while that byte is not buffered.
  */
  function RtuServerBodyLength(head: Head, rest: seq<U8>): (len: nat)
    ensures len <= 0x104
  {
    if head.func.IsWriteMultiple() then (if |rest| > 4 then (rest[4] as int) + 5 else 0) else 4
  }

  /**
    What `RtuClientCodec::decode` does to a buffer holding `src`. The head
    bytes are consumed before the length check, so a frame still short of
    its body and CRC gives `Incomplete` with two bytes consumed. The body is
    parsed before the CRC is read; a CRC mismatch is an error.
  */
  function RtuClientDecoding(src: seq<U8>): (d: Decoding<Response>)
    ensures d.consumed <= |src|
  {
    if |src| < 2 then Decoding(Incomplete, 0)
    else match RtuHeadFrom(src[..2])
      case Err(e) => Decoding(Failed(e), 2)
      case Ok(head) =>
        var rest := src[2..];
        var len := RtuClientBodyLength(head, rest);
        if |rest| < len + 2 then Decoding(Incomplete, 2)
        else
          var body := rest[..len];
          var response := GetResponse(body, WithBodyLength(head, len));
          if response.None? then Decoding(Panicked, 2 + len)
          else
            var crc := U16At(rest, len);
            if Crc.Check(src[..2] + body, crc) then Decoding(Complete(response.value), len + 4)
            else Decoding(Failed(InvalidCrc(crc)), len + 4)
  }

  /** What `RtuServerCodec::decode` does to a buffer holding `src`; the same steps as the client. */
  function RtuServerDecoding(src: seq<U8>): (d: Decoding<Request>)
    ensures d.consumed <= |src|
  {
    if |src| < 2 then Decoding(Incomplete, 0)
    else match RtuHeadFrom(src[..2])
      case Err(e) => Decoding(Failed(e), 2)
      case Ok(head) =>
        var rest := src[2..];
        var len := RtuServerBodyLength(head, rest);
        if |rest| < len + 2 then Decoding(Incomplete, 2)
        else
          var body := rest[..len];
          var request := GetRequest(body, WithBodyLength(head, len));
          if request.None? then Decoding(Panicked, 2 + len)
          else
            var crc := U16At(rest, len);
            if Crc.Check(src[..2] + body, crc) then Decoding(Complete(request.value), len + 4)
            else Decoding(Failed(InvalidCrc(crc)), len + 4)
  }

  /**
    What `TcpClientCodec::decode` does to a buffer holding `src`. It waits
    for four bytes but then takes eight, and takes a body of `length - 2`
    bytes without checking that they are there; each of those, like a length
    below 2, panics.
  */
  function TcpClientDecoding(src: seq<U8>): (d: Decoding<Response>)
    ensures d.consumed <= |src|
  {
    if |src| < 4 then Decoding(Incomplete, 0)
    else if |src| < 8 then Decoding(Panicked, 0)
    else match TcpHeadFrom(src[..8])
      case Err(e) => Decoding(Failed(e), 8)
      case Ok(head) =>
        if head.length < 2 || |src| - 8 < head.length - 2 then Decoding(Panicked, 8)
        else
          var len := head.length - 2;
          var response := GetResponse(src[8..8 + len], head);
          if response.None? then Decoding(Panicked, 8 + len)
          else Decoding(Complete(response.value), 8 + len)
  }

  /** What `TcpServerCodec::decode` does to a buffer holding `src`; it waits for the whole MBAP header. */
  function TcpServerDecoding(src: seq<U8>): (d: Decoding<Request>)
    ensures d.consumed <= |src|
  {
    if |src| < 8 then Decoding(Incomplete, 0)
    else match TcpHeadFrom(src[..8])
      case Err(e) => Decoding(Failed(e), 8)
      case Ok(head) =>
        if head.length < 2 || |src| - 8 < head.length - 2 then Decoding(Panicked, 8)
        else
          var len := head.length - 2;
          var request := GetRequest(src[8..8 + len], head);
          if request.None? then Decoding(Panicked, 8 + len)
          else Decoding(Complete(request.value), 8 + len)
  }

  /** Both RTU decoders leave a buffer of fewer than two bytes untouched. */
  lemma RtuShortBufferUntouched(src: seq<U8>)
    requires |src| < 2
    ensures RtuClientDecoding(src) == Decoding(Incomplete, 0)
    ensures RtuServerDecoding(src) == Decoding(Incomplete, 0)
  {
  }

  /**
    The RTU client waits exactly when the rest after the head is shorter
    than the inferred body plus the CRC, and when it waits it has already
    consumed the two head bytes.
  */
  lemma RtuClientWaitsAfterHead(src: seq<U8>)
    requires |src| >= 2 && RtuHeadFrom(src[..2]).Ok?
    ensures var d := RtuClientDecoding(src);
            && (d.outcome.Incomplete? <==> |src| - 2 < RtuClientBodyLength(RtuHeadFrom(src[..2]).value, src[2..]) + 2)
            && (d.outcome.Incomplete? ==> d.consumed == 2)
  {
  }

  /** The same for the RTU server. */
  lemma RtuServerWaitsAfterHead(src: seq<U8>)
    requires |src| >= 2 && RtuHeadFrom(src[..2]).Ok?
    ensures var d := RtuServerDecoding(src);
            && (d.outcome.Incomplete? <==> |src| - 2 < RtuServerBodyLength(RtuHeadFrom(src[..2]).value, src[2..]) + 2)
            && (d.outcome.Incomplete? ==> d.consumed == 2)
  {
  }

  /**
    Once an RTU request passes the size check and its body parses, the
    decoder consumes head, body and CRC, and succeeds exactly when the CRC
    matches head and body.
  */
  lemma RtuServerPastSizeCheck(src: seq<U8>)
    requires |src| >= 2 && RtuHeadFrom(src[..2]).Ok?
    requires var head := RtuHeadFrom(src[..2]).value;
             var len := RtuServerBodyLength(head, src[2..]);
             |src| >= len + 4 && GetRequest(src[2..2 + len], WithBodyLength(head, len)).Some?
    ensures var len := RtuServerBodyLength(RtuHeadFrom(src[..2]).value, src[2..]);
            var d := RtuServerDecoding(src);
            && d.consumed == 2 + len + 2
            && (d.outcome.Complete? <==> Crc.Check(src[..2 + len], U16At(src, 2 + len)))
            && (!d.outcome.Complete? ==> d.outcome == Failed(InvalidCrc(U16At(src, 2 + len))))
  {
    var head := RtuHeadFrom(src[..2]).value;
    var len := RtuServerBodyLength(head, src[2..]);
    var rest := src[2..];
    assert rest[..len] == src[2..2 + len];
    assert src[..2] + rest[..len] == src[..2 + len];
    assert U16At(rest, len) == U16At(src, 2 + len);
  }

  /** The same for an RTU response. */
  lemma RtuClientPastSizeCheck(src: seq<U8>)
    requires |src| >= 2 && RtuHeadFrom(src[..2]).Ok?
    requires var head := RtuHeadFrom(src[..2]).value;
             var len := RtuClientBodyLength(head, src[2..]);
             |src| >= len + 4 && GetResponse(src[2..2 + len], WithBodyLength(head, len)).Some?
    ensures var len := RtuClientBodyLength(RtuHeadFrom(src[..2]).value, src[2..]);
            var d := RtuClientDecoding(src);
            && d.consumed == 2 + len + 2
            && (d.outcome.Complete? <==> Crc.Check(src[..2 + len], U16At(src, 2 + len)))
            && (!d.outcome.Complete? ==> d.outcome == Failed(InvalidCrc(U16At(src, 2 + len))))
  {
    var head := RtuHeadFrom(src[..2]).value;
    var len := RtuClientBodyLength(head, src[2..]);
    var rest := src[2..];
    assert rest[..len] == src[2..2 + len];
    assert src[..2] + rest[..len] == src[..2 + len];
    assert U16At(rest, len) == U16At(src, 2 + len);
  }

  /**
    A TCP request whose MBAP header parses and whose body is all buffered
    and parses is decoded from `length - 2` body bytes, consuming
    `8 + length - 2` bytes in all.
  */
  lemma TcpServerWholeFrame(src: seq<U8>)
    requires |src| >= 8 && TcpHeadFrom(src[..8]).Ok?
    requires var head := TcpHeadFrom(src[..8]).value;
             && head.length >= 2 && |src| >= 8 + head.length - 2
             && GetRequest(src[8..8 + head.length - 2], head).Some?
    ensures var head := TcpHeadFrom(src[..8]).value;
            var d := TcpServerDecoding(src);
            && d.consumed == 8 + head.length - 2
            && d.outcome == Complete(GetRequest(src[8..d.consumed], head).value)
            && d.outcome.frame.head == head
  {
  }

  /** The same for a TCP response. */
  lemma TcpClientWholeFrame(src: seq<U8>)
    requires |src| >= 8 && TcpHeadFrom(src[..8]).Ok?
    requires var head := TcpHeadFrom(src[..8]).value;
             && head.length >= 2 && |src| >= 8 + head.length - 2
             && GetResponse(src[8..8 + head.length - 2], head).Some?
    ensures var head := TcpHeadFrom(src[..8]).value;
            var d := TcpClientDecoding(src);
            && d.consumed == 8 + head.length - 2
            && d.outcome == Complete(GetResponse(src[8..d.consumed], head).value)
            && d.outcome.frame.head == head
  {
  }

  /** The body length step of `RtuClientCodec::decode`: peek at the byte count, consuming nothing. */
  method RtuClientPeekLength(head: Head, src: ByteBuffer) returns (len: nat)
    ensures len == RtuClientBodyLength(head, src.contents)
  {
    if head.isException {
      len := 1;
    } else {
      match head.func {
        case ReadCoils | ReadDiscreteInputs | ReadMultipleHoldingRegisters | ReadInputRegisters =>
          var count := src.Get(0);
          len := if count.Some? then (count.value as int) + 1 else 0;
        case WriteSingleCoil | WriteSingleHoldingRegister | WriteMultipleCoils | WriteMultipleHoldingRegisters =>
          len := 4;
      }
    }
  }

  /** The body length step of `RtuServerCodec::decode`: peek at the byte count, consuming nothing. */
  method RtuServerPeekLength(head: Head, src: ByteBuffer) returns (len: nat)
    ensures len == RtuServerBodyLength(head, src.contents)
  {
    match head.func {
      case ReadCoils | ReadDiscreteInputs | ReadMultipleHoldingRegisters | ReadInputRegisters
         | WriteSingleCoil | WriteSingleHoldingRegister =>
        len := 4;
      case WriteMultipleCoils | WriteMultipleHoldingRegisters =>
        var count := src.Get(4);
        len := if count.Some? then (count.value as int) + 5 else 0;
    }
  }

  /** `RtuClientCodec::decode`, step by step on a `BytesMut`. */
  method RtuClientDecode(src: ByteBuffer) returns (r: Outcome<Response>)
    modifies src
    ensures var d := RtuClientDecoding(old(src.contents));
            r == d.outcome && src.contents == old(src.contents)[d.consumed..]
  {
    ghost var input := src.contents;
    if src.Len() < 2 {
      return Incomplete;
    }
    var dataBytes := new ByteBuffer();
    var headBytes := src.CopyToBytes(2);
    dataBytes.PutSlice(headBytes);
    var parsed := RtuHeadFrom(headBytes);
    if parsed.Err? {
      return Failed(parsed.error);
    }
    var head := parsed.value;
    var len := RtuClientPeekLength(head, src);
    if src.Len() < len + 2 {
      return Incomplete;
    }
    head := WithBodyLength(head, len);
    var bodyBytes := src.CopyToBytes(len);
    dataBytes.PutSlice(bodyBytes);
    var response := GetResponse(bodyBytes, head);
    if response.None? {
      return Panicked;
    }
    var crc := src.GetU16();
    assert input[2..][len..] == input[2 + len..];
    assert crc == U16At(input[2..], len);
    assert dataBytes.contents == input[..2] + input[2..][..len];
    if Crc.Check(dataBytes.contents, crc) {
      assert response == GetResponse(input[2..][..len], WithBodyLength(parsed.value, len));
      assert RtuClientDecoding(input).outcome == Complete(response.value);
      return Complete(response.value);
    }
    return Failed(InvalidCrc(crc));
  }

  /** `RtuServerCodec::decode`, step by step on a `BytesMut`. */
  method RtuServerDecode(src: ByteBuffer) returns (r: Outcome<Request>)
    modifies src
    ensures var d := RtuServerDecoding(old(src.contents));
            r == d.outcome && src.contents == old(src.contents)[d.consumed..]
  {
    ghost var input := src.contents;
    if src.Len() < 2 {
      return Incomplete;
    }
    var dataBytes := new ByteBuffer();
    var headBytes := src.CopyToBytes(2);
    dataBytes.PutSlice(headBytes);
    var parsed := RtuHeadFrom(headBytes);
    if parsed.Err? {
      return Failed(parsed.error);
    }
    var head := parsed.value;
    var len := RtuServerPeekLength(head, src);
    if src.Len() < len + 2 {
      return Incomplete;
    }
    head := WithBodyLength(head, len);
    var bodyBytes := src.CopyToBytes(len);
    dataBytes.PutSlice(bodyBytes);
    var request := GetRequest(bodyBytes, head);
    if request.None? {
      return Panicked;
    }
    var crc := src.GetU16();
    assert input[2..][len..] == input[2 + len..];
    assert crc == U16At(input[2..], len);
    assert dataBytes.contents == input[..2] + input[2..][..len];
    if Crc.Check(dataBytes.contents, crc) {
      assert request == GetRequest(input[2..][..len], WithBodyLength(parsed.value, len));
      assert RtuServerDecoding(input).outcome == Complete(request.value);
      return Complete(request.value);
    }
    return Failed(InvalidCrc(crc));
  }

  /** `TcpClientCodec::decode`, step by step on a `BytesMut`. */
  method TcpClientDecode(src: ByteBuffer) returns (r: Outcome<Response>)
    modifies src
    ensures var d := TcpClientDecoding(old(src.contents));
            r == d.outcome && src.contents == old(src.contents)[d.consumed..]
  {
    ghost var input := src.contents;
    if src.Len() < 4 {
      return Incomplete;
    }
    if src.Len() < 8 {
      return Panicked;
    }
    var headBytes := src.CopyToBytes(8);
    var parsed := TcpHeadFrom(headBytes);
    if parsed.Err? {
      return Failed(parsed.error);
    }
    var head := parsed.value;
    if head.length < 2 || src.Len() < head.length - 2 {
      return Panicked;
    }
    var len := head.length - 2;
    var bodyBytes := src.CopyToBytes(len);
    var response := GetResponse(bodyBytes, head);
    assert input[8..][len..] == input[8 + len..];
    assert bodyBytes == input[8..8 + len];
    if response.None? {
      return Panicked;
    }
    return Complete(response.value);
  }

  /** `TcpServerCodec::decode`, step by step on a `BytesMut`. */
  method TcpServerDecode(src: ByteBuffer) returns (r: Outcome<Request>)
    modifies src
    ensures var d := TcpServerDecoding(old(src.contents));
            r == d.outcome && src.contents == old(src.contents)[d.consumed..]
  {
    ghost var input := src.contents;
    if src.Len() < 8 {
      return Incomplete;
    }
    var headBytes := src.CopyToBytes(8);
    var parsed := TcpHeadFrom(headBytes);
    if parsed.Err? {
      return Failed(parsed.error);
    }
    var head := parsed.value;
    if head.length < 2 || src.Len() < head.length - 2 {
      return Panicked;
    }
    var len := head.length - 2;
    var bodyBytes := src.CopyToBytes(len);
    var request := GetRequest(bodyBytes, head);
    assert input[8..][len..] == input[8 + len..];
    assert bodyBytes == input[8..8 + len];
    if request.None? {
      return Panicked;
    }
    return Complete(request.value);
  }
}
