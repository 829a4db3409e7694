/**
  The frame vocabulary of `src/frame/mod.rs`: the eight supported function
  codes, the exception reasons, the two wire variants, the MBAP header and the
  per-frame `Head` that both wire variants decode into.
*/
module Frame {
  import opened Bytes
  import Crc

  /** The closed set of supported operations. */
  datatype Function =
    | ReadCoils
    | ReadDiscreteInputs
    | ReadMultipleHoldingRegisters
    | ReadInputRegisters
    | WriteSingleCoil
    | WriteSingleHoldingRegister
    | WriteMultipleCoils
    | WriteMultipleHoldingRegisters
  {
    /** The four read operations, whose responses carry a byte count. */
    predicate IsRead() {
      this in {ReadCoils, ReadDiscreteInputs, ReadMultipleHoldingRegisters, ReadInputRegisters}
    }

    /** The two write operations whose requests carry a byte count and a payload. */
    predicate IsWriteMultiple() {
      this in {WriteMultipleCoils, WriteMultipleHoldingRegisters}
    }
  }

  /** The one-byte wire code of each function. */
  function FunctionCode(f: Function): (c: U8)
    ensures c in {0x01, 0x02, 0x03, 0x04, 0x05, 0x06, 0x0F, 0x10}
  {
    match f
    case ReadCoils => 0x01
    case ReadDiscreteInputs => 0x02
    case ReadMultipleHoldingRegisters => 0x03
    case ReadInputRegisters => 0x04
    case WriteSingleCoil => 0x05
    case WriteSingleHoldingRegister => 0x06
    case WriteMultipleCoils => 0x0F
    case WriteMultipleHoldingRegisters => 0x10
  }

  /** No two functions share a wire code. */
  lemma FunctionCodeInjective(f: Function, g: Function)
    ensures FunctionCode(f) == FunctionCode(g) ==> f == g
  {
  }

  /** The reasons a responder gives for not completing a function. */
  datatype Exception =
    | IllegalFunction
    | IllegalDataAddress
    | IllegalDataValue
    | SlaveDeviceFailure
    | Acknowledge

  /** The one-byte wire code of each exception reason. */
  function ExceptionCode(e: Exception): (c: U8)
    ensures 0x01 <= c <= 0x05
  {
    match e
    case IllegalFunction => 0x01
    case IllegalDataAddress => 0x02
    case IllegalDataValue => 0x03
    case SlaveDeviceFailure => 0x04
    case Acknowledge => 0x05
  }

  /** `Exception::from_code`: the reason a wire byte names, if any. */
  function ExceptionFromCode(b: U8): (r: Option<Exception>)
    ensures r.Some? <==> 0x01 <= b <= 0x05
    ensures r.Some? ==> ExceptionCode(r.value) == b
  {
    match b
    case 0x01 => Some(IllegalFunction)
    case 0x02 => Some(IllegalDataAddress)
    case 0x03 => Some(IllegalDataValue)
    case 0x04 => Some(SlaveDeviceFailure)
    case 0x05 => Some(Acknowledge)
    case _ => None
  }

  /** The two wire variants. */
  datatype Version = Tcp | Rtu

  /** The MBAP header of a TCP frame. */
  datatype Mbap = Mbap(tid: U16, pid: U16, length: U16, uid: U8)

  /**
    `Mbap::new`: protocol id 0 and a length field that also counts the unit
    id and function bytes. The `u16` addition wraps as a release build does.
  */
  function NewMbap(tid: U16, uid: U8, bodyLength: U16): (m: Mbap)
    ensures m.tid == tid && m.uid == uid && m.pid == 0
    ensures bodyLength <= 0xFFFD ==> m.length == bodyLength + 2
  {
    Mbap(tid, 0, AsU16(bodyLength + 2), uid)
  }

  /**
    Per-frame metadata in the shape the decoder builds: the MBAP fields (all
    zero on the RTU path until the length is back-filled), the unit id, the
    function the frame is about, the wire variant and whether the frame is an
    exception response.
  */
  datatype Head = Head(
    tid: U16,
    pid: U16,
    length: U16,
    uid: U8,
    func: Function,
    version: Version,
    isException: bool)
  {
    /** The MBAP part of the head. */
    function MbapPart(): Mbap {
      Mbap(tid, pid, length, uid)
    }
  }

  /**
    `Head::new`: the MBAP part comes from `Mbap::new`. The version and the
    exception flag, which the older `Head` of `src/frame/mod.rs` lacks, are
    passed through.
  */
  function NewHead(tid: U16, uid: U8, func: Function, bodyLength: U16,
                   version: Version, isException: bool): (h: Head)
    ensures h.MbapPart() == NewMbap(tid, uid, bodyLength)
    ensures h.func == func && h.version == version && h.isException == isException
  {
    var m := NewMbap(tid, uid, bodyLength);
    Head(m.tid, m.pid, m.length, m.uid, func, version, isException)
  }

  /** `Head::body_length`: back-fill the length field from the body length. */
  function WithBodyLength(h: Head, bodyLength: U16): (r: Head)
    ensures r.MbapPart() == NewMbap(h.tid, h.uid, bodyLength).(pid := h.pid)
    ensures r.func == h.func && r.version == h.version && r.isException == h.isException
  {
    h.(length := AsU16(bodyLength + 2))
  }

  /** The function byte on the wire: the code, plus 0x80 for an exception response. */
  function FunctionByte(f: Function, isException: bool): U8 {
    FunctionCode(f) + if isException then 0x80 else 0
  }

  /**
    The bytes of a head: TCP writes transaction id, protocol id and length
    (big-endian), unit id and function byte; RTU writes only the unit id and
    the function byte.
  */
  function HeadBytes(h: Head): (r: seq<U8>)
    ensures |r| == if h.version == Tcp then 8 else 2
    ensures r[|r| - 2] == h.uid && r[|r| - 1] == FunctionByte(h.func, h.isException)
  {
    match h.version
    case Tcp =>
      BigEndian(h.tid) + BigEndian(h.pid) + BigEndian(h.length) + [h.uid, FunctionByte(h.func, h.isException)]
    case Rtu =>
      [h.uid, FunctionByte(h.func, h.isException)]
  }

  /**
    What encoding a frame appends to a buffer that already holds `prior`:
    head and body, then for RTU the CRC of the whole buffer, `prior`
    included, since the checksum is computed over everything buffered.
  */
  function Appended(prior: seq<U8>, head: Head, body: seq<U8>): (r: seq<U8>)
    ensures |r| == |prior| + |HeadBytes(head)| + |body| + (if head.version == Rtu then 2 else 0)
    ensures r[..|prior| + |HeadBytes(head)| + |body|] == prior + HeadBytes(head) + body
  {
    var pdu := prior + HeadBytes(head) + body;
    if head.version == Rtu then pdu + BigEndian(Crc.Checksum(pdu)) else pdu
  }

  /**
    The bytes one frame occupies on the wire: head, body and, for RTU only,
    the CRC of head and body.
  */
  function Framed(head: Head, body: seq<U8>): (r: seq<U8>)
    ensures |r| == |HeadBytes(head)| + |body| + (if head.version == Rtu then 2 else 0)
    ensures r[..|HeadBytes(head)| + |body|] == HeadBytes(head) + body
  {
    var data := HeadBytes(head) + body;
    if head.version == Rtu then data + BigEndian(Crc.Checksum(data)) else data
  }

  /** An RTU frame written into an empty buffer is head, body, then the checksum `c` of both. */
  lemma AppendedRtu(head: Head, body: seq<U8>, c: U16)
    requires head.version == Rtu && Crc.Checksum(HeadBytes(head) + body) == c
    ensures Appended([], head, body) == HeadBytes(head) + body + BigEndian(c)
  {
    assert [] + HeadBytes(head) + body == HeadBytes(head) + body;
  }

  /** Encoding into an empty buffer gives exactly the frame. */
  lemma AppendedToEmpty(head: Head, body: seq<U8>)
    ensures Appended([], head, body) == Framed(head, body)
  {
    assert [] + HeadBytes(head) + body == HeadBytes(head) + body;
  }
}
