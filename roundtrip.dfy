/**
  Encoding and decoding agree: each of the four decoders, given a frame
  that the serialiser writes for a built request or response (followed by
  any further bytes), returns exactly that request or response and
  consumes exactly that frame. The decoder test vectors follow.
*/
module RoundTrip {
  import opened Bytes
  import opened Frame
  import opened Requests
  import opened Responses
  import opened Decoder
  import Crc

  /** `Head::tcp_try_from` reads back every TCP head the serialiser writes. */
  lemma TcpHeadFromHeadBytes(h: Head)
    requires h.version == Tcp
    ensures TcpHeadFrom(HeadBytes(h)) == Ok(h)
  {
    GetFunctionOfFunctionByte(h.func, h.isException);
  }

  /**
    `Head::rtu_try_from` reads back the unit id, the function and the
    exception flag; the MBAP fields, which RTU does not transmit, come back as zero.
  */
  lemma RtuHeadFromHeadBytes(h: Head)
    requires h.version == Rtu
    ensures RtuHeadFrom(HeadBytes(h)) == Ok(Head(0, 0, 0, h.uid, h.func, Rtu, h.isException))
  {
    GetFunctionOfFunctionByte(h.func, h.isException);
  }

  /** With consistent byte counts the `len()` of a request body is its serialised size, at most 260. */
  lemma RequestBodyLength(x: Request)
    requires x.BodyConsistent()
    ensures x.BodyLen() == |x.BodyBytes()| <= 0x104
  {
  }

  /** With consistent byte counts the `len()` of a response body is its serialised size, at most 256. */
  lemma ResponseBodyLength(x: Response)
    requires x.BodyConsistent()
    ensures x.BodyLen() == |x.BodyBytes()| <= 0x100
  {
  }

  /** `get_request` inverts the request body serialisers. */
  lemma GetRequestOfBody(x: Request)
    requires x.head.func == x.Func()
    ensures GetRequest(x.BodyBytes(), x.head) == Some(x)
  {
  }

  /** `get_response` inverts the response body serialisers, exception responses included. */
  lemma GetResponseOfBody(x: Response)
    requires x.head.func == x.Func() && x.head.isException == x.Exception?
    ensures GetResponse(x.BodyBytes(), x.head) == Some(x)
  {
  }

  /** The RTU server reads the length of a consistent request body from its byte count. */
  lemma RtuServerBodyLengthOfBody(x: Request, head: Head, rest: seq<U8>)
    requires x.BodyConsistent() && head.func == x.Func()
    ensures RtuServerBodyLength(head, x.BodyBytes() + rest) == |x.BodyBytes()|
  {
    var s := x.BodyBytes() + rest;
    if head.func.IsWriteMultiple() {
      assert s[4] == x.BodyBytes()[4];
    }
  }

  /** The RTU client reads the length of a consistent response body from its byte count. */
  lemma RtuClientBodyLengthOfBody(x: Response, head: Head, rest: seq<U8>)
    requires x.BodyConsistent() && head.func == x.Func() && head.isException == x.Exception?
    ensures RtuClientBodyLength(head, x.BodyBytes() + rest) == |x.BodyBytes()|
  {
    var s := x.BodyBytes() + rest;
    if !head.isException && head.func.IsRead() {
      assert s[0] == x.BodyBytes()[0];
    }
  }

  /** The RTU server's steps on a buffer whose head, length, body and CRC are all known to be good. */
  lemma RtuServerCompletes(src: seq<U8>, head: Head, len: nat, item: Request)
    requires |src| >= len + 4 && RtuHeadFrom(src[..2]) == Ok(head)
    requires RtuServerBodyLength(head, src[2..]) == len
    requires GetRequest(src[2..][..len], WithBodyLength(head, len)) == Some(item)
    requires Crc.Check(src[..2] + src[2..][..len], U16At(src[2..], len))
    ensures RtuServerDecoding(src) == Decoding(Complete(item), len + 4)
  {
  }

  /**
    The layout of an RTU frame followed by further bytes: the head, then the
    body, then the checksum of head and body, which `crc::check` accepts.
  */
  lemma RtuFrameParts(head: Head, body: seq<U8>, rest: seq<U8>)
    requires head.version == Rtu
    ensures var src := Framed(head, body) + rest;
            var c := Crc.Checksum(HeadBytes(head) + body);
            && |src| >= |body| + 4
            && src[..2] == HeadBytes(head)
            && src[2..] == body + (BigEndian(c) + rest)
            && src[2..][..|body|] == body
            && U16At(src[2..], |body|) == c
            && Crc.Check(src[..2] + src[2..][..|body|], U16At(src[2..], |body|))
  {
    var c := Crc.Checksum(HeadBytes(head) + body);
    var src := Framed(head, body) + rest;
    assert src == HeadBytes(head) + (body + (BigEndian(c) + rest));
    U16AtBigEndian(c, body, rest);
    assert body + (BigEndian(c) + rest) == body + BigEndian(c) + rest;
  }

  /** `RtuServerCodec` decodes every built RTU request frame back to the request, consuming the frame. */
  lemma RtuServerRoundTrip(x: Request, rest: seq<U8>)
    requires x.Built() && x.head.version == Rtu
    ensures var frame := Framed(x.head, x.BodyBytes());
            RtuServerDecoding(frame + rest) == Decoding(Complete(x), |frame|)
  {
    var body := x.BodyBytes();
    var c := Crc.Checksum(HeadBytes(x.head) + body);
    var src := Framed(x.head, body) + rest;
    RtuFrameParts(x.head, body, rest);
    RtuHeadFromHeadBytes(x.head);
    var head := RtuHeadFrom(src[..2]).value;
    RequestBodyLength(x);
    RtuServerBodyLengthOfBody(x, head, BigEndian(c) + rest);
    assert WithBodyLength(head, |body|) == x.head;
    GetRequestOfBody(x);
    RtuServerCompletes(src, head, |body|, x);
  }

  /** The RTU client's steps on a buffer whose head, length, body and CRC are all known to be good. */
  lemma RtuClientCompletes(src: seq<U8>, head: Head, len: nat, item: Response)
    requires |src| >= len + 4 && RtuHeadFrom(src[..2]) == Ok(head)
    requires RtuClientBodyLength(head, src[2..]) == len
    requires GetResponse(src[2..][..len], WithBodyLength(head, len)) == Some(item)
    requires Crc.Check(src[..2] + src[2..][..len], U16At(src[2..], len))
    ensures RtuClientDecoding(src) == Decoding(Complete(item), len + 4)
  {
  }

  /** `RtuClientCodec` decodes every built RTU response frame back to the response, consuming the frame. */
  lemma RtuClientRoundTrip(x: Response, rest: seq<U8>)
    requires x.Built() && x.head.version == Rtu
    ensures var frame := Framed(x.head, x.BodyBytes());
            RtuClientDecoding(frame + rest) == Decoding(Complete(x), |frame|)
  {
    var body := x.BodyBytes();
    var c := Crc.Checksum(HeadBytes(x.head) + body);
    var src := Framed(x.head, body) + rest;
    RtuFrameParts(x.head, body, rest);
    RtuHeadFromHeadBytes(x.head);
    var head := RtuHeadFrom(src[..2]).value;
    ResponseBodyLength(x);
    RtuClientBodyLengthOfBody(x, head, BigEndian(c) + rest);
    assert WithBodyLength(head, |body|) == x.head;
    GetResponseOfBody(x);
    RtuClientCompletes(src, head, |body|, x);
  }

  /** `TcpServerCodec` decodes every built TCP request frame back to the request, consuming the frame. */
  lemma TcpServerRoundTrip(x: Request, rest: seq<U8>)
    requires x.Built() && x.head.version == Tcp
    ensures var frame := Framed(x.head, x.BodyBytes());
            TcpServerDecoding(frame + rest) == Decoding(Complete(x), |frame|)
  {
    var body := x.BodyBytes();
    var src := Framed(x.head, body) + rest;
    assert src[..8] == HeadBytes(x.head);
    TcpHeadFromHeadBytes(x.head);
    RequestBodyLength(x);
    assert src[8..8 + |body|] == body;
    GetRequestOfBody(x);
  }

  /** `TcpClientCodec` decodes every built TCP response frame back to the response, consuming the frame. */
  lemma TcpClientRoundTrip(x: Response, rest: seq<U8>)
    requires x.Built() && x.head.version == Tcp
    ensures var frame := Framed(x.head, x.BodyBytes());
            TcpClientDecoding(frame + rest) == Decoding(Complete(x), |frame|)
  {
    var body := x.BodyBytes();
    var src := Framed(x.head, body) + rest;
    assert src[..8] == HeadBytes(x.head);
    TcpHeadFromHeadBytes(x.head);
    ResponseBodyLength(x);
    assert src[8..8 + |body|] == body;
    GetResponseOfBody(x);
  }

  /** The RTU client decodes the read-coils response of its tests, CRC 2B E1, to the built response. */
  lemma RtuClientReadCoilsResponseVector(x: Response, src: seq<U8>)
    requires x == Response.ReadCoils(NewHead(0, 0x0B, Function.ReadCoils, 5, Rtu, false),
                                     ReadCoilsResponse.New([0xCD, 0x6B, 0xB2, 0x7F]))
    requires src == [0x0B, 0x01, 0x04, 0xCD, 0x6B, 0xB2, 0x7F, 0x2B, 0xE1]
    ensures RtuClientDecoding(src) == Decoding(Complete(x), 9)
  {
    assert Framed(x.head, x.BodyBytes()) + [] == src by {
      var data := HeadBytes(x.head) + x.BodyBytes();
      assert data == [0x0B, 0x01, 0x04, 0xCD, 0x6B, 0xB2, 0x7F];
      Crc.ReadCoilsResponseChecksum(data);
    }
    RtuClientRoundTrip(x, []);
  }

  /** The RTU client decodes the exception response of its tests, CRC B0 53. */
  lemma RtuClientExceptionResponseVector(x: Response, src: seq<U8>)
    requires x == Response.Exception(NewHead(0, 0x0A, Function.ReadCoils, 1, Rtu, true),
                                     ExceptionResponse.New(IllegalDataAddress))
    requires src == [0x0A, 0x81, 0x02, 0xB0, 0x53]
    ensures RtuClientDecoding(src) == Decoding(Complete(x), 5)
  {
    assert Framed(x.head, x.BodyBytes()) + [] == src by {
      var data := HeadBytes(x.head) + x.BodyBytes();
      assert data == [0x0A, 0x81, 0x02];
      Crc.ExceptionResponseChecksum(data);
    }
    RtuClientRoundTrip(x, []);
  }

  /** The RTU server decodes the read-coils request of its tests, CRC ED 6E. */
  lemma RtuServerReadCoilsRequestVector(x: Request, src: seq<U8>)
    requires x == Request.ReadCoils(NewHead(0, 0x0B, Function.ReadCoils, 4, Rtu, false),
                                    ReadCoilsRequest.New(0x001D, 0x001F))
    requires src == [0x0B, 0x01, 0x00, 0x1D, 0x00, 0x1F, 0xED, 0x6E]
    ensures RtuServerDecoding(src) == Decoding(Complete(x), 8)
  {
    assert Framed(x.head, x.BodyBytes()) + [] == src by {
      var data := HeadBytes(x.head) + x.BodyBytes();
      assert data == [0x0B, 0x01, 0x00, 0x1D, 0x00, 0x1F];
      Crc.ReadCoilsRequestChecksum(data);
    }
    RtuServerRoundTrip(x, []);
  }

  /** The TCP client decodes the read-coils response of its tests: length 5, byte count 2. */
  lemma TcpClientReadCoilsResponseVector(x: Response, src: seq<U8>)
    requires x == Response.ReadCoils(NewHead(1, 0x01, Function.ReadCoils, 3, Tcp, false),
                                     ReadCoilsResponse.New([0x00, 0x01]))
    requires src == [0x00, 0x01, 0x00, 0x00, 0x00, 0x05, 0x01, 0x01, 0x02, 0x00, 0x01]
    ensures TcpClientDecoding(src) == Decoding(Complete(x), 11)
  {
    TcpClientRoundTrip(x, []);
    assert Framed(x.head, x.BodyBytes()) + [] == src;
  }

  /** The TCP client decodes the exception response of its tests: function byte 0x81, code 0x02. */
  lemma TcpClientExceptionResponseVector(x: Response, src: seq<U8>)
    requires x == Response.Exception(NewHead(1, 0x0A, Function.ReadCoils, 1, Tcp, true),
                                     ExceptionResponse.New(IllegalDataAddress))
    requires src == [0x00, 0x01, 0x00, 0x00, 0x00, 0x03, 0x0A, 0x81, 0x02]
    ensures TcpClientDecoding(src) == Decoding(Complete(x), 9)
  {
    TcpClientRoundTrip(x, []);
    assert Framed(x.head, x.BodyBytes()) + [] == src;
  }

  /** The TCP server decodes the read-coils request of its tests. */
  lemma TcpServerReadCoilsRequestVector(x: Request, src: seq<U8>)
    requires x == Request.ReadCoils(NewHead(1, 0x01, Function.ReadCoils, 4, Tcp, false),
                                    ReadCoilsRequest.New(0x02, 0x08))
    requires src == [0x00, 0x01, 0x00, 0x00, 0x00, 0x06, 0x01, 0x01, 0x00, 0x02, 0x00, 0x08]
    ensures TcpServerDecoding(src) == Decoding(Complete(x), 12)
  {
    TcpServerRoundTrip(x, []);
    assert Framed(x.head, x.BodyBytes()) + [] == src;
  }
}
