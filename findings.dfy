/**
  Defects of the four `decode` impls, each shown on a concrete buffer, and
  corrected decoders for which the intended behaviour is proved.

  The `tokio_util` codec contract is that `decode` returns `Ok(None)` when
  the buffer does not yet hold a whole frame, and is called again once more
  bytes have been appended to the same buffer. The code as written breaks
  that contract in three ways: an RTU decoder that waits has already
  consumed the two head bytes; the TCP decoders and the RTU server take
  bytes they never checked were buffered, and panic; and a TCP length below
  2 or an undefined exception code panics instead of returning an error.
  The corrected decoders peek until the whole frame is there, consume
  nothing while they wait, and never panic.
*/
module Findings {
  import opened Bytes
  import opened Frame
  import opened Requests
  import opened Responses
  import opened Decoder
  import RoundTrip
  import Crc

  // ---------------------------------------------------------------------
  // The code as written

  /**
    An RTU request seen one byte short: the server waits, but has consumed
    the head. When the last byte arrives, the buffer starts at the body,
    whose first byte is taken for a unit id and the next for a function code.
  */
  lemma RtuServerLosesHeadOfPartialFrame(frame: seq<U8>)
    requires frame == [0x0B, 0x01, 0x00, 0x1D, 0x00, 0x1F, 0xED, 0x6E]
    ensures RtuServerDecoding(frame[..7]) == Decoding(Incomplete, 2)
    ensures RtuServerDecoding(frame[2..]) == Decoding(Failed(InvalidFunctionCode(0x1D)), 2)
  {
    assert frame[..7][..2] == [0x0B, 0x01];
    assert frame[2..][..2] == [0x00, 0x1D];
  }

  /**
    The RTU client twin: a read-coils response one byte short. The client
    waits having consumed the head, and the rest then starts with the byte
    count, taken for a unit id, and a payload byte, taken for a function code.
  */
  lemma RtuClientLosesHeadOfPartialFrame(frame: seq<U8>)
    requires frame == [0x0B, 0x01, 0x04, 0xCD, 0x6B, 0xB2, 0x7F, 0x2B, 0xE1]
    ensures RtuClientDecoding(frame[..8]) == Decoding(Incomplete, 2)
    ensures RtuClientDecoding(frame[2..]) == Decoding(Failed(InvalidFunctionCode(0x4D)), 2)
  {
    assert frame[..8][..2] == [0x0B, 0x01];
    assert frame[2..][..2] == [0x04, 0xCD];
  }

  /**
    A write-multiple-coils request whose byte count has not arrived: the
    length falls back to 0, the empty body reaches the body parser, and its
    first `get_u16` panics.
  */
  lemma RtuServerPanicsWithoutByteCount(src: seq<U8>)
    requires src == [0x0B, 0x0F, 0x00, 0x1B]
    ensures RtuServerDecoding(src) == Decoding(Panicked, 2)
  {
    assert src[..2] == [0x0B, 0x0F];
  }

  /** The RTU client unwraps an undefined exception code and panics. */
  lemma RtuClientPanicsOnUndefinedException(src: seq<U8>)
    requires src == [0x0A, 0x81, 0x09, 0x00, 0x00]
    ensures RtuClientDecoding(src) == Decoding(Panicked, 3)
  {
    assert src[..2] == [0x0A, 0x81];
    assert src[2..][..1] == [0x09];
  }

  /** The TCP client waits for four bytes but takes eight: four buffered bytes panic. */
  lemma TcpClientPanicsOnShortHeader(src: seq<U8>)
    requires src == [0x00, 0x01, 0x00, 0x00]
    ensures TcpClientDecoding(src) == Decoding(Panicked, 0)
  {
  }

  /**
    A TCP read-coils request with one of its four body bytes buffered: the
    server takes `length - 2` bytes without checking, and panics.
  */
  lemma TcpServerPanicsOnPartialBody(src: seq<U8>)
    requires src == [0x00, 0x01, 0x00, 0x00, 0x00, 0x06, 0x01, 0x01, 0x00]
    ensures TcpServerDecoding(src) == Decoding(Panicked, 8)
  {
    assert src[..8] == [0x00, 0x01, 0x00, 0x00, 0x00, 0x06, 0x01, 0x01];
  }

  /** A TCP length field of 1 underflows `length - 2` and panics. */
  lemma TcpServerPanicsOnShortLength(src: seq<U8>)
    requires src == [0x00, 0x01, 0x00, 0x00, 0x00, 0x01, 0x01, 0x01]
    ensures TcpServerDecoding(src) == Decoding(Panicked, 8)
  {
    assert src[..8] == src;
  }

  // ---------------------------------------------------------------------
  // Corrected decoders

  /**
    The RTU server as intended: it waits, consuming nothing, until the byte
    count of a write-multiple request and then the whole frame are buffered;
    everything else is as written.
  */
  function FixedRtuServerDecoding(src: seq<U8>): (d: Decoding<Request>)
    ensures d.consumed <= |src|
    ensures d.outcome != Panicked
    ensures d.outcome == Incomplete ==> d.consumed == 0
  {
    if |src| < 2 then Decoding(Incomplete, 0)
    else match RtuHeadFrom(src[..2])
      case Err(e) => Decoding(Failed(e), 2)
      case Ok(head) =>
        var rest := src[2..];
        if head.func.IsWriteMultiple() && |rest| <= 4 then Decoding(Incomplete, 0)
        else
          var len := RtuServerBodyLength(head, rest);
          if |rest| < len + 2 then Decoding(Incomplete, 0)
          else
            var body := rest[..len];
            var request := GetRequest(body, WithBodyLength(head, len)).value;
            var crc := U16At(rest, len);
            if Crc.Check(src[..2] + body, crc) then Decoding(Complete(request), len + 4)
            else Decoding(Failed(InvalidCrc(crc)), len + 4)
  }

  /**
    The RTU client as intended: it waits, consuming nothing, until the whole
    frame is buffered, and reports an undefined exception code as an error.
  */
  function FixedRtuClientDecoding(src: seq<U8>): (d: Decoding<Response>)
    ensures d.consumed <= |src|
    ensures d.outcome != Panicked
    ensures d.outcome == Incomplete ==> d.consumed == 0
  {
    if |src| < 2 then Decoding(Incomplete, 0)
    else match RtuHeadFrom(src[..2])
      case Err(e) => Decoding(Failed(e), 2)
      case Ok(head) =>
        var rest := src[2..];
        var len := RtuClientBodyLength(head, rest);
        if |rest| < len + 2 then Decoding(Incomplete, 0)
        else
          var body := rest[..len];
          if head.isException && ExceptionFromCode(body[0]).None? then
            Decoding(Failed(InvalidExceptionCode(body[0])), len + 4)
          else
            var response := GetResponse(body, WithBodyLength(head, len)).value;
            var crc := U16At(rest, len);
            if Crc.Check(src[..2] + body, crc) then Decoding(Complete(response), len + 4)
            else Decoding(Failed(InvalidCrc(crc)), len + 4)
  }

  /**
    The TCP server as intended: it waits, consuming nothing, until the
    MBAP header and the `length - 2` body bytes are buffered, and reports a
    length that cannot hold the function's body as an error.
  */
  function FixedTcpServerDecoding(src: seq<U8>): (d: Decoding<Request>)
    ensures d.consumed <= |src|
    ensures d.outcome != Panicked
    ensures d.outcome == Incomplete ==> d.consumed == 0
  {
    if |src| < 8 then Decoding(Incomplete, 0)
    else match TcpHeadFrom(src[..8])
      case Err(e) => Decoding(Failed(e), 8)
      case Ok(head) =>
        if head.length < 2 then Decoding(Failed(InvalidLength(head.length)), 8)
        else
          var len := head.length - 2;
          if |src| - 8 < len then Decoding(Incomplete, 0)
          else
            var request := GetRequest(src[8..8 + len], head);
            if request.None? then Decoding(Failed(InvalidLength(head.length)), 8 + len)
            else Decoding(Complete(request.value), 8 + len)
  }

  /**
    The TCP client as intended: the TCP server's corrections, plus waiting
    for all eight MBAP bytes and reporting an undefined exception code.
  */
  function FixedTcpClientDecoding(src: seq<U8>): (d: Decoding<Response>)
    ensures d.consumed <= |src|
    ensures d.outcome != Panicked
    ensures d.outcome == Incomplete ==> d.consumed == 0
  {
    if |src| < 8 then Decoding(Incomplete, 0)
    else match TcpHeadFrom(src[..8])
      case Err(e) => Decoding(Failed(e), 8)
      case Ok(head) =>
        if head.length < 2 then Decoding(Failed(InvalidLength(head.length)), 8)
        else
          var len := head.length - 2;
          if |src| - 8 < len then Decoding(Incomplete, 0)
          else
            var response := GetResponse(src[8..8 + len], head);
            if response.Some? then Decoding(Complete(response.value), 8 + len)
            else if head.isException && len >= 1 && ExceptionFromCode(src[8]).None? then
              Decoding(Failed(InvalidExceptionCode(src[8])), 8 + len)
            else Decoding(Failed(InvalidLength(head.length)), 8 + len)
  }

  // ---------------------------------------------------------------------
  // The corrections change only the defective paths

  /**
    The corrected RTU server returns what the original returns whenever the
    original neither waits nor panics; where the original waits it waits
    too, with nothing consumed; and where the original panics it waits.
  */
  lemma FixedRtuServerAgrees(src: seq<U8>)
    ensures var d := RtuServerDecoding(src);
            && (d.outcome.Complete? || d.outcome.Failed? ==> FixedRtuServerDecoding(src) == d)
            && (d.outcome.Incomplete? || d.outcome.Panicked? ==> FixedRtuServerDecoding(src) == Decoding(Incomplete, 0))
  {
  }

  /**
    The corrected RTU client returns what the original returns whenever the
    original neither waits nor panics; where the original waits it waits
    too, with nothing consumed; and where the original panics (an undefined
    exception code) it reports the code and consumes the frame.
  */
  lemma FixedRtuClientAgrees(src: seq<U8>)
    ensures var d := RtuClientDecoding(src);
            && (d.outcome.Complete? || d.outcome.Failed? ==> FixedRtuClientDecoding(src) == d)
            && (d.outcome.Incomplete? ==> FixedRtuClientDecoding(src) == Decoding(Incomplete, 0))
            && (d.outcome.Panicked? ==>
                  |src| >= 5 && FixedRtuClientDecoding(src) == Decoding(Failed(InvalidExceptionCode(src[2])), 5))
  {
  }

  /**
    The corrected TCP server returns what the original returns whenever the
    original does not panic; where the original panics it waits for the
    rest of the frame or reports the length as invalid.
  */
  lemma FixedTcpServerAgrees(src: seq<U8>)
    ensures var d := TcpServerDecoding(src);
            && (!d.outcome.Panicked? ==> FixedTcpServerDecoding(src) == d)
            && (d.outcome.Panicked? ==>
                  FixedTcpServerDecoding(src) == Decoding(Incomplete, 0)
                  || FixedTcpServerDecoding(src).outcome.Failed?)
  {
  }

  /**
    The corrected TCP client returns what the original returns whenever the
    original does not panic; where the original panics it waits or reports
    an error.
  */
  lemma FixedTcpClientAgrees(src: seq<U8>)
    ensures var d := TcpClientDecoding(src);
            && (!d.outcome.Panicked? ==> FixedTcpClientDecoding(src) == d)
            && (d.outcome.Panicked? ==>
                  FixedTcpClientDecoding(src) == Decoding(Incomplete, 0)
                  || FixedTcpClientDecoding(src).outcome.Failed?)
  {
  }

  /**
    Where the original TCP server underflows `length - 2`, the corrected one
    rejects the length as invalid and consumes the MBAP header.
  */
  lemma FixedTcpServerRejectsShortLength(src: seq<U8>)
    requires |src| >= 8 && TcpHeadFrom(src[..8]).Ok? && TcpHeadFrom(src[..8]).value.length < 2
    ensures TcpServerDecoding(src) == Decoding(Panicked, 8)
    ensures FixedTcpServerDecoding(src) == Decoding(Failed(InvalidLength(TcpHeadFrom(src[..8]).value.length)), 8)
  {
  }

  /** The TCP client twin of `FixedTcpServerRejectsShortLength`. */
  lemma FixedTcpClientRejectsShortLength(src: seq<U8>)
    requires |src| >= 8 && TcpHeadFrom(src[..8]).Ok? && TcpHeadFrom(src[..8]).value.length < 2
    ensures TcpClientDecoding(src) == Decoding(Panicked, 8)
    ensures FixedTcpClientDecoding(src) == Decoding(Failed(InvalidLength(TcpHeadFrom(src[..8]).value.length)), 8)
  {
  }

  /** The frame that panics the original TCP server is rejected with its length 1. */
  lemma FixedTcpServerRejectsLengthOne(src: seq<U8>)
    requires src == [0x00, 0x01, 0x00, 0x00, 0x00, 0x01, 0x01, 0x01]
    ensures FixedTcpServerDecoding(src) == Decoding(Failed(InvalidLength(1)), 8)
  {
    assert src[..8] == src;
  }

  // ---------------------------------------------------------------------
  // The intended behaviour on a stream of frames

  /** The corrected RTU server decodes a built frame followed by anything else to the request it encodes. */
  lemma FixedRtuServerRoundTrip(x: Request, rest: seq<U8>)
    requires x.Built() && x.head.version == Rtu
    ensures var frame := Framed(x.head, x.BodyBytes());
            FixedRtuServerDecoding(frame + rest) == Decoding(Complete(x), |frame|)
  {
    RoundTrip.RtuServerRoundTrip(x, rest);
    FixedRtuServerAgrees(Framed(x.head, x.BodyBytes()) + rest);
  }

  /** The corrected RTU client decodes a built frame followed by anything else to the response it encodes. */
  lemma FixedRtuClientRoundTrip(x: Response, rest: seq<U8>)
    requires x.Built() && x.head.version == Rtu
    ensures var frame := Framed(x.head, x.BodyBytes());
            FixedRtuClientDecoding(frame + rest) == Decoding(Complete(x), |frame|)
  {
    RoundTrip.RtuClientRoundTrip(x, rest);
    FixedRtuClientAgrees(Framed(x.head, x.BodyBytes()) + rest);
  }

  /** The corrected TCP server decodes a built frame followed by anything else to the request it encodes. */
  lemma FixedTcpServerRoundTrip(x: Request, rest: seq<U8>)
    requires x.Built() && x.head.version == Tcp
    ensures var frame := Framed(x.head, x.BodyBytes());
            FixedTcpServerDecoding(frame + rest) == Decoding(Complete(x), |frame|)
  {
    RoundTrip.TcpServerRoundTrip(x, rest);
    FixedTcpServerAgrees(Framed(x.head, x.BodyBytes()) + rest);
  }

  /** The corrected TCP client decodes a built frame followed by anything else to the response it encodes. */
  lemma FixedTcpClientRoundTrip(x: Response, rest: seq<U8>)
    requires x.Built() && x.head.version == Tcp
    ensures var frame := Framed(x.head, x.BodyBytes());
            FixedTcpClientDecoding(frame + rest) == Decoding(Complete(x), |frame|)
  {
    RoundTrip.TcpClientRoundTrip(x, rest);
    FixedTcpClientAgrees(Framed(x.head, x.BodyBytes()) + rest);
  }

  /** A prefix of an RTU frame past the head: the head bytes, then a prefix of body and CRC. */
  lemma RtuFramePrefix(head: Head, body: seq<U8>, k: nat)
    requires head.version == Rtu && 2 <= k < |Framed(head, body)|
    ensures var src := Framed(head, body)[..k];
            && src[..2] == HeadBytes(head)
            && src[2..] == (body + BigEndian(Crc.Checksum(HeadBytes(head) + body)))[..k - 2]
  {
    var tail := body + BigEndian(Crc.Checksum(HeadBytes(head) + body));
    assert Framed(head, body) == HeadBytes(head) + tail;
  }

  /** Every strict prefix of a built RTU request frame makes the corrected server wait with nothing consumed. */
  lemma FixedRtuServerWaitsOnPrefix(x: Request, k: nat)
    requires x.Built() && x.head.version == Rtu
    requires k < |Framed(x.head, x.BodyBytes())|
    ensures FixedRtuServerDecoding(Framed(x.head, x.BodyBytes())[..k]) == Decoding(Incomplete, 0)
  {
    var body := x.BodyBytes();
    var src := Framed(x.head, body)[..k];
    if k >= 2 {
      RtuFramePrefix(x.head, body, k);
      RoundTrip.RtuHeadFromHeadBytes(x.head);
      var head := RtuHeadFrom(src[..2]).value;
      RoundTrip.RequestBodyLength(x);
      var rest := src[2..];
      if head.func.IsWriteMultiple() && |rest| > 4 {
        assert rest[4] == body[4];
      }
      assert !(head.func.IsWriteMultiple() && |rest| <= 4) ==> RtuServerBodyLength(head, rest) == |body|;
    }
  }

  /** Every strict prefix of a built RTU response frame makes the corrected client wait with nothing consumed. */
  lemma FixedRtuClientWaitsOnPrefix(x: Response, k: nat)
    requires x.Built() && x.head.version == Rtu
    requires k < |Framed(x.head, x.BodyBytes())|
    ensures FixedRtuClientDecoding(Framed(x.head, x.BodyBytes())[..k]) == Decoding(Incomplete, 0)
  {
    var body := x.BodyBytes();
    var src := Framed(x.head, body)[..k];
    if k >= 2 {
      RtuFramePrefix(x.head, body, k);
      RoundTrip.RtuHeadFromHeadBytes(x.head);
      var head := RtuHeadFrom(src[..2]).value;
      RoundTrip.ResponseBodyLength(x);
      var rest := src[2..];
      if |rest| > 0 {
        assert rest[0] == body[0];
        assert RtuClientBodyLength(head, rest) == |body|;
      }
    }
  }

  /** Every strict prefix of a built TCP request frame makes the corrected server wait with nothing consumed. */
  lemma FixedTcpServerWaitsOnPrefix(x: Request, k: nat)
    requires x.Built() && x.head.version == Tcp
    requires k < |Framed(x.head, x.BodyBytes())|
    ensures FixedTcpServerDecoding(Framed(x.head, x.BodyBytes())[..k]) == Decoding(Incomplete, 0)
  {
    var frame := Framed(x.head, x.BodyBytes());
    if k >= 8 {
      assert frame[..k][..8] == HeadBytes(x.head);
      RoundTrip.TcpHeadFromHeadBytes(x.head);
      RoundTrip.RequestBodyLength(x);
    }
  }

  /** Every strict prefix of a built TCP response frame makes the corrected client wait with nothing consumed. */
  lemma FixedTcpClientWaitsOnPrefix(x: Response, k: nat)
    requires x.Built() && x.head.version == Tcp
    requires k < |Framed(x.head, x.BodyBytes())|
    ensures FixedTcpClientDecoding(Framed(x.head, x.BodyBytes())[..k]) == Decoding(Incomplete, 0)
  {
    var frame := Framed(x.head, x.BodyBytes());
    if k >= 8 {
      assert frame[..k][..8] == HeadBytes(x.head);
      RoundTrip.TcpHeadFromHeadBytes(x.head);
      RoundTrip.ResponseBodyLength(x);
    }
  }

  /**
    The partial RTU request of `RtuServerLosesHeadOfPartialFrame` under the
    corrected server: it waits with nothing consumed, and once the last byte
    arrives the same buffer decodes to the request.
  */
  lemma FixedRtuServerKeepsHeadOfPartialFrame(x: Request, frame: seq<U8>)
    requires x == Request.ReadCoils(NewHead(0, 0x0B, Function.ReadCoils, 4, Rtu, false),
                                    ReadCoilsRequest.New(0x001D, 0x001F))
    requires frame == [0x0B, 0x01, 0x00, 0x1D, 0x00, 0x1F, 0xED, 0x6E]
    ensures FixedRtuServerDecoding(frame[..7]) == Decoding(Incomplete, 0)
    ensures FixedRtuServerDecoding(frame) == Decoding(Complete(x), 8)
  {
    RtuServerLosesHeadOfPartialFrame(frame);
    FixedRtuServerAgrees(frame[..7]);
    RoundTrip.RtuServerReadCoilsRequestVector(x, frame);
    FixedRtuServerAgrees(frame);
  }
}
