# easy-modbus frame codec, modelled in Dafny

easy-modbus is a Rust library for Modbus clients and servers over TCP and over
serial lines (RTU). This project models its frame codec:

- The request and response frames: one body per supported function, the
  exception body, and the head of a frame. The head holds the MBAP fields,
  the unit id, the function, the wire variant and the exception flag.
- How each frame is laid out on the wire. For RTU that includes the
  CRC-16 trailer.
- The four encoders (`RtuClientCodec`, `RtuServerCodec`, `TcpClientCodec`,
  `TcpServerCodec`), which append a frame to a `BytesMut`.
- The four decoders, which take one frame from the front of a `BytesMut`.
  A decoder waits (`Ok(None)`), returns a frame, fails with an error, or
  panics.

Layout of the project:

- `bytes.dfy`: the Rust integer widths, big-endian `u16` fields, and a
  `ByteBuffer` class that models the part of `BytesMut` the codec uses.
- `crc.dfy`: the Modbus CRC, computed bit by bit, as the codec writes and
  checks it.
- `frame.dfy`: functions, exceptions, the MBAP header, the `Head`, and the
  byte layout of a head and of a whole frame.
- `request.dfy`: request bodies, their serialisers, `request_to_bytesmut`
  and the `Display` rendering.
- `response.dfy`: response bodies and the response serialiser.
- `decoder.dfy`: function-byte and head decoding, and the body parsers.
  Each of the four decoders is given as a function from the buffered bytes
  to its outcome and the number of bytes it consumes. Each is also given as
  a method on a `ByteBuffer` that is proved against that function.
- `encoder.dfy`: the four encode methods. It also checks that the model
  reproduces the byte vectors the encoder tests expect.
- `roundtrip.dfy`: decoding an encoded frame, followed by any further
  bytes, gives back that frame and consumes exactly its bytes. This is
  proved for all four codecs. It also checks the decoder test vectors.
- `findings.dfy`: inputs on which the decoders as written lose bytes or
  panic. For each, it gives a corrected decoder and proves what it
  guarantees.

Rust panics are modelled as an explicit outcome (`Panicked`), not as
preconditions. A panic comes from `copy_to_bytes`, `get_u8` or `get_u16`
past the end of a buffer, from the `unwrap` of an unknown exception code, or
from `length - 2` going below zero. `u16` and `u8` casts and additions wrap
as in a release build.

## Model

| member | source | states |
|---|---|---|
| Bytes.AsU16 | src/frame/request.rs:273-277 | `as u16` keeps a value below 2^16 unchanged and truncates a larger one |
| Bytes.AsU8 | src/frame/request.rs:285-290 | `as u8` keeps a value below 256 unchanged and truncates a larger one |
| Bytes.BigEndian | src/frame/request.rs:354-361 | `put_u16` writes two bytes, high byte first, and they recombine to the value |
| Bytes.U16At | src/codec/decoder.rs:212-219 | `get_u16` reads the high byte, then the low byte |
| Bytes.U16AtBigEndian | src/codec/decoder.rs:212-219 | reading back a `u16` written by `put_u16` gives the same value, wherever it sits in the buffer |
| Bytes.BigEndianInjective | src/codec/decoder.rs:62-63 | two `u16` values with the same two wire bytes are equal |
| Bytes.ByteBuffer.constructor | src/codec/decoder.rs:27 | `BytesMut::new()` is empty |
| Bytes.ByteBuffer.FromSlice | src/codec/decoder.rs:464-465 | `BytesMut::from(&v[..])` holds exactly `v` |
| Bytes.ByteBuffer.Len | src/codec/decoder.rs:23 | `len()` is the number of buffered bytes |
| Bytes.ByteBuffer.Get | src/codec/decoder.rs:42 | `get(i)` is present exactly when `i` is in range, and is then the byte at `i`; nothing is consumed |
| Bytes.ByteBuffer.PutU8 | src/frame/request.rs:413 | `put_u8` appends one byte and keeps what was there |
| Bytes.ByteBuffer.PutU16 | src/frame/request.rs:357-358 | `put_u16` appends the two big-endian bytes |
| Bytes.ByteBuffer.PutSlice | src/frame/request.rs:414 | `put_slice` appends the slice |
| Bytes.ByteBuffer.CopyToBytes | src/codec/decoder.rs:29 | `copy_to_bytes(n)` returns the first `n` bytes and leaves the rest buffered |
| Bytes.ByteBuffer.GetU16 | src/codec/decoder.rs:62 | `get_u16` consumes two bytes and returns their big-endian value |
| Crc.Swapped | src/frame/request.rs:474-476 | the swapped value's wire bytes are the register's low byte, then its high byte |
| Crc.Checksum | src/frame/request.rs:474-476 | the checksum the encoder writes is the CRC register over the data, low byte first on the wire |
| Crc.FeedByte | src/frame/request.rs:474-476 | eight shifts after mixing in a byte give the register that byte leads to |
| Crc.Compute | src/frame/request.rs:474-476 | `crc::compute`, computed byte by byte and bit by bit, equals the checksum of the data |
| Crc.Check | src/codec/decoder.rs:62-69 | `crc::check` accepts a trailer exactly when its wire bytes are the register's low and high bytes |
| Crc.RegisterSnoc | src/frame/request.rs:474-476 | extending the data by one byte feeds that byte into the register |
| Crc.RegisterStep | src/frame/request.rs:474-476 | one byte of a checksum computed by hand gives the same register as the definition |
| Crc.ReadCoilsRequestRegister3 | src/codec/encoder.rs:65-76 | the register after the first three bytes of the RTU read-coils request |
| Crc.ReadCoilsRequestChecksum | src/codec/encoder.rs:65-76 | the RTU read-coils request 0B 01 00 1D 00 1F has trailer ED 6E |
| Crc.ReadCoilsResponseRegister3 | src/codec/decoder.rs:461-470 | the register after the first three bytes of the RTU read-coils response |
| Crc.ReadCoilsResponseRegister6 | src/codec/decoder.rs:461-470 | the register after the first six bytes of the RTU read-coils response |
| Crc.ReadCoilsResponseChecksum | src/codec/decoder.rs:461-470 | the RTU read-coils response 0B 01 04 CD 6B B2 7F has trailer 2B E1 |
| Crc.WriteMultipleCoilsRequestRegister3 | src/codec/encoder.rs:143-156 | the register after the first three bytes of the RTU write-multiple-coils request |
| Crc.WriteMultipleCoilsRequestRegister6 | src/codec/encoder.rs:143-156 | the register after the first six bytes of that request |
| Crc.WriteMultipleCoilsRequestRegister8 | src/codec/encoder.rs:143-156 | the register after the first eight bytes of that request |
| Crc.WriteMultipleCoilsRequestChecksum | src/codec/encoder.rs:143-156 | the RTU write-multiple-coils request 0B 0F 00 1B 00 09 02 4D 01 has trailer 6C A7 |
| Crc.WriteMultipleHoldingRegistersRequestRegister3 | src/codec/encoder.rs:158-175 | the register after the first three bytes of the RTU write-multiple-registers request |
| Crc.WriteMultipleHoldingRegistersRequestRegister6 | src/codec/encoder.rs:158-175 | the register after the first six bytes of that request |
| Crc.WriteMultipleHoldingRegistersRequestRegister8 | src/codec/encoder.rs:158-175 | the register after the first eight bytes of that request |
| Crc.WriteMultipleHoldingRegistersRequestRegister10 | src/codec/encoder.rs:158-175 | the register after the first ten bytes of that request |
| Crc.WriteMultipleHoldingRegistersRequestChecksum | src/codec/encoder.rs:158-175 | the RTU write-multiple-registers request 0B 10 00 12 00 02 04 0B 0A C1 02 has trailer A0 D5 |
| Crc.ExceptionResponseChecksum | src/codec/encoder.rs:574-586 | the RTU exception response 0A 81 02 has trailer B0 53 |
| Frame.FunctionCode | src/codec/decoder.rs:417-438 | every function has one of the eight supported codes |
| Frame.FunctionCodeInjective | src/codec/decoder.rs:417-438 | no two functions share a code |
| Frame.ExceptionCode | src/codec/decoder.rs:401-415 | every exception reason has a code from 1 to 5 |
| Frame.ExceptionFromCode | src/codec/decoder.rs:401-415 | a byte names an exception exactly when it is 1 to 5, and then it names the reason whose code it is |
| Frame.NewMbap | src/frame/mod.rs:38-47 | `Mbap::new` keeps the transaction id and unit id, sets the protocol id to 0, and sets the length to the body length plus 2 (wrapping) |
| Frame.NewHead | src/frame/mod.rs:49-56 | `Head::new` has the MBAP part of `Mbap::new` and the given function, variant and exception flag |
| Frame.WithBodyLength | src/codec/decoder.rs:56 | `body_length` sets the length field as `Mbap::new` would and keeps every other field |
| Frame.HeadBytes | src/codec/decoder.rs:369-398 | a TCP head is 8 bytes and an RTU head is 2; both end with the unit id and the function byte |
| Frame.Appended | src/frame/request.rs:430-477 | encoding keeps the earlier buffer contents as a prefix, then writes head and body, then for RTU two more bytes |
| Frame.Framed | src/codec/encoder.rs:65-76 | a frame is head and body, plus a 2-byte trailer for RTU |
| Frame.AppendedRtu | src/frame/request.rs:474-476 | an RTU frame written to an empty buffer ends with the checksum of its head and body |
| Frame.AppendedToEmpty | src/frame/request.rs:430-477 | encoding into an empty buffer gives exactly the frame |
| Requests.ReadCoilsRequest.New | src/frame/request.rs:59-66 | the body holds the given address and count |
| Requests.ReadCoilsRequest.Encoded | src/frame/request.rs:354-361 | the serialised body is `len()` bytes long |
| Requests.ReadCoilsRequest.ToBytesMut | src/frame/request.rs:354-361 | a fresh buffer holding the serialised body |
| Requests.ReadDiscreteInputsRequest.New | src/frame/request.rs:87-96 | the body holds the given address and count |
| Requests.ReadDiscreteInputsRequest.Encoded | src/frame/request.rs:363-370 | the serialised body is `len()` bytes long |
| Requests.ReadDiscreteInputsRequest.ToBytesMut | src/frame/request.rs:363-370 | a fresh buffer holding the serialised body |
| Requests.ReadMultipleHoldingRegistersRequest.New | src/frame/request.rs:126-135 | the body holds the given address and count |
| Requests.ReadMultipleHoldingRegistersRequest.Encoded | src/frame/request.rs:372-379 | the serialised body is `len()` bytes long |
| Requests.ReadMultipleHoldingRegistersRequest.ToBytesMut | src/frame/request.rs:372-379 | a fresh buffer holding the serialised body |
| Requests.ReadInputRegistersRequest.New | src/frame/request.rs:165-171 | the body holds the given address and count |
| Requests.ReadInputRegistersRequest.Encoded | src/frame/request.rs:381-388 | the serialised body is `len()` bytes long |
| Requests.ReadInputRegistersRequest.ToBytesMut | src/frame/request.rs:381-388 | a fresh buffer holding the serialised body |
| Requests.WriteSingleCoilRequest.New | src/frame/request.rs:200-206 | the body holds the given address and value |
| Requests.WriteSingleCoilRequest.Encoded | src/frame/request.rs:390-397 | the serialised body is `len()` bytes long |
| Requests.WriteSingleCoilRequest.ToBytesMut | src/frame/request.rs:390-397 | a fresh buffer holding the serialised body |
| Requests.WriteSingleHoldingRegisterRequest.New | src/frame/request.rs:233-239 | the body holds the given address and value |
| Requests.WriteSingleHoldingRegisterRequest.Encoded | src/frame/request.rs:399-406 | the serialised body is `len()` bytes long |
| Requests.WriteSingleHoldingRegisterRequest.ToBytesMut | src/frame/request.rs:399-406 | a fresh buffer holding the serialised body |
| Requests.WriteMultipleCoilsRequest.Len | src/frame/request.rs:273-277 | `len()` is 5 plus the payload length, while that fits in a `u16` |
| Requests.WriteMultipleCoilsRequest.New | src/frame/request.rs:279-291 | the body keeps address, count and payload; the byte count is the payload length as `u8`, so it describes the payload whenever the payload is shorter than 256 bytes |
| Requests.WriteMultipleCoilsRequest.Encoded | src/frame/request.rs:408-417 | the serialised body is 5 bytes plus the payload, which is `len()` when that does not wrap |
| Requests.WriteMultipleCoilsRequest.ToBytesMut | src/frame/request.rs:408-417 | a fresh buffer holding the serialised body |
| Requests.WriteMultipleHoldingRegistersRequest.Len | src/frame/request.rs:321-325 | `len()` is 5 plus the payload length, while that fits in a `u16` |
| Requests.WriteMultipleHoldingRegistersRequest.New | src/frame/request.rs:327-335 | the body keeps address and payload; the register count is half the payload length and the byte count is the payload length as `u8` |
| Requests.WriteMultipleHoldingRegistersRequest.Encoded | src/frame/request.rs:419-428 | the serialised body is 5 bytes plus the payload, which is `len()` when that does not wrap |
| Requests.WriteMultipleHoldingRegistersRequest.ToBytesMut | src/frame/request.rs:419-428 | a fresh buffer holding the serialised body |
| Requests.FixedBodiesAreFourBytes | src/frame/request.rs:53-231 | every request body except the two multiple writes has `len()` 4 and serialises to 4 bytes |
| Requests.RequestToBytesMut | src/frame/request.rs:430-477 | `request_to_bytesmut` appends head and body to the buffer; for RTU it then appends the CRC of everything buffered, earlier contents included |
| Requests.HexDigit | src/frame/request.rs:33 | a value below 16 renders as an upper-case hexadecimal digit whose value it is |
| Requests.Hex | src/frame/request.rs:33 | `{:02X}` renders a byte as two upper-case hexadecimal digits, high digit first, that read back as the byte |
| Requests.SpacedAt | src/frame/request.rs:29-36 | the rendering is 3n-1 characters; character 3k and 3k+1 are the digits of byte k, and a space separates neighbouring bytes |
| Requests.SpacedSnoc | src/frame/request.rs:29-36 | rendering one more byte appends a space (except before the first byte) and its two digits |
| Requests.Display | src/frame/request.rs:24-38 | `Display` renders the bytes `request_to_bytesmut` writes into an empty buffer, upper-case hexadecimal, separated by single spaces |
| Responses.ReadCoilsResponse.Len | src/frame/response.rs:25-29 | `len()` is 1 plus the payload length, while that fits in a `u16` |
| Responses.ReadCoilsResponse.New | src/frame/response.rs:31-39 | the byte count is the payload length as `u8`, so it describes the payload whenever the payload is shorter than 256 bytes |
| Responses.ReadCoilsResponse.Encoded | src/codec/decoder.rs:288-295 | the byte count, then the payload, in the layout the parser reads |
| Responses.ReadDiscreteInputsResponse.Len | src/frame/response.rs:48-52 | `len()` is 1 plus the payload length, while that fits in a `u16` |
| Responses.ReadDiscreteInputsResponse.New | src/frame/response.rs:54-61 | the byte count is the payload length as `u8` |
| Responses.ReadDiscreteInputsResponse.Encoded | src/codec/decoder.rs:297-304 | the byte count, then the payload |
| Responses.ReadMultipleHoldingRegistersResponse.Len | src/frame/response.rs:70-74 | `len()` is 1 plus the payload length, while that fits in a `u16` |
| Responses.ReadMultipleHoldingRegistersResponse.New | src/frame/response.rs:76-84 | the byte count is the payload length as `u8` |
| Responses.ReadMultipleHoldingRegistersResponse.Encoded | src/codec/decoder.rs:306-313 | the byte count, then the payload |
| Responses.ReadInputRegistersResponse.Len | src/frame/response.rs:93-97 | `len()` is 1 plus the payload length, while that fits in a `u16` |
| Responses.ReadInputRegistersResponse.New | src/frame/response.rs:99-107 | the byte count is the payload length as `u8` |
| Responses.ReadInputRegistersResponse.Encoded | src/codec/decoder.rs:315-322 | the byte count, then the payload |
| Responses.WriteSingleCoilResponse.New | src/frame/response.rs:122-129 | the body holds the given address and value |
| Responses.WriteSingleCoilResponse.Encoded | src/codec/decoder.rs:324-331 | the serialised body is `len()` (4) bytes long |
| Responses.WriteSingleHoldingRegisterResponse.New | src/frame/response.rs:144-151 | the body holds the given address and value |
| Responses.WriteSingleHoldingRegisterResponse.Encoded | src/codec/decoder.rs:333-340 | the serialised body is `len()` (4) bytes long |
| Responses.WriteMultipleCoilsResponse.New | src/frame/response.rs:166-173 | the body holds the given address and count |
| Responses.WriteMultipleCoilsResponse.Encoded | src/codec/decoder.rs:342-349 | the serialised body is `len()` (4) bytes long |
| Responses.WriteMultipleHoldingRegistersResponse.New | src/frame/response.rs:188-198 | the body holds the given address and count |
| Responses.WriteMultipleHoldingRegistersResponse.Encoded | src/codec/decoder.rs:351-358 | the serialised body is `len()` (4) bytes long |
| Responses.ExceptionResponse.New | src/frame/response.rs:211-215 | the body holds the given reason |
| Responses.ExceptionResponse.Encoded | src/codec/decoder.rs:360-366 | one byte, which `Exception::from_code` maps back to the reason |
| Responses.ResponseBodyLengths | src/frame/response.rs:25-209 | an exception body is 1 byte, every write response body is 4, and a read response body is its byte count plus payload |
| Responses.ResponseToBytesMut | src/codec/encoder.rs:26-37 | the response serialiser appends head and body; for RTU it then appends the CRC of everything buffered |
| Decoder.FunctionTryFrom | src/codec/decoder.rs:417-438 | `Function::try_from` accepts exactly the eight codes and gives the function with that code; any other byte is an invalid-function-code error naming it |
| Decoder.FunctionTryFromCode | src/codec/decoder.rs:417-438 | every function's code decodes back to that function |
| Decoder.GetFunction | src/codec/decoder.rs:440-450 | up to 0x80 the byte is a plain code; above it the byte is an exception flag plus a code; the result's function byte is the input |
| Decoder.GetFunctionOfFunctionByte | src/codec/decoder.rs:440-450 | the function byte of any function and flag decodes back to them |
| Decoder.GetFunctionBoundary | src/codec/decoder.rs:443-448 | 0x80 is rejected as code 0x80, and 0x81 is an exception for read coils |
| Decoder.ExceptionTryFrom | src/codec/decoder.rs:401-415 | `Exception::try_from` succeeds exactly on 1 to 5, giving the reason with that code |
| Decoder.TcpHeadFrom | src/codec/decoder.rs:369-384 | an 8-byte MBAP head parses exactly when its function byte does; the parsed head serialises back to those 8 bytes |
| Decoder.RtuHeadFrom | src/codec/decoder.rs:386-398 | a 2-byte RTU head parses exactly when its function byte does; its MBAP fields are zero and it serialises back to those 2 bytes |
| Decoder.ReadCoilsRequestFrom | src/codec/decoder.rs:212-219 | parses exactly when 4 bytes are there; the body serialises back to them |
| Decoder.ReadDiscreteInputsRequestFrom | src/codec/decoder.rs:221-228 | parses exactly when 4 bytes are there; the body serialises back to them |
| Decoder.ReadMultipleHoldingRegistersRequestFrom | src/codec/decoder.rs:230-237 | parses exactly when 4 bytes are there; the body serialises back to them |
| Decoder.ReadInputRegistersRequestFrom | src/codec/decoder.rs:239-246 | parses exactly when 4 bytes are there; the body serialises back to them |
| Decoder.WriteSingleCoilRequestFrom | src/codec/decoder.rs:248-255 | parses exactly when 4 bytes are there; the body serialises back to them |
| Decoder.WriteSingleHoldingRegisterRequestFrom | src/codec/decoder.rs:257-264 | parses exactly when 4 bytes are there; the body serialises back to them |
| Decoder.WriteMultipleCoilsRequestFrom | src/codec/decoder.rs:266-275 | parses exactly when the 5 fixed bytes are there; everything after them is the payload, and the body serialises back to the whole input |
| Decoder.WriteMultipleHoldingRegistersRequestFrom | src/codec/decoder.rs:277-286 | parses exactly when the 5 fixed bytes are there; the body serialises back to the whole input |
| Decoder.ReadCoilsResponseFrom | src/codec/decoder.rs:288-295 | parses exactly when the count byte is there; the body serialises back to the whole input |
| Decoder.ReadDiscreteInputsResponseFrom | src/codec/decoder.rs:297-304 | parses exactly when the count byte is there; the body serialises back to the whole input |
| Decoder.ReadMultipleHoldingRegistersResponseFrom | src/codec/decoder.rs:306-313 | parses exactly when the count byte is there; the body serialises back to the whole input |
| Decoder.ReadInputRegistersResponseFrom | src/codec/decoder.rs:315-322 | parses exactly when the count byte is there; the body serialises back to the whole input |
| Decoder.WriteSingleCoilResponseFrom | src/codec/decoder.rs:324-331 | parses exactly when 4 bytes are there; the body serialises back to them |
| Decoder.WriteSingleHoldingRegisterResponseFrom | src/codec/decoder.rs:333-340 | parses exactly when 4 bytes are there; the body serialises back to them |
| Decoder.WriteMultipleCoilsResponseFrom | src/codec/decoder.rs:342-349 | parses exactly when 4 bytes are there; the body serialises back to them |
| Decoder.WriteMultipleHoldingRegistersResponseFrom | src/codec/decoder.rs:351-358 | parses exactly when 4 bytes are there; the body serialises back to them |
| Decoder.ExceptionResponseFrom | src/codec/decoder.rs:360-366 | parses (does not panic) exactly when a byte from 1 to 5 is there; the body serialises back to it |
| Decoder.GetRequest | src/codec/decoder.rs:149-176 | `get_request` uses the parser of the head's function and keeps the head; it fails exactly when that parser would run out of bytes |
| Decoder.GetResponse | src/codec/decoder.rs:178-210 | `get_response` uses the exception parser for an exception head and otherwise the parser of the head's function; it keeps the head and fails exactly when that parser would panic |
| Decoder.RtuClientBodyLength | src/codec/decoder.rs:33-50 | the response body length the RTU client infers is at most 256 |
| Decoder.RtuServerBodyLength | src/codec/decoder.rs:87-99 | the request body length the RTU server infers is at most 260 |
| Decoder.RtuClientDecoding | src/codec/decoder.rs:18-71 | the RTU client never consumes more than is buffered |
| Decoder.RtuServerDecoding | src/codec/decoder.rs:73-117 | the RTU server never consumes more than is buffered |
| Decoder.TcpClientDecoding | src/codec/decoder.rs:119-132 | the TCP client never consumes more than is buffered |
| Decoder.TcpServerDecoding | src/codec/decoder.rs:134-147 | the TCP server never consumes more than is buffered |
| Decoder.RtuClientWaitsAfterHead | src/codec/decoder.rs:29-53 | past a parsed head, the RTU client returns `Ok(None)` exactly when fewer than the inferred body length plus 2 bytes follow the head, and then the 2 head bytes are already consumed |
| Decoder.RtuServerWaitsAfterHead | src/codec/decoder.rs:83-100 | the same for the RTU server, with the server's length inference |
| Decoder.RtuShortBufferUntouched | src/codec/decoder.rs:22-25 | with fewer than two bytes buffered, both RTU decoders wait and consume nothing |
| Decoder.RtuServerPastSizeCheck | src/codec/decoder.rs:100-116 | a request frame that passes the size check, and whose body parses, consumes head, body and CRC; it succeeds exactly when the CRC matches, and otherwise fails with an invalid-CRC error naming the received value |
| Decoder.RtuClientPastSizeCheck | src/codec/decoder.rs:52-70 | the same for a response frame |
| Decoder.TcpServerWholeFrame | src/codec/decoder.rs:138-146 | once a valid MBAP head and its `length - 2` body bytes are buffered and the body parses, the request keeps the head and `8 + length - 2` bytes are consumed |
| Decoder.TcpClientWholeFrame | src/codec/decoder.rs:123-131 | the same for a response |
| Decoder.RtuClientPeekLength | src/codec/decoder.rs:33-50 | the body-length step of the RTU client, which consumes nothing |
| Decoder.RtuServerPeekLength | src/codec/decoder.rs:87-99 | the body-length step of the RTU server, which consumes nothing |
| Decoder.RtuClientDecode | src/codec/decoder.rs:18-71 | the method returns the outcome of the specification and leaves in the buffer exactly the bytes it does not consume |
| Decoder.RtuServerDecode | src/codec/decoder.rs:73-117 | the method returns the outcome of the specification and leaves in the buffer exactly the bytes it does not consume |
| Decoder.TcpClientDecode | src/codec/decoder.rs:119-132 | the method returns the outcome of the specification and leaves in the buffer exactly the bytes it does not consume |
| Decoder.TcpServerDecode | src/codec/decoder.rs:134-147 | the method returns the outcome of the specification and leaves in the buffer exactly the bytes it does not consume |
| Encoder.RtuClientEncode | src/codec/encoder.rs:13-24 | encoding always returns `Ok` and appends the frame: head, body, then the CRC of the whole buffer |
| Encoder.RtuServerEncode | src/codec/encoder.rs:26-37 | encoding always returns `Ok` and appends the frame |
| Encoder.TcpClientEncode | src/codec/encoder.rs:39-46 | encoding always returns `Ok` and appends head and body |
| Encoder.TcpServerEncode | src/codec/encoder.rs:48-55 | encoding always returns `Ok` and appends head and body |
| Encoder.RtuReadCoilsRequestVector | src/codec/encoder.rs:65-76 | the RTU read-coils request encodes to 0B 01 00 1D 00 1F ED 6E |
| Encoder.RtuWriteMultipleCoilsRequestVector | src/codec/encoder.rs:143-156 | the RTU write-multiple-coils request of nine coils in two bytes encodes to 0B 0F 00 1B 00 09 02 4D 01 6C A7 |
| Encoder.RtuWriteMultipleHoldingRegistersRequestVector | src/codec/encoder.rs:158-175 | the RTU write-multiple-registers request of four value bytes encodes to 0B 10 00 12 00 02 04 0B 0A C1 02 A0 D5, two registers and byte count 4 |
| Encoder.TcpReadCoilsRequestVector | src/codec/encoder.rs:186-199 | the TCP read-coils request encodes to its 12 test bytes |
| Encoder.TcpWriteMultipleCoilsRequestVector | src/codec/encoder.rs:276-290 | the TCP write-multiple-coils request encodes to its 15 test bytes |
| Encoder.TcpWriteMultipleHoldingRegistersRequestVector | src/codec/encoder.rs:292-307 | the TCP write-multiple-registers request encodes to its 15 test bytes |
| Encoder.TcpReadInputRegistersResponseVector | src/codec/encoder.rs:365-382 | the TCP read-input-registers response encodes to its 19 test bytes |
| Encoder.TcpExceptionResponseVector | src/codec/encoder.rs:444-456 | the TCP exception response encodes to 00 01 00 00 00 03 0A 81 02 |
| Encoder.RtuExceptionResponseVector | src/codec/encoder.rs:574-586 | the RTU exception response encodes to 0A 81 02 B0 53 |
| Encoder.TcpReadResponseLayout | src/codec/encoder.rs:365-382 | a built TCP read response with n body bytes has the byte count n - 1 after its head and the length field n + 2 |
| RoundTrip.TcpHeadFromHeadBytes | src/codec/decoder.rs:369-384 | every TCP head parses back from its 8 bytes |
| RoundTrip.RtuHeadFromHeadBytes | src/codec/decoder.rs:386-398 | every RTU head parses back from its 2 bytes, with zeroed MBAP fields |
| RoundTrip.RequestBodyLength | src/frame/request.rs:53-325 | a request body with consistent byte counts has `len()` equal to its serialised length, at most 260 |
| RoundTrip.ResponseBodyLength | src/frame/response.rs:25-209 | a response body with consistent byte counts has `len()` equal to its serialised length, at most 256 |
| RoundTrip.GetRequestOfBody | src/codec/decoder.rs:149-176 | parsing a serialised request body under its head gives back the request |
| RoundTrip.GetResponseOfBody | src/codec/decoder.rs:178-210 | parsing a serialised response body under its head gives back the response |
| RoundTrip.RtuServerBodyLengthOfBody | src/codec/decoder.rs:87-99 | the RTU server infers the length of a serialised request body exactly, whatever follows it |
| RoundTrip.RtuClientBodyLengthOfBody | src/codec/decoder.rs:33-50 | the RTU client infers the length of a serialised response body exactly, whatever follows it |
| RoundTrip.RtuServerCompletes | src/codec/decoder.rs:100-111 | a good head, a known length, a parsed body and a matching CRC give the request, consuming length + 4 bytes |
| RoundTrip.RtuFrameParts | src/codec/decoder.rs:58-63 | an RTU frame splits into head, body and a CRC that `crc::check` accepts |
| RoundTrip.RtuServerRoundTrip | src/codec/decoder.rs:73-117 | the RTU server decodes every built request frame, followed by anything, back to the request, consuming exactly the frame |
| RoundTrip.RtuClientCompletes | src/codec/decoder.rs:52-65 | a good head, a known length, a parsed body and a matching CRC give the response, consuming length + 4 bytes |
| RoundTrip.RtuClientRoundTrip | src/codec/decoder.rs:18-71 | the RTU client decodes every built response frame, followed by anything, back to the response, consuming exactly the frame |
| RoundTrip.TcpServerRoundTrip | src/codec/decoder.rs:134-147 | the TCP server decodes every built request frame, followed by anything, back to the request, consuming exactly the frame |
| RoundTrip.TcpClientRoundTrip | src/codec/decoder.rs:119-132 | the TCP client decodes every built response frame, followed by anything, back to the response, consuming exactly the frame |
| RoundTrip.RtuClientReadCoilsResponseVector | src/codec/decoder.rs:461-470 | 0B 01 04 CD 6B B2 7F 2B E1 decodes to the read-coils response with four values |
| RoundTrip.RtuClientExceptionResponseVector | src/codec/decoder.rs:552-562 | 0A 81 02 B0 53 decodes to the illegal-data-address exception for read coils |
| RoundTrip.RtuServerReadCoilsRequestVector | src/codec/decoder.rs:700-710 | 0B 01 00 1D 00 1F ED 6E decodes to the read-coils request |
| RoundTrip.TcpClientReadCoilsResponseVector | src/codec/decoder.rs:573-584 | the 11 test bytes decode to the read-coils response with values 00 01 |
| RoundTrip.TcpClientExceptionResponseVector | src/codec/decoder.rs:679-689 | the 9 test bytes decode to the exception response |
| RoundTrip.TcpServerReadCoilsRequestVector | src/codec/decoder.rs:806-818 | the 12 test bytes decode to the read-coils request |
| Findings.RtuServerLosesHeadOfPartialFrame | src/codec/decoder.rs:83-102 | seven bytes of an eight-byte frame give `Ok(None)` but consume the head; the next call then misreads the body as a head |
| Findings.RtuClientLosesHeadOfPartialFrame | src/codec/decoder.rs:18-42 | eight bytes of a nine-byte response give `Ok(None)` but consume the head; the rest then starts with a payload byte in the function position and fails |
| Findings.RtuServerPanicsWithoutByteCount | src/codec/decoder.rs:95-107 | a write-multiple request whose byte count is not yet buffered passes the size check with length 0, and the parser then panics |
| Findings.RtuClientPanicsOnUndefinedException | src/codec/decoder.rs:360-366 | an exception frame with code 9 panics at the `unwrap` |
| Findings.TcpClientPanicsOnShortHeader | src/codec/decoder.rs:124-127 | four buffered bytes pass the `< 4` check, and the 8-byte head copy then panics |
| Findings.TcpServerPanicsOnPartialBody | src/codec/decoder.rs:142-144 | a complete MBAP head with part of its body panics at the body copy |
| Findings.TcpServerPanicsOnShortLength | src/codec/decoder.rs:142-143 | a length field of 1 makes `length - 2` underflow |
| Findings.FixedRtuServerDecoding | src/codec/decoder.rs:73-117 | the corrected RTU server never panics, never consumes more than is buffered, and consumes nothing when it waits |
| Findings.FixedRtuClientDecoding | src/codec/decoder.rs:18-71 | the corrected RTU client never panics, never consumes more than is buffered, and consumes nothing when it waits |
| Findings.FixedTcpServerDecoding | src/codec/decoder.rs:134-147 | the corrected TCP server never panics, never consumes more than is buffered, and consumes nothing when it waits |
| Findings.FixedTcpClientDecoding | src/codec/decoder.rs:119-132 | the corrected TCP client never panics, never consumes more than is buffered, and consumes nothing when it waits |
| Findings.FixedRtuServerAgrees | src/codec/decoder.rs:73-117 | the corrected RTU server returns what the original returns, except that it waits (consuming nothing) where the original waits or panics |
| Findings.FixedRtuClientAgrees | src/codec/decoder.rs:18-71 | the corrected RTU client returns what the original returns, except that it waits where the original waits, and reports the undefined code where the original panics |
| Findings.FixedTcpServerAgrees | src/codec/decoder.rs:134-147 | the corrected TCP server returns what the original returns wherever that does not panic; where it panics, the corrected one waits or reports an error |
| Findings.FixedTcpClientAgrees | src/codec/decoder.rs:119-132 | the same for the TCP client |
| Findings.FixedTcpServerRejectsShortLength | src/codec/decoder.rs:142-143 | wherever a length below 2 panics the original TCP server, the corrected one fails with invalid length, naming that length, and consumes the 8 MBAP bytes |
| Findings.FixedTcpClientRejectsShortLength | src/codec/decoder.rs:127-128 | the same for the TCP client |
| Findings.FixedTcpServerRejectsLengthOne | src/codec/decoder.rs:142-143 | 00 01 00 00 00 01 01 01 fails with invalid length 1 |
| Findings.FixedRtuServerRoundTrip | src/codec/decoder.rs:73-117 | the corrected RTU server still decodes every built frame, followed by anything, to its request |
| Findings.FixedRtuClientRoundTrip | src/codec/decoder.rs:18-71 | the corrected RTU client still decodes every built frame, followed by anything, to its response |
| Findings.FixedTcpServerRoundTrip | src/codec/decoder.rs:134-147 | the corrected TCP server still decodes every built frame, followed by anything, to its request |
| Findings.FixedTcpClientRoundTrip | src/codec/decoder.rs:119-132 | the corrected TCP client still decodes every built frame, followed by anything, to its response |
| Findings.RtuFramePrefix | src/codec/decoder.rs:29-31 | a proper prefix of at least two bytes of an RTU frame starts with the frame's head |
| Findings.FixedRtuServerWaitsOnPrefix | src/codec/decoder.rs:73-117 | on every proper prefix of a built RTU request frame, the corrected server waits and consumes nothing |
| Findings.FixedRtuClientWaitsOnPrefix | src/codec/decoder.rs:18-71 | on every proper prefix of a built RTU response frame, the corrected client waits and consumes nothing |
| Findings.FixedTcpServerWaitsOnPrefix | src/codec/decoder.rs:134-147 | on every proper prefix of a built TCP request frame, the corrected server waits and consumes nothing |
| Findings.FixedTcpClientWaitsOnPrefix | src/codec/decoder.rs:119-132 | on every proper prefix of a built TCP response frame, the corrected client waits and consumes nothing |
| Findings.FixedRtuServerKeepsHeadOfPartialFrame | src/codec/decoder.rs:700-710 | on the test request frame, the corrected server waits on seven bytes without consuming any, and decodes all eight to the request |

## Left out

- The frame builder (`Frame::tcp()`, `Frame::rtu()`, the `*_request` and `*_response` constructors and their transaction-id counter) is not part of this model. `Built()` states the shape of what it produces while every payload is shorter than 256 bytes: a head from `Head::new` over the body length, transaction id 0 on RTU, and byte counts that match their payloads. From 256 payload bytes on, `new` stores the wrapped count `values.len() as u8` (src/frame/request.rs:288, src/frame/response.rs:31-39), so the frame is not `Built()`. The RTU decoders size such frames from the wrapped count, so those frames do not round-trip over RTU. The TCP decoders size frames from the MBAP length and would still decode them, but the TCP round trips (RoundTrip.TcpServerRoundTrip, RoundTrip.TcpClientRoundTrip, Findings.FixedTcpServerRoundTrip, Findings.FixedTcpClientRoundTrip) are proved only for `Built()` frames.
- The source of `From<Head> for BytesMut`, `response_to_bytesmut`, the response-body serialisers and `Head::body_length` is not among the files modelled. They are modelled by Frame.HeadBytes, Responses.ResponseToBytesMut, the `Encoded` members of the response bodies and Frame.WithBodyLength. Their layouts are taken from the encoder and decoder tests and from the parsers they invert.
- The source of `util::crc` is not among the files modelled. The Crc module models it. The checksum is the standard Modbus CRC-16 (initial value 0xFFFF, reflected polynomial 0xA001). Its two bytes are swapped so that the big-endian `put_u16` puts the low byte first on the wire, which the RTU test vectors require.
- The source of `Exception::from_code` is not among the files modelled. Frame.ExceptionFromCode models it as the table of codes 1 to 5 (illegal function, illegal data address, illegal data value, slave device failure, acknowledge).
- Frame.ExceptionFromCode: assumed to be the exact inverse of `Exception::code`. The original decode table is documented as not symmetric: it maps 0x01 (and 0x03) to illegal data value. Only the pair illegal data address and 0x02 can be confirmed, from the encoder test at src/codec/encoder.rs:449 and the decoder test at src/codec/decoder.rs:560. The model does not reproduce the reported asymmetry. So the exception case of RoundTrip.RtuClientRoundTrip, RoundTrip.TcpClientRoundTrip, Findings.FixedRtuClientRoundTrip and Findings.FixedTcpClientRoundTrip rests on the assumed table. Under the reported one an illegal-function exception would decode as illegal data value.
- The `Head` in `src/frame/mod.rs` has only the MBAP fields and the function. The codec uses the head with version and exception flag, and that is the head modelled.
- Transport I/O (tokio streams, `Framed`), the examples and `src/main.rs` are outside the codec.
- Errors are modelled as `DecodeError` values. The `io::ErrorKind` and the message text are not modelled.
- The derived `Debug`, `PartialOrd`, `Ord` and `Hash` impls and the field getters are not modelled. Datatype equality stands for the derived `PartialEq`.
- Debug-build overflow panics are not modelled. `u16` arithmetic wraps as in a release build (for example `Mbap::new` with a body length above 0xFFFD).
- The corrected decoders are pure functions only. No `ByteBuffer` method is proved against them.
- Decoder.RtuClientDecoding: its own contract states only the bound on consumption. What it decodes is stated by the lemmas beside it (Decoder.RtuClientPastSizeCheck, RoundTrip.RtuClientRoundTrip, the test vectors) and by the method proved against it. The same holds for Decoder.RtuServerDecoding, Decoder.TcpClientDecoding and Decoder.TcpServerDecoding.

## Findings

| source | as written | input that shows it | evidently intended | confidence | as-written member | corrected member |
|---|---|---|---|---|---|---|
| src/codec/decoder.rs:29-31 | the RTU client consumes the 2-byte head before checking whether the rest of the frame is buffered, then returns `Ok(None)` | the RTU client given 0B 01 04 CD 6B B2 7F 2B (a read-coils response missing its last byte) returns `Ok(None)` with two bytes gone; the rest then starts 04 CD, read as a head, and fails with invalid function code 0x4D | wait with nothing consumed until the whole frame is buffered | high, not executed | Findings.RtuClientLosesHeadOfPartialFrame | Findings.FixedRtuClientWaitsOnPrefix |
| src/codec/decoder.rs:83-85 | the RTU server does the same with a request | the RTU server given 0B 01 00 1D 00 1F ED (a read-coils request missing its last byte) returns `Ok(None)` with two bytes gone; once the last byte arrives, it reads 00 1D as a head and fails with invalid function code 0x1D | wait with nothing consumed until the whole frame is buffered | high, not executed | Findings.RtuServerLosesHeadOfPartialFrame | Findings.FixedRtuServerWaitsOnPrefix |
| src/codec/decoder.rs:96 | when the byte count of a write-multiple request is not yet buffered, the inferred length is 0; the size check passes and the parser panics | 0B 0F 00 1B | wait for the byte count before sizing the frame | high, not executed | Findings.RtuServerPanicsWithoutByteCount | Findings.FixedRtuServerAgrees |
| src/codec/decoder.rs:360-366 | the exception code is unwrapped, so an undefined code panics instead of returning the error that `Exception::try_from` builds | 0A 81 09 00 00 | report the undefined code as an `InvalidData` error | high, not executed | Findings.RtuClientPanicsOnUndefinedException | Findings.FixedRtuClientAgrees |
| src/codec/decoder.rs:124-127 | the TCP client waits for 4 bytes, then copies 8 | 00 01 00 00 | wait for the full 8-byte MBAP head, as the TCP server does | high, not executed | Findings.TcpClientPanicsOnShortHeader | Findings.FixedTcpClientWaitsOnPrefix |
| src/codec/decoder.rs:143-144 | the TCP decoders copy `length - 2` body bytes without checking that they are buffered | 00 01 00 00 00 06 01 01 00 (head of a read-coils request, one body byte) | wait until the whole body is buffered | high, not executed | Findings.TcpServerPanicsOnPartialBody | Findings.FixedTcpServerWaitsOnPrefix |
| src/codec/decoder.rs:143 | a length field below 2 underflows `length - 2` | 00 01 00 00 00 01 01 01 | reject the length as invalid data | medium, not executed | Findings.TcpServerPanicsOnShortLength | Findings.FixedTcpServerRejectsShortLength |
