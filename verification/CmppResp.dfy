// The responses to Submit and Deliver.
module CmppResp {
  import opened Wrappers
  import opened Bytes
  import opened Wire
  import opened CmppFields

  // SubmitResp and DeliverResp have the same body.
  datatype Resp = Resp(msgId: Array8, result: u32)

  // SubmitResp and DeliverResp: the result takes four bytes in CMPP 3.0 and one in CMPP 2.0.

  const RESP_BODY := 12
  const RESP_V20_BODY := 9

  function RespBody(r: Resp): (b: Octets) {
    r.msgId + BigEndian32(r.result)
  }

  function RespV20Body(r: Resp): (b: Octets) {
    r.msgId + [Low8(r.result)]
  }

  function DecodeResp(total: nat, b: Octets): (r: Result<Resp, CodecError>)
    requires total < 0x1_0000_0000
  {
    if total != HEADER_SIZE + RESP_BODY then Err(InvalidPduLength(total, HEADER_SIZE + RESP_BODY, HEADER_SIZE + RESP_BODY))
    else if |b| < RESP_BODY then Err(Incomplete)
    else Ok(Resp(b[..8], ReadU32(b, 8)))
  }

  function DecodeRespV20(total: nat, b: Octets): (r: Result<Resp, CodecError>)
    requires total < 0x1_0000_0000
  {
    if total != HEADER_SIZE + RESP_V20_BODY then
      Err(InvalidPduLength(total, HEADER_SIZE + RESP_V20_BODY, HEADER_SIZE + RESP_V20_BODY))
    else if |b| < RESP_V20_BODY then Err(Incomplete)
    else Ok(Resp(b[..8], b[8]))
  }

  // The wide form always survives; the narrow form survives exactly when the result fits a byte.
  lemma RespRoundTrip(r: Resp)
    ensures DecodeResp(HEADER_SIZE + |RespBody(r)|, RespBody(r)) == Ok(r)
    ensures DecodeRespV20(HEADER_SIZE + |RespV20Body(r)|, RespV20Body(r)) == Ok(r) <==> r.result <= 255
  {
    WideRoundTrip(r);
    NarrowRoundTrip(r);
    hide RespBody, RespV20Body, DecodeResp, DecodeRespV20;
  }

  lemma WideRoundTrip(r: Resp)
    ensures DecodeResp(HEADER_SIZE + |RespBody(r)|, RespBody(r)) == Ok(r)
  {
    hide BigEndian32, ReadU32;
    var b := RespBody(r);
    assert b[8..12] == BigEndian32(r.result) && b[..8] == r.msgId;
    ReadU32Print(r.result, b, 8);
  }

  lemma NarrowRoundTrip(r: Resp)
    ensures DecodeRespV20(HEADER_SIZE + |RespV20Body(r)|, RespV20Body(r)) == Ok(r) <==> r.result <= 255
  {
    var b := RespV20Body(r);
    assert |b| == 9 && b[..8] == r.msgId && b[8] == Low8(r.result);
    assert DecodeRespV20(HEADER_SIZE + 9, b) == Ok(Resp(r.msgId, Low8(r.result)));
  }
}
