// The body of a CMPP 3.0 Submit, given twice: as what its encoder prints, field after field, and as
// the table of offsets its decoder reads.
module CmppSubmit {
  import opened Wrappers
  import opened Bytes
  import opened Wire
  import opened CmppFields

  datatype Submit = Submit(
    msgId: Array8,
    pkTotal: u8,
    pkNumber: u8,
    registeredDelivery: u8,
    msgLevel: u8,
    serviceId: Octets,
    feeUserType: u8,
    feeTerminalId: Octets,
    feeTerminalType: u8,
    tppid: u8,
    tpudhi: u8,
    msgFmt: u8,
    msgSrc: Octets,
    feeType: Octets,
    feeCode: Octets,
    validTime: Octets,
    atTime: Octets,
    srcId: Octets,
    destUsrTl: u8,
    destTerminalIds: seq<Octets>,
    destTerminalType: u8,
    msgContent: Octets,
    linkId: Octets
  )

  predicate SubmitWithin(s: Submit) {
    && |s.serviceId| <= 10 && |s.feeTerminalId| <= 32 && |s.msgSrc| <= 6 && |s.feeType| <= 2
    && |s.feeCode| <= 6 && |s.validTime| <= 17 && |s.atTime| <= 17 && |s.srcId| <= 21
    && AllWithin(s.destTerminalIds, 32) && |s.msgContent| <= 255 && |s.linkId| <= 20
  }

  // The first field that does not fit.
  function SubmitError(s: Submit): (field: string) {
    if |s.serviceId| > 10 then "service_id"
    else if |s.feeTerminalId| > 32 then "fee_terminal_id"
    else if |s.msgSrc| > 6 then "msg_src"
    else if |s.feeType| > 2 then "fee_type"
    else if |s.feeCode| > 6 then "fee_code"
    else if |s.validTime| > 17 then "valid_time"
    else if |s.atTime| > 17 then "at_time"
    else if |s.srcId| > 21 then "src_id"
    else if !AllWithin(s.destTerminalIds, 32) then "dest_terminal_id"
    else if |s.msgContent| > 255 then "msg_content"
    else "link_id"
  }

  function SubmitHead(s: Submit): (b: Octets)
    requires SubmitWithin(s)
  {
    s.msgId + [s.pkTotal] + [s.pkNumber] + [s.registeredDelivery] + [s.msgLevel] + Pad(s.serviceId, 10)
    + [s.feeUserType] + Pad(s.feeTerminalId, 32) + [s.feeTerminalType] + [s.tppid] + [s.tpudhi] + [s.msgFmt]
    + Pad(s.msgSrc, 6) + Pad(s.feeType, 2) + Pad(s.feeCode, 6) + Pad(s.validTime, 17) + Pad(s.atTime, 17)
    + Pad(s.srcId, 21) + [s.destUsrTl]
  }

  function SubmitBody(s: Submit): (b: Octets)
    requires SubmitWithin(s)
  {
    PutTexts(SubmitHead(s), s.destTerminalIds, 32)
    + [s.destTerminalType] + [|s.msgContent|] + s.msgContent + Pad(s.linkId, 20)
  }

  // How long a body must be for its fields to be there.
  function SubmitSize(b: Octets): (n: nat) {
    if |b| < 129 then 129
    else
      var at := 129 + (b[128] as int) * 32;
      if |b| < at + 2 then at + 2 else at + 2 + (b[at + 1] as int) + 20
  }

  // The fixed part of the body, up to the number of destinations.
  function SubmitHeadAt(b: Octets): (s: Submit)
    requires |b| >= 129
    ensures s.destUsrTl == b[128]
  {
    var c, route := ChargingAt(b, 32), RoutingAt(b, 59);
    Submit(c.msgId, c.pkTotal, c.pkNumber, c.registeredDelivery, c.msgLevel, c.serviceId, c.feeUserType, c.feeTerminalId,
           b[55], b[56], b[57], b[58],
           route.msgSrc, route.feeType, route.feeCode, route.validTime, route.atTime, route.srcId, route.destUsrTl,
           [], 0, [], [])
  }

  function SubmitAt(b: Octets): (s: Submit)
    requires |b| >= SubmitSize(b)
  {
    var at := 129 + (b[128] as int) * 32;
    var len: int := b[at + 1];
    SubmitHeadAt(b).(destTerminalIds := TextsAt(b, 129, 32, b[128]), destTerminalType := b[at],
                     msgContent := b[at + 2..at + 2 + len], linkId := TextAt(b, at + 2 + len, 20))
  }

  function DecodeSubmit(total: nat, b: Octets): (r: Result<Submit, CodecError>) {
    if |b| < total - HEADER_SIZE || |b| < SubmitSize(b) then Err(Incomplete) else Ok(SubmitAt(b))
  }

  // submit.rs: Submit::encode
  method SubmitEncode(s: Submit, buf: BytesMut) returns (r: Result<(), CodecError>)
    requires buf.Valid() && buf.body == []
    modifies buf
    ensures buf.Valid() && buf.base == old(buf.base)
    ensures r == if SubmitWithin(s) then Ok(()) else Err(FieldValidation(SubmitError(s)))
    ensures SubmitWithin(s) ==> buf.body == SubmitBody(s)
  {
    hide Pad, PutTexts, AllWithin;
    buf.PutSlice(s.msgId);
    assert buf.body == s.msgId;
    buf.PutU8(s.pkTotal);
    buf.PutU8(s.pkNumber);
    buf.PutU8(s.registeredDelivery);
    buf.PutU8(s.msgLevel);
    var _ :- PutText(buf, s.serviceId, 10, FieldValidation("service_id"));
    buf.PutU8(s.feeUserType);
    var _ :- PutText(buf, s.feeTerminalId, 32, FieldValidation("fee_terminal_id"));
    buf.PutU8(s.feeTerminalType);
    buf.PutU8(s.tppid);
    buf.PutU8(s.tpudhi);
    buf.PutU8(s.msgFmt);
    var _ :- PutText(buf, s.msgSrc, 6, FieldValidation("msg_src"));
    var _ :- PutText(buf, s.feeType, 2, FieldValidation("fee_type"));
    var _ :- PutText(buf, s.feeCode, 6, FieldValidation("fee_code"));
    var _ :- PutText(buf, s.validTime, 17, FieldValidation("valid_time"));
    var _ :- PutText(buf, s.atTime, 17, FieldValidation("at_time"));
    var _ :- PutText(buf, s.srcId, 21, FieldValidation("src_id"));
    buf.PutU8(s.destUsrTl);
    var _ :- PutDests(buf, s.destTerminalIds, 32, FieldValidation("dest_terminal_id"));
    buf.PutU8(s.destTerminalType);
    if |s.msgContent| > 255 {
      return Err(FieldValidation("msg_content"));
    }
    buf.PutU8(|s.msgContent|);
    buf.PutSlice(s.msgContent);
    var _ :- PutText(buf, s.linkId, 20, FieldValidation("link_id"));
    r := Ok(());
  }

  // submit.rs: Submit::decode, with every failed read reported as an incomplete body
  method SubmitDecode(total: nat, b: Octets) returns (r: Result<Submit, CodecError>)
    ensures r == DecodeSubmit(total, b)
  {
    if |b| < total - HEADER_SIZE {
      return Err(Incomplete);
    }
    var buf := new Cursor(b);
    var s := SubmitRead(buf);
    r := if s.Some? then Ok(s.value) else Err(Incomplete);
  }

  method SubmitReadHead(buf: Cursor) returns (r: Option<Submit>)
    requires buf.Valid() && buf.pos == 0
    modifies buf
    ensures buf.Valid()
    ensures r.Some? <==> |buf.data| >= 129
    ensures r.Some? ==> r.value == SubmitHeadAt(buf.data) && buf.pos == 129
  {
    hide TextAt, RoutingAt, ChargingAt;
    var c :- TakeCharging(buf, 32);
    var feeTerminalType :- buf.GetU8();
    var tppid :- buf.GetU8();
    var tpudhi :- buf.GetU8();
    var msgFmt :- buf.GetU8();
    var route :- TakeRouting(buf);
    r := Some(Submit(c.msgId, c.pkTotal, c.pkNumber, c.registeredDelivery, c.msgLevel, c.serviceId, c.feeUserType, c.feeTerminalId,
                     feeTerminalType, tppid, tpudhi, msgFmt, route.msgSrc, route.feeType, route.feeCode,
                     route.validTime, route.atTime, route.srcId, route.destUsrTl, [], 0, [], []));
  }

  method SubmitRead(buf: Cursor) returns (r: Option<Submit>)
    requires buf.Valid() && buf.pos == 0
    modifies buf
    ensures r == if |buf.data| < SubmitSize(buf.data) then None else Some(SubmitAt(buf.data))
  {
    hide TextAt, TextsAt, SubmitHeadAt;
    var head :- SubmitReadHead(buf);
    var dests :- TakeDests(buf, 32, head.destUsrTl);
    var destTerminalType :- buf.GetU8();
    var msgLength :- buf.GetU8();
    var msgContent :- buf.CopyToSlice(msgLength);
    var linkId :- buf.DecodePstring(20);
    r := Some(head.(destTerminalIds := dests, destTerminalType := destTerminalType, msgContent := msgContent, linkId := linkId));
  }

  function RoutingOf(s: Submit): (r: Routing) {
    Routing(s.msgSrc, s.feeType, s.feeCode, s.validTime, s.atTime, s.srcId, s.destUsrTl)
  }

  // A Submit that survives the wire: every text within its width and not ending in a zero byte, the
  // count of destinations true, the content short enough for its length byte.
  predicate SubmitFits(s: Submit) {
    && Fits(s.serviceId, 10) && Fits(s.feeTerminalId, 32) && RoutingFits(RoutingOf(s))
    && s.destUsrTl == |s.destTerminalIds| && AllFit(s.destTerminalIds, 32)
    && |s.msgContent| <= 255 && Fits(s.linkId, 20)
  }

  // Whatever is decoded fits.
  lemma SubmitAtFits(b: Octets)
    requires |b| >= SubmitSize(b)
    ensures SubmitFits(SubmitAt(b)) && SubmitWithin(SubmitAt(b))
  {
    hide TextAt, TextsAt, RoutingAt;
    var at := 129 + (b[128] as int) * 32;
    TextFits(b, 12, 10);
    TextFits(b, 23, 32);
    RoutingAtFits(b, 59);
    TextsFit(b, 129, 32, b[128]);
    TextFits(b, at + 2 + (b[at + 1] as int), 20);
  }

  lemma SubmitHeadReads(s: Submit, whole: Octets)
    requires SubmitFits(s) && SubmitWithin(s) && SubmitHead(s) <= whole
    ensures |SubmitHead(s)| == 129 <= |whole|
    ensures SubmitHeadAt(whole) == s.(destTerminalIds := [], destTerminalType := 0, msgContent := [], linkId := [])
  {
    hide Pad, TextAt, RoutingAt;
    var e1 := s.msgId + [s.pkTotal];
    var e2 := e1 + [s.pkNumber];
    var e3 := e2 + [s.registeredDelivery];
    var e4 := e3 + [s.msgLevel];
    var e5 := e4 + Pad(s.serviceId, 10);
    var e6 := e5 + [s.feeUserType];
    var e7 := e6 + Pad(s.feeTerminalId, 32);
    var e8 := e7 + [s.feeTerminalType];
    var e9 := e8 + [s.tppid];
    var e10 := e9 + [s.tpudhi];
    var e11 := e10 + [s.msgFmt];
    assert SubmitHead(s) == PutRouting(e11, RoutingOf(s));
    PieceRouting(e11, RoutingOf(s), whole);
    PieceByte(e10, s.msgFmt, whole);
    PieceByte(e9, s.tpudhi, whole);
    PieceByte(e8, s.tppid, whole);
    PieceByte(e7, s.feeTerminalType, whole);
    PieceText(e6, s.feeTerminalId, 32, whole);
    PieceByte(e5, s.feeUserType, whole);
    PieceText(e4, s.serviceId, 10, whole);
    PieceByte(e3, s.msgLevel, whole);
    PieceByte(e2, s.registeredDelivery, whole);
    PieceByte(e1, s.pkNumber, whole);
    PieceByte(s.msgId, s.pkTotal, whole);
    assert whole[0..8] == s.msgId;
  }

  // A Submit that can be printed reads back from its print exactly when it fits the wire.
  lemma SubmitRoundTrip(s: Submit, total: nat)
    requires SubmitWithin(s) && total <= HEADER_SIZE + |SubmitBody(s)|
    ensures DecodeSubmit(total, SubmitBody(s)) == Ok(s) <==> SubmitFits(s)
  {
    var whole := SubmitBody(s);
    if |whole| >= SubmitSize(whole) {
      SubmitAtFits(whole);
    }
    if SubmitFits(s) {
      SubmitReads(s);
    }
  }

  lemma SubmitReads(s: Submit)
    requires SubmitFits(s) && SubmitWithin(s)
    ensures var b := SubmitBody(s); |b| == SubmitSize(b) && SubmitAt(b) == s
  {
    hide Pad, TextAt, SubmitHead, TextsAt, PutTexts, SubmitHeadAt;
    var whole, head := SubmitBody(s), SubmitHead(s);
    var e1 := PutTexts(head, s.destTerminalIds, 32);
    var e2 := e1 + [s.destTerminalType];
    var e3 := e2 + [|s.msgContent|];
    var e4 := e3 + s.msgContent;
    PieceText(e4, s.linkId, 20, whole);
    Piece(e3, s.msgContent, whole);
    PieceByte(e2, |s.msgContent|, whole);
    PieceByte(e1, s.destTerminalType, whole);
    PieceTexts(head, s.destTerminalIds, 32, whole);
    SubmitHeadReads(s, whole);
  }
}
