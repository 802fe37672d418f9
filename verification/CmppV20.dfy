// The CMPP 2.0 bodies of Submit and Deliver.
module CmppV20 {
  import opened Wrappers
  import opened Bytes
  import opened Wire
  import opened CmppFields

  datatype SubmitV20 = SubmitV20(
    msgId: Array8,
    pkTotal: u8,
    pkNumber: u8,
    registeredDelivery: u8,
    msgLevel: u8,
    serviceId: Octets,
    feeUserType: u8,
    feeTerminalId: Octets,
    tppid: u8,
    tpudhi: u8,
    msgFmt: u8,
    msgSrc: Octets,
    feeType: Octets,
    feeCode: Octets,
    validTime: Octets,
    atTime: Octets,
    srcId: Octets,
    destUsrTl: u8,
    destTerminalIds: seq<Octets>,
    msgContent: Octets,
    reserve: Array8
  )

  datatype DeliverV20 = DeliverV20(
    msgId: Array8,
    destId: Octets,
    serviceId: Octets,
    tppid: u8,
    tpudhi: u8,
    msgFmt: u8,
    srcTerminalId: Octets,
    registeredDelivery: u8,
    msgContent: Octets,
    reserve: Array8
  )

  // Submit, CMPP 2.0

  predicate HeadV20Within(s: SubmitV20) {
    && |s.serviceId| <= 10 && |s.feeTerminalId| <= 21 && |s.msgSrc| <= 6 && |s.feeType| <= 2
    && |s.feeCode| <= 6 && |s.validTime| <= 17 && |s.atTime| <= 17 && |s.srcId| <= 21
  }

  predicate SubmitV20Within(s: SubmitV20) {
    HeadV20Within(s) && AllWithin(s.destTerminalIds, 21) && |s.msgContent| <= 255
  }

  function SubmitV20Error(s: SubmitV20): (e: CodecError) {
    if !HeadV20Within(s) || !AllWithin(s.destTerminalIds, 21) then Incomplete else FieldValidation("msg_content")
  }

  function SubmitV20Head(s: SubmitV20): (b: Octets)
    requires HeadV20Within(s)
  {
    s.msgId + [s.pkTotal] + [s.pkNumber] + [s.registeredDelivery] + [s.msgLevel] + Pad(s.serviceId, 10)
    + [s.feeUserType] + Pad(s.feeTerminalId, 21) + [s.tppid] + [s.tpudhi] + [s.msgFmt]
    + Pad(s.msgSrc, 6) + Pad(s.feeType, 2) + Pad(s.feeCode, 6) + Pad(s.validTime, 17) + Pad(s.atTime, 17)
    + Pad(s.srcId, 21) + [s.destUsrTl]
  }

  function SubmitV20Body(s: SubmitV20): (b: Octets)
    requires SubmitV20Within(s)
  {
    PutTexts(SubmitV20Head(s), s.destTerminalIds, 21) + [|s.msgContent|] + s.msgContent + s.reserve
  }

  function SubmitV20Size(b: Octets): (n: nat) {
    if |b| < 117 then 117
    else
      var at := 117 + (b[116] as int) * 21;
      if |b| < at + 1 then at + 1 else at + 1 + (b[at] as int) + 8
  }

  function SubmitV20HeadAt(b: Octets): (s: SubmitV20)
    requires |b| >= 117
    ensures s.destUsrTl == b[116]
  {
    var c, route := ChargingAt(b, 21), RoutingAt(b, 47);
    SubmitV20(c.msgId, c.pkTotal, c.pkNumber, c.registeredDelivery, c.msgLevel, c.serviceId, c.feeUserType, c.feeTerminalId,
           b[44], b[45], b[46],
              route.msgSrc, route.feeType, route.feeCode, route.validTime, route.atTime, route.srcId, route.destUsrTl,
              [], [], Zeros(8))
  }

  function SubmitV20At(b: Octets): (s: SubmitV20)
    requires |b| >= SubmitV20Size(b)
  {
    var at := 117 + (b[116] as int) * 21;
    var end := at + 1 + (b[at] as int);
    SubmitV20HeadAt(b).(destTerminalIds := TextsAt(b, 117, 21, b[116]), msgContent := b[at + 1..end], reserve := b[end..end + 8])
  }

  function DecodeSubmitV20(total: nat, b: Octets): (r: Result<SubmitV20, CodecError>) {
    if |b| < total - HEADER_SIZE || |b| < SubmitV20Size(b) then Err(Incomplete) else Ok(SubmitV20At(b))
  }

  // v20.rs: encode_pdu_submit_v20
  method SubmitV20Encode(s: SubmitV20, buf: BytesMut) returns (r: Result<(), CodecError>)
    requires buf.Valid() && buf.body == []
    modifies buf
    ensures buf.Valid() && buf.base == old(buf.base)
    ensures r == if SubmitV20Within(s) then Ok(()) else Err(SubmitV20Error(s))
    ensures SubmitV20Within(s) ==> buf.body == SubmitV20Body(s)
  {
    hide Pad, PutTexts, AllWithin, HeadV20Within, SubmitV20Head;
    var _ :- PutSubmitV20Head(s, buf);
    var _ :- PutDests(buf, s.destTerminalIds, 21, Incomplete);
    if |s.msgContent| > 255 {
      return Err(FieldValidation("msg_content"));
    }
    buf.PutU8(|s.msgContent|);
    buf.PutSlice(s.msgContent);
    buf.PutSlice(s.reserve);
    r := Ok(());
  }

  method PutSubmitV20Head(s: SubmitV20, buf: BytesMut) returns (r: Result<(), CodecError>)
    requires buf.Valid() && buf.body == []
    modifies buf
    ensures buf.Valid() && buf.base == old(buf.base)
    ensures r == if HeadV20Within(s) then Ok(()) else Err(Incomplete)
    ensures HeadV20Within(s) ==> buf.body == SubmitV20Head(s)
  {
    hide Pad;
    buf.PutSlice(s.msgId);
    assert buf.body == s.msgId;
    buf.PutU8(s.pkTotal);
    buf.PutU8(s.pkNumber);
    buf.PutU8(s.registeredDelivery);
    buf.PutU8(s.msgLevel);
    var _ :- PutText(buf, s.serviceId, 10, Incomplete);
    buf.PutU8(s.feeUserType);
    var _ :- PutText(buf, s.feeTerminalId, 21, Incomplete);
    buf.PutU8(s.tppid);
    buf.PutU8(s.tpudhi);
    buf.PutU8(s.msgFmt);
    var _ :- PutText(buf, s.msgSrc, 6, Incomplete);
    var _ :- PutText(buf, s.feeType, 2, Incomplete);
    var _ :- PutText(buf, s.feeCode, 6, Incomplete);
    var _ :- PutText(buf, s.validTime, 17, Incomplete);
    var _ :- PutText(buf, s.atTime, 17, Incomplete);
    var _ :- PutText(buf, s.srcId, 21, Incomplete);
    buf.PutU8(s.destUsrTl);
    r := Ok(());
  }

  // v20.rs: decode_submit_v20
  method SubmitV20Decode(total: nat, b: Octets) returns (r: Result<SubmitV20, CodecError>)
    ensures r == DecodeSubmitV20(total, b)
  {
    if |b| < total - HEADER_SIZE {
      return Err(Incomplete);
    }
    var buf := new Cursor(b);
    var s := SubmitV20Read(buf);
    r := if s.Some? then Ok(s.value) else Err(Incomplete);
  }

  method SubmitV20ReadHead(buf: Cursor) returns (r: Option<SubmitV20>)
    requires buf.Valid() && buf.pos == 0
    modifies buf
    ensures buf.Valid()
    ensures r.Some? <==> |buf.data| >= 117
    ensures r.Some? ==> r.value == SubmitV20HeadAt(buf.data) && buf.pos == 117
  {
    hide TextAt, RoutingAt, ChargingAt;
    var c :- TakeCharging(buf, 21);
    var tppid :- buf.GetU8();
    var tpudhi :- buf.GetU8();
    var msgFmt :- buf.GetU8();
    var route :- TakeRouting(buf);
    r := Some(SubmitV20(c.msgId, c.pkTotal, c.pkNumber, c.registeredDelivery, c.msgLevel, c.serviceId, c.feeUserType, c.feeTerminalId,
                        tppid, tpudhi, msgFmt, route.msgSrc, route.feeType, route.feeCode, route.validTime,
                        route.atTime, route.srcId, route.destUsrTl, [], [], Zeros(8)));
  }

  method SubmitV20Read(buf: Cursor) returns (r: Option<SubmitV20>)
    requires buf.Valid() && buf.pos == 0
    modifies buf
    ensures r == if |buf.data| < SubmitV20Size(buf.data) then None else Some(SubmitV20At(buf.data))
  {
    hide TextAt, TextsAt, SubmitV20HeadAt;
    var head :- SubmitV20ReadHead(buf);
    var dests :- TakeDests(buf, 21, head.destUsrTl);
    var msgLength :- buf.GetU8();
    var msgContent :- buf.CopyToSlice(msgLength);
    var reserve :- buf.CopyToSlice(8);
    r := Some(head.(destTerminalIds := dests, msgContent := msgContent, reserve := reserve));
  }

  function RoutingOfV20(s: SubmitV20): (r: Routing) {
    Routing(s.msgSrc, s.feeType, s.feeCode, s.validTime, s.atTime, s.srcId, s.destUsrTl)
  }

  predicate SubmitV20Fits(s: SubmitV20) {
    && Fits(s.serviceId, 10) && Fits(s.feeTerminalId, 21) && RoutingFits(RoutingOfV20(s))
    && s.destUsrTl == |s.destTerminalIds| && AllFit(s.destTerminalIds, 21) && |s.msgContent| <= 255
  }

  lemma SubmitV20AtFits(b: Octets)
    requires |b| >= SubmitV20Size(b)
    ensures SubmitV20Fits(SubmitV20At(b)) && SubmitV20Within(SubmitV20At(b))
  {
    hide TextAt, TextsAt, RoutingAt;
    TextFits(b, 12, 10);
    TextFits(b, 23, 21);
    RoutingAtFits(b, 47);
    TextsFit(b, 117, 21, b[116]);
  }

  lemma SubmitV20HeadReads(s: SubmitV20, whole: Octets)
    requires SubmitV20Fits(s) && SubmitV20Within(s) && SubmitV20Head(s) <= whole
    ensures |SubmitV20Head(s)| == 117 <= |whole|
    ensures SubmitV20HeadAt(whole) == s.(destTerminalIds := [], msgContent := [], reserve := Zeros(8))
  {
    hide Pad, TextAt, RoutingAt;
    var e1 := s.msgId + [s.pkTotal];
    var e2 := e1 + [s.pkNumber];
    var e3 := e2 + [s.registeredDelivery];
    var e4 := e3 + [s.msgLevel];
    var e5 := e4 + Pad(s.serviceId, 10);
    var e6 := e5 + [s.feeUserType];
    var e7 := e6 + Pad(s.feeTerminalId, 21);
    var e8 := e7 + [s.tppid];
    var e9 := e8 + [s.tpudhi];
    var e10 := e9 + [s.msgFmt];
    assert SubmitV20Head(s) == PutRouting(e10, RoutingOfV20(s));
    PieceRouting(e10, RoutingOfV20(s), whole);
    PieceByte(e9, s.msgFmt, whole);
    PieceByte(e8, s.tpudhi, whole);
    PieceByte(e7, s.tppid, whole);
    PieceText(e6, s.feeTerminalId, 21, whole);
    PieceByte(e5, s.feeUserType, whole);
    PieceText(e4, s.serviceId, 10, whole);
    PieceByte(e3, s.msgLevel, whole);
    PieceByte(e2, s.registeredDelivery, whole);
    PieceByte(e1, s.pkNumber, whole);
    PieceByte(s.msgId, s.pkTotal, whole);
    assert whole[0..8] == s.msgId;
  }

  lemma SubmitV20Reads(s: SubmitV20)
    requires SubmitV20Fits(s) && SubmitV20Within(s)
    ensures var b := SubmitV20Body(s); |b| == SubmitV20Size(b) && SubmitV20At(b) == s
  {
    hide Pad, TextAt, SubmitV20Head, TextsAt, PutTexts, SubmitV20HeadAt;
    var whole, head := SubmitV20Body(s), SubmitV20Head(s);
    var e1 := PutTexts(head, s.destTerminalIds, 21);
    var e2 := e1 + [|s.msgContent|];
    var e3 := e2 + s.msgContent;
    Piece(e3, s.reserve, whole);
    Piece(e2, s.msgContent, whole);
    PieceByte(e1, |s.msgContent|, whole);
    PieceTexts(head, s.destTerminalIds, 21, whole);
    SubmitV20HeadReads(s, whole);
  }

  lemma SubmitV20Length(s: SubmitV20)
    requires SubmitV20Within(s)
    ensures |SubmitV20Body(s)| == 126 + |s.destTerminalIds| * 21 + |s.msgContent|
  {
    hide Pad, TextAt, TextsAt, NoTrailingNul;
    assert |SubmitV20Head(s)| == 117;
    hide SubmitV20Head, PutTexts;
    PieceTexts(SubmitV20Head(s), s.destTerminalIds, 21, PutTexts(SubmitV20Head(s), s.destTerminalIds, 21));
  }

  lemma SubmitV20RoundTrip(s: SubmitV20, total: nat)
    requires SubmitV20Within(s) && total <= HEADER_SIZE + |SubmitV20Body(s)|
    ensures DecodeSubmitV20(total, SubmitV20Body(s)) == Ok(s) <==> SubmitV20Fits(s)
  {
    var whole := SubmitV20Body(s);
    if |whole| >= SubmitV20Size(whole) {
      SubmitV20AtFits(whole);
    }
    if SubmitV20Fits(s) {
      SubmitV20Reads(s);
    }
  }

  // Deliver, CMPP 2.0

  predicate DeliverV20TextsWithin(d: DeliverV20) {
    |d.destId| <= 21 && |d.serviceId| <= 10 && |d.srcTerminalId| <= 21
  }

  predicate DeliverV20Within(d: DeliverV20) {
    DeliverV20TextsWithin(d) && |d.msgContent| <= 255
  }

  function DeliverV20Error(d: DeliverV20): (e: CodecError) {
    if !DeliverV20TextsWithin(d) then Incomplete else FieldValidation("msg_content")
  }

  function DeliverV20Body(d: DeliverV20): (b: Octets)
    requires DeliverV20Within(d)
  {
    d.msgId + Pad(d.destId, 21) + Pad(d.serviceId, 10) + [d.tppid] + [d.tpudhi] + [d.msgFmt] + Pad(d.srcTerminalId, 21)
    + [d.registeredDelivery] + [|d.msgContent|] + d.msgContent + d.reserve
  }

  function DeliverV20Size(b: Octets): (n: nat) {
    if |b| < 65 then 65 else 65 + (b[64] as int) + 8
  }

  function DeliverV20At(b: Octets): (d: DeliverV20)
    requires |b| >= DeliverV20Size(b)
  {
    var end := 65 + (b[64] as int);
    var e := EnvelopeAt(b);
    DeliverV20(e.msgId, e.destId, e.serviceId, e.tppid, e.tpudhi, e.msgFmt, TextAt(b, 42, 21), b[63],
               b[65..end], b[end..end + 8])
  }

  function DecodeDeliverV20(total: nat, b: Octets): (r: Result<DeliverV20, CodecError>) {
    if |b| < total - HEADER_SIZE || |b| < DeliverV20Size(b) then Err(Incomplete) else Ok(DeliverV20At(b))
  }

  // v20.rs: encode_pdu_deliver_v20
  method DeliverV20Encode(d: DeliverV20, buf: BytesMut) returns (r: Result<(), CodecError>)
    requires buf.Valid() && buf.body == []
    modifies buf
    ensures buf.Valid() && buf.base == old(buf.base)
    ensures r == if DeliverV20Within(d) then Ok(()) else Err(DeliverV20Error(d))
    ensures DeliverV20Within(d) ==> buf.body == DeliverV20Body(d)
  {
    hide Pad;
    buf.PutSlice(d.msgId);
    assert buf.body == d.msgId;
    var _ :- PutText(buf, d.destId, 21, Incomplete);
    var _ :- PutText(buf, d.serviceId, 10, Incomplete);
    buf.PutU8(d.tppid);
    buf.PutU8(d.tpudhi);
    buf.PutU8(d.msgFmt);
    var _ :- PutText(buf, d.srcTerminalId, 21, Incomplete);
    buf.PutU8(d.registeredDelivery);
    if |d.msgContent| > 255 {
      return Err(FieldValidation("msg_content"));
    }
    buf.PutU8(|d.msgContent|);
    buf.PutSlice(d.msgContent);
    buf.PutSlice(d.reserve);
    r := Ok(());
  }

  // v20.rs: decode_deliver_v20
  method DeliverV20Decode(total: nat, b: Octets) returns (r: Result<DeliverV20, CodecError>)
    ensures r == DecodeDeliverV20(total, b)
  {
    if |b| < total - HEADER_SIZE {
      return Err(Incomplete);
    }
    var buf := new Cursor(b);
    var d := DeliverV20Read(buf);
    r := if d.Some? then Ok(d.value) else Err(Incomplete);
  }

  method DeliverV20Read(buf: Cursor) returns (r: Option<DeliverV20>)
    requires buf.Valid() && buf.pos == 0
    modifies buf
    ensures r.Some? <==> |buf.data| >= DeliverV20Size(buf.data)
    ensures r.Some? ==> r.value == DeliverV20At(buf.data)
  {
    hide TextAt, EnvelopeAt;
    var e :- TakeEnvelope(buf);
    var srcTerminalId :- buf.DecodePstring(21);
    var registeredDelivery :- buf.GetU8();
    var msgLength :- buf.GetU8();
    var msgContent :- buf.CopyToSlice(msgLength);
    var reserve :- buf.CopyToSlice(8);
    r := Some(DeliverV20(e.msgId, e.destId, e.serviceId, e.tppid, e.tpudhi, e.msgFmt, srcTerminalId, registeredDelivery,
                         msgContent, reserve));
  }

  predicate DeliverV20Fits(d: DeliverV20) {
    Fits(d.destId, 21) && Fits(d.serviceId, 10) && Fits(d.srcTerminalId, 21) && |d.msgContent| <= 255
  }

  lemma DeliverV20AtFits(b: Octets)
    requires |b| >= DeliverV20Size(b)
    ensures DeliverV20Fits(DeliverV20At(b)) && DeliverV20Within(DeliverV20At(b))
  {
    hide TextAt;
    TextFits(b, 8, 21);
    TextFits(b, 29, 10);
    TextFits(b, 42, 21);
  }

  lemma DeliverV20Reads(d: DeliverV20)
    requires DeliverV20Fits(d) && DeliverV20Within(d)
    ensures var b := DeliverV20Body(d); |b| == DeliverV20Size(b) && DeliverV20At(b) == d
  {
    hide Pad, TextAt;
    var whole := DeliverV20Body(d);
    var e1 := d.msgId + Pad(d.destId, 21);
    var e2 := e1 + Pad(d.serviceId, 10);
    var e3 := e2 + [d.tppid];
    var e4 := e3 + [d.tpudhi];
    var e5 := e4 + [d.msgFmt];
    var e6 := e5 + Pad(d.srcTerminalId, 21);
    var e7 := e6 + [d.registeredDelivery];
    var e8 := e7 + [|d.msgContent|];
    var e9 := e8 + d.msgContent;
    Piece(e9, d.reserve, whole);
    Piece(e8, d.msgContent, whole);
    PieceByte(e7, |d.msgContent|, whole);
    PieceByte(e6, d.registeredDelivery, whole);
    PieceText(e5, d.srcTerminalId, 21, whole);
    PieceByte(e4, d.msgFmt, whole);
    PieceByte(e3, d.tpudhi, whole);
    PieceByte(e2, d.tppid, whole);
    PieceText(e1, d.serviceId, 10, whole);
    PieceText(d.msgId, d.destId, 21, whole);
    assert whole[0..8] == d.msgId;
  }

  lemma DeliverV20RoundTrip(d: DeliverV20, total: nat)
    requires DeliverV20Within(d) && total <= HEADER_SIZE + |DeliverV20Body(d)|
    ensures DecodeDeliverV20(total, DeliverV20Body(d)) == Ok(d) <==> DeliverV20Fits(d)
  {
    var whole := DeliverV20Body(d);
    if |whole| >= DeliverV20Size(whole) {
      DeliverV20AtFits(whole);
    }
    if DeliverV20Fits(d) {
      DeliverV20Reads(d);
    }
  }
}
