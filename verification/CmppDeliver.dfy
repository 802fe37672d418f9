// The body of a CMPP 3.0 Deliver.
module CmppDeliver {
  import opened Wrappers
  import opened Bytes
  import opened Wire
  import opened CmppFields

  datatype Deliver = Deliver(
    msgId: Array8,
    destId: Octets,
    serviceId: Octets,
    tppid: u8,
    tpudhi: u8,
    msgFmt: u8,
    srcTerminalId: Octets,
    srcTerminalType: u8,
    registeredDelivery: u8,
    msgContent: Octets,
    linkId: Octets
  )

  predicate DeliverWithin(d: Deliver) {
    && |d.destId| <= 21 && |d.serviceId| <= 10 && |d.srcTerminalId| <= 32 && |d.msgContent| <= 255 && |d.linkId| <= 20
  }

  function DeliverError(d: Deliver): (field: string) {
    if |d.destId| > 21 then "dest_id"
    else if |d.serviceId| > 10 then "service_id"
    else if |d.srcTerminalId| > 32 then "src_terminal_id"
    else if |d.msgContent| > 255 then "msg_content"
    else "link_id"
  }

  function DeliverBody(d: Deliver): (b: Octets)
    requires DeliverWithin(d)
  {
    d.msgId + Pad(d.destId, 21) + Pad(d.serviceId, 10) + [d.tppid] + [d.tpudhi] + [d.msgFmt] + Pad(d.srcTerminalId, 32)
    + [d.srcTerminalType] + [d.registeredDelivery] + [|d.msgContent|] + d.msgContent + Pad(d.linkId, 20)
  }

  function DeliverSize(b: Octets): (n: nat) {
    if |b| < 77 then 77 else 77 + (b[76] as int) + 20
  }

  function DeliverAt(b: Octets): (d: Deliver)
    requires |b| >= DeliverSize(b)
  {
    var end := 77 + (b[76] as int);
    var e := EnvelopeAt(b);
    Deliver(e.msgId, e.destId, e.serviceId, e.tppid, e.tpudhi, e.msgFmt, TextAt(b, 42, 32), b[74], b[75],
            b[77..end], TextAt(b, end, 20))
  }

  function DecodeDeliver(total: nat, b: Octets): (r: Result<Deliver, CodecError>) {
    if |b| < total - HEADER_SIZE || |b| < DeliverSize(b) then Err(Incomplete) else Ok(DeliverAt(b))
  }

  // deliver.rs: Deliver::encode
  method DeliverEncode(d: Deliver, buf: BytesMut) returns (r: Result<(), CodecError>)
    requires buf.Valid() && buf.body == []
    modifies buf
    ensures buf.Valid() && buf.base == old(buf.base)
    ensures r == if DeliverWithin(d) then Ok(()) else Err(FieldValidation(DeliverError(d)))
    ensures DeliverWithin(d) ==> buf.body == DeliverBody(d)
  {
    hide Pad;
    buf.PutSlice(d.msgId);
    assert buf.body == d.msgId;
    var _ :- PutText(buf, d.destId, 21, FieldValidation("dest_id"));
    var _ :- PutText(buf, d.serviceId, 10, FieldValidation("service_id"));
    buf.PutU8(d.tppid);
    buf.PutU8(d.tpudhi);
    buf.PutU8(d.msgFmt);
    var _ :- PutText(buf, d.srcTerminalId, 32, FieldValidation("src_terminal_id"));
    buf.PutU8(d.srcTerminalType);
    buf.PutU8(d.registeredDelivery);
    if |d.msgContent| > 255 {
      return Err(FieldValidation("msg_content"));
    }
    buf.PutU8(|d.msgContent|);
    buf.PutSlice(d.msgContent);
    var _ :- PutText(buf, d.linkId, 20, FieldValidation("link_id"));
    r := Ok(());
  }

  // deliver.rs: Deliver::decode
  method DeliverDecode(total: nat, b: Octets) returns (r: Result<Deliver, CodecError>)
    ensures r == DecodeDeliver(total, b)
  {
    if |b| < total - HEADER_SIZE {
      return Err(Incomplete);
    }
    var buf := new Cursor(b);
    var d := DeliverRead(buf);
    r := if d.Some? then Ok(d.value) else Err(Incomplete);
  }

  method DeliverRead(buf: Cursor) returns (r: Option<Deliver>)
    requires buf.Valid() && buf.pos == 0
    modifies buf
    ensures r.Some? <==> |buf.data| >= DeliverSize(buf.data)
    ensures r.Some? ==> r.value == DeliverAt(buf.data)
  {
    hide TextAt, EnvelopeAt;
    var e :- TakeEnvelope(buf);
    var srcTerminalId :- buf.DecodePstring(32);
    var srcTerminalType :- buf.GetU8();
    var registeredDelivery :- buf.GetU8();
    var msgLength :- buf.GetU8();
    var msgContent :- buf.CopyToSlice(msgLength);
    var linkId :- buf.DecodePstring(20);
    r := Some(Deliver(e.msgId, e.destId, e.serviceId, e.tppid, e.tpudhi, e.msgFmt, srcTerminalId, srcTerminalType,
                      registeredDelivery, msgContent, linkId));
  }

  predicate DeliverFits(d: Deliver) {
    && Fits(d.destId, 21) && Fits(d.serviceId, 10) && Fits(d.srcTerminalId, 32) && |d.msgContent| <= 255
    && Fits(d.linkId, 20)
  }

  lemma DeliverAtFits(b: Octets)
    requires |b| >= DeliverSize(b)
    ensures DeliverFits(DeliverAt(b)) && DeliverWithin(DeliverAt(b))
  {
    hide TextAt;
    TextFits(b, 8, 21);
    TextFits(b, 29, 10);
    TextFits(b, 42, 32);
    TextFits(b, 77 + (b[76] as int), 20);
  }

  lemma DeliverReads(d: Deliver)
    requires DeliverFits(d) && DeliverWithin(d)
    ensures var b := DeliverBody(d); |b| == DeliverSize(b) && DeliverAt(b) == d
  {
    hide Pad, TextAt;
    var whole := DeliverBody(d);
    var e1 := d.msgId + Pad(d.destId, 21);
    var e2 := e1 + Pad(d.serviceId, 10);
    var e3 := e2 + [d.tppid];
    var e4 := e3 + [d.tpudhi];
    var e5 := e4 + [d.msgFmt];
    var e6 := e5 + Pad(d.srcTerminalId, 32);
    var e7 := e6 + [d.srcTerminalType];
    var e8 := e7 + [d.registeredDelivery];
    var e9 := e8 + [|d.msgContent|];
    var e10 := e9 + d.msgContent;
    PieceText(e10, d.linkId, 20, whole);
    Piece(e9, d.msgContent, whole);
    PieceByte(e8, |d.msgContent|, whole);
    PieceByte(e7, d.registeredDelivery, whole);
    PieceByte(e6, d.srcTerminalType, whole);
    PieceText(e5, d.srcTerminalId, 32, whole);
    PieceByte(e4, d.msgFmt, whole);
    PieceByte(e3, d.tpudhi, whole);
    PieceByte(e2, d.tppid, whole);
    PieceText(e1, d.serviceId, 10, whole);
    PieceText(d.msgId, d.destId, 21, whole);
    assert whole[0..8] == d.msgId;
  }

  lemma DeliverRoundTrip(d: Deliver, total: nat)
    requires DeliverWithin(d) && total <= HEADER_SIZE + |DeliverBody(d)|
    ensures DecodeDeliver(total, DeliverBody(d)) == Ok(d) <==> DeliverFits(d)
  {
    var whole := DeliverBody(d);
    if |whole| >= DeliverSize(whole) {
      DeliverAtFits(whole);
    }
    if DeliverFits(d) {
      DeliverReads(d);
    }
  }
}
