// What the CMPP bodies have in common: errors, the widths of their texts, the destination list.
module CmppFields {
  import opened Wrappers
  import opened Bytes
  import opened Wire

  datatype CodecError =
    | Incomplete
    | InvalidCommandId(id: u32)
    | InvalidPduLength(length: u32, min: u32, max: u32)
    | FieldValidation(field: string)

  const HEADER_SIZE := 12

  // [u8; 8]
  type Array8 = b: Octets | |b| == 8 witness Zeros(8)

  predicate AllWithin(vs: seq<Octets>, width: nat) {
    forall i :: 0 <= i < |vs| ==> |vs[i]| <= width
  }

  predicate AllFit(vs: seq<Octets>, width: nat) {
    forall i :: 0 <= i < |vs| ==> Fits(vs[i], width)
  }

  // encode_pstring with its error mapped
  method PutText(buf: BytesMut, value: Octets, width: nat, error: CodecError) returns (r: Result<(), CodecError>)
    requires buf.Valid()
    modifies buf
    ensures buf.Valid() && buf.base == old(buf.base)
    ensures r == if |value| <= width then Ok(()) else Err(error)
    ensures |value| <= width ==> buf.body == old(buf.body) + Pad(value, width)
  {
    var fits := buf.EncodePstring(value, width);
    r := if fits then Ok(()) else Err(error);
  }

  // The loop over the destinations.
  method PutDests(buf: BytesMut, dests: seq<Octets>, width: nat, error: CodecError) returns (r: Result<(), CodecError>)
    requires buf.Valid()
    modifies buf
    ensures buf.Valid() && buf.base == old(buf.base)
    ensures r == if AllWithin(dests, width) then Ok(()) else Err(error)
    ensures AllWithin(dests, width) ==> buf.body == PutTexts(old(buf.body), dests, width)
  {
    var i := 0;
    while i < |dests|
      invariant 0 <= i <= |dests| && buf.Valid() && buf.base == old(buf.base)
      invariant AllWithin(dests[..i], width)
      invariant buf.body == PutTexts(old(buf.body), dests[..i], width)
    {
      var _ :- PutText(buf, dests[i], width, error);
      assert dests[..i + 1][..i] == dests[..i] && dests[..i + 1][i] == dests[i];
      i := i + 1;
    }
    assert dests[..i] == dests;
    r := Ok(());
  }

  method TakeDests(buf: Cursor, width: nat, n: nat) returns (r: Option<seq<Octets>>)
    requires buf.Valid()
    modifies buf
    ensures buf.Valid()
    ensures if old(buf.pos) + n * width <= |buf.data| then
              r == Some(TextsAt(buf.data, old(buf.pos), width, n)) && buf.pos == old(buf.pos) + n * width
            else r == None
  {
    hide Trim;
    var from := buf.pos;
    var dests: seq<Octets> := [];
    var i := 0;
    while i < n
      invariant 0 <= i <= n && buf.Valid() && buf.pos == from + i * width
      invariant dests == TextsAt(buf.data, from, width, i)
    {
      Row(i, n, width);
      var dest :- buf.DecodePstring(width);
      dests := dests + [dest];
      i := i + 1;
    }
    r := Some(dests);
  }

  // The stretch of a Submit that both versions lay out alike.
  datatype Routing = Routing(msgSrc: Octets, feeType: Octets, feeCode: Octets, validTime: Octets, atTime: Octets, srcId: Octets, destUsrTl: u8)

  function RoutingAt(b: Octets, from: nat): (r: Routing)
    requires from + 70 <= |b|
  {
    Routing(TextAt(b, from, 6), TextAt(b, from + 6, 2), TextAt(b, from + 8, 6), TextAt(b, from + 14, 17),
            TextAt(b, from + 31, 17), TextAt(b, from + 48, 21), b[from + 69])
  }

  method TakeRouting(buf: Cursor) returns (r: Option<Routing>)
    requires buf.Valid()
    modifies buf
    ensures buf.Valid()
    ensures r.Some? <==> old(buf.pos) + 70 <= |buf.data|
    ensures r.Some? ==> r.value == RoutingAt(buf.data, old(buf.pos)) && buf.pos == old(buf.pos) + 70
  {
    hide TextAt;
    var msgSrc :- buf.DecodePstring(6);
    var feeType :- buf.DecodePstring(2);
    var feeCode :- buf.DecodePstring(6);
    var validTime :- buf.DecodePstring(17);
    var atTime :- buf.DecodePstring(17);
    var srcId :- buf.DecodePstring(21);
    var destUsrTl :- buf.GetU8();
    r := Some(Routing(msgSrc, feeType, feeCode, validTime, atTime, srcId, destUsrTl));
  }

  predicate RoutingFits(r: Routing) {
    && Fits(r.msgSrc, 6) && Fits(r.feeType, 2) && Fits(r.feeCode, 6) && Fits(r.validTime, 17) && Fits(r.atTime, 17)
    && Fits(r.srcId, 21)
  }

  lemma TextFits(b: Octets, from: nat, width: nat)
    requires from + width <= |b|
    ensures Fits(TextAt(b, from, width), width)
  {
    TrimFits(b[from..from + width]);
  }

  lemma RoutingAtFits(b: Octets, from: nat)
    requires from + 70 <= |b|
    ensures RoutingFits(RoutingAt(b, from))
  {
    hide TextAt;
    TextFits(b, from, 6);
    TextFits(b, from + 6, 2);
    TextFits(b, from + 8, 6);
    TextFits(b, from + 14, 17);
    TextFits(b, from + 31, 17);
    TextFits(b, from + 48, 21);
  }

  // The stretch of seven fields printed after e.
  function PutRouting(e: Octets, r: Routing): (b: Octets)
    requires |r.msgSrc| <= 6 && |r.feeType| <= 2 && |r.feeCode| <= 6 && |r.validTime| <= 17 && |r.atTime| <= 17 && |r.srcId| <= 21
  {
    e + Pad(r.msgSrc, 6) + Pad(r.feeType, 2) + Pad(r.feeCode, 6) + Pad(r.validTime, 17) + Pad(r.atTime, 17)
    + Pad(r.srcId, 21) + [r.destUsrTl]
  }

  lemma PieceRouting(e: Octets, r: Routing, whole: Octets)
    requires RoutingFits(r) && PutRouting(e, r) <= whole
    ensures e <= whole && |PutRouting(e, r)| == |e| + 70 <= |whole| && RoutingAt(whole, |e|) == r
  {
    hide Pad, TextAt, NoTrailingNul;
    var e1 := e + Pad(r.msgSrc, 6);
    var e2 := e1 + Pad(r.feeType, 2);
    var e3 := e2 + Pad(r.feeCode, 6);
    var e4 := e3 + Pad(r.validTime, 17);
    var e5 := e4 + Pad(r.atTime, 17);
    var e6 := e5 + Pad(r.srcId, 21);
    PieceByte(e6, r.destUsrTl, whole);
    PieceText(e5, r.srcId, 21, whole);
    PieceText(e4, r.atTime, 17, whole);
    PieceText(e3, r.validTime, 17, whole);
    PieceText(e2, r.feeCode, 6, whole);
    PieceText(e1, r.feeType, 2, whole);
    PieceText(e, r.msgSrc, 6, whole);
  }

  // The stretch both versions of Submit open with; only the width of the charged terminal differs.
  datatype Charging = Charging(
    msgId: Array8,
    pkTotal: u8,
    pkNumber: u8,
    registeredDelivery: u8,
    msgLevel: u8,
    serviceId: Octets,
    feeUserType: u8,
    feeTerminalId: Octets
  )

  function ChargingAt(b: Octets, width: nat): (c: Charging)
    requires 23 + width <= |b|
  {
    Charging(b[0..8], b[8], b[9], b[10], b[11], TextAt(b, 12, 10), b[22], TextAt(b, 23, width))
  }

  method TakeCharging(buf: Cursor, width: nat) returns (r: Option<Charging>)
    requires buf.Valid() && buf.pos == 0
    modifies buf
    ensures buf.Valid()
    ensures r.Some? <==> 23 + width <= |buf.data|
    ensures r.Some? ==> r.value == ChargingAt(buf.data, width) && buf.pos == 23 + width
  {
    hide TextAt;
    var msgId :- buf.CopyToSlice(8);
    var pkTotal :- buf.GetU8();
    var pkNumber :- buf.GetU8();
    var registeredDelivery :- buf.GetU8();
    var msgLevel :- buf.GetU8();
    var serviceId :- buf.DecodePstring(10);
    var feeUserType :- buf.GetU8();
    var feeTerminalId :- buf.DecodePstring(width);
    r := Some(Charging(msgId, pkTotal, pkNumber, registeredDelivery, msgLevel, serviceId, feeUserType, feeTerminalId));
  }

  // The stretch both versions of Deliver open with.
  datatype Envelope = Envelope(msgId: Array8, destId: Octets, serviceId: Octets, tppid: u8, tpudhi: u8, msgFmt: u8)

  function EnvelopeAt(b: Octets): (e: Envelope)
    requires 42 <= |b|
  {
    Envelope(b[0..8], TextAt(b, 8, 21), TextAt(b, 29, 10), b[39], b[40], b[41])
  }

  method TakeEnvelope(buf: Cursor) returns (r: Option<Envelope>)
    requires buf.Valid() && buf.pos == 0
    modifies buf
    ensures buf.Valid()
    ensures r.Some? <==> 42 <= |buf.data|
    ensures r.Some? ==> r.value == EnvelopeAt(buf.data) && buf.pos == 42
  {
    hide TextAt;
    var msgId :- buf.CopyToSlice(8);
    var destId :- buf.DecodePstring(21);
    var serviceId :- buf.DecodePstring(10);
    var tppid :- buf.GetU8();
    var tpudhi :- buf.GetU8();
    var msgFmt :- buf.GetU8();
    r := Some(Envelope(msgId, destId, serviceId, tppid, tpudhi, msgFmt));
  }
}
