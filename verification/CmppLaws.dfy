// What survives a trip over the CMPP wire, from unified message to bytes and back.
module CmppLaws {
  import opened Wrappers
  import opened Bytes
  import opened Udh
  import opened Wire
  import opened Status
  import opened CmppFields
  import opened CmppSubmit
  import opened CmppDeliver
  import opened CmppResp
  import opened CmppV20
  import opened CmppCodec
  import opened Unified
  import opened CmppAdapter
  import CmppReport

  // The widths of the terminal fields.
  function TerminalWidth(v: CmppVersion): (n: nat) {
    if v.V20? then 21 else 32
  }

  predicate ExtraFits(x: CmppExtra, v: CmppVersion) {
    && x.version == ToU8(v)
    && Fits(x.serviceId, 10) && Fits(x.feeTerminalId, TerminalWidth(v)) && Fits(x.msgSrc, 6) && Fits(x.feeType, 2)
    && Fits(x.feeCode, 6) && Fits(x.validTime, 17) && Fits(x.atTime, 17) && Fits(x.linkId, 20)
    && (v.V20? ==> x.feeTerminalType == 0 && x.destTerminalType == 0 && x.linkId == [])
  }

  predicate DestsFit(dests: seq<Address>, width: nat) {
    |dests| <= 255 && forall i :: 0 <= i < |dests| ==> IsPlain(dests[i]) && Fits(dests[i].number, width)
  }

  // A Submit that CMPP can carry: every text within its field and not ending in a zero byte, at most
  // 255 destinations, header and content within the length byte, plain addresses, an encoding CMPP
  // tells apart, extras of the right version. When no header is set, none may be seen in the content.
  predicate Carriable(m: UnifiedSubmit, v: CmppVersion) {
    && IsPlain(m.src) && Fits(m.src.number, 21) && DestsFit(m.dests, TerminalWidth(v)) && m.tlvs == []
    && CanonicalEncoding(m.encoding) && m.extra.Cmpp? && ExtraFits(m.extra.extra, v)
    && UdhLength(m.concat) + |m.content| <= 255
    && UdhConsistent(m.concat, m.content, m.extra.extra.tpudhi)
  }

  predicate WellFormed(m: UnifiedSubmit, v: CmppVersion) {
    Carriable(m, v) && (m.concat.Some? ==> m.extra.extra.tpudhi == 1)
  }

  // The encoder sets the flag to 1 when there is a header.
  function Normalised(m: UnifiedSubmit): (n: UnifiedSubmit)
    requires m.extra.Cmpp?
  {
    if m.concat.Some? then m.(extra := Cmpp(m.extra.extra.(tpudhi := 1))) else m
  }

  lemma NumbersFit(dests: seq<Address>, width: nat)
    requires DestsFit(dests, width)
    ensures AllFit(Numbers(dests), width) && AllWithin(Numbers(dests), width) && Plains(Numbers(dests)) == dests
  {
  }

  // Everything decoded is carriable.

  lemma SubmitIsCarriable(s: Submit)
    requires SubmitFits(s)
    ensures Carriable(SubmitToUnified(s), V30)
  {
  }

  lemma SubmitV20IsCarriable(s: SubmitV20)
    requires SubmitV20Fits(s)
    ensures Carriable(SubmitV20ToUnified(s), V20)
  {
  }

  // What is carriable is encoded into a body that fits the wire, and translated back up to the flag.

  lemma CarriableSubmit(m: UnifiedSubmit)
    requires Carriable(m, V30)
    ensures SubmitFits(SubmitFromUnified(m)) && SubmitWithin(SubmitFromUnified(m))
    ensures SubmitToUnified(SubmitFromUnified(m)) == Normalised(m)
  {
    hide FromUdh, ToUdhPrefix, UdhLength, UdhConsistent, SplitUdh, EncodingFromFmt, FmtFromEncoding, CanonicalEncoding, NoTrailingNul;
    UdhRoundTrip(m.concat, m.content, m.extra.extra.tpudhi);
    EncodingRoundTrip(m.encoding, 0);
    NumbersFit(m.dests, 32);
  }

  lemma CarriableSubmitV20(m: UnifiedSubmit)
    requires Carriable(m, V20)
    ensures SubmitV20Fits(SubmitV20FromUnified(m)) && SubmitV20Within(SubmitV20FromUnified(m))
    ensures SubmitV20ToUnified(SubmitV20FromUnified(m)) == Normalised(m)
  {
    hide FromUdh, ToUdhPrefix, UdhLength, UdhConsistent, SplitUdh, EncodingFromFmt, FmtFromEncoding, CanonicalEncoding, NoTrailingNul;
    UdhRoundTrip(m.concat, m.content, m.extra.extra.tpudhi);
    EncodingRoundTrip(m.encoding, 0);
    NumbersFit(m.dests, 21);
  }

  // A carriable Submit is encoded, and decoded with the flag normalised.
  lemma CarriedSubmit(m: UnifiedSubmit, sequence: u32, v: CmppVersion)
    requires Carriable(m, v)
    ensures var e := Encode(SubmitMessage(m), sequence, v);
            e.Ok? && Decode(e.value, v) == Ok(SubmitMessage(Normalised(m)))
  {
    hide DecodeMessage, SubmitFits, SubmitV20Fits, SubmitWithin, SubmitV20Within, SubmitFromUnified, SubmitV20FromUnified,
         SubmitToUnified, SubmitV20ToUnified, Normalised, PduFrame, SubmitBody, SubmitV20Body;
    if v.V20? {
      CarriableSubmitV20(m);
      FittingMessageReads(SubmitV20Message(sequence, SubmitV20FromUnified(m)), v);
    } else {
      CarriableSubmit(m);
      FittingMessageReads(SubmitV30Message(sequence, SubmitFromUnified(m)), v);
    }
  }

  lemma DecodedSubmitIsCarriable(b: Octets, v: CmppVersion)
    requires Decode(b, v).Ok? && Decode(b, v).value.SubmitMessage?
    ensures Carriable(Decode(b, v).value.submit, v)
  {
    hide DecodeMessage, SubmitFits, SubmitV20Fits, SubmitToUnified, SubmitV20ToUnified, Carriable, SplitUdh;
    DecodedFits(b, v);
    match DecodeMessage(b, v).value {
      case SubmitV30Message(_, s) => SubmitIsCarriable(s);
      case SubmitV20Message(_, s) => SubmitV20IsCarriable(s);
      case _ =>
    }
  }

  // The round trip of Submit, in both versions, through header, registry, padded fields,
  // destination loop and UDH: it gives the message back exactly when the message is well formed.
  lemma SubmitRoundTrips(m: UnifiedSubmit, sequence: u32, v: CmppVersion)
    ensures (var e := Encode(SubmitMessage(m), sequence, v); e.Ok? && Decode(e.value, v) == Ok(SubmitMessage(m)))
            <==> WellFormed(m, v)
  {
    hide Encode, Decode, Carriable;
    var e := Encode(SubmitMessage(m), sequence, v);
    if e.Ok? && Decode(e.value, v) == Ok(SubmitMessage(m)) {
      DecodedSubmitIsCarriable(e.value, v);
      CarriedSubmit(m, sequence, v);
      CarriableHasExtra(m, v);
    }
    if WellFormed(m, v) {
      CarriedSubmit(m, sequence, v);
      CarriableHasExtra(m, v);
    }
  }

  lemma CarriableHasExtra(m: UnifiedSubmit, v: CmppVersion)
    requires Carriable(m, v)
    ensures m.extra.Cmpp?
    ensures m.concat.Some? && Normalised(m) == m ==> m.extra.extra.tpudhi == 1
    ensures WellFormed(m, v) ==> Normalised(m) == m
  {
  }

  // What CMPP makes of a Submit, said in the unified model: the version of the connection, the fields
  // the version has, an encoding it tells apart, bare numbers, no parameters, extras even if none were
  // given.
  function Dressed(m: UnifiedSubmit, v: CmppVersion): (d: UnifiedSubmit)
    ensures d.extra.Cmpp? && d.content == m.content && d.concat == m.concat
  {
    var x := ExtraOf(m.extra).(version := ToU8(v));
    UnifiedSubmit(PlainAddress(m.src.number), Plains(Numbers(m.dests)), m.content, EncodingFromFmt(FmtFromEncoding(m.encoding)),
                  m.wantReport, m.concat,
                  Cmpp(if v.V20? then x.(feeTerminalType := 0, destTerminalType := 0, linkId := []) else x), [])
  }

  // The extras do not ask for the layout of the other version.
  predicate VersionAgrees(m: UnifiedSubmit, v: CmppVersion) {
    v.V30? ==> ExtraOf(m.extra).version != 0x20
  }

  lemma DressedEncodesAlike(m: UnifiedSubmit, sequence: u32, v: CmppVersion)
    requires VersionAgrees(m, v)
    ensures Encode(SubmitMessage(Dressed(m, v)), sequence, v) == Encode(SubmitMessage(m), sequence, v)
  {
    EncodingRoundTrip(m.encoding, FmtFromEncoding(m.encoding));
    assert Numbers(Plains(Numbers(m.dests))) == Numbers(m.dests);
    hide EncodeMessage, FmtFromEncoding, EncodingFromFmt, JoinUdh, Numbers, Plains;
  }

  // A body in the layout of CMPP 2.0 is too short to be read in that of 3.0 as the same message.
  lemma OtherLayoutTooShort(m: UnifiedSubmit, sequence: u32)
    requires !VersionAgrees(m, V30)
    ensures var e := Encode(SubmitMessage(m), sequence, V30);
            e.Ok? ==> Decode(e.value, V30) != Ok(SubmitMessage(Normalised(Dressed(m, V30))))
  {
    var s, e := SubmitV20FromUnified(m), Encode(SubmitMessage(m), sequence, V30);
    if e.Ok? && Decode(e.value, V30) == Ok(SubmitMessage(Normalised(Dressed(m, V30)))) {
      var length := UdhLength(m.concat) + |m.content|;
      assert |s.msgContent| == length && |s.destTerminalIds| == |m.dests| && SubmitV20Within(s);
      assert e.value == PduFrame(SubmitId, sequence, SubmitV20Body(s));
      hide SubmitV20FromUnified, Encode, PduFrame, SubmitV20Body, ToUdhPrefix;
      DecodedSubmitIsCarriable(e.value, V30);
      assert |m.dests| <= 255;
      SubmitV20Length(s);
      V30BodyHolds(SubmitV20Body(s), sequence, m.concat, m.content, |m.dests|);
    }
  }

  lemma V30BodyHolds(body: Octets, sequence: u32, concat: Option<Concat>, content: Octets, n: nat)
    requires HEADER_SIZE + |body| <= MAX_PDU_SIZE
    requires var r := Decode(PduFrame(SubmitId, sequence, body), V30);
             r.Ok? && r.value.SubmitMessage? && r.value.submit.concat == concat && r.value.submit.content == content
             && |r.value.submit.dests| == n
    ensures |body| >= 151 + 32 * n + UdhLength(concat) + |content|
  {
    hide DecodeMessage, PduFrame, SubmitHeadAt, TextAt, ToUdhPrefix, SplitUdh;
    FrameDecodes(SubmitId, sequence, body, V30);
    var s := SubmitAt(body);
    SplitShrinks(s.tpudhi, s.msgContent);
  }

  // A Submit that arrives as what CMPP makes of it.
  predicate Sendable(m: UnifiedSubmit, v: CmppVersion) {
    VersionAgrees(m, v) && Carriable(Dressed(m, v), v)
  }

  // Any Submit at all, whatever its extras, encoding, addresses and parameters: it is encoded, and
  // decoded as what CMPP makes of it, exactly when that is carriable and the extras do not ask for
  // the other version's layout.
  lemma SubmitArrives(m: UnifiedSubmit, sequence: u32, v: CmppVersion)
    ensures (var e := Encode(SubmitMessage(m), sequence, v);
             e.Ok? && Decode(e.value, v) == Ok(SubmitMessage(Normalised(Dressed(m, v)))))
            <==> Sendable(m, v)
  {
    hide Encode, Decode, Carriable, Dressed, Normalised;
    var d, e := Dressed(m, v), Encode(SubmitMessage(m), sequence, v);
    if !VersionAgrees(m, v) {
      OtherLayoutTooShort(m, sequence);
    } else {
      DressedEncodesAlike(m, sequence, v);
      if e.Ok? && Decode(e.value, v) == Ok(SubmitMessage(Normalised(d))) {
        DecodedSubmitIsCarriable(e.value, v);
        CarriableBeforeFlag(d, v);
      }
      if Sendable(m, v) {
        CarriedSubmit(d, sequence, v);
      }
    }
  }

  // What a sendable Submit is encoded into is one frame of the byte stream.
  lemma SendableIsFrame(m: UnifiedSubmit, sequence: u32, v: CmppVersion)
    requires Sendable(m, v)
    ensures var e := Encode(SubmitMessage(m), sequence, v);
            e.Ok? && IsFrame(e.value)
  {
    hide SubmitFits, SubmitV20Fits, SubmitWithin, SubmitV20Within, SubmitFromUnified, SubmitV20FromUnified, SubmitToUnified,
         SubmitV20ToUnified, Normalised, PduFrame, SubmitBody, SubmitV20Body, Dressed, Carriable, VersionAgrees, IsFrame;
    var d := Dressed(m, v);
    DressedEncodesAlike(m, sequence, v);
    if v.V20? {
      CarriableSubmitV20(d);
      FittingMessageIsFrame(SubmitV20Message(sequence, SubmitV20FromUnified(d)));
    } else {
      CarriableVersion(d);
      CarriableSubmit(d);
      FittingMessageIsFrame(SubmitV30Message(sequence, SubmitFromUnified(d)));
    }
  }

  lemma CarriableVersion(m: UnifiedSubmit)
    requires Carriable(m, V30)
    ensures m.extra.Cmpp? && m.extra.extra.version == 0x30
  {
  }

  lemma CarriableBeforeFlag(m: UnifiedSubmit, v: CmppVersion)
    requires m.extra.Cmpp? && Carriable(Normalised(m), v)
    ensures Carriable(m, v)
  {
  }

  // Re-encoding a decoded Submit succeeds, changes nothing but the flag, and is then stable.
  lemma SubmitCanonical(b: Octets, sequence: u32, v: CmppVersion)
    requires Decode(b, v).Ok? && Decode(b, v).value.SubmitMessage?
    ensures var m := Decode(b, v).value.submit;
            && m.extra.Cmpp? && UdhLength(m.concat) + |m.content| <= 255
            && Encode(SubmitMessage(m), sequence, v).Ok?
            && var e := Encode(SubmitMessage(m), sequence, v);
               && Decode(e.value, v) == Ok(SubmitMessage(Normalised(m)))
               && Encode(SubmitMessage(Normalised(m)), sequence, v) == e
  {
    var m := Decode(b, v).value.submit;
    DecodedSubmitIsCarriable(b, v);
    CarriedSubmit(m, sequence, v);
    NormalisedEncodesAlike(m, sequence, v);
  }

  lemma NormalisedEncodesAlike(m: UnifiedSubmit, sequence: u32, v: CmppVersion)
    requires m.extra.Cmpp?
    ensures Encode(SubmitMessage(Normalised(m)), sequence, v) == Encode(SubmitMessage(m), sequence, v)
  {
  }

  // A mobile-originated Deliver keeps only its addresses, encoding, header and content.
  predicate DeliverWellFormed(d: UnifiedDeliver, v: CmppVersion) {
    && IsPlain(d.src) && Fits(d.src.number, TerminalWidth(v)) && IsPlain(d.dest) && Fits(d.dest.number, 21)
    && CanonicalEncoding(d.encoding) && d.tlvs == []
    && d.extra == (if v.V20? then Cmpp(DEFAULT_EXTRA.(version := 0x20)) else NoExtra)
    && UdhLength(d.concat) + |d.content| <= 255
  }

  lemma DecodedDeliverIsWellFormed(b: Octets, v: CmppVersion)
    requires Decode(b, v).Ok? && Decode(b, v).value.DeliverMessage?
    ensures DeliverWellFormed(Decode(b, v).value.deliver, v)
  {
    hide DecodeMessage, Fits, FromUdh, ToUdhPrefix, UdhLength, UdhConsistent, SplitUdh, EncodingFromFmt, CanonicalEncoding;
    DecodedFits(b, v);
    match DecodeMessage(b, v).value {
      case DeliverV30Message(_, d) =>
        SplitShrinks(d.tpudhi, d.msgContent);
        EncodingRoundTrip(AsciiText, d.msgFmt);
      case DeliverV20Message(_, d) =>
        SplitShrinks(d.tpudhi, d.msgContent);
        EncodingRoundTrip(AsciiText, d.msgFmt);
      case _ =>
    }
  }

  lemma WellFormedDeliver(d: UnifiedDeliver, v: CmppVersion)
    requires DeliverWellFormed(d, v)
    ensures v.V20? ==>
              && DeliverV20Fits(DeliverV20FromUnified(d)) && DeliverV20Within(DeliverV20FromUnified(d))
              && DeliverV20ToUnified(DeliverV20FromUnified(d)) == DeliverMessage(d)
    ensures v.V30? ==>
              && DeliverFits(DeliverFromUnified(d)) && DeliverWithin(DeliverFromUnified(d))
              && DeliverToUnified(DeliverFromUnified(d)) == DeliverMessage(d)
    ensures v.V30? ==> ExtraOf(d.extra).version != 0x20
  {
    assert Fits([], 10) && Fits([], 20);
    hide FromUdh, ToUdhPrefix, UdhLength, SplitUdh, EncodingFromFmt, FmtFromEncoding, CanonicalEncoding, NoTrailingNul;
    UdhRoundTrip(d.concat, d.content, 0);
    EncodingRoundTrip(d.encoding, 0);
  }

  lemma CarriedDeliver(d: UnifiedDeliver, sequence: u32, v: CmppVersion)
    requires DeliverWellFormed(d, v)
    ensures var e := Encode(DeliverMessage(d), sequence, v);
            e.Ok? && Decode(e.value, v) == Ok(DeliverMessage(d))
  {
    WellFormedDeliver(d, v);
    hide DecodeMessage, DeliverWellFormed, DeliverFits, DeliverV20Fits, DeliverWithin, DeliverV20Within, DeliverFromUnified,
         DeliverV20FromUnified, DeliverToUnified, DeliverV20ToUnified, PduFrame, DeliverBody, DeliverV20Body;
    if v.V20? {
      FittingMessageReads(DeliverV20Message(sequence, DeliverV20FromUnified(d)), v);
    } else {
      FittingMessageReads(DeliverV30Message(sequence, DeliverFromUnified(d)), v);
    }
  }

  // The round trip of a mobile-originated Deliver.
  lemma DeliverRoundTrips(d: UnifiedDeliver, sequence: u32, v: CmppVersion)
    ensures (var e := Encode(DeliverMessage(d), sequence, v); e.Ok? && Decode(e.value, v) == Ok(DeliverMessage(d)))
            <==> DeliverWellFormed(d, v)
  {
    hide Encode, Decode, DeliverWellFormed;
    var e := Encode(DeliverMessage(d), sequence, v);
    if e.Ok? && Decode(e.value, v) == Ok(DeliverMessage(d)) {
      DecodedDeliverIsWellFormed(e.value, v);
    }
    if DeliverWellFormed(d, v) {
      CarriedDeliver(d, sequence, v);
    }
  }

  // What CMPP makes of any mobile-originated Deliver.
  function DressedDeliver(d: UnifiedDeliver, v: CmppVersion): (r: UnifiedDeliver) {
    UnifiedDeliver(PlainAddress(d.src.number), PlainAddress(d.dest.number), d.content,
                   EncodingFromFmt(FmtFromEncoding(d.encoding)), d.concat,
                   if v.V20? then Cmpp(DEFAULT_EXTRA.(version := 0x20)) else NoExtra, [])
  }

  lemma DressedDeliverEncodesAlike(d: UnifiedDeliver, sequence: u32, v: CmppVersion)
    requires v.V30? ==> ExtraOf(d.extra).version != 0x20
    ensures Encode(DeliverMessage(DressedDeliver(d, v)), sequence, v) == Encode(DeliverMessage(d), sequence, v)
  {
    EncodingRoundTrip(d.encoding, FmtFromEncoding(d.encoding));
    hide EncodeMessage, FmtFromEncoding, EncodingFromFmt, JoinUdh;
  }

  // Any Deliver at all arrives as that exactly when it fits.
  lemma DeliverArrives(d: UnifiedDeliver, sequence: u32, v: CmppVersion)
    requires v.V30? ==> ExtraOf(d.extra).version != 0x20
    ensures (var e := Encode(DeliverMessage(d), sequence, v); e.Ok? && Decode(e.value, v) == Ok(DeliverMessage(DressedDeliver(d, v))))
            <==> DeliverWellFormed(DressedDeliver(d, v), v)
  {
    hide Encode, Decode, DeliverWellFormed, DressedDeliver;
    DressedDeliverEncodesAlike(d, sequence, v);
    DeliverRoundTrips(DressedDeliver(d, v), sequence, v);
  }

  // Extras of CMPP 2.0 choose its layout, whatever the connection.
  lemma ExtrasChooseVersion(m: UnifiedSubmit, d: UnifiedDeliver, sequence: u32)
    ensures ExtraOf(m.extra).version == 0x20 ==>
              Encode(SubmitMessage(m), sequence, V30) == Encode(SubmitMessage(m), sequence, V20)
    ensures ExtraOf(d.extra).version == 0x20 ==>
              Encode(DeliverMessage(d), sequence, V30) == Encode(DeliverMessage(d), sequence, V20)
  {
    hide EncodeMessage, SubmitFromUnified, SubmitV20FromUnified, DeliverFromUnified, DeliverV20FromUnified;
  }

  // Re-encoding a decoded Deliver drops the fields the unified model has no place for; what is left
  // decodes to the same message, so encoding again gives the same bytes.
  lemma DeliverCanonical(b: Octets, sequence: u32, v: CmppVersion)
    requires Decode(b, v).Ok? && Decode(b, v).value.DeliverMessage?
    ensures var u := Decode(b, v).value;
            && UdhLength(u.deliver.concat) + |u.deliver.content| <= 255
            && Encode(u, sequence, v).Ok?
            && Decode(Encode(u, sequence, v).value, v) == Ok(u)
  {
    DecodedDeliverIsWellFormed(b, v);
    CarriedDeliver(Decode(b, v).value.deliver, sequence, v);
  }

  // What every decoded report satisfies.
  predicate ReportCarriable(r: UnifiedReport, v: CmppVersion) {
    && IsPlain(r.src) && Fits(r.src.number, TerminalWidth(v)) && IsPlain(r.dest) && Fits(r.dest.number, 21)
    && |r.raw| <= 255 && r.msgId.Binary? && |r.msgId.id| == 8
    && var parsed := CmppReport.Parse(r.raw);
       if parsed.Some? then r.msgId.id == parsed.value.msgId && r.status == FromStatCode(parsed.value.stat)
       else r.status == Unknown
  }

  // The length of a receipt: 60 bytes in CMPP 2.0, 71 in CMPP 3.0.
  function ReceiptLength(v: CmppVersion): (n: nat) {
    if v.V20? then 60 else 71
  }

  lemma DecodedReportIsCarriable(b: Octets, v: CmppVersion)
    requires Decode(b, v).Ok? && Decode(b, v).value.ReportMessage?
    ensures ReportCarriable(Decode(b, v).value.report, v)
  {
    hide DecodeMessage, Fits, SplitUdh, EncodingFromFmt, FromStatCode, CmppReport.Parse;
    DecodedFits(b, v);
  }

  // What the encoder sends for a report, and what the decoder makes of it.
  lemma CarriedReport(r: UnifiedReport, sequence: u32, v: CmppVersion)
    requires Fits(r.src.number, TerminalWidth(v)) && Fits(r.dest.number, 21)
    ensures |ReportContent(r, v)| == ReceiptLength(v)
    ensures var e := Encode(ReportMessage(r), sequence, v);
            && e.Ok?
            && Decode(e.value, v) == Ok(ReportToUnified(WireMsgId(r.msgId), r.src.number, r.dest.number, ReportContent(r, v)))
  {
    assert Fits([], 10) && Fits([], 20);
    ReportContentLength(r, v);
    hide DecodeMessage, ReportContent, ReportToUnified, NoTrailingNul, PduFrame, DeliverBody, DeliverV20Body, WireMsgId;
    if v.V20? {
      FittingMessageReads(UnifiedToCmpp(ReportMessage(r), sequence, v).value, v);
    } else {
      FittingMessageReads(UnifiedToCmpp(ReportMessage(r), sequence, v).value, v);
    }
  }

  lemma ReportContentLength(r: UnifiedReport, v: CmppVersion)
    ensures |ReportContent(r, v)| == ReceiptLength(v)
    ensures |r.raw| == ReceiptLength(v) ==> ReportContent(r, v) == r.raw
    ensures |r.raw| != ReceiptLength(v) ==> ReportContent(r, v)[..8] == WireMsgId(r.msgId)
  {
  }

  // The round trip of a report: the receipt must have the version's length, and the state and the
  // message id must be those the receipt gives.
  lemma ReportRoundTrips(r: UnifiedReport, sequence: u32, v: CmppVersion)
    ensures (var e := Encode(ReportMessage(r), sequence, v); e.Ok? && Decode(e.value, v) == Ok(ReportMessage(r)))
            <==> ReportCarriable(r, v) && |r.raw| == ReceiptLength(v)
  {
    hide Encode, Decode;
    var e := Encode(ReportMessage(r), sequence, v);
    if e.Ok? && Decode(e.value, v) == Ok(ReportMessage(r)) {
      DecodedReportIsCarriable(e.value, v);
      CarriedReport(r, sequence, v);
      RawIsContent(r, v);
    }
    if ReportCarriable(r, v) && |r.raw| == ReceiptLength(v) {
      CarriedReport(r, sequence, v);
      ReportContentLength(r, v);
      CarriableReadsBack(r, v);
    }
  }

  lemma RawIsContent(r: UnifiedReport, v: CmppVersion)
    requires ReportToUnified(WireMsgId(r.msgId), r.src.number, r.dest.number, ReportContent(r, v)) == ReportMessage(r)
    ensures r.raw == ReportContent(r, v)
  {
  }

  lemma CarriableReadsBack(r: UnifiedReport, v: CmppVersion)
    requires ReportCarriable(r, v)
    ensures ReportToUnified(WireMsgId(r.msgId), r.src.number, r.dest.number, r.raw) == ReportMessage(r)
  {
  }

  // Re-encoding a decoded report succeeds; a receipt of another length is made anew, and from then
  // on the bytes no longer change, whatever the new receipt says.
  lemma ReportCanonical(b: Octets, sequence: u32, v: CmppVersion)
    requires Decode(b, v).Ok? && Decode(b, v).value.ReportMessage?
    ensures var e := Encode(Decode(b, v).value, sequence, v);
            && e.Ok? && Decode(e.value, v).Ok? && Decode(e.value, v).value.ReportMessage?
            && Encode(Decode(e.value, v).value, sequence, v) == e
            && (|Decode(b, v).value.report.raw| == ReceiptLength(v) ==> Decode(e.value, v) == Decode(b, v))
  {
    var r := Decode(b, v).value.report;
    DecodedReportIsCarriable(b, v);
    CarriedReport(r, sequence, v);
    ReportContentLength(r, v);
    CarriableReadsBack(r, v);
    ReportSettles(r, sequence, v);
  }

  // The report read back from what was sent is sent as the same bytes.
  lemma ReportSettles(r: UnifiedReport, sequence: u32, v: CmppVersion)
    requires ReportCarriable(r, v)
    ensures var r' := ReportToUnified(WireMsgId(r.msgId), r.src.number, r.dest.number, ReportContent(r, v));
            r'.ReportMessage? && Encode(r', sequence, v) == Encode(ReportMessage(r), sequence, v)
  {
    var id, content := WireMsgId(r.msgId), ReportContent(r, v);
    var r' := ReportToUnified(id, r.src.number, r.dest.number, content).report;
    ContentNamesMessage(r, v);
    assert r'.msgId.id == id by {
      hide ReportContent, WireMsgId, FromStatCode, ReportCarriable;
      ParseMsgId(content);
    }
    assert WireMsgId(r'.msgId) == id by {
      assert r'.msgId.id[..8] == r'.msgId.id;
    }
    assert |content| == ReceiptLength(v) && ReportContent(r', v) == content by {
      hide ReportContent, WireMsgId, FromStatCode, ReportCarriable;
      ReportContentLength(r, v);
      ReportContentLength(r', v);
    }
    EncodedAlike(r, r', sequence, v);
  }

  // When the content is a receipt, it opens with the report's message id.
  lemma ContentNamesMessage(r: UnifiedReport, v: CmppVersion)
    requires ReportCarriable(r, v)
    ensures var content := ReportContent(r, v);
            |content| >= 8 && (CmppReport.Parse(content).Some? ==> content[..8] == WireMsgId(r.msgId))
  {
  }

  lemma EncodedAlike(r: UnifiedReport, s: UnifiedReport, sequence: u32, v: CmppVersion)
    requires WireMsgId(r.msgId) == WireMsgId(s.msgId) && ReportContent(r, v) == ReportContent(s, v)
    requires r.src.number == s.src.number && r.dest.number == s.dest.number
    ensures Encode(ReportMessage(r), sequence, v) == Encode(ReportMessage(s), sequence, v)
  {
  }

  lemma ParseMsgId(content: Octets)
    ensures CmppReport.Parse(content).Some? ==> |content| >= 8 && CmppReport.Parse(content).value.msgId == content[..8]
  {
  }

  // A receipt that is made anew, as for every report from another protocol, tells the receiver what the
  // report says: its two addresses always, the first eight bytes of its binary message id, and its state
  // exactly when that fits the receipt. The receipt itself names the source as the terminal.
  lemma ReportMadeAnew(r: UnifiedReport, sequence: u32, v: CmppVersion)
    requires Fits(r.src.number, TerminalWidth(v)) && Fits(r.dest.number, 21) && |r.raw| != ReceiptLength(v)
    ensures var e := Encode(ReportMessage(r), sequence, v);
            && e.Ok? && Decode(e.value, v).Ok? && Decode(e.value, v).value.ReportMessage?
            && var d := Decode(e.value, v).value.report;
               && d.src == PlainAddress(r.src.number) && d.dest == PlainAddress(r.dest.number)
               && d.msgId.Binary? && |d.msgId.id| == 8
               && (forall i :: 0 <= i < 8 ==>
                     d.msgId.id[i] == if r.msgId.Binary? && i < |r.msgId.id| then r.msgId.id[i] else 0)
               && (d.status == r.status <==> CmppReport.StateFits(r.status))
               && (CmppReport.StateFits(r.status) && CmppReport.Plain(r.src.number, 21) ==>
                     CmppReport.Parse(d.raw) ==
                     Some(CmppReport.Report(d.msgId.id, ToStatCode(r.status), [], [], r.src.number, 0)))
  {
    hide Encode, Decode, ReportContent, WireMsgId, CmppReport.ReportBody, CmppReport.Parse, CmppReport.Plain, CmppReport.StateFits,
         FromStatCode, ToStatCode, Fits;
    CarriedReport(r, sequence, v);
    NewReceipt(r, v);
    WireMsgIdIs(r.msgId);
    CmppReport.FilledReads(WireMsgId(r.msgId), r.status, r.src.number, if v.V20? then CmppReport.DEST_V20 else CmppReport.DEST_V30);
  }

  lemma WireMsgIdIs(id: MessageId)
    ensures forall i :: 0 <= i < 8 ==> WireMsgId(id)[i] == if id.Binary? && i < |id.id| then id.id[i] else 0
  {
  }

  lemma NewReceipt(r: UnifiedReport, v: CmppVersion)
    requires |r.raw| != ReceiptLength(v)
    ensures ReportContent(r, v) ==
            CmppReport.ReportBody(CmppReport.Filled(WireMsgId(r.msgId), r.status, r.src.number),
                                  if v.V20? then CmppReport.DEST_V20 else CmppReport.DEST_V30)
  {
    hide CmppReport.ReportBody, WireMsgId, ToStatCode;
  }

  // The responses to Deliver accept: the eight zero bytes and the result zero, in the width of the
  // version, and they are read as what they are.
  lemma DeliverRespAccepts(u: UnifiedMessage, sequence: u32, v: CmppVersion)
    requires u.DeliverRespUnified? || u.ReportRespUnified?
    ensures var e := Encode(u, sequence, v);
            && e.Ok? && DecodeMessage(e.value, v) == Ok(DeliverRespMessage(sequence, v, Resp(Zeros(8), 0)))
            && Decode(e.value, v) == Ok(DeliverRespUnified)
  {
    hide DecodeMessage, PduFrame;
    FittingMessageReads(DeliverRespMessage(sequence, v, Resp(Zeros(8), 0)), v);
  }

  // The number of a command on the wire.
  function WireCommand(u: UnifiedMessage): (n: u32)
    requires !u.SessionMessage?
  {
    match u
    case SubmitMessage(_) => 4
    case SubmitRespUnified(_) => 0x8000_0004
    case DeliverMessage(_) => 5
    case ReportMessage(_) => 5
    case DeliverRespUnified => 0x8000_0005
    case ReportRespUnified => 0x8000_0005
  }

  // The header of whatever is encoded: its true length, the number of its command, and the sequence
  // number that was asked for.
  lemma EncodedHeader(u: UnifiedMessage, sequence: u32, v: CmppVersion)
    requires Encode(u, sequence, v).Ok? && |Encode(u, sequence, v).value| < 0x1_0000_0000
    ensures var b := Encode(u, sequence, v).value;
            !u.SessionMessage? && |b| >= 12 && ReadU32(b, 0) == |b| && ReadU32(b, 4) == WireCommand(u) && ReadU32(b, 8) == sequence
  {
    hide PduFrame, SubmitBody, SubmitV20Body, DeliverBody, DeliverV20Body, RespBody, RespV20Body, SubmitFromUnified,
         SubmitV20FromUnified, DeliverFromUnified, DeliverV20FromUnified, ReportContent, ReadU32, SubmitWithin, SubmitV20Within,
         DeliverWithin, DeliverV20Within;
    var c, body := EncodedAs(u, sequence, v);
    FrameHeader(c, sequence, body);
  }

  lemma EncodedAs(u: UnifiedMessage, sequence: u32, v: CmppVersion) returns (c: CommandId, body: Octets)
    requires Encode(u, sequence, v).Ok?
    ensures !u.SessionMessage? && Raw(c) == WireCommand(u) && Encode(u, sequence, v).value == PduFrame(c, sequence, body)
  {
    hide PduFrame, SubmitBody, SubmitV20Body, DeliverBody, DeliverV20Body, RespBody, RespV20Body, SubmitFromUnified,
         SubmitV20FromUnified, DeliverFromUnified, DeliverV20FromUnified, ReportContent, SubmitWithin, SubmitV20Within,
         DeliverWithin, DeliverV20Within;
    var m := UnifiedToCmpp(u, sequence, v).value;
    if u.SubmitRespUnified? || u.DeliverRespUnified? || u.ReportRespUnified? {
      c := if u.SubmitRespUnified? then SubmitRespId else DeliverRespId;
      body := if v.V20? then RespV20Body(m.resp) else RespBody(m.resp);
    } else {
      c := if u.SubmitMessage? then SubmitId else DeliverId;
      body := EncodeBody(PduOf(m)).value;
    }
  }

  // GSM 7-bit text has no format of its own in CMPP: it is sent as format 0 and arrives as ASCII.
  lemma Gsm7ArrivesAsAscii(m: UnifiedSubmit, sequence: u32, v: CmppVersion)
    requires m.encoding == Gsm7 && Sendable(m, v)
    ensures var e := Encode(SubmitMessage(m), sequence, v);
            && e.Ok? && Decode(e.value, v).Ok? && Decode(e.value, v).value.SubmitMessage?
            && Decode(e.value, v).value.submit.encoding == AsciiText
            && e == Encode(SubmitMessage(m.(encoding := AsciiText)), sequence, v)
  {
    SubmitArrives(m, sequence, v);
    DressedEncodesAlike(m, sequence, v);
    DressedEncodesAlike(m.(encoding := AsciiText), sequence, v);
    assert Dressed(m.(encoding := AsciiText), v) == Dressed(m, v) && Dressed(m, v).encoding == AsciiText;
    hide Encode, Decode, Sendable, Dressed;
  }

  // The round trip of a Submit response: the message id must be eight binary bytes, and a CMPP 2.0
  // status must fit its byte.
  lemma SubmitRespRoundTrips(r: UnifiedSubmitResp, sequence: u32, v: CmppVersion)
    ensures (var e := Encode(SubmitRespUnified(r), sequence, v); e.Ok? && Decode(e.value, v) == Ok(SubmitRespUnified(r)))
            <==> r.msgId.Binary? && |r.msgId.id| == 8 && (v.V20? ==> r.status <= 255)
  {
    var resp := Resp(WireMsgId(r.msgId), r.status);
    var m := SubmitRespMessage(sequence, v, resp);
    var e := Encode(SubmitRespUnified(r), sequence, v);
    if e.Ok? && Decode(e.value, v) == Ok(SubmitRespUnified(r)) {
      DecodedRespFits(e.value, v);
    }
    if r.msgId.Binary? && |r.msgId.id| == 8 && (v.V20? ==> r.status <= 255) {
      assert r.msgId.id[..8] == r.msgId.id;
      hide DecodeMessage, EncodeBody, PduFrame;
      FittingMessageReads(m, v);
    }
  }

  lemma DecodedRespFits(b: Octets, v: CmppVersion)
    requires Decode(b, v).Ok? && Decode(b, v).value.SubmitRespUnified?
    ensures var r := Decode(b, v).value.submitResp; r.msgId.Binary? && |r.msgId.id| == 8 && (v.V20? ==> r.status <= 255)
  {
  }
}
