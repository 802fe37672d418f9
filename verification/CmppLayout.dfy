// The CMPP bodies byte by byte, and which field of the unified model goes where: the tables of the
// protocol, against the code that prints piece after piece.
module CmppLayout {
  import opened Wrappers
  import opened Bytes
  import opened Udh
  import opened Wire
  import opened Status
  import opened CmppFields
  import opened CmppSubmit
  import opened CmppDeliver
  import opened CmppResp
  import opened CmppV20
  import opened CmppCodec
  import opened Unified
  import opened CmppAdapter
  import opened CmppLaws

  // A text of the given width stands at this place.
  predicate TextStands(b: Octets, at: nat, width: nat, v: Octets) {
    at + width <= |b| && TextAt(b, at, width) == v
  }

  lemma {:induction false} TextsStand(b: Octets, from: nat, width: nat, n: nat, i: nat)
    requires from + n * width <= |b| && i < n
    ensures from + i * width + width <= |b| && TextsAt(b, from, width, n)[i] == TextAt(b, from + i * width, width)
  {
    Row(i, n, width);
    if i < n - 1 {
      Row(n - 1, n, width);
      TextsStand(b, from, width, n - 1, i);
    }
  }

  lemma SubmitLayout(s: Submit)
    requires SubmitFits(s) && SubmitWithin(s)
    ensures var b, n, len := SubmitBody(s), |s.destTerminalIds|, |s.msgContent|;
            && |b| == 151 + n * 32 + len
            && b[..8] == s.msgId && b[8] == s.pkTotal && b[9] == s.pkNumber && b[10] == s.registeredDelivery && b[11] == s.msgLevel
            && TextStands(b, 12, 10, s.serviceId) && b[22] == s.feeUserType && TextStands(b, 23, 32, s.feeTerminalId)
            && b[55] == s.feeTerminalType && b[56] == s.tppid && b[57] == s.tpudhi && b[58] == s.msgFmt
            && TextStands(b, 59, 6, s.msgSrc) && TextStands(b, 65, 2, s.feeType) && TextStands(b, 67, 6, s.feeCode)
            && TextStands(b, 73, 17, s.validTime) && TextStands(b, 90, 17, s.atTime) && TextStands(b, 107, 21, s.srcId)
            && b[128] == n && (forall i :: 0 <= i < n ==> TextStands(b, 129 + i * 32, 32, s.destTerminalIds[i]))
            && b[129 + n * 32] == s.destTerminalType && b[130 + n * 32] == len && b[131 + n * 32..131 + n * 32 + len] == s.msgContent
            && TextStands(b, 131 + n * 32 + len, 20, s.linkId)
  {
    SubmitReads(s);
    hide TextAt, SubmitBody, SubmitAt, SubmitSize, TextStands, Fits, AllFit, AllWithin, RoutingFits, SubmitFits, SubmitWithin;
    SubmitHeadStands(SubmitBody(s), s);
    SubmitTailStands(SubmitBody(s), s);
  }

  lemma SubmitHeadStands(b: Octets, s: Submit)
    requires |b| >= SubmitSize(b) && SubmitAt(b) == s
    ensures |b| >= 129
    ensures && b[..8] == s.msgId && b[8] == s.pkTotal && b[9] == s.pkNumber && b[10] == s.registeredDelivery && b[11] == s.msgLevel
            && TextStands(b, 12, 10, s.serviceId) && b[22] == s.feeUserType && TextStands(b, 23, 32, s.feeTerminalId)
            && b[55] == s.feeTerminalType && b[56] == s.tppid && b[57] == s.tpudhi && b[58] == s.msgFmt
            && TextStands(b, 59, 6, s.msgSrc) && TextStands(b, 65, 2, s.feeType) && TextStands(b, 67, 6, s.feeCode)
            && TextStands(b, 73, 17, s.validTime) && TextStands(b, 90, 17, s.atTime) && TextStands(b, 107, 21, s.srcId)
            && b[128] == s.destUsrTl == |s.destTerminalIds|
  {
    hide TextAt, TextsAt;
    assert b[..8] == b[0..8];
  }

  lemma SubmitTailStands(b: Octets, s: Submit)
    requires |b| == SubmitSize(b) && SubmitAt(b) == s
    ensures var n, len := |s.destTerminalIds|, |s.msgContent|;
            && |b| == 151 + n * 32 + len
            && (forall i :: 0 <= i < n ==> TextStands(b, 129 + i * 32, 32, s.destTerminalIds[i]))
            && b[129 + n * 32] == s.destTerminalType && b[130 + n * 32] == len && b[131 + n * 32..131 + n * 32 + len] == s.msgContent
            && TextStands(b, 131 + n * 32 + len, 20, s.linkId)
  {
    hide TextAt, TextsAt, SubmitHeadAt;
    var n := |s.destTerminalIds|;
    forall i | 0 <= i < n ensures TextStands(b, 129 + i * 32, 32, s.destTerminalIds[i]) {
      TextsStand(b, 129, 32, n, i);
    }
  }

  lemma SubmitV20Layout(s: SubmitV20)
    requires SubmitV20Fits(s) && SubmitV20Within(s)
    ensures var b, n, len := SubmitV20Body(s), |s.destTerminalIds|, |s.msgContent|;
            && |b| == 126 + n * 21 + len
            && b[..8] == s.msgId && b[8] == s.pkTotal && b[9] == s.pkNumber && b[10] == s.registeredDelivery && b[11] == s.msgLevel
            && TextStands(b, 12, 10, s.serviceId) && b[22] == s.feeUserType && TextStands(b, 23, 21, s.feeTerminalId)
            && b[44] == s.tppid && b[45] == s.tpudhi && b[46] == s.msgFmt
            && TextStands(b, 47, 6, s.msgSrc) && TextStands(b, 53, 2, s.feeType) && TextStands(b, 55, 6, s.feeCode)
            && TextStands(b, 61, 17, s.validTime) && TextStands(b, 78, 17, s.atTime) && TextStands(b, 95, 21, s.srcId)
            && b[116] == n && (forall i :: 0 <= i < n ==> TextStands(b, 117 + i * 21, 21, s.destTerminalIds[i]))
            && b[117 + n * 21] == len && b[118 + n * 21..118 + n * 21 + len] == s.msgContent
            && b[118 + n * 21 + len..] == s.reserve
  {
    var b, n := SubmitV20Body(s), |s.destTerminalIds|;
    SubmitV20Reads(s);
    hide TextAt, SubmitV20Body, TextsAt, Fits, AllFit, AllWithin, RoutingFits;
    assert SubmitV20At(b).destUsrTl == b[116] && b[..8] == b[0..8];
    forall i | 0 <= i < n ensures TextStands(b, 117 + i * 21, 21, s.destTerminalIds[i]) {
      TextsStand(b, 117, 21, n, i);
    }
  }

  lemma DeliverLayout(d: Deliver)
    requires DeliverFits(d) && DeliverWithin(d)
    ensures var b, len := DeliverBody(d), |d.msgContent|;
            && |b| == 97 + len
            && b[..8] == d.msgId && TextStands(b, 8, 21, d.destId) && TextStands(b, 29, 10, d.serviceId)
            && b[39] == d.tppid && b[40] == d.tpudhi && b[41] == d.msgFmt && TextStands(b, 42, 32, d.srcTerminalId)
            && b[74] == d.srcTerminalType && b[75] == d.registeredDelivery && b[76] == len && b[77..77 + len] == d.msgContent
            && TextStands(b, 77 + len, 20, d.linkId)
  {
    var b := DeliverBody(d);
    DeliverReads(d);
    hide TextAt, DeliverBody, Fits;
    assert b[..8] == b[0..8] && |DeliverAt(b).msgContent| == b[76];
  }

  lemma DeliverV20Layout(d: DeliverV20)
    requires DeliverV20Fits(d) && DeliverV20Within(d)
    ensures var b, len := DeliverV20Body(d), |d.msgContent|;
            && |b| == 73 + len
            && b[..8] == d.msgId && TextStands(b, 8, 21, d.destId) && TextStands(b, 29, 10, d.serviceId)
            && b[39] == d.tppid && b[40] == d.tpudhi && b[41] == d.msgFmt && TextStands(b, 42, 21, d.srcTerminalId)
            && b[63] == d.registeredDelivery && b[64] == len && b[65..65 + len] == d.msgContent && b[65 + len..] == d.reserve
  {
    var b := DeliverV20Body(d);
    DeliverV20Reads(d);
    hide TextAt, DeliverV20Body, Fits;
    assert b[..8] == b[0..8] && |DeliverV20At(b).msgContent| == b[64];
  }

  lemma RespLayout(r: Resp)
    ensures var b := RespBody(r); |b| == 12 && b[..8] == r.msgId && ReadU32(b, 8) == r.result
    ensures var b := RespV20Body(r); |b| == 9 && b[..8] == r.msgId && b[8] == r.result % 256
  {
    WideRoundTrip(r);
    hide BigEndian32, ReadU32;
  }

  // The format numbers of the encodings.
  function Format(e: Encoding): (n: u8) {
    match e
    case OtherEncoding(value) => value
    case AsciiText => 0
    case Gsm7 => 0
    case BinaryData => 4
    case Ucs2 => 8
    case Gbk => 15
  }

  // The header in front of a content, if there is one, and its flag.
  function WithHeader(concat: Option<Concat>, content: Octets): (b: Octets) {
    if concat.Some? then ToUdhPrefix(concat.value) + content else content
  }

  // What the fields of a sendable Submit become on a CMPP 3.0 connection.
  lemma SubmitFields(m: UnifiedSubmit, sequence: u32)
    requires Sendable(m, V30)
    ensures var e, x := Encode(SubmitMessage(m), sequence, V30), ExtraOf(m.extra);
            && e.Ok? && DecodeMessage(e.value, V30).Ok? && DecodeMessage(e.value, V30).value.SubmitV30Message?
            && var s := DecodeMessage(e.value, V30).value.submit;
               && s.srcId == m.src.number && s.destUsrTl == |s.destTerminalIds| == |m.dests|
               && (forall i :: 0 <= i < |m.dests| ==> s.destTerminalIds[i] == m.dests[i].number)
               && s.registeredDelivery == (if m.wantReport then 1 else 0) && s.msgFmt == Format(m.encoding)
               && s.msgContent == WithHeader(m.concat, m.content) && s.tpudhi == (if m.concat.Some? then 1 else x.tpudhi)
               && s.msgId == x.msgId && s.pkTotal == x.pkTotal && s.pkNumber == x.pkNumber && s.msgLevel == x.msgLevel
               && s.serviceId == x.serviceId && s.feeUserType == x.feeUserType && s.feeTerminalId == x.feeTerminalId
               && s.feeTerminalType == x.feeTerminalType && s.tppid == x.tppid && s.msgSrc == x.msgSrc && s.feeType == x.feeType
               && s.feeCode == x.feeCode && s.validTime == x.validTime && s.atTime == x.atTime
               && s.destTerminalType == x.destTerminalType && s.linkId == x.linkId
  {
    var d := Dressed(m, V30);
    DressedEncodesAlike(m, sequence, V30);
    CarriableVersion(d);
    CarriableSubmit(d);
    DressedFields(m);
    hide DecodeMessage, SubmitFits, SubmitWithin, SubmitToUnified, Normalised, PduFrame, SubmitBody, Carriable, ToUdhPrefix, Dressed,
         SubmitFromUnified;
    FittingMessageReads(SubmitV30Message(sequence, SubmitFromUnified(d)), V30);
    assert |SubmitFromUnified(d).destTerminalIds| <= 255 && SubmitFromUnified(d).destUsrTl == |SubmitFromUnified(d).destTerminalIds| by {
      CarriedCount(d);
    }
  }

  lemma CarriedCount(d: UnifiedSubmit)
    requires d.extra.Cmpp? && (Carriable(d, V30) || Carriable(d, V20))
    ensures |d.dests| <= 255 && SubmitFromUnified(d).destUsrTl == |SubmitFromUnified(d).destTerminalIds| == |d.dests|
    ensures SubmitV20FromUnified(d).destUsrTl == |SubmitV20FromUnified(d).destTerminalIds| == |d.dests|
  {
    hide FromUdh, ToUdhPrefix, NoTrailingNul;
  }

  lemma DressedFields(m: UnifiedSubmit)
    ensures var s, x := SubmitFromUnified(Dressed(m, V30)), ExtraOf(m.extra);
            && s.srcId == m.src.number && |s.destTerminalIds| == |m.dests|
            && (forall i :: 0 <= i < |m.dests| ==> s.destTerminalIds[i] == m.dests[i].number)
            && s.registeredDelivery == (if m.wantReport then 1 else 0) && s.msgFmt == Format(m.encoding)
            && s.msgContent == WithHeader(m.concat, m.content) && s.tpudhi == (if m.concat.Some? then 1 else x.tpudhi)
            && s.msgId == x.msgId && s.pkTotal == x.pkTotal && s.pkNumber == x.pkNumber && s.msgLevel == x.msgLevel
            && s.serviceId == x.serviceId && s.feeUserType == x.feeUserType && s.feeTerminalId == x.feeTerminalId
            && s.feeTerminalType == x.feeTerminalType && s.tppid == x.tppid && s.msgSrc == x.msgSrc && s.feeType == x.feeType
            && s.feeCode == x.feeCode && s.validTime == x.validTime && s.atTime == x.atTime
            && s.destTerminalType == x.destTerminalType && s.linkId == x.linkId
  {
    hide ToUdhPrefix;
  }

  // And on a CMPP 2.0 connection, where the reserved bytes are zero.
  lemma SubmitV20Fields(m: UnifiedSubmit, sequence: u32)
    requires Sendable(m, V20)
    ensures var e, x := Encode(SubmitMessage(m), sequence, V20), ExtraOf(m.extra);
            && e.Ok? && DecodeMessage(e.value, V20).Ok? && DecodeMessage(e.value, V20).value.SubmitV20Message?
            && var s := DecodeMessage(e.value, V20).value.submitV20;
               && s.srcId == m.src.number && s.destUsrTl == |s.destTerminalIds| == |m.dests|
               && (forall i :: 0 <= i < |m.dests| ==> s.destTerminalIds[i] == m.dests[i].number)
               && s.registeredDelivery == (if m.wantReport then 1 else 0) && s.msgFmt == Format(m.encoding)
               && s.msgContent == WithHeader(m.concat, m.content) && s.tpudhi == (if m.concat.Some? then 1 else x.tpudhi)
               && s.msgId == x.msgId && s.pkTotal == x.pkTotal && s.pkNumber == x.pkNumber && s.msgLevel == x.msgLevel
               && s.serviceId == x.serviceId && s.feeUserType == x.feeUserType && s.feeTerminalId == x.feeTerminalId
               && s.tppid == x.tppid && s.msgSrc == x.msgSrc && s.feeType == x.feeType && s.feeCode == x.feeCode
               && s.validTime == x.validTime && s.atTime == x.atTime && s.reserve == Zeros(8)
  {
    var d := Dressed(m, V20);
    DressedEncodesAlike(m, sequence, V20);
    CarriableSubmitV20(d);
    DressedV20Fields(m);
    hide DecodeMessage, SubmitV20Fits, SubmitV20Within, SubmitV20ToUnified, Normalised, PduFrame, SubmitV20Body, Carriable, ToUdhPrefix,
         Dressed, SubmitV20FromUnified;
    FittingMessageReads(SubmitV20Message(sequence, SubmitV20FromUnified(d)), V20);
    CarriedCount(d);
  }

  lemma DressedV20Fields(m: UnifiedSubmit)
    ensures var s, x := SubmitV20FromUnified(Dressed(m, V20)), ExtraOf(m.extra);
            && s.srcId == m.src.number && |s.destTerminalIds| == |m.dests|
            && (forall i :: 0 <= i < |m.dests| ==> s.destTerminalIds[i] == m.dests[i].number)
            && s.registeredDelivery == (if m.wantReport then 1 else 0) && s.msgFmt == Format(m.encoding)
            && s.msgContent == WithHeader(m.concat, m.content) && s.tpudhi == (if m.concat.Some? then 1 else x.tpudhi)
            && s.msgId == x.msgId && s.pkTotal == x.pkTotal && s.pkNumber == x.pkNumber && s.msgLevel == x.msgLevel
            && s.serviceId == x.serviceId && s.feeUserType == x.feeUserType && s.feeTerminalId == x.feeTerminalId
            && s.tppid == x.tppid && s.msgSrc == x.msgSrc && s.feeType == x.feeType && s.feeCode == x.feeCode
            && s.validTime == x.validTime && s.atTime == x.atTime && s.reserve == Zeros(8)
  {
    hide ToUdhPrefix;
  }

  // What a mobile-originated Deliver becomes, in either version: its addresses, format and content, and
  // zeros for the rest.
  lemma DeliverFields(d: UnifiedDeliver, sequence: u32, v: CmppVersion)
    requires DeliverWellFormed(d, v)
    ensures var e := Encode(DeliverMessage(d), sequence, v);
            && e.Ok?
            && DecodeMessage(e.value, v) ==
               Ok(if v.V20? then
                    DeliverV20Message(sequence, DeliverV20(Zeros(8), d.dest.number, [], 0, if d.concat.Some? then 1 else 0,
                                                           Format(d.encoding), d.src.number, 0, WithHeader(d.concat, d.content), Zeros(8)))
                  else
                    DeliverV30Message(sequence, Deliver(Zeros(8), d.dest.number, [], 0, if d.concat.Some? then 1 else 0,
                                                        Format(d.encoding), d.src.number, 0, 0, WithHeader(d.concat, d.content), [])))
  {
    WellFormedDeliver(d, v);
    hide DecodeMessage, DeliverWellFormed, DeliverFits, DeliverV20Fits, DeliverWithin, DeliverV20Within, DeliverToUnified,
         DeliverV20ToUnified, PduFrame, DeliverBody, DeliverV20Body, ToUdhPrefix;
    if v.V20? {
      FittingMessageReads(DeliverV20Message(sequence, DeliverV20FromUnified(d)), v);
    } else {
      FittingMessageReads(DeliverV30Message(sequence, DeliverFromUnified(d)), v);
    }
  }

  // Texts that the constants spell in ASCII.
  function Ascii(s: string): (b: Octets)
    requires forall i :: 0 <= i < |s| ==> s[i] as int < 128
    ensures |b| == |s| && forall i :: 0 <= i < |s| ==> b[i] == s[i] as int
  {
    seq(|s|, i requires 0 <= i < |s| => s[i] as int)
  }

  function Letters(s: DeliveryStatus): (letters: string)
    requires !s.Other?
    ensures forall i :: 0 <= i < |letters| ==> letters[i] as int < 128
  {
    match s
    case Delivered => "DELIVRD"
    case Expired => "EXPIRED"
    case Undeliverable => "UNDELIV"
    case Accepted => "ACCEPTD"
    case Rejected => "REJECTD"
    case Unknown => "UNKNOWN"
  }

  // The seven letters that stand for a state in a receipt, both ways.
  lemma StateSpelled(s: DeliveryStatus)
    requires !s.Other?
    ensures ToStatCode(s) == Ascii(Letters(s)) && FromStatCode(Ascii(Letters(s))) == s
  {
    StatCodeRoundTrip(s);
    hide FromStatCode;
  }
}
