// The translation between CMPP messages and the unified model, in both protocol versions.
module CmppAdapter {
  import opened Wrappers
  import opened Bytes
  import opened Udh
  import opened Wire
  import opened Status
  import opened CmppFields
  import opened CmppSubmit
  import opened CmppDeliver
  import opened CmppResp
  import opened CmppV20
  import opened CmppCodec
  import opened Unified
  import CmppReport

  function EncodingFromFmt(fmt: u8): (e: Encoding) {
    if fmt == 0 then AsciiText
    else if fmt == 4 then BinaryData
    else if fmt == 8 then Ucs2
    else if fmt == 15 then Gbk
    else OtherEncoding(fmt)
  }

  function FmtFromEncoding(e: Encoding): (fmt: u8) {
    match e
    case AsciiText => 0
    case Gsm7 => 0
    case BinaryData => 4
    case Ucs2 => 8
    case Gbk => 15
    case OtherEncoding(v) => v
  }

  // An encoding that CMPP tells apart from every other.
  predicate CanonicalEncoding(e: Encoding) {
    e != Gsm7 && (e.OtherEncoding? ==> e.value !in {0, 4, 8, 15})
  }

  lemma EncodingRoundTrip(e: Encoding, fmt: u8)
    ensures EncodingFromFmt(FmtFromEncoding(e)) == e <==> CanonicalEncoding(e)
    ensures FmtFromEncoding(EncodingFromFmt(fmt)) == fmt && CanonicalEncoding(EncodingFromFmt(fmt))
  {
  }

  // split_udh: the header is stripped only when the flag announces one and there is one.
  function SplitUdh(tpUdhi: u8, content: Octets): (r: (Option<Concat>, Octets)) {
    if tpUdhi != 0 && FromUdh(content).Some? then
      var (c, off) := FromUdh(content).value;
      (Some(c), content[off..])
    else (None, content)
  }

  // join_udh
  function JoinUdh(concat: Option<Concat>, content: Octets, tpUdhi: u8): (r: (Octets, u8)) {
    match concat
    case Some(c) => (ToUdhPrefix(c) + content, 1)
    case None => (content, tpUdhi)
  }

  // What split_udh can return for the flag: with no header there was none to be seen.
  predicate UdhConsistent(concat: Option<Concat>, content: Octets, tpUdhi: u8) {
    concat.None? ==> tpUdhi == 0 || FromUdh(content).None?
  }

  function UdhLength(concat: Option<Concat>): (n: nat) {
    if concat.Some? then |ToUdhPrefix(concat.value)| else 0
  }

  // Stripping undoes prepending, and what was stripped never grows when it is prepended again.
  lemma UdhRoundTrip(concat: Option<Concat>, content: Octets, tpUdhi: u8)
    requires UdhConsistent(concat, content, tpUdhi)
    ensures var (body, flag) := JoinUdh(concat, content, tpUdhi);
            SplitUdh(flag, body) == (concat, content) && |body| == UdhLength(concat) + |content|
  {
  }

  lemma SplitShrinks(tpUdhi: u8, content: Octets)
    ensures var (concat, payload) := SplitUdh(tpUdhi, content);
            UdhConsistent(concat, payload, tpUdhi) && UdhLength(concat) + |payload| <= |content|
  {
  }

  function Numbers(addresses: seq<Address>): (ns: seq<Octets>)
    ensures |ns| == |addresses| && forall i :: 0 <= i < |ns| ==> ns[i] == addresses[i].number
  {
    seq(|addresses|, i requires 0 <= i < |addresses| => addresses[i].number)
  }

  function Plains(ns: seq<Octets>): (addresses: seq<Address>)
    ensures |addresses| == |ns| && forall i :: 0 <= i < |ns| ==> addresses[i] == PlainAddress(ns[i])
  {
    seq(|ns|, i requires 0 <= i < |ns| => PlainAddress(ns[i]))
  }

  function SubmitToUnified(s: Submit): (m: UnifiedSubmit) {
    var (concat, content) := SplitUdh(s.tpudhi, s.msgContent);
    UnifiedSubmit(
      PlainAddress(s.srcId), Plains(s.destTerminalIds), content, EncodingFromFmt(s.msgFmt), s.registeredDelivery != 0, concat,
      Cmpp(CmppExtra(
        s.msgId, s.pkTotal, s.pkNumber, s.msgLevel, s.serviceId, s.feeUserType, s.feeTerminalId, s.feeTerminalType,
        s.tppid, s.tpudhi, s.msgSrc, s.feeType, s.feeCode, s.validTime, s.atTime, s.destTerminalType, s.linkId, 0x30)),
      [])
  }

  function SubmitV20ToUnified(s: SubmitV20): (m: UnifiedSubmit) {
    var (concat, content) := SplitUdh(s.tpudhi, s.msgContent);
    UnifiedSubmit(
      PlainAddress(s.srcId), Plains(s.destTerminalIds), content, EncodingFromFmt(s.msgFmt), s.registeredDelivery != 0, concat,
      Cmpp(CmppExtra(
        s.msgId, s.pkTotal, s.pkNumber, s.msgLevel, s.serviceId, s.feeUserType, s.feeTerminalId, 0,
        s.tppid, s.tpudhi, s.msgSrc, s.feeType, s.feeCode, s.validTime, s.atTime, 0, [], 0x20)),
      [])
  }

  // The part of deliver_v30_to_unified and deliver_v20_to_unified that reads a receipt: its message id
  // and state come from the content, and from the envelope when the content is no receipt.
  function ReportToUnified(msgId: Array8, src: Octets, dest: Octets, content: Octets): (m: UnifiedMessage) {
    var parsed := CmppReport.Parse(content);
    ReportMessage(UnifiedReport(
      Binary(if parsed.Some? then parsed.value.msgId else msgId),
      if parsed.Some? then FromStatCode(parsed.value.stat) else Unknown,
      PlainAddress(src), PlainAddress(dest), content))
  }

  function DeliverToUnified(d: Deliver): (m: UnifiedMessage) {
    if d.registeredDelivery == 1 then ReportToUnified(d.msgId, d.srcTerminalId, d.destId, d.msgContent)
    else
      var (concat, content) := SplitUdh(d.tpudhi, d.msgContent);
      DeliverMessage(UnifiedDeliver(PlainAddress(d.srcTerminalId), PlainAddress(d.destId), content, EncodingFromFmt(d.msgFmt),
                                    concat, NoExtra, []))
  }

  function DeliverV20ToUnified(d: DeliverV20): (m: UnifiedMessage) {
    if d.registeredDelivery == 1 then ReportToUnified(d.msgId, d.srcTerminalId, d.destId, d.msgContent)
    else
      var (concat, content) := SplitUdh(d.tpudhi, d.msgContent);
      DeliverMessage(UnifiedDeliver(PlainAddress(d.srcTerminalId), PlainAddress(d.destId), content, EncodingFromFmt(d.msgFmt),
                                    concat, Cmpp(DEFAULT_EXTRA.(version := 0x20)), []))
  }

  function CmppToUnified(m: CmppMessage): (u: UnifiedMessage) {
    match m
    case SubmitV30Message(_, s) => SubmitMessage(SubmitToUnified(s))
    case SubmitV20Message(_, s) => SubmitMessage(SubmitV20ToUnified(s))
    case SubmitRespMessage(_, _, r) => SubmitRespUnified(UnifiedSubmitResp(Binary(r.msgId), r.result))
    case DeliverV30Message(_, d) => DeliverToUnified(d)
    case DeliverV20Message(_, d) => DeliverV20ToUnified(d)
    case DeliverRespMessage(_, _, _) => DeliverRespUnified
    case OtherMessage(_, _, c, _) => SessionMessage(Raw(c))
  }

  function ExtraOf(e: ProtocolExtra): (x: CmppExtra) {
    if e.Cmpp? then e.extra else DEFAULT_EXTRA
  }

  function SubmitFromUnified(m: UnifiedSubmit): (s: Submit) {
    var x := ExtraOf(m.extra);
    var (body, tpudhi) := JoinUdh(m.concat, m.content, x.tpudhi);
    Submit(
      x.msgId, x.pkTotal, x.pkNumber, if m.wantReport then 1 else 0, x.msgLevel, x.serviceId, x.feeUserType,
      x.feeTerminalId, x.feeTerminalType, x.tppid, tpudhi, FmtFromEncoding(m.encoding), x.msgSrc, x.feeType, x.feeCode,
      x.validTime, x.atTime, m.src.number, Low8(|m.dests|), Numbers(m.dests), x.destTerminalType, body, x.linkId)
  }

  function SubmitV20FromUnified(m: UnifiedSubmit): (s: SubmitV20) {
    var x := ExtraOf(m.extra);
    var (body, tpudhi) := JoinUdh(m.concat, m.content, x.tpudhi);
    SubmitV20(
      x.msgId, x.pkTotal, x.pkNumber, if m.wantReport then 1 else 0, x.msgLevel, x.serviceId, x.feeUserType,
      x.feeTerminalId, x.tppid, tpudhi, FmtFromEncoding(m.encoding), x.msgSrc, x.feeType, x.feeCode,
      x.validTime, x.atTime, m.src.number, Low8(|m.dests|), Numbers(m.dests), body, Zeros(8))
  }

  // The first eight bytes of a binary message id, padded; a textual id becomes zeros.
  function WireMsgId(id: MessageId): (b: Array8) {
    match id
    case Binary(b) => if |b| >= 8 then b[..8] else Pad(b, 8)
    case Text(_) => Zeros(8)
  }

  // The closure report_body: a receipt of the version's length passes, any other is made anew.
  function ReportContent(r: UnifiedReport, v: CmppVersion): (b: Octets) {
    var width := if v.V20? then CmppReport.DEST_V20 else CmppReport.DEST_V30;
    if |r.raw| == 39 + width then r.raw
    else CmppReport.ReportBody(CmppReport.Report(WireMsgId(r.msgId), ToStatCode(r.status), [], [], r.src.number, 0), width)
  }

  function DeliverFromUnified(d: UnifiedDeliver): (r: Deliver) {
    var (body, tpudhi) := JoinUdh(d.concat, d.content, 0);
    Deliver(Zeros(8), d.dest.number, [], 0, tpudhi, FmtFromEncoding(d.encoding), d.src.number, 0, 0, body, [])
  }

  function DeliverV20FromUnified(d: UnifiedDeliver): (r: DeliverV20) {
    var (body, tpudhi) := JoinUdh(d.concat, d.content, 0);
    DeliverV20(Zeros(8), d.dest.number, [], 0, tpudhi, FmtFromEncoding(d.encoding), d.src.number, 0, body, Zeros(8))
  }

  datatype AdapterError = Codec(error: CodecError) | Unsupported

  function UnifiedToCmpp(u: UnifiedMessage, sequence: u32, v: CmppVersion): (r: Result<CmppMessage, AdapterError>) {
    match u
    case SubmitMessage(m) =>
      Ok(if v == V20 || ExtraOf(m.extra).version == 0x20 then SubmitV20Message(sequence, SubmitV20FromUnified(m))
         else SubmitV30Message(sequence, SubmitFromUnified(m)))
    case SubmitRespUnified(m) => Ok(SubmitRespMessage(sequence, v, Resp(WireMsgId(m.msgId), m.status)))
    case DeliverRespUnified => Ok(DeliverRespMessage(sequence, v, Resp(Zeros(8), 0)))
    case ReportRespUnified => Ok(DeliverRespMessage(sequence, v, Resp(Zeros(8), 0)))
    case DeliverMessage(d) =>
      Ok(if v == V20 || ExtraOf(d.extra).version == 0x20 then DeliverV20Message(sequence, DeliverV20FromUnified(d))
         else DeliverV30Message(sequence, DeliverFromUnified(d)))
    case ReportMessage(m) =>
      Ok(if v == V20 then
           DeliverV20Message(sequence, DeliverV20(WireMsgId(m.msgId), m.dest.number, [], 0, 0, 0, m.src.number, 1,
                                                  ReportContent(m, V20), Zeros(8)))
         else
           DeliverV30Message(sequence, Deliver(WireMsgId(m.msgId), m.dest.number, [], 0, 0, 0, m.src.number, 0, 1,
                                               ReportContent(m, V30), [])))
    case SessionMessage(_) => Err(Unsupported)
  }

  // CmppAdapter::encode_with_version and decode_with_version
  function Encode(u: UnifiedMessage, sequence: u32, v: CmppVersion): (r: Result<Octets, AdapterError>) {
    var m :- UnifiedToCmpp(u, sequence, v);
    match EncodeMessage(m)
    case Ok(b) => Ok(b)
    case Err(e) => Err(Codec(e))
  }

  function Decode(pdu: Octets, v: CmppVersion): (r: Result<UnifiedMessage, AdapterError>) {
    match DecodeMessage(pdu, v)
    case Ok(m) => Ok(CmppToUnified(m))
    case Err(e) => Err(Codec(e))
  }

  method EncodeWithVersion(u: UnifiedMessage, sequence: u32, wire: Option<u8>) returns (r: Result<Octets, AdapterError>)
    ensures r == Encode(u, sequence, VersionOf(wire))
  {
    hide UnifiedToCmpp, EncodeMessage;
    var m :- UnifiedToCmpp(u, sequence, VersionOf(wire));
    var b := MessageEncode(m);
    match b {
      case Ok(bytes) => r := Ok(bytes);
      case Err(e) => r := Err(Codec(e));
    }
  }

  method DecodeWithVersion(pdu: Octets, wire: Option<u8>) returns (r: Result<UnifiedMessage, AdapterError>)
    ensures r == Decode(pdu, VersionOf(wire))
  {
    hide DecodeMessage, CmppToUnified;
    var m := DecodeMessageWithVersion(pdu, wire);
    match m {
      case Ok(msg) => r := Ok(CmppToUnified(msg));
      case Err(e) => r := Err(Codec(e));
    }
  }
}
