// The protocol-independent message model.
module Unified {
  import opened Wrappers
  import opened Bytes
  import opened Udh
  import opened Status
  import opened CmppFields

  datatype Encoding = Gsm7 | AsciiText | Ucs2 | Gbk | BinaryData | OtherEncoding(value: u8)

  datatype Address = Address(number: Octets, ton: Option<u8>, npi: Option<u8>)

  function PlainAddress(number: Octets): (a: Address) {
    Address(number, None, None)
  }

  predicate IsPlain(a: Address) {
    a.ton.None? && a.npi.None?
  }

  datatype CmppExtra = CmppExtra(
    msgId: Array8,
    pkTotal: u8,
    pkNumber: u8,
    msgLevel: u8,
    serviceId: Octets,
    feeUserType: u8,
    feeTerminalId: Octets,
    feeTerminalType: u8,
    tppid: u8,
    tpudhi: u8,
    msgSrc: Octets,
    feeType: Octets,
    feeCode: Octets,
    validTime: Octets,
    atTime: Octets,
    destTerminalType: u8,
    linkId: Octets,
    version: u8
  )

  // CmppExtra::default()
  const DEFAULT_EXTRA := CmppExtra(Zeros(8), 0, 0, 0, [], 0, [], 0, 0, 0, [], [], [], [], [], 0, [], 0)

  // The dialects of SMGP, SMPP and SGIP are not part of this model; CMPP treats them all alike.
  datatype ProtocolExtra = NoExtra | ForeignExtra | Cmpp(extra: CmppExtra)

  datatype Tlv = Tlv(tag: u16, value: Octets)

  datatype MessageId = Binary(id: Octets) | Text(text: Octets)

  datatype UnifiedSubmit = UnifiedSubmit(
    src: Address,
    dests: seq<Address>,
    content: Octets,
    encoding: Encoding,
    wantReport: bool,
    concat: Option<Concat>,
    extra: ProtocolExtra,
    tlvs: seq<Tlv>
  )

  datatype UnifiedSubmitResp = UnifiedSubmitResp(msgId: MessageId, status: u32)

  datatype UnifiedDeliver = UnifiedDeliver(
    src: Address,
    dest: Address,
    content: Octets,
    encoding: Encoding,
    concat: Option<Concat>,
    extra: ProtocolExtra,
    tlvs: seq<Tlv>
  )

  datatype UnifiedReport = UnifiedReport(
    msgId: MessageId,
    status: DeliveryStatus,
    src: Address,
    dest: Address,
    raw: Octets
  )

  // Session messages and queries are not part of this model beyond their command.
  datatype UnifiedMessage =
    | SubmitMessage(submit: UnifiedSubmit)
    | SubmitRespUnified(submitResp: UnifiedSubmitResp)
    | DeliverMessage(deliver: UnifiedDeliver)
    | DeliverRespUnified
    | ReportRespUnified
    | ReportMessage(report: UnifiedReport)
    | SessionMessage(command: u32)
}
