// The CMPP header, the decoder registry and the version-dispatched message codec.
module CmppCodec {
  import opened Wrappers
  import opened Bytes
  import opened Wire
  import opened CmppFields
  import opened CmppSubmit
  import opened CmppDeliver
  import opened CmppResp
  import opened CmppV20

  const MAX_PDU_SIZE := 65536

  datatype CmppVersion = V20 | V30

  // CmppVersion::from_wire, with V30 for an absent or unknown byte
  function VersionOf(wire: Option<u8>): (v: CmppVersion) {
    if wire.Some? && wire.value in {0x20, 0x00, 0x01} then V20 else V30
  }

  function ToU8(v: CmppVersion): (b: u8) {
    if v.V20? then 0x20 else 0x30
  }

  // What the peers agree on: each version's own byte names it, the bytes of old clients mean CMPP 2.0,
  // and whatever else was negotiated, or nothing, means CMPP 3.0.
  lemma VersionNegotiated(v: CmppVersion, wire: Option<u8>)
    ensures VersionOf(Some(ToU8(v))) == v
    ensures VersionOf(wire).V20? <==> wire == Some(0x20) || wire == Some(0x00) || wire == Some(0x01)
    ensures wire.None? ==> VersionOf(wire) == V30
  {
  }

  datatype CommandId =
    | Connect | ConnectResp | Terminate | TerminateResp | SubmitId | SubmitRespId | DeliverId | DeliverRespId
    | Query | QueryResp | Cancel | CancelResp | ActiveTest | ActiveTestResp

  function Raw(c: CommandId): (n: u32) {
    match c
    case Connect => 0x0000_0001
    case ConnectResp => 0x8000_0001
    case Terminate => 0x0000_0002
    case TerminateResp => 0x8000_0002
    case SubmitId => 0x0000_0004
    case SubmitRespId => 0x8000_0004
    case DeliverId => 0x0000_0005
    case DeliverRespId => 0x8000_0005
    case Query => 0x0000_0006
    case QueryResp => 0x8000_0006
    case Cancel => 0x0000_0007
    case CancelResp => 0x8000_0007
    case ActiveTest => 0x0000_0008
    case ActiveTestResp => 0x8000_0008
  }

  // CommandId::try_from
  function CommandOf(n: u32): (c: Option<CommandId>)
    ensures c.Some? ==> Raw(c.value) == n
    ensures c.None? ==> forall k :: Raw(k) != n
  {
    if n == 1 then Some(Connect)
    else if n == 0x8000_0001 then Some(ConnectResp)
    else if n == 2 then Some(Terminate)
    else if n == 0x8000_0002 then Some(TerminateResp)
    else if n == 4 then Some(SubmitId)
    else if n == 0x8000_0004 then Some(SubmitRespId)
    else if n == 5 then Some(DeliverId)
    else if n == 0x8000_0005 then Some(DeliverRespId)
    else if n == 6 then Some(Query)
    else if n == 0x8000_0006 then Some(QueryResp)
    else if n == 7 then Some(Cancel)
    else if n == 0x8000_0007 then Some(CancelResp)
    else if n == 8 then Some(ActiveTest)
    else if n == 0x8000_0008 then Some(ActiveTestResp)
    else None
  }

  lemma RawInjective(a: CommandId, b: CommandId)
    ensures Raw(a) == Raw(b) ==> a == b
    ensures CommandOf(Raw(a)) == Some(a)
  {
  }

  datatype PduHeader = PduHeader(totalLength: u32, commandId: CommandId, sequenceId: u32)

  function DecodeHeader(b: Octets): (r: Result<PduHeader, CodecError>)
    ensures r.Ok? ==> |b| >= HEADER_SIZE && HEADER_SIZE <= r.value.totalLength <= MAX_PDU_SIZE
  {
    if |b| < HEADER_SIZE then Err(Incomplete)
    else
      var total, id := ReadU32(b, 0), ReadU32(b, 4);
      if CommandOf(id).None? then Err(InvalidCommandId(id))
      else if total < HEADER_SIZE || total > MAX_PDU_SIZE then Err(InvalidPduLength(total, HEADER_SIZE, MAX_PDU_SIZE))
      else Ok(PduHeader(total, CommandOf(id).value, ReadU32(b, 8)))
  }

  // codec.rs: PduHeader::decode
  method HeaderDecode(buf: Cursor) returns (r: Result<PduHeader, CodecError>)
    requires buf.Valid() && buf.pos == 0
    modifies buf
    ensures buf.Valid() && r == DecodeHeader(buf.data)
    ensures r.Ok? ==> buf.pos == HEADER_SIZE
  {
    hide ReadU32, CommandOf;
    if |buf.data| - buf.pos < HEADER_SIZE {
      return Err(Incomplete);
    }
    var total := buf.GetU32();
    if total.None? { return Err(Incomplete); }
    var raw := buf.GetU32();
    if raw.None? { return Err(Incomplete); }
    var command := CommandOf(raw.value);
    if command.None? { return Err(InvalidCommandId(raw.value)); }
    var sequence := buf.GetU32();
    if sequence.None? { return Err(Incomplete); }
    if total.value < HEADER_SIZE {
      return Err(InvalidPduLength(total.value, HEADER_SIZE, MAX_PDU_SIZE));
    }
    if total.value > MAX_PDU_SIZE {
      return Err(InvalidPduLength(total.value, HEADER_SIZE, MAX_PDU_SIZE));
    }
    r := Ok(PduHeader(total.value, command.value, sequence.value));
  }

  // A header is accepted exactly when it is there, names a command, and announces between 12 and 65536
  // bytes; what it says is then what stands in it, and otherwise the first of these is reported.
  lemma HeaderDecides(b: Octets)
    ensures var r := DecodeHeader(b);
            && (|b| < 12 ==> r == Err(Incomplete))
            && (|b| >= 12 && (forall c :: Raw(c) != ReadU32(b, 4)) ==> r == Err(InvalidCommandId(ReadU32(b, 4))))
            && (forall c :: |b| >= 12 && Raw(c) == ReadU32(b, 4) ==>
                  r == if 12 <= ReadU32(b, 0) <= 65536 then Ok(PduHeader(ReadU32(b, 0), c, ReadU32(b, 8)))
                       else Err(InvalidPduLength(ReadU32(b, 0), 12, 65536)))
  {
    forall c | |b| >= 12 && Raw(c) == ReadU32(b, 4) ensures CommandOf(ReadU32(b, 4)) == Some(c) {
      RawInjective(c, c);
    }
    hide ReadU32, CommandOf, Raw;
  }

  // A decoded body. The bodies of the commands under Other are not part of this model.
  datatype Pdu =
    | PduSubmit(submit: Submit)
    | PduSubmitV20(submitV20: SubmitV20)
    | PduDeliver(deliver: Deliver)
    | PduDeliverV20(deliverV20: DeliverV20)
    | PduSubmitResp(resp: Resp)
    | PduDeliverResp(resp: Resp)
    | PduOther(command: CommandId, body: Octets)

  // The decode functions that can be registered.
  datatype Decoder =
    | ForSubmit | ForSubmitV20 | ForDeliver | ForDeliverV20
    | ForSubmitResp | ForSubmitRespV20 | ForDeliverResp | ForDeliverRespV20
    | ForConnectRespV20 | ForOther(command: CommandId)

  // F::command_id()
  function CommandFor(d: Decoder): (c: CommandId) {
    match d
    case ForSubmit => SubmitId
    case ForSubmitV20 => SubmitId
    case ForDeliver => DeliverId
    case ForDeliverV20 => DeliverId
    case ForSubmitResp => SubmitRespId
    case ForSubmitRespV20 => SubmitRespId
    case ForDeliverResp => DeliverRespId
    case ForDeliverRespV20 => DeliverRespId
    case ForConnectRespV20 => ConnectResp
    case ForOther(command) => command
  }

  // F::decode followed by into()
  function RunDecoder(d: Decoder, h: PduHeader, body: Octets): (r: Result<Pdu, CodecError>) {
    match d
    case ForSubmit => (var s :- DecodeSubmit(h.totalLength, body); Ok(PduSubmit(s)))
    case ForSubmitV20 => (var s :- DecodeSubmitV20(h.totalLength, body); Ok(PduSubmitV20(s)))
    case ForDeliver => (var s :- DecodeDeliver(h.totalLength, body); Ok(PduDeliver(s)))
    case ForDeliverV20 => (var s :- DecodeDeliverV20(h.totalLength, body); Ok(PduDeliverV20(s)))
    case ForSubmitResp => (var s :- DecodeResp(h.totalLength, body); Ok(PduSubmitResp(s)))
    case ForSubmitRespV20 => (var s :- DecodeRespV20(h.totalLength, body); Ok(PduSubmitResp(s)))
    case ForDeliverResp => (var s :- DecodeResp(h.totalLength, body); Ok(PduDeliverResp(s)))
    case ForDeliverRespV20 => (var s :- DecodeRespV20(h.totalLength, body); Ok(PduDeliverResp(s)))
    case ForConnectRespV20 => Ok(PduOther(ConnectResp, body))
    case ForOther(command) => Ok(PduOther(command, body))
  }

  // The decoder a connection of the given version is meant to use for a command.
  function DecoderFor(v: CmppVersion, c: CommandId): (d: Decoder) {
    match c
    case SubmitId => if v.V20? then ForSubmitV20 else ForSubmit
    case DeliverId => if v.V20? then ForDeliverV20 else ForDeliver
    case SubmitRespId => if v.V20? then ForSubmitRespV20 else ForSubmitResp
    case DeliverRespId => if v.V20? then ForDeliverRespV20 else ForDeliverResp
    case ConnectResp => if v.V20? then ForConnectRespV20 else ForOther(ConnectResp)
    case _ => ForOther(c)
  }

  function With(m: map<CommandId, Decoder>, d: Decoder): (n: map<CommandId, Decoder>) {
    m[CommandFor(d) := d]
  }

  // The entries in the order they are registered; both versions start with the CMPP 3.0 responses.
  function Opening(): (m: map<CommandId, Decoder>) {
    var m := With(map[], ForOther(Connect));
    var m := With(m, ForOther(ConnectResp));
    var m := With(m, ForOther(Terminate));
    var m := With(m, ForOther(TerminateResp));
    var m := With(m, ForSubmitResp);
    With(m, ForDeliverResp)
  }

  function Common(): (m: map<CommandId, Decoder>) {
    var m := With(Opening(), ForOther(Query));
    var m := With(m, ForOther(QueryResp));
    var m := With(m, ForOther(Cancel));
    var m := With(m, ForOther(CancelResp));
    var m := With(m, ForOther(ActiveTest));
    With(m, ForOther(ActiveTestResp))
  }

  function Registered(v: CmppVersion): (m: map<CommandId, Decoder>) {
    if v.V20? then
      var m := With(Common(), ForSubmitV20);
      var m := With(m, ForDeliverV20);
      var m := With(m, ForSubmitRespV20);
      var m := With(m, ForDeliverRespV20);
      With(m, ForConnectRespV20)
    else
      var m := With(Common(), ForSubmit);
      With(m, ForDeliver)
  }

  lemma WithAt(m: map<CommandId, Decoder>, d: Decoder, c: CommandId) returns (n: map<CommandId, Decoder>)
    ensures n == With(m, d)
    ensures c in n <==> c == CommandFor(d) || c in m
    ensures c in n ==> n[c] == if c == CommandFor(d) then d else m[c]
  {
    n := With(m, d);
  }

  lemma OpeningFor(c: CommandId)
    ensures c in Opening() <==> c in {Connect, ConnectResp, Terminate, TerminateResp, SubmitRespId, DeliverRespId}
    ensures c in Opening() ==> Opening()[c] == DecoderFor(V30, c)
  {
  }

  lemma CommonFor(c: CommandId)
    ensures c != SubmitId && c != DeliverId ==> c in Common() && Common()[c] == DecoderFor(V30, c)
  {
    hide With, Opening;
    OpeningFor(c);
    var m1 := WithAt(Opening(), ForOther(Query), c);
    var m2 := WithAt(m1, ForOther(QueryResp), c);
    var m3 := WithAt(m2, ForOther(Cancel), c);
    var m4 := WithAt(m3, ForOther(CancelResp), c);
    var m5 := WithAt(m4, ForOther(ActiveTest), c);
    var m6 := WithAt(m5, ForOther(ActiveTestResp), c);
  }

  // Later registrations replace earlier ones, so that the registry of each version knows every
  // command and holds the decoder of that version for it.
  lemma RegistryComplete(v: CmppVersion, c: CommandId)
    ensures c in Registered(v) && Registered(v)[c] == DecoderFor(v, c)
  {
    hide Common, With;
    CommonFor(c);
    if v.V20? {
      var m1 := WithAt(Common(), ForSubmitV20, c);
      var m2 := WithAt(m1, ForDeliverV20, c);
      var m3 := WithAt(m2, ForSubmitRespV20, c);
      var m4 := WithAt(m3, ForDeliverRespV20, c);
      var m5 := WithAt(m4, ForConnectRespV20, c);
    } else {
      var m1 := WithAt(Common(), ForSubmit, c);
      var m2 := WithAt(m1, ForDeliver, c);
    }
  }

  // registry.rs: decoders by command; a later registration replaces an earlier one. The program keys
  // the map with the command's number, which is one to one (RawInjective).
  class PduRegistry {
    const version: CmppVersion
    var entries: map<CommandId, Decoder>

    constructor (version: CmppVersion)
      ensures this.version == version && entries == Registered(version)
    {
      this.version, entries := version, map[];
      new;
      RegisterAllPdus();
    }

    method Register(d: Decoder)
      modifies this
      ensures entries == With(old(entries), d)
    {
      entries := entries[CommandFor(d) := d];
    }

    method RegisterAllPdus()
      requires entries == map[]
      modifies this
      ensures entries == Registered(version)
    {
      hide With;
      Register(ForOther(Connect));
      Register(ForOther(ConnectResp));
      Register(ForOther(Terminate));
      Register(ForOther(TerminateResp));
      Register(ForSubmitResp);
      Register(ForDeliverResp);
      Register(ForOther(Query));
      Register(ForOther(QueryResp));
      Register(ForOther(Cancel));
      Register(ForOther(CancelResp));
      Register(ForOther(ActiveTest));
      Register(ForOther(ActiveTestResp));
      match version {
        case V20 =>
          Register(ForSubmitV20);
          Register(ForDeliverV20);
          Register(ForSubmitRespV20);
          Register(ForDeliverRespV20);
          Register(ForConnectRespV20);
        case V30 =>
          Register(ForSubmit);
          Register(ForDeliver);
      }
    }

    method Dispatch(h: PduHeader, body: Octets) returns (r: Result<Pdu, CodecError>)
      requires entries == Registered(version)
      ensures r == RunDecoder(DecoderFor(version, h.commandId), h, body)
    {
      hide RunDecoder, DecoderFor, Registered;
      RegistryComplete(version, h.commandId);
      if h.commandId !in entries {
        return Err(InvalidCommandId(Raw(h.commandId)));
      }
      r := Run(entries[h.commandId], h, body);
    }
  }

  method Run(d: Decoder, h: PduHeader, body: Octets) returns (r: Result<Pdu, CodecError>)
    ensures r == RunDecoder(d, h, body)
  {
    match d {
      case ForSubmit =>
        var s :- SubmitDecode(h.totalLength, body);
        r := Ok(PduSubmit(s));
      case ForSubmitV20 =>
        var s :- SubmitV20Decode(h.totalLength, body);
        r := Ok(PduSubmitV20(s));
      case ForDeliver =>
        var s :- DeliverDecode(h.totalLength, body);
        r := Ok(PduDeliver(s));
      case ForDeliverV20 =>
        var s :- DeliverV20Decode(h.totalLength, body);
        r := Ok(PduDeliverV20(s));
      case _ =>
        r := RunDecoder(d, h, body);
    }
  }

  datatype CmppMessage =
    | SubmitV20Message(sequenceId: u32, submitV20: SubmitV20)
    | SubmitV30Message(sequenceId: u32, submit: Submit)
    | DeliverV20Message(sequenceId: u32, deliverV20: DeliverV20)
    | DeliverV30Message(sequenceId: u32, deliver: Deliver)
    | SubmitRespMessage(sequenceId: u32, version: CmppVersion, resp: Resp)
    | DeliverRespMessage(sequenceId: u32, version: CmppVersion, resp: Resp)
    | OtherMessage(sequenceId: u32, version: CmppVersion, command: CommandId, body: Octets)

  function ToMessage(p: Pdu, v: CmppVersion, sequence: u32): (m: CmppMessage) {
    match p
    case PduSubmit(s) => SubmitV30Message(sequence, s)
    case PduSubmitV20(s) => SubmitV20Message(sequence, s)
    case PduDeliver(d) => DeliverV30Message(sequence, d)
    case PduDeliverV20(d) => DeliverV20Message(sequence, d)
    case PduSubmitResp(r) => SubmitRespMessage(sequence, v, r)
    case PduDeliverResp(r) => DeliverRespMessage(sequence, v, r)
    case PduOther(c, body) => OtherMessage(sequence, v, c, body)
  }

  function DecodeMessage(pdu: Octets, v: CmppVersion): (r: Result<CmppMessage, CodecError>) {
    var h :- DecodeHeader(pdu);
    var p :- RunDecoder(DecoderFor(v, h.commandId), h, pdu[HEADER_SIZE..]);
    Ok(ToMessage(p, v, h.sequenceId))
  }

  // message.rs: decode_message_with_version
  method DecodeMessageWithVersion(pdu: Octets, wire: Option<u8>) returns (r: Result<CmppMessage, CodecError>)
    ensures r == DecodeMessage(pdu, VersionOf(wire))
  {
    hide RunDecoder, DecodeHeader;
    var version := VersionOf(wire);
    var registry := new PduRegistry(version);
    var cursor := new Cursor(pdu);
    var header :- HeaderDecode(cursor);
    var decoded :- registry.Dispatch(header, pdu[HEADER_SIZE..]);
    r := Ok(ToMessage(decoded, version, header.sequenceId));
  }

  // A whole frame: header and body.
  function PduFrame(c: CommandId, sequence: u32, body: Octets): (b: Octets) {
    BigEndian32(Low32(HEADER_SIZE + |body|)) + BigEndian32(Raw(c)) + BigEndian32(sequence) + body
  }

  // The body of a PDU, or the error that makes to_pdu_bytes panic.
  function EncodeBody(p: Pdu): (r: Result<Octets, CodecError>) {
    match p
    case PduSubmit(s) => if SubmitWithin(s) then Ok(SubmitBody(s)) else Err(FieldValidation(SubmitError(s)))
    case PduSubmitV20(s) => if SubmitV20Within(s) then Ok(SubmitV20Body(s)) else Err(SubmitV20Error(s))
    case PduDeliver(d) => if DeliverWithin(d) then Ok(DeliverBody(d)) else Err(FieldValidation(DeliverError(d)))
    case PduDeliverV20(d) => if DeliverV20Within(d) then Ok(DeliverV20Body(d)) else Err(DeliverV20Error(d))
    case PduSubmitResp(r) => Ok(RespBody(r))
    case PduDeliverResp(r) => Ok(RespBody(r))
    case PduOther(_, body) => Ok(body)
  }

  function CommandOfPdu(p: Pdu): (c: CommandId) {
    match p
    case PduSubmit(_) => SubmitId
    case PduSubmitV20(_) => SubmitId
    case PduDeliver(_) => DeliverId
    case PduDeliverV20(_) => DeliverId
    case PduSubmitResp(_) => SubmitRespId
    case PduDeliverResp(_) => DeliverRespId
    case PduOther(c, _) => c
  }

  method PutBody(p: Pdu, buf: BytesMut) returns (r: Result<(), CodecError>)
    requires buf.Valid() && buf.body == []
    modifies buf
    ensures buf.Valid() && buf.base == old(buf.base)
    ensures match EncodeBody(p)
            case Ok(body) => r == Ok(()) && buf.body == body
            case Err(e) => r == Err(e)
  {
    match p {
      case PduSubmit(s) => r := SubmitEncode(s, buf);
      case PduSubmitV20(s) => r := SubmitV20Encode(s, buf);
      case PduDeliver(d) => r := DeliverEncode(d, buf);
      case PduDeliverV20(d) => r := DeliverV20Encode(d, buf);
      case PduSubmitResp(resp) => r := PutResp(resp, buf);
      case PduDeliverResp(resp) => r := PutResp(resp, buf);
      case PduOther(_, body) =>
        buf.PutSlice(body);
        assert [] + body == body;
        r := Ok(());
    }
  }

  method PutResp(resp: Resp, buf: BytesMut) returns (r: Result<(), CodecError>)
    requires buf.Valid() && buf.body == []
    modifies buf
    ensures buf.Valid() && buf.base == old(buf.base)
    ensures r == Ok(()) && buf.body == RespBody(resp)
  {
    buf.PutSlice(resp.msgId);
    assert buf.body == resp.msgId;
    buf.PutU32(resp.result);
    r := Ok(());
  }

  // codec.rs: Pdu::to_pdu_bytes. Room for the header is reserved, the body is written, the header is
  // patched in. An encoding error is a panic in the program; here it is returned.
  method ToPduBytes(p: Pdu, sequence: u32) returns (r: Result<Octets, CodecError>)
    ensures r == match EncodeBody(p)
                 case Ok(body) => Ok(PduFrame(CommandOfPdu(p), sequence, body))
                 case Err(e) => Err(e)
  {
    hide BigEndian32, EncodeBody, Low32;
    var buf := new BytesMut(12);
    var done :- PutBody(p, buf);
    var total := Low32(|buf.data|);
    ghost var zeros := buf.base;
    buf.Patch(0, BigEndian32(total));
    buf.Patch(4, BigEndian32(Raw(CommandOfPdu(p))));
    buf.Patch(8, BigEndian32(sequence));
    PatchedHeader(zeros, BigEndian32(total), BigEndian32(Raw(CommandOfPdu(p))), BigEndian32(sequence));
    r := Ok(buf.data);
  }

  lemma PatchedHeader(zeros: Octets, a: Octets, b: Octets, c: Octets)
    requires |zeros| == 12 && |a| == |b| == |c| == 4
    ensures var one := zeros[..0] + a + zeros[4..];
            var two := one[..4] + b + one[8..];
            two[..8] + c + two[12..] == a + b + c
  {
  }

  // Which messages encode_message writes in the narrow CMPP 2.0 form.
  function EncodeMessage(m: CmppMessage): (r: Result<Octets, CodecError>) {
    match m
    case SubmitRespMessage(sequence, V20, resp) => Ok(PduFrame(SubmitRespId, sequence, RespV20Body(resp)))
    case DeliverRespMessage(sequence, V20, resp) => Ok(PduFrame(DeliverRespId, sequence, RespV20Body(resp)))
    case _ =>
      var body :- EncodeBody(PduOf(m));
      Ok(PduFrame(CommandOfPdu(PduOf(m)), m.sequenceId, body))
  }

  function PduOf(m: CmppMessage): (p: Pdu) {
    match m
    case SubmitV20Message(_, s) => PduSubmitV20(s)
    case SubmitV30Message(_, s) => PduSubmit(s)
    case DeliverV20Message(_, d) => PduDeliverV20(d)
    case DeliverV30Message(_, d) => PduDeliver(d)
    case SubmitRespMessage(_, _, r) => PduSubmitResp(r)
    case DeliverRespMessage(_, _, r) => PduDeliverResp(r)
    case OtherMessage(_, _, c, body) => PduOther(c, body)
  }

  // message.rs: encode_v20_pdu, for the narrow responses
  method EncodeV20Pdu(c: CommandId, sequence: u32, resp: Resp) returns (b: Octets)
    ensures b == PduFrame(c, sequence, RespV20Body(resp))
  {
    hide BigEndian32;
    var buf := new BytesMut(0);
    buf.PutU32(HEADER_SIZE + RESP_V20_BODY);
    assert buf.body == BigEndian32(HEADER_SIZE + RESP_V20_BODY);
    buf.PutU32(Raw(c));
    buf.PutU32(sequence);
    ghost var header := buf.body;
    buf.PutSlice(resp.msgId);
    buf.PutU8(Low8(resp.result));
    assert header + resp.msgId + [Low8(resp.result)] == header + RespV20Body(resp);
    assert Zeros(0) + buf.body == buf.body;
    b := buf.data;
  }

  // message.rs: encode_message
  method MessageEncode(m: CmppMessage) returns (r: Result<Octets, CodecError>)
    ensures r == EncodeMessage(m)
  {
    hide EncodeBody, PduFrame;
    match m {
      case SubmitRespMessage(sequence, V20, resp) =>
        var b := EncodeV20Pdu(SubmitRespId, sequence, resp);
        return Ok(b);
      case DeliverRespMessage(sequence, V20, resp) =>
        var b := EncodeV20Pdu(DeliverRespId, sequence, resp);
        return Ok(b);
      case _ =>
        r := ToPduBytes(PduOf(m), m.sequenceId);
    }
  }

  // A frame's header reads back and its body stands behind it, unless the frame is too long.
  // A frame that has been cut off is refused, whatever it holds.
  lemma TruncatedRefused(pdu: Octets, v: CmppVersion)
    requires DecodeHeader(pdu).Ok? && |pdu| < DecodeHeader(pdu).value.totalLength
    requires DecodeHeader(pdu).value.commandId in {SubmitId, SubmitRespId, DeliverId, DeliverRespId}
    ensures DecodeMessage(pdu, v).Err?
    ensures DecodeHeader(pdu).value.commandId in {SubmitId, DeliverId} ==> DecodeMessage(pdu, v) == Err(Incomplete)
  {
    hide DecodeHeader, SubmitAt, SubmitV20At, DeliverAt, DeliverV20At, SubmitSize, SubmitV20Size, DeliverSize, DeliverV20Size;
    assert |pdu| >= HEADER_SIZE;
  }

  lemma FrameHeader(c: CommandId, sequence: u32, body: Octets)
    ensures var b := PduFrame(c, sequence, body);
            && |b| == HEADER_SIZE + |body| && b[HEADER_SIZE..] == body
            && ReadU32(b, 0) == Low32(|b|) && ReadU32(b, 4) == Raw(c) && ReadU32(b, 8) == sequence
  {
    hide BigEndian32, ReadU32, CommandOf;
    var whole := PduFrame(c, sequence, body);
    var total := BigEndian32(Low32(HEADER_SIZE + |body|));
    assert whole[..4] == total && whole[0..4] == whole[..4];
    Piece(total, BigEndian32(Raw(c)), whole);
    Piece(total + BigEndian32(Raw(c)), BigEndian32(sequence), whole);
    ReadU32Print(Low32(HEADER_SIZE + |body|), whole, 0);
    ReadU32Print(Raw(c), whole, 4);
    ReadU32Print(sequence, whole, 8);
  }

  lemma FrameReads(c: CommandId, sequence: u32, body: Octets)
    requires HEADER_SIZE + |body| <= MAX_PDU_SIZE
    ensures DecodeHeader(PduFrame(c, sequence, body)) == Ok(PduHeader(HEADER_SIZE + |body|, c, sequence))
    ensures PduFrame(c, sequence, body)[HEADER_SIZE..] == body
  {
    hide PduFrame, ReadU32, CommandOf;
    FrameHeader(c, sequence, body);
    RawInjective(c, c);
  }

  // Whether a message is of the form a connection of the given version decodes.
  predicate OfVersion(m: CmppMessage, v: CmppVersion) {
    match m
    case SubmitV20Message(_, _) => v.V20?
    case SubmitV30Message(_, _) => v.V30?
    case DeliverV20Message(_, _) => v.V20?
    case DeliverV30Message(_, _) => v.V30?
    case SubmitRespMessage(_, w, _) => v == w
    case DeliverRespMessage(_, w, _) => v == w
    case OtherMessage(_, w, _, _) => v == w
  }

  // A message that survives the wire.
  predicate MessageFits(m: CmppMessage) {
    match m
    case SubmitV20Message(_, s) => SubmitV20Fits(s)
    case SubmitV30Message(_, s) => SubmitFits(s)
    case DeliverV20Message(_, d) => DeliverV20Fits(d)
    case DeliverV30Message(_, d) => DeliverFits(d)
    case SubmitRespMessage(_, v, r) => v.V20? ==> r.result <= 255
    case DeliverRespMessage(_, v, r) => v.V20? ==> r.result <= 255
    case OtherMessage(_, _, _, _) => true
  }

  // Whatever is decoded is of the connection's version and fits the wire.
  lemma DecodedFits(b: Octets, v: CmppVersion)
    requires DecodeMessage(b, v).Ok?
    ensures OfVersion(DecodeMessage(b, v).value, v) && MessageFits(DecodeMessage(b, v).value)
  {
    hide DecodeHeader, SubmitAt, SubmitV20At, DeliverAt, DeliverV20At, SubmitFits, SubmitV20Fits, DeliverFits, DeliverV20Fits,
         SubmitSize, SubmitV20Size, DeliverSize, DeliverV20Size, ReadU32;
    var h := DecodeHeader(b).value;
    var body := b[HEADER_SIZE..];
    match DecoderFor(v, h.commandId) {
      case ForSubmit => SubmitAtFits(body);
      case ForSubmitV20 => SubmitV20AtFits(body);
      case ForDeliver => DeliverAtFits(body);
      case ForDeliverV20 => DeliverV20AtFits(body);
      case _ =>
    }
  }

  // How a connection of version v reads the frame around a body.
  lemma FrameDecodes(c: CommandId, sequence: u32, body: Octets, v: CmppVersion)
    requires HEADER_SIZE + |body| <= MAX_PDU_SIZE
    ensures var h := PduHeader(HEADER_SIZE + |body|, c, sequence);
            DecodeMessage(PduFrame(c, sequence, body), v) ==
              match RunDecoder(DecoderFor(v, c), h, body)
              case Ok(p) => Ok(ToMessage(p, v, sequence))
              case Err(e) => Err(e)
  {
    hide DecodeHeader, RunDecoder, PduFrame, DecoderFor;
    FrameReads(c, sequence, body);
  }

  // A message that can be encoded is decoded again by a connection of its version exactly when it
  // fits the wire.
  lemma MessageRoundTrip(m: CmppMessage, v: CmppVersion)
    requires OfVersion(m, v) && !m.OtherMessage? && EncodeMessage(m).Ok?
    ensures DecodeMessage(EncodeMessage(m).value, v) == Ok(m) <==> MessageFits(m)
  {
    if DecodeMessage(EncodeMessage(m).value, v) == Ok(m) {
      DecodedFits(EncodeMessage(m).value, v);
    }
    if MessageFits(m) {
      FittingMessageReads(m, v);
    }
  }

  lemma FittingMessageReads(m: CmppMessage, v: CmppVersion)
    requires OfVersion(m, v) && !m.OtherMessage? && EncodeMessage(m).Ok? && MessageFits(m)
    ensures DecodeMessage(EncodeMessage(m).value, v) == Ok(m)
  {
    hide DecodeMessage, PduFrame, SubmitBody, SubmitV20Body, DeliverBody, DeliverV20Body, RespBody, RespV20Body,
         SubmitAt, SubmitV20At, DeliverAt, DeliverV20At, DecodeResp, DecodeRespV20;
    match m {
      case SubmitV20Message(n, s) =>
        SubmitV20Reads(s);
        FrameDecodes(SubmitId, n, SubmitV20Body(s), v);
      case SubmitV30Message(n, s) =>
        SubmitReads(s);
        FrameDecodes(SubmitId, n, SubmitBody(s), v);
      case DeliverV20Message(n, d) =>
        DeliverV20Reads(d);
        FrameDecodes(DeliverId, n, DeliverV20Body(d), v);
      case DeliverV30Message(n, d) =>
        DeliverReads(d);
        FrameDecodes(DeliverId, n, DeliverBody(d), v);
      case SubmitRespMessage(n, _, r) => RespReads(SubmitRespId, n, r, v);
      case DeliverRespMessage(n, _, r) => RespReads(DeliverRespId, n, r, v);
    }
  }

  // A frame as the byte stream is cut into: its length stands in front and is within bounds.
  predicate IsFrame(b: Octets) {
    HEADER_SIZE <= |b| <= MAX_PDU_SIZE && ReadU32(b, 0) == |b|
  }

  lemma PduFrameIsFrame(c: CommandId, sequence: u32, body: Octets)
    requires HEADER_SIZE + |body| <= MAX_PDU_SIZE
    ensures IsFrame(PduFrame(c, sequence, body))
  {
    FrameReads(c, sequence, body);
    hide ReadU32, BigEndian32;
  }

  // Every message that fits the wire is encoded into one.
  lemma FittingMessageIsFrame(m: CmppMessage)
    requires !m.OtherMessage? && EncodeMessage(m).Ok? && MessageFits(m)
    ensures IsFrame(EncodeMessage(m).value)
  {
    hide PduFrame, SubmitBody, SubmitV20Body, DeliverBody, DeliverV20Body, RespBody, RespV20Body, IsFrame,
         SubmitAt, SubmitV20At, DeliverAt, DeliverV20At;
    match m {
      case SubmitV20Message(n, s) =>
        SubmitV20Reads(s);
        PduFrameIsFrame(SubmitId, n, SubmitV20Body(s));
      case SubmitV30Message(n, s) =>
        SubmitReads(s);
        PduFrameIsFrame(SubmitId, n, SubmitBody(s));
      case DeliverV20Message(n, d) =>
        DeliverV20Reads(d);
        PduFrameIsFrame(DeliverId, n, DeliverV20Body(d));
      case DeliverV30Message(n, d) =>
        DeliverReads(d);
        PduFrameIsFrame(DeliverId, n, DeliverBody(d));
      case SubmitRespMessage(n, v, r) => RespIsFrame(SubmitRespId, n, r, v);
      case DeliverRespMessage(n, v, r) => RespIsFrame(DeliverRespId, n, r, v);
    }
  }

  lemma RespIsFrame(c: CommandId, sequence: u32, r: Resp, v: CmppVersion)
    ensures IsFrame(PduFrame(c, sequence, RespBody(r)))
    ensures r.result <= 255 ==> IsFrame(PduFrame(c, sequence, RespV20Body(r)))
  {
    assert |RespBody(r)| == 12 && |RespV20Body(r)| == 9;
    hide PduFrame, RespBody, RespV20Body, IsFrame;
    PduFrameIsFrame(c, sequence, RespBody(r));
    PduFrameIsFrame(c, sequence, RespV20Body(r));
  }

  lemma RespReads(c: CommandId, sequence: u32, r: Resp, v: CmppVersion)
    requires (c == SubmitRespId || c == DeliverRespId) && (v.V20? ==> r.result <= 255)
    ensures DecodeMessage(PduFrame(c, sequence, if v.V20? then RespV20Body(r) else RespBody(r)), v) ==
            Ok(if c == SubmitRespId then SubmitRespMessage(sequence, v, r) else DeliverRespMessage(sequence, v, r))
  {
    RespRoundTrip(r);
    var body := if v.V20? then RespV20Body(r) else RespBody(r);
    assert |body| <= 12;
    hide DecodeMessage, PduFrame, RespBody, RespV20Body, DecodeResp, DecodeRespV20;
    FrameDecodes(c, sequence, body, v);
  }

  // A response of the other version is never taken for one of ours: its length gives it away.
  lemma VersionsNeverMix(c: CommandId, sequence: u32, r: Resp)
    requires c == SubmitRespId || c == DeliverRespId
    ensures DecodeMessage(PduFrame(c, sequence, RespBody(r)), V20) == Err(InvalidPduLength(24, 21, 21))
    ensures DecodeMessage(PduFrame(c, sequence, RespV20Body(r)), V30) == Err(InvalidPduLength(21, 24, 24))
  {
    assert |RespBody(r)| == 12 && |RespV20Body(r)| == 9;
    hide DecodeMessage, PduFrame, RespBody, RespV20Body;
    FrameDecodes(c, sequence, RespBody(r), V20);
    FrameDecodes(c, sequence, RespV20Body(r), V30);
  }
}
