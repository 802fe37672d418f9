// What changes on the wire when a PDU is decoded into the unified model and encoded again, as a
// gateway between two CMPP connections of one version does.
module CmppRelay {
  import opened Wrappers
  import opened Bytes
  import opened Udh
  import opened Wire
  import opened CmppFields
  import opened CmppSubmit
  import opened CmppDeliver
  import opened CmppV20
  import opened CmppCodec
  import opened Unified
  import opened CmppAdapter
  import opened CmppLaws

  // A header that is announced and there.
  predicate HeaderSeen(tpUdhi: u8, content: Octets) {
    tpUdhi != 0 && FromUdh(content).Some?
  }

  // The content with its header printed in the shortest form.
  function Reprinted(tpUdhi: u8, content: Octets): (c: Octets) {
    if HeaderSeen(tpUdhi, content) then
      var (concat, off) := FromUdh(content).value;
      ToUdhPrefix(concat) + content[off..]
    else content
  }

  // The flag becomes 1 in front of a header, and otherwise is kept or lost.
  function Flag(tpUdhi: u8, content: Octets, otherwise: u8): (f: u8) {
    if HeaderSeen(tpUdhi, content) then 1 else otherwise
  }

  function RelayedSubmit(s: Submit): (r: Submit) {
    s.(registeredDelivery := if s.registeredDelivery == 0 then 0 else 1, tpudhi := Flag(s.tpudhi, s.msgContent, s.tpudhi),
       msgContent := Reprinted(s.tpudhi, s.msgContent))
  }

  function RelayedSubmitV20(s: SubmitV20): (r: SubmitV20) {
    s.(registeredDelivery := if s.registeredDelivery == 0 then 0 else 1, tpudhi := Flag(s.tpudhi, s.msgContent, s.tpudhi),
       msgContent := Reprinted(s.tpudhi, s.msgContent), reserve := Zeros(8))
  }

  // The unified model has no place for the rest of a mobile-originated Deliver.
  function RelayedDeliver(d: Deliver): (r: Deliver) {
    d.(msgId := Zeros(8), serviceId := [], tppid := 0, tpudhi := Flag(d.tpudhi, d.msgContent, 0), srcTerminalType := 0,
       registeredDelivery := 0, msgContent := Reprinted(d.tpudhi, d.msgContent), linkId := [])
  }

  function RelayedDeliverV20(d: DeliverV20): (r: DeliverV20) {
    d.(msgId := Zeros(8), serviceId := [], tppid := 0, tpudhi := Flag(d.tpudhi, d.msgContent, 0), registeredDelivery := 0,
       msgContent := Reprinted(d.tpudhi, d.msgContent), reserve := Zeros(8))
  }

  // Translating up and down again, field by field.

  lemma Rejoined(tpUdhi: u8, content: Octets, otherwise: u8)
    ensures var (concat, payload) := SplitUdh(tpUdhi, content);
            JoinUdh(concat, payload, otherwise) == (Reprinted(tpUdhi, content), Flag(tpUdhi, content, otherwise))
  {
  }

  lemma SubmitThere(s: Submit)
    requires SubmitFits(s)
    ensures SubmitFromUnified(SubmitToUnified(s)) == RelayedSubmit(s)
  {
    Rejoined(s.tpudhi, s.msgContent, s.tpudhi);
    EncodingRoundTrip(AsciiText, s.msgFmt);
    assert Numbers(Plains(s.destTerminalIds)) == s.destTerminalIds;
    hide SplitUdh, JoinUdh, Reprinted, Flag, EncodingFromFmt, FmtFromEncoding, Fits, AllFit, RoutingFits;
  }

  lemma SubmitV20There(s: SubmitV20)
    requires SubmitV20Fits(s)
    ensures SubmitV20FromUnified(SubmitV20ToUnified(s)) == RelayedSubmitV20(s)
  {
    Rejoined(s.tpudhi, s.msgContent, s.tpudhi);
    EncodingRoundTrip(AsciiText, s.msgFmt);
    assert Numbers(Plains(s.destTerminalIds)) == s.destTerminalIds;
    hide SplitUdh, JoinUdh, Reprinted, Flag, EncodingFromFmt, FmtFromEncoding, Fits, AllFit, RoutingFits;
  }

  lemma DeliverThere(d: Deliver)
    requires d.registeredDelivery != 1
    ensures DeliverToUnified(d).DeliverMessage? && DeliverFromUnified(DeliverToUnified(d).deliver) == RelayedDeliver(d)
  {
    Rejoined(d.tpudhi, d.msgContent, 0);
    EncodingRoundTrip(AsciiText, d.msgFmt);
    hide SplitUdh, JoinUdh, Reprinted, Flag, EncodingFromFmt, FmtFromEncoding;
  }

  lemma DeliverV20There(d: DeliverV20)
    requires d.registeredDelivery != 1
    ensures DeliverV20ToUnified(d).DeliverMessage? && DeliverV20FromUnified(DeliverV20ToUnified(d).deliver) == RelayedDeliverV20(d)
  {
    Rejoined(d.tpudhi, d.msgContent, 0);
    EncodingRoundTrip(AsciiText, d.msgFmt);
    hide SplitUdh, JoinUdh, Reprinted, Flag, EncodingFromFmt, FmtFromEncoding;
  }

  // Submits, and Delivers that are no reports.
  predicate Relayable(m: CmppMessage) {
    match m
    case SubmitV30Message(_, _) => true
    case SubmitV20Message(_, _) => true
    case DeliverV30Message(_, d) => d.registeredDelivery != 1
    case DeliverV20Message(_, d) => d.registeredDelivery != 1
    case _ => false
  }

  function Relayed(m: CmppMessage, sequence: u32): (r: CmppMessage)
    requires Relayable(m)
  {
    match m
    case SubmitV30Message(_, s) => SubmitV30Message(sequence, RelayedSubmit(s))
    case SubmitV20Message(_, s) => SubmitV20Message(sequence, RelayedSubmitV20(s))
    case DeliverV30Message(_, d) => DeliverV30Message(sequence, RelayedDeliver(d))
    case DeliverV20Message(_, d) => DeliverV20Message(sequence, RelayedDeliverV20(d))
  }

  // Translating a decoded message up and down gives the relayed one.
  lemma RelayTranslates(m: CmppMessage, sequence: u32, v: CmppVersion)
    requires OfVersion(m, v) && MessageFits(m) && Relayable(m)
    ensures UnifiedToCmpp(CmppToUnified(m), sequence, v) == Ok(Relayed(m, sequence))
  {
    hide SubmitFits, SubmitV20Fits, SubmitToUnified, SubmitV20ToUnified, SubmitFromUnified, SubmitV20FromUnified,
         DeliverFromUnified, DeliverV20FromUnified, RelayedSubmit, RelayedSubmitV20, RelayedDeliver, RelayedDeliverV20, SplitUdh,
         DeliverFits, DeliverV20Fits;
    match m {
      case SubmitV30Message(_, s) =>
        SubmitThere(s);
        VersionOfSubmit(s);
      case SubmitV20Message(_, s) => SubmitV20There(s);
      case DeliverV30Message(_, d) => DeliverThere(d);
      case DeliverV20Message(_, d) => DeliverV20There(d);
    }
  }

  lemma VersionOfSubmit(s: Submit)
    ensures ExtraOf(SubmitToUnified(s).extra).version == 0x30
  {
  }

  lemma RelayedFits(m: CmppMessage, sequence: u32, v: CmppVersion)
    requires OfVersion(m, v) && MessageFits(m) && Relayable(m)
    ensures var r := Relayed(m, sequence); OfVersion(r, v) && MessageFits(r) && EncodeMessage(r).Ok?
  {
    assert Fits([], 10) && Fits([], 20);
    hide FromUdh, ToUdhPrefix, PduFrame, SubmitBody, SubmitV20Body, DeliverBody, DeliverV20Body, NoTrailingNul;
    match m {
      case SubmitV30Message(_, s) => ReprintedFits(s.tpudhi, s.msgContent);
      case SubmitV20Message(_, s) => ReprintedFits(s.tpudhi, s.msgContent);
      case DeliverV30Message(_, d) => ReprintedFits(d.tpudhi, d.msgContent);
      case DeliverV20Message(_, d) => ReprintedFits(d.tpudhi, d.msgContent);
    }
  }

  lemma ReprintedFits(tpUdhi: u8, content: Octets)
    ensures |Reprinted(tpUdhi, content)| <= |content|
  {
  }

  // On the wire: a PDU that is decoded and encoded again reads as the one that came, except for the
  // delivery flag, the header and its flag, the reserved bytes of CMPP 2.0, and all that a Deliver has
  // besides its addresses, format and content.
  lemma RelayOnTheWire(b: Octets, sequence: u32, v: CmppVersion)
    requires DecodeMessage(b, v).Ok? && Relayable(DecodeMessage(b, v).value)
    ensures var e := Encode(Decode(b, v).value, sequence, v);
            e.Ok? && DecodeMessage(e.value, v) == Ok(Relayed(DecodeMessage(b, v).value, sequence))
  {
    hide DecodeMessage, EncodeMessage, CmppToUnified, UnifiedToCmpp, Relayed, OfVersion, MessageFits, Relayable;
    var m := DecodeMessage(b, v).value;
    DecodedFits(b, v);
    RelayTranslates(m, sequence, v);
    RelayedFits(m, sequence, v);
    RelayedIsModelled(m, sequence);
    FittingMessageReads(Relayed(m, sequence), v);
  }

  lemma RelayedIsModelled(m: CmppMessage, sequence: u32)
    requires Relayable(m)
    ensures !Relayed(m, sequence).OtherMessage? && Relayed(m, sequence).sequenceId == sequence
  {
  }

  // What is in order already: a flag of 0 or 1, and a header, if one is seen, in the shortest form
  // under the flag 1.
  predicate Settled(tpUdhi: u8, content: Octets, registeredDelivery: u8) {
    && registeredDelivery <= 1
    && (HeaderSeen(tpUdhi, content) ==>
          && tpUdhi == 1
          && var (concat, off) := FromUdh(content).value; content[..off] == ToUdhPrefix(concat))
  }

  // Exactly the PDUs in order pass unchanged.
  lemma RelayUnchangedIff(s: Submit, t: SubmitV20)
    ensures RelayedSubmit(s) == s <==> Settled(s.tpudhi, s.msgContent, s.registeredDelivery)
    ensures RelayedSubmitV20(t) == t <==> Settled(t.tpudhi, t.msgContent, t.registeredDelivery) && t.reserve == Zeros(8)
  {
    if FromUdh(s.msgContent).Some? {
      CanonicalPrefix(s.msgContent);
    }
    if FromUdh(t.msgContent).Some? {
      CanonicalPrefix(t.msgContent);
    }
    hide FromUdh, ToUdhPrefix;
  }

  // One hop settles a message: the next ones change nothing but the sequence number.
  lemma RelaySettles(m: CmppMessage, first: u32, next: u32)
    requires Relayable(m)
    ensures Relayable(Relayed(m, first)) && Relayed(Relayed(m, first), next) == Relayed(m, next)
  {
    hide FromUdh, ToUdhPrefix, Zeros, Reprinted, Flag;
    match m {
      case SubmitV30Message(_, s) => ReprintSettles(s.tpudhi, s.msgContent, s.tpudhi);
      case SubmitV20Message(_, s) => ReprintSettles(s.tpudhi, s.msgContent, s.tpudhi);
      case DeliverV30Message(_, d) => ReprintSettles(d.tpudhi, d.msgContent, 0);
      case DeliverV20Message(_, d) => ReprintSettles(d.tpudhi, d.msgContent, 0);
    }
  }

  lemma ReprintSettles(tpUdhi: u8, content: Octets, otherwise: u8)
    requires otherwise == tpUdhi || otherwise == 0
    ensures var f, c := Flag(tpUdhi, content, otherwise), Reprinted(tpUdhi, content);
            && Reprinted(f, c) == c
            && (otherwise == tpUdhi ==> Flag(f, c, f) == f)
            && (otherwise == 0 ==> Flag(f, c, 0) == f)
  {
    if HeaderSeen(tpUdhi, content) {
      CanonicalPrefix(content);
    }
    hide FromUdh, ToUdhPrefix;
  }
}
