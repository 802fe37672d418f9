// A long message from end to end: split, one CMPP Submit per segment, over a byte stream cut into
// reads at will, framed, decoded, the header rebuilt, merged. The steps between the crates are those
// of the example client and server.
module Pipeline {
  import opened Wrappers
  import opened Bytes
  import opened Udh
  import Split
  import opened Unified
  import CmppCodec
  import CmppAdapter
  import CmppFields
  import CmppLaws
  import Framing
  import opened Merge
  import opened Reassembly
  import MergerRuns
  import Wire

  // The sending side: a frame becomes a header and a bare payload of an otherwise common Submit.
  function SegmentSubmit(common: UnifiedSubmit, f: LongMessageFrame): (m: UnifiedSubmit) {
    if f.hasUdhi then
      common.(concat := Some(Concat(f.referenceId, f.totalSegments, f.segmentNumber)), content := StripUdh(f.content))
    else
      common.(concat := None, content := f.content)
  }

  function SegmentPdu(common: UnifiedSubmit, f: LongMessageFrame, sequence: u32, v: CmppCodec.CmppVersion): (pdu: Octets) {
    match CmppAdapter.Encode(SubmitMessage(SegmentSubmit(common, f)), sequence, v)
    case Ok(b) => b
    case Err(_) => []
  }

  // The receiving side takes the first destination for the sender, and gives a Submit with a header
  // to the merger.
  function Phone(m: UnifiedSubmit): (s: string) {
    if m.dests == [] then "unknown" else Chars(m.dests[0].number)
  }

  function Chars(b: Octets): (s: string) {
    seq(|b|, i requires 0 <= i < |b| => b[i] as char)
  }

  function Handle(u: UnifiedMessage, now: nat): (ev: Option<Event>) {
    match u
    case SubmitMessage(m) =>
      (match m.concat
       case None => None
       case Some(c) =>
         Some(Event(Phone(m), LongMessageFrame(c.reference, c.total, c.sequence, ToUdhPrefix(c) + m.content, true, None), now)))
    case _ => None
  }

  function Received(pdu: Octets, now: nat, v: CmppCodec.CmppVersion): (ev: Option<Event>)
    ensures ev.Some? ==> ev.value.now == now
  {
    match CmppAdapter.Decode(pdu, v)
    case Ok(u) => Handle(u, now)
    case Err(_) => None
  }

  // The common part of the segments: a Submit that could be sent with no content at all.
  predicate Template(common: UnifiedSubmit, v: CmppCodec.CmppVersion) {
    CmppLaws.Sendable(common.(concat := None, content := []), v)
  }

  lemma TemplateCarries(common: UnifiedSubmit, concat: Option<Concat>, payload: Octets, v: CmppCodec.CmppVersion)
    requires Template(common, v) && CmppAdapter.UdhLength(concat) + |payload| <= 255
    requires CmppAdapter.UdhConsistent(concat, payload, CmppAdapter.ExtraOf(common.extra).tpudhi)
    ensures CmppLaws.Sendable(common.(concat := concat, content := payload), v)
  {
    hide CmppLaws.DestsFit, CmppAdapter.CanonicalEncoding, FromUdh, CmppAdapter.Numbers, CmppAdapter.Plains,
         CmppAdapter.EncodingFromFmt, CmppAdapter.FmtFromEncoding, ToUdhPrefix, Wire.NoTrailingNul;
  }

  // The message of the example client, its account and its phone number in the texts of either version.
  function ClientSubmit(account: Octets, phone: Octets, encoding: Encoding, concat: Option<Concat>, content: Octets): (m: UnifiedSubmit) {
    UnifiedSubmit(PlainAddress(account), [PlainAddress(phone)], content, encoding, true, concat,
                  Cmpp(DEFAULT_EXTRA.(feeTerminalId := phone)), [])
  }

  lemma ClientSubmitSendable(account: Octets, phone: Octets, encoding: Encoding, concat: Option<Concat>, content: Octets,
                             v: CmppCodec.CmppVersion)
    ensures CmppLaws.Sendable(ClientSubmit(account, phone, encoding, concat, content), v) <==>
            Wire.Fits(account, 21) && Wire.Fits(phone, CmppLaws.TerminalWidth(v)) && CmppAdapter.UdhLength(concat) + |content| <= 255
  {
    CmppAdapter.EncodingRoundTrip(encoding, CmppAdapter.FmtFromEncoding(encoding));
    hide CmppAdapter.FmtFromEncoding, CmppAdapter.EncodingFromFmt, CmppAdapter.CanonicalEncoding, FromUdh, ToUdhPrefix;
    var m := ClientSubmit(account, phone, encoding, concat, content);
    var d := CmppLaws.Dressed(m, v);
    assert Wire.Fits([], 10) && Wire.Fits([], 6) && Wire.Fits([], 2) && Wire.Fits([], 17) && Wire.Fits([], 20);
    assert d.dests[0] == PlainAddress(phone) && d.extra.extra.tpudhi == 0;
  }

  // A frame of the splitter arrives byte for byte, in both versions and under any sequence number, for
  // the receiver that was addressed first; its PDU is a frame of the byte stream.
  lemma FrameSurvivesWire(common: UnifiedSubmit, reference: u16, total: u8, number: u8, segment: Octets, sequence: u32, now: nat,
                          v: CmppCodec.CmppVersion)
    requires Template(common, v)
    requires |Split.BuildFrame(reference, total, number, segment).content| <= 255
    ensures var f := Split.BuildFrame(reference, total, number, segment);
            var pdu := SegmentPdu(common, f, sequence, v);
            CmppCodec.IsFrame(pdu) && Received(pdu, now, v) == Some(Event(Phone(common), f.(udh := None), now))
  {
    var f := Split.BuildFrame(reference, total, number, segment);
    var c := Concat(reference, total, number);
    Split.FrameBytes(reference, total, number, segment);
    assert f.hasUdhi && StripUdh(f.content) == segment;
    assert f.referenceId == reference && f.totalSegments == total && f.segmentNumber == number;
    hide Split.BuildFrame, ToUdhPrefix, CmppAdapter.Encode, CmppAdapter.Decode, CmppLaws.Sendable, CmppLaws.Dressed, StripUdh,
         Template, CmppCodec.IsFrame, Phone;
    TemplateCarries(common, Some(c), segment, v);
    var m := SegmentSubmit(common, f);
    CmppLaws.SubmitArrives(m, sequence, v);
    CmppLaws.SendableIsFrame(m, sequence, v);
    ArrivesFor(m, v);
    assert Phone(m) == Phone(common) by {
      assert m.dests == common.dests;
    }
  }

  // Different phone numbers are different senders to the merger.
  lemma PhoneSeparates(m: UnifiedSubmit, n: UnifiedSubmit)
    requires m.dests != [] && n.dests != []
    ensures Phone(m) == Phone(n) <==> m.dests[0].number == n.dests[0].number
  {
    var a, b := m.dests[0].number, n.dests[0].number;
    if Chars(a) == Chars(b) {
      forall i | 0 <= i < |a| ensures a[i] == b[i] {
        assert Chars(a)[i] == Chars(b)[i];
        assert (a[i] as char) as int == a[i] && (b[i] as char) as int == b[i];
      }
    }
  }

  // The framers read from an encoded PDU the numbers the codec wrote, so a response comes back under the
  // sequence number of its request.
  lemma FramerReadsHeader(u: UnifiedMessage, sequence: u32, v: CmppCodec.CmppVersion)
    requires CmppAdapter.Encode(u, sequence, v).Ok? && |CmppAdapter.Encode(u, sequence, v).value| < 0x1_0000_0000
    ensures !u.SessionMessage? && |CmppAdapter.Encode(u, sequence, v).value| >= 12
    ensures var b := CmppAdapter.Encode(u, sequence, v).value;
            var f := Framing.Frame(CmppLaws.WireCommand(u), sequence, b);
            Framing.ExtractHeader(b, 8) == f && Framing.ServerHeader(b, 8) == f
  {
    CmppLaws.EncodedHeader(u, sequence, v);
    hide CmppAdapter.Encode, ReadU32, CmppLaws.WireCommand;
  }

  // What arrives has the same header, content and receiver.
  lemma ArrivesFor(m: UnifiedSubmit, v: CmppCodec.CmppVersion)
    ensures var d := CmppLaws.Normalised(CmppLaws.Dressed(m, v));
            d.concat == m.concat && d.content == m.content && Phone(d) == Phone(m)
  {
    hide CmppAdapter.FmtFromEncoding, CmppAdapter.EncodingFromFmt;
  }

  // The numbers 1..n.
  function Numbered(n: u8): (ns: set<u8>)
    ensures forall k :: k in ns <==> 1 <= k <= n
    ensures |ns| == n
  {
    if n == 0 then {} else Numbered(n - 1) + {n}
  }

  // The segments of a content, by number.
  function Segments(content: Octets, per: nat, total: u8): (s: map<u8, Octets>)
    ensures s.Keys == Numbered(total) && |s| == total
  {
    var s := map n | n in Numbered(total) :: SegmentOf(content, per, n);
    assert |s| == |s.Keys|;
    s
  }

  function SegmentOf(content: Octets, per: nat, n: u8): (s: Octets) {
    if n == 0 || Split.Offset(n - 1, per) > |content| then [] else Split.Slice(content, per, n - 1)
  }

  // Put together in ascending order they are the content up to the n-th boundary.
  lemma {:induction false} SegmentsAssemble(content: Octets, per: nat, total: u8, n: nat)
    requires 0 < total && Split.Offset(total - 1, per) < |content| <= Split.Offset(total, per)
    requires 1 <= n <= 256
    ensures var done := if n - 1 < total then n - 1 else total as int;
            Assemble(Segments(content, per, total), n) == content[..Split.Min(Split.Offset(done, per), |content|)]
  {
    hide Split.Slice, Segments, Numbered;
    SegmentAt(content, per, total, n - 1);
    if n == 1 {
      assert Assemble(Segments(content, per, total), 0) == [];
    } else {
      SegmentsAssemble(content, per, total, n - 1);
      if n - 1 <= total {
        Split.OffsetMonotone(n - 2, total - 1, per);
        OneMoreSlice(content, per, n - 2);
      }
    }
  }

  lemma SegmentAt(content: Octets, per: nat, total: u8, n: u8)
    requires 0 < total && Split.Offset(total - 1, per) <= |content|
    ensures n in Segments(content, per, total) <==> 1 <= n <= total
    ensures 1 <= n <= total ==>
              Split.Offset(n - 1, per) <= |content| && Segments(content, per, total)[n] == Split.Slice(content, per, n - 1)
  {
    if 1 <= n <= total {
      Split.OffsetMonotone(n - 1, total - 1, per);
    }
  }

  lemma OneMoreSlice(content: Octets, per: nat, i: nat)
    requires Split.Offset(i, per) <= |content|
    ensures content[..Split.Offset(i, per)] + Split.Slice(content, per, i) == content[..Split.Min(Split.Offset(i + 1, per), |content|)]
  {
  }

  // Frames that cut the content into slices of per bytes.
  ghost predicate Cuts(fs: seq<LongMessageFrame>, content: Octets, per: nat, referenceId: u16) {
    && 0 < |fs| <= 255 && Split.Offset(|fs| - 1, per) < |content| <= Split.Offset(|fs|, per)
    && forall i :: 0 <= i < |fs| ==> CutAt(fs[i], content, per, referenceId, |fs|, i)
  }

  ghost predicate CutAt(f: LongMessageFrame, content: Octets, per: nat, referenceId: u16, total: u8, i: nat)
    requires i < total
  {
    && Split.Offset(i, per) <= |content|
    && f == Split.BuildFrame(referenceId, total, i + 1, Split.Slice(content, per, i)) && |f.content| <= 255
  }

  lemma SplitCuts(content: Octets, alphabet: Split.SmsAlphabet, referenceId: u16)
    requires Split.MaxPerSegment(alphabet) < |content| <= 255 * Split.PayloadPerSegment(alphabet, referenceId)
    ensures Cuts(Split.Segmentation(content, alphabet, referenceId), content, Split.PayloadPerSegment(alphabet, referenceId), referenceId)
  {
    var fs, per := Split.Segmentation(content, alphabet, referenceId), Split.PayloadPerSegment(alphabet, referenceId);
    Split.SegmentsWellFormed(content, alphabet, referenceId);
    Split.OffsetIsProduct(|fs| - 1, per);
    Split.OffsetIsProduct(|fs|, per);
    hide Split.Segmentation, Split.BuildFrame, Split.Slice, Split.Offset, Split.Payload;
    forall i | 0 <= i < |fs| ensures CutAt(fs[i], content, per, referenceId, |fs|, i) {
      assert Split.SegmentOk(content, alphabet, referenceId, |fs|, i, fs[i]);
    }
  }

  // What reaches the server: the PDU of one of the frames, sent under some sequence number, or any
  // other PDU, on this connection, and what other connections give to the same merger in between.
  datatype Arrival =
    | Segment(index: nat, sequence: u32, now: nat)
    | OtherPdu(pdu: Octets, now: nat)
    | Elsewhere(event: Event)

  function TimeOf(a: Arrival): (t: nat) {
    if a.Elsewhere? then a.event.now else a.now
  }

  ghost predicate InRange(arrivals: seq<Arrival>, n: nat) {
    forall a :: a in arrivals && a.Segment? ==> a.index < n
  }

  function PduOf(a: Arrival, common: UnifiedSubmit, fs: seq<LongMessageFrame>, v: CmppCodec.CmppVersion): (pdus: seq<Octets>)
    requires a.Segment? ==> a.index < |fs|
  {
    match a
    case Segment(i, sequence, _) => [SegmentPdu(common, fs[i], sequence, v)]
    case OtherPdu(pdu, _) => [pdu]
    case Elsewhere(_) => []
  }

  // The PDUs written to the connection, in order.
  ghost function Written(arrivals: seq<Arrival>, common: UnifiedSubmit, fs: seq<LongMessageFrame>, v: CmppCodec.CmppVersion): (pdus: seq<Octets>)
    requires InRange(arrivals, |fs|)
  {
    if arrivals == [] then []
    else Written(arrivals[..|arrivals| - 1], common, fs, v) + PduOf(arrivals[|arrivals| - 1], common, fs, v)
  }

  function Listed(ev: Option<Event>): (evs: seq<Event>) {
    if ev.Some? then [ev.value] else []
  }

  // What the merger is given, when the connection has handed out these frames.
  function Served(arrivals: seq<Arrival>, frames: seq<Octets>, v: CmppCodec.CmppVersion): (evs: seq<Event>) {
    if arrivals == [] then []
    else
      var before, a := arrivals[..|arrivals| - 1], arrivals[|arrivals| - 1];
      if a.Elsewhere? then Served(before, frames, v) + [a.event]
      else if frames == [] then Served(before, [], v)
      else Served(before, frames[..|frames| - 1], v) + Listed(Received(frames[|frames| - 1], a.now, v))
  }

  // The server's side of a connection: the frames that come out of the reads.
  function Framed(chunks: seq<Octets>): (frames: seq<Octets>) {
    Framing.WholeFrames(Framing.Feed([], chunks, 4, Framing.MAX_FRAME).0)
  }

  // The other traffic is well framed and of other groups.
  ghost predicate Apart(a: Arrival, g: Group, n: nat, v: CmppCodec.CmppVersion) {
    match a
    case Segment(i, _, _) => i < n
    case OtherPdu(pdu, now) =>
      Framing.WellFramed(pdu, 4, Framing.MAX_FRAME) && var ev := Received(pdu, now, v); ev.Some? ==> ev.value.Bucket() != g
    case Elsewhere(event) => event.Bucket() != g
  }

  ghost predicate AllApart(arrivals: seq<Arrival>, g: Group, n: nat, v: CmppCodec.CmppVersion)
    ensures AllApart(arrivals, g, n, v) ==> InRange(arrivals, n)
  {
    forall a :: a in arrivals ==> Apart(a, g, n, v)
  }

  // The indices that have arrived.
  ghost function Arrived(arrivals: seq<Arrival>): (ns: set<nat>) {
    set k | 0 <= k < |arrivals| && arrivals[k].Segment? :: arrivals[k].index
  }

  lemma BuiltFields(referenceId: u16, total: u8, number: u8, segment: Octets)
    ensures var f := Split.BuildFrame(referenceId, total, number, segment);
            f.hasUdhi && f.segmentNumber == number && f.referenceId == referenceId && f.totalSegments == total
  {
  }

  // What comes of one arrival: its PDU is a frame of the byte stream, and the merger is given an event
  // that carries the segment's number and, under the header, its slice.
  lemma ArrivalCarries(a: Arrival, common: UnifiedSubmit, fs: seq<LongMessageFrame>, content: Octets, per: nat, referenceId: u16,
                       v: CmppCodec.CmppVersion)
    requires Cuts(fs, content, per, referenceId) && Template(common, v) && a.Segment? && a.index < |fs|
    ensures var pdu, segments := SegmentPdu(common, fs[a.index], a.sequence, v), Segments(content, per, |fs|);
            && Framing.WellFramed(pdu, 4, Framing.MAX_FRAME)
            && var r := Received(pdu, a.now, v);
               && r.Some? && r.value.Bucket() == Group(Phone(common), referenceId, |fs|)
               && r.value.frame.segmentNumber == a.index + 1
               && MergerRuns.Fits(r.value, r.value.Bucket(), segments)
  {
    hide Received, SegmentPdu, Template, Split.Offset, StripUdh, Split.BuildFrame, Split.Slice, ReadU32, Phone;
    var i := a.index;
    assert CutAt(fs[i], content, per, referenceId, |fs|, i);
    var slice := Split.Slice(content, per, i);
    FrameSurvivesWire(common, referenceId, |fs|, i + 1, slice, a.sequence, a.now, v);
    Split.FrameBytes(referenceId, |fs|, i + 1, slice);
    BuiltFields(referenceId, |fs|, i + 1, slice);
    assert Segments(content, per, |fs|)[(i + 1) as u8] == slice;
  }

  // What the merger is given for everything that was written, as MergerRuns speaks of it.
  ghost predicate Delivery(evs: seq<Event>, arrivals: seq<Arrival>, g: Group, segments: map<u8, Octets>, since: nat, until: nat) {
    && MergerRuns.Carries(evs, g, segments)
    && (forall m: u8 :: m in MergerRuns.Seen(evs, g) <==> m >= 1 && m - 1 in Arrived(arrivals))
    && (forall i :: 0 <= i < |evs| ==> since <= evs[i].now <= until)
  }

  lemma DeliveryGrows(evs: seq<Event>, ev: Event, arrivals: seq<Arrival>, a: Arrival, g: Group, segments: map<u8, Octets>,
                      since: nat, until: nat)
    requires Delivery(evs, arrivals, g, segments, since, until) && MergerRuns.Fits(ev, g, segments) && since <= ev.now <= until
    requires if a.Segment? then ev.Bucket() == g && ev.frame.segmentNumber == a.index + 1 else ev.Bucket() != g
    ensures Delivery(evs + [ev], arrivals + [a], g, segments, since, until)
  {
    CarriesGrows(evs, ev, g, segments);
    SeenArrived(evs, ev, arrivals, a, g);
    hide MergerRuns.Carries, MergerRuns.Seen, Arrived;
  }

  lemma CarriesGrows(evs: seq<Event>, ev: Event, g: Group, segments: map<u8, Octets>)
    requires MergerRuns.Carries(evs, g, segments) && MergerRuns.Fits(ev, g, segments)
    ensures MergerRuns.Carries(evs + [ev], g, segments)
  {
    hide MergerRuns.Fits;
  }

  lemma SeenArrived(evs: seq<Event>, ev: Event, arrivals: seq<Arrival>, a: Arrival, g: Group)
    requires forall m: u8 :: m in MergerRuns.Seen(evs, g) <==> m >= 1 && m - 1 in Arrived(arrivals)
    requires if a.Segment? then ev.Bucket() == g && ev.frame.segmentNumber == a.index + 1 else ev.Bucket() != g
    ensures forall m: u8 :: m in MergerRuns.Seen(evs + [ev], g) <==> m >= 1 && m - 1 in Arrived(arrivals + [a])
  {
    MergerRuns.SeenGrows(evs, ev, g);
    ArrivedGrows(arrivals, a);
    hide MergerRuns.Seen, Arrived;
  }

  lemma ArrivedGrows(arrivals: seq<Arrival>, a: Arrival)
    ensures Arrived(arrivals + [a]) == if a.Segment? then Arrived(arrivals) + {a.index} else Arrived(arrivals)
  {
    var all := arrivals + [a];
    assert all[|arrivals|] == a;
    forall i | i in Arrived(arrivals) ensures i in Arrived(all) {
      var k :| 0 <= k < |arrivals| && arrivals[k].Segment? && arrivals[k].index == i;
      assert all[k] == arrivals[k];
    }
  }

  // What one arrival gives to the merger.
  function EventsOf(a: Arrival, common: UnifiedSubmit, fs: seq<LongMessageFrame>, v: CmppCodec.CmppVersion): (evs: seq<Event>)
    requires a.Segment? ==> a.index < |fs|
  {
    if a.Elsewhere? then [a.event] else Listed(Received(PduOf(a, common, fs, v)[0], a.now, v))
  }

  lemma ServedIs(arrivals: seq<Arrival>, common: UnifiedSubmit, fs: seq<LongMessageFrame>, v: CmppCodec.CmppVersion)
    requires arrivals != [] && InRange(arrivals, |fs|)
    ensures var before, a := arrivals[..|arrivals| - 1], arrivals[|arrivals| - 1];
            && InRange(before, |fs|) && a in arrivals
            && Served(arrivals, Written(arrivals, common, fs, v), v) == Served(before, Written(before, common, fs, v), v) + EventsOf(a, common, fs, v)
  {
    hide Received, SegmentPdu;
    var before, a := arrivals[..|arrivals| - 1], arrivals[|arrivals| - 1];
    var pdus := Written(arrivals, common, fs, v);
    if a.Elsewhere? {
      assert pdus == Written(before, common, fs, v);
    } else {
      assert pdus[..|pdus| - 1] == Written(before, common, fs, v);
    }
  }

  lemma ArrivalDelivers(evs: seq<Event>, before: seq<Arrival>, a: Arrival, common: UnifiedSubmit, fs: seq<LongMessageFrame>,
                        content: Octets, per: nat, referenceId: u16, v: CmppCodec.CmppVersion, since: nat, until: nat)
    requires Cuts(fs, content, per, referenceId) && Template(common, v) && 0 < |fs| <= 255 && since <= TimeOf(a) <= until
    requires Apart(a, Group(Phone(common), referenceId, |fs|), |fs|, v)
    requires Delivery(evs, before, Group(Phone(common), referenceId, |fs|), Segments(content, per, |fs|), since, until)
    ensures Delivery(evs + EventsOf(a, common, fs, v), before + [a], Group(Phone(common), referenceId, |fs|),
                     Segments(content, per, |fs|), since, until)
    ensures forall pdu :: pdu in PduOf(a, common, fs, v) ==> Framing.WellFramed(pdu, 4, Framing.MAX_FRAME)
  {
    hide Cuts, Template, Segments, Received, SegmentPdu, Framing.WellFramed, Delivery, MergerRuns.Fits, Phone;
    var g, segments := Group(Phone(common), referenceId, |fs|), Segments(content, per, |fs|);
    if a.Segment? {
      ArrivalCarries(a, common, fs, content, per, referenceId, v);
    }
    var given := EventsOf(a, common, fs, v);
    if given == [] {
      DeliveryStays(evs, before, a, g, segments, since, until);
      assert evs + [] == evs;
    } else {
      OtherFits(given[0], g, segments);
      DeliveryGrows(evs, given[0], before, a, g, segments, since, until);
      assert given == [given[0]];
    }
  }

  // Everything written is well framed, and what it leads to is a delivery.
  lemma {:induction false} WrittenDelivers(arrivals: seq<Arrival>, common: UnifiedSubmit, fs: seq<LongMessageFrame>, content: Octets,
                                           per: nat, referenceId: u16, v: CmppCodec.CmppVersion, since: nat, until: nat)
    requires Cuts(fs, content, per, referenceId) && Template(common, v)
    requires AllApart(arrivals, Group(Phone(common), referenceId, |fs|), |fs|, v)
    requires forall a :: a in arrivals ==> since <= TimeOf(a) <= until
    ensures var pdus := Written(arrivals, common, fs, v);
            && (forall i :: 0 <= i < |pdus| ==> Framing.WellFramed(pdus[i], 4, Framing.MAX_FRAME))
            && Delivery(Served(arrivals, pdus, v), arrivals, Group(Phone(common), referenceId, |fs|),
                        Segments(content, per, |fs|), since, until)
  {
    hide Cuts, Template, Segments, Framing.WellFramed, Delivery, Phone, EventsOf, PduOf, Apart;
    CutsBounds(fs, content, per, referenceId);
    if arrivals == [] {
      NothingDelivered(Group(Phone(common), referenceId, |fs|), Segments(content, per, |fs|), since, until);
    } else {
      var before, a := arrivals[..|arrivals| - 1], arrivals[|arrivals| - 1];
      assert arrivals == before + [a] && a in arrivals && forall x :: x in before ==> x in arrivals;
      WrittenDelivers(before, common, fs, content, per, referenceId, v, since, until);
      ServedIs(arrivals, common, fs, v);
      hide Served;
      ArrivalDelivers(Served(before, Written(before, common, fs, v), v), before, a, common, fs, content, per, referenceId, v, since, until);
    }
  }

  lemma NothingDelivered(g: Group, segments: map<u8, Octets>, since: nat, until: nat)
    ensures Delivery([], [], g, segments, since, until)
  {
  }

  lemma OtherFits(ev: Event, g: Group, segments: map<u8, Octets>)
    ensures ev.Bucket() != g ==> MergerRuns.Fits(ev, g, segments)
  {
  }

  lemma DeliveryStays(evs: seq<Event>, arrivals: seq<Arrival>, a: Arrival, g: Group, segments: map<u8, Octets>, since: nat, until: nat)
    requires Delivery(evs, arrivals, g, segments, since, until) && !a.Segment?
    ensures Delivery(evs, arrivals + [a], g, segments, since, until)
  {
    ArrivedGrows(arrivals, a);
    hide MergerRuns.Carries, MergerRuns.Seen, Arrived;
  }

  // The last arrival completes the numbers.
  lemma AllSeen(arrivals: seq<Arrival>, last: Arrival, n: u8, before: set<u8>, after: set<u8>)
    requires last.Segment? && last.index < n && last.index !in Arrived(arrivals)
    requires forall i: nat :: i < n && i != last.index ==> i in Arrived(arrivals)
    requires before <= Numbered(n) && after <= Numbered(n)
    requires forall m: u8 :: m in before <==> m >= 1 && m - 1 in Arrived(arrivals)
    requires forall m: u8 :: m in after <==> m >= 1 && m - 1 in Arrived(arrivals + [last])
    ensures before != Numbered(n) && after == Numbered(n)
  {
    var missing: u8 := last.index + 1;
    assert missing !in before && missing in Numbered(n);
    ArrivedGrows(arrivals, last);
    hide Arrived;
    forall m | m in Numbered(n) ensures m in after {
      var i: nat := m - 1;
      assert i in Arrived(arrivals + [last]);
    }
  }

  // End to end: split the content, send each segment in a CMPP Submit of either version, write the PDUs
  // to a connection among other PDUs, read its bytes in any pieces, frame and decode them, rebuild the
  // headers, and hand them to a merger that other connections use as well; in any order, with repeats,
  // all within the time-to-live. Nothing comes out for the message before the last missing segment;
  // then the content does.
  lemma LongMessageEndToEnd(content: Octets, alphabet: Split.SmsAlphabet, referenceId: u16, common: UnifiedSubmit,
                            v: CmppCodec.CmppVersion, st: Store, b: Board, since: nat, arrivals: seq<Arrival>, last: Arrival,
                            chunks: seq<Octets>)
    requires Split.MaxPerSegment(alphabet) < |content| <= 255 * Split.PayloadPerSegment(alphabet, referenceId)
    requires Template(common, v) && MergerRuns.Represents(st, b)
    requires var n := |Split.Segmentation(content, alphabet, referenceId)|;
             && n <= 255 && Group(Phone(common), referenceId, n) !in b.groups
             && AllApart(arrivals + [last], Group(Phone(common), referenceId, n), n, v) && last.Segment?
             && last.index !in Arrived(arrivals) && (forall i: nat :: i < n && i != last.index ==> i in Arrived(arrivals))
    requires forall a :: a in arrivals + [last] ==> since <= TimeOf(a) <= since + st.ttl
    requires Framing.Flatten(chunks) == Framing.Flatten(Written(arrivals + [last], common, Split.Segmentation(content, alphabet, referenceId), v))
    ensures var g := Group(Phone(common), referenceId, |Split.Segmentation(content, alphabet, referenceId)|);
            var evs := Served(arrivals + [last], Framed(chunks), v);
            var outs := MergerRuns.Run(st, evs).1;
            && evs != [] && outs[|evs| - 1] == Some(content)
            && forall k :: 0 <= k < |evs| - 1 && evs[k].Bucket() == g ==> outs[k] == None
  {
    var fs, per := Split.Segmentation(content, alphabet, referenceId), Split.PayloadPerSegment(alphabet, referenceId);
    SplitCuts(content, alphabet, referenceId);
    hide Split.Segmentation, Split.PayloadPerSegment, Template, MergerRuns.Represents, MergerRuns.Run, Cuts, AllApart, Arrived, Phone;
    CutsBounds(fs, content, per, referenceId);
    FramedIsWritten(arrivals + [last], common, fs, content, per, referenceId, v, since, since + st.ttl, chunks);
    CutsDelivered(content, per, fs, referenceId, common, v, st, b, since, arrivals, last);
  }

  // All segments in order, under consecutive sequence numbers.
  function InOrder(n: nat, start: u32, now: nat): (arrivals: seq<Arrival>)
    ensures |arrivals| == n
    ensures forall i :: 0 <= i < n ==> arrivals[i] == Segment(i, Low32(start + i), now)
    ensures InRange(arrivals, n)
  {
    seq(n, i requires 0 <= i < n => Segment(i, Low32(start + i), now))
  }

  // In particular the example client's long messages arrive at a new server, whole, however the bytes
  // are read.
  lemma ClientMessageArrives(content: Octets, alphabet: Split.SmsAlphabet, referenceId: u16, account: Octets, phone: Octets,
                             encoding: Encoding, v: CmppCodec.CmppVersion, start: u32, ttl: nat, now: nat, chunks: seq<Octets>)
    requires Split.MaxPerSegment(alphabet) < |content| <= 255 * Split.PayloadPerSegment(alphabet, referenceId)
    requires Wire.Fits(account, 21) && Wire.Fits(phone, CmppLaws.TerminalWidth(v))
    requires var fs := Split.Segmentation(content, alphabet, referenceId);
             Framing.Flatten(chunks) ==
             Framing.Flatten(Written(InOrder(|fs|, start, now), ClientSubmit(account, phone, encoding, None, []), fs, v))
    ensures var n := |Split.Segmentation(content, alphabet, referenceId)|;
            var outs := MergerRuns.Run(Store(map[], ttl, now), Served(InOrder(n, start, now), Framed(chunks), v)).1;
            outs != [] && outs[|outs| - 1] == Some(content)
  {
    var fs, common := Split.Segmentation(content, alphabet, referenceId), ClientSubmit(account, phone, encoding, None, []);
    hide Split.Segmentation, Split.PayloadPerSegment, Split.MaxPerSegment, MergerRuns.Run, Served, Written, Framing.Flatten, Framed,
         Phone, Split.SegmentOk, Template, MergerRuns.Represents, AllApart, Arrived, CmppLaws.TerminalWidth, ClientSubmit, Wire.Fits;
    Split.SegmentsWellFormed(content, alphabet, referenceId);
    ClientTemplate(account, phone, encoding, v);
    NewMerger(ttl, now);
    var all := InOrder(|fs|, start, now);
    var arrivals, last := all[..|fs| - 1], all[|fs| - 1];
    assert arrivals + [last] == all;
    AllOfThem(|fs|, start, now, Group(Phone(common), referenceId, |fs|), v);
    LongMessageEndToEnd(content, alphabet, referenceId, common, v, Store(map[], ttl, now), Board(map[], ttl, now), now, arrivals,
                        last, chunks);
  }

  lemma ClientTemplate(account: Octets, phone: Octets, encoding: Encoding, v: CmppCodec.CmppVersion)
    requires Wire.Fits(account, 21) && Wire.Fits(phone, CmppLaws.TerminalWidth(v))
    ensures Template(ClientSubmit(account, phone, encoding, None, []), v)
  {
    hide CmppLaws.Sendable;
    ClientSubmitSendable(account, phone, encoding, None, [], v);
  }

  lemma NewMerger(ttl: nat, now: nat)
    ensures MergerRuns.Represents(Store(map[], ttl, now), Board(map[], ttl, now))
  {
  }

  lemma AllOfThem(n: nat, start: u32, now: nat, g: Group, v: CmppCodec.CmppVersion)
    requires n > 0
    ensures var all := InOrder(n, start, now);
            var arrivals, last := all[..n - 1], all[n - 1];
            && AllApart(all, g, n, v) && last == Segment(n - 1, Low32(start + (n - 1)), now) && n - 1 !in Arrived(arrivals)
            && (forall i: nat :: i < n && i != n - 1 ==> i in Arrived(arrivals)) && forall a :: a in all ==> TimeOf(a) == now
  {
    var all := InOrder(n, start, now);
    var arrivals := all[..n - 1];
    forall i: nat | i < n && i != n - 1 ensures i in Arrived(arrivals) {
      assert arrivals[i] == Segment(i, Low32(start + i), now);
    }
  }

  // The server's frames are the PDUs that were written, however the bytes were read.
  lemma FramedIsWritten(arrivals: seq<Arrival>, common: UnifiedSubmit, fs: seq<LongMessageFrame>, content: Octets, per: nat,
                        referenceId: u16, v: CmppCodec.CmppVersion, since: nat, until: nat, chunks: seq<Octets>)
    requires Cuts(fs, content, per, referenceId) && Template(common, v)
    requires AllApart(arrivals, Group(Phone(common), referenceId, |fs|), |fs|, v)
    requires forall a :: a in arrivals ==> since <= TimeOf(a) <= until
    requires Framing.Flatten(chunks) == Framing.Flatten(Written(arrivals, common, fs, v))
    ensures Framed(chunks) == Written(arrivals, common, fs, v)
  {
    hide Cuts, Template, AllApart, Written, Delivery, Served, Framing.WellFramed, Framing.Feed, Framing.WholeFrames, Phone;
    WrittenDelivers(arrivals, common, fs, content, per, referenceId, v, since, until);
    Framing.DecodersAgreeOnWellFramed(Written(arrivals, common, fs, v), chunks, 4);
  }

  lemma CutsDelivered(content: Octets, per: nat, fs: seq<LongMessageFrame>, referenceId: u16, common: UnifiedSubmit,
                      v: CmppCodec.CmppVersion, st: Store, b: Board, since: nat, arrivals: seq<Arrival>, last: Arrival)
    requires 0 < |fs| <= 255 && Cuts(fs, content, per, referenceId) && Template(common, v) && MergerRuns.Represents(st, b)
    requires var g := Group(Phone(common), referenceId, |fs|);
             g !in b.groups && AllApart(arrivals + [last], g, |fs|, v)
    requires last.Segment? && last.index !in Arrived(arrivals) && forall i: nat :: i < |fs| && i != last.index ==> i in Arrived(arrivals)
    requires forall a :: a in arrivals + [last] ==> since <= TimeOf(a) <= since + st.ttl
    ensures var evs := Served(arrivals + [last], Written(arrivals + [last], common, fs, v), v);
            var outs := MergerRuns.Run(st, evs).1;
            && evs != [] && outs[|evs| - 1] == Some(content)
            && forall k :: 0 <= k < |evs| - 1 && evs[k].Bucket() == Group(Phone(common), referenceId, |fs|) ==> outs[k] == None
  {
    hide Template, MergerRuns.Represents, MergerRuns.Run, Split.Offset, Segments, Cuts, Arrived, Delivery, Phone, Served,
         Written, AllApart;
    var g, all, until := Group(Phone(common), referenceId, |fs|), arrivals + [last], since + st.ttl;
    var segments := Segments(content, per, g.total);
    LastServed(arrivals, last, common, fs, content, per, referenceId, v, since, until);
    var evs := Served(arrivals, Written(arrivals, common, fs, v), v);
    var allEvs := Served(all, Written(all, common, fs, v), v);
    assert allEvs == evs + [allEvs[|evs|]];
    CutsBounds(fs, content, per, referenceId);
    SegmentsAssemble(content, per, g.total, 256);
    assert content[..|content|] == content;
    Completed(st, b, g, segments, since, evs, allEvs[|evs|], arrivals, last);
  }

  lemma Completed(st: Store, b: Board, g: Group, segments: map<u8, Octets>, since: nat, evs: seq<Event>, lastEv: Event,
                  arrivals: seq<Arrival>, last: Arrival)
    requires MergerRuns.Represents(st, b) && g !in b.groups && segments.Keys == Numbered(g.total) && |segments| == g.total
    requires Delivery(evs, arrivals, g, segments, since, since + st.ttl)
    requires Delivery(evs + [lastEv], arrivals + [last], g, segments, since, since + st.ttl)
    requires last.Segment? && last.index < g.total && last.index !in Arrived(arrivals)
    requires forall i: nat :: i < g.total && i != last.index ==> i in Arrived(arrivals)
    ensures var outs := MergerRuns.Run(st, evs + [lastEv]).1;
            && outs[|evs|] == Some(Assemble(segments, 256))
            && forall k :: 0 <= k < |evs| && evs[k].Bucket() == g ==> outs[k] == None
  {
    hide MergerRuns.Represents, MergerRuns.Run, Arrived, Assemble, Delivery, Numbered;
    DeliveryCompletes(evs, lastEv, arrivals, last, g, segments, since, since + st.ttl);
    MergerRuns.MessageDelivered(st, b, g, segments, since, evs, lastEv);
  }

  // The last arrival adds one event to what is delivered before it.
  lemma LastServed(arrivals: seq<Arrival>, last: Arrival, common: UnifiedSubmit, fs: seq<LongMessageFrame>, content: Octets,
                   per: nat, referenceId: u16, v: CmppCodec.CmppVersion, since: nat, until: nat)
    requires Cuts(fs, content, per, referenceId) && Template(common, v)
    requires AllApart(arrivals + [last], Group(Phone(common), referenceId, |fs|), |fs|, v) && last.Segment?
    requires forall a :: a in arrivals + [last] ==> since <= TimeOf(a) <= until
    ensures InRange(arrivals, |fs|)
    ensures var g, segments := Group(Phone(common), referenceId, |fs|), Segments(content, per, |fs|);
            var evs := Served(arrivals, Written(arrivals, common, fs, v), v);
            var all := Served(arrivals + [last], Written(arrivals + [last], common, fs, v), v);
            && evs <= all && |all| == |evs| + 1
            && Delivery(evs, arrivals, g, segments, since, until) && Delivery(all, arrivals + [last], g, segments, since, until)
  {
    hide Cuts, Template, Received, SegmentPdu, Segments, Framing.WellFramed, Phone, MergerRuns.Fits, Delivery;
    CutsBounds(fs, content, per, referenceId);
    var all := arrivals + [last];
    assert last in all && all[..|all| - 1] == arrivals && all[|all| - 1] == last && forall a :: a in arrivals ==> a in all;
    assert Apart(last, Group(Phone(common), referenceId, |fs|), |fs|, v);
    ArrivalCarries(last, common, fs, content, per, referenceId, v);
    var pdus := Written(all, common, fs, v);
    assert pdus[..|pdus| - 1] == Written(arrivals, common, fs, v);
    WrittenDelivers(arrivals, common, fs, content, per, referenceId, v, since, until);
    WrittenDelivers(all, common, fs, content, per, referenceId, v, since, until);
  }

  lemma DeliveryCompletes(evs: seq<Event>, lastEv: Event, arrivals: seq<Arrival>, last: Arrival, g: Group, segments: map<u8, Octets>,
                          since: nat, until: nat)
    requires Delivery(evs, arrivals, g, segments, since, until) && Delivery(evs + [lastEv], arrivals + [last], g, segments, since, until)
    requires last.Segment? && last.index < g.total && last.index !in Arrived(arrivals)
    requires segments.Keys == Numbered(g.total)
    requires forall i: nat :: i < g.total && i != last.index ==> i in Arrived(arrivals)
    ensures MergerRuns.Carries(evs + [lastEv], g, segments) && since <= lastEv.now <= until
    ensures forall i :: 0 <= i < |evs| ==> since <= evs[i].now <= until
    ensures MergerRuns.Seen(evs, g) != segments.Keys && MergerRuns.Seen(evs + [lastEv], g) == segments.Keys
  {
    assert (evs + [lastEv])[|evs|] == lastEv;
    SeenInSegments(evs, g, segments);
    SeenInSegments(evs + [lastEv], g, segments);
    hide MergerRuns.Carries, MergerRuns.Seen, Numbered, Arrived;
    AllSeen(arrivals, last, g.total, MergerRuns.Seen(evs, g), MergerRuns.Seen(evs + [lastEv], g));
  }

  lemma SeenInSegments(evs: seq<Event>, g: Group, segments: map<u8, Octets>)
    requires MergerRuns.Carries(evs, g, segments)
    ensures MergerRuns.Seen(evs, g) <= segments.Keys
  {
  }

  lemma CutsBounds(fs: seq<LongMessageFrame>, content: Octets, per: nat, referenceId: u16)
    requires Cuts(fs, content, per, referenceId)
    ensures 0 < |fs| <= 255 && Split.Offset(|fs| - 1, per) < |content| <= Split.Offset(|fs|, per)
  {
  }

  // A content that fits one segment travels without a header and arrives as it is, exactly unless the
  // sender announces a header that happens to be there.
  lemma ShortMessageSurvivesWire(content: Octets, alphabet: Split.SmsAlphabet, referenceId: u16, common: UnifiedSubmit,
                                 sequence: u32, v: CmppCodec.CmppVersion)
    requires |content| <= Split.MaxPerSegment(alphabet) && Template(common, v)
    ensures var fs := Split.Segmentation(content, alphabet, referenceId);
            && |fs| == 1
            && var m := SegmentSubmit(common, fs[0]);
               var e := CmppAdapter.Encode(SubmitMessage(m), sequence, v);
               && m == common.(concat := None, content := content)
               && (e.Ok? && CmppAdapter.Decode(e.value, v) == Ok(SubmitMessage(CmppLaws.Dressed(m, v)))
                   <==> CmppAdapter.ExtraOf(common.extra).tpudhi == 0 || FromUdh(content).None?)
  {
    var m := common.(concat := None, content := content);
    hide CmppAdapter.Encode, CmppAdapter.Decode, FromUdh, Template, CmppLaws.Sendable;
    CmppLaws.SubmitArrives(m, sequence, v);
    if CmppAdapter.ExtraOf(common.extra).tpudhi == 0 || FromUdh(content).None? {
      TemplateCarries(common, None, content, v);
    }
    NoHeaderSeen(m, v);
  }

  lemma NoHeaderSeen(m: UnifiedSubmit, v: CmppCodec.CmppVersion)
    requires m.concat.None?
    ensures CmppLaws.Normalised(CmppLaws.Dressed(m, v)) == CmppLaws.Dressed(m, v)
    ensures CmppLaws.Sendable(m, v) ==> CmppAdapter.ExtraOf(m.extra).tpudhi == 0 || FromUdh(m.content).None?
  {
    hide FromUdh, CmppLaws.ExtraFits, CmppLaws.DestsFit, CmppAdapter.CanonicalEncoding;
  }
}
