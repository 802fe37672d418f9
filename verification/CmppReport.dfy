// The binary delivery receipt that a CMPP Deliver carries as its content.
module CmppReport {
  import opened Wrappers
  import opened Bytes
  import opened Wire
  import opened Status
  import opened CmppFields

  datatype Report = Report(
    msgId: Array8,
    stat: Octets,
    submitTime: Octets,
    doneTime: Octets,
    destTerminalId: Octets,
    smscSequence: u32
  )

  const DEST_V30 := 32
  const DEST_V20 := 21

  // The closure `take`: trailing zero bytes go first, then white space.
  function Take(slice: Octets): (t: Octets) {
    TrimSpace(Trim(slice))
  }

  // CmppReport::parse. It knows one width of Dest_terminal_Id, that of CMPP 2.0.
  function Parse(data: Octets): (r: Option<Report>) {
    if |data| < 35 then None
    else
      var stat := Take(data[8..15]);
      var dest := if |data| >= 56 then Take(data[35..56]) else Take(data[35..]);
      var smsc := if |data| >= 60 then ReadU32(data, 56) else 0;
      if stat == [] then None
      else Some(Report(data[..8], stat, Take(data[15..25]), Take(data[25..35]), dest, smsc))
  }

  // Cut off or padded with zero bytes to the width.
  function Fixed(src: Octets, n: nat): (b: Octets)
    ensures |b| == n
  {
    if |src| <= n then Pad(src, n) else src[..n]
  }

  function ReportBody(r: Report, destWidth: nat): (b: Octets) {
    r.msgId + Fixed(r.stat, 7) + Fixed(r.submitTime, 10) + Fixed(r.doneTime, 10)
    + Fixed(r.destTerminalId, destWidth) + BigEndian32(r.smscSequence)
  }

  // CmppReport::to_fixed_bytes
  method ToFixedBytes(r: Report, destWidth: nat) returns (b: Octets)
    ensures b == ReportBody(r, destWidth) && |b| == 39 + destWidth
  {
    b := r.msgId;
    b := b + Fixed(r.stat, 7);
    b := b + Fixed(r.submitTime, 10);
    b := b + Fixed(r.doneTime, 10);
    b := b + Fixed(r.destTerminalId, destWidth);
    b := b + BigEndian32(r.smscSequence);
  }

  // A text that is read back as it is: short enough, no white space around it, no zero byte at its end.
  predicate Plain(v: Octets, width: nat) {
    |v| <= width && NoOuterSpace(v) && NoTrailingNul(v)
  }

  lemma TakeFixed(v: Octets, width: nat)
    ensures Take(Fixed(v, width)) == v <==> Plain(v, width)
    ensures v == [] ==> Take(Fixed(v, width)) == []
  {
    var b := Fixed(v, width);
    TrimFits(b);
    TrimSpaceIs(Trim(b));
    if |v| <= width {
      TrimPad(v, width);
      TrimNeverLonger(v, width);
    }
    if v == [] {
      TrimPad(v, width);
    }
  }

  // The padding goes, and perhaps more, but nothing of it stays.
  lemma {:induction false} TrimNeverLonger(v: Octets, width: nat)
    requires |v| <= width
    ensures |Trim(Pad(v, width))| <= |v|
    ensures |Trim(Pad(v, width))| == |v| ==> Trim(Pad(v, width)) == v
    decreases width
  {
    if |v| == width {
      assert Pad(v, width) == v;
      TrimFits(v);
      if |Trim(v)| == |v| {
        assert Pad(Trim(v), |v|) == Trim(v);
      }
    } else {
      TrimNeverLonger(v, width - 1);
      assert Pad(v, width)[..width - 1] == Pad(v, width - 1);
    }
  }

  // Where the fields of a printed receipt stand.
  lemma ReportFields(r: Report, destWidth: nat)
    ensures var b := ReportBody(r, destWidth);
            && |b| == 39 + destWidth && b[..8] == r.msgId && b[8..15] == Fixed(r.stat, 7)
            && b[15..25] == Fixed(r.submitTime, 10) && b[25..35] == Fixed(r.doneTime, 10)
            && b[35..35 + destWidth] == Fixed(r.destTerminalId, destWidth)
            && ReadU32(b, 35 + destWidth) == r.smscSequence
  {
    hide Fixed, BigEndian32, ReadU32;
    var whole := ReportBody(r, destWidth);
    var e1 := r.msgId + Fixed(r.stat, 7);
    var e2 := e1 + Fixed(r.submitTime, 10);
    var e3 := e2 + Fixed(r.doneTime, 10);
    var e4 := e3 + Fixed(r.destTerminalId, destWidth);
    Piece(e4, BigEndian32(r.smscSequence), whole);
    ReadU32Print(r.smscSequence, whole, |e4|);
    Piece(e3, Fixed(r.destTerminalId, destWidth), whole);
    Piece(e2, Fixed(r.doneTime, 10), whole);
    Piece(e1, Fixed(r.submitTime, 10), whole);
    Piece(r.msgId, Fixed(r.stat, 7), whole);
  }

  predicate HeadPlain(r: Report) {
    r.stat != [] && Plain(r.stat, 7) && Plain(r.submitTime, 10) && Plain(r.doneTime, 10)
  }

  // A CMPP 2.0 receipt is recovered exactly when its texts are plain and a state is given.
  lemma V20ReportRoundTrip(r: Report)
    ensures Parse(ReportBody(r, DEST_V20)) == Some(r) <==> HeadPlain(r) && Plain(r.destTerminalId, DEST_V20)
  {
    hide Take, Fixed, ReadU32, Plain, ReportBody;
    ReportFields(r, DEST_V20);
    TakeFixed(r.stat, 7);
    TakeFixed(r.submitTime, 10);
    TakeFixed(r.doneTime, 10);
    TakeFixed(r.destTerminalId, DEST_V20);
  }

  // A CMPP 3.0 receipt is read with the CMPP 2.0 offsets: the terminal is cut at 21 bytes and the
  // sequence number is taken from inside the terminal's field. So it is recovered exactly when, on
  // top of the above, the terminal fits 21 bytes and the sequence number is zero.
  lemma V30ReportRoundTrip(r: Report)
    ensures Parse(ReportBody(r, DEST_V30)) == Some(r) <==>
              HeadPlain(r) && Plain(r.destTerminalId, DEST_V20) && r.smscSequence == 0
  {
    hide Take, Fixed, ReadU32, ReportBody, Plain;
    ReportFields(r, DEST_V30);
    V30Overlap(r);
    TakeFixed(r.stat, 7);
    TakeFixed(r.submitTime, 10);
    TakeFixed(r.doneTime, 10);
    TakeFixed(r.destTerminalId, DEST_V20);
    PlainWithin(r.destTerminalId, DEST_V20);
  }

  lemma PlainWithin(v: Octets, width: nat)
    ensures Plain(v, width) ==> |v| <= width
  {
  }

  // What stands at the CMPP 2.0 offsets of a CMPP 3.0 receipt.
  lemma V30Overlap(r: Report)
    ensures var b := ReportBody(r, DEST_V30);
            && |b| == 71 && b[35..56] == Fixed(r.destTerminalId, DEST_V20)
            && (|r.destTerminalId| <= DEST_V20 ==> ReadU32(b, 56) == 0)
  {
  }

  // A terminal number of 22 bytes is cut, and its last byte is taken for a sequence number.
  lemma LongTerminalIsCut()
    ensures exists r: Report ::
              && HeadPlain(r) && Plain(r.destTerminalId, DEST_V30) && |r.destTerminalId| == 22 && r.smscSequence == 0
              && Parse(ReportBody(r, DEST_V30)) != Some(r)
  {
    var r := Report(Zeros(8), DELIVRD, [], [], seq(22, i => 49), 0);
    SixCodes(DELIVRD);
    V30ReportRoundTrip(r);
    assert HeadPlain(r) && Plain(r.destTerminalId, DEST_V30);
  }

  // The condition under which a state survives a receipt.
  predicate StateFits(s: DeliveryStatus) {
    s.Other? ==> Foreign(s.code) && |s.code| <= 7 && NoTrailingNul(s.code)
  }

  // A state comes back from its seven bytes exactly when it is one of the six, or a foreign code that
  // fits them.
  lemma StateSurvives(s: DeliveryStatus)
    ensures var stat := Take(Fixed(ToStatCode(s), 7));
            (if stat == [] then Unknown else FromStatCode(stat)) == s <==>
            StateFits(s)
  {
    var code := ToStatCode(s);
    TakeFixed(code, 7);
    StatCodeRoundTrip(s);
    if s.Other? {
      ForeignSurvives(code);
    } else {
      SixCodes(code);
      hide Take, Fixed, TrimSpace, Upper;
    }
  }

  lemma ForeignSurvives(code: Octets)
    ensures var stat := Take(Fixed(code, 7));
            stat != [] && FromStatCode(stat) == Other(code) <==> Foreign(code) && |code| <= 7 && NoTrailingNul(code)
  {
    var stat := Take(Fixed(code, 7));
    TakeFixed(code, 7);
    TakeIs(Fixed(code, 7));
    StatCodeRoundTrip(Other(code));
    if FromStatCode(stat) == Other(code) {
      OtherIs(stat, code);
      TrimPadShort(code);
    }
    hide Take, Fixed, FromStatCode, Upper, TrimSpace;
  }

  // What is taken has no white space around it and is no longer than the field.
  lemma TakeIs(b: Octets)
    ensures NoOuterSpace(Take(b)) && TrimSpace(Take(b)) == Take(b) && |Take(b)| <= |b|
  {
    TrimFits(b);
    TrimSpaceIs(Trim(b));
    TrimSpaceIs(Take(b));
  }

  lemma OtherIs(stat: Octets, code: Octets)
    requires FromStatCode(stat) == Other(code) && TrimSpace(stat) == stat && NoOuterSpace(stat)
    ensures code == Upper(stat) && Foreign(code) && |code| == |stat|
  {
    UpperKeepsSpace(stat);
  }

  // A text of the field's width or less that loses nothing had no zero byte at its end.
  lemma TrimPadShort(code: Octets)
    ensures |code| <= 7 && |Take(Fixed(code, 7))| == |code| ==> NoTrailingNul(code)
  {
    if |code| <= 7 {
      TrimNeverLonger(code, 7);
      TrimPad(code, 7);
      TrimSpaceIs(Trim(Pad(code, 7)));
    }
  }

  // Whatever the rest of a printed receipt, its id and its state are read from where they stand.
  lemma HeadReads(r: Report, destWidth: nat)
    ensures var stat, p := Take(Fixed(r.stat, 7)), Parse(ReportBody(r, destWidth));
            && (p.Some? <==> stat != []) && (p.Some? ==> p.value.stat == stat && p.value.msgId == r.msgId)
  {
    ReportFields(r, destWidth);
    hide Take, Fixed, ReportBody, ReadU32;
  }

  lemma StatePlain(s: DeliveryStatus)
    ensures StateFits(s) ==> ToStatCode(s) != [] && Plain(ToStatCode(s), 7)
  {
    if !s.Other? {
      SixCodes(ToStatCode(s));
    }
  }

  // A receipt of either width that is filled with what a report knows.
  function Filled(id: Array8, s: DeliveryStatus, src: Octets): (r: Report) {
    Report(id, ToStatCode(s), [], [], src, 0)
  }

  lemma FilledReads(id: Array8, s: DeliveryStatus, src: Octets, destWidth: nat)
    requires destWidth == DEST_V20 || destWidth == DEST_V30
    ensures var p := Parse(ReportBody(Filled(id, s, src), destWidth));
            && (p.Some? ==> p.value.msgId == id)
            && ((if p.Some? then FromStatCode(p.value.stat) else Unknown) == s <==> StateFits(s))
            && (StateFits(s) && Plain(src, DEST_V20) ==> p == Some(Filled(id, s, src)))
  {
    var r := Filled(id, s, src);
    assert Plain([], 10);
    hide Take, Fixed, ReportBody, Parse, Plain, ToStatCode, FromStatCode;
    HeadReads(r, destWidth);
    StateSurvives(s);
    StatePlain(s);
    if destWidth == DEST_V20 {
      V20ReportRoundTrip(r);
    } else {
      V30ReportRoundTrip(r);
    }
  }
}
