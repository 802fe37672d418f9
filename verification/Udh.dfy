// The concatenation header in front of a long-message segment (3GPP TS 23.040,
// sections 9.2.3.24.1 and 9.2.3.24.8), with the two parsers the program keeps for it:
// Concat in the unified model and UdhParser in the long-message crate.
module Udh {
  import opened Wrappers
  import opened Bytes

  datatype Concat = Concat(reference: u16, total: u8, sequence: u8)

  datatype UdhHeader = UdhHeader(iei: u8, iedl: u8, referenceId: u16, totalSegments: u8, segmentNumber: u8)

  // One segment: its bookkeeping fields and its bytes, header included when hasUdhi is set.
  datatype LongMessageFrame = LongMessageFrame(
    referenceId: u16,
    totalSegments: u8,
    segmentNumber: u8,
    content: Octets,
    hasUdhi: bool,
    udh: Option<UdhHeader>
  )

  const IEI_CONCAT_8BIT: u8 := 0x00
  const IEI_CONCAT_16BIT: u8 := 0x08
  const HEADER_8BIT_LEN := 6
  const HEADER_16BIT_LEN := 7

  // Concat::to_udh_prefix
  function ToUdhPrefix(c: Concat): (p: Octets)
    ensures |p| == if c.reference <= 255 then HEADER_8BIT_LEN else HEADER_16BIT_LEN
  {
    if c.reference <= 255 then
      [0x05, 0x00, 0x03, c.reference, c.total, c.sequence]
    else
      [0x06, 0x08, 0x04, c.reference / 0x100, c.reference % 0x100, c.total, c.sequence]
  }

  // Concat::from_udh
  function FromUdh(content: Octets): (r: Option<(Concat, nat)>)
    ensures r.Some? ==> |ToUdhPrefix(r.value.0)| <= r.value.1 <= |content|
  {
    if content == [] then None
    else
      var udhl: int := content[0];
      if udhl == 0 || |content| < 1 + udhl then None
      else
        var udh := content[1..1 + udhl];
        if udh[0] == 0x08 && |udh| >= 6 then
          Some((Concat(FromBigEndian16(udh[2], udh[3]), udh[4], udh[5]), 1 + udhl))
        else if udh[0] == 0x00 && |udh| >= 5 then
          Some((Concat(udh[2], udh[3], udh[4]), 1 + udhl))
        else None
  }

  // UdhParser::parse_concat_udh
  function ParseConcatUdh(udh: Octets): (r: Option<UdhHeader>) {
    if udh == [] then None
    else if udh[0] == IEI_CONCAT_16BIT then
      if |udh| < 6 then None
      else Some(UdhHeader(udh[0], udh[1], FromBigEndian16(udh[2], udh[3]), udh[4], udh[5]))
    else if udh[0] == IEI_CONCAT_8BIT then
      if |udh| < 5 then None
      else Some(UdhHeader(udh[0], udh[1], udh[2], udh[3], udh[4]))
    else None
  }

  // UdhParser::extract_udh
  function ExtractUdh(content: Octets): (r: Option<(UdhHeader, nat)>)
    ensures r.Some? ==> r.value.1 <= |content|
  {
    if content == [] then None
    else
      var udhl: int := content[0];
      if udhl == 0 || |content| < 1 + udhl then None
      else
        var header :- ParseConcatUdh(content[1..1 + udhl]);
        Some((header, 1 + udhl))
  }

  // UdhParser::strip_udh
  function StripUdh(content: Octets): (payload: Octets) {
    match ExtractUdh(content)
    case Some((_, udhLen)) => content[udhLen..]
    case None => content
  }

  // The two parsers accept the same byte strings and read the same header from them.
  lemma ParsersAgree(content: Octets)
    ensures ExtractUdh(content).Some? <==> FromUdh(content).Some?
    ensures FromUdh(content).Some? ==>
              var (c, off) := FromUdh(content).value;
              var (h, len) := ExtractUdh(content).value;
              && off == len
              && c == Concat(h.referenceId, h.totalSegments, h.segmentNumber)
              && StripUdh(content) == content[off..]
  {
  }

  // Both parsers read back the header that was printed, whatever payload follows it.
  lemma PrefixRoundTrip(c: Concat, payload: Octets)
    ensures FromUdh(ToUdhPrefix(c) + payload) == Some((c, |ToUdhPrefix(c)|))
    ensures StripUdh(ToUdhPrefix(c) + payload) == payload
  {
  }

  // A byte string starts with a header its printer could have written exactly when the
  // canonical print of what was read is a prefix of it; the canonical print is never longer.
  lemma CanonicalPrefix(content: Octets)
    requires FromUdh(content).Some?
    ensures var (c, off) := FromUdh(content).value;
            && |ToUdhPrefix(c)| <= off
            && |ToUdhPrefix(c) + content[off..]| <= |content|
            && FromUdh(ToUdhPrefix(c) + content[off..]) == Some((c, |ToUdhPrefix(c)|))
            && (ToUdhPrefix(c) + content[off..] == content <==> ToUdhPrefix(c) == content[..off])
  {
  }
}
