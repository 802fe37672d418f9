// LongMessageSplitter: cutting a long content into segments under a concatenation header.
module Split {
  import opened Wrappers
  import opened Bytes
  import opened Udh
  import opened ReferenceId

  const GSM_7BIT_MULTI_MAX := 153
  const UCS2_MULTI_MAX := 67
  const BINARY_MULTI_MAX := 134

  datatype SmsAlphabet = GSM7 | ASCII | UCS2 | Binary

  function MaxPerSegment(alphabet: SmsAlphabet): (n: nat) {
    match alphabet
    case GSM7 | ASCII => GSM_7BIT_MULTI_MAX
    case UCS2 => UCS2_MULTI_MAX
    case Binary => BINARY_MULTI_MAX
  }

  function PayloadPerSegment(alphabet: SmsAlphabet, referenceId: u16): (n: nat)
    ensures n > 0
  {
    MaxPerSegment(alphabet) - (if referenceId > 255 then HEADER_16BIT_LEN else HEADER_8BIT_LEN)
  }

  // usize::div_ceil
  function DivCeil(n: nat, d: nat): (q: nat)
    requires d > 0
  {
    if n % d == 0 then n / d else n / d + 1
  }

  function Min(a: nat, b: nat): (m: nat) {
    if a < b then a else b
  }

  function Build8BitUdhFrame(referenceId: u8, total: u8, number: u8, segment: Octets): (r: (UdhHeader, Octets)) {
    (UdhHeader(IEI_CONCAT_8BIT, 3, referenceId, total, number),
     [0x05, 0x00, 0x03, referenceId, total, number] + segment)
  }

  function Build16BitUdhFrame(referenceId: u16, total: u8, number: u8, segment: Octets): (r: (UdhHeader, Octets)) {
    (UdhHeader(IEI_CONCAT_16BIT, 4, referenceId, total, number),
     [0x06, 0x08, 0x04, referenceId / 0x100, Low8(referenceId), total, number] + segment)
  }

  function BuildFrame(referenceId: u16, total: u8, number: u8, segment: Octets): (f: LongMessageFrame) {
    var (udh, content) :=
      if referenceId > 255 then Build16BitUdhFrame(referenceId, total, number, segment)
      else Build8BitUdhFrame(Low8(referenceId), total, number, segment);
    LongMessageFrame(referenceId, total, number, content, true, Some(udh))
  }

  // Where the i-th slice of `per` bytes starts; the program computes it as a product.
  function Offset(i: nat, per: nat): (o: nat) {
    if i == 0 then 0 else Offset(i - 1, per) + per
  }

  lemma {:induction false} OffsetIsProduct(i: nat, per: nat)
    ensures Offset(i, per) == i * per
  {
    if i > 0 {
      OffsetIsProduct(i - 1, per);
      assert i * per == (i - 1) * per + per;
    }
  }

  lemma {:induction false} OffsetMonotone(i: nat, j: nat, per: nat)
    requires i <= j
    ensures Offset(i, per) <= Offset(j, per)
    ensures i < j && per > 0 ==> Offset(i, per) < Offset(j, per)
  {
    if i < j {
      OffsetMonotone(i, j - 1, per);
    }
  }

  // The i-th slice, shorter at the end of the content.
  function Slice(content: Octets, per: nat, i: nat): (s: Octets)
    requires Offset(i, per) <= |content|
  {
    content[Offset(i, per)..Min(Offset(i, per) + per, |content|)]
  }

  // The first n frames of the segmentation.
  function Frames(content: Octets, per: nat, referenceId: u16, total: u8, n: nat): (fs: seq<LongMessageFrame>)
    requires n <= total
    requires n > 0 ==> Offset(n - 1, per) <= |content|
    ensures |fs| == n
  {
    if n == 0 then []
    else
      Frames(content, per, referenceId, total, n - 1)
      + [BuildFrame(referenceId, total, n, Slice(content, per, n - 1))]
  }

  function SingleFrame(content: Octets): (fs: seq<LongMessageFrame>) {
    [LongMessageFrame(0, 1, 1, content, false, None)]
  }

  // `div_ceil(..) as u8`: the announced number of segments.
  function TotalSegments(len: nat, per: nat): (total: u8)
    requires per > 0
  {
    Low8(DivCeil(len, per))
  }

  lemma TotalFits(len: nat, per: nat)
    requires per > 0
    ensures var needed, total := DivCeil(len, per), TotalSegments(len, per);
            && len <= Offset(needed, per)
            && (needed > 0 ==> Offset(needed - 1, per) < len)
            && total <= needed
            && (total > 0 ==> Offset(total - 1, per) < len)
            && (needed <= 255 <==> len <= Offset(255, per))
  {
    var needed, total := DivCeil(len, per), TotalSegments(len, per);
    assert len == len / per * per + len % per;
    OffsetIsProduct(len / per, per);
    if needed > 0 {
      OffsetIsProduct(needed - 1, per);
    }
    if total > 0 {
      OffsetMonotone(total - 1, needed - 1, per);
    }
    if needed <= 255 {
      OffsetMonotone(needed, 255, per);
    } else {
      OffsetMonotone(255, needed - 1, per);
    }
  }

  // The next slice, where the program computes its bounds, and the frame it becomes.
  lemma OneMoreFrame(content: Octets, per: nat, referenceId: u16, total: u8, i: nat)
    requires i < total && Offset(i, per) <= |content| && (i > 0 ==> Offset(i - 1, per) <= |content|)
    ensures i * per <= Min(i * per + per, |content|) <= |content|
    ensures Frames(content, per, referenceId, total, i + 1) ==
            Frames(content, per, referenceId, total, i)
            + [BuildFrame(referenceId, total, i + 1, content[i * per..Min(i * per + per, |content|)])]
  {
    OffsetIsProduct(i, per);
    hide BuildFrame;
  }

  // What split returns, as a function of the reference the generator hands out.
  function Segmentation(content: Octets, alphabet: SmsAlphabet, referenceId: u16): (fs: seq<LongMessageFrame>) {
    if |content| <= MaxPerSegment(alphabet) then SingleFrame(content)
    else
      var per := PayloadPerSegment(alphabet, referenceId);
      TotalFits(|content|, per);
      var total := TotalSegments(|content|, per);
      Frames(content, per, referenceId, total, total)
  }

  // One turn of the splitter's loop.
  method NextSegment(content: Octets, per: nat, referenceId: u16, total: u8, i: nat) returns (frame: LongMessageFrame)
    requires i < total && i * per <= Min(i * per + per, |content|) <= |content|
    ensures frame == BuildFrame(referenceId, total, i + 1, content[i * per..Min(i * per + per, |content|)])
  {
    var start := i * per;
    var end := Min(start + per, |content|);
    var segment := content[start..end];
    var udh, bytes;
    if referenceId > 255 {
      var built := Build16BitUdhFrame(referenceId, total, i + 1, segment);
      udh, bytes := built.0, built.1;
    } else {
      var built := Build8BitUdhFrame(Low8(referenceId), total, i + 1, segment);
      udh, bytes := built.0, built.1;
    }
    frame := LongMessageFrame(referenceId, total, i + 1, bytes, true, Some(udh));
  }

  class LongMessageSplitter {
    const generator: ReferenceIdGenerator

    constructor WithGenerator(g: ReferenceIdGenerator)
      ensures generator == g
    {
      generator := g;
    }

    method Split(content: Octets, alphabet: SmsAlphabet) returns (frames: seq<LongMessageFrame>)
      modifies generator
      ensures frames == Segmentation(content, alphabet, Low16(old(generator.counter)))
      ensures generator.counter == if |content| <= MaxPerSegment(alphabet) then old(generator.counter)
                                   else Advance(old(generator.counter), 1)
    {
      hide DivCeil;
      var maxPerSegment := MaxPerSegment(alphabet);
      if |content| <= maxPerSegment {
        return SingleFrame(content);
      }
      var referenceId := generator.NextReferenceId();
      var udhLen := if referenceId > 255 then HEADER_16BIT_LEN else HEADER_8BIT_LEN;
      var per := maxPerSegment - udhLen;
      var total: u8 := Low8(DivCeil(|content|, per));
      TotalFits(|content|, per);
      assert per == PayloadPerSegment(alphabet, referenceId) && total == TotalSegments(|content|, per);
      frames := [];
      assert frames == Frames(content, per, referenceId, total, 0);
      hide PayloadPerSegment, MaxPerSegment, TotalSegments, Frames, Offset, Advance, Low16;
      var i := 0;
      while i < total
        invariant 0 <= i <= total
        invariant i > 0 ==> Offset(i - 1, per) <= |content|
        invariant generator.counter == Advance(old(generator.counter), 1)
        invariant frames == Frames(content, per, referenceId, total, i)
      {
        OffsetMonotone(i, total - 1, per);
        OneMoreFrame(content, per, referenceId, total, i);
        var frame := NextSegment(content, per, referenceId, total, i);
        frames := frames + [frame];
        i := i + 1;
      }
    }
  }

  // The bytes a receiver keeps of a frame, and of a run of frames in order.
  function Payload(f: LongMessageFrame): (p: Octets) {
    if f.hasUdhi then StripUdh(f.content) else f.content
  }

  function Payloads(fs: seq<LongMessageFrame>): (p: Octets) {
    if fs == [] then [] else Payloads(fs[..|fs| - 1]) + Payload(fs[|fs| - 1])
  }

  // The header bytes the splitter writes by hand are the unified model's prefix, so either
  // parser reads the frame's own fields back from them and the rest is the segment.
  lemma FrameBytes(referenceId: u16, total: u8, number: u8, segment: Octets)
    ensures var f := BuildFrame(referenceId, total, number, segment);
            var c := Concat(referenceId, total, number);
            && f.content == ToUdhPrefix(c) + segment
            && FromUdh(f.content) == Some((c, |ToUdhPrefix(c)|))
            && ExtractUdh(f.content) == Some((f.udh.value, |ToUdhPrefix(c)|))
            && Payload(f) == segment
  {
  }

  // The frame that Frames appends, with what the following proofs need of it.
  lemma NextFrame(content: Octets, per: nat, referenceId: u16, total: u8, n: nat) returns (f: LongMessageFrame)
    requires 0 < n <= total
    requires Offset(n - 1, per) <= |content|
    ensures f == BuildFrame(referenceId, total, n, Slice(content, per, n - 1))
    ensures Frames(content, per, referenceId, total, n) == Frames(content, per, referenceId, total, n - 1) + [f]
    ensures Payload(f) == Slice(content, per, n - 1)
    ensures |f.content| == |Slice(content, per, n - 1)| + (if referenceId > 255 then HEADER_16BIT_LEN else HEADER_8BIT_LEN)
  {
    f := BuildFrame(referenceId, total, n, Slice(content, per, n - 1));
    FrameBytes(referenceId, total, n, Slice(content, per, n - 1));
  }

  lemma CoverOneMore(content: Octets, per: nat, i: nat, before: seq<LongMessageFrame>, f: LongMessageFrame)
    requires Offset(i, per) <= |content|
    requires Payloads(before) == content[..Offset(i, per)] && Payload(f) == Slice(content, per, i)
    ensures Payloads(before + [f]) == content[..Min(Offset(i + 1, per), |content|)]
  {
  }

  // The first n payloads are the content up to the n-th boundary.
  lemma {:induction false} FramesCover(content: Octets, per: nat, referenceId: u16, total: u8, n: nat)
    requires n <= total
    requires n > 0 ==> Offset(n - 1, per) <= |content|
    ensures Payloads(Frames(content, per, referenceId, total, n)) == content[..Min(Offset(n, per), |content|)]
  {
    if n > 0 {
      FramesCover(content, per, referenceId, total, n - 1);
      var f := NextFrame(content, per, referenceId, total, n);
      CoverOneMore(content, per, n - 1, Frames(content, per, referenceId, total, n - 1), f);
    }
  }

  lemma {:induction false} FrameAt(content: Octets, per: nat, referenceId: u16, total: u8, n: nat, i: nat)
    requires i < n <= total
    requires Offset(n - 1, per) <= |content|
    ensures Offset(i, per) <= Offset(n - 1, per)
    ensures Frames(content, per, referenceId, total, n)[i] == Frames(content, per, referenceId, total, i + 1)[i]
  {
    if i < n - 1 {
      FrameAt(content, per, referenceId, total, n - 1, i);
    }
  }

  // Split is an exact partition precisely for contents of at most 255 payloads; beyond that
  // the announced total has wrapped and the tail is lost.
  lemma SplitIsPartitionIff(content: Octets, alphabet: SmsAlphabet, referenceId: u16)
    ensures Payloads(Segmentation(content, alphabet, referenceId)) == content
            <==> |content| <= 255 * PayloadPerSegment(alphabet, referenceId)
  {
    var per, len := PayloadPerSegment(alphabet, referenceId), |content|;
    if len <= MaxPerSegment(alphabet) {
      SinglePayload(content);
    } else {
      var total := TotalSegments(len, per);
      TotalFits(len, per);
      TotalReaches(len, per);
      FramesCover(content, per, referenceId, total, total);
      assert Segmentation(content, alphabet, referenceId) == Frames(content, per, referenceId, total, total);
      hide Frames, Payloads, Segmentation, Offset, PayloadPerSegment, TotalSegments;
      WholeIffReached(content, Min(Offset(total, per), len));
    }
  }

  // The announced segments hold the content exactly when 255 of them would.
  lemma TotalReaches(len: nat, per: nat)
    requires per > 0
    ensures len <= Offset(TotalSegments(len, per), per) <==> len <= 255 * per
  {
    TotalFits(len, per);
    OffsetIsProduct(255, per);
    var needed, total := DivCeil(len, per), TotalSegments(len, per);
    hide Offset, DivCeil;
    if needed > 255 {
      OffsetMonotone(total, 255, per);
    }
  }

  lemma SinglePayload(content: Octets)
    ensures Payloads(SingleFrame(content)) == content
  {
  }

  lemma WholeIffReached(content: Octets, n: nat)
    requires n <= |content|
    ensures content[..n] == content <==> n == |content|
  {
  }

  ghost predicate SegmentOk(content: Octets, alphabet: SmsAlphabet, referenceId: u16, total: u8, i: nat, f: LongMessageFrame)
    requires i < 255
  {
    var per := PayloadPerSegment(alphabet, referenceId);
    && Offset(i, per) < |content|
    && f == BuildFrame(referenceId, total, i + 1, Slice(content, per, i))
    && Payload(f) == Slice(content, per, i) != []
    && |f.content| <= MaxPerSegment(alphabet)
    && (i + 1 < total ==> |f.content| == MaxPerSegment(alphabet))
  }

  lemma SliceWidth(content: Octets, alphabet: SmsAlphabet, referenceId: u16, i: nat)
    ensures var per := PayloadPerSegment(alphabet, referenceId);
            && per + (if referenceId > 255 then HEADER_16BIT_LEN else HEADER_8BIT_LEN) == MaxPerSegment(alphabet)
            && (Offset(i, per) < |content| ==>
                  && Slice(content, per, i) != [] && |Slice(content, per, i)| <= per
                  && (Offset(i + 1, per) <= |content| ==> |Slice(content, per, i)| == per))
  {
  }

  lemma SegmentAt(content: Octets, alphabet: SmsAlphabet, referenceId: u16, total: u8, i: nat)
    requires i < total
    requires Offset(total - 1, PayloadPerSegment(alphabet, referenceId)) < |content|
    ensures SegmentOk(content, alphabet, referenceId, total, i,
                      Frames(content, PayloadPerSegment(alphabet, referenceId), referenceId, total, total)[i])
  {
    var per := PayloadPerSegment(alphabet, referenceId);
    hide Slice, BuildFrame, Payload, PayloadPerSegment, MaxPerSegment, Frames, Offset;
    FrameAt(content, per, referenceId, total, total, i);
    OffsetMonotone(i, total - 1, per);
    if i + 1 < total {
      OffsetMonotone(i + 1, total - 1, per);
    }
    SliceWidth(content, alphabet, referenceId, i);
    var f := NextFrame(content, per, referenceId, total, i + 1);
  }

  // How many segments there are, in numbers: up to 153 bytes of 7-bit text, 67 of UCS-2 or 134 of binary
  // data travel in one; otherwise a segment holds 6 or 7 bytes less.
  lemma SegmentCount(content: Octets, alphabet: SmsAlphabet, referenceId: u16)
    ensures var limit := if alphabet == UCS2 then 67 else if alphabet == Binary then 134 else 153;
            var per := limit - (if referenceId <= 255 then 6 else 7);
            var n := |Segmentation(content, alphabet, referenceId)|;
            && (|content| <= limit ==> n == 1 && Segmentation(content, alphabet, referenceId)[0].content == content)
            && (limit < |content| <= 255 * per ==> 2 <= n && (n - 1) * per < |content| <= n * per)
  {
    if MaxPerSegment(alphabet) < |content| <= 255 * PayloadPerSegment(alphabet, referenceId) {
      SegmentsWellFormed(content, alphabet, referenceId);
    }
    hide Frames, DivCeil, SegmentOk, TotalSegments;
  }

  // Every frame of a partition: numbered 1..total under one reference, carrying its slice,
  // filling the alphabet's limit except at the end; total is the least number of payloads that
  // holds the content.
  lemma SegmentsWellFormed(content: Octets, alphabet: SmsAlphabet, referenceId: u16)
    requires MaxPerSegment(alphabet) < |content| <= 255 * PayloadPerSegment(alphabet, referenceId)
    ensures var fs := Segmentation(content, alphabet, referenceId);
            && 2 <= |fs| <= 255
            && (|fs| - 1) * PayloadPerSegment(alphabet, referenceId) < |content|
            && |content| <= |fs| * PayloadPerSegment(alphabet, referenceId)
            && forall i :: 0 <= i < |fs| ==> SegmentOk(content, alphabet, referenceId, |fs|, i, fs[i])
  {
    var per, len := PayloadPerSegment(alphabet, referenceId), |content|;
    TotalFits(len, per);
    OffsetIsProduct(255, per);
    var total := TotalSegments(len, per);
    OffsetIsProduct(total - 1, per);
    OffsetIsProduct(total, per);
    assert Offset(1, per) == Offset(0, per) + per;
    forall i | 0 <= i < total
      ensures SegmentOk(content, alphabet, referenceId, total, i, Segmentation(content, alphabet, referenceId)[i])
    {
      SegmentAt(content, alphabet, referenceId, total, i);
    }
  }

  // The smallest content whose announced total wraps to zero: split returns no frame at all.
  lemma WrappedTotalLosesEverything(content: Octets)
    requires |content| == 256 * PayloadPerSegment(Binary, 0)
    ensures Segmentation(content, Binary, 0) == []
  {
  }
}
