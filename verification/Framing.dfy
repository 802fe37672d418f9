// Cutting protocol frames out of a byte stream: the resynchronising decoders of the client and
// the server, and the strict decoders of the codec crates.
module Framing {
  import opened Wrappers
  import opened Bytes

  const MAX_FRAME := 100_000

  function PeekLength(b: Octets): (n: u32)
    requires |b| >= 4
  {
    ReadU32(b, 0)
  }

  // What a resynchronising decoder makes of the stream, byte by byte.
  datatype Item = Whole(data: Octets) | Skipped(octet: u8) {
    function Source(): (b: Octets) {
      match this
      case Whole(data) => data
      case Skipped(octet) => [octet]
    }
  }

  // A length outside lo..hi is passed over one byte at a time; an incomplete frame stays.
  function Scan(b: Octets, lo: nat, hi: nat): (r: (seq<Item>, Octets))
    requires 4 <= lo
  {
    if |b| < 4 then ([], b)
    else
      var total := PeekLength(b);
      if total < lo || total > hi then
        var (items, rest) := Scan(b[1..], lo, hi);
        ([Skipped(b[0])] + items, rest)
      else if total > |b| then ([], b)
      else
        var (items, rest) := Scan(b[total..], lo, hi);
        ([Whole(b[..total])] + items, rest)
  }

  function WholeFrames(items: seq<Item>): (fs: seq<Octets>) {
    if items == [] then []
    else if items[0].Whole? then [items[0].data] + WholeFrames(items[1..])
    else WholeFrames(items[1..])
  }

  function Sources(items: seq<Item>): (b: Octets) {
    if items == [] then [] else items[0].Source() + Sources(items[1..])
  }

  function Flatten(chunks: seq<Octets>): (b: Octets) {
    if chunks == [] then [] else chunks[0] + Flatten(chunks[1..])
  }

  // A frame handed to the rest of the program, with the identifiers read from its header.
  datatype Frame = Frame(commandId: u32, sequenceId: u32, data: Octets)

  // extract_cmpp_header (sequence at 8) and extract_sgip_header (sequence at 12).
  function ExtractHeader(data: Octets, seqOffset: nat): (f: Frame)
    requires 4 <= seqOffset && seqOffset + 4 <= |data|
  {
    Frame(ReadU32(data, 4), ReadU32(data, seqOffset), data)
  }

  // The server accepts frames too short for a header and reads zeros.
  function ServerHeader(data: Octets, seqOffset: nat): (f: Frame) {
    Frame(if |data| >= 8 then ReadU32(data, 4) else 0,
          if |data| >= seqOffset + 4 then ReadU32(data, seqOffset) else 0,
          data)
  }

  function ServerHeaders(fs: seq<Octets>, seqOffset: nat): (r: seq<Frame>)
    ensures |r| == |fs|
  {
    seq(|fs|, i requires 0 <= i < |fs| => ServerHeader(fs[i], seqOffset))
  }

  // The item at the head of a stream that can be passed, and the bytes it takes up.
  function Head(b: Octets, lo: nat, hi: nat): (item: Item)
    requires 4 <= |b| && (lo <= PeekLength(b) <= hi ==> PeekLength(b) <= |b|)
  {
    if lo <= PeekLength(b) <= hi then Whole(b[..PeekLength(b)]) else Skipped(b[0])
  }

  function HeadSize(b: Octets, lo: nat, hi: nat): (n: nat)
    requires 4 <= |b|
  {
    if lo <= PeekLength(b) <= hi then PeekLength(b) else 1
  }

  lemma ScanStep(b: Octets, lo: nat, hi: nat)
    requires 4 <= lo && 4 <= |b| && HeadSize(b, lo, hi) <= |b|
    ensures var (items, rest) := Scan(b[HeadSize(b, lo, hi)..], lo, hi);
            Scan(b, lo, hi) == ([Head(b, lo, hi)] + items, rest)
  {
  }

  // The head of a stream does not change when more bytes arrive.
  lemma HeadOfPrefix(a: Octets, c: Octets, lo: nat, hi: nat)
    requires 4 <= lo && 4 <= |a| && HeadSize(a, lo, hi) <= |a|
    ensures HeadSize(a + c, lo, hi) == HeadSize(a, lo, hi)
    ensures Head(a + c, lo, hi) == Head(a, lo, hi)
    ensures (a + c)[HeadSize(a, lo, hi)..] == a[HeadSize(a, lo, hi)..] + c
  {
  }

  // The growing read buffer of a connection.
  class ReadBuffer {
    var data: Octets

    constructor ()
      ensures data == []
    {
      data := [];
    }

    method Extend(chunk: Octets)
      modifies this
      ensures data == old(data) + chunk
    {
      data := data + chunk;
    }
  }

  lemma {:induction false} WholeFramesAppend(a: seq<Item>, b: seq<Item>)
    ensures WholeFrames(a + b) == WholeFrames(a) + WholeFrames(b)
  {
    if a == [] {
      assert a + b == b;
    } else {
      assert (a + b)[1..] == a[1..] + b;
      WholeFramesAppend(a[1..], b);
    }
  }

  // The frames a decoder has pushed for the items it has passed.
  ghost predicate Pushed(out: seq<Frame>, items: seq<Item>, seqOffset: nat) {
    out == ServerHeaders(WholeFrames(items), seqOffset)
  }

  lemma PushOne(out: seq<Frame>, items: seq<Item>, item: Item, seqOffset: nat)
    requires Pushed(out, items, seqOffset)
    ensures Pushed(if item.Whole? then out + [ServerHeader(item.data, seqOffset)] else out, items + [item], seqOffset)
  {
    WholeFramesAppend(items, [item]);
  }

  // The decoder is at the given place in the stream, having passed the items.
  ghost predicate Reached(stream: Octets, items: seq<Item>, here: Octets, lo: nat, hi: nat)
    requires 4 <= lo
  {
    Scan(stream, lo, hi) == (items + Scan(here, lo, hi).0, Scan(here, lo, hi).1)
  }

  lemma ReachedNext(stream: Octets, items: seq<Item>, item: Item, here: Octets, next: Octets, lo: nat, hi: nat)
    requires 4 <= lo && Reached(stream, items, here, lo, hi)
    requires Scan(here, lo, hi) == ([item] + Scan(next, lo, hi).0, Scan(next, lo, hi).1)
    ensures Reached(stream, items + [item], next, lo, hi)
  {
    assert items + ([item] + Scan(next, lo, hi).0) == items + [item] + Scan(next, lo, hi).0;
  }

  // A decoder's loop has passed the items before off and pushed their frames.
  ghost predicate At(stream: Octets, off: nat, items: seq<Item>, out: seq<Frame>, lo: nat, hi: nat, seqOffset: nat)
    requires 4 <= lo
  {
    && off <= |stream|
    && Reached(stream, items, stream[off..], lo, hi)
    && Pushed(out, items, seqOffset)
  }

  // One turn of the loop: a byte is skipped, or a frame is taken.
  lemma PassByte(stream: Octets, off: nat, items: seq<Item>, out: seq<Frame>, lo: nat, hi: nat, seqOffset: nat)
    requires 4 <= lo && At(stream, off, items, out, lo, hi, seqOffset) && off + 4 <= |stream|
    requires !(lo <= ReadU32(stream, off) <= hi)
    ensures At(stream, off + 1, items + [Skipped(stream[off])], out, lo, hi, seqOffset)
  {
    hide Scan, ReadU32, ServerHeaders, WholeFrames, ServerHeader, Pushed, Reached;
    ReachItem(stream, off, items, Skipped(stream[off]), lo, hi);
    PushOne(out, items, Skipped(stream[off]), seqOffset);
  }

  lemma PassFrame(stream: Octets, off: nat, items: seq<Item>, out: seq<Frame>, data: Octets, lo: nat, hi: nat, seqOffset: nat)
    requires 4 <= lo && At(stream, off, items, out, lo, hi, seqOffset) && off + 4 <= |stream|
    requires lo <= ReadU32(stream, off) <= hi && off + ReadU32(stream, off) <= |stream|
    requires data == stream[off..off + ReadU32(stream, off)]
    ensures At(stream, off + ReadU32(stream, off), items + [Whole(data)], out + [ServerHeader(data, seqOffset)], lo, hi, seqOffset)
  {
    hide Scan, ReadU32, ServerHeaders, WholeFrames, ServerHeader, Pushed, Reached;
    ReachItem(stream, off, items, Whole(data), lo, hi);
    PushOne(out, items, Whole(data), seqOffset);
  }

  lemma ReachItem(stream: Octets, off: nat, items: seq<Item>, item: Item, lo: nat, hi: nat)
    requires 4 <= lo && off + 4 <= |stream| && Reached(stream, items, stream[off..], lo, hi)
    requires var total := ReadU32(stream, off);
             if lo <= total <= hi then off + total <= |stream| && item == Whole(stream[off..off + total])
             else item == Skipped(stream[off])
    ensures var total := ReadU32(stream, off);
            Reached(stream, items + [item], stream[off + (if lo <= total <= hi then total else 1)..], lo, hi)
  {
    var here := stream[off..];
    var n := HeadSize(here, lo, hi);
    ScanStep(here, lo, hi);
    DropDrop(stream, off, n);
    ReachedNext(stream, items, item, here, stream[off + n..], lo, hi);
  }

  lemma DropDrop(s: Octets, i: nat, j: nat)
    requires i + j <= |s|
    ensures s[i..][j..] == s[i + j..] && s[i..][..j] == s[i..i + j]
  {
  }

  lemma AtStart(stream: Octets, lo: nat, hi: nat, seqOffset: nat)
    requires 4 <= lo
    ensures At(stream, 0, [], [], lo, hi, seqOffset)
  {
    assert stream[0..] == stream && [] + Scan(stream, lo, hi).0 == Scan(stream, lo, hi).0;
  }

  lemma AtEnd(stream: Octets, off: nat, items: seq<Item>, out: seq<Frame>, lo: nat, hi: nat, seqOffset: nat)
    requires 4 <= lo && At(stream, off, items, out, lo, hi, seqOffset)
    requires off + 4 > |stream| || (lo <= ReadU32(stream, off) <= hi && off + ReadU32(stream, off) > |stream|)
    ensures Scan(stream, lo, hi) == (items, stream[off..]) && Pushed(out, items, seqOffset)
  {
    assert Scan(stream[off..], lo, hi) == ([], stream[off..]);
    assert items + [] == items;
  }

  // Server and client read the same identifiers from every frame long enough for a header.
  lemma HeadersAgree(data: Octets, seqOffset: nat)
    requires 4 <= seqOffset && seqOffset + 4 <= |data|
    ensures ExtractHeader(data, seqOffset) == ServerHeader(data, seqOffset)
  {
  }

  // client.rs: decode_frames
  method DecodeFrames(buf: ReadBuffer, minLen: nat, seqOffset: nat) returns (out: seq<Frame>)
    requires 4 <= seqOffset && seqOffset + 4 <= minLen
    modifies buf
    ensures var (items, rest) := Scan(old(buf.data), minLen, MAX_FRAME);
            buf.data == rest && Pushed(out, items, seqOffset)
  {
    hide At;
    out := [];
    var off := 0;
    ghost var stream, items: seq<Item> := buf.data, [];
    AtStart(stream, minLen, MAX_FRAME, seqOffset);
    while |buf.data| - off >= 4
      invariant 0 <= off <= |buf.data| && buf.data == stream
      invariant At(stream, off, items, out, minLen, MAX_FRAME, seqOffset)
      decreases |buf.data| - off
    {
      var total := FromBigEndian32(buf.data[off], buf.data[off + 1], buf.data[off + 2], buf.data[off + 3]);
      if total < minLen || total > MAX_FRAME {
        PassByte(stream, off, items, out, minLen, MAX_FRAME, seqOffset);
        items := items + [Skipped(stream[off])];
        off := off + 1;
        continue;
      }
      if total > |buf.data| - off {
        break;
      }
      var frameData := buf.data[off..off + total];
      PassFrame(stream, off, items, out, frameData, minLen, MAX_FRAME, seqOffset);
      items := items + [Whole(frameData)];
      HeadersAgree(frameData, seqOffset);
      off := off + total;
      out := out + [ExtractHeader(frameData, seqOffset)];
    }
    AtEnd(stream, off, items, out, minLen, MAX_FRAME, seqOffset);
    if off > 0 {
      buf.data := buf.data[off..];
    }
  }

  // connection.rs: decode_frames_drain, which takes any length from 4 up
  method DecodeFramesDrain(buf: ReadBuffer, seqOffset: nat) returns (frames: seq<Frame>)
    requires 4 <= seqOffset
    modifies buf
    ensures var (items, rest) := Scan(old(buf.data), 4, MAX_FRAME);
            buf.data == rest && Pushed(frames, items, seqOffset)
  {
    hide At;
    frames := [];
    var off := 0;
    ghost var stream, items: seq<Item> := buf.data, [];
    AtStart(stream, 4, MAX_FRAME, seqOffset);
    while |buf.data| - off >= 4
      invariant 0 <= off <= |buf.data| && buf.data == stream
      invariant At(stream, off, items, frames, 4, MAX_FRAME, seqOffset)
      decreases |buf.data| - off
    {
      var total := FromBigEndian32(buf.data[off], buf.data[off + 1], buf.data[off + 2], buf.data[off + 3]);
      if !(4 <= total <= MAX_FRAME) {
        PassByte(stream, off, items, frames, 4, MAX_FRAME, seqOffset);
        items := items + [Skipped(stream[off])];
        off := off + 1;
        continue;
      }
      if total > |buf.data| - off {
        break;
      }
      var data := buf.data[off..off + total];
      PassFrame(stream, off, items, frames, data, 4, MAX_FRAME, seqOffset);
      items := items + [Whole(data)];
      off := off + total;
      var commandId := if |data| >= 8 then ReadU32(data, 4) else 0;
      var sequenceId := if |data| >= seqOffset + 4 then ReadU32(data, seqOffset) else 0;
      frames := frames + [Frame(commandId, sequenceId, data)];
    }
    AtEnd(stream, off, items, frames, 4, MAX_FRAME, seqOffset);
    if off > 0 {
      buf.data := buf.data[off..];
    }
  }

  // The strict decoders: a bad length is an error. CMPP's has no upper bound.

  datatype Strict = Decoded(frames: seq<Octets>, rest: Octets) | BadLength(total: u32, rest: Octets)

  function StrictScan(b: Octets, lo: nat, hi: nat): (r: Strict)
    requires 4 <= lo
  {
    if |b| < 4 then Decoded([], b)
    else
      var total := PeekLength(b);
      if total < lo || total > hi then BadLength(total, b)
      else if total > |b| then Decoded([], b)
      else
        match StrictScan(b[total..], lo, hi)
        case Decoded(frames, rest) => Decoded([b[..total]] + frames, rest)
        case BadLength(n, rest) => BadLength(n, rest)
  }

  class StrictDecoder {
    var buf: Octets
    const lo: nat
    const hi: nat

    constructor (lo: nat, hi: nat)
      ensures buf == [] && this.lo == lo && this.hi == hi
    {
      buf, this.lo, this.hi := [], lo, hi;
    }

    method DecodeFrames(chunk: Octets) returns (r: Result<seq<Octets>, u32>)
      requires 4 <= lo
      modifies this
      ensures buf == StrictScan(old(buf) + chunk, lo, hi).rest
      ensures match StrictScan(old(buf) + chunk, lo, hi)
              case Decoded(frames, _) => r == Ok(frames)
              case BadLength(total, _) => r == Err(total)
    {
      buf := buf + chunk;
      ghost var stream := buf;
      var out: seq<Octets> := [];
      while true
        invariant var now := StrictScan(buf, lo, hi);
                  StrictScan(stream, lo, hi) == if now.Decoded? then Decoded(out + now.frames, now.rest) else now
        decreases |buf|
      {
        if |buf| < 4 {
          break;
        }
        var total := FromBigEndian32(buf[0], buf[1], buf[2], buf[3]);
        if total < lo || total > hi {
          return Err(total);
        }
        if |buf| < total {
          break;
        }
        var frame := buf[..total];
        ghost var later := StrictScan(buf[total..], lo, hi);
        buf := buf[total..];
        assert later.Decoded? ==> out + ([frame] + later.frames) == out + [frame] + later.frames;
        out := out + [frame];
      }
      assert out + [] == out;
      r := Ok(out);
    }
  }

  // Nothing is lost and nothing is invented: the frames, the skipped bytes and the leftover are
  // the stream, in order; frames are well formed and the leftover is short.
  ghost predicate Conserved(b: Octets, cut: (seq<Item>, Octets), lo: nat, hi: nat) {
    && Sources(cut.0) + cut.1 == b
    && |cut.1| < hi
    && forall i :: 0 <= i < |cut.0| ==> FramedWithin(cut.0[i], lo, hi)
  }

  lemma {:induction false} ScanConserves(b: Octets, lo: nat, hi: nat)
    requires 4 <= lo <= hi
    ensures Conserved(b, Scan(b, lo, hi), lo, hi)
  {
    if |b| >= 4 && HeadSize(b, lo, hi) <= |b| {
      var n, head := HeadSize(b, lo, hi), Head(b, lo, hi);
      ScanConserves(b[n..], lo, hi);
      ScanStep(b, lo, hi);
      HeadFramed(b, lo, hi);
      ConservedCons(head, b[n..], Scan(b[n..], lo, hi), lo, hi);
    }
  }

  lemma ConservedCons(head: Item, b: Octets, cut: (seq<Item>, Octets), lo: nat, hi: nat)
    requires Conserved(b, cut, lo, hi) && FramedWithin(head, lo, hi)
    ensures Conserved(head.Source() + b, ([head] + cut.0, cut.1), lo, hi)
  {
  }

  ghost predicate FramedWithin(item: Item, lo: nat, hi: nat) {
    item.Whole? ==> |item.data| >= 4 && lo <= |item.data| <= hi && PeekLength(item.data) == |item.data|
  }

  lemma HeadFramed(b: Octets, lo: nat, hi: nat)
    requires 4 <= lo && 4 <= |b| && HeadSize(b, lo, hi) <= |b|
    ensures FramedWithin(Head(b, lo, hi), lo, hi)
    ensures var n := HeadSize(b, lo, hi); Head(b, lo, hi).Source() == b[..n] && b == b[..n] + b[n..]
  {
  }

  // What a decoder that had passed some items makes of the leftover and the bytes c.
  function ScanOn(sofar: (seq<Item>, Octets), c: Octets, lo: nat, hi: nat): (r: (seq<Item>, Octets))
    requires 4 <= lo
  {
    var (more, rest) := Scan(sofar.1 + c, lo, hi);
    (sofar.0 + more, rest)
  }

  lemma ScanJoin(head: Item, later: (seq<Item>, Octets), c: Octets, lo: nat, hi: nat)
    requires 4 <= lo
    ensures var (items, rest) := ScanOn(later, c, lo, hi);
            ScanOn(([head] + later.0, later.1), c, lo, hi) == ([head] + items, rest)
  {
    var more := Scan(later.1 + c, lo, hi).0;
    assert [head] + (later.0 + more) == [head] + later.0 + more;
  }

  // Decoding a stream in two pieces, the leftover carried over, is decoding it whole: skipping
  // never looks further than the bytes it has.
  lemma {:induction false} ScanAppend(a: Octets, c: Octets, lo: nat, hi: nat)
    requires 4 <= lo
    ensures Scan(a + c, lo, hi) == ScanOn(Scan(a, lo, hi), c, lo, hi)
  {
    if |a| < 4 || HeadSize(a, lo, hi) > |a| {
      var more := Scan(a + c, lo, hi).0;
      assert Scan(a, lo, hi) == ([], a) && [] + more == more;
    } else {
      var n, head := HeadSize(a, lo, hi), Head(a, lo, hi);
      ScanAppend(a[n..], c, lo, hi);
      HeadOfPrefix(a, c, lo, hi);
      ScanStep(a, lo, hi);
      ScanStep(a + c, lo, hi);
      ScanJoin(head, Scan(a[n..], lo, hi), c, lo, hi);
    }
  }

  // A connection that reads chunk after chunk.
  function Feed(rest: Octets, chunks: seq<Octets>, lo: nat, hi: nat): (r: (seq<Item>, Octets))
    requires 4 <= lo
    decreases |chunks|
  {
    if chunks == [] then ([], rest)
    else
      var (items, rest') := Scan(rest + chunks[0], lo, hi);
      var (more, rest'') := Feed(rest', chunks[1..], lo, hi);
      (items + more, rest'')
  }

  // Chunking invariance: however the stream is cut up, what is decoded and what is left over
  // are those of the whole.
  lemma {:induction false} ChunkingInvariance(rest: Octets, chunks: seq<Octets>, lo: nat, hi: nat)
    requires 4 <= lo && Scan(rest, lo, hi) == ([], rest)
    ensures Feed(rest, chunks, lo, hi) == Scan(rest + Flatten(chunks), lo, hi)
    decreases |chunks|
  {
    hide Scan;
    if chunks == [] {
      assert rest + [] == rest;
    } else {
      var here, later := rest + chunks[0], Flatten(chunks[1..]);
      LeftoverIsStuck(here, lo, hi);
      ChunkingInvariance(Scan(here, lo, hi).1, chunks[1..], lo, hi);
      ScanAppend(here, later, lo, hi);
      assert rest + Flatten(chunks) == here + later;
    }
  }

  lemma {:induction false} LeftoverIsStuck(b: Octets, lo: nat, hi: nat)
    requires 4 <= lo
    ensures var rest := Scan(b, lo, hi).1; Scan(rest, lo, hi) == ([], rest)
  {
    if |b| >= 4 {
      var total := PeekLength(b);
      if total < lo || total > hi {
        LeftoverIsStuck(b[1..], lo, hi);
      } else if total <= |b| {
        LeftoverIsStuck(b[total..], lo, hi);
      }
    }
  }

  ghost predicate AllWhole(items: seq<Item>) {
    forall i :: 0 <= i < |items| ==> items[i].Whole?
  }

  // The strict decoder succeeds exactly when the resynchronising one skips nothing, and then
  // they cut the same frames and keep the same leftover.
  lemma {:induction false} StrictAgrees(b: Octets, lo: nat, hi: nat)
    requires 4 <= lo
    ensures var (items, rest) := Scan(b, lo, hi);
            && (StrictScan(b, lo, hi).Decoded? <==> AllWhole(items))
            && (AllWhole(items) ==> StrictScan(b, lo, hi) == Decoded(WholeFrames(items), rest))
  {
    if |b| >= 4 {
      var total := PeekLength(b);
      var (items, rest) := Scan(b, lo, hi);
      if total < lo || total > hi {
        assert items[0] == Skipped(b[0]);
      } else if total <= |b| {
        StrictAgrees(b[total..], lo, hi);
        var later := Scan(b[total..], lo, hi).0;
        assert items[1..] == later;
        assert AllWhole(items) <==> AllWhole(later);
      }
    }
  }

  ghost predicate WellFramed(f: Octets, lo: nat, hi: nat)
    requires 4 <= lo
  {
    lo <= |f| <= hi && PeekLength(f) == |f|
  }

  function Wholes(fs: seq<Octets>): (items: seq<Item>)
    ensures |items| == |fs|
  {
    if fs == [] then [] else [Whole(fs[0])] + Wholes(fs[1..])
  }

  lemma {:induction false} ScanWellFramed(fs: seq<Octets>, lo: nat, hi: nat)
    requires 4 <= lo && forall i :: 0 <= i < |fs| ==> WellFramed(fs[i], lo, hi)
    ensures Scan(Flatten(fs), lo, hi) == (Wholes(fs), [])
    ensures WholeFrames(Wholes(fs)) == fs && AllWhole(Wholes(fs))
  {
    if fs != [] {
      var n, b := |fs[0]|, Flatten(fs);
      assert WellFramed(fs[0], lo, hi);
      ScanWellFramed(fs[1..], lo, hi);
      assert b[..n] == fs[0] && b[n..] == Flatten(fs[1..]) && PeekLength(b) == n;
    }
  }

  // On a stream of well-formed frames every decoder delivers exactly those frames and keeps
  // nothing, however the stream is cut into reads.
  lemma DecodersAgreeOnWellFramed(fs: seq<Octets>, chunks: seq<Octets>, headerLen: nat)
    requires 4 <= headerLen
    requires forall i :: 0 <= i < |fs| ==> WellFramed(fs[i], headerLen, MAX_FRAME)
    requires Flatten(chunks) == Flatten(fs)
    ensures Feed([], chunks, headerLen, MAX_FRAME) == (Wholes(fs), [])
    ensures Feed([], chunks, 4, MAX_FRAME) == (Wholes(fs), [])
    ensures WholeFrames(Wholes(fs)) == fs
    ensures StrictScan(Flatten(chunks), headerLen, MAX_FRAME) == Decoded(fs, [])
    ensures StrictScan(Flatten(chunks), headerLen, 0xFFFF_FFFF) == Decoded(fs, [])
  {
    assert Scan([], headerLen, MAX_FRAME) == ([], []) && Scan([], 4, MAX_FRAME) == ([], []);
    hide Scan, StrictScan, PeekLength, Feed, WholeFrames;
    assert [] + Flatten(chunks) == Flatten(chunks);
    forall i | 0 <= i < |fs| ensures WellFramed(fs[i], 4, MAX_FRAME) && WellFramed(fs[i], headerLen, 0xFFFF_FFFF) {
      assert WellFramed(fs[i], headerLen, MAX_FRAME);
    }
    ScanWellFramed(fs, headerLen, MAX_FRAME);
    ScanWellFramed(fs, 4, MAX_FRAME);
    ScanWellFramed(fs, headerLen, 0xFFFF_FFFF);
    ChunkingInvariance([], chunks, headerLen, MAX_FRAME);
    ChunkingInvariance([], chunks, 4, MAX_FRAME);
    StrictAgrees(Flatten(chunks), headerLen, MAX_FRAME);
    StrictAgrees(Flatten(chunks), headerLen, 0xFFFF_FFFF);
  }

  // A strict decoder fed chunk by chunk stops at the first error.
  function StrictFeed(rest: Octets, chunks: seq<Octets>, lo: nat, hi: nat): (r: Strict)
    requires 4 <= lo
    decreases |chunks|
  {
    if chunks == [] then Decoded([], rest)
    else
      match StrictScan(rest + chunks[0], lo, hi)
      case BadLength(n, rest') => BadLength(n, rest')
      case Decoded(frames, rest') =>
        match StrictFeed(rest', chunks[1..], lo, hi)
        case BadLength(n, rest'') => BadLength(n, rest'')
        case Decoded(more, rest'') => Decoded(frames + more, rest'')
  }

  // The strict decoders are invariant under chunking too, errors included: the same length is
  // reported, although what follows it depends on how much had been read.
  lemma {:induction false} StrictChunkingInvariance(rest: Octets, chunks: seq<Octets>, lo: nat, hi: nat)
    requires 4 <= lo && StrictScan(rest, lo, hi) == Decoded([], rest)
    ensures match StrictScan(rest + Flatten(chunks), lo, hi)
            case Decoded(frames, left) => StrictFeed(rest, chunks, lo, hi) == Decoded(frames, left)
            case BadLength(n, _) => StrictFeed(rest, chunks, lo, hi).BadLength? && StrictFeed(rest, chunks, lo, hi).total == n
    decreases |chunks|
  {
    hide StrictScan, Scan;
    if chunks == [] {
      assert rest + [] == rest;
    } else {
      StrictAppend(rest + chunks[0], Flatten(chunks[1..]), lo, hi);
      assert rest + Flatten(chunks) == rest + chunks[0] + Flatten(chunks[1..]);
      match StrictScan(rest + chunks[0], lo, hi) {
        case Decoded(frames, rest') => StrictChunkingInvariance(rest', chunks[1..], lo, hi);
        case BadLength(_, _) =>
      }
    }
  }

  // What a strict decoder that had reached s makes of the bytes c.
  function Resume(s: Strict, c: Octets, lo: nat, hi: nat): (r: Strict)
    requires 4 <= lo
  {
    match s
    case BadLength(n, rest) => BadLength(n, rest + c)
    case Decoded(frames, rest) =>
      match StrictScan(rest + c, lo, hi)
      case Decoded(more, left) => Decoded(frames + more, left)
      case BadLength(n, left) => BadLength(n, left)
  }

  lemma {:induction false} StrictAppend(a: Octets, c: Octets, lo: nat, hi: nat)
    requires 4 <= lo
    ensures StrictScan(a + c, lo, hi) == Resume(StrictScan(a, lo, hi), c, lo, hi)
    ensures StrictScan(a, lo, hi).Decoded? ==>
              var rest := StrictScan(a, lo, hi).rest; StrictScan(rest, lo, hi) == Decoded([], rest)
  {
    if |a| >= 4 && lo <= PeekLength(a) <= hi && PeekLength(a) <= |a| {
      var n := PeekLength(a);
      StrictAppend(a[n..], c, lo, hi);
      HeadOfPrefix(a, c, lo, hi);
      StrictStep(a, lo, hi);
      StrictStep(a + c, lo, hi);
      StrictJoin(a[..n], StrictScan(a[n..], lo, hi), c, lo, hi);
    } else {
      StrictStuck(a, c, lo, hi);
    }
  }

  lemma StrictStuck(a: Octets, c: Octets, lo: nat, hi: nat)
    requires 4 <= lo && (|a| < 4 || PeekLength(a) < lo || PeekLength(a) > hi || PeekLength(a) > |a|)
    ensures StrictScan(a + c, lo, hi) == Resume(StrictScan(a, lo, hi), c, lo, hi)
    ensures StrictScan(a, lo, hi) == if |a| >= 4 && !(lo <= PeekLength(a) <= hi) then BadLength(PeekLength(a), a) else Decoded([], a)
  {
  }

  lemma StrictJoin(frame: Octets, s: Strict, c: Octets, lo: nat, hi: nat)
    requires 4 <= lo
    ensures Prepend(frame, Resume(s, c, lo, hi)) == Resume(Prepend(frame, s), c, lo, hi)
  {
  }

  function Prepend(frame: Octets, s: Strict): (r: Strict) {
    match s
    case Decoded(frames, rest) => Decoded([frame] + frames, rest)
    case BadLength(n, rest) => s
  }

  lemma StrictStep(b: Octets, lo: nat, hi: nat)
    requires 4 <= lo && 4 <= |b| && lo <= PeekLength(b) <= hi && PeekLength(b) <= |b|
    ensures StrictScan(b, lo, hi) == Prepend(b[..PeekLength(b)], StrictScan(b[PeekLength(b)..], lo, hi))
  {
  }
}
