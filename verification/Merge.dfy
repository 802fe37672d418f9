// LongMessageMerger: reassembling long messages from segments, in the program's own state
// (a hash map under a formatted key, a list of frames and a set of numbers per group).
module Merge {
  import opened Wrappers
  import opened Bytes
  import opened Udh
  import opened Sorting
  import opened Text
  import opened Time

  class SegmentBitmap {
    const totalSegments: u8
    var received: set<u8>

    constructor (total: u8)
      ensures totalSegments == total && received == {}
    {
      totalSegments, received := total, {};
    }

    method MarkReceived(segment: u8) returns (first: bool)
      modifies this
      ensures first == (segment !in old(received)) && received == old(received) + {segment}
    {
      first := segment !in received;
      received := received + {segment};
    }

    function IsReceived(segment: u8): (b: bool)
      reads this
    {
      segment in received
    }

    function IsComplete(): (b: bool)
      reads this
    {
      |received| >= totalSegments
    }
  }

  // The value of one pending group.
  datatype Entry = Entry(frames: seq<LongMessageFrame>, total: u8, received: set<u8>, created: nat)

  class PendingEntry {
    var frames: seq<LongMessageFrame>
    const bitmap: SegmentBitmap
    const createdAt: nat

    constructor (total: u8, now: nat)
      ensures fresh(bitmap) && Value() == Entry([], total, {}, now)
    {
      frames, createdAt := [], now;
      bitmap := new SegmentBitmap(total);
    }

    ghost function Value(): (e: Entry)
      reads this, bitmap
    {
      Entry(frames, bitmap.totalSegments, bitmap.received, createdAt)
    }

    function IsExpired(now: nat, ttl: nat): (b: bool)
      ensures b == (Elapsed(now, createdAt) > ttl)
    {
      Elapsed(now, createdAt) > ttl
    }

    method AddFrame(frame: LongMessageFrame) returns (added: bool)
      modifies this, bitmap
      ensures added == (frame.segmentNumber !in old(bitmap.received))
      ensures Value() == if added then WithFrame(old(Value()), frame) else old(Value())
    {
      if bitmap.IsReceived(frame.segmentNumber) {
        return false;
      }
      var _ := bitmap.MarkReceived(frame.segmentNumber);
      frames := frames + [frame];
      return true;
    }
  }

  function WithFrame(e: Entry, frame: LongMessageFrame): (r: Entry) {
    e.(frames := e.frames + [frame], received := e.received + {frame.segmentNumber})
  }

  // format!("{}-{}", reference_id, total_segments), and the bucket key built on it.
  function UniqueId(reference: u16, total: u8): (id: string) {
    Decimal(reference) + "-" + Decimal(total)
  }

  const UNIT_SEPARATOR: char := 0x1f as char

  function Key(sender: string, reference: u16, total: u8): (k: string) {
    sender + [UNIT_SEPARATOR] + UniqueId(reference, total)
  }

  // The merger's state as a value, and add_frame on it.
  datatype Store = Store(pending: map<string, Entry>, ttl: nat, lastCleanup: nat)

  function CleanupExpired(st: Store, now: nat): (r: Store) {
    st.(pending := map k | k in st.pending && Elapsed(now, st.pending[k].created) <= st.ttl :: st.pending[k],
        lastCleanup := now)
  }

  predicate BySegment(f: LongMessageFrame, g: LongMessageFrame) {
    f.segmentNumber <= g.segmentNumber
  }

  function SortBySegment(frames: seq<LongMessageFrame>): (r: seq<LongMessageFrame>) {
    Sort(BySegment, frames)
  }

  function JoinStripped(frames: seq<LongMessageFrame>): (r: Octets) {
    if frames == [] then []
    else JoinStripped(frames[..|frames| - 1]) + StripUdh(frames[|frames| - 1].content)
  }

  function EntryFor(st: Store, key: string, total: u8, now: nat): (e: Entry) {
    if key in st.pending then st.pending[key] else Entry([], total, {}, now)
  }

  function WithEntry(st: Store, key: string, e: Entry): (r: Store) {
    st.(pending := st.pending[key := e])
  }

  // The outcome of a frame that has been stored under its key.
  function Settle(st: Store, key: string): (r: (Store, Option<Octets>))
    requires key in st.pending
  {
    var e := st.pending[key];
    if |e.received| >= e.total then
      (st.(pending := st.pending - {key}), Some(JoinStripped(SortBySegment(e.frames))))
    else (st, None)
  }

  // A frame filed under its key once the lazy cleanup is done.
  function File(st: Store, key: string, frame: LongMessageFrame, now: nat): (r: (Store, Option<Octets>)) {
    var found := WithEntry(st, key, EntryFor(st, key, frame.totalSegments, now));
    var entry := found.pending[key];
    if frame.segmentNumber in entry.received then (found, None)
    else Settle(WithEntry(found, key, WithFrame(entry, frame)), key)
  }

  function LazyCleanup(st: Store, now: nat): (r: Store) {
    if Elapsed(now, st.lastCleanup) >= st.ttl then CleanupExpired(st, now) else st
  }

  function AddFrame(st: Store, sender: string, frame: LongMessageFrame, now: nat): (r: (Store, Option<Octets>)) {
    var cleaned := LazyCleanup(st, now);
    if frame.totalSegments == 1 && !frame.hasUdhi then (cleaned, Some(frame.content))
    else File(cleaned, Key(sender, frame.referenceId, frame.totalSegments), frame, now)
  }

  class LongMessageMerger {
    var pendingFrames: map<string, PendingEntry>
    var ttl: nat
    var lastCleanup: nat

    // Each group owns its entry and its bitmap.
    ghost predicate Valid()
      reads this, pendingFrames.Values
    {
      && forall k, l :: k in pendingFrames && l in pendingFrames && k != l ==>
           pendingFrames[k] != pendingFrames[l] && pendingFrames[k].bitmap != pendingFrames[l].bitmap
    }

    ghost function Repr(): (s: set<object>)
      reads this, pendingFrames.Values
    {
      (set k | k in pendingFrames :: pendingFrames[k]) + (set k | k in pendingFrames :: pendingFrames[k].bitmap)
    }

    ghost function Value(): (st: Store)
      reads this, Repr()
    {
      Store(map k | k in pendingFrames :: pendingFrames[k].Value(), ttl, lastCleanup)
    }

    constructor WithTtl(duration: nat, now: nat)
      ensures Valid() && Value() == Store(map[], duration, now) && Repr() == {}
    {
      pendingFrames, ttl, lastCleanup := map[], duration, now;
    }

    method Cleanup(now: nat)
      requires Valid()
      modifies this
      ensures Valid() && Value() == CleanupExpired(old(Value()), now)
      ensures forall k :: k in pendingFrames ==> k in old(pendingFrames) && pendingFrames[k] == old(pendingFrames)[k]
    {
      pendingFrames := map k | k in pendingFrames && !pendingFrames[k].IsExpired(now, ttl) :: pendingFrames[k];
      lastCleanup := now;
      var was := old(pendingFrames);
      assert forall k :: k in pendingFrames <==> k in was && Elapsed(now, was[k].createdAt) <= ttl;
      assert Value().pending.Keys == CleanupExpired(old(Value()), now).pending.Keys;
    }

    // pending_frames.entry(key).or_insert_with(..)
    method EntryOrInsert(key: string, total: u8, now: nat) returns (entry: PendingEntry)
      requires Valid()
      modifies this`pendingFrames
      ensures Valid() && fresh(Repr() - old(Repr()))
      ensures key in pendingFrames && pendingFrames[key] == entry
      ensures entry in Repr() && entry.bitmap in Repr()
      ensures Value() == WithEntry(old(Value()), key, EntryFor(old(Value()), key, total, now))
    {
      if key !in pendingFrames {
        var e := new PendingEntry(total, now);
        pendingFrames := pendingFrames[key := e];
      }
      entry := pendingFrames[key];
    }

    method AddToEntry(key: string, frame: LongMessageFrame) returns (added: bool)
      requires Valid() && key in pendingFrames
      modifies pendingFrames[key], pendingFrames[key].bitmap
      ensures Valid() && Repr() == old(Repr())
      ensures added == (frame.segmentNumber !in old(Value()).pending[key].received)
      ensures Value() == if added then WithEntry(old(Value()), key, WithFrame(old(Value()).pending[key], frame))
                         else old(Value())
    {
      added := pendingFrames[key].AddFrame(frame);
      hide WithFrame;
      forall k | k in pendingFrames && k != key ensures pendingFrames[k].Value() == old(pendingFrames[k].Value()) {
      }
      assert Value().pending == old(Value()).pending[key := pendingFrames[key].Value()];
    }

    method TakeIfComplete(key: string) returns (merged: Option<Octets>)
      requires Valid() && key in pendingFrames
      modifies this`pendingFrames
      ensures Valid() && Repr() <= old(Repr())
      ensures (Value(), merged) == Settle(old(Value()), key)
    {
      var entry := pendingFrames[key];
      if entry.bitmap.IsComplete() {
        pendingFrames := pendingFrames - {key};
        var sorted := SortBySegment(entry.frames);
        var result := JoinAll(sorted);
        assert Value().pending == old(Value().pending) - {key};
        return Some(result);
      }
      return None;
    }

    method FileFrame(key: string, frame: LongMessageFrame, now: nat) returns (merged: Option<Octets>)
      requires Valid()
      modifies this`pendingFrames, Repr()
      ensures Valid() && fresh(Repr() - old(Repr()))
      ensures (Value(), merged) == File(old(Value()), key, frame, now)
    {
      var _ := EntryOrInsert(key, frame.totalSegments, now);
      var added := AddToEntry(key, frame);
      if !added {
        return None;
      }
      merged := TakeIfComplete(key);
    }

    method Add(sender: string, frame: LongMessageFrame, now: nat) returns (merged: Option<Octets>)
      requires Valid()
      modifies this, Repr()
      ensures Valid() && fresh(Repr() - old(Repr()))
      ensures (Value(), merged) == AddFrame(old(Value()), sender, frame, now)
    {
      if Elapsed(now, lastCleanup) >= ttl {
        Cleanup(now);
      }
      var key := Key(sender, frame.referenceId, frame.totalSegments);
      if frame.totalSegments == 1 && !frame.hasUdhi {
        return Some(frame.content);
      }
      merged := FileFrame(key, frame, now);
    }
  }

  // The accumulation loop over the sorted frames.
  method JoinAll(sorted: seq<LongMessageFrame>) returns (result: Octets)
    ensures result == JoinStripped(sorted)
  {
    result := [];
    for i := 0 to |sorted|
      invariant result == JoinStripped(sorted[..i])
    {
      assert sorted[..i + 1][..i] == sorted[..i];
      result := result + StripUdh(sorted[i].content);
    }
    assert sorted[..|sorted|] == sorted;
  }
}
