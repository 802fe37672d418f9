// What the merger is for, stated without keys, frame lists or sorting: each (sender, reference,
// total) collects the first payload of every segment number, and is handed over in ascending
// order when as many numbers as announced have arrived. The merger refines this board in every
// run, on arbitrary frames.
module Reassembly {
  import opened Wrappers
  import opened Bytes
  import opened Udh
  import opened Collections
  import opened Sorting
  import opened Text
  import opened Merge
  import opened Time

  datatype Group = Group(sender: string, reference: u16, total: u8)

  datatype Partial = Partial(payloads: map<u8, Octets>, created: nat)

  datatype Board = Board(groups: map<Group, Partial>, ttl: nat, lastCleanup: nat)

  datatype Event = Event(sender: string, frame: LongMessageFrame, now: nat) {
    function Bucket(): (g: Group) {
      Group(sender, frame.referenceId, frame.totalSegments)
    }

    predicate IsWhole() {
      frame.totalSegments == 1 && !frame.hasUdhi
    }
  }

  // The payloads numbered below n, in ascending order.
  function Assemble(payloads: map<u8, Octets>, n: nat): (r: Octets)
    requires n <= 256
  {
    if n == 0 then []
    else Assemble(payloads, n - 1) + (if n - 1 in payloads then payloads[n - 1] else [])
  }

  function Expire(b: Board, now: nat): (r: Board) {
    if Elapsed(now, b.lastCleanup) >= b.ttl then
      b.(groups := map g | g in b.groups && Elapsed(now, b.groups[g].created) <= b.ttl :: b.groups[g],
         lastCleanup := now)
    else b
  }

  function Collected(b: Board, g: Group, now: nat): (p: Partial) {
    if g in b.groups then b.groups[g] else Partial(map[], now)
  }

  function GrownPartial(p: Partial, frame: LongMessageFrame): (r: Partial) {
    p.(payloads := p.payloads[frame.segmentNumber := StripUdh(frame.content)])
  }

  function Collect(b: Board, ev: Event): (r: (Board, Option<Octets>)) {
    var g := ev.Bucket();
    var p := Collected(b, g, ev.now);
    if ev.frame.segmentNumber in p.payloads then (b, None)
    else
      var p' := GrownPartial(p, ev.frame);
      if |p'.payloads| >= g.total then (b.(groups := b.groups - {g}), Some(Assemble(p'.payloads, 256)))
      else (b.(groups := b.groups[g := p']), None)
  }

  function Receive(b: Board, ev: Event): (r: (Board, Option<Octets>)) {
    if ev.IsWhole() then (Expire(b, ev.now), Some(ev.frame.content)) else Collect(Expire(b, ev.now), ev)
  }

  // add_frame with its key computed.
  function AddUnder(key: string, st: Store, ev: Event): (r: (Store, Option<Octets>)) {
    var cleaned := LazyCleanup(st, ev.now);
    if ev.IsWhole() then (cleaned, Some(ev.frame.content)) else File(cleaned, key, ev.frame, ev.now)
  }

  // The formatted key is injective

  lemma SuffixHasNoSeparator(reference: u16, total: u8)
    ensures UNIT_SEPARATOR !in UniqueId(reference, total)
  {
  }

  lemma UniqueIdInjective(r1: u16, t1: u8, r2: u16, t2: u8)
    requires UniqueId(r1, t1) == UniqueId(r2, t2)
    ensures r1 == r2 && t1 == t2
  {
    var a, b := Decimal(r1), Decimal(r2);
    var u1, u2 := UniqueId(r1, t1), UniqueId(r2, t2);
    assert u1[|a|] == '-' && u2[|b|] == '-';
    assert forall i :: 0 <= i < |a| ==> u1[i] == a[i] && a[i] in a;
    assert forall i :: 0 <= i < |b| ==> u2[i] == b[i] && b[i] in b;
    assert |a| == |b|;
    assert a == u1[..|a|] == u2[..|b|] == b;
    assert Decimal(t1) == u1[|a| + 1..] == u2[|b| + 1..] == Decimal(t2);
    DecimalInjective(r1, r2);
    DecimalInjective(t1, t2);
  }

  // Two frames share a bucket only if sender, reference and total agree, even when the sender
  // itself contains the separator.
  lemma KeyInjective(g: Group, h: Group)
    requires Key(g.sender, g.reference, g.total) == Key(h.sender, h.reference, h.total)
    ensures g == h
  {
    var k := Key(g.sender, g.reference, g.total);
    var m, n := |g.sender|, |h.sender|;
    var u, v := UniqueId(g.reference, g.total), UniqueId(h.reference, h.total);
    SuffixHasNoSeparator(g.reference, g.total);
    SuffixHasNoSeparator(h.reference, h.total);
    assert k == g.sender + [UNIT_SEPARATOR] + u && k == h.sender + [UNIT_SEPARATOR] + v;
    assert k[m] == UNIT_SEPARATOR && k[n] == UNIT_SEPARATOR;
    assert m == n;
    assert g.sender == k[..m] == h.sender;
    assert u == k[m + 1..] == v;
    UniqueIdInjective(g.reference, g.total, h.reference, h.total);
  }

  function KeyOf(g: Group): (k: string) {
    Key(g.sender, g.reference, g.total)
  }

  // Sorting and stripping the frame list is the ascending assembly

  // What counts of a stored frame: its number and its payload.
  datatype Part = Part(number: u8, payload: Octets)

  function PartOf(f: LongMessageFrame): (p: Part) {
    Part(f.segmentNumber, StripUdh(f.content))
  }

  function Parts(frames: seq<LongMessageFrame>): (parts: seq<Part>)
    ensures |parts| == |frames|
    ensures forall i :: 0 <= i < |frames| ==> parts[i] == PartOf(frames[i])
  {
    seq(|frames|, i requires 0 <= i < |frames| => PartOf(frames[i]))
  }

  function JoinParts(parts: seq<Part>): (r: Octets) {
    if parts == [] then [] else JoinParts(parts[..|parts| - 1]) + parts[|parts| - 1].payload
  }

  lemma {:induction false} JoinStrippedIsJoinParts(frames: seq<LongMessageFrame>)
    ensures JoinStripped(frames) == JoinParts(Parts(frames))
  {
    if frames != [] {
      var init := frames[..|frames| - 1];
      JoinStrippedIsJoinParts(init);
      assert Parts(frames)[..|frames| - 1] == Parts(init);
    }
  }

  ghost predicate Has(parts: seq<Part>, n: u8) {
    exists i :: 0 <= i < |parts| && parts[i].number == n
  }

  ghost predicate Numbered(parts: seq<Part>, payloads: map<u8, Octets>) {
    && (forall i :: 0 <= i < |parts| ==>
          parts[i].number in payloads && payloads[parts[i].number] == parts[i].payload)
    && (forall n :: n in payloads ==> Has(parts, n))
    && (forall i, j :: 0 <= i < j < |parts| ==> parts[i].number != parts[j].number)
  }

  ghost predicate Ascending(parts: seq<Part>) {
    forall i, j :: 0 <= i < j < |parts| ==> parts[i].number < parts[j].number
  }

  ghost predicate Below(parts: seq<Part>, payloads: map<u8, Octets>, n: nat) {
    && (forall i :: 0 <= i < |parts| ==>
          parts[i].number < n && parts[i].number in payloads && payloads[parts[i].number] == parts[i].payload)
    && (forall k :: k in payloads && k < n ==> Has(parts, k))
  }

  // The largest number below n is the last part.
  lemma LastPart(parts: seq<Part>, payloads: map<u8, Octets>, n: nat)
    requires n > 0 && Ascending(parts) && Below(parts, payloads, n) && n - 1 in payloads
    ensures parts != [] && parts[|parts| - 1] == Part(n - 1, payloads[n - 1])
    ensures Ascending(parts[..|parts| - 1]) && Below(parts[..|parts| - 1], payloads, n - 1)
  {
  }

  lemma NoneBelowZero(parts: seq<Part>, payloads: map<u8, Octets>)
    requires parts != []
    ensures !Below(parts, payloads, 0)
  {
    var p := parts[0];
  }

  lemma NothingAt(parts: seq<Part>, payloads: map<u8, Octets>, n: nat)
    requires n > 0 && Below(parts, payloads, n) && n - 1 !in payloads
    ensures Below(parts, payloads, n - 1)
  {
  }

  lemma {:induction false} JoinIsAssembly(parts: seq<Part>, payloads: map<u8, Octets>, n: nat)
    requires n <= 256 && Ascending(parts) && Below(parts, payloads, n)
    ensures JoinParts(parts) == Assemble(payloads, n)
  {
    if n == 0 {
      if parts != [] { NoneBelowZero(parts, payloads); }
    } else if n - 1 in payloads {
      LastPart(parts, payloads, n);
      var rest := parts[..|parts| - 1];
      JoinIsAssembly(rest, payloads, n - 1);
      assert JoinParts(parts) == JoinParts(rest) + payloads[n - 1];
    } else {
      NothingAt(parts, payloads, n);
      JoinIsAssembly(parts, payloads, n - 1);
    }
  }

  // Sorting does not change which parts there are.
  lemma SortKeepsParts(frames: seq<LongMessageFrame>, payloads: map<u8, Octets>)
    requires Numbered(Parts(frames), payloads)
    ensures Below(Parts(SortBySegment(frames)), payloads, 256)
  {
    var sorted := SortBySegment(frames);
    var parts, ps := Parts(frames), Parts(sorted);
    SortPermutes(frames);
    hide SortBySegment, PartOf;
    forall i | 0 <= i < |sorted| ensures ps[i].number in payloads && payloads[ps[i].number] == ps[i].payload {
      assert sorted[i] in sorted;
      var j :| 0 <= j < |frames| && frames[j] == sorted[i];
      assert ps[i] == parts[j];
    }
    hide Numbered;
    forall n | n in payloads ensures Has(ps, n) {
      var i := HeldAt(parts, payloads, n);
      assert frames[i] in frames;
      var j :| 0 <= j < |sorted| && sorted[j] == frames[i];
      assert ps[j] == parts[i];
    }
  }

  lemma SortPermutes(frames: seq<LongMessageFrame>)
    ensures forall f :: f in SortBySegment(frames) <==> f in frames
  {
    forall f ensures f in SortBySegment(frames) <==> f in frames {
      assert f in frames <==> f in multiset(frames);
      assert f in SortBySegment(frames) <==> f in multiset(SortBySegment(frames));
    }
  }

  lemma HeldAt(parts: seq<Part>, payloads: map<u8, Octets>, n: u8) returns (i: nat)
    requires Numbered(parts, payloads) && n in payloads
    ensures i < |parts| && parts[i].number == n
  {
    assert Has(parts, n);
    i :| 0 <= i < |parts| && parts[i].number == n;
  }

  lemma SortAscends(frames: seq<LongMessageFrame>, payloads: map<u8, Octets>)
    requires Numbered(Parts(frames), payloads)
    ensures Ascending(Parts(SortBySegment(frames)))
  {
    var sorted := SortBySegment(frames);
    var parts, ps := Parts(frames), Parts(sorted);
    SortSorted(BySegment, frames);
    var number := (f: LongMessageFrame) => f.segmentNumber;
    forall i, j | 0 <= i < j < |frames| ensures number(frames[i]) != number(frames[j]) {
      assert parts[i].number != parts[j].number;
    }
    DistinctPermuted(number, frames, sorted);
    forall i, j | 0 <= i < j < |ps| ensures ps[i].number < ps[j].number {
      assert BySegment(sorted[i], sorted[j]) && number(sorted[i]) != number(sorted[j]);
    }
  }

  lemma SortedFramesAssemble(frames: seq<LongMessageFrame>, payloads: map<u8, Octets>)
    requires Numbered(Parts(frames), payloads)
    ensures JoinStripped(SortBySegment(frames)) == Assemble(payloads, 256)
  {
    SortKeepsParts(frames, payloads);
    SortAscends(frames, payloads);
    JoinStrippedIsJoinParts(SortBySegment(frames));
    JoinIsAssembly(Parts(SortBySegment(frames)), payloads, 256);
  }

  // The refinement relation, over any injective key

  ghost predicate Matches(e: Entry, g: Group, p: Partial) {
    && e.total == g.total
    && e.created == p.created
    && e.received == p.payloads.Keys
    && Numbered(Parts(e.frames), p.payloads)
  }

  // A stored group is neither empty nor complete.
  ghost predicate InProgress(e: Entry) {
    1 <= |e.received| < e.total
  }

  ghost predicate Stored(g: Group, e: Entry, p: Partial) {
    Matches(e, g, p) && InProgress(e)
  }

  ghost predicate Refines(key: Group -> string, st: Store, b: Board) {
    && st.ttl == b.ttl && st.lastCleanup == b.lastCleanup
    && Linked(key, st.pending, b.groups, Stored)
  }

  // One step

  lemma CleanupRefines(key: Group -> string, st: Store, b: Board, now: nat)
    requires Injective(key) && Refines(key, st, b)
    ensures Refines(key, LazyCleanup(st, now), Expire(b, now))
  {
    var keepEntry := (e: Entry) => Elapsed(now, e.created) <= st.ttl;
    var keepPartial := (p: Partial) => Elapsed(now, p.created) <= st.ttl;
    SameAge(key, st, b);
    LinkedFilter(key, st.pending, b.groups, Stored, keepEntry, keepPartial);
    hide Linked, Injective, Stored;
  }

  // A group is as old as its entry.
  lemma SameAge(key: Group -> string, st: Store, b: Board)
    requires Refines(key, st, b)
    ensures forall g :: g in b.groups ==> key(g) in st.pending && st.pending[key(g)].created == b.groups[g].created
  {
    hide Numbered, InProgress;
    forall g | g in b.groups ensures key(g) in st.pending && st.pending[key(g)].created == b.groups[g].created {
      assert Stored(g, st.pending[key(g)], b.groups[g]);
    }
  }

  lemma NumberedGrows(parts: seq<Part>, payloads: map<u8, Octets>, part: Part)
    requires Numbered(parts, payloads) && part.number !in payloads
    ensures Numbered(parts + [part], payloads[part.number := part.payload])
  {
    var grown := parts + [part];
    assert grown[|parts|] == part;
    forall n | n in payloads[part.number := part.payload] ensures Has(grown, n) {
      if n != part.number {
        assert Has(parts, n);
        var i :| 0 <= i < |parts| && parts[i].number == n;
        assert grown[i].number == n;
      }
    }
  }

  lemma GrowMatches(e: Entry, g: Group, p: Partial, frame: LongMessageFrame)
    requires Matches(e, g, p) && frame.segmentNumber !in p.payloads
    ensures Matches(WithFrame(e, frame), g, GrownPartial(p, frame))
  {
    NumberedGrows(Parts(e.frames), p.payloads, PartOf(frame));
    assert Parts(e.frames + [frame]) == Parts(e.frames) + [PartOf(frame)];
  }

  // Filing a frame, case by case.
  lemma FileCases(st: Store, key: string, frame: LongMessageFrame, now: nat)
    ensures var e := EntryFor(st, key, frame.totalSegments, now);
            var grown := WithFrame(e, frame);
            File(st, key, frame, now) ==
            if frame.segmentNumber in e.received then (WithEntry(st, key, e), None)
            else if |grown.received| >= e.total then
              (st.(pending := st.pending - {key}), Some(JoinStripped(SortBySegment(grown.frames))))
            else (WithEntry(st, key, grown), None)
  {
    var e := EntryFor(st, key, frame.totalSegments, now);
    UpdateTwice(st.pending, key, e, WithFrame(e, frame));
    assert st.pending[key := e] - {key} == st.pending - {key};
  }

  lemma FileRefines(key: Group -> string, st: Store, b: Board, ev: Event)
    requires Injective(key) && Refines(key, st, b) && !ev.IsWhole()
    ensures var (st', out) := File(st, key(ev.Bucket()), ev.frame, ev.now);
            var (b', out') := Collect(b, ev);
            Refines(key, st', b') && out == out'
  {
    var g, frame := ev.Bucket(), ev.frame;
    var e, p := EntryFor(st, key(g), g.total, ev.now), Collected(b, g, ev.now);
    assert key(g) in st.pending <==> g in b.groups;
    assert g in b.groups ==> Stored(g, st.pending[key(g)], b.groups[g]);
    assert Matches(e, g, p);
    FileCases(st, key(g), frame, ev.now);
    if frame.segmentNumber in p.payloads {
      UpdateTwice(st.pending, key(g), e, e);
    } else {
      var grown, p' := WithFrame(e, frame), GrownPartial(p, frame);
      GrowMatches(e, g, p, frame);
      SortedFramesAssemble(grown.frames, p'.payloads);
      assert |p'.payloads| == |p'.payloads.Keys|;
      if |p'.payloads| >= g.total {
        LinkedRemove(key, st.pending, b.groups, Stored, g);
      } else {
        LinkedReplace(key, st.pending, b.groups, Stored, g, grown, p');
      }
    }
  }

  lemma StepRefines(key: Group -> string, st: Store, b: Board, ev: Event)
    requires Injective(key) && Refines(key, st, b)
    ensures var (st', out) := AddUnder(key(ev.Bucket()), st, ev);
            var (b', out') := Receive(b, ev);
            Refines(key, st', b') && out == out'
  {
    CleanupRefines(key, st, b, ev.now);
    if !ev.IsWhole() {
      FileRefines(key, LazyCleanup(st, ev.now), Expire(b, ev.now), ev);
    }
  }
}
