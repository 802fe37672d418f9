// The merger over whole runs: refinement of the board, bounded age of what it keeps, and the
// delivery of one long message whatever else arrives in between.
module MergerRuns {
  import opened Wrappers
  import opened Bytes
  import opened Collections
  import opened Udh
  import opened Merge
  import opened Time
  import opened Reassembly

  // A run of add_frame calls, with what each returned.
  function Run(st: Store, evs: seq<Event>): (r: (Store, seq<Option<Octets>>))
    ensures |r.1| == |evs|
  {
    if evs == [] then (st, [])
    else
      var (before, outs) := Run(st, evs[..|evs| - 1]);
      var ev := evs[|evs| - 1];
      var (after, out) := AddFrame(before, ev.sender, ev.frame, ev.now);
      (after, outs + [out])
  }

  function RunBoard(b: Board, evs: seq<Event>): (r: (Board, seq<Option<Octets>>))
    ensures |r.1| == |evs|
  {
    if evs == [] then (b, [])
    else
      var (before, outs) := RunBoard(b, evs[..|evs| - 1]);
      var (after, out) := Receive(before, evs[|evs| - 1]);
      (after, outs + [out])
  }

  ghost predicate Represents(st: Store, b: Board) {
    Refines(KeyOf, st, b)
  }

  lemma AddFrameRefines(st: Store, b: Board, ev: Event)
    requires Represents(st, b)
    ensures var (st', out) := AddFrame(st, ev.sender, ev.frame, ev.now);
            var (b', out') := Receive(b, ev);
            Represents(st', b') && out == out'
  {
    forall g, h | KeyOf(g) == KeyOf(h) ensures g == h {
      KeyInjective(g, h);
    }
    StepRefines(KeyOf, st, b, ev);
  }

  // Every run of the merger, on any frames at all, gives the board's answers and ends in a state
  // that represents the board.
  lemma {:induction false} RunRefines(st: Store, b: Board, evs: seq<Event>)
    requires Represents(st, b)
    ensures Represents(Run(st, evs).0, RunBoard(b, evs).0)
    ensures Run(st, evs).1 == RunBoard(b, evs).1
  {
    if evs != [] {
      var before := evs[..|evs| - 1];
      RunRefines(st, b, before);
      AddFrameRefines(Run(st, before).0, RunBoard(b, before).0, evs[|evs| - 1]);
    }
  }

  // One call, on the program's own state

  // A frame that is a whole message comes back at once, and of what is stored only the expired can go.
  lemma WholeFrameReturned(st: Store, sender: string, frame: LongMessageFrame, now: nat)
    requires frame.totalSegments == 1 && !frame.hasUdhi
    ensures var (after, out) := AddFrame(st, sender, frame, now);
            && out == Some(frame.content) && after.ttl == st.ttl
            && (forall k :: k in after.pending ==> k in st.pending && after.pending[k] == st.pending[k])
            && (forall k :: k in st.pending && now <= st.pending[k].created + st.ttl ==> k in after.pending)
  {
  }

  // A frame that needs no other, though it has a header or announces nothing, comes back stripped of
  // the header, and nothing of it is kept.
  lemma LoneSegment(st: Store, sender: string, frame: LongMessageFrame, now: nat)
    requires frame.totalSegments == 0 || (frame.totalSegments == 1 && frame.hasUdhi)
    requires Key(sender, frame.referenceId, frame.totalSegments) !in st.pending
    ensures var (after, out) := AddFrame(st, sender, frame, now);
            && out == Some(StripUdh(frame.content)) && Key(sender, frame.referenceId, frame.totalSegments) !in after.pending
            && (forall l :: l in after.pending ==> l in st.pending && after.pending[l] == st.pending[l])
            && (forall l :: l in st.pending && now <= st.pending[l].created + st.ttl ==> l in after.pending)
  {
    var k := Key(sender, frame.referenceId, frame.totalSegments);
    hide Key;
    FileCases(LazyCleanup(st, now), k, frame, now);
    OneStripped(frame);
    hide File, SortBySegment, JoinStripped, StripUdh;
    assert [] + [frame] == [frame];
  }

  lemma OneStripped(frame: LongMessageFrame)
    ensures JoinStripped(SortBySegment([frame])) == StripUdh(frame.content)
  {
    assert SortBySegment([frame]) == [frame];
    assert [frame][..0] == [];
  }

  // A number that has been received already changes nothing in a group that has not expired.
  lemma RepeatIgnored(st: Store, sender: string, frame: LongMessageFrame, now: nat)
    requires frame.totalSegments != 1 || frame.hasUdhi
    requires var k := Key(sender, frame.referenceId, frame.totalSegments);
             k in st.pending && now <= st.pending[k].created + st.ttl && frame.segmentNumber in st.pending[k].received
    ensures var (after, out) := AddFrame(st, sender, frame, now);
            var k := Key(sender, frame.referenceId, frame.totalSegments);
            && out == None && k in after.pending && after.pending[k] == st.pending[k]
            && (forall l :: l in after.pending ==> l in st.pending && after.pending[l] == st.pending[l])
            && (forall l :: l in st.pending && now <= st.pending[l].created + st.ttl ==> l in after.pending)
  {
    var k := Key(sender, frame.referenceId, frame.totalSegments);
    hide Key;
    FileCases(LazyCleanup(st, now), k, frame, now);
    hide File, SortBySegment, JoinStripped;
  }

  // A new number is added to its group, behind the frames there, and every other group that has not
  // expired stays as it is.
  lemma NewNumberAdded(st: Store, sender: string, frame: LongMessageFrame, now: nat)
    requires var k := Key(sender, frame.referenceId, frame.totalSegments);
             k in st.pending && now <= st.pending[k].created + st.ttl && frame.segmentNumber !in st.pending[k].received
             && |st.pending[k].received| + 1 < st.pending[k].total
    requires frame.totalSegments != 1 || frame.hasUdhi
    ensures var (after, out) := AddFrame(st, sender, frame, now);
            var k := Key(sender, frame.referenceId, frame.totalSegments);
            && out == None && k in after.pending
            && after.pending[k].frames == st.pending[k].frames + [frame]
            && after.pending[k].received == st.pending[k].received + {frame.segmentNumber}
            && after.pending[k].created == st.pending[k].created && after.pending[k].total == st.pending[k].total
            && (forall l :: l in after.pending && l != k ==> l in st.pending && after.pending[l] == st.pending[l])
            && (forall l :: l in st.pending && now <= st.pending[l].created + st.ttl ==> l in after.pending)
  {
    var k := Key(sender, frame.referenceId, frame.totalSegments);
    hide Key;
    FileCases(LazyCleanup(st, now), k, frame, now);
    hide File, SortBySegment, JoinStripped;
  }

  // The stored frames are one for each received number.
  ghost predicate FramesAreReceived(e: Entry) {
    && (forall i, j :: 0 <= i < j < |e.frames| ==> e.frames[i].segmentNumber != e.frames[j].segmentNumber)
    && e.received == set i | 0 <= i < |e.frames| :: e.frames[i].segmentNumber
  }

  // Whatever has been received, a stored group has at least one segment and fewer than announced, and
  // its frames are one for each number in its bitmap.
  lemma StoredGroupsInProgress(ttl: nat, start: nat, evs: seq<Event>)
    ensures forall k :: k in Run(Store(map[], ttl, start), evs).0.pending ==>
              var e := Run(Store(map[], ttl, start), evs).0.pending[k]; InProgress(e) && FramesAreReceived(e)
  {
    var st, b := Store(map[], ttl, start), Board(map[], ttl, start);
    RunRefines(st, b, evs);
    var after, board := Run(st, evs).0, RunBoard(b, evs).0;
    forall k | k in after.pending ensures InProgress(after.pending[k]) && FramesAreReceived(after.pending[k]) {
      StoredUnder(after, board, k);
    }
  }

  lemma StoredUnder(st: Store, b: Board, k: string)
    requires Represents(st, b) && k in st.pending
    ensures InProgress(st.pending[k]) && FramesAreReceived(st.pending[k])
  {
    var g :| g in b.groups && KeyOf(g) == k;
    assert Stored(g, st.pending[k], b.groups[g]);
    NumberedFrames(st.pending[k], b.groups[g]);
  }

  lemma NumberedFrames(e: Entry, p: Partial)
    requires e.received == p.payloads.Keys && Numbered(Parts(e.frames), p.payloads)
    ensures FramesAreReceived(e)
  {
    hide StripUdh;
    var parts := Parts(e.frames);
    assert forall i :: 0 <= i < |parts| ==> parts[i].number == e.frames[i].segmentNumber;
    forall n | n in e.received ensures exists i :: 0 <= i < |e.frames| && e.frames[i].segmentNumber == n {
      assert Has(parts, n);
    }
  }

  ghost predicate Monotone(start: nat, evs: seq<Event>) {
    && (forall i :: 0 <= i < |evs| ==> start <= evs[i].now)
    && (forall i, j :: 0 <= i <= j < |evs| ==> evs[i].now <= evs[j].now)
  }

  ghost predicate Young(st: Store, now: nat) {
    && st.lastCleanup <= now
    && forall k :: k in st.pending ==> st.lastCleanup <= st.pending[k].created + st.ttl && st.pending[k].created <= now
  }

  lemma AddFrameKeepsYoung(st: Store, earlier: nat, sender: string, frame: LongMessageFrame, now: nat)
    requires Young(st, earlier) && earlier <= now && st.ttl > 0
    ensures var st' := AddFrame(st, sender, frame, now).0;
            && Young(st', now) && st'.ttl == st.ttl
            && forall k :: k in st'.pending ==> Elapsed(now, st'.pending[k].created) < 2 * st.ttl
  {
    var cleaned := LazyCleanup(st, now);
    CleanupKeepsYoung(st, earlier, now);
    hide LazyCleanup, Key;
    if frame.totalSegments != 1 || frame.hasUdhi {
      FileKeepsYoung(cleaned, Key(sender, frame.referenceId, frame.totalSegments), frame, now);
    }
    hide File;
    StillYoung(AddFrame(st, sender, frame, now).0, now);
  }

  lemma CleanupKeepsYoung(st: Store, earlier: nat, now: nat)
    requires Young(st, earlier) && earlier <= now && st.ttl > 0
    ensures var cleaned := LazyCleanup(st, now);
            Young(cleaned, now) && cleaned.ttl == st.ttl && now < cleaned.lastCleanup + st.ttl
  {
  }

  lemma FileKeepsYoung(st: Store, key: string, frame: LongMessageFrame, now: nat)
    requires Young(st, now)
    ensures var after := File(st, key, frame, now).0;
            Young(after, now) && after.ttl == st.ttl && after.lastCleanup == st.lastCleanup
  {
    FileCases(st, key, frame, now);
    hide File, SortBySegment, JoinStripped;
  }

  lemma StillYoung(st: Store, now: nat)
    requires Young(st, now) && now < st.lastCleanup + st.ttl
    ensures forall k :: k in st.pending ==> Elapsed(now, st.pending[k].created) < 2 * st.ttl
  {
  }

  // With a fixed time-to-live and a clock that does not go back, no group outlives twice the
  // time-to-live past any call, so unfinished messages cannot pile up for ever.
  lemma {:induction false} LazyCleanupBound(ttl: nat, start: nat, evs: seq<Event>)
    requires ttl > 0 && Monotone(start, evs)
    ensures var st := Run(Store(map[], ttl, start), evs).0;
            && st.ttl == ttl
            && Young(st, if evs == [] then start else evs[|evs| - 1].now)
            && (evs != [] ==> forall k :: k in st.pending ==>
                                Elapsed(evs[|evs| - 1].now, st.pending[k].created) < 2 * ttl)
  {
    if evs != [] {
      var before, ev := evs[..|evs| - 1], evs[|evs| - 1];
      LazyCleanupBound(ttl, start, before);
      AddFrameKeepsYoung(Run(Store(map[], ttl, start), before).0,
                         if before == [] then start else before[|before| - 1].now,
                         ev.sender, ev.frame, ev.now);
    }
  }

  // The bound is the best possible: a group can be 2 * ttl - 1 old.
  lemma LazyCleanupBoundIsTight(frame: LongMessageFrame, ttl: nat)
    requires ttl > 0 && frame.totalSegments == 2
    ensures var e1, e2, e3 := Event("s", frame, 1), Event("t", frame, ttl + 1), Event("t", frame, 2 * ttl);
            var st := Run(Store(map[], ttl, 1), [e1, e2, e3]).0;
            && Key("s", frame.referenceId, 2) in st.pending
            && Elapsed(2 * ttl, st.pending[Key("s", frame.referenceId, 2)].created) == 2 * ttl - 1
  {
    var st0 := Store(map[], ttl, 1);
    var e1, e2, e3 := Event("s", frame, 1), Event("t", frame, ttl + 1), Event("t", frame, 2 * ttl);
    var k, l := Key("s", frame.referenceId, 2), Key("t", frame.referenceId, 2);
    assert k[0] == 's' && l[0] == 't';
    FileCases(LazyCleanup(st0, 1), k, frame, 1);
    var st1 := AddFrame(st0, "s", frame, 1).0;
    assert st1.pending[k].created == 1 && st1.lastCleanup == 1;
    FileCases(LazyCleanup(st1, ttl + 1), l, frame, ttl + 1);
    var st2 := AddFrame(st1, "t", frame, ttl + 1).0;
    assert st2.pending[k].created == 1 && st2.lastCleanup == ttl + 1;
    FileCases(LazyCleanup(st2, 2 * ttl), l, frame, 2 * ttl);
    assert [e1, e2, e3][..2] == [e1, e2] && [e1, e2][..1] == [e1] && [e1][..0] == [];
    assert Run(st0, [e1]).0 == st1;
    assert Run(st0, [e1, e2]).0 == st2;
  }

  // One long message

  // The segment numbers of group g among the events.
  function Seen(evs: seq<Event>, g: Group): (ns: set<u8>) {
    set i | 0 <= i < |evs| && evs[i].Bucket() == g :: evs[i].frame.segmentNumber
  }

  // An event of group g carries one of the given segments under a header.
  ghost predicate Fits(ev: Event, g: Group, segments: map<u8, Octets>) {
    ev.Bucket() == g ==>
      && ev.frame.hasUdhi
      && ev.frame.segmentNumber in segments
      && StripUdh(ev.frame.content) == segments[ev.frame.segmentNumber]
  }

  ghost predicate Carries(evs: seq<Event>, g: Group, segments: map<u8, Octets>) {
    forall i :: 0 <= i < |evs| ==> Fits(evs[i], g, segments)
  }

  function Restrict(segments: map<u8, Octets>, seen: set<u8>): (r: map<u8, Octets>)
    requires seen <= segments.Keys
    ensures r.Keys == seen
    ensures seen == segments.Keys ==> r == segments
  {
    map n | n in seen :: segments[n]
  }

  ghost predicate Waiting(b: Board, g: Group, segments: map<u8, Octets>, seen: set<u8>, since: nat)
    requires seen <= segments.Keys
  {
    if seen == {} then g !in b.groups
    else g in b.groups && b.groups[g].payloads == Restrict(segments, seen) && since <= b.groups[g].created
  }

  lemma SeenGrows(evs: seq<Event>, ev: Event, g: Group)
    ensures Seen(evs + [ev], g) == if ev.Bucket() == g then Seen(evs, g) + {ev.frame.segmentNumber} else Seen(evs, g)
  {
    var all := evs + [ev];
    assert all[|evs|] == ev;
    forall n | n in Seen(evs, g) ensures n in Seen(all, g) {
      var i :| 0 <= i < |evs| && evs[i].Bucket() == g && evs[i].frame.segmentNumber == n;
      assert all[i] == evs[i];
    }
  }

  // The next new segment of a waiting group that has not expired.
  lemma NewSegment(b: Board, g: Group, segments: map<u8, Octets>, seen: set<u8>, since: nat, ev: Event)
    requires seen <= segments.Keys && |segments| == g.total
    requires Waiting(b, g, segments, seen, since) && since <= ev.now
    requires ev.Bucket() == g && ev.frame.segmentNumber in segments.Keys - seen
    requires StripUdh(ev.frame.content) == segments[ev.frame.segmentNumber]
    ensures var (b', out) := Collect(b, ev);
            var seen' := seen + {ev.frame.segmentNumber};
            if seen' == segments.Keys then out == Some(Assemble(segments, 256))
            else Waiting(b', g, segments, seen', since) && out == None
  {
    var n, p := ev.frame.segmentNumber, Collected(b, g, ev.now);
    var seen', p' := seen + {n}, GrownPartial(p, ev.frame);
    assert p.payloads == Restrict(segments, seen);
    assert p'.payloads == Restrict(segments, seen');
    SubsetCard(seen', segments.Keys);
    assert |p'.payloads| == |p'.payloads.Keys| && |segments| == |segments.Keys|;
  }

  // A frame of another group, and a repeated one, leave the group alone.
  lemma OldSegment(b: Board, g: Group, segments: map<u8, Octets>, seen: set<u8>, since: nat, ev: Event)
    requires seen <= segments.Keys && Waiting(b, g, segments, seen, since)
    requires ev.Bucket() == g ==> ev.frame.segmentNumber in seen
    ensures Waiting(Collect(b, ev).0, g, segments, seen, since)
    ensures ev.Bucket() == g ==> Collect(b, ev).1 == None
  {
  }

  lemma WaitingStep(b: Board, g: Group, segments: map<u8, Octets>, seen: set<u8>, since: nat, ev: Event)
    requires seen <= segments.Keys && |segments| == g.total
    requires seen != segments.Keys && Waiting(b, g, segments, seen, since)
    requires since <= ev.now <= since + b.ttl
    requires Fits(ev, g, segments)
    ensures var (b', out) := Receive(b, ev);
            var seen' := if ev.Bucket() == g then seen + {ev.frame.segmentNumber} else seen;
            && b'.ttl == b.ttl
            && if seen' == segments.Keys then out == Some(Assemble(segments, 256))
               else Waiting(b', g, segments, seen', since) && (ev.Bucket() == g ==> out == None)
  {
    StaysWaiting(b, g, segments, seen, since, ev.now);
    TtlKept(b, ev);
    hide Expire, Collect, Restrict, Assemble, Waiting;
    var c := Expire(b, ev.now);
    if ev.Bucket() == g && ev.frame.segmentNumber !in seen {
      NewSegment(c, g, segments, seen, since, ev);
    } else {
      OldSegment(c, g, segments, seen, since, ev);
      assert ev.Bucket() == g ==> seen + {ev.frame.segmentNumber} == seen;
    }
  }

  lemma StaysWaiting(b: Board, g: Group, segments: map<u8, Octets>, seen: set<u8>, since: nat, now: nat)
    requires seen <= segments.Keys && Waiting(b, g, segments, seen, since) && since <= now <= since + b.ttl
    ensures Waiting(Expire(b, now), g, segments, seen, since)
  {
  }

  lemma TtlKept(b: Board, ev: Event)
    ensures Collect(Expire(b, ev.now), ev).0.ttl == b.ttl
  {
  }

  lemma CarriesPrefix(evs: seq<Event>, ev: Event, g: Group, segments: map<u8, Octets>)
    requires Carries(evs + [ev], g, segments)
    ensures Carries(evs, g, segments) && Seen(evs, g) <= segments.Keys
    ensures Fits(ev, g, segments)
  {
    var all := evs + [ev];
    assert all[|evs|] == ev;
    assert forall i :: 0 <= i < |evs| ==> all[i] == evs[i];
  }

  // As long as some segment has not arrived, the group is exactly what has arrived.
  lemma {:induction false} WaitingRun(b: Board, g: Group, segments: map<u8, Octets>, since: nat, evs: seq<Event>)
    requires g !in b.groups && |segments| == g.total && Carries(evs, g, segments)
    requires forall i :: 0 <= i < |evs| ==> since <= evs[i].now <= since + b.ttl
    requires Seen(evs, g) != segments.Keys
    ensures Seen(evs, g) <= segments.Keys
    ensures var (b', outs) := RunBoard(b, evs);
            && b'.ttl == b.ttl
            && Waiting(b', g, segments, Seen(evs, g), since)
            && forall i :: 0 <= i < |evs| && evs[i].Bucket() == g ==> outs[i] == None
  {
    if evs != [] {
      hide Receive, Carries, Seen, Fits;
      var before, ev := evs[..|evs| - 1], evs[|evs| - 1];
      assert evs == before + [ev];
      SeenGrows(before, ev, g);
      CarriesPrefix(before, ev, g, segments);
      WaitingRun(b, g, segments, since, before);
      WaitingStep(RunBoard(b, before).0, g, segments, Seen(before, g), since, ev);
    }
  }

  lemma LastSegment(b: Board, g: Group, segments: map<u8, Octets>, since: nat, evs: seq<Event>, last: Event)
    requires g !in b.groups && |segments| == g.total && Carries(evs, g, segments) && Fits(last, g, segments)
    requires forall i :: 0 <= i < |evs| ==> since <= evs[i].now <= since + b.ttl
    requires since <= last.now <= since + b.ttl
    requires Seen(evs, g) != segments.Keys
    requires last.Bucket() == g && Seen(evs, g) + {last.frame.segmentNumber} == segments.Keys
    ensures var (before, outs) := RunBoard(b, evs);
            && (forall i :: 0 <= i < |evs| && evs[i].Bucket() == g ==> outs[i] == None)
            && Receive(before, last).1 == Some(Assemble(segments, 256))
  {
    WaitingRun(b, g, segments, since, evs);
    WaitingStep(RunBoard(b, evs).0, g, segments, Seen(evs, g), since, last);
  }

  // One message among any traffic: the segments of group g arrive in any order, repeated at will
  // and interleaved with arbitrary frames of other groups, all within the time-to-live. Until the
  // last missing number arrives the group yields nothing; that event yields the whole.
  lemma MessageDelivered(st: Store, b: Board, g: Group, segments: map<u8, Octets>, since: nat, evs: seq<Event>, last: Event)
    requires Represents(st, b) && g !in b.groups
    requires |segments| == g.total && Carries(evs + [last], g, segments)
    requires forall i :: 0 <= i < |evs| ==> since <= evs[i].now <= since + st.ttl
    requires since <= last.now <= since + st.ttl
    requires Seen(evs, g) != segments.Keys && Seen(evs + [last], g) == segments.Keys
    ensures var outs := Run(st, evs + [last]).1;
            && (forall i :: 0 <= i < |evs| && evs[i].Bucket() == g ==> outs[i] == None)
            && outs[|evs|] == Some(Assemble(segments, 256))
  {
    assert b.ttl == st.ttl;
    var all := evs + [last];
    CarriesPrefix(evs, last, g, segments);
    SeenGrows(evs, last, g);
    LastSegment(b, g, segments, since, evs, last);
    assert all[..|all| - 1] == evs && all[|evs|] == last;
    RunRefines(st, b, all);
  }
}
