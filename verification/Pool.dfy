// Connections of an account: which are evicted when there are too many, and which is handed out next.
module Pool {
  import opened Wrappers
  import opened Bytes
  import opened Sorting
  import opened Collections

  // What the pool reads of a connection.
  datatype Connection = Connection(id: u64, ready: bool, loginDone: bool, writable: bool, lastActive: nat)

  function IdOf(c: Connection): (id: u64) {
    c.id
  }

  // The comparison of evict_excess_connections: not ready first, then most recently active first.
  predicate EvictFirst(a: Connection, b: Connection) {
    if a.ready != b.ready then !a.ready else a.lastActive >= b.lastActive
  }

  // retain(|c| c.id != id)
  function Retain(conns: seq<Connection>, id: u64): (r: seq<Connection>) {
    if conns == [] then []
    else if conns[0].id != id then [conns[0]] + Retain(conns[1..], id)
    else Retain(conns[1..], id)
  }

  function RetainAll(conns: seq<Connection>, gone: seq<Connection>): (r: seq<Connection>) {
    if gone == [] then conns else Retain(RetainAll(conns, gone[..|gone| - 1]), gone[|gone| - 1].id)
  }

  function Ids(conns: seq<Connection>): (ids: seq<u64>)
    ensures |ids| == |conns| && forall i :: 0 <= i < |ids| ==> ids[i] == conns[i].id
  {
    seq(|conns|, i requires 0 <= i < |conns| => conns[i].id)
  }

  // Who goes: the first of the sorted list, as many as are too many. A limit of zero is no limit.
  function Evicted(conns: seq<Connection>, max: nat): (gone: seq<Connection>) {
    if max == 0 || |conns| <= max then [] else Sort(EvictFirst, conns)[..|conns| - max]
  }

  // Vec::retain on the ids
  method RetainOthers(conns: seq<Connection>, id: u64) returns (kept: seq<Connection>)
    ensures kept == Retain(conns, id)
  {
    kept := [];
    var i := 0;
    assert conns[0..] == conns;
    while i < |conns|
      invariant 0 <= i <= |conns|
      invariant Retain(conns, id) == kept + Retain(conns[i..], id)
    {
      assert conns[i..][1..] == conns[i + 1..];
      if conns[i].id != id {
        assert kept + ([conns[i]] + Retain(conns[i + 1..], id)) == kept + [conns[i]] + Retain(conns[i + 1..], id);
        kept := kept + [conns[i]];
      }
      i := i + 1;
    }
    assert kept + [] == kept;
  }

  class ConnectionPool {
    var inner: seq<Connection>
    var cursor: u64

    constructor ()
      ensures inner == [] && cursor == 0
    {
      inner, cursor := [], 0;
    }

    method Remove(id: u64)
      modifies this`inner
      ensures inner == Retain(old(inner), id)
    {
      inner := RetainOthers(inner, id);
    }

    method Fetch() returns (r: Option<Connection>)
      modifies this`cursor
      ensures cursor == if inner == [] then old(cursor) else WrappingAdd(old(cursor), 1)
      ensures r == Scan(inner, old(cursor), Fetchable)
      ensures r.Some? ==> r.value in inner && r.value.ready && r.value.loginDone
      ensures r.None? && 0 < |inner| < WRAP && Unbroken(old(cursor), |inner|) ==> forall c :: c in inner ==> !c.ready || !c.loginDone
    {
      ScanAnswers(inner, cursor, Fetchable);
      if |inner| == 0 {
        return None;
      }
      var start := cursor;
      cursor := WrappingAdd(cursor, 1);
      r := RotatedScan(inner, start, Fetchable);
    }
  }

  class AccountConnections {
    var maxConnections: nat
    var connections: seq<Connection>
    var closed: seq<u64>
    var cursor: u64

    constructor (maxConnections: nat)
      ensures this.maxConnections == maxConnections && connections == [] && closed == [] && cursor == 0
    {
      this.maxConnections, connections, closed, cursor := maxConnections, [], [], 0;
    }

    method AddConnection(c: Connection)
      modifies this`connections
      ensures connections == old(connections) + [c]
    {
      connections := connections + [c];
    }

    method RemoveConnection(id: u64)
      modifies this`connections
      ensures connections == Retain(old(connections), id)
    {
      connections := RetainOthers(connections, id);
    }

    method EvictExcessConnections() returns (evicted: seq<u64>)
      modifies this`connections, this`closed
      ensures var gone := Evicted(old(connections), maxConnections);
              && evicted == Ids(gone) && closed == old(closed) + Ids(gone)
              && connections == RetainAll(old(connections), gone)
      ensures maxConnections == 0 || |old(connections)| <= maxConnections ==>
                evicted == [] && connections == old(connections) && closed == old(closed)
    {
      var max := maxConnections;
      if max == 0 {
        assert closed + [] == closed;
        return [];
      }
      var current := |connections|;
      if current <= max {
        assert closed + [] == closed;
        return [];
      }
      var excess := current - max;
      var scored := Sort(EvictFirst, connections);
      evicted := [];
      var i := 0;
      while i < excess
        invariant 0 <= i <= excess
        invariant evicted == Ids(scored[..i]) && closed == old(closed) + Ids(scored[..i])
        invariant connections == RetainAll(old(connections), scored[..i])
      {
        var conn := scored[i];
        assert scored[..i + 1][..i] == scored[..i];
        assert Ids(scored[..i + 1]) == Ids(scored[..i]) + [conn.id];
        closed := closed + [conn.id];
        RemoveConnection(conn.id);
        evicted := evicted + [conn.id];
        i := i + 1;
      }
    }

    method FetchAvailableConnection() returns (r: Option<Connection>)
      modifies this`cursor
      ensures cursor == if connections == [] then old(cursor) else WrappingAdd(old(cursor), 1)
      ensures r == Scan(connections, old(cursor), Available)
      ensures r.Some? ==> r.value in connections && r.value.ready && r.value.loginDone && r.value.writable
      ensures r.None? && 0 < |connections| < WRAP && Unbroken(old(cursor), |connections|) ==>
                forall c :: c in connections ==> !c.ready || !c.loginDone || !c.writable
    {
      ScanAnswers(connections, cursor, Available);
      if |connections| == 0 {
        return None;
      }
      var start := cursor;
      cursor := WrappingAdd(cursor, 1);
      r := RotatedScan(connections, start, Available);
    }
  }

  predicate Fetchable(c: Connection) {
    c.ready && c.loginDone
  }

  predicate Available(c: Connection) {
    c.ready && c.loginDone && c.writable
  }

  // (start + i) % n, in 64 bits
  function Place(start: u64, i: nat, n: nat): (k: nat)
    requires n > 0
    ensures k < n
  {
    (start + i) % 0x1_0000_0000_0000_0000 % n
  }

  // The first eligible connection from the i-th place on.
  function ScanFrom(conns: seq<Connection>, start: u64, eligible: Connection -> bool, i: nat): (r: Option<Connection>)
    requires conns != [] && i <= |conns|
    decreases |conns| - i
  {
    if i == |conns| then None
    else if eligible(conns[Place(start, i, |conns|)]) then Some(conns[Place(start, i, |conns|)])
    else ScanFrom(conns, start, eligible, i + 1)
  }

  function Scan(conns: seq<Connection>, start: u64, eligible: Connection -> bool): (r: Option<Connection>) {
    if conns == [] then None else ScanFrom(conns, start, eligible, 0)
  }

  method RotatedScan(conns: seq<Connection>, start: u64, eligible: Connection -> bool) returns (r: Option<Connection>)
    requires conns != []
    ensures r == Scan(conns, start, eligible)
  {
    var n := |conns|;
    var i := 0;
    while i < n
      invariant 0 <= i <= n && ScanFrom(conns, start, eligible, 0) == ScanFrom(conns, start, eligible, i)
    {
      var c := conns[Place(start, i, n)];
      if eligible(c) {
        return Some(c);
      }
      i := i + 1;
    }
    return None;
  }

  // Eviction

  lemma EvictFirstIsTotal()
    ensures TotalPreorder(EvictFirst)
  {
  }

  ghost predicate UniqueIds(conns: seq<Connection>) {
    DistinctBy(IdOf, conns)
  }

  // Removing an id removes everybody with it and nobody else, however often they are listed.
  lemma {:induction false} RetainExact(conns: seq<Connection>, id: u64, c: Connection)
    ensures multiset(Retain(conns, id))[c] == if c.id == id then 0 else multiset(conns)[c]
  {
    if conns != [] {
      assert conns == [conns[0]] + conns[1..];
      RetainExact(conns[1..], id, c);
    }
  }

  lemma {:induction false} RetainIs(conns: seq<Connection>, id: u64)
    requires UniqueIds(conns)
    ensures var r := Retain(conns, id);
            && UniqueIds(r) && (forall c :: c in r <==> c in conns && c.id != id)
            && |r| == |conns| - (if exists c :: c in conns && c.id == id then 1 else 0)
  {
    if conns != [] {
      var head, tail := conns[0], conns[1..];
      assert conns == [head] + tail;
      RetainIs(tail, id);
      assert forall c :: c in tail ==> c.id != head.id;
      var r := Retain(tail, id);
      assert forall i :: 0 <= i < |r| ==> r[i] in r && r[i].id != head.id;
    }
  }

  lemma {:induction false} RetainAllIs(conns: seq<Connection>, gone: seq<Connection>)
    requires UniqueIds(conns) && UniqueIds(gone) && forall c :: c in gone ==> c in conns
    ensures var r := RetainAll(conns, gone);
            && UniqueIds(r) && (forall c :: c in r <==> c in conns && c !in gone) && |r| == |conns| - |gone|
  {
    if gone != [] {
      var before, last := gone[..|gone| - 1], gone[|gone| - 1];
      assert gone == before + [last];
      assert last in gone;
      assert forall c :: c in before ==> c in gone;
      RetainAllIs(conns, before);
      assert last !in before;
      RetainIs(RetainAll(conns, before), last.id);
      forall c | c in conns && c.id == last.id ensures c == last {
        var i :| 0 <= i < |conns| && conns[i] == c;
        var j :| 0 <= j < |conns| && conns[j] == last;
        assert i == j;
      }
    }
  }

  // Eviction is exact and ordered: with unique ids and a limit above zero, as many stay as the limit
  // allows, those who go and those who stay are all there were, and nobody who stays comes strictly
  // before one who goes: no ready connection goes while one that is not ready stays, and among those
  // alike the most recently active go.
  lemma EvictionExact(conns: seq<Connection>, max: nat)
    requires UniqueIds(conns) && max > 0
    ensures var gone := Evicted(conns, max);
            var kept := RetainAll(conns, gone);
            && |kept| == (if |conns| < max then |conns| else max) && |gone| + |kept| == |conns|
            && UniqueIds(gone) && UniqueIds(kept)
            && (forall c :: c in conns <==> c in gone || c in kept) && (forall c :: !(c in gone && c in kept))
            && (forall c, d :: c in gone && d in kept ==> EvictFirst(c, d))
            && (forall c, d :: c in gone && d in kept && c.ready ==> d.ready)
            && (forall c, d :: c in gone && d in kept && c.ready == d.ready ==> c.lastActive >= d.lastActive)
  {
    EvictedIs(conns, max);
    RetainAllIs(conns, Evicted(conns, max));
    hide Evicted, UniqueIds;
  }

  lemma EvictedIs(conns: seq<Connection>, max: nat)
    requires UniqueIds(conns) && max > 0
    ensures var gone := Evicted(conns, max);
            && |gone| == (if |conns| <= max then 0 else |conns| - max)
            && UniqueIds(gone) && (forall c :: c in gone ==> c in conns)
            && (forall c, d :: c in gone && d in conns && d !in gone ==> EvictFirst(c, d))
  {
    var sorted := Sort(EvictFirst, conns);
    EvictFirstIsTotal();
    SortSorted(EvictFirst, conns);
    DistinctPermuted(IdOf, conns, sorted);
    forall c ensures c in sorted <==> c in conns {
      assert c in sorted <==> c in multiset(sorted);
      assert c in conns <==> c in multiset(conns);
    }
    if max < |conns| {
      hide Sort;
      PrefixFirst(sorted, |conns| - max);
    }
  }

  // A stretch at the front of a sorted list.
  lemma PrefixFirst(sorted: seq<Connection>, n: nat)
    requires n <= |sorted| && UniqueIds(sorted) && SortedBy(EvictFirst, sorted)
    ensures UniqueIds(sorted[..n]) && (forall c :: c in sorted[..n] ==> c in sorted)
    ensures forall c, d :: c in sorted[..n] && d in sorted && d !in sorted[..n] ==> EvictFirst(c, d)
  {
    var gone := sorted[..n];
    forall j | 0 <= j < n ensures sorted[j] in gone {
      assert gone[j] == sorted[j];
    }
    forall c, d | c in gone && d in sorted && d !in gone ensures EvictFirst(c, d) {
      var i :| 0 <= i < n && gone[i] == c;
      var j :| 0 <= j < |sorted| && sorted[j] == d;
      assert sorted[i] == c;
    }
  }

  // Round robin

  const WRAP := 0x1_0000_0000_0000_0000

  // The n numbers from start on visit this place.
  ghost predicate Visits(start: u64, n: nat, k: nat)
    requires n > 0
  {
    exists i: nat :: i < n && Place(start, i, n) == k
  }

  // No wrap-around among the n numbers, or one that does not show.
  predicate Unbroken(start: u64, n: nat)
    requires n > 0
  {
    start + n <= WRAP || WRAP % n == 0
  }

  lemma Multiple(k: int, n: nat)
    requires n > 0
    ensures k >= 1 ==> k * n >= n
    ensures k <= -1 ==> k * n + n <= 0
  {
    if k >= 1 {
      assert k * n == (k - 1) * n + n;
    } else if k <= -1 {
      assert k * n == (k + 1) * n - n;
    }
  }

  lemma ModIs(x: nat, n: nat, q: int, r: nat)
    requires n > 0 && r < n && x == q * n + r
    ensures x % n == r
  {
    var d := x / n;
    assert d * n + x % n == x;
    assert (d - q) * n == r - x % n;
    Multiple(d - q, n);
  }

  // start + i, with or without one wrap-around of 2^64.
  lemma PlaceIs(start: u64, i: nat, n: nat)
    requires n > 0 && start + i < 2 * WRAP
    ensures Place(start, i, n) == (if start + i < WRAP then start + i else start + i - WRAP) % n
  {
    ModIs(start + i, WRAP, if start + i < WRAP then 0 else 1, if start + i < WRAP then start + i else start + i - WRAP);
  }

  lemma ShiftMod(a: nat, i: nat, n: nat)
    requires n > 0
    ensures (a + i) % n == (a % n + i) % n
  {
    var q, t := a / n, (a % n + i) / n;
    assert a == q * n + a % n;
    assert a % n + i == t * n + (a % n + i) % n;
    assert a + i == (q + t) * n + (a % n + i) % n;
    ModIs(a + i, n, q + t, (a % n + i) % n);
  }

  lemma DropMultiple(y: nat, n: nat)
    requires n > 0 && WRAP % n == 0
    ensures (y + WRAP) % n == y % n
  {
    var w := WRAP / n;
    assert WRAP == w * n;
    assert y == y / n * n + y % n;
    assert y + WRAP == (y / n + w) * n + y % n;
    ModIs(y + WRAP, n, y / n + w, y % n);
  }

  // As long as nothing breaks, the i-th number stands i places after the first.
  lemma PlaceUnbroken(start: u64, i: nat, n: nat)
    requires n > 0 && i < n && Unbroken(start, n)
    ensures Place(start, i, n) == (start % n + i) % n
  {
    SmallerThanWrap(n);
    PlaceIs(start, i, n);
    ShiftMod(start, i, n);
    if start + i >= WRAP {
      DropMultiple(start + i - WRAP, n);
    }
  }

  lemma SmallerThanWrap(n: nat)
    requires n > 0
    ensures WRAP % n == 0 ==> n <= WRAP
  {
  }

  // The place k is visited by the number that many steps after the first.
  lemma VisitedUnbroken(start: u64, n: nat, k: nat)
    requires n > 0 && k < n && Unbroken(start, n)
    ensures Visits(start, n, k)
  {
    var a := start % n;
    var i := if k >= a then k - a else k - a + n;
    PlaceUnbroken(start, i, n);
    ModIs(a + i, n, if k >= a then 0 else 1, k);
    assert i < n && Place(start, i, n) == k;
  }

  // A wrap-around that shows: d is what it shifts by, a how many numbers come before it, and the
  // place it leaves out is the first behind those visited after it, or d.
  function LeftOut(start: u64, n: nat): (k: nat)
    requires n > 0 && start + n > WRAP
  {
    var d, later := WRAP % n, start + n - WRAP;
    if d >= later then d else later
  }

  lemma NotVisited(start: u64, n: nat, i: nat)
    requires 0 < n < WRAP && !Unbroken(start, n) && i < n
    ensures Place(start, i, n) != LeftOut(start, n)
  {
    var d, later, k := WRAP % n, start + n - WRAP, LeftOut(start, n);
    PlaceIs(start, i, n);
    if start + i < WRAP {
      // start + i is WRAP - b, and k is d + x, with 1 <= b + x <= n - 1
      var b, x := WRAP - start - i, k - d;
      BeforeWrap(start + i, b, x, n);
    } else {
      ModIs(start + i - WRAP, n, 0, start + i - WRAP);
    }
  }

  lemma BeforeWrap(y: nat, b: nat, x: nat, n: nat)
    requires n > 0 && y + b == WRAP && 1 <= b + x < n && WRAP % n + x < n
    ensures y % n != WRAP % n + x
  {
    var d, w, q := WRAP % n, WRAP / n, y / n;
    assert WRAP == w * n + d;
    assert y == q * n + y % n;
    // if y % n were d + x, then b + x would be a multiple of n
    assert (w - q) * n == b - d + y % n;
    Multiple(w - q, n);
  }

  // The rotation is complete exactly when it is unbroken. Taken over n calls in a row it says that,
  // with all connections eligible, each is returned exactly once; taken over one scan, that the scan
  // sees every connection.
  lemma RotationComplete(start: u64, n: nat)
    requires 0 < n < WRAP
    ensures (forall k: nat :: k < n ==> Visits(start, n, k)) <==> Unbroken(start, n)
  {
    if Unbroken(start, n) {
      forall k: nat | k < n ensures Visits(start, n, k) {
        VisitedUnbroken(start, n, k);
      }
    } else {
      var k := LeftOut(start, n);
      assert k < n;
      forall i: nat | i < n ensures Place(start, i, n) != k {
        NotVisited(start, n, i);
      }
      assert !Visits(start, n, k);
    }
  }

  // What a scan says of the connections.
  lemma ScanAnswers(conns: seq<Connection>, start: u64, eligible: Connection -> bool)
    ensures var r := Scan(conns, start, eligible);
            && (r.Some? ==> r.value in conns && eligible(r.value))
            && (r.None? && conns != [] && |conns| < WRAP && Unbroken(start, |conns|) ==> forall c :: c in conns ==> !eligible(c))
  {
    if conns != [] {
      ScanFinds(conns, start, eligible, 0);
      if |conns| < WRAP && Unbroken(start, |conns|) {
        ScanComplete(conns, start, eligible);
      }
    }
  }

  // What a scan finds: an eligible connection of the list; and nothing only if no visited place
  // holds one.
  lemma {:induction false} ScanFinds(conns: seq<Connection>, start: u64, eligible: Connection -> bool, i: nat)
    requires conns != [] && i <= |conns|
    ensures var r := ScanFrom(conns, start, eligible, i);
            && (r.Some? ==> r.value in conns && eligible(r.value))
            && (r.None? ==> forall j :: i <= j < |conns| ==> !eligible(conns[Place(start, j, |conns|)]))
    decreases |conns| - i
  {
    if i < |conns| && !eligible(conns[Place(start, i, |conns|)]) {
      ScanFinds(conns, start, eligible, i + 1);
    }
  }

  // The scan has done its job: an eligible connection, or none because there is none.
  ghost predicate Finds(conns: seq<Connection>, start: u64, eligible: Connection -> bool) {
    match Scan(conns, start, eligible)
    case Some(c) => c in conns && eligible(c)
    case None => forall c :: c in conns ==> !eligible(c)
  }

  lemma ScanComplete(conns: seq<Connection>, start: u64, eligible: Connection -> bool)
    requires conns != [] ==> |conns| < WRAP && Unbroken(start, |conns|)
    ensures Finds(conns, start, eligible)
  {
    if conns != [] {
      ScanFinds(conns, start, eligible, 0);
      if Scan(conns, start, eligible).None? {
        forall k | 0 <= k < |conns| ensures !eligible(conns[k]) {
          VisitedUnbroken(start, |conns|, k);
          var i: nat :| i < |conns| && Place(start, i, |conns|) == k;
        }
      }
    }
  }

  // The rotated scan returns an eligible connection whenever there is one, whatever counts as
  // eligible, exactly when the cursor does not visibly wrap around on the way.
  lemma ScanCompleteIff(conns: seq<Connection>, start: u64)
    requires conns != [] && |conns| < WRAP && UniqueIds(conns)
    ensures (forall eligible: Connection -> bool :: Finds(conns, start, eligible)) <==> Unbroken(start, |conns|)
  {
    var n := |conns|;
    if Unbroken(start, n) {
      forall eligible: Connection -> bool ensures Finds(conns, start, eligible) {
        ScanComplete(conns, start, eligible);
      }
    } else {
      var k := LeftOut(start, n);
      assert k < n;
      var only := (c: Connection) => c == conns[k];
      ScanFinds(conns, start, only, 0);
      forall i: nat | i < n ensures conns[Place(start, i, n)] != conns[k] {
        NotVisited(start, n, i);
        Apart(conns, Place(start, i, n), k);
      }
      VisitedBy(conns, start, only, 0);
      assert conns[k] in conns && only(conns[k]);
      assert !Finds(conns, start, only);
    }
  }

  // What a scan returns stands at a place it visited.
  lemma {:induction false} VisitedBy(conns: seq<Connection>, start: u64, eligible: Connection -> bool, i: nat)
    requires conns != [] && i <= |conns|
    ensures var r := ScanFrom(conns, start, eligible, i);
            r.Some? ==> exists j: nat :: j < |conns| && conns[Place(start, j, |conns|)] == r.value
    decreases |conns| - i
  {
    if i < |conns| && !eligible(conns[Place(start, i, |conns|)]) {
      VisitedBy(conns, start, eligible, i + 1);
    }
  }

  lemma Apart(conns: seq<Connection>, p: nat, k: nat)
    requires p < |conns| && k < |conns| && p != k && UniqueIds(conns)
    ensures conns[p] != conns[k]
  {
    assert IdOf(conns[if p < k then p else k]) != IdOf(conns[if p < k then k else p]);
  }

  // With every connection eligible a call returns the one at the cursor.
  lemma NextInTurn(conns: seq<Connection>, start: u64, eligible: Connection -> bool)
    requires conns != [] && forall c :: c in conns ==> eligible(c)
    ensures Scan(conns, start, eligible) == Some(conns[Place(start, 0, |conns|)])
  {
  }

  // The cursor i calls later stands where the i-th number of the rotation does.
  lemma CursorLater(start: u64, i: nat, n: nat)
    requires n > 0
    ensures Place(Advance(start, i), 0, n) == Place(start, i, n)
  {
    assert Advance(start, i) % WRAP == Advance(start, i);
  }

  // Fairness: with all n connections eligible, n calls in a row return each of them, and so each
  // exactly once, exactly when the cursor does not visibly wrap around.
  lemma RoundRobinFair(conns: seq<Connection>, start: u64, eligible: Connection -> bool)
    requires conns != [] && |conns| < WRAP && (forall c :: c in conns ==> eligible(c)) && UniqueIds(conns)
    ensures (forall k: nat :: k < |conns| ==> Served(conns, start, eligible, k)) <==> Unbroken(start, |conns|)
  {
    RotationComplete(start, |conns|);
    forall k: nat | k < |conns| ensures Served(conns, start, eligible, k) <==> Visits(start, |conns|, k) {
      ServedIsVisited(conns, start, eligible, k);
    }
  }

  // One of the n calls from cursor position start on returns the k-th connection.
  ghost predicate Served(conns: seq<Connection>, start: u64, eligible: Connection -> bool, k: nat)
    requires k < |conns|
  {
    exists i: nat :: i < |conns| && Scan(conns, Advance(start, i), eligible) == Some(conns[k])
  }

  lemma ServedIsVisited(conns: seq<Connection>, start: u64, eligible: Connection -> bool, k: nat)
    requires k < |conns| && (forall c :: c in conns ==> eligible(c)) && UniqueIds(conns)
    ensures Served(conns, start, eligible, k) <==> Visits(start, |conns|, k)
  {
    var n := |conns|;
    forall i: nat | i < n
      ensures Scan(conns, Advance(start, i), eligible) == Some(conns[k]) <==> Place(start, i, n) == k
    {
      NextInTurn(conns, Advance(start, i), eligible);
      CursorLater(start, i, n);
      var p := Place(start, i, n);
      if conns[p] == conns[k] {
        assert IdOf(conns[p]) == IdOf(conns[k]);
      }
    }
  }
}
