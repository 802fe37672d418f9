// The client's two registries under concurrency: the window of live sequence ids and the map of
// response channels. Senders, the read loop, write failures, expiry and disconnection interleave in
// any order; every lock section is one step. Sequence ids are unique per connection.
module ClientInflight {
  import opened Wrappers
  import opened Collections

  type Seq = nat
  type Waiter = nat

  // Where a call of send_request is, up to the point where it returns.
  datatype Sending =
    | Checked       // the connection was ready
    | Offered       // the id is in the window
    | Writing       // the channel is registered
    | WriteFailed
    | Cancelled     // the id has been taken out of the window again

  // Where the read loop is with a frame whose id it found in the window.
  datatype Reading = Idle | Matched(frame: Seq) | Completed(frame: Seq)

  // What a response channel receives in the end.
  datatype Outcome = Answered(frame: Seq) | ClosedByDisconnect | Withdrawn

  // The last six fields are history: which waiters have registered, what they received, which ids
  // have expired, for which a frame came when no channel was there, whether the connection has been
  // drained and not marked ready since, and who was between check and registration at that drain.
  datatype State = State(
    ready: bool,
    closing: bool,
    maxSize: nat,
    window: set<Seq>,
    responses: map<Seq, Waiter>,
    senders: map<Waiter, Sending>,
    seqOf: map<Waiter, Seq>,
    reader: Reading,
    registered: set<Waiter>,
    resolved: map<Waiter, Outcome>,
    expired: set<Seq>,
    early: set<Seq>,
    drained: bool,
    straddlers: set<Waiter>
  )

  // The lock sections on the map of pending responses, with what each channel has received.
  datatype Registry = Registry(responses: map<Seq, Waiter>, received: map<Waiter, Outcome>)

  function Entered(r: Registry, id: Seq, w: Waiter): (r': Registry) {
    r.(responses := r.responses[id := w])
  }

  // remove, and what is done with the sender half: an answer, or dropping it.
  function Settled(r: Registry, id: Seq, outcome: Outcome): (r': Registry) {
    if id in r.responses then Registry(r.responses - {id}, r.received[r.responses[id] := outcome]) else r
  }

  function Closed(ws: set<Waiter>): (r: map<Waiter, Outcome>) {
    map w | w in ws :: ClosedByDisconnect
  }

  function Cleared(r: Registry): (r': Registry) {
    Registry(map[], r.received + Closed(r.responses.Values))
  }

  function Book(s: State): (r: Registry) {
    Registry(s.responses, s.resolved)
  }

  function WithBook(s: State, r: Registry): (s': State) {
    s.(responses := r.responses, resolved := r.received)
  }

  function Init(maxSize: nat): (s: State) {
    State(false, false, maxSize, {}, map[], map[], map[], Idle, {}, map[], {}, {}, false, {})
  }

  // The steps of one call of send_request, of the read loop, and of everything else.
  datatype SendMove = Start(id: Seq) | Offer | OfferFails | Register | WriteOk | WriteFails | CancelWindow | Withdraw
  datatype ReadMove = ReadFrame(id: Seq) | CompleteFrame | AnswerFrame
  datatype LinkMove = MarkConnected | Expire(ids: set<Seq>) | MarkDisconnected | Drain

  datatype Step = Send(w: Waiter, send: SendMove) | Read(read: ReadMove) | Link(link: LinkMove)

  predicate At(s: State, w: Waiter, p: Sending) {
    w in s.senders && s.senders[w] == p && w in s.seqOf
  }

  predicate CanSend(s: State, w: Waiter, m: SendMove) {
    match m
    case Start(id) => s.ready && w !in s.seqOf && w !in s.senders && id !in s.seqOf.Values
    case Offer => At(s, w, Checked) && s.seqOf[w] !in s.window && |s.window| < s.maxSize
    case OfferFails => At(s, w, Checked)
    case Register => At(s, w, Offered)
    case WriteOk => At(s, w, Writing)
    case WriteFails => At(s, w, Writing)
    case CancelWindow => At(s, w, WriteFailed)
    case Withdraw => At(s, w, Cancelled)
  }

  predicate CanRead(s: State, m: ReadMove) {
    match m
    case ReadFrame(id) => s.reader.Idle? && id in s.window
    case CompleteFrame => s.reader.Matched?
    case AnswerFrame => s.reader.Completed?
  }

  predicate CanLink(s: State, m: LinkMove) {
    match m
    case Expire(ids) => ids <= s.window
    case Drain => s.closing
    case _ => true
  }

  predicate Enabled(s: State, step: Step) {
    match step
    case Send(w, m) => CanSend(s, w, m)
    case Read(m) => CanRead(s, m)
    case Link(m) => CanLink(s, m)
  }

  function Sent(s: State, w: Waiter, m: SendMove): (r: State)
    requires CanSend(s, w, m)
    ensures r.ready == s.ready && r.reader == s.reader && r.expired == s.expired && r.early == s.early
    ensures r.drained == s.drained && r.straddlers == s.straddlers && r.closing == s.closing && r.maxSize == s.maxSize
    ensures r.seqOf == if m.Start? then s.seqOf[w := m.id] else s.seqOf
    ensures forall v :: v != w ==> (v in r.senders <==> v in s.senders) && (v in s.senders ==> r.senders[v] == s.senders[v])
  {
    match m
    case Start(id) => s.(senders := s.senders[w := Checked], seqOf := s.seqOf[w := id])
    case Offer => s.(window := s.window + {s.seqOf[w]}, senders := s.senders[w := Offered])
    case OfferFails => s.(senders := s.senders - {w})
    case Register =>
      WithBook(s, Entered(Book(s), s.seqOf[w], w)).(senders := s.senders[w := Writing], registered := s.registered + {w})
    case WriteOk => s.(senders := s.senders - {w})
    case WriteFails => s.(senders := s.senders[w := WriteFailed])
    case CancelWindow => s.(window := s.window - {s.seqOf[w]}, senders := s.senders[w := Cancelled])
    case Withdraw => WithBook(s, Settled(Book(s), s.seqOf[w], Withdrawn)).(senders := s.senders - {w})
  }

  function ReadOn(s: State, m: ReadMove): (r: State)
    requires CanRead(s, m)
    ensures r.seqOf == s.seqOf && r.registered == s.registered && r.senders == s.senders && r.ready == s.ready
    ensures r.expired == s.expired && s.early <= r.early
    ensures r.drained == s.drained && r.straddlers == s.straddlers
  {
    match m
    case ReadFrame(id) => s.(reader := Matched(id))
    case CompleteFrame => s.(window := s.window - {s.reader.frame}, reader := Completed(s.reader.frame))
    case AnswerFrame =>
      var id := s.reader.frame;
      WithBook(s, Settled(Book(s), id, Answered(id))).(early := if id in s.responses then s.early else s.early + {id}, reader := Idle)
  }

  // The senders that have passed the check and not registered yet.
  function Unregistered(s: State): (ws: set<Waiter>) {
    set w | w in s.senders && (s.senders[w].Checked? || s.senders[w].Offered?)
  }

  function Linked(s: State, m: LinkMove): (r: State)
    requires CanLink(s, m)
    ensures r.seqOf == s.seqOf && r.registered == s.registered && r.senders == s.senders && r.reader == s.reader
    ensures s.expired <= r.expired && r.early == s.early
    ensures m.Drain? || (r.responses == s.responses && r.resolved == s.resolved)
  {
    match m
    case MarkConnected => s.(ready := true, drained := false)
    case Expire(ids) => s.(window := s.window - ids, expired := s.expired + ids)
    case MarkDisconnected => s.(ready := false, closing := true)
    case Drain =>
      WithBook(s, Cleared(Book(s))).(closing := false, drained := !s.ready, straddlers := Unregistered(s))
  }

  function Next(s: State, step: Step): (r: State)
    requires Enabled(s, step)
  {
    match step
    case Send(w, m) => Sent(s, w, m)
    case Read(m) => ReadOn(s, m)
    case Link(m) => Linked(s, m)
  }

  // The map itself, as the program changes it.
  class Channels {
    var responses: map<Seq, Waiter>
    var received: map<Waiter, Outcome>

    ghost function Value(): (r: Registry)
      reads this
    {
      Registry(responses, received)
    }

    constructor ()
      ensures Value() == Registry(map[], map[])
    {
      responses, received := map[], map[];
    }

    method Insert(id: Seq, w: Waiter)
      modifies this
      ensures Value() == Entered(old(Value()), id, w)
    {
      responses := responses[id := w];
    }

    method Settle(id: Seq, outcome: Outcome) returns (found: bool)
      modifies this
      ensures found == (id in old(responses)) && Value() == Settled(old(Value()), id, outcome)
    {
      found := id in responses;
      if found {
        received := received[responses[id] := outcome];
      }
      responses := responses - {id};
    }

    // client.rs: the drain of mark_disconnected
    method DrainAll()
      modifies this
      ensures Value() == Cleared(old(Value()))
    {
      hide Draining, Cleared;
      ghost var before, done: set<Seq> := Value(), {};
      DrainStarts(before);
      while responses != map[]
        invariant Draining(before, done, Value())
        decreases |responses|
      {
        var id :| id in responses;
        DrainOne(before, done, Value(), id);
        received := received[responses[id] := ClosedByDisconnect];
        responses := responses - {id};
        done := done + {id};
      }
      DrainEnds(before, done, Value());
    }
  }

  ghost function Owners(all: map<Seq, Waiter>, ids: set<Seq>): (ws: set<Waiter>)
    requires ids <= all.Keys
  {
    set id | id in ids :: all[id]
  }

  // Part of the way through the drain.
  ghost predicate Draining(before: Registry, done: set<Seq>, now: Registry) {
    && done <= before.responses.Keys && now.responses == before.responses - done
    && now.received == before.received + Closed(Owners(before.responses, done))
  }

  lemma DrainStarts(before: Registry)
    ensures Draining(before, {}, before)
  {
  }

  lemma DrainOne(before: Registry, done: set<Seq>, now: Registry, id: Seq)
    requires Draining(before, done, now) && id in now.responses
    ensures Draining(before, done + {id}, Registry(now.responses - {id}, now.received[now.responses[id] := ClosedByDisconnect]))
    ensures |now.responses - {id}| < |now.responses|
  {
    assert |now.responses - {id}| == |(now.responses - {id}).Keys| && |now.responses| == |now.responses.Keys|;
    assert (now.responses - {id}).Keys == now.responses.Keys - {id};
  }

  lemma DrainEnds(before: Registry, done: set<Seq>, now: Registry)
    requires Draining(before, done, now) && now.responses == map[]
    ensures now == Cleared(before)
  {
    assert done == before.responses.Keys by {
      assert forall id :: id in before.responses && id !in done ==> id in now.responses;
    }
    assert Owners(before.responses, done) == before.responses.Values;
  }

  function Run(s: State, steps: seq<Step>): (r: Option<State>) {
    if steps == [] then Some(s)
    else
      match Run(s, steps[..|steps| - 1])
      case None => None
      case Some(m) => if Enabled(m, steps[|steps| - 1]) then Some(Next(m, steps[|steps| - 1])) else None
  }

  // The waiter's channel is in the map of pending responses.
  predicate Pending(s: State, w: Waiter) {
    w in s.seqOf && s.seqOf[w] in s.responses && s.responses[s.seqOf[w]] == w
  }

  // Invariants

  // Ids are unique, and a channel stands under the id of its own registered waiter.
  ghost predicate Keyed(s: State) {
    && (forall v, w :: v in s.seqOf && w in s.seqOf && s.seqOf[v] == s.seqOf[w] ==> v == w)
    && (forall id :: id in s.responses ==> s.responses[id] in s.registered && Pending(s, s.responses[id]) && s.seqOf[s.responses[id]] == id)
    && (forall w :: w in s.senders ==> w in s.seqOf)
    && (forall w :: w in s.registered ==> w in s.seqOf)
  }

  // Registered or not, by the place in the code.
  ghost predicate Placed(s: State) {
    forall w :: w in s.senders ==> (w in s.registered <==> !s.senders[w].Checked? && !s.senders[w].Offered?)
  }

  // A registered waiter's channel is pending, or it has been resolved; never both.
  ghost predicate Parted(s: State) {
    && (forall w :: w in s.registered ==> (Pending(s, w) <==> w !in s.resolved))
    && (forall w :: w in s.resolved ==> w in s.registered)
  }

  // An answer carries the id of the request it answers.
  ghost predicate OwnAnswers(s: State) {
    forall w :: w in s.resolved && s.resolved[w].Answered? ==> w in s.seqOf && s.resolved[w].frame == s.seqOf[w]
  }

  // Why the id of an unresolved request is not in the window.
  ghost predicate Explained(s: State, w: Waiter)
    requires w in s.seqOf
  {
    var id := s.seqOf[w];
    id in s.window || id in s.expired || id in s.early || s.reader == Completed(id) || At(s, w, Cancelled)
  }

  ghost predicate AllExplained(s: State) {
    forall w :: Pending(s, w) || At(s, w, Offered) ==> Explained(s, w)
  }

  // After a drain only those stand in the map who had passed the check before it.
  ghost predicate Swept(s: State) {
    s.drained ==>
      && !s.ready
      && (forall id :: id in s.responses ==> s.responses[id] in s.straddlers)
      && (forall w :: w in s.senders && (s.senders[w].Checked? || s.senders[w].Offered?) ==> w in s.straddlers)
  }

  // An id that has been in the window, is with the reader, or came early belongs to a waiter that has
  // been offered; an id that came early is neither in the window nor with the reader any more.
  ghost predicate Traced(s: State) {
    && (forall id :: id in s.window || id in s.early || WithReader(s, id) ==> id in s.seqOf.Values)
    && (forall w :: At(s, w, Checked) ==>
          var id := s.seqOf[w]; id !in s.window && id !in s.early && !WithReader(s, id))
    && (forall id :: id in s.early ==> id !in s.window && !WithReader(s, id))
    && (s.reader.Completed? ==> s.reader.frame !in s.window)
  }

  predicate WithReader(s: State, id: Seq) {
    !s.reader.Idle? && s.reader.frame == id
  }

  ghost predicate Sound(s: State) {
    Keyed(s) && Placed(s) && Parted(s) && OwnAnswers(s) && AllExplained(s) && Swept(s) && Traced(s)
  }

  // Each invariant is kept by each group of steps.

  // All that Keyed speaks of stays as it is or shrinks.
  lemma KeyedShrinks(s: State, r: State)
    requires Keyed(s) && r.seqOf == s.seqOf && r.registered == s.registered
    requires forall id :: id in r.responses ==> id in s.responses && r.responses[id] == s.responses[id]
    requires forall w :: w in r.senders ==> w in s.seqOf
    ensures Keyed(r)
  {
  }

  lemma StartKeyed(s: State, w: Waiter, id: Seq)
    requires Keyed(s) && CanSend(s, w, Start(id))
    ensures Keyed(Sent(s, w, Start(id)))
  {
  }

  lemma RegisterKeyed(s: State, w: Waiter)
    requires Keyed(s) && CanSend(s, w, Register)
    ensures Keyed(Sent(s, w, Register))
  {
  }

  // A move of a sender that neither starts nor registers it.
  lemma MoveKeyed(s: State, w: Waiter, m: SendMove)
    requires Keyed(s) && CanSend(s, w, m) && !m.Start? && !m.Register?
    ensures Keyed(Sent(s, w, m))
  {
    var r := Sent(s, w, m);
    assert forall v :: v in s.senders ==> v in s.seqOf;
    hide Keyed, Pending;
    KeyedShrinks(s, r);
  }

  lemma SendKeyed(s: State, w: Waiter, m: SendMove)
    requires Keyed(s) && CanSend(s, w, m)
    ensures Keyed(Sent(s, w, m))
  {
    hide Keyed, Sent, CanSend;
    if m.Start? {
      StartKeyed(s, w, m.id);
    } else if m.Register? {
      RegisterKeyed(s, w);
    } else {
      MoveKeyed(s, w, m);
    }
  }

  lemma ReadKeyed(s: State, m: ReadMove)
    requires Keyed(s) && CanRead(s, m)
    ensures Keyed(ReadOn(s, m))
  {
    assert forall v :: v in s.senders ==> v in s.seqOf;
    hide Keyed;
    KeyedShrinks(s, ReadOn(s, m));
  }

  lemma LinkKeyed(s: State, m: LinkMove)
    requires Keyed(s) && CanLink(s, m)
    ensures Keyed(Linked(s, m))
  {
    assert forall v :: v in s.senders ==> v in s.seqOf;
    hide Keyed, Closed, Unregistered;
    KeyedShrinks(s, Linked(s, m));
  }

  lemma KeyedKept(s: State, step: Step)
    requires Keyed(s) && Enabled(s, step)
    ensures Keyed(Next(s, step))
  {
    hide Keyed, Sent, ReadOn, Linked, CanSend, CanRead, CanLink;
    match step {
      case Send(w, m) => SendKeyed(s, w, m);
      case Read(m) => ReadKeyed(s, m);
      case Link(m) => LinkKeyed(s, m);
    }
  }

  lemma SendPlaced(s: State, w: Waiter, m: SendMove)
    requires Keyed(s) && Placed(s) && CanSend(s, w, m)
    ensures Placed(Sent(s, w, m))
  {
    assert m.Start? ==> w !in s.registered;
    hide Keyed, Pending;
  }

  lemma PlacedKept(s: State, step: Step)
    requires Keyed(s) && Placed(s) && Enabled(s, step)
    ensures Placed(Next(s, step))
  {
    hide Sent, ReadOn, Linked, Keyed;
    match step {
      case Send(w, m) =>
        SendPlaced(s, w, m);
        hide Placed;
      case Read(m) =>
      case Link(m) =>
    }
  }

  // The steps that resolve one channel.
  lemma ResolveOne(s: State, w: Waiter, o: Outcome, r: State)
    requires Keyed(s) && Parted(s) && OwnAnswers(s) && Pending(s, w)
    requires r.seqOf == s.seqOf && r.registered == s.registered
    requires r.responses == s.responses - {s.seqOf[w]} && r.resolved == s.resolved[w := o]
    requires o.Answered? ==> o.frame == s.seqOf[w]
    ensures Parted(r) && OwnAnswers(r) && w !in s.resolved
  {
  }

  lemma StartParted(s: State, w: Waiter, id: Seq)
    requires Keyed(s) && Parted(s) && OwnAnswers(s) && CanSend(s, w, Start(id))
    ensures Parted(Sent(s, w, Start(id))) && OwnAnswers(Sent(s, w, Start(id)))
  {
  }

  lemma RegisterParted(s: State, w: Waiter)
    requires Keyed(s) && Placed(s) && Parted(s) && OwnAnswers(s) && CanSend(s, w, Register)
    ensures Parted(Sent(s, w, Register)) && OwnAnswers(Sent(s, w, Register))
  {
  }

  lemma SameParted(s: State, r: State)
    requires Parted(s) && OwnAnswers(s)
    requires r.seqOf == s.seqOf && r.registered == s.registered && r.responses == s.responses && r.resolved == s.resolved
    ensures Parted(r) && OwnAnswers(r)
  {
  }

  lemma SendParted(s: State, w: Waiter, m: SendMove)
    requires Keyed(s) && Placed(s) && Parted(s) && OwnAnswers(s) && CanSend(s, w, m)
    ensures Parted(Sent(s, w, m)) && OwnAnswers(Sent(s, w, m))
  {
    assert m.Withdraw? && s.seqOf[w] in s.responses ==> Pending(s, s.responses[s.seqOf[w]]) && s.seqOf[s.responses[s.seqOf[w]]] == s.seqOf[w];
    hide Keyed, Placed, Parted, OwnAnswers, Pending;
    if m.Start? {
      StartParted(s, w, m.id);
    } else if m.Register? {
      RegisterParted(s, w);
    } else if m.Withdraw? && s.seqOf[w] in s.responses {
      ResolveOne(s, s.responses[s.seqOf[w]], Withdrawn, Sent(s, w, m));
    } else {
      SameParted(s, Sent(s, w, m));
    }
  }

  lemma ReadParted(s: State, m: ReadMove)
    requires Keyed(s) && Parted(s) && OwnAnswers(s) && CanRead(s, m)
    ensures Parted(ReadOn(s, m)) && OwnAnswers(ReadOn(s, m))
  {
    if m.AnswerFrame? && s.reader.frame in s.responses {
      ResolveOne(s, s.responses[s.reader.frame], Answered(s.reader.frame), ReadOn(s, m));
    }
  }

  lemma DrainParted(s: State)
    requires Keyed(s) && Parted(s) && OwnAnswers(s) && CanLink(s, Drain)
    ensures Parted(Linked(s, Drain)) && OwnAnswers(Linked(s, Drain))
  {
  }

  lemma PartedKept(s: State, step: Step)
    requires Keyed(s) && Placed(s) && Parted(s) && OwnAnswers(s) && Enabled(s, step)
    ensures Parted(Next(s, step)) && OwnAnswers(Next(s, step))
  {
    hide Keyed, Placed, Sent, ReadOn, Linked;
    match step {
      case Send(w, m) => SendParted(s, w, m);
      case Read(m) => ReadParted(s, m);
      case Link(m) =>
        if m.Drain? {
          DrainParted(s);
        } else {
          SameParted(s, Linked(s, m));
        }
    }
  }

  lemma SendExplained(s: State, v: Waiter, m: SendMove, w: Waiter)
    requires Keyed(s) && Placed(s) && AllExplained(s) && CanSend(s, v, m)
    requires var r := Sent(s, v, m); Pending(r, w) || At(r, w, Offered)
    ensures w in Sent(s, v, m).seqOf && Explained(Sent(s, v, m), w)
  {
    if m.Offer? && v == w {
      assert s.seqOf[w] in Sent(s, v, m).window;
    } else {
      SendFrom(s, v, m, w);
      assert Explained(s, w);
      SendStays(s, v, m, w);
    }
  }

  // Apart from the id just offered, what is pending or offered was so before.
  lemma SendFrom(s: State, v: Waiter, m: SendMove, w: Waiter)
    requires Keyed(s) && CanSend(s, v, m) && !(m.Offer? && v == w)
    requires var r := Sent(s, v, m); Pending(r, w) || At(r, w, Offered)
    ensures w in s.seqOf && (Pending(s, w) || At(s, w, Offered)) && !(m.Withdraw? && v == w)
  {
    if m.Start? {
      assert forall id :: id in s.responses ==> s.responses[id] != v;
    }
  }

  lemma SendStays(s: State, v: Waiter, m: SendMove, w: Waiter)
    requires Keyed(s) && CanSend(s, v, m) && w in s.seqOf && Explained(s, w) && !(m.Withdraw? && v == w)
    ensures w in Sent(s, v, m).seqOf && Explained(Sent(s, v, m), w)
  {
  }

  lemma OfferedHasNoChannel(s: State, w: Waiter)
    requires Keyed(s) && Placed(s) && At(s, w, Offered)
    ensures s.seqOf[w] !in s.responses
  {
  }

  lemma ReadExplained(s: State, m: ReadMove, w: Waiter)
    requires Keyed(s) && Placed(s) && AllExplained(s) && CanRead(s, m)
    requires var r := ReadOn(s, m); Pending(r, w) || At(r, w, Offered)
    ensures w in ReadOn(s, m).seqOf && Explained(ReadOn(s, m), w)
  {
    assert Pending(s, w) || At(s, w, Offered);
    if At(s, w, Offered) {
      OfferedHasNoChannel(s, w);
    }
    hide Keyed, Placed;
    assert Explained(s, w);
  }

  lemma LinkExplained(s: State, m: LinkMove, w: Waiter)
    requires AllExplained(s) && CanLink(s, m)
    requires var r := Linked(s, m); Pending(r, w) || At(r, w, Offered)
    ensures w in Linked(s, m).seqOf && Explained(Linked(s, m), w)
  {
    hide Unregistered, Closed;
    assert Pending(s, w) || At(s, w, Offered);
    assert Explained(s, w);
  }

  lemma ExplainedKept(s: State, step: Step)
    requires Keyed(s) && Placed(s) && AllExplained(s) && Enabled(s, step)
    ensures AllExplained(Next(s, step))
  {
    hide Keyed, Placed, AllExplained, Sent, ReadOn, Linked, Explained, Pending, At;
    var r := Next(s, step);
    forall w | Pending(r, w) || At(r, w, Offered) ensures w in r.seqOf && Explained(r, w) {
      match step {
        case Send(v, m) => SendExplained(s, v, m, w);
        case Read(m) => ReadExplained(s, m, w);
        case Link(m) => LinkExplained(s, m, w);
      }
    }
    AllExplainedIs(r);
  }

  lemma AllExplainedIs(s: State)
    requires forall w :: Pending(s, w) || At(s, w, Offered) ==> w in s.seqOf && Explained(s, w)
    ensures AllExplained(s)
  {
  }

  lemma SendSwept(s: State, w: Waiter, m: SendMove)
    requires Swept(s) && CanSend(s, w, m)
    ensures Swept(Sent(s, w, m))
  {
  }

  lemma SweptKept(s: State, step: Step)
    requires Swept(s) && Enabled(s, step)
    ensures Swept(Next(s, step))
  {
    match step {
      case Send(w, m) =>
        SendSwept(s, w, m);
        hide Sent, Swept;
      case Read(m) =>
      case Link(m) => hide Closed;
    }
  }

  lemma StartTraced(s: State, w: Waiter, id: Seq)
    requires Keyed(s) && Traced(s) && CanSend(s, w, Start(id))
    ensures Traced(Sent(s, w, Start(id)))
  {
    var r := Sent(s, w, Start(id));
    forall i | i in s.seqOf.Values ensures i in r.seqOf.Values {
      var v :| v in s.seqOf && s.seqOf[v] == i;
      assert v in r.seqOf && r.seqOf[v] == i;
    }
  }

  // Moves that neither start nor offer leave the ids where they are, or take one out of the window.
  lemma TracedShrinks(s: State, r: State)
    requires Traced(s) && r.seqOf == s.seqOf && r.early == s.early && r.reader == s.reader && r.window <= s.window
    requires forall w :: At(r, w, Checked) ==> At(s, w, Checked)
    ensures Traced(r)
  {
  }

  lemma TracedGrows(s: State, r: State, id: Seq)
    requires Traced(s) && r.seqOf == s.seqOf && r.early == s.early && r.reader == s.reader && r.window == s.window + {id}
    requires id in s.seqOf.Values && id !in s.early && !WithReader(s, id)
    requires forall w :: At(r, w, Checked) ==> At(s, w, Checked) && s.seqOf[w] != id
    ensures Traced(r)
  {
  }

  lemma OfferTraced(s: State, w: Waiter)
    requires Keyed(s) && Traced(s) && CanSend(s, w, Offer)
    ensures Traced(Sent(s, w, Offer))
  {
    var r, id := Sent(s, w, Offer), s.seqOf[w];
    assert forall v :: v in s.seqOf && s.seqOf[v] == id ==> v == w;
    hide Keyed;
    assert id !in s.early && !WithReader(s, id);
    hide Traced;
    assert id in s.seqOf.Values;
    assert r.senders[w] == Offered;
    TracedGrows(s, r, id);
  }

  lemma SendTraced(s: State, w: Waiter, m: SendMove)
    requires Keyed(s) && Traced(s) && CanSend(s, w, m)
    ensures Traced(Sent(s, w, m))
  {
    hide Keyed, Traced;
    if m.Start? {
      StartTraced(s, w, m.id);
    } else if m.Offer? {
      OfferTraced(s, w);
    } else {
      TracedShrinks(s, Sent(s, w, m));
    }
  }

  lemma ReadTraced(s: State, m: ReadMove)
    requires Traced(s) && CanRead(s, m)
    ensures Traced(ReadOn(s, m))
  {
    hide Settled;
  }

  lemma TracedKept(s: State, step: Step)
    requires Keyed(s) && Traced(s) && Enabled(s, step)
    ensures Traced(Next(s, step))
  {
    hide Keyed, Traced, Sent, ReadOn, CanSend, CanRead, Unregistered, Cleared;
    match step {
      case Send(w, m) => SendTraced(s, w, m);
      case Read(m) => ReadTraced(s, m);
      case Link(m) => TracedShrinks(s, Linked(s, m));
    }
  }

  // Whole runs

  lemma SoundKept(s: State, step: Step)
    requires Sound(s) && Enabled(s, step)
    ensures Sound(Next(s, step))
  {
    hide Keyed, Placed, Parted, OwnAnswers, AllExplained, Swept, Traced, Next, Enabled;
    KeyedKept(s, step);
    PlacedKept(s, step);
    PartedKept(s, step);
    ExplainedKept(s, step);
    SweptKept(s, step);
    TracedKept(s, step);
  }

  lemma {:induction false} RunSound(maxSize: nat, steps: seq<Step>)
    requires Run(Init(maxSize), steps).Some?
    ensures Sound(Run(Init(maxSize), steps).value)
  {
    if steps != [] {
      var before := steps[..|steps| - 1];
      RunSound(maxSize, before);
      SoundKept(Run(Init(maxSize), before).value, steps[|steps| - 1]);
    }
  }

  // No more requests are in the window than it holds.
  lemma {:induction false} WindowBounded(maxSize: nat, steps: seq<Step>)
    requires Run(Init(maxSize), steps).Some?
    ensures var s := Run(Init(maxSize), steps).value; s.maxSize == maxSize && |s.window| <= maxSize
  {
    hide Enabled, Next;
    if steps != [] {
      var before := steps[..|steps| - 1];
      WindowBounded(maxSize, before);
      StepBounded(Run(Init(maxSize), before).value, steps[|steps| - 1]);
    }
  }

  lemma StepBounded(s: State, step: Step)
    requires Enabled(s, step) && |s.window| <= s.maxSize
    ensures Next(s, step).maxSize == s.maxSize && |Next(s, step).window| <= s.maxSize
  {
    hide Sent, ReadOn, Linked, CanSend, CanRead, CanLink;
    match step {
      case Send(w, m) => SendWindow(s, w, m);
      case Read(m) =>
        ReadWindow(s, m);
        SubsetCard(ReadOn(s, m).window, s.window);
      case Link(m) =>
        LinkWindow(s, m);
        SubsetCard(Linked(s, m).window, s.window);
    }
  }

  lemma SendWindow(s: State, w: Waiter, m: SendMove)
    requires CanSend(s, w, m) && |s.window| <= s.maxSize
    ensures Sent(s, w, m).maxSize == s.maxSize && |Sent(s, w, m).window| <= s.maxSize
  {
    hide Settled, Entered;
  }

  lemma ReadWindow(s: State, m: ReadMove)
    requires CanRead(s, m)
    ensures ReadOn(s, m).maxSize == s.maxSize && ReadOn(s, m).window <= s.window
  {
    hide Settled;
  }

  lemma LinkWindow(s: State, m: LinkMove)
    requires CanLink(s, m)
    ensures Linked(s, m).maxSize == s.maxSize && Linked(s, m).window <= s.window
  {
    hide Unregistered, Cleared;
  }

  // In every interleaving a registered waiter is either still pending or has received exactly one
  // outcome, and an answer carries the waiter's own sequence id.
  lemma WaitersParted(maxSize: nat, steps: seq<Step>, w: Waiter)
    requires Run(Init(maxSize), steps).Some? && w in Run(Init(maxSize), steps).value.registered
    ensures var s := Run(Init(maxSize), steps).value;
            && (Pending(s, w) <==> w !in s.resolved)
            && w in s.seqOf
            && (w in s.resolved && s.resolved[w].Answered? ==> s.resolved[w].frame == s.seqOf[w])
  {
    hide Run, AllExplained, Swept, Traced, Placed;
    RunSound(maxSize, steps);
  }

  lemma SendKeepsOutcome(s: State, v: Waiter, m: SendMove, w: Waiter)
    requires Keyed(s) && Parted(s) && OwnAnswers(s) && CanSend(s, v, m) && w in s.resolved
    ensures w in Sent(s, v, m).resolved && Sent(s, v, m).resolved[w] == s.resolved[w]
  {
    if m.Withdraw? && s.seqOf[v] in s.responses {
      ResolveOne(s, s.responses[s.seqOf[v]], Withdrawn, Sent(s, v, m));
    }
    hide Keyed, Parted, OwnAnswers;
  }

  lemma ReadKeepsOutcome(s: State, m: ReadMove, w: Waiter)
    requires Keyed(s) && Parted(s) && OwnAnswers(s) && CanRead(s, m) && w in s.resolved
    ensures w in ReadOn(s, m).resolved && ReadOn(s, m).resolved[w] == s.resolved[w]
  {
    if m.AnswerFrame? && s.reader.frame in s.responses {
      ResolveOne(s, s.responses[s.reader.frame], Answered(s.reader.frame), ReadOn(s, m));
    }
    hide Keyed, Parted, OwnAnswers;
  }

  lemma LinkKeepsOutcome(s: State, m: LinkMove, w: Waiter)
    requires Keyed(s) && Parted(s) && CanLink(s, m) && w in s.resolved
    ensures w in Linked(s, m).resolved && Linked(s, m).resolved[w] == s.resolved[w]
  {
    assert forall id :: id in s.responses ==> Pending(s, s.responses[id]) && s.responses[id] != w;
    hide Keyed, Parted;
  }

  lemma OutcomeKept(s: State, step: Step, w: Waiter)
    requires Keyed(s) && Parted(s) && OwnAnswers(s) && Enabled(s, step) && w in s.resolved
    ensures w in Next(s, step).resolved && Next(s, step).resolved[w] == s.resolved[w]
  {
    hide Keyed, Parted, OwnAnswers, Sent, ReadOn, Linked, CanSend, CanRead, CanLink;
    match step {
      case Send(v, m) => SendKeepsOutcome(s, v, m, w);
      case Read(m) => ReadKeepsOutcome(s, m, w);
      case Link(m) => LinkKeepsOutcome(s, m, w);
    }
  }

  // Nobody is resolved twice: what a waiter has received never changes, however the run goes on.
  lemma {:induction false} ResolvedOnce(maxSize: nat, steps: seq<Step>, more: seq<Step>, w: Waiter)
    requires Run(Init(maxSize), steps).Some? && w in Run(Init(maxSize), steps).value.resolved
    requires Run(Init(maxSize), steps + more).Some?
    ensures var s, r := Run(Init(maxSize), steps).value, Run(Init(maxSize), steps + more).value;
            w in r.resolved && r.resolved[w] == s.resolved[w]
  {
    if more == [] {
      assert steps + more == steps;
    } else {
      var all, before := steps + more, steps + more[..|more| - 1];
      assert all[..|all| - 1] == before && all[|all| - 1] == more[|more| - 1];
      ResolvedOnce(maxSize, steps, more[..|more| - 1], w);
      RunSound(maxSize, before);
      OutcomeKept(Run(Init(maxSize), before).value, all[|all| - 1], w);
    }
  }

  lemma RunOn(s0: State, steps: seq<Step>, s: State, step: Step)
    requires Run(s0, steps) == Some(s) && Enabled(s, step)
    ensures Run(s0, steps + [step]) == Some(Next(s, step))
  {
    assert (steps + [step])[..|steps|] == steps;
  }

  // What becomes of a request, step by step and in numbers

  // In every run a waiter whose frame the reader has completed gets the answer with the next step of
  // the reader, and nobody else is touched.
  lemma AnswerReachesWaiter(maxSize: nat, steps: seq<Step>, w: Waiter)
    requires Run(Init(maxSize), steps).Some?
    requires var s := Run(Init(maxSize), steps).value; Pending(s, w) && s.reader == Completed(s.seqOf[w])
    ensures var s, r := Run(Init(maxSize), steps).value, Run(Init(maxSize), steps + [Read(AnswerFrame)]);
            && r.Some? && r.value.reader == Idle && r.value.early == s.early && r.value.window == s.window
            && r.value.resolved == s.resolved[w := Answered(s.seqOf[w])] && w !in s.resolved && !Pending(r.value, w)
            && forall v :: v != w ==> (Pending(r.value, v) <==> Pending(s, v))
  {
    var s := Run(Init(maxSize), steps).value;
    RunSound(maxSize, steps);
    PendingIsUnresolved(s, w);
    AnswerSettles(s, w);
    hide Run, Sound, Next, Enabled, Pending;
    RunOn(Init(maxSize), steps, s, Read(AnswerFrame));
  }

  lemma AnswerSettles(s: State, w: Waiter)
    requires Sound(s) && Pending(s, w) && s.reader == Completed(s.seqOf[w])
    ensures var r := Next(s, Read(AnswerFrame));
            && Enabled(s, Read(AnswerFrame)) && r.reader == Idle && r.early == s.early && r.window == s.window
            && r.resolved == s.resolved[w := Answered(s.seqOf[w])] && !Pending(r, w)
            && forall v :: v != w ==> (Pending(r, v) <==> Pending(s, v))
  {
    hide Placed, Parted, OwnAnswers, AllExplained, Swept, Traced;
  }

  // A frame is passed over only when no channel stands under its id.
  lemma EarlyMeansNoChannel(maxSize: nat, steps: seq<Step>, step: Step, id: Seq)
    requires var s := Run(Init(maxSize), steps); s.Some? && Enabled(s.value, step)
    requires var s := Run(Init(maxSize), steps).value; id !in s.early && id in Next(s, step).early
    ensures var s := Run(Init(maxSize), steps).value;
            && step == Read(AnswerFrame) && s.reader == Completed(id) && id !in s.responses
            && (forall w :: w in s.seqOf && s.seqOf[w] == id ==> !Pending(s, w))
            && Next(s, step).resolved == s.resolved && Next(s, step).responses == s.responses
  {
    hide Run, Sent, Linked;
  }

  // Steps in a row

  lemma RunJoin(s: State, first: seq<Step>, m: State, steps: seq<Step>)
    requires Run(s, first) == Some(m)
    ensures Run(s, first + steps) == Run(m, steps)
    decreases |steps|
  {
    if steps == [] {
      assert first + steps == first;
    } else {
      var before := steps[..|steps| - 1];
      assert (first + steps)[..|first + steps| - 1] == first + before;
      RunJoin(s, first, m, before);
    }
  }

  lemma RunThree(s: State, s1: State, s2: State, s3: State, a: Step, b: Step, c: Step)
    requires Enabled(s, a) && Next(s, a) == s1 && Enabled(s1, b) && Next(s1, b) == s2 && Enabled(s2, c) && Next(s2, c) == s3
    ensures Run(s, [a, b, c]) == Some(s3)
  {
    assert Run(s, []) == Some(s);
    hide Run, Next, Enabled;
    RunOn(s, [], s, a);
    assert [] + [a] == [a] && [a] + [b] == [a, b] && [a, b] + [c] == [a, b, c];
    RunOn(s, [a], s1, b);
    RunOn(s, [a, b], s2, c);
  }

  function Starting(w: Waiter, id: Seq): (steps: seq<Step>) {
    [Send(w, Start(id)), Send(w, Offer), Send(w, Register)]
  }

  function Answering(id: Seq): (steps: seq<Step>) {
    [Read(ReadFrame(id)), Read(CompleteFrame), Read(AnswerFrame)]
  }

  function Undoing(w: Waiter): (steps: seq<Step>) {
    [Send(w, WriteFails), Send(w, CancelWindow), Send(w, Withdraw)]
  }

  // A caller with an id that has not been used, on a ready connection.
  ghost predicate CanCall(s: State, w: Waiter, id: Seq) {
    Sound(s) && s.ready && w !in s.seqOf && id !in s.seqOf.Values
  }

  // A new call is unknown to everybody.
  lemma CallIsNew(s: State, w: Waiter, id: Seq)
    requires CanCall(s, w, id)
    ensures w !in s.senders && w !in s.registered && w !in s.resolved && id !in s.responses && id !in s.window && id !in s.early
  {
    hide Placed, OwnAnswers, AllExplained, Swept;
  }

  // A call whose channel is registered.
  function Registered(s: State, w: Waiter, id: Seq): (r: State) {
    s.(window := s.window + {id}, responses := s.responses[id := w], senders := s.senders[w := Writing],
       seqOf := s.seqOf[w := id], registered := s.registered + {w})
  }

  lemma StartsCall(s: State, w: Waiter, id: Seq)
    requires CanCall(s, w, id) && |s.window| < s.maxSize
    ensures Run(s, Starting(w, id)) == Some(Registered(s, w, id))
  {
    hide Sound, Run, Next, Enabled, Registered;
    CallIsNew(s, w, id);
    var s1 := s.(senders := s.senders[w := Checked], seqOf := s.seqOf[w := id]);
    var s2 := s1.(window := s.window + {id}, senders := s.senders[w := Offered]);
    StartSteps(s, w, id, s1, s2);
    RunThree(s, s1, s2, Registered(s, w, id), Send(w, Start(id)), Send(w, Offer), Send(w, Register));
  }

  lemma StartSteps(s: State, w: Waiter, id: Seq, s1: State, s2: State)
    requires s.ready && w !in s.seqOf && w !in s.senders && id !in s.seqOf.Values && id !in s.window && |s.window| < s.maxSize
    requires s1 == s.(senders := s.senders[w := Checked], seqOf := s.seqOf[w := id])
    requires s2 == s1.(window := s.window + {id}, senders := s.senders[w := Offered])
    ensures Enabled(s, Send(w, Start(id))) && Next(s, Send(w, Start(id))) == s1
    ensures Enabled(s1, Send(w, Offer)) && Next(s1, Send(w, Offer)) == s2
    ensures Enabled(s2, Send(w, Register)) && Next(s2, Send(w, Register)) == Registered(s, w, id)
  {
    assert s1.senders[w := Offered] == s2.senders;
    assert s2.senders[w := Writing] == s.senders[w := Writing];
  }

  lemma WriteOkStep(s: State, w: Waiter, id: Seq)
    requires w !in s.senders
    ensures var s3 := Registered(s, w, id);
            Enabled(s3, Send(w, WriteOk)) && Next(s3, Send(w, WriteOk)) == s3.(senders := s.senders)
  {
    assert s.senders[w := Writing] - {w} == s.senders;
  }

  // A request that is answered leaves nothing behind: window, channels and senders are as they were,
  // and the waiter has the frame with its own id.
  lemma AnsweredRequest(s: State, w: Waiter, id: Seq)
    requires CanCall(s, w, id) && |s.window| < s.maxSize && s.reader == Idle
    ensures Run(s, Starting(w, id) + ([Send(w, WriteOk)] + Answering(id))) ==
            Some(s.(seqOf := s.seqOf[w := id], registered := s.registered + {w}, resolved := s.resolved[w := Answered(id)]))
  {
    hide Sound, Run, Next, Enabled, Registered, Starting, Answering;
    StartsCall(s, w, id);
    CallIsNew(s, w, id);
    var s3 := Registered(s, w, id);
    var s4 := s3.(senders := s.senders);
    WriteOkStep(s, w, id);
    FrameAnswers(s4, s, w, id);
    RunJoin(s, Starting(w, id), s3, [Send(w, WriteOk)] + Answering(id));
    assert Run(s3, []) == Some(s3) by { EmptyRun(s3); }
    RunOn(s3, [], s3, Send(w, WriteOk));
    assert [] + [Send(w, WriteOk)] == [Send(w, WriteOk)];
    RunJoin(s3, [Send(w, WriteOk)], s4, Answering(id));
  }

  lemma EmptyRun(s: State)
    ensures Run(s, []) == Some(s)
  {
  }

  lemma FrameAnswers(s4: State, s: State, w: Waiter, id: Seq)
    requires s4 == Registered(s, w, id).(senders := s.senders) && s.reader == Idle && id !in s.responses && id !in s.window
    ensures Run(s4, Answering(id)) ==
            Some(s.(seqOf := s.seqOf[w := id], registered := s.registered + {w}, resolved := s.resolved[w := Answered(id)]))
  {
    var s5 := s4.(reader := Matched(id));
    var s6 := s4.(reader := Completed(id), window := s.window);
    var s7 := s.(seqOf := s.seqOf[w := id], registered := s.registered + {w}, resolved := s.resolved[w := Answered(id)]);
    assert s.window + {id} - {id} == s.window;
    assert s.responses[id := w] - {id} == s.responses;
    assert Enabled(s4, Read(ReadFrame(id))) && Next(s4, Read(ReadFrame(id))) == s5;
    assert Enabled(s5, Read(CompleteFrame)) && Next(s5, Read(CompleteFrame)) == s6;
    assert Enabled(s6, Read(AnswerFrame)) && Next(s6, Read(AnswerFrame)) == s7;
    hide Run, Next, Enabled, Registered;
    RunThree(s4, s5, s6, s7, Read(ReadFrame(id)), Read(CompleteFrame), Read(AnswerFrame));
  }

  // A failed write takes everything back.
  lemma FailedWrite(s: State, w: Waiter, id: Seq)
    requires CanCall(s, w, id) && |s.window| < s.maxSize
    ensures Run(s, Starting(w, id) + Undoing(w)) ==
            Some(s.(seqOf := s.seqOf[w := id], registered := s.registered + {w}, resolved := s.resolved[w := Withdrawn]))
  {
    StartsCall(s, w, id);
    CallIsNew(s, w, id);
    hide Sound;
    var s3 := Registered(s, w, id);
    var s4 := s3.(senders := s3.senders[w := WriteFailed]);
    var s5 := s3.(window := s.window, senders := s3.senders[w := Cancelled]);
    var s6 := s.(seqOf := s.seqOf[w := id], registered := s.registered + {w}, resolved := s.resolved[w := Withdrawn]);
    UndoSteps(s, w, id, s3, s4, s5, s6);
    hide Run, Next, Enabled, Registered, Starting;
    RunThree(s3, s4, s5, s6, Send(w, WriteFails), Send(w, CancelWindow), Send(w, Withdraw));
    RunJoin(s, Starting(w, id), s3, Undoing(w));
  }

  lemma UndoSteps(s: State, w: Waiter, id: Seq, s3: State, s4: State, s5: State, s6: State)
    requires w !in s.senders && id !in s.responses && id !in s.window && s3 == Registered(s, w, id)
    requires s4 == s3.(senders := s3.senders[w := WriteFailed])
    requires s5 == s3.(window := s.window, senders := s3.senders[w := Cancelled])
    requires s6 == s.(seqOf := s.seqOf[w := id], registered := s.registered + {w}, resolved := s.resolved[w := Withdrawn])
    ensures Enabled(s3, Send(w, WriteFails)) && Next(s3, Send(w, WriteFails)) == s4
    ensures Enabled(s4, Send(w, CancelWindow)) && Next(s4, Send(w, CancelWindow)) == s5
    ensures Enabled(s5, Send(w, Withdraw)) && Next(s5, Send(w, Withdraw)) == s6
  {
    assert s.window + {id} - {id} == s.window;
    assert s4.senders[w := Cancelled] == s5.senders;
    WithdrawStep(s, w, id, s5, s6);
    hide Settled;
  }

  lemma WithdrawStep(s: State, w: Waiter, id: Seq, s5: State, s6: State)
    requires w !in s.senders && id !in s.responses
    requires s5 == Registered(s, w, id).(window := s.window, senders := s.senders[w := Writing][w := Cancelled])
    requires s6 == s.(seqOf := s.seqOf[w := id], registered := s.registered + {w}, resolved := s.resolved[w := Withdrawn])
    ensures Enabled(s5, Send(w, Withdraw)) && Next(s5, Send(w, Withdraw)) == s6
  {
    assert s.responses[id := w] - {id} == s.responses;
    assert s5.senders - {w} == s.senders;
  }

  // A refused offer leaves nothing either.
  lemma RefusedOffer(s: State, w: Waiter, id: Seq)
    requires CanCall(s, w, id)
    ensures Run(s, [Send(w, Start(id)), Send(w, OfferFails)]) == Some(s.(seqOf := s.seqOf[w := id]))
  {
    CallIsNew(s, w, id);
    hide Sound;
    var s1 := s.(senders := s.senders[w := Checked], seqOf := s.seqOf[w := id]);
    assert s.senders[w := Checked] - {w} == s.senders;
    assert Enabled(s, Send(w, Start(id))) && Next(s, Send(w, Start(id))) == s1;
    assert Enabled(s1, Send(w, OfferFails)) && Next(s1, Send(w, OfferFails)) == s.(seqOf := s.seqOf[w := id]);
    EmptyRun(s);
    hide Run, Next, Enabled;
    RunOn(s, [], s, Send(w, Start(id)));
    assert [] + [Send(w, Start(id))] == [Send(w, Start(id))];
    RunOn(s, [Send(w, Start(id))], s1, Send(w, OfferFails));
    assert [Send(w, Start(id))] + [Send(w, OfferFails)] == [Send(w, Start(id)), Send(w, OfferFails)];
  }

  // The drain closes exactly the channels that are pending, and touches neither window nor senders.
  lemma DrainClosesPending(s: State)
    requires Sound(s) && s.closing
    ensures var r := Next(s, Link(Drain));
            && (forall w :: Pending(s, w) ==> w in r.resolved && r.resolved[w] == ClosedByDisconnect)
            && (forall w :: !Pending(r, w)) && !r.closing
            && (forall w :: !Pending(s, w) ==> (w in r.resolved <==> w in s.resolved) && (w in s.resolved ==> r.resolved[w] == s.resolved[w]))
            && r.window == s.window && r.senders == s.senders && r.seqOf == s.seqOf && r.reader == s.reader
  {
    hide Placed, OwnAnswers, AllExplained, Swept, Traced, Unregistered;
    var r := Next(s, Link(Drain));
    forall w ensures w in s.responses.Values <==> Pending(s, w) {
      if w in s.responses.Values {
        var id :| id in s.responses && s.responses[id] == w;
      }
    }
  }

  // An unresolved waiter's id is in the window, or it expired, or the reader or the waiter's own sender
  // has it in hand: exactly unless a frame with that id came before the channel was registered.
  lemma UnresolvedExplained(maxSize: nat, steps: seq<Step>, w: Waiter)
    requires Run(Init(maxSize), steps).Some? && Pending(Run(Init(maxSize), steps).value, w)
    ensures var s := Run(Init(maxSize), steps).value;
            var id := s.seqOf[w];
            (id in s.window || id in s.expired || s.reader == Completed(id) || At(s, w, Cancelled))
            <==> (id !in s.early || id in s.expired || At(s, w, Cancelled))
  {
    hide Run, Keyed, Placed, Parted, OwnAnswers, Swept;
    RunSound(maxSize, steps);
  }

  // The waiter's channel is registered, and the frame with its id has gone by.
  predicate Forgotten(s: State, w: Waiter) {
    Pending(s, w) && s.seqOf[w] in s.early
  }

  lemma SendForgets(s: State, v: Waiter, m: SendMove, w: Waiter)
    requires Keyed(s) && Placed(s) && Forgotten(s, w) && CanSend(s, v, m) && !(v == w && m.Withdraw?)
    ensures Forgotten(Sent(s, v, m), w)
  {
    var id := s.seqOf[w];
    assert v in s.seqOf && s.seqOf[v] == id ==> v == w;
    assert w in s.registered && (m.Register? ==> v != w);
    hide Keyed, Placed;
  }

  lemma ReadForgets(s: State, m: ReadMove, w: Waiter)
    requires Traced(s) && Forgotten(s, w) && CanRead(s, m)
    ensures Forgotten(ReadOn(s, m), w)
  {
    assert !WithReader(s, s.seqOf[w]);
    hide Traced;
  }

  lemma StaysForgotten(s: State, step: Step, w: Waiter)
    requires Sound(s) && Forgotten(s, w) && Enabled(s, step) && step != Link(Drain) && step != Send(w, Withdraw)
    ensures Forgotten(Next(s, step), w)
  {
    hide Keyed, Placed, Parted, OwnAnswers, AllExplained, Swept, Traced, Sent, ReadOn, CanSend, CanRead;
    match step {
      case Send(v, m) => SendForgets(s, v, m, w);
      case Read(m) => ReadForgets(s, m, w);
      case Link(m) =>
    }
  }

  // However the run goes on, nothing but a disconnection, or its own sender after a failed write, will
  // ever resolve such a waiter.
  lemma {:induction false} ForgottenForGood(maxSize: nat, steps: seq<Step>, more: seq<Step>, w: Waiter)
    requires Run(Init(maxSize), steps).Some? && Forgotten(Run(Init(maxSize), steps).value, w)
    requires Run(Init(maxSize), steps + more).Some?
    requires Link(Drain) !in more && Send(w, Withdraw) !in more
    ensures var s := Run(Init(maxSize), steps + more).value; Forgotten(s, w) && w !in s.resolved
  {
    hide Sound, Enabled, Next;
    if more == [] {
      assert steps + more == steps;
      RunSound(maxSize, steps);
    } else {
      var all, before := steps + more, steps + more[..|more| - 1];
      assert all[..|all| - 1] == before && all[|all| - 1] == more[|more| - 1] && more[|more| - 1] in more;
      ForgottenForGood(maxSize, steps, more[..|more| - 1], w);
      RunSound(maxSize, before);
      StaysForgotten(Run(Init(maxSize), before).value, all[|all| - 1], w);
      RunSound(maxSize, all);
    }
    PendingIsUnresolved(Run(Init(maxSize), steps + more).value, w);
  }

  lemma PendingIsUnresolved(s: State, w: Waiter)
    requires Sound(s) && Pending(s, w)
    ensures w !in s.resolved
  {
    hide AllExplained, Swept, Traced, Placed, OwnAnswers;
  }

  // After a disconnection has drained the map, nobody is left waiting except senders that were
  // between the check of the connection and the registration of their channel.
  lemma DisconnectLeavesStraddlers(maxSize: nat, steps: seq<Step>, w: Waiter)
    requires Run(Init(maxSize), steps).Some?
    requires var s := Run(Init(maxSize), steps).value; s.drained && Pending(s, w)
    ensures w in Run(Init(maxSize), steps).value.straddlers
  {
    hide Traced, AllExplained;
    RunSound(maxSize, steps);
  }

  // Nobody is pending, now or in any continuation, as long as the connection is not marked ready again.
  ghost predicate NobodyEverWaits(s: State) {
    forall more: seq<Step>, w: Waiter :: Run(s, more).Some? && Link(MarkConnected) !in more ==> !Pending(Run(s, more).value, w)
  }

  // All requests in flight fail at a disconnection, for good, exactly when no sender is between the
  // check and the registration.
  lemma DrainEndsAllIff(s: State)
    requires Sound(s) && s.closing && !s.ready && s.maxSize > 0
    ensures NobodyEverWaits(Next(s, Link(Drain))) <==> Unregistered(s) == {}
  {
    hide Sound;
    var d := Next(s, Link(Drain));
    if Unregistered(s) == {} {
      forall more: seq<Step>, w: Waiter | Run(d, more).Some? && Link(MarkConnected) !in more ensures !Pending(Run(d, more).value, w) {
        StaysEmpty(d, more);
      }
    } else {
      var w :| w in Unregistered(s);
      SenderHasId(s, w);
      var more := StraddlerRegisters(d, w);
      assert Run(d, more).Some? && Pending(Run(d, more).value, w);
    }
  }

  lemma SenderHasId(s: State, w: Waiter)
    requires Sound(s) && w in s.senders
    ensures w in s.seqOf
  {
    hide Placed, Parted, OwnAnswers, AllExplained, Swept, Traced;
  }

  predicate Empty(s: State) {
    !s.ready && s.responses == map[] && Unregistered(s) == {}
  }

  lemma EmptyKept(s: State, step: Step)
    requires Empty(s) && Enabled(s, step) && step != Link(MarkConnected)
    ensures Empty(Next(s, step))
  {
    assert forall w :: w in s.senders ==> w !in Unregistered(s);
    match step {
      case Send(w, m) =>
        assert w in s.senders ==> !s.senders[w].Checked? && !s.senders[w].Offered?;
      case Read(m) =>
      case Link(m) =>
    }
  }

  lemma {:induction false} StaysEmpty(s: State, more: seq<Step>)
    requires Empty(s) && Run(s, more).Some? && Link(MarkConnected) !in more
    ensures Empty(Run(s, more).value)
  {
    hide Empty, Enabled, Next;
    if more != [] {
      StaysEmpty(s, more[..|more| - 1]);
      EmptyKept(Run(s, more[..|more| - 1]).value, more[|more| - 1]);
    }
  }

  // A sender before its registration gets there, if need be after the window has been expired.
  lemma StraddlerRegisters(d: State, w: Waiter) returns (more: seq<Step>)
    requires w in Unregistered(d) && w in d.seqOf && d.maxSize > 0
    ensures Link(MarkConnected) !in more && Run(d, more).Some? && Pending(Run(d, more).value, w)
  {
    assert Run(d, []) == Some(d);
    hide Run, Pending;
    if At(d, w, Offered) {
      RegisterSettles(d, [], d, w);
      more := [] + [Send(w, Register)];
    } else {
      var swept := Linked(d, Expire(d.window));
      RunOn(d, [], d, Link(Expire(d.window)));
      more := [] + [Link(Expire(d.window))];
      hide Linked, Sent;
      RoomAfterSweep(d, w, swept);
      RunOn(d, more, swept, Send(w, Offer));
      more := more + [Send(w, Offer)];
      RegisterSettles(d, more, Sent(swept, w, Offer), w);
      more := more + [Send(w, Register)];
    }
  }

  lemma RoomAfterSweep(d: State, w: Waiter, swept: State)
    requires swept == Linked(d, Expire(d.window)) && At(d, w, Checked) && d.maxSize > 0
    ensures CanSend(swept, w, Offer) && At(Sent(swept, w, Offer), w, Offered)
  {
  }

  lemma RegisterSettles(s0: State, steps: seq<Step>, s: State, w: Waiter)
    requires Run(s0, steps) == Some(s) && At(s, w, Offered)
    ensures var r := Run(s0, steps + [Send(w, Register)]); r.Some? && Pending(r.value, w)
  {
    hide Run;
    RunOn(s0, steps, s, Send(w, Register));
  }

  // Two runs in which a waiter is forgotten

  // Waiter 0 has checked the connection and put id 5 into the window.
  function Offering(): (s: State) {
    Init(1).(ready := true, window := {5}, senders := map[0 := Offered], seqOf := map[0 := 5])
  }

  lemma ReachOffering() returns (steps: seq<Step>)
    ensures Run(Init(1), steps) == Some(Offering())
  {
    var s0 := Init(1);
    var s1 := s0.(ready := true);
    var s2 := s1.(senders := map[0 := Checked], seqOf := map[0 := 5]);
    assert Next(s0, Link(MarkConnected)) == s1;
    assert Next(s1, Send(0, Start(5))) == s2;
    assert Next(s2, Send(0, Offer)) == Offering();
    assert Run(s0, []) == Some(s0);
    hide Run, Next;
    RunOn(s0, [], s0, Link(MarkConnected));
    steps := [] + [Link(MarkConnected)];
    RunOn(s0, steps, s1, Send(0, Start(5)));
    steps := steps + [Send(0, Start(5))];
    RunOn(s0, steps, s2, Send(0, Offer));
    steps := steps + [Send(0, Offer)];
  }

  // The frame with id 5 has gone by and waiter 0 has registered.
  function Missed(): (s: State) {
    Offering().(window := {}, early := {5}, responses := map[5 := 0], senders := map[], registered := {0})
  }

  // A frame with the id of a request can be handled before the request's channel is registered: then
  // the send succeeds and the waiter is forgotten, although its id has left the window without
  // expiring and is in nobody's hand.
  lemma EarlyFrameStrandsWaiter()
    ensures exists steps, w ::
              && Run(Init(1), steps).Some?
              && var s := Run(Init(1), steps).value;
                 Forgotten(s, w) && s.seqOf[w] !in s.window && s.seqOf[w] !in s.expired && s.reader == Idle && s.senders == map[]
  {
    var steps := ReachMissed();
    var s := Missed();
    hide Run;
    assert Run(Init(1), steps).Some? && Forgotten(Run(Init(1), steps).value, 0);
  }

  lemma ReachMissed() returns (steps: seq<Step>)
    ensures Run(Init(1), steps) == Some(Missed())
  {
    var before := ReachOffering();
    var s0, s3 := Init(1), Offering();
    var s4 := s3.(reader := Matched(5));
    var s5 := s3.(reader := Completed(5), window := {});
    var s6 := s3.(window := {}, early := {5});
    var s7 := s6.(responses := map[5 := 0], senders := map[0 := Writing], registered := {0});
    FrameGoesBy(s3, s4, s5, s6);
    WaiterRegisters(s6, s7);
    hide Run, Enabled, Next, Offering, Missed;
    RunOn(s0, before, s3, Read(ReadFrame(5)));
    steps := before + [Read(ReadFrame(5))];
    RunOn(s0, steps, s4, Read(CompleteFrame));
    steps := steps + [Read(CompleteFrame)];
    RunOn(s0, steps, s5, Read(AnswerFrame));
    steps := steps + [Read(AnswerFrame)];
    RunOn(s0, steps, s6, Send(0, Register));
    steps := steps + [Send(0, Register)];
    RunOn(s0, steps, s7, Send(0, WriteOk));
    steps := steps + [Send(0, WriteOk)];
  }

  lemma FrameGoesBy(s3: State, s4: State, s5: State, s6: State)
    requires s3 == Offering() && s4 == s3.(reader := Matched(5)) && s5 == s3.(reader := Completed(5), window := {})
    requires s6 == s3.(window := {}, early := {5})
    ensures Enabled(s3, Read(ReadFrame(5))) && Next(s3, Read(ReadFrame(5))) == s4
    ensures Enabled(s4, Read(CompleteFrame)) && Next(s4, Read(CompleteFrame)) == s5
    ensures Enabled(s5, Read(AnswerFrame)) && Next(s5, Read(AnswerFrame)) == s6
  {
  }

  lemma WaiterRegisters(s6: State, s7: State)
    requires s6 == Offering().(window := {}, early := {5})
    requires s7 == s6.(responses := map[5 := 0], senders := map[0 := Writing], registered := {0})
    ensures Enabled(s6, Send(0, Register)) && Next(s6, Send(0, Register)) == s7
    ensures Enabled(s7, Send(0, WriteOk)) && Next(s7, Send(0, WriteOk)) == Missed()
  {
  }

  // A send that was under way when the connection went down registers after the drain and is left
  // pending on a dead connection.
  lemma DisconnectStrandsSender()
    ensures exists steps, w ::
              && Run(Init(1), steps).Some?
              && var s := Run(Init(1), steps).value;
                 Pending(s, w) && s.drained && !s.ready && s.senders == map[]
  {
    var steps := ReachOffering();
    var s0, s3 := Init(1), Offering();
    var s4 := s3.(ready := false, closing := true);
    var s5 := s3.(ready := false, drained := true, straddlers := {0});
    var s6 := s5.(responses := map[5 := 0], senders := map[0 := Writing], registered := {0});
    DisconnectSteps(s3, s4, s5, s6);
    hide Run, Enabled, Next, Offering;
    RunOn(s0, steps, s3, Link(MarkDisconnected));
    steps := steps + [Link(MarkDisconnected)];
    RunOn(s0, steps, s4, Link(Drain));
    steps := steps + [Link(Drain)];
    RunOn(s0, steps, s5, Send(0, Register));
    steps := steps + [Send(0, Register)];
    RunOn(s0, steps, s6, Send(0, WriteOk));
    steps := steps + [Send(0, WriteOk)];
    var s7 := s6.(senders := map[]);
    assert Run(s0, steps) == Some(s7) && Pending(s7, 0);
  }

  lemma DisconnectSteps(s3: State, s4: State, s5: State, s6: State)
    requires s3 == Offering() && s4 == s3.(ready := false, closing := true)
    requires s5 == s3.(ready := false, drained := true, straddlers := {0})
    requires s6 == s5.(responses := map[5 := 0], senders := map[0 := Writing], registered := {0})
    ensures Enabled(s3, Link(MarkDisconnected)) && Next(s3, Link(MarkDisconnected)) == s4
    ensures Enabled(s4, Link(Drain)) && Next(s4, Link(Drain)) == s5
    ensures Enabled(s5, Send(0, Register)) && Next(s5, Send(0, Register)) == s6
    ensures Enabled(s6, Send(0, WriteOk)) && Next(s6, Send(0, WriteOk)) == s6.(senders := map[])
    ensures s6.seqOf == map[0 := 5]
  {
  }
}
