// The window under concurrency. Every lock section, every wait and every notification is one step;
// tasks interleave in any order, wait times may run out at any moment, and waiting tasks may be
// dropped. Expiry may take any pending key, since time is not part of this state.
module WindowProtocol {
  import opened Wrappers
  import opened Window
  import opened Collections

  type Task = nat
  type Key = nat

  datatype Cause = Completed | Failed | Cancelled | Expired

  // What a task is doing. A task that is not listed is outside the window's code.
  datatype Phase =
    | Enrolled(key: Key, notified: bool) // offer: registered for a notification, about to try
    | Refused(key: Key, notified: bool)  // offer: the window was full
    | Parked(key: Key, notified: bool)   // offer: waiting for the notification or the timer
    | Owing                              // has removed something and is about to notify
    | Unenrolled(key: Key)               // the window was full, and no notification is registered

  datatype Entry = Admitted(key: Key) | Removed(key: Key, cause: Cause)

  // enrolFirst says whether offer registers before it tries, as the program does.
  datatype State = State(
    enrolFirst: bool,
    maxSize: nat,
    pending: map<Key, Task>,
    tasks: map<Task, Phase>,
    log: seq<Entry>
  )

  function Init(enrolFirst: bool, maxSize: nat): (s: State) {
    State(enrolFirst, maxSize, map[], map[], [])
  }

  datatype Step =
    | Enrol(t: Task, key: Key)
    | Try(t: Task)
    | GiveUp(t: Task)
    | Park(t: Task)
    | Wake(t: Task)
    | Timer(t: Task)
    | Take(t: Task, key: Key, cause: Cause)
    | Sweep(t: Task, keys: seq<Key>)
    | Notify(t: Task)
    | Drop(t: Task)
    | TryUnenrolled(t: Task, key: Key)
    | EnrolLate(t: Task)

  predicate Waiting(p: Phase) {
    p.Enrolled? || p.Refused? || p.Parked?
  }

  predicate Distinct(keys: seq<Key>) {
    forall i, j :: 0 <= i < j < |keys| ==> keys[i] != keys[j]
  }

  ghost predicate Enabled(s: State, step: Step) {
    match step
    case Enrol(t, _) => s.enrolFirst && t !in s.tasks
    case Try(t) => t in s.tasks && s.tasks[t].Enrolled?
    case GiveUp(t) => t in s.tasks && s.tasks[t].Refused?
    case Park(t) => t in s.tasks && s.tasks[t].Refused?
    case Wake(t) => t in s.tasks && s.tasks[t].Parked? && s.tasks[t].notified
    case Timer(t) => t in s.tasks && s.tasks[t].Parked?
    case Take(t, key, cause) => t !in s.tasks && key in s.pending && cause != Expired
    case Sweep(t, keys) => t !in s.tasks && keys != [] && Distinct(keys) && forall i :: 0 <= i < |keys| ==> keys[i] in s.pending
    case Notify(t) => t in s.tasks && s.tasks[t].Owing?
    case Drop(t) => t in s.tasks && !s.tasks[t].Owing?
    case TryUnenrolled(t, _) => !s.enrolFirst && t !in s.tasks
    case EnrolLate(t) => t in s.tasks && s.tasks[t].Unenrolled?
  }

  // notify_waiters: every registered notification fires.
  function Woken(tasks: map<Task, Phase>): (r: map<Task, Phase>) {
    map t | t in tasks :: if Waiting(tasks[t]) then tasks[t].(notified := true) else tasks[t]
  }

  function Sweeping(keys: seq<Key>): (es: seq<Entry>) {
    seq(|keys|, i requires 0 <= i < |keys| => Removed(keys[i], Expired))
  }

  function Attempt(s: State, t: Task, key: Key, refused: Phase): (r: State) {
    var (pending, r) := TryInsert(s.pending, s.maxSize, key, t);
    match r
    case Ok(_) => s.(pending := pending, tasks := s.tasks - {t}, log := s.log + [Admitted(key)])
    case Err(WindowFull) => s.(tasks := s.tasks[t := refused])
    case Err(_) => s.(tasks := s.tasks - {t})
  }

  function Next(s: State, step: Step): (r: State)
    requires Enabled(s, step)
  {
    match step
    case Enrol(t, key) => s.(tasks := s.tasks[t := Enrolled(key, false)])
    case Try(t) => Attempt(s, t, s.tasks[t].key, Refused(s.tasks[t].key, s.tasks[t].notified))
    case GiveUp(t) => s.(tasks := s.tasks - {t})
    case Park(t) => s.(tasks := s.tasks[t := Parked(s.tasks[t].key, s.tasks[t].notified)])
    case Wake(t) => s.(tasks := s.tasks[t := Enrolled(s.tasks[t].key, false)])
    case Timer(t) => s.(tasks := s.tasks[t := Enrolled(s.tasks[t].key, false)])
    case Take(t, key, cause) =>
      s.(pending := s.pending - {key}, tasks := s.tasks[t := Owing], log := s.log + [Removed(key, cause)])
    case Sweep(t, keys) =>
      s.(pending := Without(s.pending, keys), tasks := s.tasks[t := Owing], log := s.log + Sweeping(keys))
    case Notify(t) => s.(tasks := Woken(s.tasks - {t}))
    case Drop(t) => s.(tasks := s.tasks - {t})
    case TryUnenrolled(t, key) => Attempt(s, t, key, Unenrolled(key))
    case EnrolLate(t) => s.(tasks := s.tasks[t := Parked(s.tasks[t].key, false)])
  }

  // Where a run leads, if every step is enabled when it is taken.
  ghost function Run(s: State, steps: seq<Step>): (r: Option<State>) {
    if steps == [] then Some(s)
    else
      match Run(s, steps[..|steps| - 1])
      case None => None
      case Some(m) => if Enabled(m, steps[|steps| - 1]) then Some(Next(m, steps[|steps| - 1])) else None
  }

  // A wake-up is still to come: the window is full, or someone is between removing and notifying.
  ghost predicate WakeupComing(s: State) {
    |s.pending| >= s.maxSize || exists u :: u in s.tasks && s.tasks[u].Owing?
  }

  // No wake-up is lost: whoever has been refused and not been notified since has one coming.
  ghost predicate NoneForgotten(s: State) {
    forall t :: Unheard(s, t) ==> WakeupComing(s)
  }

  lemma OwerStays(s: State, step: Step, u: Task)
    requires Enabled(s, step) && !step.Notify? && u in s.tasks && s.tasks[u].Owing?
    ensures u in Next(s, step).tasks && Next(s, step).tasks[u].Owing?
  {
    hide Woken, Sweeping, Without, Distinct, Attempt;
    if step.Try? {
      AttemptKeepsOthers(s, step.t, s.tasks[step.t].key, Refused(s.tasks[step.t].key, s.tasks[step.t].notified));
    } else if step.TryUnenrolled? {
      AttemptKeepsOthers(s, step.t, step.key, Unenrolled(step.key));
    }
  }

  lemma AttemptKeepsOthers(s: State, t: Task, key: Key, refused: Phase)
    ensures forall u :: u != t && u in s.tasks ==> u in Attempt(s, t, key, refused).tasks && Attempt(s, t, key, refused).tasks[u] == s.tasks[u]
  {
  }

  lemma WakeupKept(s: State, step: Step)
    requires Enabled(s, step) && !step.Notify? && WakeupComing(s)
    requires |s.pending| <= s.maxSize
    ensures WakeupComing(Next(s, step))
  {
    if exists u :: u in s.tasks && s.tasks[u].Owing? {
      var u :| u in s.tasks && s.tasks[u].Owing?;
      OwerStays(s, step, u);
    } else {
      FullStays(s, step);
    }
    hide Next, Enabled;
  }

  // A full window stays full, unless somebody removes something and owes a notification.
  lemma FullStays(s: State, step: Step)
    requires Enabled(s, step) && !step.Notify? && |s.pending| == s.maxSize
    ensures var r := Next(s, step); |r.pending| >= r.maxSize || exists u :: u in r.tasks && r.tasks[u].Owing?
  {
    hide Woken, Sweeping, Without, Distinct, Attempt;
    if step.Take? || step.Sweep? {
      assert Next(s, step).tasks[step.t].Owing?;
    } else if step.Try? {
      AttemptDecides(s, step.t, s.tasks[step.t].key, Refused(s.tasks[step.t].key, s.tasks[step.t].notified));
    } else if step.TryUnenrolled? {
      AttemptDecides(s, step.t, step.key, Unenrolled(step.key));
    } else {
      assert Next(s, step).pending == s.pending && Next(s, step).maxSize == s.maxSize;
    }
  }

  lemma NoneForgottenKept(s: State, step: Step)
    requires s.enrolFirst && Enabled(s, step) && |s.pending| <= s.maxSize && NoneForgotten(s)
    requires forall t :: t in s.tasks ==> !s.tasks[t].Unenrolled?
    ensures NoneForgotten(Next(s, step)) && forall t :: t in Next(s, step).tasks ==> !Next(s, step).tasks[t].Unenrolled?
  {
    var r := Next(s, step);
    forall t | t in r.tasks ensures !r.tasks[t].Unenrolled? {
      TaskAfter(s, step, t);
    }
    forall t | Unheard(r, t) ensures WakeupComing(r) {
      TaskAfter(s, step, t);
      hide Next, Enabled, WakeupComing;
      if Unheard(s, t) {
        WakeupKept(s, step);
      }
    }
  }

  // Where a refused task that has not been notified comes from: it was refused before and nobody
  // has notified since, or it has just found the window full.
  lemma TaskAfter(s: State, step: Step, t: Task)
    requires s.enrolFirst && Enabled(s, step) && t in Next(s, step).tasks
    requires forall u :: u in s.tasks ==> !s.tasks[u].Unenrolled?
    ensures var r := Next(s, step);
            && !r.tasks[t].Unenrolled?
            && (Unheard(r, t) ==> if Unheard(s, t) then !step.Notify? else WakeupComing(r))
  {
    hide Sweeping, Without, Distinct, Attempt, Woken, WakeupComing;
    if step.Try? {
      TryAfter(s, step.t, t);
    } else if step.Notify? {
      NotifyAfter(s, step.t, t);
    }
  }

  // Refused, and not notified since.
  predicate Unheard(s: State, t: Task) {
    t in s.tasks && (s.tasks[t].Refused? || s.tasks[t].Parked?) && !s.tasks[t].notified
  }

  lemma TryAfter(s: State, u: Task, t: Task)
    requires Enabled(s, Try(u)) && t in Next(s, Try(u)).tasks
    requires forall v :: v in s.tasks ==> !s.tasks[v].Unenrolled?
    ensures var r := Next(s, Try(u)); !r.tasks[t].Unenrolled? && (Unheard(r, t) && !Unheard(s, t) ==> WakeupComing(r))
  {
  }

  lemma NotifyAfter(s: State, u: Task, t: Task)
    requires Enabled(s, Notify(u)) && t in Next(s, Notify(u)).tasks
    requires forall v :: v in s.tasks ==> !s.tasks[v].Unenrolled?
    ensures var r := Next(s, Notify(u)); !r.tasks[t].Unenrolled? && !Unheard(r, t)
  {
  }

  // Capacity

  lemma CapacityKept(s: State, step: Step)
    requires Enabled(s, step) && |s.pending| <= s.maxSize
    ensures |Next(s, step).pending| <= s.maxSize && Next(s, step).maxSize == s.maxSize
  {
    hide Woken, Sweeping, Distinct, Attempt, Without;
    match step {
      case Sweep(t, keys) => WithoutFewer(s.pending, keys);
      case Take(t, key, cause) => SmallerMap(s.pending - {key}, s.pending);
      case Try(t) => AttemptWithin(s, t, s.tasks[t].key, Refused(s.tasks[t].key, s.tasks[t].notified));
      case TryUnenrolled(t, key) => AttemptWithin(s, t, key, Unenrolled(key));
      case _ =>
    }
  }

  lemma WithoutFewer(pending: map<Key, Task>, keys: seq<Key>)
    ensures |Without(pending, keys)| <= |pending|
  {
    SmallerMap(Without(pending, keys), pending);
  }

  lemma AttemptWithin(s: State, t: Task, key: Key, refused: Phase)
    requires |s.pending| <= s.maxSize
    ensures |Attempt(s, t, key, refused).pending| <= s.maxSize && Attempt(s, t, key, refused).maxSize == s.maxSize
  {
  }

  lemma SmallerMap(m: map<Key, Task>, n: map<Key, Task>)
    requires m.Keys <= n.Keys
    ensures |m| <= |n|
  {
    assert |m| == |m.Keys| && |n| == |n.Keys|;
    SubsetCard(m.Keys, n.Keys);
  }

  // The log: admissions and removals of each key alternate, and what is admitted and not removed is
  // pending.

  ghost function Live(log: seq<Entry>): (keys: set<Key>) {
    if log == [] then {}
    else
      var before := Live(log[..|log| - 1]);
      match log[|log| - 1]
      case Admitted(key) => before + {key}
      case Removed(key, _) => before - {key}
  }

  // No live key is admitted and no other key is removed.
  ghost predicate Lawful(log: seq<Entry>) {
    if log == [] then true
    else
      && Lawful(log[..|log| - 1])
      && match log[|log| - 1]
         case Admitted(key) => key !in Live(log[..|log| - 1])
         case Removed(key, _) => key in Live(log[..|log| - 1])
  }

  function Count(log: seq<Entry>, what: Entry -> bool): (n: nat) {
    if log == [] then 0 else Count(log[..|log| - 1], what) + if what(log[|log| - 1]) then 1 else 0
  }

  function Removals(log: seq<Entry>, cause: Cause): (n: nat) {
    Count(log, (e: Entry) => e.Removed? && e.cause == cause)
  }

  function Admissions(log: seq<Entry>): (n: nat) {
    Count(log, (e: Entry) => e.Admitted?)
  }

  lemma LawfulPush(log: seq<Entry>, e: Entry)
    requires Lawful(log)
    requires if e.Admitted? then e.key !in Live(log) else e.key in Live(log)
    ensures Lawful(log + [e]) && Live(log + [e]) == if e.Admitted? then Live(log) + {e.key} else Live(log) - {e.key}
  {
  }

  lemma {:induction false} SweepLawful(log: seq<Entry>, keys: seq<Key>)
    requires Lawful(log) && Distinct(keys) && forall i :: 0 <= i < |keys| ==> keys[i] in Live(log)
    ensures Lawful(log + Sweeping(keys)) && Live(log + Sweeping(keys)) == set k | k in Live(log) && k !in keys
  {
    hide Lawful, Live;
    if keys == [] {
      assert log + Sweeping(keys) == log;
    } else {
      var n := |keys| - 1;
      SweepLawful(log, keys[..n]);
      assert log + Sweeping(keys) == log + Sweeping(keys[..n]) + [Removed(keys[n], Expired)];
      assert keys[n] !in keys[..n];
      LawfulPush(log + Sweeping(keys[..n]), Removed(keys[n], Expired));
      assert keys == keys[..n] + [keys[n]];
    }
  }

  ghost predicate Booked(s: State) {
    Lawful(s.log) && Live(s.log) == s.pending.Keys
  }

  lemma BookedKept(s: State, step: Step)
    requires Enabled(s, step) && Booked(s)
    ensures Booked(Next(s, step))
  {
    match step {
      case Try(t) => AttemptBooked(s, t, s.tasks[t].key, Refused(s.tasks[t].key, s.tasks[t].notified));
      case TryUnenrolled(t, key) => AttemptBooked(s, t, key, Unenrolled(key));
      case Take(t, key, cause) =>
        LawfulPush(s.log, Removed(key, cause));
        assert (s.pending - {key}).Keys == s.pending.Keys - {key};
      case Sweep(t, keys) =>
        SweepLawful(s.log, keys);
      case _ =>
    }
  }

  lemma AttemptBooked(s: State, t: Task, key: Key, refused: Phase)
    requires Booked(s)
    ensures Booked(Attempt(s, t, key, refused))
  {
    if key !in s.pending && |s.pending| < s.maxSize {
      LawfulPush(s.log, Admitted(key));
    }
  }

  // Every admission is accounted for.
  lemma {:induction false} Balance(log: seq<Entry>)
    requires Lawful(log)
    ensures Admissions(log) == Removals(log, Completed) + Removals(log, Failed) + Removals(log, Cancelled)
                               + Removals(log, Expired) + |Live(log)|
  {
    if log != [] {
      Balance(log[..|log| - 1]);
      match log[|log| - 1] {
        case Admitted(_) =>
        case Removed(_, Completed) =>
        case Removed(_, Failed) =>
        case Removed(_, Cancelled) =>
        case Removed(_, Expired) =>
      }
    }
  }

  // Whole runs

  ghost predicate Sound(s: State) {
    && |s.pending| <= s.maxSize && Booked(s)
    && (s.enrolFirst ==> NoneForgotten(s) && forall t :: t in s.tasks ==> !s.tasks[t].Unenrolled?)
  }

  lemma SoundKept(s: State, step: Step)
    requires Sound(s) && Enabled(s, step)
    ensures Sound(Next(s, step)) && Next(s, step).enrolFirst == s.enrolFirst && Next(s, step).maxSize == s.maxSize
  {
    hide NoneForgotten, Booked;
    CapacityKept(s, step);
    BookedKept(s, step);
    if s.enrolFirst {
      NoneForgottenKept(s, step);
    }
  }

  lemma {:induction false} RunSound(enrolFirst: bool, maxSize: nat, steps: seq<Step>)
    requires Run(Init(enrolFirst, maxSize), steps).Some?
    ensures var s := Run(Init(enrolFirst, maxSize), steps).value;
            Sound(s) && s.enrolFirst == enrolFirst && s.maxSize == maxSize
  {
    if steps != [] {
      var before := steps[..|steps| - 1];
      RunSound(enrolFirst, maxSize, before);
      SoundKept(Run(Init(enrolFirst, maxSize), before).value, steps[|steps| - 1]);
    }
  }

  // In every interleaving: a parked offer that has not been notified faces a full window, or a
  // remover is about to notify it. So when nobody is between removing and notifying and there is
  // room, every parked offer has been woken.
  lemma NoLostWakeup(maxSize: nat, steps: seq<Step>, t: Task)
    requires Run(Init(true, maxSize), steps).Some?
    requires Unheard(Run(Init(true, maxSize), steps).value, t)
    ensures var s := Run(Init(true, maxSize), steps).value;
            |s.pending| == maxSize || exists u :: u in s.tasks && s.tasks[u].Owing?
  {
    RunSound(true, maxSize, steps);
  }

  // In every interleaving the window never exceeds its size, no live key is admitted twice, and
  // admissions are completions, failures, cancellations, expiries and what is still pending.
  lemma WindowConserves(maxSize: nat, steps: seq<Step>)
    requires Run(Init(true, maxSize), steps).Some?
    ensures var s := Run(Init(true, maxSize), steps).value;
            && |s.pending| <= maxSize && Lawful(s.log) && Live(s.log) == s.pending.Keys
            && Admissions(s.log) == Removals(s.log, Completed) + Removals(s.log, Failed) + Removals(s.log, Cancelled)
                                    + Removals(s.log, Expired) + |s.pending|
  {
    RunSound(true, maxSize, steps);
    var s := Run(Init(true, maxSize), steps).value;
    Balance(s.log);
    assert |s.pending| == |s.pending.Keys|;
  }

  lemma RunOn(s0: State, steps: seq<Step>, s: State, step: Step)
    requires Run(s0, steps) == Some(s) && Enabled(s, step)
    ensures Run(s0, steps + [step]) == Some(Next(s, step))
  {
  }

  // What an attempt does, spelled out.
  lemma AttemptDecides(s: State, t: Task, key: Key, refused: Phase)
    ensures var r := Attempt(s, t, key, refused);
            && r.enrolFirst == s.enrolFirst && r.maxSize == s.maxSize
            && (key in s.pending ==> r.pending == s.pending && r.tasks == s.tasks - {t} && r.log == s.log)
            && (key !in s.pending && |s.pending| < s.maxSize ==>
                  r.pending == s.pending[key := t] && r.tasks == s.tasks - {t} && r.log == s.log + [Admitted(key)])
            && (key !in s.pending && |s.pending| >= s.maxSize ==>
                  r.pending == s.pending && r.tasks == s.tasks[t := refused] && r.log == s.log)
  {
  }

  // In every run an offer that has registered and whose key is free is admitted when it tries and
  // there is room; a live key is turned away, and only a full window makes it wait.
  lemma OfferDecided(maxSize: nat, steps: seq<Step>, t: Task)
    requires var s := Run(Init(true, maxSize), steps); s.Some? && t in s.value.tasks && s.value.tasks[t].Enrolled?
    ensures var s := Run(Init(true, maxSize), steps).value;
            var r := Run(Init(true, maxSize), steps + [Try(t)]);
            var key := s.tasks[t].key;
            && r.Some?
            && (key !in s.pending && |s.pending| < maxSize ==>
                  r.value == s.(pending := s.pending[key := t], tasks := s.tasks - {t}, log := s.log + [Admitted(key)]))
            && (key in s.pending ==> r.value == s.(tasks := s.tasks - {t}))
            && (key !in s.pending && |s.pending| >= maxSize ==>
                  r.value == s.(tasks := s.tasks[t := Refused(key, s.tasks[t].notified)]))
  {
    var s := Run(Init(true, maxSize), steps).value;
    SizeKept(true, maxSize, steps);
    AttemptDecides(s, t, s.tasks[t].key, Refused(s.tasks[t].key, s.tasks[t].notified));
    assert Enabled(s, Try(t)) && Next(s, Try(t)) == Attempt(s, t, s.tasks[t].key, Refused(s.tasks[t].key, s.tasks[t].notified));
    hide Run, Attempt, Next, Enabled;
    RunOn(Init(true, maxSize), steps, s, Try(t));
  }

  lemma {:induction false} SizeKept(enrolFirst: bool, maxSize: nat, steps: seq<Step>)
    requires Run(Init(enrolFirst, maxSize), steps).Some?
    ensures Run(Init(enrolFirst, maxSize), steps).value.maxSize == maxSize
    ensures Run(Init(enrolFirst, maxSize), steps).value.enrolFirst == enrolFirst
  {
    hide Sweeping, Without, Distinct, Woken, TryInsert;
    if steps != [] {
      SizeKept(enrolFirst, maxSize, steps[..|steps| - 1]);
    }
  }

  // A removal lets a waiting offer in: whoever removes notifies, the offer wakes, and finds the room.
  lemma RemovalAdmitsWaiter(s: State, t: Task, u: Task, gone: Key, cause: Cause)
    requires t in s.tasks && s.tasks[t].Parked? && u !in s.tasks && gone in s.pending && cause != Expired
    requires |s.pending| <= s.maxSize && (s.tasks[t].key !in s.pending || s.tasks[t].key == gone)
    ensures var r := Run(s, [Take(u, gone, cause), Notify(u), Wake(t), Try(t)]);
            var key := s.tasks[t].key;
            && r.Some? && r.value.pending == (s.pending - {gone})[key := t] && r.value.tasks.Keys == s.tasks.Keys - {t}
            && r.value.log == s.log + [Removed(gone, cause), Admitted(key)]
  {
    var key := s.tasks[t].key;
    var s1 := s.(pending := s.pending - {gone}, tasks := s.tasks[u := Owing], log := s.log + [Removed(gone, cause)]);
    var s2 := s1.(tasks := Woken(s1.tasks - {u}));
    var s3 := s2.(tasks := s2.tasks[t := Enrolled(key, false)]);
    var s4 := Attempt(s3, t, key, Refused(key, false));
    RemovalWakes(s, t, u, gone, cause, s1, s2, s3);
    RoomMade(s.pending, gone);
    AttemptDecides(s3, t, key, Refused(key, false));
    TrySteps(s3, t, key);
    hide Run, Next, Enabled, Attempt, Woken;
    RunFour(s, s1, s2, s3, s4, Take(u, gone, cause), Notify(u), Wake(t), Try(t));
    assert s.log + [Removed(gone, cause)] + [Admitted(key)] == s.log + [Removed(gone, cause), Admitted(key)];
  }

  // When the timer fires first, the offer tries once more, for the same key.
  lemma TimerTriesAgain(s: State, t: Task)
    requires t in s.tasks && s.tasks[t].Parked? && s.tasks[t].key !in s.pending && |s.pending| < s.maxSize
    ensures Run(s, [Timer(t), Try(t)]) ==
            Some(s.(pending := s.pending[s.tasks[t].key := t], tasks := s.tasks - {t}, log := s.log + [Admitted(s.tasks[t].key)]))
  {
    var key := s.tasks[t].key;
    var s1 := s.(tasks := s.tasks[t := Enrolled(key, false)]);
    var s2 := Attempt(s1, t, key, Refused(key, false));
    assert Enabled(s, Timer(t)) && Next(s, Timer(t)) == s1;
    AttemptDecides(s1, t, key, Refused(key, false));
    TrySteps(s1, t, key);
    assert s1.tasks - {t} == s.tasks - {t};
    assert Run(s, []) == Some(s);
    hide Run, Next, Enabled, Attempt;
    RunOn(s, [], s, Timer(t));
    assert [] + [Timer(t)] == [Timer(t)] && [Timer(t)] + [Try(t)] == [Timer(t), Try(t)];
    RunOn(s, [Timer(t)], s1, Try(t));
  }

  lemma RemovalWakes(s: State, t: Task, u: Task, gone: Key, cause: Cause, s1: State, s2: State, s3: State)
    requires t in s.tasks && s.tasks[t].Parked? && u !in s.tasks && gone in s.pending && cause != Expired
    requires s1 == s.(pending := s.pending - {gone}, tasks := s.tasks[u := Owing], log := s.log + [Removed(gone, cause)])
    requires s2 == s1.(tasks := Woken(s1.tasks - {u}))
    requires s3 == s2.(tasks := s2.tasks[t := Enrolled(s.tasks[t].key, false)])
    ensures Enabled(s, Take(u, gone, cause)) && Next(s, Take(u, gone, cause)) == s1
    ensures Enabled(s1, Notify(u)) && Next(s1, Notify(u)) == s2
    ensures Enabled(s2, Wake(t)) && Next(s2, Wake(t)) == s3
    ensures s3.tasks.Keys == s.tasks.Keys && s3.pending == s1.pending && s3.log == s1.log
  {
    hide Attempt, Sweeping, Without, Distinct;
    assert s2.tasks[t] == Parked(s.tasks[t].key, true);
  }

  lemma TrySteps(s: State, t: Task, key: Key)
    requires t in s.tasks && s.tasks[t] == Enrolled(key, false)
    ensures Enabled(s, Try(t)) && Next(s, Try(t)) == Attempt(s, t, key, Refused(key, false))
  {
    hide Attempt, Sweeping, Without, Distinct, Woken;
  }

  lemma RunFour(s: State, s1: State, s2: State, s3: State, s4: State, a: Step, b: Step, c: Step, d: Step)
    requires Enabled(s, a) && Next(s, a) == s1 && Enabled(s1, b) && Next(s1, b) == s2
    requires Enabled(s2, c) && Next(s2, c) == s3 && Enabled(s3, d) && Next(s3, d) == s4
    ensures Run(s, [a, b, c, d]) == Some(s4)
  {
    assert Run(s, []) == Some(s);
    hide Run, Next, Enabled;
    RunOn(s, [], s, a);
    assert [] + [a] == [a] && [a] + [b] == [a, b] && [a, b] + [c] == [a, b, c] && [a, b, c] + [d] == [a, b, c, d];
    RunOn(s, [a], s1, b);
    RunOn(s, [a, b], s2, c);
    RunOn(s, [a, b, c], s3, d);
  }

  lemma RoomMade(pending: map<Key, Task>, gone: Key)
    requires gone in pending
    ensures |pending - {gone}| < |pending|
  {
    assert |pending| == |pending.Keys| && (pending - {gone}).Keys == pending.Keys - {gone};
    assert |pending - {gone}| == |(pending - {gone}).Keys|;
  }

  // The order in which the program registers and tries matters. In the variant that registers only
  // after the refusal the wake-up is lost: here offer 1 waits in front of an empty window, nobody is
  // left to notify it, and only its timer will end the wait.
  lemma LateRegistrationLosesWakeup()
    ensures exists steps, t ::
              && Run(Init(false, 1), steps).Some?
              && var s := Run(Init(false, 1), steps).value;
                 && t in s.tasks && s.tasks[t].Parked? && !s.tasks[t].notified
                 && s.pending == map[] && forall u :: u in s.tasks ==> !s.tasks[u].Owing?
  {
    var s0 := Init(false, 1);
    assert Run(s0, []) == Some(s0);
    hide Run;
    FirstTwo(s0);
    var s2 := State(false, 1, map[7 := 0], map[1 := Unenrolled(8)], [Admitted(7)]);
    var s3 := s2.(pending := map[], tasks := map[1 := Unenrolled(8), 2 := Owing], log := [Admitted(7), Removed(7, Completed)]);
    LastThree(s2, s3);
    hide Next, Enabled, Attempt;
    RunOn(s0, [], s0, TryUnenrolled(0, 7));
    var steps1 := [] + [TryUnenrolled(0, 7)];
    RunOn(s0, steps1, s2.(tasks := map[]), TryUnenrolled(1, 8));
    var steps2 := steps1 + [TryUnenrolled(1, 8)];
    RunOn(s0, steps2, s2, Take(2, 7, Completed));
    var steps3 := steps2 + [Take(2, 7, Completed)];
    RunOn(s0, steps3, s3, Notify(2));
    var steps4 := steps3 + [Notify(2)];
    RunOn(s0, steps4, s3.(tasks := map[1 := Unenrolled(8)]), EnrolLate(1));
    var steps5 := steps4 + [EnrolLate(1)];
    var s5 := s3.(tasks := map[1 := Parked(8, false)]);
    assert Run(s0, steps5) == Some(s5) && s5.tasks[1].Parked?;
  }

  lemma FirstTwo(s0: State)
    requires s0 == Init(false, 1)
    ensures var s1 := State(false, 1, map[7 := 0], map[], [Admitted(7)]);
            && Enabled(s0, TryUnenrolled(0, 7)) && Next(s0, TryUnenrolled(0, 7)) == s1
            && Enabled(s1, TryUnenrolled(1, 8)) && Next(s1, TryUnenrolled(1, 8)) == s1.(tasks := map[1 := Unenrolled(8)])
  {
  }

  lemma LastThree(s2: State, s3: State)
    requires s2 == State(false, 1, map[7 := 0], map[1 := Unenrolled(8)], [Admitted(7)])
    requires s3 == s2.(pending := map[], tasks := map[1 := Unenrolled(8), 2 := Owing], log := [Admitted(7), Removed(7, Completed)])
    ensures Enabled(s2, Take(2, 7, Completed)) && Next(s2, Take(2, 7, Completed)) == s3
    ensures var s4 := s3.(tasks := map[1 := Unenrolled(8)]);
            && Enabled(s3, Notify(2)) && Next(s3, Notify(2)) == s4
            && Enabled(s4, EnrolLate(1)) && Next(s4, EnrolLate(1)) == s3.(tasks := map[1 := Parked(8, false)])
  {
    hide Sweeping, Without, Distinct, Attempt;
    assert s3.tasks - {2} == map[1 := Unenrolled(8)];
  }
}
