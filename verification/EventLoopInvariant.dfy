/** What every step of the event loop keeps.  One predicate per concern, one preservation lemma per predicate. */
module EventLoopInvariant {
  import opened Basics
  import opened Programs
  import opened EventLoop

  // ---------------------------------------------------------------------------------------------
  // Control

  ghost predicate Control<A, V>(s: State<A, V>) {
    && (!s.loop.Draining? ==> s.batch == [])
    && (s.run.Some? ==> s.loop == if s.run.value.job.origin.Handler? then Dispatching else Draining)
  }

  ghost predicate Shape<A, V>(s: State<A, V>) {
    && Control(s)
    && (forall t :: !PcOf(s, t).Idle? ==>
          t != LOOP_THREAD && PcOf(s, t).job.owner == t && !PcOf(s, t).job.origin.Handler?)
    && (forall t :: PcOf(s, t).Waiting? ==> PcOf(s, t).job.origin.Get?)
    && (forall i :: 0 <= i < |s.log| ==>
          !s.log[i].origin.Handler? && (s.log[i].owner == LOOP_THREAD ==> s.log[i].origin.Soon?))
  }

  predicate MovesThread<A, V>(a: Step<A, V>) {
    a.Enter? || a.Enqueue? || a.Activate? || a.Resume?
  }

  function PcAfter<A, V>(s: State<A, V>, a: Step<A, V>): Pc<A, V>
    requires Enabled(s, a) && MovesThread(a)
  {
    match a
    case Enter(t, get, code) => Entered(Job(s.nextId, t, if get then Get else Soon, code))
    case Enqueue(t) => Enqueued(PcOf(s, t).job)
    case Activate(t) => if PcOf(s, t).job.origin.Get? then Waiting(PcOf(s, t).job) else Idle
    case Resume(_) => Idle
  }

  /** A step moves at most the thread that takes it. */
  lemma OthersStay<A, V>(s: State<A, V>, a: Step<A, V>)
    requires Enabled(s, a)
    ensures forall t {:trigger PcOf(Next(s, a), t)} ::
      PcOf(Next(s, a), t) == if MovesThread(a) && t == a.t then PcAfter(s, a) else PcOf(s, t)
  {
  }

  /** What a step adds to the history. */
  function Noted<A, V>(s: State<A, V>, a: Step<A, V>): seq<Event<A, V>>
    requires Enabled(s, a)
  {
    if a.Enter? then [Began(PcAfter(s, a).job, |s.done|, |s.log|)]
    else if a.Activate? && !PcOf(s, a.t).job.origin.Get? then [Left(PcOf(s, a.t).job, |s.done|, |s.log|)]
    else if a.Resume? then
      [Returned(PcOf(s, a.t).job, s.promises[PcOf(s, a.t).job.id], |s.done|, |s.log|)]
    else []
  }

  function Ending<A, V>(s: State<A, V>, a: Step<A, V>): seq<Done<A, V>>
    requires Enabled(s, a)
  {
    if a.Micro? && s.Config().Final() && !s.run.value.signal then [Done(s.run.value.job, s.Config().Result())] else []
  }

  lemma HistoryAfter<A, V>(s: State<A, V>, a: Step<A, V>)
    requires Enabled(s, a)
    ensures Next(s, a).history == s.history + Noted(s, a)
    ensures Next(s, a).done == s.done + Ending(s, a)
    ensures Noted(s, a) != [] ==> Ending(s, a) == [] && Next(s, a).log == s.log
  {
  }

  lemma ShapeKept<A, V>(s: State<A, V>, a: Step<A, V>)
    requires Shape(s) && Conserved(s) && Enabled(s, a)
    ensures Shape(Next(s, a))
  {
    OthersStay(s, a);
    ControlKept(s, a);
    var s' := Next(s, a);
    forall i | 0 <= i < |s'.log|
      ensures !s'.log[i].origin.Handler? && (s'.log[i].owner == LOOP_THREAD ==> s'.log[i].origin.Soon?)
    {
      if i < |s.log| {
        assert s'.log[i] == s.log[i];
      }
    }
  }

  lemma ControlKept<A, V>(s: State<A, V>, a: Step<A, V>)
    requires Control(s) && Conserved(s) && Enabled(s, a)
    requires forall i :: 0 <= i < |s.log| ==> !s.log[i].origin.Handler?
    ensures Control(Next(s, a))
  {
    if a.StartJob? {
      assert s.batch[0] == s.log[|s.started|];
    }
  }

  // ---------------------------------------------------------------------------------------------
  // Conservation and order

  function Current<A, V>(s: State<A, V>): seq<Job<A, V>> {
    if s.run.Some? then [s.run.value.job] else []
  }

  /** The queue jobs among the bodies that have ended. */
  function FromQueue<A, V>(done: seq<Done<A, V>>): seq<Job<A, V>> {
    if done == [] then []
    else
      var d := done[|done| - 1];
      FromQueue(done[..|done| - 1]) + if d.job.origin.Handler? then [] else [d.job]
  }

  lemma FromQueueSnoc<A, V>(done: seq<Done<A, V>>, d: Done<A, V>)
    ensures FromQueue(done + [d]) == FromQueue(done) + if d.job.origin.Handler? then [] else [d.job]
  {
  }

  /** Everything that was ever pushed, in lock order, is started, in the swapped batch or in the queue, in that
  order; and what was started has ended, except for the job that runs. */
  ghost predicate Conserved<A, V>(s: State<A, V>) {
    && s.log == s.started + s.batch + s.queue
    && s.started == FromQueue(s.done) +
         if s.run.Some? && !s.run.value.job.origin.Handler? then [s.run.value.job] else []
  }

  lemma ShiftFront<T>(x: seq<T>, y: seq<T>, z: seq<T>)
    requires y != []
    ensures x + y + z == (x + [y[0]]) + y[1..] + z
  {
  }

  lemma ShiftBack<T>(x: seq<T>, y: seq<T>, z: seq<T>, w: seq<T>)
    ensures (x + y + z) + w == x + y + (z + w)
  {
  }

  lemma ConservedKept<A, V>(s: State<A, V>, a: Step<A, V>)
    requires Shape(s) && Conserved(s) && Enabled(s, a)
    ensures Conserved(Next(s, a))
  {
    match a
    case Enqueue(t) => ShiftBack(s.started, s.batch, s.queue, [PcOf(s, t).job]);
    case Swap => assert s.started + [] + s.queue == s.started + s.queue + [];
    case StartJob => ConservedByStart(s);
    case Micro =>
      if s.Config().Final() && !s.run.value.signal {
        FromQueueSnoc(s.done, Done(s.run.value.job, s.Config().Result()));
      } else if !s.run.value.signal && s.run.value.code.CallSoon? {
        ShiftBack(s.started, s.batch, s.queue, [Job(s.nextId, LOOP_THREAD, Soon, s.run.value.code.later)]);
      }
    case _ =>
  }

  lemma ConservedByStart<A, V>(s: State<A, V>)
    requires Shape(s) && Conserved(s) && Enabled(s, StartJob)
    ensures Conserved(Next(s, StartJob))
  {
    assert s.batch[0] == s.log[|s.started|];
    ShiftFront(s.started, s.batch, s.queue);
  }

  // ---------------------------------------------------------------------------------------------
  // The waker

  ghost predicate Signalling<A, V>(s: State<A, V>) {
    (s.run.Some? && s.run.value.signal) || exists t :: PcOf(s, t).Enqueued?
  }

  /** No lost wakeup. */
  ghost predicate WakeupPending<A, V>(s: State<A, V>) {
    s.queue != [] ==> s.active || s.loop.Woken? || Signalling(s)
  }

  lemma WakeupKept<A, V>(s: State<A, V>, a: Step<A, V>)
    requires Shape(s) && WakeupPending(s) && Enabled(s, a)
    ensures WakeupPending(Next(s, a))
  {
    var s' := Next(s, a);
    if a.Enqueue? {
      assert PcOf(s', a.t).Enqueued?;
    } else if Signalling(s) && !(s.run.Some? && s.run.value.signal) && !a.Activate? {
      var t :| PcOf(s, t).Enqueued?;
      assert PcOf(s', t).Enqueued?;
    }
  }

  // ---------------------------------------------------------------------------------------------
  // Identities

  function JobsOf<A, V>(done: seq<Done<A, V>>): seq<Job<A, V>> {
    seq(|done|, i requires 0 <= i < |done| => done[i].job)
  }

  function Pending<A, V>(s: State<A, V>): seq<Job<A, V>> {
    Current(s) + s.batch + s.queue
  }

  function All<A, V>(s: State<A, V>): seq<Job<A, V>> {
    JobsOf(s.done) + Pending(s)
  }

  ghost predicate Distinct<A, V>(js: seq<Job<A, V>>) {
    forall i, j :: 0 <= i < j < |js| ==> js[i].id != js[j].id
  }

  ghost predicate Identified<A, V>(s: State<A, V>) {
    && Distinct(All(s))
    && (forall j :: j in All(s) ==> j.id < s.nextId)
    && (forall t :: !PcOf(s, t).Idle? ==> PcOf(s, t).job.id < s.nextId)
    && (forall t, j :: PcOf(s, t).Entered? && j in All(s) ==> j.id != PcOf(s, t).job.id)
    && (forall t, u :: t != u && !PcOf(s, t).Idle? && !PcOf(s, u).Idle? ==> PcOf(s, t).job.id != PcOf(s, u).job.id)
  }

  /** The job a step pushes, if it pushes one. */
  function Pushed<A, V>(s: State<A, V>, a: Step<A, V>): seq<Job<A, V>>
    requires Enabled(s, a)
  {
    if a.Enqueue? then [PcOf(s, a.t).job]
    else if a.Micro? && !s.run.value.signal && s.run.value.code.CallSoon? then
      [Job(s.nextId, LOOP_THREAD, Soon, s.run.value.code.later)]
    else []
  }

  /** Starting, ending and swapping only move the borders inside `All`, pushing appends to it, and a libevent
  callback is put in front of the queue. */
  lemma AllAfter<A, V>(s: State<A, V>, a: Step<A, V>)
    requires Control(s) && Enabled(s, a)
    ensures !a.Handle? ==> All(Next(s, a)) == All(s) + Pushed(s, a)
    ensures a.Handle? ==> All(Next(s, a)) == JobsOf(s.done) + Current(Next(s, a)) + s.queue
    ensures a.Handle? ==> All(s) == JobsOf(s.done) + s.queue
  {
    PendingAfter(s, a);
    var s' := Next(s, a);
    if a.Micro? && s.Config().Final() && !s.run.value.signal {
      AllAfterFinish(s);
    } else if a.Handle? {
      AllAfterHandle(s, a);
    } else {
      assert s'.done == s.done;
      assert JobsOf(s.done) + (Pending(s) + Pushed(s, a)) == All(s) + Pushed(s, a);
    }
  }

  lemma AllAfterFinish<A, V>(s: State<A, V>)
    requires s.run.Some? && s.Config().Final()
    ensures All(Finish(s)) == All(s)
  {
  }

  lemma AllAfterHandle<A, V>(s: State<A, V>, a: Step<A, V>)
    requires Control(s) && Enabled(s, a) && a.Handle?
    ensures All(Next(s, a)) == JobsOf(s.done) + Current(Next(s, a)) + s.queue
    ensures All(s) == JobsOf(s.done) + s.queue
  {
  }

  lemma PendingAfter<A, V>(s: State<A, V>, a: Step<A, V>)
    requires Control(s) && Enabled(s, a)
    ensures var s' := Next(s, a);
      if a.Handle? then Pending(s') == Current(s') + Pending(s)
      else if a.Micro? && s.Config().Final() && !s.run.value.signal then Pending(s) == Current(s) + Pending(s')
      else Pending(s') == Pending(s) + Pushed(s, a)
  {
    match a
    case Enqueue(_) => ShiftBack(Current(s), s.batch, s.queue, Pushed(s, a));
    case StartJob => ShiftFront([], s.batch, s.queue);
    case Micro =>
      if s.Config().Final() && !s.run.value.signal {
        assert Current(s) + s.batch + s.queue == Current(s) + ([] + s.batch + s.queue);
      } else {
        PendingAfterWork(s);
      }
    case _ =>
  }

  lemma PendingAfterWork<A, V>(s: State<A, V>)
    requires Enabled(s, Micro) && (s.run.value.signal || !s.Config().Final())
    ensures Pending(Work(s)) == Pending(s) + Pushed(s, Micro)
  {
  }

  lemma DistinctInsert<A, V>(x: seq<Job<A, V>>, j: Job<A, V>, y: seq<Job<A, V>>)
    requires Distinct(x + y) && forall i :: 0 <= i < |x + y| ==> (x + y)[i].id != j.id
    ensures Distinct(x + [j] + y)
    ensures forall k :: k in x + [j] + y <==> k == j || k in x + y
  {
    var z := x + [j] + y;
    var w := x + y;
    var pre := (i: int) => if i < |x| then i else i - 1;
    assert forall i :: 0 <= i < |z| && i != |x| ==> z[i] == w[pre(i)];
    forall i, k | 0 <= i < k < |z|
      ensures z[i].id != z[k].id
    {
      if i != |x| && k != |x| {
        assert w[pre(i)].id != w[pre(k)].id;
      }
    }
  }

  /** A step adds at most one job to `All`, and its id is new. */
  lemma AllGrows<A, V>(s: State<A, V>, a: Step<A, V>)
    requires Shape(s) && Identified(s) && Enabled(s, a)
    ensures Distinct(All(Next(s, a)))
    ensures forall j :: j in All(Next(s, a)) ==>
      j in All(s) || (a.Enqueue? && j == PcOf(s, a.t).job) || j.id == s.nextId < Next(s, a).nextId
  {
    AllAfter(s, a);
    if a.Handle? {
      DistinctInsert(JobsOf(s.done), Current(Next(s, a))[0], s.queue);
    } else if Pushed(s, a) != [] {
      assert All(s) + [] == All(s);
      DistinctInsert(All(s), Pushed(s, a)[0], []);
      assert All(s) + Pushed(s, a) + [] == All(s) + Pushed(s, a);
    }
  }

  lemma IdentifiedKept<A, V>(s: State<A, V>, a: Step<A, V>)
    requires Shape(s) && Identified(s) && Enabled(s, a)
    ensures Identified(Next(s, a))
  {
    AllGrows(s, a);
    IdsBelow(s, a);
    EnteredApart(s, a);
    CallsApart(s, a);
  }

  lemma IdsBelow<A, V>(s: State<A, V>, a: Step<A, V>)
    requires Shape(s) && Identified(s) && Enabled(s, a)
    ensures forall j :: j in All(Next(s, a)) ==> j.id < Next(s, a).nextId
    ensures forall t :: !PcOf(Next(s, a), t).Idle? ==> PcOf(Next(s, a), t).job.id < Next(s, a).nextId
  {
    AllGrows(s, a);
    OthersStay(s, a);
    assert s.nextId <= Next(s, a).nextId;
  }

  /** The job of a call that has not pushed yet is no other. */
  lemma EnteredApart<A, V>(s: State<A, V>, a: Step<A, V>)
    requires Shape(s) && Identified(s) && Enabled(s, a)
    ensures var s' := Next(s, a);
      forall t, j :: PcOf(s', t).Entered? && j in All(s') ==> j.id != PcOf(s', t).job.id
  {
    AllGrows(s, a);
    OthersStay(s, a);
    var s' := Next(s, a);
    forall t | PcOf(s', t).Entered?
      ensures forall j :: j in All(s') ==> j.id != PcOf(s', t).job.id
    {
      EnteredApartFrom(s, a, t);
    }
  }

  lemma EnteredApartFrom<A, V>(s: State<A, V>, a: Step<A, V>, t: nat)
    requires Shape(s) && Identified(s) && Enabled(s, a) && PcOf(Next(s, a), t).Entered?
    ensures forall j :: j in All(Next(s, a)) ==> j.id != PcOf(Next(s, a), t).job.id
  {
    AllGrows(s, a);
    OthersStay(s, a);
    if a.Enter? && t == a.t {
      AllAfter(s, a);
      assert All(Next(s, a)) == All(s) + [];
    } else {
      assert PcOf(Next(s, a), t) == PcOf(s, t);
    }
  }

  lemma CallsApart<A, V>(s: State<A, V>, a: Step<A, V>)
    requires Identified(s) && Enabled(s, a)
    ensures var s' := Next(s, a); forall t, u :: t != u && !PcOf(s', t).Idle? && !PcOf(s', u).Idle? ==>
      PcOf(s', t).job.id != PcOf(s', u).job.id
  {
    OthersStay(s, a);
    var s' := Next(s, a);
    forall t, u | t != u && !PcOf(s', t).Idle? && !PcOf(s', u).Idle?
      ensures PcOf(s', t).job.id != PcOf(s', u).job.id
    {
      assert PcOf(s', t) == PcOf(s, t) || PcOf(s', u) == PcOf(s, u);
    }
  }

  // ---------------------------------------------------------------------------------------------
  // Who waits for what

  ghost predicate InCall<A, V>(s: State<A, V>, j: Job<A, V>) {
    PcOf(s, j.owner) == Enqueued(j) || PcOf(s, j.owner) == Waiting(j)
  }

  ghost predicate Owned<A, V>(s: State<A, V>) {
    && (forall j :: j in Pending(s) && j.origin.Get? ==> InCall(s, j) && j.id !in s.promises)
    && (forall t :: (PcOf(s, t).Enqueued? || PcOf(s, t).Waiting?) && PcOf(s, t).job.origin.Get? ==>
          PcOf(s, t).job in Pending(s) || Answered(s, PcOf(s, t).job))
    && (forall id :: id in s.promises ==> id < s.nextId)
    && (forall t :: PcOf(s, t).Entered? ==> PcOf(s, t).job.id !in s.promises)
  }

  ghost predicate Answered<A, V>(s: State<A, V>, j: Job<A, V>) {
    j.id in s.promises && Done(j, s.promises[j.id]) in s.done
  }

  lemma OwnedKept<A, V>(s: State<A, V>, a: Step<A, V>)
    requires Shape(s) && Identified(s) && Owned(s) && Enabled(s, a)
    ensures Owned(Next(s, a))
  {
    if a.Micro? && s.Config().Final() && !s.run.value.signal {
      FinishOwned(s);
    } else {
      OthersStay(s, a);
      PendingAfter(s, a);
      var s' := Next(s, a);
      forall t | (PcOf(s', t).Enqueued? || PcOf(s', t).Waiting?) && PcOf(s', t).job.origin.Get?
        ensures PcOf(s', t).job in Pending(s') || Answered(s', PcOf(s', t).job)
      {
        assert PcOf(s, t).Entered? || PcOf(s, t).job in Pending(s) || Answered(s, PcOf(s, t).job);
      }
      PendingStaysOwned(s, a);
    }
  }

  lemma PendingStaysOwned<A, V>(s: State<A, V>, a: Step<A, V>)
    requires Shape(s) && Identified(s) && Owned(s) && Enabled(s, a)
    requires !(a.Micro? && s.Config().Final() && !s.run.value.signal)
    ensures forall j :: j in Pending(Next(s, a)) && j.origin.Get? ==>
          InCall(Next(s, a), j) && j.id !in Next(s, a).promises
  {
    PendingAfter(s, a);
    var s' := Next(s, a);
    forall j | j in Pending(s') && j.origin.Get?
      ensures InCall(s', j) && j.id !in s'.promises
    {
      if j in Pending(s) {
        InCallKept(s, a, j);
      } else {
        assert a.Enqueue? && j == PcOf(s, a.t).job;
        EnqueueInCall(s, a.t);
      }
    }
  }

  /** A call whose promise is not set stays where it is, or moves on from the push to the wait. */
  lemma InCallKept<A, V>(s: State<A, V>, a: Step<A, V>, j: Job<A, V>)
    requires Enabled(s, a) && InCall(s, j) && j.origin.Get? && j.id !in s.promises
    requires !(a.Micro? && s.Config().Final() && !s.run.value.signal)
    ensures InCall(Next(s, a), j) && j.id !in Next(s, a).promises
  {
    OthersStay(s, a);
    assert PcOf(Next(s, a), j.owner) == if MovesThread(a) && j.owner == a.t then PcAfter(s, a) else PcOf(s, j.owner);
  }

  lemma EnqueueInCall<A, V>(s: State<A, V>, t: nat)
    requires Shape(s) && Owned(s) && Enabled(s, Enqueue(t))
    ensures InCall(Next(s, Enqueue(t)), PcOf(s, t).job)
    ensures PcOf(s, t).job.id !in Next(s, Enqueue(t)).promises
  {
  }

  /** The running body is not among those still to run. */
  lemma CurrentIsApart<A, V>(s: State<A, V>)
    requires Identified(s) && s.run.Some?
    ensures forall k :: k in s.batch + s.queue ==> k.id != s.run.value.job.id
    ensures s.run.value.job in All(s)
  {
    var rest := s.batch + s.queue;
    var pending := [s.run.value.job] + rest;
    assert Pending(s) == pending;
    assert forall i :: 0 <= i < |pending| ==> All(s)[|s.done| + i] == pending[i];
    forall k | k in rest
      ensures k.id != s.run.value.job.id
    {
      var i :| 0 <= i < |rest| && rest[i] == k;
      assert pending[i + 1] == k && pending[0] == s.run.value.job;
    }
  }

  lemma FinishOwned<A, V>(s: State<A, V>)
    requires Shape(s) && Identified(s) && Owned(s) && s.run.Some? && s.Config().Final()
    ensures Owned(Finish(s))
  {
    var s' := Finish(s);
    var j := s.run.value.job;
    CurrentIsApart(s);
    assert Pending(s') == s.batch + s.queue;
    assert Pending(s) == [j] + Pending(s');
    assert Done(j, s.Config().Result()) in s'.done;
    assert forall t :: PcOf(s', t) == PcOf(s, t);
    forall k | k in Pending(s') && k.origin.Get?
      ensures InCall(s', k) && k.id !in s'.promises
    {
      assert k in Pending(s) && InCall(s, k);
    }
    forall t | (PcOf(s', t).Enqueued? || PcOf(s', t).Waiting?) && PcOf(s', t).job.origin.Get?
      ensures PcOf(s', t).job in Pending(s') || Answered(s', PcOf(s', t).job)
    {
      FinishAnswers(s, t);
    }
  }

  lemma FinishAnswers<A, V>(s: State<A, V>, t: nat)
    requires Shape(s) && Identified(s) && Owned(s) && s.run.Some? && s.Config().Final()
    requires (PcOf(s, t).Enqueued? || PcOf(s, t).Waiting?) && PcOf(s, t).job.origin.Get?
    ensures PcOf(s, t).job in Pending(Finish(s)) || Answered(Finish(s), PcOf(s, t).job)
  {
  }
}
