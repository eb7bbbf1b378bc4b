/** Blocked callers are answered within a bound, and every drain ends.

`Remaining(s, i)` bounds the number of loop-thread steps until the `i`-th pending body has ended.  No step of a
foreign thread changes it, every step of the loop thread lowers it, and only a libevent callback that is dispatched
in between can add to it, by its own cost.
*/
module Progress {
  import opened Basics
  import opened Programs
  import opened EventLoop
  import opened EventLoopInvariant
  import opened Linearizability

  function JobsCost<A, V>(js: seq<Job<A, V>>): nat {
    if js == [] then 0 else 1 + Cost(js[0].code) + JobsCost(js[1..])
  }

  function RunCost<A, V>(s: State<A, V>): nat {
    if s.run.None? then 0
    else Cost(s.run.value.code) + StackCost(s.run.value.stack) + if s.run.value.signal then 1 else 0
  }

  /** Loop steps until the queue has been swapped, apart from the bodies in between. */
  function Detour<A, V>(s: State<A, V>): nat {
    match s.loop case Dispatching => 2 case Woken => 1 case Draining => 3
  }

  function Remaining<A, V>(s: State<A, V>, i: nat): nat
    requires i < |Pending(s)|
  {
    RunCost(s) + Behind(s.batch, Detour(s), s.queue, i - |Current(s)|)
  }

  /** The cost of the first `k + 1` bodies behind the running one, with the way to the next swap in between. */
  function Behind<A, V>(batch: seq<Job<A, V>>, detour: nat, queue: seq<Job<A, V>>, k: int): nat
    requires k < |batch| + |queue|
  {
    if k < 0 then 0
    else if k < |batch| then JobsCost(batch[..k + 1])
    else JobsCost(batch) + detour + JobsCost(queue[..k - |batch| + 1])
  }

  lemma BehindIgnoresLater<A, V>(
    batch: seq<Job<A, V>>, detour: nat, queue: seq<Job<A, V>>, later: seq<Job<A, V>>, k: int)
    requires k < |batch| + |queue|
    ensures Behind(batch, detour, queue + later, k) == Behind(batch, detour, queue, k)
  {
    if k >= |batch| {
      assert (queue + later)[..k - |batch| + 1] == queue[..k - |batch| + 1];
    }
  }

  ghost predicate EndsBody<A, V>(s: State<A, V>, a: Step<A, V>) {
    a.Micro? && s.run.Some? && s.Config().Final() && !s.run.value.signal
  }

  /** The position of a pending body after a step: one further when a callback is dispatched, one closer when a body
  ends, and the same otherwise. */
  function Moved<A, V>(s: State<A, V>, a: Step<A, V>, i: nat): int
    requires Enabled(s, a)
  {
    if a.Handle? then i + 1
    else if a.Micro? && s.Config().Final() && !s.run.value.signal then i - 1
    else i
  }

  lemma PositionAfter<A, V>(s: State<A, V>, a: Step<A, V>, i: nat)
    requires Control(s) && Enabled(s, a) && i < |Pending(s)|
    requires !(EndsBody(s, a) && i == 0)
    ensures 0 <= Moved(s, a, i) < |Pending(Next(s, a))|
    ensures Pending(Next(s, a))[Moved(s, a, i)] == Pending(s)[i]
  {
    PendingAfter(s, a);
  }

  lemma WorkCosts<A, V>(s: State<A, V>, a: Step<A, V>)
    requires Enabled(s, a) && a.Micro? && !EndsBody(s, a)
    ensures RunCost(Next(s, a)) < RunCost(s)
  {
    if !s.run.value.signal {
      AdvanceCosts(s.Config());
    }
  }

  lemma RemainingAfter<A, V>(s: State<A, V>, a: Step<A, V>, i: nat)
    requires Control(s) && Enabled(s, a) && i < |Pending(s)|
    requires !(EndsBody(s, a) && i == 0)
    ensures 0 <= Moved(s, a, i) < |Pending(Next(s, a))|
    ensures var r := Remaining(Next(s, a), Moved(s, a, i));
      if a.Handle? then r == Remaining(s, i) + Cost(a.code)
      else if a.OnLoop() then r < Remaining(s, i)
      else r == Remaining(s, i)
  {
    PositionAfter(s, a, i);
    match a
    case Micro => RemainingAfterMicro(s, i);
    case StartJob => RemainingAfterStart(s, i);
    case Swap => RemainingAfterSwap(s, i);
    case Enqueue(t) => RemainingAfterEnqueue(s, t, i);
    case Handle(g, c) => RemainingAfterHandle(s, g, c, i);
    case Wake => RemainingAfterIdle(s, a, i);
    case EndDrain => RemainingAfterIdle(s, a, i);
    case _ => RemainingAfterIdle(s, a, i);
  }

  lemma RemainingAfterEnqueue<A, V>(s: State<A, V>, t: nat, i: nat)
    requires Enabled(s, Enqueue(t)) && i < |Pending(s)|
    ensures i < |Pending(Next(s, Enqueue(t)))| && Remaining(Next(s, Enqueue(t)), i) == Remaining(s, i)
  {
    BehindIgnoresLater(s.batch, Detour(s), s.queue, [PcOf(s, t).job], i - |Current(s)|);
  }

  lemma HandleFrame<A, V>(s: State<A, V>, g: bool, c: Code<A, V>)
    requires Enabled(s, Handle(g, c))
    ensures var s' := Next(s, Handle(g, c));
      && s'.batch == s.batch && s'.queue == s.queue && Detour(s') == Detour(s)
      && Current(s) == [] && |Current(s')| == 1 && RunCost(s) == 0 && RunCost(s') == Cost(c)
  {
  }

  lemma RemainingAfterHandle<A, V>(s: State<A, V>, g: bool, c: Code<A, V>, i: nat)
    requires Enabled(s, Handle(g, c)) && i < |Pending(s)|
    ensures i + 1 < |Pending(Next(s, Handle(g, c)))|
    ensures Remaining(Next(s, Handle(g, c)), i + 1) == Remaining(s, i) + Cost(c)
  {
    HandleFrame(s, g, c);
  }

  lemma RemainingAfterIdle<A, V>(s: State<A, V>, a: Step<A, V>, i: nat)
    requires Control(s) && Enabled(s, a) && i < |Pending(s)|
    requires a.Wake? || a.EndDrain? || a.Enter? || a.Activate? || a.Resume?
    ensures Pending(Next(s, a)) == Pending(s)
    ensures if a.OnLoop() then Remaining(Next(s, a), i) < Remaining(s, i)
            else Remaining(Next(s, a), i) == Remaining(s, i)
  {
    var s' := Next(s, a);
    assert s'.queue == s.queue && s'.batch == s.batch && s'.run == s.run;
    assert a.Wake? || a.EndDrain? ==> s.batch == [] && s.run.None?;
  }

  lemma RemainingAfterSwap<A, V>(s: State<A, V>, i: nat)
    requires Control(s) && Enabled(s, Swap) && i < |Pending(s)|
    ensures i < |Pending(Next(s, Swap))|
    ensures Remaining(Next(s, Swap), i) < Remaining(s, i)
  {
  }

  lemma RemainingAfterMicro<A, V>(s: State<A, V>, i: nat)
    requires Control(s) && Enabled(s, Micro) && i < |Pending(s)|
    requires !(EndsBody(s, Micro) && i == 0)
    ensures 0 <= Moved(s, Micro, i) < |Pending(Next(s, Micro))|
    ensures Remaining(Next(s, Micro), Moved(s, Micro, i)) < Remaining(s, i)
  {
    if EndsBody(s, Micro) {
      PositionAfter(s, Micro, i);
    } else {
      RemainingAfterWork(s, i);
    }
  }

  lemma RemainingAfterWork<A, V>(s: State<A, V>, i: nat)
    requires Enabled(s, Micro) && !EndsBody(s, Micro) && i < |Pending(s)|
    ensures i < |Pending(Next(s, Micro))| && Remaining(Next(s, Micro), i) < Remaining(s, i)
  {
    WorkCosts(s, Micro);
    WorkFrame(s);
    BehindIgnoresLater(s.batch, Detour(s), s.queue, Pushed(s, Micro), i - 1);
  }

  lemma WorkFrame<A, V>(s: State<A, V>)
    requires Enabled(s, Micro) && !EndsBody(s, Micro)
    ensures var s' := Next(s, Micro);
      |Current(s')| == 1 && s'.batch == s.batch && s'.loop == s.loop && s'.queue == s.queue + Pushed(s, Micro)
  {
  }

  lemma RemainingAfterStart<A, V>(s: State<A, V>, i: nat)
    requires Control(s) && Enabled(s, StartJob) && i < |Pending(s)|
    ensures i < |Pending(Next(s, StartJob))|
    ensures Remaining(Next(s, StartJob), i) < Remaining(s, i)
  {
    PositionAfter(s, StartJob, i);
    var s' := Next(s, StartJob);
    if i == 0 {
      assert s.batch[..1] == [s.batch[0]];
    } else if i < |s.batch| {
      assert s.batch[..i + 1][1..] == s'.batch[..i];
    }
  }

  function LoopSteps<A, V>(run: seq<Step<A, V>>): nat {
    if run == [] then 0 else (if run[0].OnLoop() then 1 else 0) + LoopSteps(run[1..])
  }

  /** The loop steps taken by libevent callbacks that were dispatched during the run. */
  function CallbackCost<A, V>(run: seq<Step<A, V>>): nat {
    if run == [] then 0 else (if run[0].Handle? then 1 + Cost(run[0].code) else 0) + CallbackCost(run[1..])
  }

  ghost predicate StillPending<A, V>(s: State<A, V>, j: Job<A, V>, bound: int) {
    exists i :: 0 <= i < |Pending(s)| && Pending(s)[i] == j && Remaining(s, i) <= bound
  }

  ghost predicate Ended<A, V>(s: State<A, V>, j: Job<A, V>) {
    exists k :: 0 <= k < |s.done| && s.done[k].job == j
  }

  lemma {:induction false} EndedStays<A, V>(s: State<A, V>, run: seq<Step<A, V>>, j: Job<A, V>)
    requires Valid(s, run) && Ended(s, j)
    ensures Ended(Exec(s, run), j)
    decreases |run|
  {
    if run != [] {
      var k :| 0 <= k < |s.done| && s.done[k].job == j;
      assert Next(s, run[0]).done[k] == s.done[k];
      EndedStays(Next(s, run[0]), run[1..], j);
    }
  }

  lemma {:induction false} EndsWithinBound<A, V>(s: State<A, V>, run: seq<Step<A, V>>, j: Job<A, V>, bound: int)
    requires Shape(s) && Conserved(s) && Valid(s, run) && StillPending(s, j, bound)
    ensures Ended(Exec(s, run), j) || StillPending(Exec(s, run), j, bound + CallbackCost(run) - LoopSteps(run))
    decreases |run|
  {
    if run != [] {
      var a := run[0];
      OneStepCloser(s, a, j, bound);
      if Ended(Next(s, a), j) {
        EndedStays(Next(s, a), run[1..], j);
      } else {
        EndsWithinBound(Next(s, a), run[1..], j, BoundNext(a, bound));
      }
    }
  }

  lemma OneStepCloser<A, V>(s: State<A, V>, a: Step<A, V>, j: Job<A, V>, bound: int)
    requires Shape(s) && Conserved(s) && Enabled(s, a) && StillPending(s, j, bound)
    ensures Shape(Next(s, a)) && Conserved(Next(s, a))
    ensures Ended(Next(s, a), j) || StillPending(Next(s, a), j, BoundNext(a, bound))
  {
    ShapeKept(s, a);
    ConservedKept(s, a);
    BoundAfter(s, a, j, bound);
  }

  function BoundNext<A, V>(a: Step<A, V>, bound: int): int {
    bound + (if a.Handle? then 1 + Cost(a.code) else 0) - (if a.OnLoop() then 1 else 0)
  }

  lemma BoundAfter<A, V>(s: State<A, V>, a: Step<A, V>, j: Job<A, V>, bound: int)
    requires Control(s) && Enabled(s, a) && StillPending(s, j, bound)
    ensures Ended(Next(s, a), j) || StillPending(Next(s, a), j, BoundNext(a, bound))
  {
    var i :| 0 <= i < |Pending(s)| && Pending(s)[i] == j && Remaining(s, i) <= bound;
    if EndsBody(s, a) && i == 0 {
      assert Next(s, a).done[|s.done|].job == Pending(s)[i];
    } else {
      PositionAfter(s, a, i);
      RemainingAfter(s, a, i);
    }
  }

  lemma RemainingPositive<A, V>(s: State<A, V>, i: nat)
    requires i < |Pending(s)|
    ensures Remaining(s, i) > 0
  {
  }

  // ---------------------------------------------------------------------------------------------
  // The theorems

  ghost predicate OwnsOneJob<A, V>(s: State<A, V>, t: nat)
    requires PcOf(s, t).Waiting?
  {
    var j := PcOf(s, t).job;
    && t != LOOP_THREAD && j.owner == t
    && (j.id !in s.promises ==> exists i :: OnlyJobOf(s, t, i) && Pending(s)[i] == j)
    && (j.id in s.promises ==> Done(j, s.promises[j.id]) in s.done && Enabled(s.(alive := true), Resume(t)))
  }

  ghost predicate OnlyJobOf<A, V>(s: State<A, V>, t: nat, i: int) {
    && 0 <= i < |Pending(s)|
    && forall k :: 0 <= k < |Pending(s)| && k != i && Pending(s)[k].origin.Get? ==> Pending(s)[k].owner != t
  }

  lemma WaitingOwns<A, V>(s: State<A, V>, t: nat)
    requires Shape(s) && Identified(s) && Owned(s) && PcOf(s, t).Waiting?
    ensures OwnsOneJob(s, t)
  {
    var j := PcOf(s, t).job;
    if j.id !in s.promises {
      assert j in Pending(s);
      var i :| 0 <= i < |Pending(s)| && Pending(s)[i] == j;
      forall k | 0 <= k < |Pending(s)| && k != i && Pending(s)[k].origin.Get?
        ensures Pending(s)[k].owner != t
      {
        PendingDistinct(s, i, k);
        assert Pending(s)[k] in Pending(s);
        assert InCall(s, Pending(s)[k]);
      }
      assert OnlyJobOf(s, t, i);
    } else {
      assert j !in Pending(s);
      assert Answered(s, j);
    }
  }

  lemma PendingDistinct<A, V>(s: State<A, V>, i: nat, k: nat)
    requires Distinct(All(s)) && i < |Pending(s)| && k < |Pending(s)| && i != k
    ensures Pending(s)[i].id != Pending(s)[k].id
  {
    assert All(s)[|s.done| + i] == Pending(s)[i];
    assert All(s)[|s.done| + k] == Pending(s)[k];
  }

  lemma EndedIsNotPending<A, V>(s: State<A, V>, j: Job<A, V>)
    requires Distinct(All(s)) && Ended(s, j)
    ensures j !in Pending(s)
  {
    var k :| 0 <= k < |s.done| && s.done[k].job == j;
    assert All(s)[k] == j;
    forall m | 0 <= m < |Pending(s)|
      ensures Pending(s)[m] != j
    {
      assert All(s)[|s.done| + m] == Pending(s)[m];
    }
  }

  /** Each thread in `fut.get()` owns exactly one job, which is running, in the batch or in the queue with its promise
  unset, or has ended with its outcome in the promise.  And the loop thread is never among the waiting threads. */
  lemma WaitingThreadsOwnOneJob<A, V>(init: A, run: seq<Step<A, V>>, t: nat)
    requires Valid(Start(init), run)
    requires PcOf(Exec(Start(init), run), t).Waiting?
    ensures OwnsOneJob(Exec(Start(init), run), t)
  {
    Reachable(init, run);
    WaitingOwns(Exec(Start(init), run), t);
  }

  ghost predicate FrameExists<A, V>(s: State<A, V>) {
    s.run.Some? && s.run.value.job.origin.Get? ==>
      var j := s.run.value.job;
      && (PcOf(s, j.owner) == Enqueued(j) || PcOf(s, j.owner) == Waiting(j))
      && j.id !in s.promises
      && !Ended(s, j)
  }

  lemma RunningFrameExists<A, V>(s: State<A, V>)
    requires Identified(s) && Owned(s)
    ensures FrameExists(s)
  {
    if s.run.Some? {
      var j := s.run.value.job;
      assert j in Pending(s);
      if Ended(s, j) {
        EndedIsNotPending(s, j);
        assert false;
      }
      assert j.origin.Get? ==> InCall(s, j);
    }
  }

  /** The references to `f` and `prom` that a `call_get` job holds are into a frame that still exists: while the job
  runs its owner is inside that very call, and the promise is set at most once. */
  lemma FrameOutlivesJob<A, V>(init: A, run: seq<Step<A, V>>)
    requires Valid(Start(init), run)
    ensures FrameExists(Exec(Start(init), run))
  {
    Reachable(init, run);
    RunningFrameExists(Exec(Start(init), run));
  }

  /** Answered within a bound, from any reachable state and over any continuation: once the loop thread has taken
  `Remaining` steps more than those of intervening callbacks, the `i`-th pending job has ended, and if its caller is
  still inside `call_get` the answer is in its promise. */
  lemma BlockedCallersAreAnswered<A, V>(init: A, before: seq<Step<A, V>>, run: seq<Step<A, V>>, i: nat)
    requires Valid(Start(init), before) && Valid(Exec(Start(init), before), run)
    requires i < |Pending(Exec(Start(init), before))|
    requires LoopSteps(run) >= Remaining(Exec(Start(init), before), i) + CallbackCost(run)
    ensures var j := Pending(Exec(Start(init), before))[i];
      var s := Exec(Exec(Start(init), before), run);
      Ended(s, j) && (j.origin.Get? && InCall(s, j) ==> Answered(s, j))
  {
    ReachableShape(init, before);
    ValidConcat(Start(init), before, run);
    ReachableShape(init, before + run);
    AnsweredFrom(Exec(Start(init), before), run, i);
  }

  lemma ReachableShape<A, V>(init: A, run: seq<Step<A, V>>)
    requires Valid(Start(init), run)
    ensures var s := Exec(Start(init), run); Shape(s) && Conserved(s) && Identified(s) && Owned(s)
  {
    Reachable(init, run);
  }

  lemma AnsweredFrom<A, V>(s0: State<A, V>, run: seq<Step<A, V>>, i: nat)
    requires Shape(s0) && Conserved(s0) && Valid(s0, run) && i < |Pending(s0)|
    requires Identified(Exec(s0, run)) && Owned(Exec(s0, run))
    requires LoopSteps(run) >= Remaining(s0, i) + CallbackCost(run)
    ensures var j := Pending(s0)[i];
      var s := Exec(s0, run);
      Ended(s, j) && (j.origin.Get? && InCall(s, j) ==> Answered(s, j))
  {
    var s, j := Exec(s0, run), Pending(s0)[i];
    EndsWithinBound(s0, run, j, Remaining(s0, i));
    if !Ended(s, j) {
      var k :| 0 <= k < |Pending(s)| && Pending(s)[k] == j && Remaining(s, k) <= 0;
      RemainingPositive(s, k);
      assert false;
    }
    if j.origin.Get? && InCall(s, j) {
      EndedIsAnswered(s, j);
    }
  }

  lemma EndedIsAnswered<A, V>(s: State<A, V>, j: Job<A, V>)
    requires Identified(s) && Owned(s) && Ended(s, j) && j.origin.Get? && InCall(s, j)
    ensures Answered(s, j)
  {
    EndedIsNotPending(s, j);
    assert PcOf(s, j.owner).job == j;
  }

  ghost predicate CanMove<A, V>(s: State<A, V>) {
    || Enabled(s, Micro) || Enabled(s, StartJob) || Enabled(s, EndDrain) || Enabled(s, Swap) || Enabled(s, Wake)
    || exists t :: Enabled(s, Activate(t))
  }

  lemma PendingCanMove<A, V>(s: State<A, V>)
    requires Shape(s) && WakeupPending(s) && s.alive && Pending(s) != []
    ensures CanMove(s)
  {
    if s.run.None? && s.loop.Dispatching? && !s.active {
      var t :| PcOf(s, t).Enqueued?;
      assert Enabled(s, Activate(t));
    }
  }

  /** The loop is never stuck while something is pending: the loop thread can move, or it will be able to as soon as a
  thread that has pushed a job makes its call of `event_active`. */
  lemma NeverStuck<A, V>(init: A, run: seq<Step<A, V>>)
    requires Valid(Start(init), run)
    requires Exec(Start(init), run).alive && Pending(Exec(Start(init), run)) != []
    ensures CanMove(Exec(Start(init), run))
  {
    Reachable(init, run);
    PendingCanMove(Exec(Start(init), run));
  }

  /** While one drain lasts. */
  predicate WithinDrain<A, V>(run: seq<Step<A, V>>) {
    forall k :: 0 <= k < |run| ==> !run[k].EndDrain?
  }

  /** The drain that starts at a swap runs exactly the jobs that were in the queue then, in order; everything pushed
  meanwhile, by the jobs themselves or by other threads, is put behind them into the queue; and the loop thread takes
  no more steps than those jobs cost. */
  lemma {:induction false} DrainRunsTheSwappedJobs<A, V>(s: State<A, V>, run: seq<Step<A, V>>)
    requires Shape(s) && Conserved(s) && s.loop.Draining? && Valid(s, run) && WithinDrain(run)
    ensures DrainedFrom(s, Exec(s, run))
    ensures LoopSteps(run) + RunCost(Exec(s, run)) + JobsCost(Exec(s, run).batch) <= RunCost(s) + JobsCost(s.batch)
    ensures Enabled(Exec(s, run), EndDrain) ==>
      Exec(s, run).started == s.started + s.batch == FromQueue(Exec(s, run).done)
    decreases |run|
  {
    if run != [] {
      var a := run[0];
      assert WithinDrain(run[1..]) by {
        assert forall k :: 0 <= k < |run| - 1 ==> run[1..][k] == run[k + 1];
      }
      DrainStep(s, a);
      DrainRunsTheSwappedJobs(Next(s, a), run[1..]);
      DrainedTrans(s, Next(s, a), Exec(s, run));
    }
  }

  ghost predicate DrainedFrom<A, V>(s: State<A, V>, s': State<A, V>) {
    && s'.loop.Draining?
    && s'.started + s'.batch == s.started + s.batch
    && s.started <= s'.started
    && s.log <= s'.log && s'.queue == s.queue + s'.log[|s.log|..]
  }

  lemma DrainedTrans<A, V>(s: State<A, V>, n: State<A, V>, s': State<A, V>)
    requires DrainedFrom(s, n) && DrainedFrom(n, s')
    ensures DrainedFrom(s, s')
  {
  }

  lemma DrainStep<A, V>(s: State<A, V>, a: Step<A, V>)
    requires Shape(s) && Conserved(s) && Enabled(s, a) && s.loop.Draining? && !a.EndDrain?
    ensures Shape(Next(s, a)) && Conserved(Next(s, a)) && DrainedFrom(s, Next(s, a))
    ensures var s' := Next(s, a);
      (if a.OnLoop() then 1 else 0) + RunCost(s') + JobsCost(s'.batch) <= RunCost(s) + JobsCost(s.batch)
  {
    ShapeKept(s, a);
    ConservedKept(s, a);
    DrainStepMoves(s, a);
    DrainStepCosts(s, a);
  }

  lemma DrainStepMoves<A, V>(s: State<A, V>, a: Step<A, V>)
    requires Control(s) && Enabled(s, a) && s.loop.Draining? && !a.EndDrain?
    ensures DrainedFrom(s, Next(s, a))
  {
    var s' := Next(s, a);
    assert s'.queue == s.queue + Pushed(s, a) && s'.log == s.log + Pushed(s, a);
    assert s'.log[|s.log|..] == Pushed(s, a);
    if a.StartJob? {
      assert s.started + s.batch == (s.started + [s.batch[0]]) + s.batch[1..];
    }
  }

  lemma DrainStepCosts<A, V>(s: State<A, V>, a: Step<A, V>)
    requires Control(s) && Enabled(s, a) && s.loop.Draining? && !a.EndDrain?
    ensures var s' := Next(s, a);
      (if a.OnLoop() then 1 else 0) + RunCost(s') + JobsCost(s'.batch) <= RunCost(s) + JobsCost(s.batch)
  {
    if a.Micro? && !EndsBody(s, a) {
      WorkCosts(s, a);
      WorkFrame(s);
    }
  }

  /** From any reachable state: a drain runs the jobs found at the swap and nothing else, in at most as many loop steps
  as they cost, and until its end there is always one the loop thread can take, however much the jobs and the other
  threads push meanwhile; all of that is what the queue holds then. */
  lemma DrainIsExact<A, V>(init: A, before: seq<Step<A, V>>, run: seq<Step<A, V>>)
    requires Valid(Start(init), before) && Enabled(Exec(Start(init), before), Swap)
    requires Valid(Next(Exec(Start(init), before), Swap), run) && WithinDrain(run)
    ensures var s, s' := Exec(Start(init), before), Exec(Next(Exec(Start(init), before), Swap), run);
      && LoopSteps(run) <= JobsCost(s.queue)
      && s.log <= s'.log && s'.queue == s'.log[|s.log|..]
      && (Enabled(s', EndDrain) ==> s'.started == s.started + s.queue == FromQueue(s'.done))
      && (s'.alive ==> Enabled(s', Micro) || Enabled(s', StartJob) || Enabled(s', EndDrain))
  {
    ReachableShape(init, before);
    DrainFromSwap(Exec(Start(init), before), run);
  }

  lemma DrainFromSwap<A, V>(s: State<A, V>, run: seq<Step<A, V>>)
    requires Shape(s) && Conserved(s) && Enabled(s, Swap) && Valid(Next(s, Swap), run) && WithinDrain(run)
    ensures var s' := Exec(Next(s, Swap), run);
      && LoopSteps(run) <= JobsCost(s.queue)
      && s.log <= s'.log && s'.queue == s'.log[|s.log|..]
      && (Enabled(s', EndDrain) ==> s'.started == s.started + s.queue == FromQueue(s'.done))
      && (s'.alive ==> Enabled(s', Micro) || Enabled(s', StartJob) || Enabled(s', EndDrain))
  {
    ShapeKept(s, Swap);
    ConservedKept(s, Swap);
    DrainRunsTheSwappedJobs(Next(s, Swap), run);
    DrainMoves(Exec(Next(s, Swap), run));
    assert s.run.None?;
  }

  lemma DrainMoves<A, V>(s: State<A, V>)
    requires s.loop.Draining?
    ensures s.alive ==> Enabled(s, Micro) || Enabled(s, StartJob) || Enabled(s, EndDrain)
  {
  }
}
