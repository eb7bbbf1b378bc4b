/** `call_get` is linearizable.

The single order is the order in which bodies end on the loop thread (`done`).  `Replay` runs them in that order, one
at a time, with the plain meaning `Eval`.  `CallGetIsLinearizable` says, of every reachable state: each body ended the
way the replay says, each `call_get` that returned did so with the outcome of its own body in that order, and a call
that returned before another one began comes first.
*/
module Linearizability {
  import opened Basics
  import opened Programs
  import opened EventLoop
  import opened EventLoopInvariant

  // ---------------------------------------------------------------------------------------------
  // The sequential reference

  function Replay<A, V>(init: A, done: seq<Done<A, V>>): A {
    if done == [] then init
    else Eval(done[|done| - 1].job.code, Replay(init, done[..|done| - 1])).app
  }

  /** The bodies the replay posts, in order. */
  function ReplayPosts<A, V>(init: A, done: seq<Done<A, V>>): seq<Code<A, V>> {
    if done == [] then []
    else
      var before := done[..|done| - 1];
      ReplayPosts(init, before) + Eval(done[|done| - 1].job.code, Replay(init, before)).posted
  }

  ghost predicate Sequential<A, V>(init: A, done: seq<Done<A, V>>) {
    forall k :: 0 <= k < |done| ==> done[k].out == Eval(done[k].job.code, Replay(init, done[..k])).out
  }

  /** The bodies that the loop thread itself pushed. */
  function LoopPosts<A, V>(log: seq<Job<A, V>>): seq<Code<A, V>> {
    if log == [] then []
    else
      var j := log[|log| - 1];
      LoopPosts(log[..|log| - 1]) + if j.owner == LOOP_THREAD then [j.code] else []
  }

  lemma LoopPostsSnoc<A, V>(log: seq<Job<A, V>>, j: Job<A, V>)
    ensures LoopPosts(log + [j]) == LoopPosts(log) + if j.owner == LOOP_THREAD then [j.code] else []
  {
  }

  // ---------------------------------------------------------------------------------------------
  // The state means what the replay computes, also in the middle of a body

  function Sent<A, V>(s: State<A, V>): seq<Code<A, V>> {
    if s.run.Some? then s.run.value.sent else []
  }

  ghost predicate Meaning<A, V>(init: A, s: State<A, V>) {
    && Sequential(init, s.done)
    && LoopPosts(s.log) == ReplayPosts(init, s.done) + Sent(s)
    && if s.run.None? then s.app == Replay(init, s.done)
       else Eval(s.run.value.job.code, Replay(init, s.done)) == Prepend(s.run.value.sent, Unwind(s.Config()))
  }

  lemma MeaningKept<A, V>(init: A, s: State<A, V>, a: Step<A, V>)
    requires Shape(s) && Meaning(init, s) && Enabled(s, a)
    ensures Meaning(init, Next(s, a))
  {
    match a
    case Enqueue(t) =>
      LoopPostsSnoc(s.log, PcOf(s, t).job);
    case Micro =>
      if s.Config().Final() && !s.run.value.signal {
        MeaningOfFinish(init, s);
      } else {
        MeaningOfWork(init, s);
      }
    case StartJob => MeaningOfFresh(init, s, s.batch[0]);
    case Handle(_, _) => MeaningOfFresh(init, s, Next(s, a).run.value.job);
    case _ => assert Next(s, a).run == s.run && Next(s, a).app == s.app && Next(s, a).done == s.done;
  }

  lemma MeaningOfFresh<A, V>(init: A, s: State<A, V>, j: Job<A, V>)
    requires Meaning(init, s) && s.run.None?
    ensures Eval(j.code, s.app) == Prepend([], Unwind(Programs.Config(j.code, [], s.app)))
  {
  }

  /** One more body at the end of the order. */
  lemma SequentialSnoc<A, V>(init: A, done: seq<Done<A, V>>, d: Done<A, V>)
    requires Sequential(init, done) && d.out == Eval(d.job.code, Replay(init, done)).out
    ensures Sequential(init, done + [d])
    ensures Replay(init, done + [d]) == Eval(d.job.code, Replay(init, done)).app
    ensures ReplayPosts(init, done + [d]) == ReplayPosts(init, done) + Eval(d.job.code, Replay(init, done)).posted
  {
    var done' := done + [d];
    assert done'[..|done|] == done;
    forall k | 0 <= k < |done'|
      ensures done'[k].out == Eval(done'[k].job.code, Replay(init, done'[..k])).out
    {
      if k < |done| {
        assert done'[..k] == done[..k];
      }
    }
  }

  lemma MeaningOfFinish<A, V>(init: A, s: State<A, V>)
    requires Meaning(init, s) && s.run.Some? && s.Config().Final()
    ensures Meaning(init, Finish(s))
  {
    var d := Done(s.run.value.job, s.Config().Result());
    var u := Unwind(s.Config());
    assert u == Effect(s.app, d.out, []);
    assert s.run.value.sent + [] == s.run.value.sent;
    SequentialSnoc(init, s.done, d);
  }

  lemma PrependTwice<A, V>(x: seq<Code<A, V>>, y: seq<Code<A, V>>, e: Effect<A, V>)
    ensures Prepend(x, Prepend(y, e)) == Prepend(x + y, e)
  {
  }

  lemma MeaningOfWork<A, V>(init: A, s: State<A, V>)
    requires Meaning(init, s) && s.run.Some? && (s.run.value.signal || !s.Config().Final())
    ensures Meaning(init, Work(s))
  {
    var r := s.run.value;
    if !r.signal {
      var c := s.Config();
      AdvanceKeepsMeaning(c);
      PrependTwice(r.sent, Posted(c), Unwind(Advance(c)));
      var s' := Work(s);
      assert s'.Config() == Advance(c) && s'.run.value.job == r.job;
      assert s'.run.value.sent == r.sent + Posted(c);
      PostsOfWork(init, s);
    }
  }

  lemma PostsOfWork<A, V>(init: A, s: State<A, V>)
    requires LoopPosts(s.log) == ReplayPosts(init, s.done) + Sent(s)
    requires s.run.Some? && !s.run.value.signal && !s.Config().Final()
    ensures LoopPosts(Work(s).log) == ReplayPosts(init, s.done) + Sent(Work(s))
  {
    var r := s.run.value;
    if r.code.CallSoon? {
      LoopPostsSnoc(s.log, Job(s.nextId, LOOP_THREAD, Soon, r.code.later));
      var x := ReplayPosts(init, s.done);
      assert (x + r.sent) + [r.code.later] == x + (r.sent + [r.code.later]);
    }
  }

  // ---------------------------------------------------------------------------------------------
  // What the foreign threads see

  ghost predicate HasBegun<A, V>(s: State<A, V>, j: Job<A, V>) {
    exists i :: 0 <= i < |s.history| && s.history[i].Began? && s.history[i].job == j
  }

  ghost predicate EndedBefore<A, V>(s: State<A, V>, j: Job<A, V>, out: Outcome<V>, n: nat) {
    exists k :: 0 <= k < n <= |s.done| && s.done[k] == Done(j, out)
  }

  ghost predicate Seen<A, V>(s: State<A, V>) {
    && (forall i, k :: 0 <= i <= k < |s.history| ==> s.history[i].at <= s.history[k].at <= |s.done|)
    && (forall i, k | 0 <= i < |s.history| && 0 <= k < |s.done| && s.history[i].Began? ::
          s.done[k].job == s.history[i].job ==> s.history[i].at <= k)
    && (forall i :: 0 <= i < |s.history| && s.history[i].Returned? ==>
          EndedBefore(s, s.history[i].job, s.history[i].out, s.history[i].at) && HasBegun(s, s.history[i].job))
    && (forall t :: !PcOf(s, t).Idle? ==> HasBegun(s, PcOf(s, t).job))
    && (forall j :: j in All(s) + s.log && j.owner != LOOP_THREAD ==> HasBegun(s, j))
  }

  lemma BegunStays<A, V>(s: State<A, V>, a: Step<A, V>)
    requires Enabled(s, a)
    ensures forall j :: HasBegun(s, j) ==> HasBegun(Next(s, a), j)
    ensures a.Enter? ==> HasBegun(Next(s, a), PcAfter(s, a).job)
  {
    var s' := Next(s, a);
    forall j | HasBegun(s, j)
      ensures HasBegun(s', j)
    {
      var i :| 0 <= i < |s.history| && s.history[i].Began? && s.history[i].job == j;
      assert s'.history[i] == s.history[i];
    }
    if a.Enter? {
      assert s'.history[|s.history|].Began?;
    }
  }

  lemma SeenKept<A, V>(s: State<A, V>, a: Step<A, V>)
    requires Shape(s) && Identified(s) && Owned(s) && Seen(s) && Enabled(s, a)
    ensures Seen(Next(s, a))
  {
    ReturnsSeen(s, a);
    BeginsSeen(s, a);
    CallsSeen(s, a);
    JobsSeen(s, a);
    StampsKept(s, a);
  }

  /** `at` never falls along the history. */
  lemma StampsKept<A, V>(s: State<A, V>, a: Step<A, V>)
    requires Seen(s) && Enabled(s, a)
    ensures var s' := Next(s, a);
      forall i, k :: 0 <= i <= k < |s'.history| ==> s'.history[i].at <= s'.history[k].at <= |s'.done|
  {
    HistoryAfter(s, a);
    assert forall i :: 0 <= i < |s.history| ==> s.history[i].at <= |s.done|;
  }

  lemma CallsSeen<A, V>(s: State<A, V>, a: Step<A, V>)
    requires Seen(s) && Enabled(s, a)
    ensures forall t :: !PcOf(Next(s, a), t).Idle? ==> HasBegun(Next(s, a), PcOf(Next(s, a), t).job)
  {
    BegunStays(s, a);
    OthersStay(s, a);
  }

  /** The only call whose job a step adds is the one that pushes. */
  lemma JobsAfter<A, V>(s: State<A, V>, a: Step<A, V>)
    requires Control(s) && Enabled(s, a)
    ensures forall j :: j in All(Next(s, a)) + Next(s, a).log && j.owner != LOOP_THREAD ==>
      j in All(s) + s.log || (a.Enqueue? && j == PcOf(s, a.t).job)
  {
    AllAfter(s, a);
    assert Next(s, a).log == s.log + Pushed(s, a);
    assert a.Handle? ==> forall j :: j in Current(Next(s, a)) ==> j.owner == LOOP_THREAD;
  }

  lemma JobsSeen<A, V>(s: State<A, V>, a: Step<A, V>)
    requires Control(s) && Seen(s) && Enabled(s, a)
    ensures forall j :: j in All(Next(s, a)) + Next(s, a).log && j.owner != LOOP_THREAD ==> HasBegun(Next(s, a), j)
  {
    BegunStays(s, a);
    JobsAfter(s, a);
  }

  lemma ReturnsSeen<A, V>(s: State<A, V>, a: Step<A, V>)
    requires Shape(s) && Identified(s) && Owned(s) && Seen(s) && Enabled(s, a)
    ensures var s' := Next(s, a); forall i :: 0 <= i < |s'.history| && s'.history[i].Returned? ==>
          EndedBefore(s', s'.history[i].job, s'.history[i].out, s'.history[i].at) && HasBegun(s', s'.history[i].job)
  {
    var s' := Next(s, a);
    BegunStays(s, a);
    HistoryAfter(s, a);
    forall i | 0 <= i < |s'.history| && s'.history[i].Returned?
      ensures EndedBefore(s', s'.history[i].job, s'.history[i].out, s'.history[i].at)
      ensures HasBegun(s', s'.history[i].job)
    {
      if i < |s.history| {
        assert s'.history[i] == s.history[i];
        EndedBeforeStays(s, s', s.history[i]);
      } else {
        ResumeSeen(s, a.t);
      }
    }
  }

  lemma EndedBeforeStays<A, V>(s: State<A, V>, s': State<A, V>, e: Event<A, V>)
    requires e.Returned? && EndedBefore(s, e.job, e.out, e.at) && s.done <= s'.done
    ensures EndedBefore(s', e.job, e.out, e.at)
  {
  }

  lemma ResumeSeen<A, V>(s: State<A, V>, t: nat)
    requires Shape(s) && Owned(s) && Enabled(s, Resume(t))
    ensures var j := PcOf(s, t).job; EndedBefore(Next(s, Resume(t)), j, s.promises[j.id], |s.done|)
  {
  }

  lemma BeginsSeen<A, V>(s: State<A, V>, a: Step<A, V>)
    requires Shape(s) && Identified(s) && Seen(s) && Enabled(s, a)
    ensures var s' := Next(s, a); forall i, k |
      0 <= i < |s'.history| && 0 <= k < |s'.done| && s'.history[i].Began? ::
      s'.done[k].job == s'.history[i].job ==> s'.history[i].at <= k
  {
    var s' := Next(s, a);
    forall k | 0 <= k < |s.done|
      ensures s.done[k].job.id < s.nextId
    {
      assert All(s)[k] == s.done[k].job;
    }
    HistoryAfter(s, a);
    forall i | 0 <= i < |s'.history| && s'.history[i].Began?
      ensures forall k :: 0 <= k < |s'.done| && s'.done[k].job == s'.history[i].job ==> s'.history[i].at <= k
    {
      if i < |s.history| {
        assert s'.history[i] == s.history[i];
        assert s.history[i].at <= |s.done|;
      } else {
        assert s'.done == s.done;
      }
    }
  }

  // ---------------------------------------------------------------------------------------------
  // Program order

  ghost predicate InProgramOrder<A, V>(s: State<A, V>) {
    && (forall i, k :: 0 <= i < k < |s.log| && s.log[i].owner == s.log[k].owner ==> s.log[i].id < s.log[k].id)
    && Distinct(s.log)
    && (forall i :: 0 <= i < |s.log| ==> s.log[i].id < s.nextId)
    && (forall t, i :: PcOf(s, t).Entered? && 0 <= i < |s.log| ==>
          s.log[i].id != PcOf(s, t).job.id && (s.log[i].owner == t ==> s.log[i].id < PcOf(s, t).job.id))
  }

  lemma ProgramOrderKept<A, V>(s: State<A, V>, a: Step<A, V>)
    requires Shape(s) && Identified(s) && InProgramOrder(s) && Enabled(s, a)
    ensures InProgramOrder(Next(s, a))
  {
    LogGrows(s, a);
    var s' := Next(s, a);
    var n := |s.log|;
    if |s'.log| == n {
      assert s'.log == s.log;
    } else {
      assert forall i :: 0 <= i < n ==> s'.log[i] == s.log[i];
      assert s'.log[n] == Pushed(s, a)[0];
    }
    EnteredLast(s, a);
  }

  /** The log grows by the pushed job, whose id is new and larger than those its thread used before. */
  lemma LogGrows<A, V>(s: State<A, V>, a: Step<A, V>)
    requires Shape(s) && Identified(s) && InProgramOrder(s) && Enabled(s, a)
    ensures Next(s, a).log == s.log + Pushed(s, a)
    ensures Pushed(s, a) != [] ==> Pushed(s, a)[0].id < Next(s, a).nextId
    ensures Pushed(s, a) != [] ==> forall i :: 0 <= i < |s.log| ==>
      && s.log[i].id != Pushed(s, a)[0].id
      && (s.log[i].owner == Pushed(s, a)[0].owner ==> s.log[i].id < Pushed(s, a)[0].id)
    ensures s.nextId <= Next(s, a).nextId
  {
  }

  lemma EnteredLast<A, V>(s: State<A, V>, a: Step<A, V>)
    requires Shape(s) && Identified(s) && InProgramOrder(s) && Enabled(s, a)
    ensures var s' := Next(s, a); forall t, i :: PcOf(s', t).Entered? && 0 <= i < |s'.log| ==>
      s'.log[i].id != PcOf(s', t).job.id && (s'.log[i].owner == t ==> s'.log[i].id < PcOf(s', t).job.id)
  {
    OthersStay(s, a);
    LogGrows(s, a);
    var s' := Next(s, a);
    forall t, i | PcOf(s', t).Entered? && 0 <= i < |s'.log|
      ensures s'.log[i].id != PcOf(s', t).job.id
      ensures s'.log[i].owner == t ==> s'.log[i].id < PcOf(s', t).job.id
    {
      if a.Enter? && t == a.t {
        assert s'.log == s.log;
      } else {
        assert PcOf(s', t) == PcOf(s, t);
      }
    }
  }

  // ---------------------------------------------------------------------------------------------
  // Every reachable state

  ghost predicate Inv<A, V>(init: A, s: State<A, V>) {
    && Shape(s) && Conserved(s) && WakeupPending(s) && Identified(s) && Owned(s)
    && Meaning(init, s) && Seen(s) && InProgramOrder(s)
  }

  lemma InvKept<A, V>(init: A, s: State<A, V>, a: Step<A, V>)
    requires Inv(init, s) && Enabled(s, a)
    ensures Inv(init, Next(s, a))
  {
    ShapeKept(s, a);
    ConservedKept(s, a);
    WakeupKept(s, a);
    IdentifiedKept(s, a);
    OwnedKept(s, a);
    MeaningKept(init, s, a);
    SeenKept(s, a);
    ProgramOrderKept(s, a);
  }

  lemma {:induction false} InvOnRuns<A, V>(init: A, s: State<A, V>, run: seq<Step<A, V>>)
    requires Inv(init, s) && Valid(s, run)
    ensures Inv(init, Exec(s, run))
    decreases |run|
  {
    if run != [] {
      InvKept(init, s, run[0]);
      InvOnRuns(init, Next(s, run[0]), run[1..]);
    }
  }

  lemma StartInv<A, V>(init: A)
    ensures Inv<A, V>(init, Start(init))
  {
    StartHolds<A, V>(init);
    StartMeans<A, V>(init);
    StartSeen<A, V>(init);
    StartOrdered<A, V>(init);
  }

  lemma StartHolds<A, V>(init: A)
    ensures var s: State<A, V> := Start(init); Shape(s) && Conserved(s) && WakeupPending(s) && Identified(s) && Owned(s)
  {
    var s: State<A, V> := Start(init);
    assert All(s) == [] && s.log == [];
  }

  lemma StartMeans<A, V>(init: A)
    ensures Meaning<A, V>(init, Start(init))
  {
  }

  lemma StartSeen<A, V>(init: A)
    ensures Seen<A, V>(Start(init))
  {
    var s: State<A, V> := Start(init);
    assert All(s) + s.log == [] && s.history == [] && s.done == [];
    assert forall t :: PcOf(s, t).Idle?;
  }

  lemma StartOrdered<A, V>(init: A)
    ensures InProgramOrder<A, V>(Start(init))
  {
    var s: State<A, V> := Start(init);
    assert s.log == [];
  }

  lemma {:induction false} Reachable<A, V>(init: A, run: seq<Step<A, V>>)
    requires Valid(Start(init), run)
    ensures Inv(init, Exec(Start(init), run))
  {
    StartInv<A, V>(init);
    InvOnRuns(init, Start(init), run);
  }

  // ---------------------------------------------------------------------------------------------
  // The theorems

  ghost predicate Linearizable<A, V>(init: A, s: State<A, V>) {
    // the order is a sequential execution of distinct bodies; those of calls have begun
    && (forall k :: 0 <= k < |s.done| ==> InSequence(init, s, k))
    // a returned call has a place in it, with the outcome it returned and before every call that began later
    && (forall i :: 0 <= i < |s.history| && s.history[i].Returned? ==> HasPlace(s, i))
  }

  ghost predicate InSequence<A, V>(init: A, s: State<A, V>, k: nat)
    requires k < |s.done|
  {
    && s.done[k].out == Eval(s.done[k].job.code, Replay(init, s.done[..k])).out
    && (forall i :: 0 <= i < k ==> s.done[i].job.id != s.done[k].job.id)
    && (s.done[k].job.owner != LOOP_THREAD ==> HasBegun(s, s.done[k].job))
  }

  ghost predicate HasPlace<A, V>(s: State<A, V>, i: nat)
    requires i < |s.history| && s.history[i].Returned?
  {
    exists k :: 0 <= k < |s.done| && s.done[k] == Done(s.history[i].job, s.history[i].out) && BeforeLater(s, i, k)
  }

  ghost predicate BeforeLater<A, V>(s: State<A, V>, i: int, k: int) {
    forall j, m | 0 <= i < j < |s.history| && s.history[j].Began? && 0 <= m < |s.done| ::
      s.done[m].job == s.history[j].job ==> k < m
  }

  /** In every interleaving. */
  lemma CallGetIsLinearizable<A, V>(init: A, run: seq<Step<A, V>>)
    requires Valid(Start(init), run)
    ensures Linearizable(init, Exec(Start(init), run))
  {
    Reachable(init, run);
    SeenIsLinearizable(init, Exec(Start(init), run));
  }

  lemma SeenIsLinearizable<A, V>(init: A, s: State<A, V>)
    requires Sequential(init, s.done) && Distinct(All(s)) && Seen(s)
    ensures Linearizable(init, s)
  {
    forall k | 0 <= k < |s.done|
      ensures InSequence(init, s, k)
    {
      assert All(s)[k] == s.done[k].job && s.done[k].job in All(s) + s.log;
      assert forall i :: 0 <= i < k ==> All(s)[i] == s.done[i].job;
    }
    forall i | 0 <= i < |s.history| && s.history[i].Returned?
      ensures HasPlace(s, i)
    {
      var e := s.history[i];
      assert EndedBefore(s, e.job, e.out, e.at);
      var k :| 0 <= k < e.at <= |s.done| && s.done[k] == Done(e.job, e.out);
      assert BeforeLater(s, i, k);
    }
  }

  /** No lost wakeup: a job in the queue is always on its way to being noticed. */
  lemma NoLostWakeup<A, V>(init: A, run: seq<Step<A, V>>)
    requires Valid(Start(init), run)
    ensures var s := Exec(Start(init), run);
      s.queue != [] ==>
        s.active || s.loop.Woken? || (s.run.Some? && s.run.value.signal) || exists t :: PcOf(s, t).Enqueued?
  {
    Reachable(init, run);
  }

  /** Jobs are neither lost nor run twice, start in lock order, and the submissions of one thread start in the order
  in which that thread made them. */
  lemma JobsConserved<A, V>(init: A, run: seq<Step<A, V>>)
    requires Valid(Start(init), run)
    ensures var s := Exec(Start(init), run);
      && s.log == s.started + s.batch + s.queue
      && s.started == FromQueue(s.done) + (if s.loop.Draining? then Current(s) else [])
      && (forall i, k :: 0 <= i < k < |s.log| ==> s.log[i].id != s.log[k].id)
      && (forall i, k :: 0 <= i < k < |s.log| && s.log[i].owner == s.log[k].owner ==> s.log[i].id < s.log[k].id)
      && (forall j :: j in s.log && j.owner != LOOP_THREAD ==> HasBegun(s, j))
  {
    Reachable(init, run);
    var s := Exec(Start(init), run);
    forall j | j in s.log && j.owner != LOOP_THREAD
      ensures HasBegun(s, j)
    {
      assert j in All(s) + s.log;
    }
  }

  ghost predicate Fatal<A, V>(d: Done<A, V>) {
    d.out.Threw? && (d.job.origin.Soon? || d.job.origin == Handler(false))
  }

  /** In every run the process is gone exactly if a bare job or an unguarded callback has thrown. */
  lemma ProcessDiesExactly<A, V>(init: A, run: seq<Step<A, V>>)
    requires Valid(Start(init), run)
    ensures var s := Exec(Start(init), run);
      !s.alive <==> exists k :: 0 <= k < |s.done| && Fatal(s.done[k])
  {
    DiesOnRuns(Start(init), run);
  }

  lemma {:induction false} DiesOnRuns<A, V>(s: State<A, V>, run: seq<Step<A, V>>)
    requires Valid(s, run) && (!s.alive <==> exists k :: 0 <= k < |s.done| && Fatal(s.done[k]))
    ensures var s' := Exec(s, run);
      !s'.alive <==> exists k :: 0 <= k < |s'.done| && Fatal(s'.done[k])
    decreases |run|
  {
    if run != [] {
      DiesInStep(s, run[0]);
      DiesOnRuns(Next(s, run[0]), run[1..]);
    }
  }

  lemma DiesInStep<A, V>(s: State<A, V>, a: Step<A, V>)
    requires Enabled(s, a) && forall k :: 0 <= k < |s.done| ==> !Fatal(s.done[k])
    ensures var s' := Next(s, a);
      !s'.alive <==> exists k :: 0 <= k < |s'.done| && Fatal(s'.done[k])
  {
    HistoryAfter(s, a);
    AliveAfter(s, a);
    var s' := Next(s, a);
    if Ending(s, a) != [] {
      assert s'.done[|s.done|] == Ending(s, a)[0];
    }
  }

  lemma AliveAfter<A, V>(s: State<A, V>, a: Step<A, V>)
    requires Enabled(s, a)
    ensures !Next(s, a).alive <==> Ending(s, a) != [] && Fatal(Ending(s, a)[0])
  {
  }

  /** What the loop thread posts is what the sequential replay posts. */
  lemma LoopPostsAreReplayed<A, V>(init: A, run: seq<Step<A, V>>)
    requires Valid(Start(init), run)
    ensures var s := Exec(Start(init), run);
      s.run.None? ==> LoopPosts(s.log) == ReplayPosts(init, s.done) && s.app == Replay(init, s.done)
  {
    Reachable(init, run);
  }
}
