/** The event loop as an object with a mutable queue.

Every method performs steps of the transition system and records them in `trace`, so that the state of the object is
reachable at every moment and what is proved about all reachable states holds of it (`Valid`).  In addition
`ProcessJobQueue` is proved against `Drain`, which says what one drain does without mentioning steps.
The interpreter `Invoke` uses plain recursion for `call` and `call_get` on the loop thread, where the transition system
has an explicit stack.
*/
module EventLoopObject {
  import opened Basics
  import opened Programs
  import opened EventLoop
  import opened EventLoopInvariant
  import Linearizability

  function Codes<A, V>(js: seq<Job<A, V>>): seq<Code<A, V>> {
    seq(|js|, i requires 0 <= i < |js| => js[i].code)
  }

  datatype Drained<!A, !V> = Drained(app: A, posted: seq<Code<A, V>>, promises: map<nat, Outcome<V>>, alive: bool)

  /** What draining `jobs` amounts to: they run in order, the answers go into the promises, and what they post is
  collected for later.  A bare job that throws ends the process. */
  function Drain<A, V>(jobs: seq<Job<A, V>>, app: A, promises: map<nat, Outcome<V>>): Drained<A, V> {
    if jobs == [] then Drained(app, [], promises, true)
    else
      var e := Eval(jobs[0].code, app);
      var promises' := if jobs[0].origin.Get? then promises[jobs[0].id := e.out] else promises;
      if e.out.Threw? && !jobs[0].origin.Get? then Drained(e.app, e.posted, promises', false)
      else
        var r := Drain(jobs[1..], e.app, promises');
        Drained(r.app, e.posted + r.posted, r.promises, r.alive)
  }

  class Loop<A, V> {
    var jobQueue: seq<Job<A, V>>
    var wakerActive: bool
    var app: A
    var promises: map<nat, Outcome<V>>
    var alive: bool
    var nextId: nat   // stands for the identity of a job and of the promise it refers to

    ghost var init: A
    ghost var trace: seq<Step<A, V>>
    ghost var state: State<A, V>

    /** The state is reachable, and it is the one this trace leads to. */
    ghost predicate Traced()
      reads this
    {
      EventLoop.Valid(Start(init), trace) && state == Exec(Start(init), trace)
    }

    ghost predicate Mirrored()
      reads this
    {
      && state.queue == jobQueue && state.active == wakerActive && state.promises == promises
      && state.alive == alive && state.nextId == nextId
    }

    ghost predicate Valid()
      reads this
    {
      Traced() && Mirrored() && state.app == app
    }

    constructor (app: A)
      ensures Valid() && init == app && trace == []
      ensures state == Start(app)
    {
      this.app, jobQueue, wakerActive, promises, alive, nextId := app, [], false, map[], true, 0;
      init, trace, state := app, [], Start(app);
    }

    /** Record a step. */
    ghost method Take(a: Step<A, V>)
      requires Traced() && Enabled(state, a)
      modifies this`trace, this`state
      ensures Traced()
      ensures trace == old(trace) + [a] && state == Next(old(state), a)
    {
      OneStep(state, a);
      ValidConcat(Start(init), trace, [a]);
      trace, state := trace + [a], Next(state, a);
    }

    /** `call_soon`, or the first half of `call_get`, on a foreign thread: push under the lock, then activate. */
    method Submit(t: nat, get: bool, code: Code<A, V>) returns (job: Job<A, V>)
      requires Valid() && alive && t != LOOP_THREAD && PcOf(state, t).Idle?
      modifies this
      ensures Valid() && init == old(init) && alive
      ensures trace == old(trace) + [Enter(t, get, code), Enqueue(t), Activate(t)]
      ensures job == Job(old(nextId), t, if get then Get else Soon, code)
      ensures jobQueue == old(jobQueue) + [job] && wakerActive && nextId == old(nextId) + 1
      ensures app == old(app) && promises == old(promises)
      ensures PcOf(state, t) == if get then Waiting(job) else Idle
    {
      job := Job(nextId, t, if get then Get else Soon, code);
      Take(Enter(t, get, code));
      nextId := nextId + 1;
      assert PcOf(state, t) == Entered(job);
      Push(t, job);
      Notify(t, job);
    }

    /** The critical section of `call_soon`. */
    method Push(t: nat, job: Job<A, V>)
      requires Valid() && alive && PcOf(state, t) == Entered(job)
      modifies this`jobQueue, this`trace, this`state
      ensures Valid() && trace == old(trace) + [Enqueue(t)]
      ensures jobQueue == old(jobQueue) + [job] && PcOf(state, t) == Enqueued(job)
    {
      Take(Enqueue(t));
      jobQueue := jobQueue + [job];
    }

    /** Its call of `event_active`. */
    method Notify(t: nat, job: Job<A, V>)
      requires Valid() && alive && PcOf(state, t) == Enqueued(job)
      modifies this`wakerActive, this`trace, this`state
      ensures Valid() && trace == old(trace) + [Activate(t)]
      ensures wakerActive && PcOf(state, t) == if job.origin.Get? then Waiting(job) else Idle
    {
      Take(Activate(t));
      wakerActive := true;
    }

    /** The second half of `call_get`: `fut.get()` returns once the promise of the caller's own job is set. */
    method Await(t: nat, job: Job<A, V>) returns (out: Outcome<V>)
      requires Valid() && alive && PcOf(state, t) == Waiting(job) && job.id in promises
      modifies this
      ensures Valid() && init == old(init) && trace == old(trace) + [Resume(t)]
      ensures out == old(promises)[job.id] && promises == old(promises) - {job.id}
      ensures PcOf(state, t).Idle?
      ensures jobQueue == old(jobQueue) && app == old(app) && wakerActive == old(wakerActive)
    {
      out := promises[job.id];
      Take(Resume(t));
      promises := promises - {job.id};
    }

    // ---------------------------------------------------------------------------------------------
    // The loop thread

    /** The running body is about to end or to hand its result to its caller. */
    ghost predicate AtResult(out: Outcome<V>, stack: seq<Frame<A, V>>)
      reads this
    {
      && state.run.Some? && !state.run.value.signal && state.run.value.stack == stack
      && (state.run.value.code.Return? || state.run.value.code.Throw?)
      && state.Config().Result() == out
    }

    ghost predicate About(code: Code<A, V>, stack: seq<Frame<A, V>>)
      reads this
    {
      && state.run.Some? && !state.run.value.signal
      && state.run.value.code == code && state.run.value.stack == stack
    }

    /** A step of the body that posts nothing; `app` has been updated before. */
    ghost method Advanced()
      requires Traced() && Mirrored() && alive
      requires state.run.Some? && !state.run.value.signal && !state.Config().Final()
      requires !state.run.value.code.CallSoon? && app == Advance(state.Config()).app
      modifies this`trace, this`state
      ensures Valid() && Same(old(state), state)
      ensures state.run.Some? && !state.run.value.signal && state.Config() == Advance(old(state.Config()))
    {
      Take(Micro);
    }

    /** `call_soon` on the loop thread. */
    method Post(later: Code<A, V>, next: Code<A, V>, ghost stack: seq<Frame<A, V>>)
      requires Valid() && alive && About(CallSoon(later, next), stack)
      modifies this
      ensures Valid() && init == old(init) && alive && About(next, stack)
      ensures app == old(app) && promises == old(promises) && Same(old(state), state)
      ensures jobQueue == old(jobQueue) + [Job(old(nextId), LOOP_THREAD, Soon, later)] && wakerActive
    {
      Take(Micro);
      jobQueue, nextId := jobQueue + [Job(nextId, LOOP_THREAD, Soon, later)], nextId + 1;
      assert state.run.value.signal && state.queue == jobQueue && state.nextId == nextId;
      Take(Micro);
      wakerActive := true;
    }

    /** Run `code` on the loop thread, to its result. */
    method Invoke(code: Code<A, V>, ghost stack: seq<Frame<A, V>>) returns (out: Outcome<V>)
      requires Valid() && alive && About(code, stack)
      modifies this
      ensures Valid() && init == old(init) && alive && AtResult(out, stack)
      ensures app == Eval(code, old(app)).app && out == Eval(code, old(app)).out
      ensures Grown(old(jobQueue), jobQueue, Eval(code, old(app)).posted)
      ensures promises == old(promises) && Same(old(state), state)
      decreases code, 1
    {
      match code
      case Return(result) =>
        out := Value(result(app));
      case Throw(what) =>
        out := Threw(what);
      case Update(f, next) =>
        app := f(app);
        Advanced();
        out := Invoke(next, stack);
      case Branch(test, yes, no) =>
        Advanced();
        if test(app) {
          out := Invoke(yes, stack);
        } else {
          out := Invoke(no, stack);
        }
      case CallSoon(later, next) =>
        Post(later, next, stack);
        ghost var mid := jobQueue;
        out := Invoke(next, stack);
        GrownTrans(old(jobQueue), mid, jobQueue, [later], Eval(next, old(app)).posted);
      case Call(now, next) =>
        out := InvokeCall(now, next, stack);
      case CallGet(asked, save, next) =>
        out := InvokeCallGet(asked, save, next, stack);
    }

    method InvokeCall(now: Code<A, V>, next: Code<A, V>, ghost stack: seq<Frame<A, V>>) returns (out: Outcome<V>)
      requires Valid() && alive && About(Call(now, next), stack)
      modifies this
      ensures Valid() && init == old(init) && alive && AtResult(out, stack)
      ensures var e := Eval(Call(now, next), old(app));
        app == e.app && out == e.out && Grown(old(jobQueue), jobQueue, e.posted)
      ensures promises == old(promises) && Same(old(state), state)
      decreases Call(now, next), 0
    {
      Advanced();
      out := Invoke(now, [AfterCall(next)] + stack);
      assert ([AfterCall(next)] + stack)[1..] == stack;
      Advanced();
      if out.Value? {
        ghost var mid, r := jobQueue, Eval(now, old(app));
        out := Invoke(next, stack);
        GrownTrans(old(jobQueue), mid, jobQueue, r.posted, Eval(next, r.app).posted);
      }
    }

    method InvokeCallGet(asked: Code<A, V>, save: (A, Outcome<V>) -> A, next: Code<A, V>, ghost stack: seq<Frame<A, V>>)
      returns (out: Outcome<V>)
      requires Valid() && alive && About(CallGet(asked, save, next), stack)
      modifies this
      ensures Valid() && init == old(init) && alive && AtResult(out, stack)
      ensures var e := Eval(CallGet(asked, save, next), old(app));
        app == e.app && out == e.out && Grown(old(jobQueue), jobQueue, e.posted)
      ensures promises == old(promises) && Same(old(state), state)
      decreases CallGet(asked, save, next), 0
    {
      Advanced();
      out := Invoke(asked, [AfterGet(save, next)] + stack);
      ghost var mid, r := jobQueue, Eval(asked, old(app));
      app := save(app, out);
      assert ([AfterGet(save, next)] + stack)[1..] == stack;
      Advanced();
      out := Invoke(next, stack);
      GrownTrans(old(jobQueue), mid, jobQueue, r.posted, Eval(next, save(r.app, r.out)).posted);
    }

    /** The body has ended with `out`. */
    ghost method EndBody(out: Outcome<V>)
      requires Valid() && alive && AtResult(out, [])
      modifies this`trace, this`state
      ensures Traced() && state == Finish(old(state)) && old(state).Config().Result() == out
    {
      Take(Micro);
    }

    /** One turn of the loop in `process_job_queue`: front, pop, run.  A `call_get` job catches everything and answers
    its promise; nothing catches what a bare job throws. */
    method RunJob(job: Job<A, V>)
      requires Valid() && alive && state.loop.Draining? && state.run.None?
      requires state.batch != [] && state.batch[0] == job && !job.origin.Handler?
      modifies this
      ensures Valid() && init == old(init)
      ensures var e := Eval(job.code, old(app));
        && app == e.app && Grown(old(jobQueue), jobQueue, e.posted)
        && promises == (if job.origin.Get? then old(promises)[job.id := e.out] else old(promises))
        && alive == (e.out.Value? || job.origin.Get?)
        && state.done == old(state.done) + [Done(job, e.out)]
      ensures state.loop.Draining? && state.run.None? && state.batch == old(state.batch)[1..]
      ensures state.started == old(state.started) + [job]
      ensures state.threads == old(state.threads)
    {
      Take(StartJob);
      var out := Invoke(job.code, []);
      EndBody(out);
      if job.origin.Get? {
        promises := promises[job.id := out];
      }
      alive := out.Value? || job.origin.Get?;
    }

    /** The critical section of `process_job_queue`. */
    method SwapQueue() returns (swapped: seq<Job<A, V>>)
      requires Valid() && alive && state.loop.Woken?
      modifies this
      ensures Valid() && alive && init == old(init) && swapped == old(jobQueue) && jobQueue == []
      ensures app == old(app) && promises == old(promises)
      ensures state.loop.Draining? && state.run.None? && state.batch == swapped
      ensures state.started == old(state.started) && state.threads == old(state.threads)
      ensures Jobs(swapped)
    {
      LoopIsFree();
      swapped := jobQueue;
      Take(Swap);
      jobQueue := [];
    }

    /** What is left of a drain that amounts to `total`. */
    ghost predicate Rest(swapped: seq<Job<A, V>>, total: Drained<A, V>)
      reads this
    {
      var d := Drain(swapped, app, promises);
      && d.app == total.app && d.promises == total.promises && d.alive == total.alive
      && Codes(jobQueue) + d.posted == total.posted
    }

    /** One turn of the loop in `process_job_queue`, seen from the whole drain. */
    method Turn(job: Job<A, V>, ghost swapped: seq<Job<A, V>>, ghost total: Drained<A, V>)
      requires Valid() && alive && state.loop.Draining? && state.run.None?
      requires state.batch == [job] + swapped && Jobs([job] + swapped) && Rest([job] + swapped, total)
      modifies this
      ensures Valid() && init == old(init) && state.run.None? && state.threads == old(state.threads)
      ensures state.loop.Draining? && state.batch == swapped && Jobs(swapped)
      ensures state.started == old(state.started) + [job]
      ensures alive ==> Rest(swapped, total)
      ensures !alive ==> total == Drained(app, Codes(jobQueue), promises, false)
    {
      ghost var before, app0 := jobQueue, app;
      assert ([job] + swapped)[1..] == swapped;
      DrainFront([job] + swapped, app, promises);
      RunJob(job);
      PostedAfter(before, jobQueue, Eval(job.code, app0).posted);
    }

    /** The waker's callback, from the moment libevent has entered it. */
    method ProcessJobQueue()
      requires Valid() && alive && state.loop.Woken?
      modifies this
      ensures Valid() && init == old(init)
      ensures Drained(app, Codes(jobQueue), promises, alive) == Drain(old(jobQueue), old(app), old(promises))
      ensures alive ==> state.loop.Dispatching? && state.started == old(state.started) + old(jobQueue)
      ensures state.run.None? && state.threads == old(state.threads)
    {
      var swappedQueue := SwapQueue();
      ghost var total := Drain(swappedQueue, app, promises);
      assert Codes(jobQueue) + total.posted == total.posted;
      while swappedQueue != []
        invariant Valid() && alive && init == old(init)
        invariant state.loop.Draining? && state.run.None? && state.batch == swappedQueue
        invariant Jobs(swappedQueue)
        invariant state.started + swappedQueue == old(state.started) + old(jobQueue)
        invariant state.threads == old(state.threads) && Rest(swappedQueue, total)
        decreases |swappedQueue|
      {
        var job := swappedQueue[0];
        assert swappedQueue == [job] + swappedQueue[1..];
        swappedQueue := swappedQueue[1..];
        OneMore(state.started, job, swappedQueue);
        Turn(job, swappedQueue, total);
        if !alive {
          return;
        }
      }
      Leave();
    }

    /** The batch is empty: back to libevent. */
    ghost method Leave()
      requires Valid() && alive && state.loop.Draining? && state.run.None? && state.batch == []
      modifies this`trace, this`state
      ensures Valid() && state.loop.Dispatching? && state.run.None?
      ensures state.started == old(state.started) && state.threads == old(state.threads)
    {
      Take(EndDrain);
    }

    /** Between callbacks nothing runs, and what is queued are jobs. */
    ghost method LoopIsFree()
      requires Valid() && state.loop.Woken?
      ensures state.run.None? && state.batch == []
      ensures Jobs(jobQueue)
    {
      Linearizability.Reachable(init, trace);
      forall j | j in state.queue
        ensures !j.origin.Handler?
      {
        assert j in state.log;
      }
    }

    /** libevent finds the waker active: it clears the mark and calls back. */
    method Dispatch()
      requires Valid() && alive && wakerActive && state.loop.Dispatching? && state.run.None?
      modifies this
      ensures Valid() && init == old(init)
      ensures Drained(app, Codes(jobQueue), promises, alive) == Drain(old(jobQueue), old(app), old(promises))
      ensures alive ==> state.loop.Dispatching? && state.started == old(state.started) + old(jobQueue)
      ensures state.run.None? && state.threads == old(state.threads)
    {
      Take(Wake);
      wakerActive := false;
      ProcessJobQueue();
    }
  }

  lemma OneMore<T>(x: seq<T>, t: T, y: seq<T>)
    ensures x + ([t] + y) == (x + [t]) + y
  {
  }

  ghost predicate Jobs<A, V>(js: seq<Job<A, V>>) {
    forall j :: j in js ==> !j.origin.Handler?
  }

  /** The queue has grown by jobs with these bodies. */
  ghost predicate Grown<A, V>(q: seq<Job<A, V>>, q': seq<Job<A, V>>, posted: seq<Code<A, V>>) {
    q <= q' && Codes(q'[|q|..]) == posted
  }

  lemma GrownTrans<A, V>(q: seq<Job<A, V>>, mid: seq<Job<A, V>>, q': seq<Job<A, V>>,
                         p: seq<Code<A, V>>, p': seq<Code<A, V>>)
    requires Grown(q, mid, p) && Grown(mid, q', p')
    ensures Grown(q, q', p + p')
  {
  }

  lemma PostedAfter<A, V>(q: seq<Job<A, V>>, q': seq<Job<A, V>>, posted: seq<Code<A, V>>)
    requires Grown(q, q', posted)
    ensures Codes(q') == Codes(q) + posted
  {
  }

  lemma DrainFront<A, V>(jobs: seq<Job<A, V>>, app: A, promises: map<nat, Outcome<V>>)
    requires jobs != []
    ensures var e, get := Eval(jobs[0].code, app), jobs[0].origin.Get?;
      var promises' := if get then promises[jobs[0].id := e.out] else promises;
      var d, r := Drain(jobs, app, promises), Drain(jobs[1..], e.app, promises');
      if e.out.Value? || get
      then d.app == r.app && d.promises == r.promises && d.alive == r.alive && d.posted == e.posted + r.posted
      else d == Drained(e.app, e.posted, promises', false)
  {
  }

  /** What a body leaves alone while it runs. */
  ghost predicate Same<A, V>(s: State<A, V>, s': State<A, V>) {
    && s'.run.Some? == s.run.Some? && (s.run.Some? ==> s'.run.value.job == s.run.value.job)
    && s'.batch == s.batch && s'.loop == s.loop && s'.started == s.started && s'.done == s.done
    && s'.threads == s.threads && s'.history == s.history
  }

  /** What is proved about reachable states holds of the object. */
  lemma ObjectIsLinearizable<A, V>(l: Loop<A, V>)
    requires l.Valid()
    ensures Linearizability.Linearizable(l.init, l.state)
    ensures l.jobQueue != [] ==> l.wakerActive || l.state.loop.Woken? || Signalling(l.state)
    ensures l.state.run.None? ==> l.app == Linearizability.Replay(l.init, l.state.done)
  {
    Linearizability.CallGetIsLinearizable(l.init, l.trace);
    Linearizability.Reachable(l.init, l.trace);
  }
}
