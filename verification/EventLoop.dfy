/** `event_loop` as a transition system: any number of foreign threads and one loop thread.

Each constructor of `Step` is one action that is atomic in the program: a critical section of `job_queue_mutex`,
one call of `event_active`, one return of `fut.get()`, one callback dispatched by libevent, or one small step of the
body that runs on the loop thread.  A run is any sequence of enabled steps, so it is any interleaving.

What libevent contributes: `event_active` marks the waker, from any thread; the mark is cleared before the waker's
callback runs; callbacks run one at a time on the loop thread.
*/
module EventLoop {
  import opened Basics
  import opened Programs

  const LOOP_THREAD: nat := 0

  /** Where a body comes from.  `Soon` is a bare job, `Get` a job that `call_get` wrapped around a promise, and
  `Handler` any other libevent callback, with or without a `catch` of its own. */
  datatype Origin = Soon | Get | Handler(guarded: bool)

  datatype Job<!A, !V> = Job(id: nat, owner: nat, origin: Origin, code: Code<A, V>)

  /** Where a foreign thread is inside `call_soon` or `call_get`. */
  datatype Pc<!A, !V> =
    | Idle
    | Entered(job: Job<A, V>)    // the call has begun, the lock is not yet taken
    | Enqueued(job: Job<A, V>)   // pushed, `event_active` not yet called
    | Waiting(job: Job<A, V>)    // inside `fut.get()`

  datatype LoopPc =
    | Dispatching   // inside libevent
    | Woken         // the waker's callback was entered, the queue is not yet swapped
    | Draining      // inside the `while` of `process_job_queue`

  /** The body on the loop thread.  `sent` are the bodies it has posted; `signal` says that it is between the push
  and the `event_active` of a `call_soon`. */
  datatype Running<!A, !V> = Running(
    job: Job<A, V>, code: Code<A, V>, stack: seq<Frame<A, V>>, sent: seq<Code<A, V>>, signal: bool)

  datatype Done<!A, !V> = Done(job: Job<A, V>, out: Outcome<V>)

  /** What the foreign threads see of a call: its begin and its return, of a `call_soon` (`Left`) or of a `call_get`
  (`Returned`).  `at` counts the bodies that had ended by then and `logged` the jobs that had been pushed. */
  datatype Event<!A, !V> =
    | Began(job: Job<A, V>, at: nat, logged: nat)
    | Left(job: Job<A, V>, at: nat, logged: nat)
    | Returned(job: Job<A, V>, out: Outcome<V>, at: nat, logged: nat)

  datatype State<!A, !V> = State(
    threads: map<nat, Pc<A, V>>,
    queue: seq<Job<A, V>>,
    batch: seq<Job<A, V>>,
    active: bool,
    loop: LoopPc,
    run: Option<Running<A, V>>,
    app: A,
    promises: map<nat, Outcome<V>>,
    alive: bool,
    // history only
    nextId: nat,
    log: seq<Job<A, V>>,
    started: seq<Job<A, V>>,
    done: seq<Done<A, V>>,
    history: seq<Event<A, V>>)
  {
    function Config(): Config<A, V>
      requires run.Some?
    {
      Programs.Config(run.value.code, run.value.stack, app)
    }
  }

  function Start<A, V>(app: A): State<A, V> {
    State(map[], [], [], false, Dispatching, None, app, map[], true, 0, [], [], [], [])
  }

  function PcOf<A, V>(s: State<A, V>, t: nat): Pc<A, V> {
    if t in s.threads then s.threads[t] else Idle
  }

  datatype Step<!A, !V> =
    | Enter(t: nat, get: bool, code: Code<A, V>)
    | Enqueue(t: nat)
    | Activate(t: nat)
    | Resume(t: nat)
    | Wake
    | Swap
    | StartJob
    | Micro
    | EndDrain
    | Handle(guarded: bool, code: Code<A, V>)
  {
    /** Taken by the loop thread, as opposed to a foreign thread. */
    predicate OnLoop() {
      Wake? || Swap? || StartJob? || Micro? || EndDrain? || Handle?
    }
  }

  predicate Enabled<A, V>(s: State<A, V>, a: Step<A, V>) {
    s.alive &&
    match a
    case Enter(t, _, _) => t != LOOP_THREAD && PcOf(s, t).Idle?
    case Enqueue(t) => PcOf(s, t).Entered?
    case Activate(t) => PcOf(s, t).Enqueued?
    case Resume(t) => PcOf(s, t).Waiting? && PcOf(s, t).job.id in s.promises
    case Wake => s.loop.Dispatching? && s.run.None? && s.active
    case Swap => s.loop.Woken?
    case StartJob => s.loop.Draining? && s.run.None? && s.batch != []
    case Micro => s.run.Some?
    case EndDrain => s.loop.Draining? && s.run.None? && s.batch == []
    case Handle(_, _) => s.loop.Dispatching? && s.run.None?
  }

  function Next<A, V>(s: State<A, V>, a: Step<A, V>): State<A, V>
    requires Enabled(s, a)
  {
    match a
    case Enter(t, get, code) =>
      var j := Job(s.nextId, t, if get then Get else Soon, code);
      s.(threads := s.threads[t := Entered(j)], nextId := s.nextId + 1,
         history := s.history + [Began(j, |s.done|, |s.log|)])
    case Enqueue(t) =>
      var j := PcOf(s, t).job;
      s.(threads := s.threads[t := Enqueued(j)], queue := s.queue + [j], log := s.log + [j])
    case Activate(t) =>
      var j := PcOf(s, t).job;
      var s' := s.(active := true);
      if j.origin.Get? then s'.(threads := s.threads[t := Waiting(j)])
      else s'.(threads := s.threads[t := Idle], history := s.history + [Left(j, |s.done|, |s.log|)])
    case Resume(t) =>
      var j := PcOf(s, t).job;
      s.(threads := s.threads[t := Idle], promises := s.promises - {j.id},
         history := s.history + [Returned(j, s.promises[j.id], |s.done|, |s.log|)])
    case Wake => s.(active := false, loop := Woken)
    case Swap => s.(loop := Draining, batch := s.queue, queue := [])
    case StartJob =>
      s.(batch := s.batch[1..], started := s.started + [s.batch[0]], run := Some(Fresh(s.batch[0])))
    case Micro => if s.Config().Final() && !s.run.value.signal then Finish(s) else Work(s)
    case EndDrain => s.(loop := Dispatching)
    case Handle(guarded, code) =>
      s.(run := Some(Fresh(Job(s.nextId, LOOP_THREAD, Handler(guarded), code))), nextId := s.nextId + 1)
  }

  function Fresh<A, V>(j: Job<A, V>): Running<A, V> {
    Running(j, j.code, [], [], false)
  }

  /** The body ends.  A `call_get` job stores its result or its exception in the promise; nothing catches what a
  bare job or an unguarded callback throws, so the process is terminated. */
  function Finish<A, V>(s: State<A, V>): State<A, V>
    requires s.run.Some? && s.Config().Final()
  {
    var j := s.run.value.job;
    var out := s.Config().Result();
    s.(run := None,
       done := s.done + [Done(j, out)],
       promises := if j.origin.Get? then s.promises[j.id := out] else s.promises,
       alive := out.Value? || j.origin.Get? || j.origin == Handler(true))
  }

  /** A small step of the body; a `call_soon` on the loop thread is two of them, like one on any other thread. */
  function Work<A, V>(s: State<A, V>): State<A, V>
    requires s.run.Some? && (s.run.value.signal || !s.Config().Final())
  {
    var r := s.run.value;
    if r.signal then
      s.(active := true, run := Some(r.(signal := false)))
    else
      var c := Advance(s.Config());
      var s' := s.(app := c.app, run := Some(r.(code := c.code, stack := c.stack)));
      if r.code.CallSoon? then
        var j := Job(s.nextId, LOOP_THREAD, Soon, r.code.later);
        s'.(run := Some(s'.run.value.(signal := true, sent := r.sent + [r.code.later])),
            queue := s.queue + [j], log := s.log + [j], nextId := s.nextId + 1)
      else
        s'
  }

  predicate Valid<A, V>(s: State<A, V>, run: seq<Step<A, V>>)
    decreases |run|
  {
    run == [] || (Enabled(s, run[0]) && Valid(Next(s, run[0]), run[1..]))
  }

  function Exec<A, V>(s: State<A, V>, run: seq<Step<A, V>>): State<A, V>
    requires Valid(s, run)
    decreases |run|
  {
    if run == [] then s else Exec(Next(s, run[0]), run[1..])
  }

  lemma OneStep<A, V>(s: State<A, V>, a: Step<A, V>)
    requires Enabled(s, a)
    ensures Valid(s, [a]) && Exec(s, [a]) == Next(s, a)
  {
  }

  lemma {:induction false} ValidConcat<A, V>(s: State<A, V>, r1: seq<Step<A, V>>, r2: seq<Step<A, V>>)
    requires Valid(s, r1) && Valid(Exec(s, r1), r2)
    ensures Valid(s, r1 + r2) && Exec(s, r1 + r2) == Exec(Exec(s, r1), r2)
    decreases |r1|
  {
    if r1 == [] {
      assert r1 + r2 == r2;
    } else {
      ValidConcat(Next(s, r1[0]), r1[1..], r2);
      assert (r1 + r2)[1..] == r1[1..] + r2;
    }
  }
}
