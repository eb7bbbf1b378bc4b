/** The job that `call_later` posts from a foreign thread, as a body of the event loop.

It reads the clock once and then either runs the hook or arms a one-shot timer; `Timers` goes on from there.
*/
module DeferredJobs {
  import opened Programs
  import opened EventLoop
  import opened EventLoopInvariant
  import opened Linearizability
  import opened Progress

  /** What the loop thread works on: the time its clock shows, the requests it has armed a timer for, those whose hook
  its jobs have run, and everything else. */
  datatype World<!X> = World(clock: int, armed: seq<nat>, ran: seq<nat>, rest: X)

  function LaterJob<X, V>(id: nat, target: int, hook: Code<World<X>, V>, done: World<X> -> V): Code<World<X>, V> {
    Branch((w: World<X>) => w.clock >= target,
           Update((w: World<X>) => w.(ran := w.ran + [id]), hook),
           Update((w: World<X>) => w.(armed := w.armed + [id]), Return(done)))
  }

  /** The job has found the world in state `w` and left it in state `w'`: on time or late it has run the hook, early it
  has armed the timer and done nothing else. */
  predicate Settles<X(==), V>(id: nat, target: int, hook: Code<World<X>, V>, w: World<X>, w': World<X>) {
    if w.clock >= target then w' == Eval(hook, w.(ran := w.ran + [id])).app
    else w' == w.(armed := w.armed + [id])
  }

  ghost predicate SettledAt<X, V>(
    init: World<X>, s: State<World<X>, V>, j: Job<World<X>, V>, id: nat, target: int, hook: Code<World<X>, V>, k: nat)
  {
    && k < |s.done| && s.done[k].job == j
    && Settles(id, target, hook, Replay(init, s.done[..k]), Replay(init, s.done[..k + 1]))
    // and never again
    && forall m :: 0 <= m < |s.done| && m != k ==> s.done[m].job != j
  }

  /** From any reachable state and over any continuation: after as many loop steps as its place in the queue costs, the
  job has run, once, and its request is armed or its hook has been run. */
  lemma RequestsAreSettled<X, V>(
    init: World<X>, before: seq<Step<World<X>, V>>, run: seq<Step<World<X>, V>>, i: nat,
    id: nat, target: int, hook: Code<World<X>, V>, done: World<X> -> V)
    requires Valid(Start(init), before) && Valid(Exec(Start(init), before), run)
    requires i < |Pending(Exec(Start(init), before))|
    requires Pending(Exec(Start(init), before))[i].code == LaterJob(id, target, hook, done)
    requires LoopSteps(run) >= Remaining(Exec(Start(init), before), i) + CallbackCost(run)
    ensures exists k :: SettledAt(init, Exec(Exec(Start(init), before), run), Pending(Exec(Start(init), before))[i],
                                  id, target, hook, k)
  {
    var j := Pending(Exec(Start(init), before))[i];
    BlockedCallersAreAnswered(init, before, run, i);
    ValidConcat(Start(init), before, run);
    Reachable(init, before + run);
    EndedIsSettled(init, Exec(Exec(Start(init), before), run), j, id, target, hook, done);
  }

  lemma EndedIsSettled<X, V>(
    init: World<X>, s: State<World<X>, V>, j: Job<World<X>, V>,
    id: nat, target: int, hook: Code<World<X>, V>, done: World<X> -> V)
    requires Distinct(All(s)) && Ended(s, j) && j.code == LaterJob(id, target, hook, done)
    ensures exists k :: SettledAt(init, s, j, id, target, hook, k)
  {
    var k :| 0 <= k < |s.done| && s.done[k].job == j;
    var w := Replay(init, s.done[..k]);
    assert s.done[..k + 1][..k] == s.done[..k];
    assert Replay(init, s.done[..k + 1]) == Eval(j.code, w).app;
    LaterJobSettles(id, target, hook, done, w);
    forall m | 0 <= m < |s.done| && m != k
      ensures s.done[m].job != j
    {
      assert All(s)[m] == s.done[m].job && All(s)[k] == s.done[k].job;
    }
    assert SettledAt(init, s, j, id, target, hook, k);
  }

  lemma LaterJobSettles<X, V>(id: nat, target: int, hook: Code<World<X>, V>, done: World<X> -> V, w: World<X>)
    ensures Settles(id, target, hook, w, Eval(LaterJob(id, target, hook, done), w).app)
  {
    var c := LaterJob(id, target, hook, done);
    assert Eval(c.no, w).app == Eval(c.no.next, w.(armed := w.armed + [id])).app;
  }
}
