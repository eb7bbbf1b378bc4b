/** Objects whose `shared_ptr` came from `event_loop::make_shared` (deleter `loop_deleter`) or
`event_loop::shared_ptr` (deleter `wrapped_deleter`).

`std::shared_ptr` calls the deleter once, on the thread that drops the last reference; that call is the release here.
On a foreign thread `loop_deleter` is `call_soon` and `wrapped_deleter` is `call_get` of the destruction; on the loop
thread `call` and `call_get` run it inline, in the middle of whatever body drops the reference.  All of this happens in
the transition system of `EventLoop`, among any other calls.  "Destroyed" means that the `delete`, or the callable given
to `shared_ptr`, has begun; it may go on to release other objects, and it may throw.
*/
module Destruction {
  import opened Basics
  import opened Programs
  import opened EventLoop
  import opened EventLoopInvariant
  import opened Linearizability
  import opened Progress

  /** What the loop thread works on: the objects destroyed so far, and everything else. */
  datatype World<!X> = World(destroyed: seq<nat>, rest: X)

  type Body<!X, !V> = Code<World<X>, V>

  type LoopState<!X, !V> = State<World<X>, V>

  type Run<!X, !V> = seq<Step<World<X>, V>>

  function Mark<X>(o: nat): World<X> -> World<X> {
    (w: World<X>) => w.(destroyed := w.destroyed + [o])
  }

  ghost predicate IsMark<X>(f: World<X> -> World<X>) {
    exists o :: f == Mark<X>(o)
  }

  /** The destruction of `o`: it is gone, then the rest of the deleter runs. */
  ghost predicate Deletes<X(!new), V(!new)>(c: Body<X, V>, o: nat) {
    c.Update? && c.f == Mark<X>(o) && Plain(c.next)
  }

  ghost predicate KeepsDestroyed<X(!new)>(f: World<X> -> World<X>) {
    forall w :: f(w).destroyed == w.destroyed
  }

  ghost predicate SavesDestroyed<X(!new), V(!new)>(save: (World<X>, Outcome<V>) -> World<X>) {
    forall w, out :: save(w, out).destroyed == w.destroyed
  }

  /** Any other body: it destroys nothing itself, but it may drop last references, inline. */
  ghost predicate Plain<X(!new), V(!new)>(c: Body<X, V>) {
    match c
    case Return(_) => true
    case Throw(_) => true
    case Update(f, next) => KeepsDestroyed(f) && Plain(next)
    case Branch(_, yes, no) => Plain(yes) && Plain(no)
    case CallSoon(later, next) => Plain(later) && Plain(next)
    case Call(now, next) => (Plain(now) || (now.Update? && IsMark(now.f) && Plain(now.next))) && Plain(next)
    case CallGet(asked, save, next) =>
      && (Plain(asked) || (asked.Update? && IsMark(asked.f) && Plain(asked.next)))
      && SavesDestroyed(save) && Plain(next)
  }

  /** Any body, or the destruction of one object. */
  ghost predicate Proper<X(!new), V(!new)>(c: Body<X, V>) {
    Plain(c) || (c.Update? && IsMark(c.f) && Plain(c.next))
  }

  /** A body is the destruction of one object, or of none. */
  lemma DeletesOne<X(!new), V(!new)>(c: Body<X, V>, w: World<X>)
    ensures forall o, p :: Deletes(c, o) && Deletes(c, p) ==> o == p
    ensures Plain(c) ==> forall o :: !Deletes(c, o)
  {
    forall o, p | Deletes(c, o) && Deletes(c, p)
      ensures o == p
    {
      assert c.f(w).destroyed == w.destroyed + [o] == w.destroyed + [p];
      assert (w.destroyed + [o])[|w.destroyed|] == o;
    }
    assert Plain(c) && c.Update? ==> c.f(w).destroyed == w.destroyed;
    assert forall o :: Deletes(c, o) ==> |c.f(w).destroyed| == |w.destroyed| + 1;
  }

  // ---------------------------------------------------------------------------------------------
  // Programs of this kind stay of this kind

  ghost predicate Calm<X(!new), V(!new)>(f: Frame<World<X>, V>) {
    Plain(f.next) && (f.AfterGet? ==> SavesDestroyed(f.save))
  }

  ghost predicate Tame<X(!new), V(!new)>(s: LoopState<X, V>) {
    && (forall t :: !PcOf(s, t).Idle? ==> Proper(PcOf(s, t).job.code))
    && (forall j :: j in s.batch + s.queue ==> Proper(j.code))
    && (s.run.Some? ==> Proper(s.run.value.code) && forall f :: f in s.run.value.stack ==> Calm(f))
  }

  /** Foreign threads submit such bodies; a libevent callback is never a deletion itself. */
  ghost predicate TameStep<X(!new), V(!new)>(a: Step<World<X>, V>) {
    (a.Enter? ==> Proper(a.code)) && (a.Handle? ==> Plain(a.code))
  }

  ghost predicate TameRun<X(!new), V(!new)>(run: Run<X, V>) {
    forall i :: 0 <= i < |run| ==> TameStep(run[i])
  }

  lemma AdvanceTame<X(!new), V(!new)>(c: Config<World<X>, V>)
    requires Proper(c.code) && !c.Final() && forall f :: f in c.stack ==> Calm(f)
    ensures Proper(Advance(c).code) && forall f :: f in Advance(c).stack ==> Calm(f)
    ensures c.code.Return? || c.code.Throw? || c.code.CallSoon? ==> Plain(Advance(c).code)
    ensures forall later :: later in Posted(c) ==> Plain(later)
  {
    if c.code.Return? || c.code.Throw? {
      assert Calm(c.stack[0]);
    }
  }

  lemma TameKept<X(!new), V(!new)>(s: LoopState<X, V>, a: Step<World<X>, V>)
    requires Control(s) && Tame(s) && TameStep(a) && Enabled(s, a)
    ensures Tame(Next(s, a))
  {
    CallsTame(s, a);
    JobsTame(s, a);
    if a.Micro? && !s.run.value.signal && !s.Config().Final() {
      AdvanceTame(s.Config());
    }
  }

  lemma CallsTame<X(!new), V(!new)>(s: LoopState<X, V>, a: Step<World<X>, V>)
    requires Tame(s) && TameStep(a) && Enabled(s, a)
    ensures forall t :: !PcOf(Next(s, a), t).Idle? ==> Proper(PcOf(Next(s, a), t).job.code)
  {
    OthersStay(s, a);
  }

  lemma JobsTame<X(!new), V(!new)>(s: LoopState<X, V>, a: Step<World<X>, V>)
    requires Control(s) && Tame(s) && TameStep(a) && Enabled(s, a)
    ensures forall j :: j in Next(s, a).batch + Next(s, a).queue ==> Proper(j.code)
  {
    assert forall j :: j in Next(s, a).batch + Next(s, a).queue ==> j in s.batch + s.queue || j in Pushed(s, a);
    if a.Micro? && !s.run.value.signal && !s.Config().Final() {
      AdvanceTame(s.Config());
    }
  }

  // ---------------------------------------------------------------------------------------------
  // What is destroyed, and when

  /** Objects are destroyed one at a time, and only by a step of the body that runs on the loop thread: the one with
  which the destruction begins. */
  lemma DestroyedAfter<X(!new), V(!new)>(s: LoopState<X, V>, a: Step<World<X>, V>)
    requires Tame(s) && Enabled(s, a)
    ensures forall o :: a.Micro? && Deletes(s.run.value.code, o) && !s.run.value.signal ==>
      Next(s, a).app.destroyed == s.app.destroyed + [o]
    ensures !a.Micro? || s.run.value.signal || Plain(s.run.value.code) ==> Next(s, a).app.destroyed == s.app.destroyed
  {
    if a.Micro? && !s.run.value.signal && (s.run.value.code.Return? || s.run.value.code.Throw?) && !s.Config().Final() {
      assert Calm(s.run.value.stack[0]);
    }
  }

  lemma DestroyedGrows<X(!new), V(!new)>(s: LoopState<X, V>, a: Step<World<X>, V>)
    requires Tame(s) && Enabled(s, a)
    ensures s.app.destroyed <= Next(s, a).app.destroyed
  {
    DestroyedAfter(s, a);
  }

  /** A body that is not a deletion only adds to what is destroyed, and a deletion has its object destroyed. */
  lemma {:induction false} EvalGrows<X(!new), V(!new)>(c: Body<X, V>, w: World<X>)
    requires Proper(c)
    ensures w.destroyed <= Eval(c, w).app.destroyed
    ensures forall o :: Deletes(c, o) ==> o in Eval(c, w).app.destroyed
    decreases c
  {
    match c
    case Return(_) =>
    case Throw(_) =>
    case Update(f, next) =>
      EvalGrows(next, f(w));
      assert forall o :: Deletes(c, o) ==> f(w).destroyed[|w.destroyed|] == o;
    case Branch(test, yes, no) => EvalGrows(if test(w) then yes else no, w);
    case CallSoon(_, next) => EvalGrows(next, w);
    case Call(now, next) =>
      EvalGrows(now, w);
      EvalGrows(next, Eval(now, w).app);
    case CallGet(asked, save, next) =>
      var e := Eval(asked, w);
      EvalGrows(asked, w);
      EvalGrows(next, save(e.app, e.out));
  }

  /** The object of a deletion that has ended is destroyed. */
  ghost predicate Gone<X(!new), V(!new)>(s: LoopState<X, V>) {
    forall k, o :: 0 <= k < |s.done| && Deletes(s.done[k].job.code, o) ==> o in s.app.destroyed
  }

  lemma GoneKept<X(!new), V(!new)>(init: World<X>, s: LoopState<X, V>, a: Step<World<X>, V>)
    requires Tame(s) && Meaning(init, s) && Gone(s) && Enabled(s, a)
    ensures Gone(Next(s, a))
  {
    HistoryAfter(s, a);
    DestroyedGrows(s, a);
    if Ending(s, a) != [] {
      EndedIsGone(init, s);
    }
    var s' := Next(s, a);
    forall k, o | 0 <= k < |s'.done| && Deletes(s'.done[k].job.code, o)
      ensures o in s'.app.destroyed
    {
      assert k < |s.done| ==> s'.done[k] == s.done[k];
    }
  }

  lemma EndedIsGone<X(!new), V(!new)>(init: World<X>, s: LoopState<X, V>)
    requires Meaning(init, s) && s.run.Some? && s.Config().Final()
    ensures forall o :: Deletes(s.run.value.job.code, o) ==> o in s.app.destroyed
  {
    var c := s.run.value.job.code;
    assert Unwind(s.Config()).app == s.app == Eval(c, Replay(init, s.done)).app;
    forall o | Deletes(c, o)
      ensures o in s.app.destroyed
    {
      EvalGrows(c, Replay(init, s.done));
    }
  }

  // ---------------------------------------------------------------------------------------------
  // Releases are neither lost nor repeated

  /** The deleter of `o` is called by this step: on a foreign thread, or by the body on the loop thread. */
  ghost predicate Releases<X(!new), V(!new)>(s: LoopState<X, V>, a: Step<World<X>, V>, o: nat) {
    || (a.Enter? && Deletes(a.code, o))
    || (a.Micro? && s.run.Some? && !s.run.value.signal && ReleasesInline(s.run.value.code, o))
  }

  ghost predicate ReleasesInline<X(!new), V(!new)>(c: Body<X, V>, o: nat) {
    (c.Call? && Deletes(c.now, o)) || (c.CallGet? && Deletes(c.asked, o))
  }

  ghost function ReleaseCount<X(!new), V(!new)>(s: LoopState<X, V>, run: Run<X, V>, o: nat): nat
    requires EventLoop.Valid(s, run)
    decreases |run|
  {
    if run == [] then 0
    else (if Releases(s, run[0], o) then 1 else 0) + ReleaseCount(Next(s, run[0]), run[1..], o)
  }

  /** The threads that have called the deleter of `o` and not yet pushed its job. */
  ghost function Entering<X(!new), V(!new)>(s: LoopState<X, V>, o: nat): set<nat> {
    set t | t in s.threads.Keys && s.threads[t].Entered? && Deletes(s.threads[t].job.code, o)
  }

  ghost function Queued<X(!new), V(!new)>(js: seq<Job<World<X>, V>>, o: nat): nat {
    if js == [] then 0 else (if Deletes(js[0].code, o) then 1 else 0) + Queued(js[1..], o)
  }

  ghost function AtWork<X(!new), V(!new)>(s: LoopState<X, V>, o: nat): nat {
    if s.run.Some? && Deletes(s.run.value.code, o) then 1 else 0
  }

  /** A release is on its way to the queue, in the queue or the batch, about to be run, or done. */
  ghost function Account<X(!new), V(!new)>(s: LoopState<X, V>, o: nat): nat {
    |Entering(s, o)| + Queued(s.batch + s.queue, o) + AtWork(s, o) + multiset(s.app.destroyed)[o]
  }

  lemma {:induction false} QueuedConcat<X(!new), V(!new)>(x: seq<Job<World<X>, V>>, y: seq<Job<World<X>, V>>, o: nat)
    ensures Queued(x + y, o) == Queued(x, o) + Queued(y, o)
  {
    if x == [] {
      assert x + y == y;
    } else {
      QueuedConcat(x[1..], y, o);
      assert (x + y)[1..] == x[1..] + y;
    }
  }

  lemma EnteringMeans<X(!new), V(!new)>(s: LoopState<X, V>, o: nat, t: nat)
    ensures t in Entering(s, o) <==> PcOf(s, t).Entered? && Deletes(PcOf(s, t).job.code, o)
  {
  }

  lemma EnteringAt<X(!new), V(!new)>(s: LoopState<X, V>, a: Step<World<X>, V>, o: nat, t: nat)
    requires Enabled(s, a)
    ensures t in Entering(Next(s, a), o) <==>
      if MovesThread(a) && t == a.t then a.Enter? && Deletes(a.code, o) else t in Entering(s, o)
    ensures MovesThread(a) && t == a.t ==>
      (t in Entering(s, o) <==> a.Enqueue? && Deletes(PcOf(s, t).job.code, o))
  {
    OthersStay(s, a);
    EnteringMeans(s, o, t);
    EnteringMeans(Next(s, a), o, t);
    assert PcOf(Next(s, a), t) == if MovesThread(a) && t == a.t then PcAfter(s, a) else PcOf(s, t);
  }

  lemma EnteringAfter<X(!new), V(!new)>(s: LoopState<X, V>, a: Step<World<X>, V>, o: nat)
    requires Enabled(s, a)
    ensures |Entering(Next(s, a), o)| == |Entering(s, o)| +
      (if a.Enter? && Deletes(a.code, o) then 1
       else if a.Enqueue? && Deletes(PcOf(s, a.t).job.code, o) then -1 else 0)
  {
    var before, after := Entering(s, o), Entering(Next(s, a), o);
    forall t
      ensures t in after <==> if MovesThread(a) && t == a.t then a.Enter? && Deletes(a.code, o) else t in before
      ensures MovesThread(a) && t == a.t ==> (t in before <==> a.Enqueue? && Deletes(PcOf(s, t).job.code, o))
    {
      EnteringAt(s, a, o, t);
    }
    if MovesThread(a) {
      OneMoves(before, after, a.t);
    } else {
      assert after == before;
    }
  }

  lemma OneMoves(before: set<nat>, after: set<nat>, t: nat)
    requires forall u :: u != t ==> (u in before <==> u in after)
    ensures |after| - |before| == (if t in after then 1 else 0) - (if t in before then 1 else 0)
  {
    assert after - {t} == before - {t};
    assert t in after ==> after == (after - {t}) + {t};
    assert t in before ==> before == (before - {t}) + {t};
  }

  lemma QueuedAfter<X(!new), V(!new)>(s: LoopState<X, V>, a: Step<World<X>, V>, o: nat)
    requires Control(s) && Tame(s) && Enabled(s, a)
    ensures Queued(Next(s, a).batch + Next(s, a).queue, o) == Queued(s.batch + s.queue, o) +
      (if a.Enqueue? && Deletes(PcOf(s, a.t).job.code, o) then 1
       else if a.StartJob? && Deletes(s.batch[0].code, o) then -1 else 0)
  {
    WaitingAfter(s, a);
    if !a.StartJob? {
      QueuedConcat(s.batch + s.queue, Pushed(s, a), o);
      PushedIsNoDeletion(s, a, o);
    }
  }

  lemma WaitingAfter<A, V>(s: State<A, V>, a: Step<A, V>)
    requires Control(s) && Enabled(s, a)
    ensures var s' := Next(s, a);
      if a.StartJob? then s.batch + s.queue == [s.batch[0]] + (s'.batch + s'.queue)
      else s'.batch + s'.queue == (s.batch + s.queue) + Pushed(s, a)
  {
    match a
    case Enqueue(_) =>
    case Micro =>
      if !s.Config().Final() || s.run.value.signal {
        assert Work(s).queue == s.queue + Pushed(s, a) && Work(s).batch == s.batch;
      }
    case _ =>
  }

  /** `call_soon` on the loop thread never posts a deletion: there the deleters run it at once. */
  lemma PushedIsNoDeletion<X(!new), V(!new)>(s: LoopState<X, V>, a: Step<World<X>, V>, o: nat)
    requires Tame(s) && Enabled(s, a)
    ensures Queued(Pushed(s, a), o) == if a.Enqueue? && Deletes(PcOf(s, a.t).job.code, o) then 1 else 0
  {
    if a.Micro? && Pushed(s, a) != [] {
      DeletesOne(s.run.value.code.later, s.app);
    }
  }

  lemma WorkAfter<X(!new), V(!new)>(s: LoopState<X, V>, a: Step<World<X>, V>, o: nat)
    requires Control(s) && Tame(s) && TameStep(a) && Enabled(s, a)
    ensures AtWork(Next(s, a), o) + multiset(Next(s, a).app.destroyed)[o] ==
      AtWork(s, o) + multiset(s.app.destroyed)[o] +
      (if a.StartJob? && Deletes(s.batch[0].code, o) then 1
       else if a.Micro? && Releases(s, a, o) then 1 else 0)
  {
    DestroyedAfter(s, a);
    match a
    case Handle(_, code) => DeletesOne(code, s.app);
    case StartJob => assert Next(s, a).run.value.code == s.batch[0].code;
    case Micro =>
      if !s.run.value.signal && !s.Config().Final() {
        WorkAfterMicro(s, o);
      }
    case _ => assert Next(s, a).run == s.run;
  }

  ghost function Balance<X(!new), V(!new)>(c: Config<World<X>, V>, o: nat): nat {
    (if Deletes(c.code, o) then 1 else 0) + multiset(c.app.destroyed)[o]
  }

  lemma WorkAfterMicro<X(!new), V(!new)>(s: LoopState<X, V>, o: nat)
    requires Tame(s) && Enabled(s, Micro) && !s.run.value.signal && !s.Config().Final()
    ensures AtWork(Next(s, Micro), o) + multiset(Next(s, Micro).app.destroyed)[o] ==
      AtWork(s, o) + multiset(s.app.destroyed)[o] + if ReleasesInline(s.run.value.code, o) then 1 else 0
  {
    BalanceAfter(s.Config(), o);
    assert Next(s, Micro).Config() == Advance(s.Config());
  }

  /** One small step of a body: an inline release adds one, and the destruction moves it from the code to the list. */
  lemma BalanceAfter<X(!new), V(!new)>(c: Config<World<X>, V>, o: nat)
    requires Proper(c.code) && !c.Final() && forall f :: f in c.stack ==> Calm(f)
    ensures Balance(Advance(c), o) == Balance(c, o) + if ReleasesInline(c.code, o) then 1 else 0
  {
    var d := Advance(c);
    DeletesOne(c.code, c.app);
    DeletesOne(d.code, c.app);
    if c.code.Update? {
      BalanceOfUpdate(c, o);
    } else {
      assert Plain(c.code);
      if c.code.Return? || c.code.Throw? {
        assert Calm(c.stack[0]);
      }
      assert d.app.destroyed == c.app.destroyed;
    }
  }

  lemma BalanceOfUpdate<X(!new), V(!new)>(c: Config<World<X>, V>, o: nat)
    requires Proper(c.code) && c.code.Update?
    ensures Balance(Advance(c), o) == Balance(c, o)
  {
    DeletesOne(c.code, c.app);
    DeletesOne(c.code.next, c.app);
    assert Plain(c.code.next);
    if !Plain(c.code) {
      var p :| c.code.f == Mark<X>(p);
      assert Deletes(c.code, p) && Advance(c).app.destroyed == c.app.destroyed + [p];
    }
  }

  lemma AccountAfter<X(!new), V(!new)>(s: LoopState<X, V>, a: Step<World<X>, V>, o: nat)
    requires Control(s) && Tame(s) && TameStep(a) && Enabled(s, a)
    ensures Account(Next(s, a), o) == Account(s, o) + if Releases(s, a, o) then 1 else 0
  {
    EnteringAfter(s, a, o);
    QueuedAfter(s, a, o);
    WorkAfter(s, a, o);
  }

  // ---------------------------------------------------------------------------------------------
  // Runs

  ghost predicate Ready<X(!new), V(!new)>(init: World<X>, s: LoopState<X, V>) {
    Inv(init, s) && Tame(s) && Gone(s)
  }

  lemma TameTail<X(!new), V(!new)>(run: Run<X, V>)
    requires TameRun(run) && run != []
    ensures TameStep(run[0]) && TameRun(run[1..])
  {
  }

  lemma ReadyKept<X(!new), V(!new)>(init: World<X>, s: LoopState<X, V>, a: Step<World<X>, V>)
    requires Ready(init, s) && TameStep(a) && Enabled(s, a)
    ensures Ready(init, Next(s, a))
  {
    InvKept(init, s, a);
    TameKept(s, a);
    GoneKept(init, s, a);
  }

  lemma {:induction false} ReadyOnRuns<X(!new), V(!new)>(init: World<X>, s: LoopState<X, V>, run: Run<X, V>, o: nat)
    requires Ready(init, s) && EventLoop.Valid(s, run) && TameRun(run)
    ensures Ready(init, Exec(s, run))
    ensures Account(Exec(s, run), o) == Account(s, o) + ReleaseCount(s, run, o)
    ensures s.app.destroyed <= Exec(s, run).app.destroyed
    decreases |run|
  {
    if run != [] {
      var a := run[0];
      TameTail(run);
      ReadyKept(init, s, a);
      AccountAfter(s, a, o);
      DestroyedGrows(s, a);
      ReadyOnRuns(init, Next(s, a), run[1..], o);
    }
  }

  lemma StartReady<X(!new), V(!new)>(x: X)
    ensures Ready<X, V>(World([], x), Start(World([], x)))
    ensures forall o :: Account<X, V>(Start(World([], x)), o) == 0
  {
    StartInv<World<X>, V>(World([], x));
    var s: LoopState<X, V> := Start(World([], x));
    assert s.batch + s.queue == [];
    assert forall o :: Entering(s, o) == {};
  }

  ghost predicate Reached<X(!new), V(!new)>(x: X, s: LoopState<X, V>) {
    exists run :: EventLoop.Valid(Start(World([], x)), run) && TameRun(run) && Exec(Start(World([], x)), run) == s
  }

  lemma {:induction false} ReachedIsReady<X(!new), V(!new)>(x: X, s: LoopState<X, V>)
    requires Reached(x, s)
    ensures Ready(World([], x), s)
  {
    var run :| EventLoop.Valid(Start(World([], x)), run) && TameRun(run) && Exec(Start(World([], x)), run) == s;
    StartReady<X, V>(x);
    ReadyOnRuns(World([], x), Start(World([], x)), run, 0);
  }

  // ---------------------------------------------------------------------------------------------
  // The theorems

  ghost predicate Disciplined<X(!new), V(!new)>(s: LoopState<X, V>, o: nat, released: nat) {
    // every release is accounted for, so an object is destroyed at most as often as it was released
    && Account(s, o) == released
    && multiset(s.app.destroyed)[o] <= released
    // and as often once nothing is on its way
    && (EventLoopInvariant.Pending(s) == [] && (forall t :: !PcOf(s, t).Entered?) ==>
          multiset(s.app.destroyed)[o] == released)
    // a `wrapped_deleter` that has returned has its object destroyed
    && (forall i :: 0 <= i < |s.history| && s.history[i].Returned? && Deletes(s.history[i].job.code, o) ==>
          o in s.app.destroyed)
  }

  /** In every interleaving. */
  lemma {:induction false} DestructionDiscipline<X(!new), V(!new)>(x: X, run: Run<X, V>, o: nat)
    requires EventLoop.Valid(Start(World([], x)), run) && TameRun(run)
    ensures Disciplined(Exec(Start(World([], x)), run), o, ReleaseCount(Start(World([], x)), run, o))
  {
    StartReady<X, V>(x);
    DisciplineFrom(World([], x), Start(World([], x)), run, o);
  }

  lemma DisciplineFrom<X(!new), V(!new)>(init: World<X>, s: LoopState<X, V>, run: Run<X, V>, o: nat)
    requires Ready(init, s) && Account(s, o) == 0 && EventLoop.Valid(s, run) && TameRun(run)
    ensures Disciplined(Exec(s, run), o, ReleaseCount(s, run, o))
  {
    ReadyOnRuns(init, s, run, o);
    ReadyIsDisciplined(init, Exec(s, run), o);
  }

  lemma ReadyIsDisciplined<X(!new), V(!new)>(init: World<X>, s: LoopState<X, V>, o: nat)
    requires Ready(init, s)
    ensures Disciplined(s, o, Account(s, o))
  {
    forall i | 0 <= i < |s.history| && s.history[i].Returned? && Deletes(s.history[i].job.code, o)
      ensures o in s.app.destroyed
    {
      ReturnedIsGone(s, s.history[i], o);
    }
    if EventLoopInvariant.Pending(s) == [] && (forall t :: !PcOf(s, t).Entered?) {
      assert s.batch + s.queue == [] && s.run.None?;
      assert Entering(s, o) == {} by {
        assert forall t :: t in Entering(s, o) ==> PcOf(s, t).Entered?;
      }
    }
  }

  /** The promise is set only after the body, and the body is the deletion. */
  lemma ReturnedIsGone<X(!new), V(!new)>(s: LoopState<X, V>, e: Event<World<X>, V>, o: nat)
    requires Gone(s) && e.Returned? && EndedBefore(s, e.job, e.out, e.at) && Deletes(e.job.code, o)
    ensures o in s.app.destroyed
  {
    var k :| 0 <= k < e.at <= |s.done| && s.done[k] == Done(e.job, e.out);
    assert s.done[k].job == e.job;
  }

  /** Answered within a bound: a deletion that is pending in a reachable state has begun after as many steps of the loop
  thread as its position and the bodies before it cost. */
  lemma ReleasedIsDestroyedInTime<X(!new), V(!new)>(x: X, s: LoopState<X, V>, run: Run<X, V>, i: nat, o: nat)
    requires Reached(x, s) && EventLoop.Valid(s, run) && TameRun(run)
    requires i < |EventLoopInvariant.Pending(s)| && Deletes(EventLoopInvariant.Pending(s)[i].code, o)
    requires LoopSteps(run) >= Remaining(s, i) + CallbackCost(run)
    ensures o in Exec(s, run).app.destroyed
  {
    ReachedIsReady(x, s);
    DestroyedInTime(World([], x), s, run, i, o);
  }

  lemma DestroyedInTime<X(!new), V(!new)>(init: World<X>, s: LoopState<X, V>, run: Run<X, V>, i: nat, o: nat)
    requires Ready(init, s) && EventLoop.Valid(s, run) && TameRun(run)
    requires i < |EventLoopInvariant.Pending(s)| && Deletes(EventLoopInvariant.Pending(s)[i].code, o)
    requires LoopSteps(run) >= Remaining(s, i) + CallbackCost(run)
    ensures o in Exec(s, run).app.destroyed
  {
    ReadyOnRuns(init, s, run, o);
    AnsweredFrom(s, run, i);
    EndedDeletionIsGone(Exec(s, run), EventLoopInvariant.Pending(s)[i], o);
  }

  lemma EndedDeletionIsGone<X(!new), V(!new)>(s: LoopState<X, V>, j: Job<World<X>, V>, o: nat)
    requires Gone(s) && Ended(s, j) && Deletes(j.code, o)
    ensures o in s.app.destroyed
  {
    var k :| 0 <= k < |s.done| && s.done[k].job == j;
    assert s.done[k].job == j;
  }

  ghost predicate Releasing<X(!new), V(!new)>(s: LoopState<X, V>, o: nat) {
    s.run.Some? && !s.run.value.signal && ReleasesInline(s.run.value.code, o)
  }

  ghost predicate Begins<X(!new), V(!new)>(s: LoopState<X, V>, o: nat) {
    s.run.Some? && !s.run.value.signal && Deletes(s.run.value.code, o)
  }

  /** On the loop thread the object is destroyed at once, with either deleter: the second step of the loop thread from
  the release on begins the destruction, whatever other threads do in between; no job is needed. */
  lemma LoopReleaseIsImmediate<X(!new), V(!new)>(x: X, s: LoopState<X, V>, run: Run<X, V>, o: nat)
    requires Reached(x, s) && EventLoop.Valid(s, run) && TameRun(run)
    requires Releasing(s, o) && LoopSteps(run) >= 2
    ensures o in Exec(s, run).app.destroyed
  {
    ReachedIsReady(x, s);
    SoonDestroyed(World([], x), s, run, o);
  }

  lemma {:induction false} SoonDestroyed<X(!new), V(!new)>(init: World<X>, s: LoopState<X, V>, run: Run<X, V>, o: nat)
    requires Ready(init, s) && EventLoop.Valid(s, run) && TameRun(run)
    requires (Releasing(s, o) && LoopSteps(run) >= 2) || (Begins(s, o) && LoopSteps(run) >= 1)
    ensures o in Exec(s, run).app.destroyed
    decreases |run|
  {
    var a, rest := run[0], run[1..];
    TameTail(run);
    ReadyKept(init, s, a);
    ImmediateStep(s, a, o);
    if a.OnLoop() && Begins(s, o) {
      ReadyOnRuns(init, Next(s, a), rest, o);
    } else {
      SoonDestroyed(init, Next(s, a), rest, o);
    }
  }

  lemma ImmediateStep<X(!new), V(!new)>(s: LoopState<X, V>, a: Step<World<X>, V>, o: nat)
    requires Control(s) && Tame(s) && Enabled(s, a) && (Releasing(s, o) || Begins(s, o))
    ensures a.OnLoop() ==> a.Micro? && Pushed(s, a) == []
    ensures a.OnLoop() && Begins(s, o) ==> o in Next(s, a).app.destroyed
    ensures a.OnLoop() && Releasing(s, o) ==> Begins(Next(s, a), o)
    ensures !a.OnLoop() ==> Next(s, a).run == s.run
  {
    DestroyedAfter(s, a);
  }

  // ---------------------------------------------------------------------------------------------
  // `loop_deleter` on a foreign thread promises neither order

  lemma Extend<A, V>(s: State<A, V>, run: seq<Step<A, V>>, a: Step<A, V>)
    requires EventLoop.Valid(s, run) && Enabled(Exec(s, run), a)
    ensures EventLoop.Valid(s, run + [a]) && Exec(s, run + [a]) == Next(Exec(s, run), a)
  {
    OneStep(Exec(s, run), a);
    ValidConcat(s, run, [a]);
  }

  /** It may return while the object still exists, */
  lemma LoopDeleterMayReturnEarly<X(!new), V(!new)>(x: X, t: nat, c: Body<X, V>, o: nat) returns (run: Run<X, V>)
    requires t != LOOP_THREAD && Deletes(c, o)
    ensures EventLoop.Valid(Start(World([], x)), run) && TameRun(run)
    ensures var s := Exec(Start(World([], x)), run);
      s.history != [] && s.history[|s.history| - 1].Left? && s.history[|s.history| - 1].job.code == c
      && s.app.destroyed == []
  {
    var s0: LoopState<X, V> := Start(World([], x));
    run := [];
    Extend(s0, run, Enter(t, false, c));
    run := run + [Enter(t, false, c)];
    Extend(s0, run, Enqueue(t));
    run := run + [Enqueue(t)];
    Extend(s0, run, Activate(t));
    run := run + [Activate(t)];
  }

  /** and it may return only after the destruction: here the loop was awake already. */
  lemma LoopDeleterMayReturnLate<X(!new), V(!new)>(x: X, t: nat, u: nat, c: Body<X, V>, o: nat, v: World<X> -> V)
    returns (run: Run<X, V>)
    requires t != LOOP_THREAD && u != LOOP_THREAD && t != u && Deletes(c, o)
    ensures EventLoop.Valid(Start(World([], x)), run) && TameRun(run)
    ensures var s := Exec(Start(World([], x)), run);
      PcOf(s, t).Enqueued? && PcOf(s, t).job.code == c && o in s.app.destroyed
  {
    var s0: LoopState<X, V> := Start(World([], x));
    run := NextInLine(x, t, u, c, v);
    var j := PcOf(Exec(s0, run), t).job;
    Extend(s0, run, StartJob);
    run := run + [StartJob];
    Extend(s0, run, Micro);
    run := run + [Micro];
    assert Exec(s0, run).app.destroyed[0] == o;
  }

  /** The job of `t` is the only one left in the batch, and `t` is still in its `call_soon`. */
  lemma NextInLine<X(!new), V(!new)>(x: X, t: nat, u: nat, c: Body<X, V>, v: World<X> -> V) returns (run: Run<X, V>)
    requires t != LOOP_THREAD && u != LOOP_THREAD && t != u && Proper(c)
    ensures EventLoop.Valid(Start(World([], x)), run) && TameRun(run)
    ensures var s := Exec(Start(World([], x)), run);
      && s.loop.Draining? && s.run.None? && s.alive && s.app.destroyed == []
      && PcOf(s, t).Enqueued? && PcOf(s, t).job.code == c && s.batch == [PcOf(s, t).job]
  {
    var s0: LoopState<X, V> := Start(World([], x));
    run := BothPushed(x, t, u, c, v);
    var j := PcOf(Exec(s0, run), t).job;
    Extend(s0, run, Swap);
    run := run + [Swap];
    Extend(s0, run, StartJob);
    run := run + [StartJob];
    assert Exec(s0, run).batch == [j];
    Extend(s0, run, Micro);
    run := run + [Micro];
  }

  lemma BothPushed<X(!new), V(!new)>(x: X, t: nat, u: nat, c: Body<X, V>, v: World<X> -> V) returns (run: Run<X, V>)
    requires t != LOOP_THREAD && u != LOOP_THREAD && t != u && Proper(c)
    ensures EventLoop.Valid(Start(World([], x)), run) && TameRun(run)
    ensures var s := Exec(Start(World([], x)), run);
      && s.loop.Woken? && s.run.None? && s.alive && s.app.destroyed == []
      && |s.queue| == 2 && s.queue[0].code == Return(v) && s.queue[0].origin.Soon?
      && PcOf(s, t) == Enqueued(s.queue[1]) && s.queue[1].code == c
  {
    var s0: LoopState<X, V> := Start(World([], x));
    run := Awake(x, u, v);
    Extend(s0, run, Enter(t, false, c));
    run := run + [Enter(t, false, c)];
    Extend(s0, run, Enqueue(t));
    run := run + [Enqueue(t)];
  }

  /** The loop has been woken by another thread. */
  lemma Awake<X(!new), V(!new)>(x: X, u: nat, v: World<X> -> V) returns (run: Run<X, V>)
    requires u != LOOP_THREAD
    ensures EventLoop.Valid(Start(World([], x)), run) && TameRun(run)
    ensures var s := Exec(Start(World([], x)), run);
      && s.loop.Woken? && s.run.None? && s.alive && s.app.destroyed == []
      && |s.queue| == 1 && s.queue[0].code == Return(v) && s.queue[0].origin.Soon?
      && forall t :: PcOf(s, t).Idle?
  {
    var s0: LoopState<X, V> := Start(World([], x));
    run := [];
    Extend(s0, run, Enter(u, false, Return(v)));
    run := run + [Enter(u, false, Return(v))];
    Extend(s0, run, Enqueue(u));
    run := run + [Enqueue(u)];
    Extend(s0, run, Activate(u));
    run := run + [Activate(u)];
    Extend(s0, run, Wake);
    run := run + [Wake];
  }
}
