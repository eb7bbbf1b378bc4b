/** `call_later`, one-shot handlers and the registry of handlers.

Times are nanoseconds of the steady clock, delays are microseconds as in the interface.  libevent never runs a timer
before the interval given to `event_add` has passed on that clock.
*/
module Timers {
  import opened Basics

  // ---------------------------------------------------------------------------------------------
  // Durations.  C++ division truncates toward zero.

  const MILLION := 1_000_000
  const NANOS_PER_MICRO := 1000

  function Quot(a: int, b: int): int
    requires b > 0
  {
    if a >= 0 then a / b else -((-a) / b)
  }

  function Rem(a: int, b: int): int
    requires b > 0
  {
    a - Quot(a, b) * b
  }

  datatype Timeval = Timeval(sec: int, usec: int)

  function LoopTimeToTimeval(t: int): Timeval {
    Timeval(Quot(t, MILLION), Rem(t, MILLION))
  }

  /** The split loses nothing, in nanoseconds as well, and `usec` is in libevent's range exactly for the delays that are
  not negative or are whole seconds; and there is no other split with these properties. */
  lemma TimevalExact(t: int)
    ensures var tv := LoopTimeToTimeval(t);
      && tv.sec * 1_000_000 + tv.usec == t
      && tv.sec * 1_000_000_000 + tv.usec * 1000 == t * 1000
      && -1_000_000 < tv.usec < 1_000_000
      && (0 <= tv.usec < 1_000_000 <==> t >= 0 || t % 1_000_000 == 0)
      && (t >= 0 ==> forall s, u :: 0 <= u < 1_000_000 && s * 1_000_000 + u == t ==> tv == Timeval(s, u))
  {
  }

  /** One microsecond ago. */
  lemma NegativeDelaySplitsBadly()
    ensures LoopTimeToTimeval(-1) == Timeval(0, -1)
  {
  }

  // ---------------------------------------------------------------------------------------------
  // The registry

  type Handler = nat

  type Tickers = map<nat, seq<Handler>>

  function Live(list: seq<Handler>, live: set<Handler>): seq<Handler> {
    if list == [] then []
    else (if list[0] in live then [list[0]] else []) + Live(list[1..], live)
  }

  function Purge(tickers: Tickers, live: set<Handler>): Tickers {
    map id | id in tickers :: Live(tickers[id], live)
  }

  lemma {:induction false} LiveConcat(x: seq<Handler>, y: seq<Handler>, live: set<Handler>)
    ensures Live(x + y, live) == Live(x, live) + Live(y, live)
  {
    if x == [] {
      assert x + y == y;
    } else {
      LiveConcat(x[1..], y, live);
      assert (x + y)[1..] == x[1..] + y;
      var first := if x[0] in live then [x[0]] else [];
      assert first + (Live(x[1..], live) + Live(y, live)) == (first + Live(x[1..], live)) + Live(y, live);
    }
  }

  /** Exactly the live entries stay; with the recursion of `Live` this is the order-preserving filter. */
  lemma {:induction false} LiveKeeps(list: seq<Handler>, live: set<Handler>, h: Handler)
    ensures h in Live(list, live) <==> h in list && h in live
    ensures multiset(Live(list, live))[h] == if h in live then multiset(list)[h] else 0
  {
    if list != [] {
      LiveKeeps(list[1..], live, h);
      assert list == [list[0]] + list[1..];
    }
  }

  lemma {:induction false} LiveAll(list: seq<Handler>, live: set<Handler>)
    requires forall h :: h in list ==> h in live
    ensures Live(list, live) == list
  {
    if list != [] {
      LiveAll(list[1..], live);
    }
  }

  /** A purge that directly follows another one changes nothing. */
  lemma PurgeTwice(tickers: Tickers, live: set<Handler>)
    ensures Purge(Purge(tickers, live), live) == Purge(tickers, live)
  {
    forall id | id in tickers
      ensures Live(Live(tickers[id], live), live) == Live(tickers[id], live)
    {
      forall h | h in Live(tickers[id], live)
        ensures h in live
      {
        LiveKeeps(tickers[id], live, h);
      }
      LiveAll(Live(tickers[id], live), live);
    }
  }

  /** The part of `event_loop` that keeps weak pointers to handlers.  `live` are the handlers that some `shared_ptr`
  still owns: a weak pointer is expired when its handler is not among them. */
  class Registry {
    var tickers: Tickers
    var live: set<Handler>
    var next: Handler

    constructor ()
      ensures tickers == map[] && live == {}
    {
      tickers, live, next := map[], {}, 0;
    }

    method ClearOldTickers()
      modifies this`tickers
      ensures tickers == Purge(old(tickers), live)
    {
      ghost var before := tickers;
      var ids := tickers.Keys;
      while ids != {}
        invariant ids <= before.Keys && tickers.Keys == before.Keys
        invariant forall id :: id in before ==>
          tickers[id] == if id in ids then before[id] else Live(before[id], live)
        decreases |ids|
      {
        var id :| id in ids;
        ids := ids - {id};
        EraseExpired(id);
      }
    }

    /** The inner loop: erase in place, one list. */
    method EraseExpired(id: nat)
      requires id in tickers
      modifies this`tickers
      ensures tickers == old(tickers)[id := Live(old(tickers[id]), live)]
    {
      ghost var before := tickers[id];
      var i := 0;
      ghost var seen := 0;
      while i < |tickers[id]|
        invariant id in tickers && tickers == old(tickers)[id := tickers[id]]
        invariant i <= |tickers[id]| && seen <= |before|
        invariant tickers[id][..i] == Live(before[..seen], live) && tickers[id][i..] == before[seen..]
        decreases |tickers[id]| - i
      {
        var list := tickers[id];
        assert list == list[..i] + [list[i]] + list[i + 1..];
        assert before[..seen + 1] == before[..seen] + [before[seen]];
        LiveConcat(before[..seen], [before[seen]], live);
        assert list[i] == before[seen];
        if list[i] !in live {
          tickers := tickers[id := list[..i] + list[i + 1..]];
        } else {
          i := i + 1;
        }
        seen := seen + 1;
      }
      assert before[seen..] == [];
      assert before[..seen] == before;
      assert tickers[id][..i] == tickers[id];
    }

    method MakeHandler(id: nat) returns (h: Handler)
      modifies this
      ensures h == old(next) && next == h + 1 && live == old(live) + {h}
      ensures tickers == Registered(old(tickers), old(live), id, h)
    {
      ClearOldTickers();
      h, next := next, next + 1;
      live := live + {h};
      tickers := tickers[id := (if id in tickers then tickers[id] else []) + [h]];
    }
  }

  function Registered(tickers: Tickers, live: set<Handler>, id: nat, h: Handler): Tickers {
    var t := Purge(tickers, live);
    t[id := (if id in t then t[id] else []) + [h]]
  }

  // ---------------------------------------------------------------------------------------------
  // Runs

  const LOOP_ID: nat := 0

  /** A `call_later` that another thread has submitted. */
  datatype Request = Request(id: nat, target: int)

  datatype Timer = Timer(id: nat, deadline: int)

  datatype Ran = Ran(id: nat, at: int)

  datatype State = State(
    now: int,
    jobs: seq<Request>,
    armed: map<Handler, Timer>,
    // the handlers that exist, and every reference there is to one
    objects: map<Handler, Option<Handler>>,   // with the reference that the handler's own callable holds, if any
    local: seq<Handler>,                      // on the stack of the loop thread, innermost last
    held: set<Handler>,                       // by the application (`call_every`)
    tickers: Tickers,
    firing: seq<Handler>,      // empty, or the handler whose hook runs
    next: Handler,
    // history
    nextId: nat,
    due: map<nat, int>,        // when each request should run, to the nanosecond
    lag: map<Handler, nat>,    // how long the job that armed the timer took from reading the clock to `event_add`
    ran: seq<Ran>)

  function Start(now: int): State { State(now, [], map[], map[], [], {}, map[], [], 0, 0, map[], map[], []) }

  datatype Step =
    | Later(delay: int)               // `call_later` from another thread
    | LaterOnLoop(delay: int)         // and from the loop thread
    | RunJob(lag: nat)                // its job; `lag` passes between reading the clock and `event_add`
    | Tick(dt: nat)
    | Fire(h: Handler)                // libevent runs the handler: its hook begins
    | FireEnd                         // the hook is over, normally or by an exception
    | Every(id: nat)                  // another handler, owned by the application
    | Drop(h: Handler)                // which releases it

  predicate Enabled(s: State, a: Step) {
    match a
    case RunJob(_) => s.jobs != [] && s.firing == []
    case Fire(h) => s.firing == [] && h in s.armed && s.now >= s.armed[h].deadline
    case FireEnd => s.firing != []
    case Drop(h) => h in s.held
    case _ => true
  }

  /** What `call_later` asks of the timer: the time that is left, in whole microseconds. */
  function Left(nanos: int): int {
    Quot(nanos, NANOS_PER_MICRO)
  }

  predicate Referenced(s: State, h: Handler) {
    h in s.local || h in s.held || exists g :: g in s.objects && s.objects[g] == Some(h)
  }

  /** A reference to `h` is gone.  If it was the last one, `~ev_watcher` frees the event and the callable. */
  function Dropped(s: State, h: Handler): State {
    if Referenced(s, h) then s else s.(objects := s.objects - {h}, armed := s.armed - {h})
  }

  /** `make_handler` returns a reference. */
  function Make(s: State, id: nat): State {
    s.(tickers := Registered(s.tickers, s.objects.Keys, id, s.next), objects := s.objects[s.next := None],
       local := s.local + [s.next], next := s.next + 1)
  }

  /** `init_event`: the innermost reference is moved into the callable of the handler itself, and the timer armed. */
  function InitOneshot(s: State, id: nat, deadline: int): State
    requires s.local != []
  {
    var last := |s.local| - 1;
    var h := s.local[last];
    s.(local := s.local[..last], objects := s.objects[h := Some(h)], armed := s.armed[h := Timer(id, deadline)])
  }

  /** `call_every` hands the reference to the application. */
  function Handed(s: State): State
    requires s.local != []
  {
    var last := |s.local| - 1;
    s.(local := s.local[..last], held := s.held + {s.local[last]})
  }

  /** The hook begins: the callable's reference, if it has one, is moved onto the stack. */
  function Begun(s: State, h: Handler): State {
    if h in s.objects && s.objects[h].Some? then
      s.(objects := s.objects[h := None], local := s.local + [s.objects[h].value])
    else s
  }

  /** The hook is over: the reference on the stack is dropped, by `reset` or by unwinding. */
  function Over(s: State): State {
    if s.local == [] then s
    else
      var last := |s.local| - 1;
      Dropped(s.(local := s.local[..last]), s.local[last])
  }

  /** `add_oneshot_event`. */
  function AddOneshot(s: State, id: nat, delay: int): State {
    AddTimer(s, id, Deadline(s.now, LoopTimeToTimeval(delay)))
  }

  function Deadline(now: int, tv: Timeval): int {
    now + tv.sec * 1_000_000_000 + tv.usec * NANOS_PER_MICRO
  }

  function AddTimer(s: State, id: nat, deadline: int): State {
    InitOneshot(Make(s, LOOP_ID), id, deadline)
  }

  function Next(s: State, a: Step): State
    requires Enabled(s, a)
  {
    match a
    case Later(delay) =>
      var target := s.now + delay * NANOS_PER_MICRO;
      s.(jobs := s.jobs + [Request(s.nextId, target)], due := s.due[s.nextId := target], nextId := s.nextId + 1)
    case LaterOnLoop(delay) =>
      AddOneshot(s, s.nextId, delay)
        .(due := s.due[s.nextId := s.now + delay * NANOS_PER_MICRO], lag := s.lag[s.next := 0], nextId := s.nextId + 1)
    case RunJob(lag) =>
      var r := s.jobs[0];
      if s.now >= r.target then s.(jobs := s.jobs[1..], ran := s.ran + [Ran(r.id, s.now)])
      else
        AddOneshot(s.(jobs := s.jobs[1..], now := s.now + lag), r.id, Left(r.target - s.now))
          .(lag := s.lag[s.next := lag])
    case Tick(dt) => s.(now := s.now + dt)
    case Fire(h) =>
      Begun(s, h).(armed := s.armed - {h}, firing := [h], ran := s.ran + [Ran(s.armed[h].id, s.now)])
    case FireEnd => Over(s).(firing := [])
    case Every(id) => Handed(Make(s, id))
    case Drop(h) => Dropped(s.(held := s.held - {h}), h)
  }

  predicate Valid(s: State, run: seq<Step>)
    decreases |run|
  {
    run == [] || (Enabled(s, run[0]) && Valid(Next(s, run[0]), run[1..]))
  }

  function Exec(s: State, run: seq<Step>): State
    requires Valid(s, run)
    decreases |run|
  {
    if run == [] then s else Exec(Next(s, run[0]), run[1..])
  }

  // ---------------------------------------------------------------------------------------------
  // Lifetime of one-shot handlers

  /** A handler that will fire, or whose hook runs. */
  predicate Pending(s: State, h: Handler) {
    h in s.armed || h in s.firing
  }

  function Entries(s: State, id: nat): seq<Handler> {
    if id in s.tickers then s.tickers[id] else []
  }

  ghost predicate Alive(s: State) {
    // references: an armed handler is referred to by its own callable, a firing one from the stack
    && |s.firing| <= 1 && s.local == s.firing
    && (forall h :: h in s.armed ==> h in s.objects && s.objects[h] == Some(h))
    && (forall h :: h in s.objects && s.objects[h].Some? ==> s.objects[h].value == h && h in s.armed)
    && (forall h :: h in s.firing || h in s.held ==> h in s.objects && s.objects[h].None?)
    && (forall h :: h in s.firing ==> h !in s.held)
    // and every handler that exists is one of these, or the application holds it
    && (forall h :: h in s.objects ==> h < s.next && (s.objects[h].None? ==> h in s.firing || h in s.held))
    // entries
    && (forall id, h :: h in Entries(s, id) ==> h < s.next)
    && (forall h :: Pending(s, h) ==> multiset(Entries(s, LOOP_ID))[h] == 1)
  }

  /** `make_handler` keeps every live entry where it is, drops the others, and adds the new one at the end. */
  lemma MakeEntries(s: State, id: nat)
    ensures forall k ::
      Entries(Make(s, id), k) == Live(Entries(s, k), s.objects.Keys) + if k == id then [s.next] else []
  {
  }

  /** No pass of `clear_old_tickers` removes the entry of a handler that exists, whatever the id. */
  lemma LiveEntriesStay(s: State, id: nat, k: nat, h: Handler)
    ensures multiset(Entries(Make(s, id), k))[h] ==
      (if h in s.objects then multiset(Entries(s, k))[h] else 0) + (if k == id && h == s.next then 1 else 0)
  {
    MakeEntries(s, id);
    LiveKeeps(Entries(s, k), s.objects.Keys, h);
  }

  /** And after it only handlers that exist have entries. */
  lemma DeadEntriesGo(s: State, id: nat, k: nat, h: Handler)
    requires h in Entries(Make(s, id), k)
    ensures h == s.next || (h in s.objects && h in Entries(s, k))
  {
    MakeEntries(s, id);
    LiveKeeps(Entries(s, k), s.objects.Keys, h);
  }

  ghost predicate Listed(s: State) {
    && (forall k, h :: h in Entries(s, k) ==> h < s.next)
    && (forall h :: Pending(s, h) ==> multiset(Entries(s, LOOP_ID))[h] == 1)
  }

  lemma MakeListed(s: State, id: nat)
    requires Alive(s)
    ensures Listed(Make(s, id))
    ensures id == LOOP_ID ==> multiset(Entries(Make(s, id), LOOP_ID))[s.next] == 1
    ensures s.next !in s.objects && !Pending(s, s.next)
  {
    var s' := Make(s, id);
    forall k, h | h in Entries(s', k)
      ensures h < s'.next
    {
      DeadEntriesGo(s, id, k, h);
    }
    forall h: Handler | Pending(s', h)
      ensures multiset(Entries(s', LOOP_ID))[h] == 1
    {
      assert Pending(s, h) && h in s.objects && h < s.next;
      LiveEntriesStay(s, id, LOOP_ID, h);
    }
    LiveEntriesStay(s, id, LOOP_ID, s.next);
  }

  /** All that `Alive` speaks of. */
  predicate SameHandlers(s: State, s': State) {
    && s'.armed == s.armed && s'.firing == s.firing && s'.objects == s.objects && s'.local == s.local
    && s'.held == s.held && s'.tickers == s.tickers && s'.next == s.next
  }

  lemma AliveFrame(s: State, s': State)
    requires Alive(s) && SameHandlers(s, s')
    ensures Alive(s')
  {
    assert forall h :: Pending(s', h) == Pending(s, h);
    assert forall k :: Entries(s', k) == Entries(s, k);
  }

  lemma AliveKept(s: State, a: Step)
    requires Alive(s) && Enabled(s, a)
    ensures Alive(Next(s, a))
  {
    match a
    case LaterOnLoop(delay) =>
      var armed := AddOneshot(s, s.nextId, delay);
      TimerAlive(s, s.nextId, Deadline(s.now, LoopTimeToTimeval(delay)));
      AliveFrame(armed, Next(s, a));
    case RunJob(lag) => RunJobAlive(s, lag);
    case Every(id) => EveryAlive(s, id);
    case Fire(h) => FireAlive(s, h);
    case FireEnd => FireEndAlive(s);
    case Drop(h) => DropAlive(s, h);
    case Later(_) => AliveFrame(s, Next(s, a));
    case Tick(_) => AliveFrame(s, Next(s, a));
  }

  lemma RunJobAlive(s: State, lag: nat)
    requires Alive(s) && Enabled(s, RunJob(lag))
    ensures Alive(Next(s, RunJob(lag)))
  {
    if s.now >= s.jobs[0].target {
      RunJobNow(s, lag);
      AliveFrame(s, Next(s, RunJob(lag)));
    } else {
      var later, deadline := RunJobArms(s, lag);
      AliveFrame(s, later);
      TimerAlive(later, s.jobs[0].id, deadline);
      AliveFrame(AddTimer(later, s.jobs[0].id, deadline), Next(s, RunJob(lag)));
    }
  }

  lemma RunJobNow(s: State, lag: nat)
    requires Enabled(s, RunJob(lag)) && s.now >= s.jobs[0].target
    ensures SameHandlers(s, Next(s, RunJob(lag)))
  {
  }

  lemma RunJobArms(s: State, lag: nat) returns (later: State, deadline: int)
    requires Enabled(s, RunJob(lag)) && s.now < s.jobs[0].target
    ensures later == s.(jobs := s.jobs[1..], now := s.now + lag)
    ensures SameHandlers(AddTimer(later, s.jobs[0].id, deadline), Next(s, RunJob(lag)))
    ensures deadline == Deadline(later.now, LoopTimeToTimeval(Left(s.jobs[0].target - s.now)))
  {
    later := s.(jobs := s.jobs[1..], now := s.now + lag);
    deadline := Deadline(later.now, LoopTimeToTimeval(Left(s.jobs[0].target - s.now)));
  }

  lemma TimerAlive(s: State, id: nat, deadline: int)
    requires Alive(s)
    ensures Alive(AddTimer(s, id, deadline))
  {
    MakeListed(s, LOOP_ID);
    AddTimerIs(s, id, deadline);
    AliveWith(s, Make(s, LOOP_ID), AddTimer(s, id, deadline));
  }

  /** The reference passes through the stack into the callable. */
  lemma AddTimerIs(s: State, id: nat, deadline: int)
    ensures AddTimer(s, id, deadline) == Make(s, LOOP_ID).(
      local := s.local, objects := s.objects[s.next := Some(s.next)], armed := s.armed[s.next := Timer(id, deadline)])
  {
    var m := Make(s, LOOP_ID);
    assert m.local[..|m.local| - 1] == s.local && m.local[|m.local| - 1] == s.next;
    assert m.objects[s.next := Some(s.next)] == s.objects[s.next := Some(s.next)];
  }

  lemma HandedIs(s: State, id: nat)
    ensures Handed(Make(s, id)) == Make(s, id).(local := s.local, held := s.held + {s.next})
  {
    var m := Make(s, id);
    assert m.local[..|m.local| - 1] == s.local && m.local[|m.local| - 1] == s.next;
  }

  lemma EveryAlive(s: State, id: nat)
    requires Alive(s)
    ensures Alive(Next(s, Every(id)))
  {
    MakeListed(s, id);
    HandedIs(s, id);
    AliveWith(s, Make(s, id), Next(s, Every(id)));
  }

  /** One handler more, which is armed or held. */
  lemma AliveWith(s: State, m: State, s': State)
    requires Alive(s) && Listed(m) && s.next !in s.objects && s'.local == s.local && s'.firing == s.firing
    requires s'.tickers == m.tickers && s'.next == m.next == s.next + 1
    requires m.armed == s.armed && m.firing == s.firing
    requires s'.armed.Keys <= s.armed.Keys + {s.next} && s.armed.Keys <= s'.armed.Keys
    requires s.next in s'.armed ==> multiset(Entries(m, LOOP_ID))[s.next] == 1
    requires if s.next in s'.armed then s'.objects == s.objects[s.next := Some(s.next)] && s'.held == s.held
             else s'.objects == s.objects[s.next := None] && s'.held == s.held + {s.next}
    ensures Alive(s')
  {
    assert forall h :: Pending(s', h) <==> Pending(s, h) || h in s'.armed;
    assert forall k :: Entries(s', k) == Entries(m, k);
    assert forall h :: Pending(m, h) == Pending(s, h);
  }

  lemma FireAlive(s: State, h: Handler)
    requires Alive(s) && Enabled(s, Fire(h))
    ensures Alive(Next(s, Fire(h)))
  {
    var s' := Next(s, Fire(h));
    assert s'.local == [h] && s'.objects == s.objects[h := None];
    assert forall g :: Pending(s', g) <==> Pending(s, g);
    assert forall k :: Entries(s', k) == Entries(s, k);
  }

  /** A handler that neither the stack nor the application refers to is referred to by itself alone, and each has a
  reference. */
  lemma OnlyOwn(s: State)
    requires Alive(s)
    ensures forall h :: h in s.objects && h !in s.local && h !in s.held ==> s.objects[h] == Some(h)
    ensures forall h :: h in s.objects ==> Referenced(s, h)
  {
  }

  /** The last reference goes, so the handler does; and it takes no timer with it. */
  lemma FireEndAlive(s: State)
    requires Alive(s) && Enabled(s, FireEnd)
    ensures Alive(Next(s, FireEnd))
    ensures var h := s.firing[0]; Next(s, FireEnd).objects == s.objects - {h} && h !in s.armed
    ensures Next(s, FireEnd).local == []
  {
    var h := s.firing[0];
    var t := s.(local := []);
    assert s.local == [h] && s.local[..0] == [];
    assert !Referenced(t, h);
    AliveWithout(s, Next(s, FireEnd), h);
  }

  lemma DropAlive(s: State, h: Handler)
    requires Alive(s) && Enabled(s, Drop(h))
    ensures Alive(Next(s, Drop(h)))
    ensures Next(s, Drop(h)).objects == s.objects - {h} && h !in s.armed
  {
    assert !Referenced(s.(held := s.held - {h}), h);
    AliveWithout(s, Next(s, Drop(h)), h);
  }

  lemma AliveWithout(s: State, s': State, h: Handler)
    requires Alive(s) && h in s.objects && s.objects[h].None?
    requires s'.objects == s.objects - {h} && s'.armed == s.armed - {h} && s'.held == s.held - {h}
    requires s'.firing == s'.local == if s.firing == [h] then [] else s.firing
    requires s'.tickers == s.tickers && s'.next == s.next
    ensures Alive(s') && s'.armed == s.armed
  {
    assert forall k :: Entries(s', k) == Entries(s, k);
    assert forall g :: Pending(s', g) ==> Pending(s, g);
  }

  // ---------------------------------------------------------------------------------------------
  // Hooks

  ghost predicate QueuedIn(jobs: seq<Request>, id: nat) {
    exists i :: 0 <= i < |jobs| && jobs[i].id == id
  }

  ghost predicate Queued(s: State, id: nat) {
    QueuedIn(s.jobs, id)
  }

  ghost predicate Armed(s: State, id: nat) {
    ArmedIn(s.armed, id)
  }

  ghost predicate HasRun(s: State, id: nat) {
    exists i :: 0 <= i < |s.ran| && s.ran[i].id == id
  }

  predicate OnePlace(asked: bool, queued: bool, armed: bool, ran: bool) {
    (asked <==> queued || armed || ran) && !(queued && armed) && !(queued && ran) && !(armed && ran)
  }

  /** Each request is in exactly one place: its job is queued, its timer is armed, or its hook has been run. */
  ghost predicate Tracked(s: State) {
    && (forall id: nat :: OnePlace(id < s.nextId, Queued(s, id), Armed(s, id), HasRun(s, id)))
    && (forall i, k :: 0 <= i < k < |s.jobs| ==> s.jobs[i].id != s.jobs[k].id)
    && (forall h, g :: h in s.armed && g in s.armed && s.armed[h].id == s.armed[g].id ==> h == g)
    && (forall i, k :: 0 <= i < k < |s.ran| ==> s.ran[i].id != s.ran[k].id)
  }

  /** The request whose job, timer or hook a step takes on. */
  function Arms(s: State, a: Step): set<nat> {
    if a.LaterOnLoop? then {s.nextId}
    else if a.RunJob? && s.jobs != [] && s.now < s.jobs[0].target then {s.jobs[0].id}
    else {}
  }

  function Runs(s: State, a: Step): set<nat> {
    if a.Fire? && a.h in s.armed then {s.armed[a.h].id}
    else if a.RunJob? && s.jobs != [] && s.now >= s.jobs[0].target then {s.jobs[0].id}
    else {}
  }

  lemma QueuedAfter(s: State, a: Step, id: nat)
    requires Tracked(s) && Enabled(s, a)
    ensures Queued(Next(s, a), id) <==>
      (Queued(s, id) && !(a.RunJob? && id == s.jobs[0].id)) || (a.Later? && id == s.nextId)
  {
    if a.RunJob? {
      FirstGone(s.jobs, id);
    } else if a.Later? {
      LastAdded(s.jobs, Next(s, a).jobs[|s.jobs|], id);
    }
  }

  lemma FirstGone(jobs: seq<Request>, id: nat)
    requires jobs != [] && forall i, k :: 0 <= i < k < |jobs| ==> jobs[i].id != jobs[k].id
    ensures QueuedIn(jobs[1..], id) <==> QueuedIn(jobs, id) && id != jobs[0].id
  {
    assert forall i :: 0 < i < |jobs| ==> jobs[1..][i - 1] == jobs[i];
  }

  lemma LastAdded(jobs: seq<Request>, r: Request, id: nat)
    ensures QueuedIn(jobs + [r], id) <==> QueuedIn(jobs, id) || r.id == id
  {
    assert (jobs + [r])[|jobs|] == r;
    assert forall i :: 0 <= i < |jobs| ==> (jobs + [r])[i] == jobs[i];
  }

  /** Timers are armed by the two kinds of `call_later` and disarmed only by firing; no release takes one along. */
  lemma TimersAfter(s: State, a: Step)
    requires Alive(s) && Enabled(s, a)
    ensures s.next !in s.armed
    ensures Arms(s, a) == {} ==> Next(s, a).armed == if a.Fire? then s.armed - {a.h} else s.armed
    ensures Arms(s, a) != {} ==>
      && s.next in Next(s, a).armed && Arms(s, a) == {Next(s, a).armed[s.next].id}
      && Next(s, a).armed == s.armed[s.next := Next(s, a).armed[s.next]]
  {
    assert s.next in s.armed ==> Pending(s, s.next);
    match a
    case LaterOnLoop(delay) => ArmedByTimer(s, s.nextId, Deadline(s.now, LoopTimeToTimeval(delay)));
    case RunJob(lag) =>
      if s.now >= s.jobs[0].target {
        RunJobNow(s, lag);
      } else {
        var later, deadline := RunJobArms(s, lag);
        ArmedByTimer(later, s.jobs[0].id, deadline);
      }
    case Fire(h) => assert Next(s, a).armed == s.armed - {h};
    case FireEnd => FireEndKeepsTimers(s);
    case Drop(h) => DropAlive(s, h);
    case _ => assert Next(s, a).armed == s.armed;
  }

  lemma ArmedByTimer(s: State, id: nat, deadline: int)
    ensures AddTimer(s, id, deadline).armed == s.armed[s.next := Timer(id, deadline)]
  {
    var m := Make(s, LOOP_ID);
    assert m.local[|m.local| - 1] == s.next;
  }

  lemma FireEndKeepsTimers(s: State)
    requires Alive(s) && Enabled(s, FireEnd)
    ensures Next(s, FireEnd).armed == s.armed
  {
    FireEndAlive(s);
    assert s.armed - {s.firing[0]} == s.armed;
  }

  lemma ArmedAfter(s: State, a: Step, id: nat)
    requires Alive(s) && Tracked(s) && Enabled(s, a)
    ensures Armed(Next(s, a), id) <==> (Armed(s, id) && !(a.Fire? && id in Runs(s, a))) || id in Arms(s, a)
  {
    TimersAfter(s, a);
    if Arms(s, a) != {} {
      OneMore(s.armed, s.next, Next(s, a).armed[s.next], id);
    } else if a.Fire? {
      OneLess(s.armed, a.h, id);
    }
  }

  ghost predicate ArmedIn(m: map<Handler, Timer>, id: nat) {
    exists h :: h in m && m[h].id == id
  }

  lemma OneMore(m: map<Handler, Timer>, h: Handler, t: Timer, id: nat)
    requires h !in m
    ensures ArmedIn(m[h := t], id) <==> ArmedIn(m, id) || t.id == id
  {
    assert forall g :: g in m ==> m[h := t][g] == m[g];
    assert h in m[h := t];
  }

  lemma OneLess(m: map<Handler, Timer>, h: Handler, id: nat)
    requires h in m && forall g :: g in m && m[g].id == m[h].id ==> g == h
    ensures ArmedIn(m - {h}, id) <==> ArmedIn(m, id) && id != m[h].id
  {
    assert forall g :: g in m && g != h ==> g in m - {h};
  }

  lemma RanAfter(s: State, a: Step, id: nat)
    requires Enabled(s, a)
    ensures HasRun(Next(s, a), id) <==> HasRun(s, id) || id in Runs(s, a)
  {
    var s' := Next(s, a);
    if HasRun(s, id) {
      var i :| 0 <= i < |s.ran| && s.ran[i].id == id;
      assert s'.ran[i] == s.ran[i];
    }
    if id in Runs(s, a) {
      assert s'.ran[|s.ran|].id == id;
    }
  }

  lemma PlaceKept(s: State, a: Step, id: nat)
    requires Alive(s) && Tracked(s) && Enabled(s, a)
    ensures var s' := Next(s, a); OnePlace(id < s'.nextId, Queued(s', id), Armed(s', id), HasRun(s', id))
  {
    QueuedAfter(s, a, id);
    ArmedAfter(s, a, id);
    RanAfter(s, a, id);
    RunsFrom(s, a);
    NextIdAfter(s, a);
    var s' := Next(s, a);
    Relocated(id < s.nextId, Queued(s, id), Armed(s, id), HasRun(s, id),
              id < s'.nextId, Queued(s', id), Armed(s', id), HasRun(s', id),
              (a.Later? || a.LaterOnLoop?) && id == s.nextId,
              a.RunJob? && id == s.jobs[0].id, a.Fire? && id in Runs(s, a), id in Arms(s, a), id in Runs(s, a));
  }

  lemma NextIdAfter(s: State, a: Step)
    requires Enabled(s, a)
    ensures Next(s, a).nextId == s.nextId + if a.Later? || a.LaterOnLoop? then 1 else 0
  {
  }

  /** A new request is queued or armed, a queued one that is taken is armed or run, an armed one that fires is run. */
  lemma Relocated(
    asked: bool, queued: bool, armed: bool, ran: bool, asked': bool, queued': bool, armed': bool, ran': bool,
    added: bool, taken: bool, fired: bool, arms: bool, runs: bool)
    requires OnePlace(asked, queued, armed, ran)
    requires (asked' <==> asked || added) && (added ==> !asked && !runs)
    requires queued' <==> (queued && !taken) || (added && !arms)
    requires (armed' <==> (armed && !fired) || arms) && (ran' <==> ran || runs)
    requires (taken ==> queued && (arms <==> !runs)) && (fired ==> armed && runs && !arms)
    requires (arms ==> added || taken) && (runs ==> taken || fired)
    ensures OnePlace(asked', queued', armed', ran')
  {
  }

  /** What runs or is armed was queued or armed. */
  lemma RunsFrom(s: State, a: Step)
    requires Enabled(s, a)
    ensures a.RunJob? ==> Queued(s, s.jobs[0].id) && Runs(s, a) + Arms(s, a) == {s.jobs[0].id}
    ensures a.Fire? ==> Armed(s, s.armed[a.h].id)
  {
  }

  lemma TrackedKept(s: State, a: Step)
    requires Alive(s) && Tracked(s) && Enabled(s, a)
    ensures Tracked(Next(s, a))
  {
    forall id: nat
      ensures var s' := Next(s, a); OnePlace(id < s'.nextId, Queued(s', id), Armed(s', id), HasRun(s', id))
    {
      PlaceKept(s, a, id);
    }
    JobsDistinct(s, a);
    ArmedDistinct(s, a);
    RanDistinct(s, a);
  }

  lemma JobsAfter(s: State, a: Step)
    requires Enabled(s, a)
    ensures a.Later? ==> Next(s, a).jobs == s.jobs + [Request(s.nextId, s.now + a.delay * 1000)]
    ensures !a.Later? ==> Next(s, a).jobs == if a.RunJob? then s.jobs[1..] else s.jobs
  {
  }

  lemma JobsDistinct(s: State, a: Step)
    requires Tracked(s) && Enabled(s, a)
    ensures forall i, k :: 0 <= i < k < |Next(s, a).jobs| ==> Next(s, a).jobs[i].id != Next(s, a).jobs[k].id
  {
    JobsAfter(s, a);
    if a.Later? {
      forall i | 0 <= i < |s.jobs|
        ensures s.jobs[i].id != s.nextId
      {
        assert Queued(s, s.jobs[i].id);
      }
    }
  }

  lemma ArmedDistinct(s: State, a: Step)
    requires Alive(s) && Tracked(s) && Enabled(s, a)
    ensures var m := Next(s, a).armed; forall h, g :: h in m && g in m && m[h].id == m[g].id ==> h == g
  {
    TimersAfter(s, a);
    if Arms(s, a) != {} {
      NewTimer(s, a, Next(s, a).armed[s.next].id);
    }
  }

  lemma NewTimer(s: State, a: Step, id: nat)
    requires Tracked(s) && Enabled(s, a) && id in Arms(s, a)
    ensures forall h :: h in s.armed ==> s.armed[h].id != id
  {
    if a.RunJob? {
      assert Queued(s, id);
    }
    assert OnePlace(id < s.nextId, Queued(s, id), Armed(s, id), HasRun(s, id));
  }

  lemma RanDistinct(s: State, a: Step)
    requires Tracked(s) && Enabled(s, a)
    ensures forall i, k :: 0 <= i < k < |Next(s, a).ran| ==> Next(s, a).ran[i].id != Next(s, a).ran[k].id
  {
    forall i | 0 <= i < |s.ran|
      ensures s.ran[i].id !in Runs(s, a)
    {
      assert HasRun(s, s.ran[i].id);
      if a.RunJob? {
        assert Queued(s, s.jobs[0].id);
      } else if a.Fire? {
        assert Armed(s, s.armed[a.h].id);
      }
    }
  }

  /** A timer is armed for less than a microsecond before the time of its request at the earliest, and for no more than
  the lag of its job after it; and no hook is run a whole microsecond early. */
  ghost predicate OnTime(s: State) {
    && (forall id :: id in s.due ==> id < s.nextId)
    && (forall i :: 0 <= i < |s.jobs| ==> s.jobs[i].id in s.due && s.jobs[i].target == s.due[s.jobs[i].id])
    && (forall h :: h in s.armed ==> ArmedInTime(s, h))
    && (forall i :: 0 <= i < |s.ran| ==>
          s.ran[i].id in s.due && s.now >= s.ran[i].at > s.due[s.ran[i].id] - 1000)
  }

  ghost predicate ArmedInTime(s: State, h: Handler)
    requires h in s.armed
  {
    var t := s.armed[h];
    t.id in s.due && h in s.lag && h < s.next && s.due[t.id] - 1000 < t.deadline <= s.due[t.id] + s.lag[h]
  }

  /** What is left until the target is asked for in whole microseconds, and truncation loses less than one. */
  lemma TruncationLosesLittle(nanos: int)
    requires nanos > 0
    ensures 0 <= nanos - Left(nanos) * 1000 < 1000
  {
  }

  /** A request of another thread is due when its delay has passed. */
  lemma LaterIsDue(s: State, delay: int)
    ensures var s' := Next(s, Later(delay));
      && s'.jobs == s.jobs + [Request(s.nextId, s.now + delay * 1000)]
      && s.nextId in s'.due && s'.due[s.nextId] == s.now + delay * 1000
      && s'.armed == s.armed && s'.ran == s.ran
  {
  }

  /** One on the loop thread arms a timer for exactly that time, in the same step. */
  lemma LaterOnLoopArms(s: State, delay: int)
    ensures var s' := Next(s, LaterOnLoop(delay));
      && s'.armed == s.armed[s.next := Timer(s.nextId, s.now + delay * 1000)]
      && s.nextId in s'.due && s'.due[s.nextId] == s.now + delay * 1000
      && s'.jobs == s.jobs && s'.ran == s.ran
  {
    ArmedByTimer(s, s.nextId, Deadline(s.now, LoopTimeToTimeval(delay)));
    TimevalExact(delay);
  }

  /** The job of the other thread runs the hook if its time has come, and otherwise arms a timer for it. */
  lemma JobRunsOrArms(s: State, lag: nat)
    requires Enabled(s, RunJob(lag))
    ensures var r, s' := s.jobs[0], Next(s, RunJob(lag));
      && s'.jobs == s.jobs[1..]
      && (s.now >= r.target ==> s'.armed == s.armed && s'.ran == s.ran + [Ran(r.id, s.now)])
      && (s.now < r.target ==>
            && s'.ran == s.ran && s.next in s'.armed && s'.armed == s.armed[s.next := s'.armed[s.next]]
            && s'.armed[s.next].id == r.id && r.target - 1000 < s'.armed[s.next].deadline <= r.target + lag)
  {
    var r := s.jobs[0];
    if s.now < r.target {
      var later, deadline := RunJobArms(s, lag);
      ArmedByTimer(later, r.id, deadline);
      TruncationLosesLittle(r.target - s.now);
      TimevalExact(Left(r.target - s.now));
    }
  }

  lemma OnTimeKept(s: State, a: Step)
    requires OnTime(s) && Enabled(s, a)
    ensures OnTime(Next(s, a))
  {
    match a
    case Later(delay) => LaterStaysOnTime(s, delay);
    case LaterOnLoop(delay) => LaterOnTime(s, delay);
    case RunJob(lag) => RunJobOnTime(s, lag);
    case Fire(h) => FireOnTime(s, h);
    case Tick(_) => OnTimeFrame(s, Next(s, a));
    case Every(_) => OnTimeFrame(s, Next(s, a));
    case FireEnd => FireEndOnTime(s);
    case Drop(h) => DropOnTime(s, h);
  }

  lemma FireEndOnTime(s: State)
    requires OnTime(s) && Enabled(s, FireEnd)
    ensures OnTime(Next(s, FireEnd))
  {
    OnTimeFrame(s, Next(s, FireEnd));
  }

  lemma DropOnTime(s: State, h: Handler)
    requires OnTime(s) && Enabled(s, Drop(h))
    ensures OnTime(Next(s, Drop(h)))
  {
    OnTimeFrame(s, Next(s, Drop(h)));
  }

  /** Time passes, and timers go. */
  lemma OnTimeFrame(s: State, s': State)
    requires OnTime(s) && s'.due == s.due && s'.jobs == s.jobs && s'.ran == s.ran && s'.nextId == s.nextId
    requires s'.lag == s.lag && s'.next >= s.next
    requires s'.now >= s.now && forall h :: h in s'.armed ==> h in s.armed && s'.armed[h] == s.armed[h]
    ensures OnTime(s')
  {
  }

  lemma LaterStaysOnTime(s: State, delay: int)
    requires OnTime(s)
    ensures OnTime(Next(s, Later(delay)))
  {
    FreshDue(s, Later(delay));
  }

  lemma FreshDue(s: State, a: Step)
    requires OnTime(s) && (a.Later? || a.LaterOnLoop?)
    ensures s.nextId !in s.due
    ensures forall id :: id in s.due ==> id in Next(s, a).due && Next(s, a).due[id] == s.due[id]
  {
  }

  lemma LaterOnTime(s: State, delay: int)
    requires OnTime(s)
    ensures OnTime(Next(s, LaterOnLoop(delay)))
  {
    FreshDue(s, LaterOnLoop(delay));
    LaterOnLoopArms(s, delay);
    var s' := Next(s, LaterOnLoop(delay));
    forall h | h in s'.armed
      ensures ArmedInTime(s', h)
    {
      assert h != s.next ==> ArmedInTime(s, h);
    }
  }

  lemma FireOnTime(s: State, h: Handler)
    requires OnTime(s) && Enabled(s, Fire(h))
    ensures OnTime(Next(s, Fire(h)))
  {
  }

  lemma RunJobOnTime(s: State, lag: nat)
    requires OnTime(s) && Enabled(s, RunJob(lag))
    ensures OnTime(Next(s, RunJob(lag)))
  {
    JobRunsOrArms(s, lag);
    var s' := Next(s, RunJob(lag));
    forall h | h in s'.armed
      ensures ArmedInTime(s', h)
    {
      assert h in s.armed ==> ArmedInTime(s, h);
    }
  }

  // ---------------------------------------------------------------------------------------------
  // The theorems

  ghost predicate Inv(s: State) {
    Alive(s) && Tracked(s) && OnTime(s)
  }

  lemma InvKept(s: State, a: Step)
    requires Inv(s) && Enabled(s, a)
    ensures Inv(Next(s, a))
  {
    AliveKept(s, a);
    TrackedKept(s, a);
    OnTimeKept(s, a);
  }

  lemma {:induction false} InvOnRuns(s: State, run: seq<Step>)
    requires Inv(s) && Valid(s, run)
    ensures Inv(Exec(s, run))
    decreases |run|
  {
    if run != [] {
      InvKept(s, run[0]);
      InvOnRuns(Next(s, run[0]), run[1..]);
    }
  }

  lemma StartInv(now: int)
    ensures Inv(Start(now))
  {
  }

  ghost predicate OnceAndOnTime(s: State) {
    && (forall id: nat :: OnePlace(id < s.nextId, Queued(s, id), Armed(s, id), HasRun(s, id)))
    && (forall i, k :: 0 <= i < k < |s.ran| ==> s.ran[i].id != s.ran[k].id)
    && (forall i :: 0 <= i < |s.ran| ==>
          s.ran[i].id in s.due && s.ran[i].at > s.due[s.ran[i].id] - 1000)
  }

  /** And not too late: over every run each timer is armed for at most the time of its request plus the lag of the job
  that armed it, so from then on libevent can run its hook whenever no other one runs. */
  lemma HooksCanRunInTime(now: int, run: seq<Step>, h: Handler)
    requires Valid(Start(now), run) && h in Exec(Start(now), run).armed
    ensures var s := Exec(Start(now), run);
      ArmedInTime(s, h) && (s.firing == [] && s.now >= s.due[s.armed[h].id] + s.lag[h] ==> Enabled(s, Fire(h)))
  {
    StartInv(now);
    InvOnRuns(Start(now), run);
    assert ArmedInTime(Exec(Start(now), run), h);
  }

  /** Deferred hooks run once and on time, in every run: a request is queued, armed or run, and only one of these; no
  hook runs twice; and none runs a whole microsecond before its time. */
  lemma HooksRunOnceAndOnTime(now: int, run: seq<Step>)
    requires Valid(Start(now), run)
    ensures OnceAndOnTime(Exec(Start(now), run))
  {
    StartInv(now);
    InvOnRuns(Start(now), run);
    InvGivesOnce(Exec(Start(now), run));
  }

  lemma InvGivesOnce(s: State)
    requires Inv(s)
    ensures OnceAndOnTime(s)
  {
  }

  ghost predicate LivesAsLongAsNeeded(s: State, h: Handler) {
    // while it is armed or fires, it exists and there is one reference: its own, which is on the stack during the hook
    && (h in s.armed ==> h in s.objects && s.objects[h] == Some(h) && h !in s.local && h !in s.held)
    && (h in s.firing ==> h in s.objects && s.objects[h].None? && s.local == [h] && h !in s.held)
    // otherwise it does not exist, unless the application holds it
    && (h in s.objects ==> Referenced(s, h) && (Pending(s, h) || h in s.held))
    // and its entry is there as long
    && (Pending(s, h) ==> multiset(Entries(s, LOOP_ID))[h] == 1)
  }

  /** A one-shot handler is kept alive by its own callable, and by nothing else, exactly from arming until its hook is
  over; and for as long its entry is in the registry, once. */
  lemma OneshotLifetime(now: int, run: seq<Step>, h: Handler)
    requires Valid(Start(now), run)
    ensures LivesAsLongAsNeeded(Exec(Start(now), run), h)
  {
    StartInv(now);
    InvOnRuns(Start(now), run);
    InvGivesLifetime(Exec(Start(now), run), h);
  }

  lemma InvGivesLifetime(s: State, h: Handler)
    requires Inv(s)
    ensures LivesAsLongAsNeeded(s, h)
  {
    OnlyOwn(s);
  }

  /** When its hook is over no reference to the handler is left and it is destroyed, without disarming any timer; and
  a `make_handler`, for whatever id, removes its entry. */
  lemma FiredHandlerIsPurged(s: State, id: nat, k: nat)
    requires Alive(s) && s.firing != []
    ensures var h := s.firing[0];
      var s' := Next(s, FireEnd);
      && h !in s'.objects && !Referenced(s', h) && s'.armed == s.armed
      && h !in Entries(Make(s', id), k)
  {
    var h, s' := s.firing[0], Next(s, FireEnd);
    FireEndAlive(s);
    if h in Entries(Make(s', id), k) {
      DeadEntriesGo(s', id, k, h);
    }
  }

  ghost predicate Unlisted(s: State, h: Handler) {
    forall k :: h !in Entries(s, k)
  }

  /** `h` does not exist, and it has no entries if it had none or a `make_handler` has come in between. */
  ghost predicate StaysGone(s: State, s': State, h: Handler) {
    && h < s'.next && h !in s'.objects && s.next <= s'.next
    && (Unlisted(s, h) || s.next < s'.next ==> Unlisted(s', h))
  }

  lemma GoneKept(s: State, a: Step, h: Handler)
    requires Alive(s) && Enabled(s, a) && h < s.next && h !in s.objects
    ensures StaysGone(s, Next(s, a), h)
  {
    match a
    case LaterOnLoop(delay) => GoneAfterTimer(s, s, s.nextId, Deadline(s.now, LoopTimeToTimeval(delay)), Next(s, a), h);
    case RunJob(lag) => GoneAfterJob(s, lag, h);
    case Every(id) => GoneAfterEvery(s, id, h);
    case Fire(g) => GoneFrame(s, Next(s, a), h);
    case FireEnd =>
      FireEndAlive(s);
      GoneFrame(s, Next(s, a), h);
    case Drop(g) =>
      DropAlive(s, g);
      GoneFrame(s, Next(s, a), h);
    case Later(_) => GoneFrame(s, Next(s, a), h);
    case Tick(_) => GoneFrame(s, Next(s, a), h);
  }

  lemma GoneFrame(s: State, s': State, h: Handler)
    requires h < s.next && h !in s'.objects && s'.next == s.next && s'.tickers == s.tickers
    ensures StaysGone(s, s', h)
  {
    assert forall k :: Entries(s', k) == Entries(s, k);
  }

  lemma GoneAfterTimer(s: State, later: State, id: nat, deadline: int, s': State, h: Handler)
    requires h < s.next && h !in s.objects && later.next == s.next && later.objects == s.objects
    requires SameHandlers(AddTimer(later, id, deadline), s')
    ensures StaysGone(s, s', h)
  {
    MadeWithout(later, LOOP_ID, h);
    AddTimerIs(later, id, deadline);
    assert forall k :: Entries(s', k) == Entries(Make(later, LOOP_ID), k);
  }

  lemma GoneAfterJob(s: State, lag: nat, h: Handler)
    requires Enabled(s, RunJob(lag)) && h < s.next && h !in s.objects
    ensures StaysGone(s, Next(s, RunJob(lag)), h)
  {
    if s.now >= s.jobs[0].target {
      RunJobNow(s, lag);
      GoneFrame(s, Next(s, RunJob(lag)), h);
    } else {
      var later, deadline := RunJobArms(s, lag);
      GoneAfterTimer(s, later, s.jobs[0].id, deadline, Next(s, RunJob(lag)), h);
    }
  }

  lemma GoneAfterEvery(s: State, id: nat, h: Handler)
    requires h < s.next && h !in s.objects
    ensures StaysGone(s, Next(s, Every(id)), h)
  {
    MadeWithout(s, id, h);
    HandedIs(s, id);
    assert forall k :: Entries(Next(s, Every(id)), k) == Entries(Make(s, id), k);
  }

  lemma MadeWithout(s: State, id: nat, h: Handler)
    requires h < s.next && h !in s.objects
    ensures Unlisted(Make(s, id), h)
  {
    forall k | h in Entries(Make(s, id), k)
      ensures false
    {
      DeadEntriesGo(s, id, k, h);
    }
  }

  lemma {:induction false} GoneOnRuns(s: State, run: seq<Step>, h: Handler)
    requires Inv(s) && Valid(s, run) && h < s.next && h !in s.objects
    ensures StaysGone(s, Exec(s, run), h)
    decreases |run|
  {
    if run != [] {
      InvKept(s, run[0]);
      GoneKept(s, run[0], h);
      GoneOnRuns(Next(s, run[0]), run[1..], h);
    }
  }

  /** Over every run after its hook: the handler never exists again, and from the first `make_handler` on, which is the
  first step that uses a new handler, it has no entry for any id. */
  lemma {:induction false} FiredHandlerIsGoneForGood(s: State, run: seq<Step>)
    requires Inv(s) && s.firing != [] && Valid(Next(s, FireEnd), run)
    ensures var h, s' := s.firing[0], Exec(Next(s, FireEnd), run);
      h !in s'.objects && (Next(s, FireEnd).next < s'.next ==> Unlisted(s', h))
  {
    FireEndAlive(s);
    InvKept(s, FireEnd);
    HookLeaves(s);
    GoneOnRuns(Next(s, FireEnd), run, s.firing[0]);
  }

  lemma HookLeaves(s: State)
    requires Alive(s) && s.firing != []
    ensures Next(s, FireEnd).next == s.next && s.firing[0] < s.next
  {
  }
}
