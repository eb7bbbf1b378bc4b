/** `endpoint::listen` and `endpoint::close_listener`, called from any threads and from any body on the loop thread.

Both are `call_get`s of a body on the event loop, so their effects are those of the single order of `Linearizability`.
A body may also call them inline, as the job does that a listener posts to close itself; `Trace` collects the calls a
body makes with their answers.  Nothing else touches the table of listeners.

`listen` inserts an empty entry first and fills it afterwards; if the construction of the listener throws in between,
the empty entry stays, and `close_listener` later removes an entry that no `listen` reported.
*/
module Registration {
  import opened Programs
  import opened EventLoop
  import opened Linearizability

  /** The value of the map: `try_emplace(port, nullptr)`, then the listener. */
  datatype Entry = Empty | Listener

  type Table = map<nat, Entry>

  /** What the loop thread works on: the table and everything else. */
  datatype World<!X> = World(table: Table, rest: X)

  datatype Reply<+X> = True | Void | Else(value: X)

  /** `builds` says whether the construction of the listener succeeds. */
  datatype Request = Listen(port: nat, builds: bool) | Close(port: nat)

  const TAKEN := "listener already exists"

  function Body<X>(r: Request): Code<World<X>, Reply<X>> {
    match r
    case Listen(port, builds) =>
      Branch((w: World<X>) => port in w.table,
             Throw(TAKEN),
             Update((w: World<X>) => w.(table := w.table[port := Empty]),
                    if builds then
                      Update((w: World<X>) => w.(table := w.table[port := Listener]), Return((w: World<X>) => True))
                    else Throw("construction failed")))
    case Close(port) =>
      Update((w: World<X>) => w.(table := w.table - {port}), Return((w: World<X>) => Void))
  }

  function Answer<X>(r: Request, m: Table): Outcome<Reply<X>> {
    if r.Close? then Value(Void)
    else if r.port in m then Threw(TAKEN)
    else if r.builds then Value(True)
    else Threw("construction failed")
  }

  function TableAfter(r: Request, m: Table): Table {
    if r.Listen? && r.port in m then m
    else if r.Close? then m - {r.port}
    else m[r.port := if r.builds then Listener else Empty]
  }

  lemma BodyDoes<X>(r: Request, w: World<X>)
    ensures Eval(Body(r), w) == Effect(World(TableAfter(r, w.table), w.rest), Answer(r, w.table), [])
  {
    if r.Listen? && r.port !in w.table && r.builds {
      assert w.table[r.port := Empty][r.port := Listener] == w.table[r.port := Listener];
    }
  }

  function From(m: Table, reqs: seq<Request>): Table {
    if reqs == [] then m else TableAfter(reqs[|reqs| - 1], From(m, reqs[..|reqs| - 1]))
  }

  lemma {:induction false} FromConcat(m: Table, x: seq<Request>, y: seq<Request>)
    ensures From(m, x + y) == From(From(m, x), y)
    decreases |y|
  {
    if y == [] {
      assert x + y == x;
    } else {
      FromConcat(m, x, y[..|y| - 1]);
      assert (x + y)[..|x + y| - 1] == x + y[..|y| - 1];
    }
  }

  function After(reqs: seq<Request>): Table {
    From(map[], reqs)
  }

  // ---------------------------------------------------------------------------------------------
  // The calls a body makes

  /** A call of `listen` or `close_listener` and its answer. */
  datatype Served<+X> = Served(req: Request, out: Outcome<Reply<X>>)

  ghost predicate IsRequest<X>(c: Code<World<X>, Reply<X>>) {
    exists r :: c == Body(r)
  }

  /** The calls that running `c` makes, in order, inline calls at any depth included. */
  ghost function Trace<X>(c: Code<World<X>, Reply<X>>, w: World<X>): seq<Served<X>> {
    if IsRequest(c) then
      var r :| c == Body(r); [Served(r, Eval(c, w).out)]
    else
      match c
      case Return(_) => []
      case Throw(_) => []
      case Update(f, next) => Trace(next, f(w))
      case Branch(test, yes, no) => if test(w) then Trace(yes, w) else Trace(no, w)
      case CallSoon(_, next) => Trace(next, w)
      case Call(now, next) =>
        var e := Eval(now, w);
        Trace(now, w) + if e.out.Threw? then [] else Trace(next, e.app)
      case CallGet(asked, save, next) =>
        var e := Eval(asked, w);
        Trace(asked, w) + Trace(next, save(e.app, e.out))
  }

  /** Apart from these calls nothing that runs changes the table. */
  ghost predicate LeavesTable<X>(c: Code<World<X>, Reply<X>>, w: World<X>) {
    IsRequest(c) ||
    match c
    case Return(_) => true
    case Throw(_) => true
    case Update(f, next) => f(w).table == w.table && LeavesTable(next, f(w))
    case Branch(test, yes, no) => if test(w) then LeavesTable(yes, w) else LeavesTable(no, w)
    case CallSoon(_, next) => LeavesTable(next, w)
    case Call(now, next) =>
      var e := Eval(now, w);
      LeavesTable(now, w) && (e.out.Value? ==> LeavesTable(next, e.app))
    case CallGet(asked, save, next) =>
      var e := Eval(asked, w);
      LeavesTable(asked, w) && save(e.app, e.out).table == e.app.table && LeavesTable(next, save(e.app, e.out))
  }

  /** A body that is a request makes that call and no other. */
  lemma TraceOfRequest<X>(r: Request, w: World<X>)
    ensures Trace(Body(r), w) == [Served(r, Eval(Body(r), w).out)]
  {
    forall r': Request | Body<X>(r') == Body(r)
      ensures r' == r
    {
      BodyInjective(w.rest, r, r');
    }
  }

  lemma BodyInjective<X>(x: X, r: Request, r': Request)
    requires Body<X>(r) == Body(r')
    ensures r == r'
  {
    var w := World(map[r.port := Empty], x);
    if r.Listen? {
      assert Body<X>(r).test(w);
    } else {
      assert r.port !in Body<X>(r).f(w).table;
    }
  }

  /** The job that a listener posts to close itself: a `close_listener` inline, then anything else. */
  lemma InlineClose<X>(
    p: nat, save: (World<X>, Outcome<Reply<X>>) -> World<X>, result: World<X> -> Reply<X>, w: World<X>)
    requires forall v: World<X>, out :: save(v, out).table == v.table
    ensures var c := CallGet(Body(Close(p)), save, Return(result));
      LeavesTable(c, w) && Trace(c, w) == [Served(Close(p), Value(Void))]
  {
    var c, e := CallGet(Body(Close(p)), save, Return(result)), Eval(Body(Close(p)), w);
    TraceOfRequest(Close(p), w);
    BodyDoes(Close(p), w);
    assert IsRequest(c.asked) && !IsRequest(c) && !IsRequest(c.next);
    assert save(e.app, e.out).table == e.app.table;
    assert LeavesTable(c.asked, w) && LeavesTable(c.next, save(e.app, e.out));
    assert Trace(c.next, save(e.app, e.out)) == [];
    assert Trace(c, w) == Trace(c.asked, w) + [];
  }

  /** The port a listener believes to be its own: the one it is bound to, which the system chooses for port 0. */
  function LocalPort(requested: nat, chosen: nat): nat {
    if requested == 0 then chosen else requested
  }

  /** So a listener that closes itself removes its own entry exactly if it was not asked for on port 0. */
  lemma SelfCloseFreesItsEntry<X>(
    port: nat, chosen: nat, save: (World<X>, Outcome<Reply<X>>) -> World<X>, result: World<X> -> Reply<X>, w: World<X>)
    requires chosen != 0 && port in w.table
    requires forall v: World<X>, out :: save(v, out).table == v.table
    ensures var c := CallGet(Body(Close(LocalPort(port, chosen))), save, Return(result));
      port !in Eval(c, w).app.table <==> port != 0
  {
    var e := Eval(Body(Close(LocalPort(port, chosen))), w);
    BodyDoes(Close(LocalPort(port, chosen)), w);
    assert save(e.app, e.out).table == e.app.table;
  }

  function Requests<X>(calls: seq<Served<X>>): seq<Request> {
    seq(|calls|, i requires 0 <= i < |calls| => calls[i].req)
  }

  /** Every answer is that of the table at the time of the call, and the calls account for the whole change. */
  ghost predicate Explained<X>(calls: seq<Served<X>>, m: Table, m': Table) {
    && (forall i :: 0 <= i < |calls| ==> calls[i].out == Answer(calls[i].req, From(m, Requests(calls)[..i])))
    && m' == From(m, Requests(calls))
  }

  lemma ExplainedConcat<X>(x: seq<Served<X>>, y: seq<Served<X>>, m: Table, mid: Table, m': Table)
    requires Explained(x, m, mid) && Explained(y, mid, m')
    ensures Explained(x + y, m, m')
  {
    assert Requests(x + y) == Requests(x) + Requests(y);
    FromConcat(m, Requests(x), Requests(y));
    forall i | 0 <= i < |x + y|
      ensures (x + y)[i].out == Answer((x + y)[i].req, From(m, Requests(x + y)[..i]))
    {
      FromPrefix(x, y, m, i);
    }
  }

  lemma FromPrefix<X>(x: seq<Served<X>>, y: seq<Served<X>>, m: Table, i: nat)
    requires i < |x + y|
    ensures From(m, Requests(x + y)[..i]) ==
      if i < |x| then From(m, Requests(x)[..i]) else From(From(m, Requests(x)), Requests(y)[..i - |x|])
  {
    if i < |x| {
      assert Requests(x + y)[..i] == Requests(x)[..i];
    } else {
      assert Requests(x + y)[..i] == Requests(x) + Requests(y)[..i - |x|];
      FromConcat(m, Requests(x), Requests(y)[..i - |x|]);
    }
  }

  /** Whatever a body does, the calls it makes explain what becomes of the table, and each gets its answer. */
  lemma {:induction false} TraceExplains<X>(c: Code<World<X>, Reply<X>>, w: World<X>)
    requires LeavesTable(c, w)
    ensures Explained(Trace(c, w), w.table, Eval(c, w).app.table)
    decreases c
  {
    if IsRequest(c) {
      var r :| c == Body(r);
      TraceOfRequest(r, w);
      BodyDoes(r, w);
      assert Requests(Trace(c, w)) == [r] && [r][..0] == [];
    } else {
      match c
      case Return(_) =>
      case Throw(_) =>
      case Update(f, next) => TraceExplains(next, f(w));
      case Branch(test, yes, no) => TraceExplains(if test(w) then yes else no, w);
      case CallSoon(_, next) => TraceExplains(next, w);
      case Call(now, next) =>
        var e := Eval(now, w);
        TraceExplains(now, w);
        if e.out.Value? {
          TraceExplains(next, e.app);
          ExplainedConcat(Trace(now, w), Trace(next, e.app), w.table, e.app.table, Eval(c, w).app.table);
        } else {
          assert Trace(c, w) == Trace(now, w);
        }
      case CallGet(asked, save, next) =>
        var e := Eval(asked, w);
        TraceExplains(asked, w);
        TraceExplains(next, save(e.app, e.out));
        ExplainedConcat(Trace(asked, w), Trace(next, save(e.app, e.out)), w.table, e.app.table, Eval(c, w).app.table);
    }
  }

  /** All calls, in the single order. */
  ghost function Calls<X>(init: World<X>, done: seq<Done<World<X>, Reply<X>>>): seq<Served<X>> {
    if done == [] then []
    else
      var n := |done| - 1;
      Calls(init, done[..n]) + Trace(done[n].job.code, Replay(init, done[..n]))
  }

  ghost predicate OnlyCallsChange<X>(init: World<X>, done: seq<Done<World<X>, Reply<X>>>) {
    forall k :: 0 <= k < |done| ==> LeavesTable(done[k].job.code, Replay(init, done[..k]))
  }

  lemma {:induction false} CallsExplain<X>(init: World<X>, done: seq<Done<World<X>, Reply<X>>>)
    requires OnlyCallsChange(init, done)
    ensures Explained(Calls(init, done), init.table, Replay(init, done).table)
    decreases |done|
  {
    if done != [] {
      var n := |done| - 1;
      var before := done[..n];
      assert forall k :: 0 <= k < n ==> before[k] == done[k] && before[..k] == done[..k];
      CallsExplain(init, before);
      var w := Replay(init, before);
      TraceExplains(done[n].job.code, w);
      ExplainedConcat(Calls(init, before), Trace(done[n].job.code, w), init.table, w.table, Replay(init, done).table);
    }
  }

  // ---------------------------------------------------------------------------------------------
  // What the answers say

  /** A `listen` that was not refused: it has inserted an entry. */
  predicate Claims<X(==)>(e: Served<X>, p: nat) {
    e.req.Listen? && e.req.port == p && e.out != Threw(TAKEN)
  }

  predicate Won<X(==)>(e: Served<X>, p: nat) {
    e.req.Listen? && e.req.port == p && e.out == Value(True)
  }

  ghost predicate ClosedBetween<X>(calls: seq<Served<X>>, p: nat, i: int, k: int) {
    exists m :: i < m < k && 0 <= m < |calls| && calls[m].req == Close(p)
  }

  ghost predicate TakenAt<X>(calls: seq<Served<X>>, p: nat, k: int) {
    exists i :: 0 <= i < k <= |calls| && Claims(calls[i], p) && !ClosedBetween(calls, p, i, k)
  }

  ghost predicate OnePerPort<X>(calls: seq<Served<X>>) {
    // a listen is refused exactly when an earlier one was not and no close came in between
    && (forall k :: 0 <= k < |calls| && calls[k].req.Listen? ==>
          (calls[k].out == Threw(TAKEN) <==> TakenAt(calls, calls[k].req.port, k)))
    // so between two listens that succeed there is a close
    && (forall i, k, p :: 0 <= i < k < |calls| && Won(calls[i], p) && Won(calls[k], p) ==>
          ClosedBetween(calls, p, i, k))
  }

  lemma {:induction false} TakenIsRegistered<X>(calls: seq<Served<X>>, p: nat, k: nat)
    requires Explained(calls, map[], After(Requests(calls))) && k <= |calls|
    ensures TakenAt(calls, p, k) <==> p in After(Requests(calls)[..k])
    decreases k
  {
    if k > 0 {
      TakenIsRegistered(calls, p, k - 1);
      assert Requests(calls)[..k][..k - 1] == Requests(calls)[..k - 1];
      TakenSnoc(calls, p, k - 1);
    }
  }

  lemma TakenSnoc<X>(calls: seq<Served<X>>, p: nat, k: nat)
    requires k < |calls|
    ensures TakenAt(calls, p, k + 1) <==>
      Claims(calls[k], p) || (TakenAt(calls, p, k) && calls[k].req != Close(p))
  {
    if TakenAt(calls, p, k) && calls[k].req != Close(p) {
      var i :| 0 <= i < k && Claims(calls[i], p) && !ClosedBetween(calls, p, i, k);
      assert !ClosedBetween(calls, p, i, k + 1);
    }
    if Claims(calls[k], p) {
      assert !ClosedBetween(calls, p, k, k + 1);
    }
    if TakenAt(calls, p, k + 1) && !Claims(calls[k], p) {
      var i :| 0 <= i < k + 1 && Claims(calls[i], p) && !ClosedBetween(calls, p, i, k + 1);
      assert !ClosedBetween(calls, p, i, k);
    }
  }

  lemma ExplainedIsExclusive<X>(calls: seq<Served<X>>)
    requires Explained(calls, map[], After(Requests(calls)))
    ensures OnePerPort(calls)
  {
    forall k | 0 <= k < |calls| && calls[k].req.Listen?
      ensures calls[k].out == Threw(TAKEN) <==> TakenAt(calls, calls[k].req.port, k)
    {
      TakenIsRegistered(calls, calls[k].req.port, k);
    }
    forall i, k, p | 0 <= i < k < |calls| && Won(calls[i], p) && Won(calls[k], p)
      ensures ClosedBetween(calls, p, i, k)
    {
      assert !TakenAt(calls, p, k);
    }
  }

  // ---------------------------------------------------------------------------------------------
  // What happened to one port, in order

  /** `Opened` and `Closed` are the successes the callers wanted; `Claimed` is an insertion whose construction
  failed.  Losing listens and closes that find nothing leave no mark. */
  datatype Mark = Opened | Claimed | Closed

  function Marks(reqs: seq<Request>, p: nat): seq<Mark> {
    if reqs == [] then []
    else
      var r, before := reqs[|reqs| - 1], reqs[..|reqs| - 1];
      Marks(before, p) +
        if r.port != p then []
        else if r.Close? then (if p in After(before) then [Closed] else [])
        else if p in After(before) then []
        else if r.builds then [Opened] else [Claimed]
  }

  ghost predicate Alternate(ms: seq<Mark>) {
    forall i :: 0 <= i < |ms| ==> (ms[i].Closed? <==> i % 2 == 1)
  }

  /** Insertions and removals strictly alternate, and the port is registered exactly after an insertion. */
  lemma {:induction false} InsertionsAlternate(reqs: seq<Request>, p: nat)
    ensures Alternate(Marks(reqs, p))
    ensures p in After(reqs) <==> |Marks(reqs, p)| % 2 == 1
    ensures p in After(reqs) ==>
      After(reqs)[p] == if Marks(reqs, p)[|Marks(reqs, p)| - 1].Opened? then Listener else Empty
  {
    if reqs != [] {
      InsertionsAlternate(reqs[..|reqs| - 1], p);
    }
  }

  /** The marks the callers wanted, among the first `n`. */
  function Wanted(ms: seq<Mark>, n: nat): seq<Mark>
    requires n <= |ms|
  {
    if n == 0 then [] else Wanted(ms, n - 1) + if ms[n - 1].Claimed? then [] else [ms[n - 1]]
  }

  function Successes(ms: seq<Mark>): seq<Mark> {
    Wanted(ms, |ms|)
  }

  /** No entry that was left behind by a failed construction has been removed. */
  ghost predicate NoFailureClosed(ms: seq<Mark>) {
    forall i :: 0 <= i < |ms| && ms[i].Claimed? ==> i == |ms| - 1
  }

  lemma {:induction false} WantedIfClean(ms: seq<Mark>, n: nat)
    requires n <= |ms| && forall i :: 0 <= i < n ==> !ms[i].Claimed?
    ensures Wanted(ms, n) == ms[..n]
  {
    if n != 0 {
      WantedIfClean(ms, n - 1);
    }
  }

  lemma {:induction false} WantedGrows(ms: seq<Mark>, m: nat, n: nat)
    requires m <= n <= |ms|
    ensures Wanted(ms, m) <= Wanted(ms, n)
  {
    if m < n {
      WantedGrows(ms, m, n - 1);
    }
  }

  /** Successful listens and successful closes alternate exactly when no failed construction has been closed. */
  lemma SuccessesAlternate(ms: seq<Mark>)
    requires Alternate(ms)
    ensures Alternate(Successes(ms)) <==> NoFailureClosed(ms)
  {
    if NoFailureClosed(ms) {
      if ms != [] {
        WantedIfClean(ms, |ms| - 1);
      }
    } else {
      ClosedTooEarly(ms);
    }
  }

  lemma ClosedTooEarly(ms: seq<Mark>)
    requires Alternate(ms) && !NoFailureClosed(ms)
    ensures !Alternate(Successes(ms))
  {
    var i := FirstFailure(ms);
    WantedIfClean(ms, i);
    WantedGrows(ms, i + 2, |ms|);
    assert ms[i + 1].Closed? && i % 2 == 0;
    assert Wanted(ms, i + 1) == ms[..i];
    assert Wanted(ms, i + 2) == ms[..i] + [Closed];
    assert Successes(ms)[i] == Wanted(ms, i + 2)[i] == Closed;
  }

  lemma FirstFailure(ms: seq<Mark>) returns (i: nat)
    requires !NoFailureClosed(ms)
    ensures i < |ms| - 1 && ms[i].Claimed? && forall k :: 0 <= k < i ==> !ms[k].Claimed?
  {
    var n :| 0 <= n < |ms| - 1 && ms[n].Claimed?;
    i := 0;
    while !ms[i].Claimed?
      invariant i <= n
      invariant forall k :: 0 <= k < i ==> !ms[k].Claimed?
      decreases n - i
    {
      i := i + 1;
    }
  }

  // ---------------------------------------------------------------------------------------------
  // Any threads, any interleaving

  /** The construction of listeners succeeds. */
  predicate AllBuild(reqs: seq<Request>) {
    forall k :: 0 <= k < |reqs| && reqs[k].Listen? ==> reqs[k].builds
  }

  /** Then what the callers wanted is everything that happened. */
  lemma {:induction false} NothingIsClaimed(reqs: seq<Request>, p: nat)
    requires AllBuild(reqs)
    ensures forall i :: 0 <= i < |Marks(reqs, p)| ==> !Marks(reqs, p)[i].Claimed?
  {
    if reqs != [] {
      NothingIsClaimed(reqs[..|reqs| - 1], p);
    }
  }

  ghost predicate PortHistory(reqs: seq<Request>, p: nat) {
    && Alternate(Marks(reqs, p))
    && (Alternate(Successes(Marks(reqs, p))) <==> NoFailureClosed(Marks(reqs, p)))
    && (AllBuild(reqs) ==> Successes(Marks(reqs, p)) == Marks(reqs, p))
  }

  lemma PortsAlternate(reqs: seq<Request>, p: nat)
    ensures PortHistory(reqs, p)
  {
    InsertionsAlternate(reqs, p);
    SuccessesAlternate(Marks(reqs, p));
    if AllBuild(reqs) {
      NothingIsClaimed(reqs, p);
      WantedIfClean(Marks(reqs, p), |Marks(reqs, p)|);
    }
  }

  ghost predicate Accounted<X>(init: World<X>, s: State<World<X>, Reply<X>>) {
    && Linearizable(init, s)
    && Explained(Calls(init, s.done), map[], Replay(init, s.done).table)
    // a request that is a body of its own is among the calls, with the outcome its caller gets
    && (forall k, r :: 0 <= k < |s.done| && s.done[k].job.code == Body(r) ==>
          Trace(s.done[k].job.code, Replay(init, s.done[..k])) == [Served(r, s.done[k].out)])
    && (s.run.None? ==> s.app == Replay(init, s.done))
  }

  /** Registration is exclusive: over every interleaving of `listen` and `close_listener` from any threads and inside
  any bodies. */
  lemma RegistrationIsExclusive<X>(x: X, run: seq<Step<World<X>, Reply<X>>>)
    requires EventLoop.Valid(Start(World(map[], x)), run)
    requires OnlyCallsChange(World(map[], x), Exec(Start(World(map[], x)), run).done)
    ensures OnePerPort(Calls(World(map[], x), Exec(Start(World(map[], x)), run).done))
  {
    var init := World(map[], x);
    CallsExplain(init, Exec(Start(init), run).done);
    ExplainedIsExclusive(Calls(init, Exec(Start(init), run).done));
  }

  /** And these calls are all there is: their answers reach their callers, and they account for the table. */
  lemma CallsAreAccounted<X>(x: X, run: seq<Step<World<X>, Reply<X>>>)
    requires EventLoop.Valid(Start(World(map[], x)), run)
    requires OnlyCallsChange(World(map[], x), Exec(Start(World(map[], x)), run).done)
    ensures Accounted(World(map[], x), Exec(Start(World(map[], x)), run))
  {
    var init := World(map[], x);
    CallGetIsLinearizable(init, run);
    LoopPostsAreReplayed(init, run);
    SequentialIsAccounted(init, Exec(Start(init), run));
  }

  lemma SequentialIsAccounted<X>(init: World<X>, s: State<World<X>, Reply<X>>)
    requires Linearizable(init, s) && OnlyCallsChange(init, s.done) && init.table == map[]
    requires s.run.None? ==> s.app == Replay(init, s.done)
    ensures Accounted(init, s)
  {
    CallsExplain(init, s.done);
    forall k, r | 0 <= k < |s.done| && s.done[k].job.code == Body(r)
      ensures Trace(s.done[k].job.code, Replay(init, s.done[..k])) == [Served(r, s.done[k].out)]
    {
      assert InSequence(init, s, k);
      TraceOfRequest(r, Replay(init, s.done[..k]));
    }
  }

  /** A failed construction, a close that succeeds although no listen did, and a listen; this is about the two methods,
  whoever calls them. */
  lemma FailedConstructionBreaksAlternation()
    ensures var reqs: seq<Request> := [Listen(80, false), Close(80), Listen(80, true)];
      && Answer<nat>(reqs[0], After(reqs[..0])).Threw?
      && Marks(reqs, 80) == [Claimed, Closed, Opened]
      && !Alternate(Successes(Marks(reqs, 80)))
  {
    var reqs: seq<Request> := [Listen(80, false), Close(80), Listen(80, true)];
    assert reqs[..2] == [Listen(80, false), Close(80)];
    assert reqs[..2][..1] == [Listen(80, false)];
    assert reqs[..2][..1][..0] == [];
    assert After([]) == map[] && After(reqs[..2][..1]) == TableAfter(reqs[0], map[]);
    assert After(reqs[..2]) == TableAfter(reqs[1], After(reqs[..2][..1])) == map[];
    assert Marks(reqs[..2][..1], 80) == [Claimed];
    assert Marks(reqs[..2], 80) == [Claimed, Closed];
    InsertionsAlternate(reqs, 80);
    SuccessesAlternate(Marks(reqs, 80));
    assert Marks(reqs, 80)[0].Claimed?;
  }

  // ---------------------------------------------------------------------------------------------
  // The object

  /** The part of `endpoint` that these bodies work on, as the loop thread sees it: one body after the other. */
  class Endpoint<X> {
    var listeners: Table
    ghost var served: seq<Request>

    ghost predicate Valid()
      reads this
    {
      listeners == After(served)
    }

    constructor ()
      ensures Valid() && served == []
    {
      listeners, served := map[], [];
    }

    method Listen(port: nat, builds: bool) returns (out: Outcome<Reply<X>>)
      requires Valid()
      modifies this
      ensures Valid() && served == old(served) + [Request.Listen(port, builds)]
      ensures out == Answer(Request.Listen(port, builds), old(listeners))
      ensures port in old(listeners) ==> listeners == old(listeners)
      ensures out.Value? ==> port in listeners && listeners[port].Listener?
    {
      ghost var r := Request.Listen(port, builds);
      assert (served + [r])[..|served|] == served;
      served := served + [r];
      if port in listeners {
        return Threw("listener already exists");
      }
      listeners := listeners[port := Empty];
      if !builds {
        return Threw("construction failed");
      }
      listeners := listeners[port := Listener];
      out := Value(True);
    }

    method CloseListener(port: nat) returns (out: Outcome<Reply<X>>)
      requires Valid()
      modifies this
      ensures Valid() && served == old(served) + [Request.Close(port)]
      ensures out == Answer(Request.Close(port), old(listeners)) && port !in listeners
      ensures port !in old(listeners) ==> listeners == old(listeners)
    {
      assert (served + [Request.Close(port)])[..|served|] == served;
      served := served + [Request.Close(port)];
      listeners := listeners - {port};
      out := Value(Void);
    }
  }
}
