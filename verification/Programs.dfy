/** The callables that are handed to the event loop.

A job body is a finite tree of steps that run on the loop thread, so it terminates.  It reads and writes the state that
only the loop thread touches (`A`) with arbitrary functions and branches on it, it may use `call_soon`, `call` and
`call_get` of the same loop, and it ends by returning a value of type `V` or by throwing.  Which bodies it may post, and
how many steps it may take, are fixed before it runs: a posted body finds run-time data in the state instead of
capturing it, and a loop is a single step or unrolled.

Two meanings are given.  `Eval` is the plain one: `call` and `call_get` are function calls.  `Advance` is an
abstract machine that makes one small step at a time, so that other threads can interleave between the steps.
`AdvanceKeepsMeaning` connects the two.
*/
module Programs {

  datatype Outcome<+V> = Value(v: V) | Threw(what: string)

  datatype Code<!A, !V> =
    | Return(result: A -> V)
    | Throw(what: string)
    | Update(f: A -> A, next: Code<A, V>)
    | Branch(test: A -> bool, yes: Code<A, V>, no: Code<A, V>)
    | CallSoon(later: Code<A, V>, next: Code<A, V>)
    | Call(now: Code<A, V>, next: Code<A, V>)
    | CallGet(asked: Code<A, V>, save: (A, Outcome<V>) -> A, next: Code<A, V>)

  /** What running a body amounts to: the new state, the way it ended and the bodies it posted, in order. */
  datatype Effect<!A, !V> = Effect(app: A, out: Outcome<V>, posted: seq<Code<A, V>>)

  /** The simple meaning, for code that runs on the loop thread: `call` and `call_get` run their argument inline.
  An exception leaves `call` at once; the caller of `call_get` gets to see it (`save`). */
  function Eval<A, V>(c: Code<A, V>, app: A): Effect<A, V> {
    match c
    case Return(result) => Effect(app, Value(result(app)), [])
    case Throw(what) => Effect(app, Threw(what), [])
    case Update(f, next) => Eval(next, f(app))
    case Branch(test, yes, no) => if test(app) then Eval(yes, app) else Eval(no, app)
    case CallSoon(later, next) =>
      var r := Eval(next, app);
      Effect(r.app, r.out, [later] + r.posted)
    case Call(now, next) =>
      var r := Eval(now, app);
      if r.out.Threw? then r else
        var r' := Eval(next, r.app);
        Effect(r'.app, r'.out, r.posted + r'.posted)
    case CallGet(asked, save, next) =>
      var r := Eval(asked, app);
      var r' := Eval(next, save(r.app, r.out));
      Effect(r'.app, r'.out, r.posted + r'.posted)
  }

  /** What a callable throws leaves an inline `call` before anything else is done, and is handed to the caller of
  `call_get`, which goes on. */
  lemma ExceptionsTravel<A, V>(c: Code<A, V>, save: (A, Outcome<V>) -> A, next: Code<A, V>, app: A)
    requires Eval(c, app).out.Threw?
    ensures Eval(Call(c, next), app) == Eval(c, app)
    ensures var e, r := Eval(CallGet(c, save, next), app), Eval(next, save(Eval(c, app).app, Eval(c, app).out));
      e.app == r.app && e.out == r.out && e.posted == Eval(c, app).posted + r.posted
  {
  }

  /** What is left to do when an inline callable ends. */
  datatype Frame<!A, !V> =
    | AfterCall(next: Code<A, V>)
    | AfterGet(save: (A, Outcome<V>) -> A, next: Code<A, V>)
  {
    function Resume(out: Outcome<V>): Code<A, V> {
      if AfterCall? && out.Threw? then Throw(out.what) else next
    }

    function Store(app: A, out: Outcome<V>): A {
      if AfterGet? then save(app, out) else app
    }
  }

  datatype Config<!A, !V> = Config(code: Code<A, V>, stack: seq<Frame<A, V>>, app: A) {

    /** The callable at the bottom of the stack is about to end. */
    predicate Final() {
      stack == [] && (code.Return? || code.Throw?)
    }

    function Result(): Outcome<V>
      requires code.Return? || code.Throw?
    {
      if code.Return? then Value(code.result(app)) else Threw(code.what)
    }
  }

  /** One small step of the loop thread.  `CallSoon` is the only step with an effect outside the configuration:
  its argument is what `Posted` returns. */
  function Advance<A, V>(c: Config<A, V>): Config<A, V>
    requires !c.Final()
  {
    match c.code
    case Return(_) => Pop(c)
    case Throw(_) => Pop(c)
    case Update(f, next) => c.(code := next, app := f(c.app))
    case Branch(test, yes, no) => c.(code := if test(c.app) then yes else no)
    case CallSoon(_, next) => c.(code := next)
    case Call(now, next) => c.(code := now, stack := [AfterCall(next)] + c.stack)
    case CallGet(asked, save, next) => c.(code := asked, stack := [AfterGet(save, next)] + c.stack)
  }

  function Pop<A, V>(c: Config<A, V>): Config<A, V>
    requires c.stack != []
    requires c.code.Return? || c.code.Throw?
  {
    Config(c.stack[0].Resume(c.Result()), c.stack[1..], c.stack[0].Store(c.app, c.Result()))
  }

  function Posted<A, V>(c: Config<A, V>): seq<Code<A, V>> {
    if c.code.CallSoon? then [c.code.later] else []
  }

  /** The meaning of a configuration: evaluate its code, then everything that is waiting on the stack. */
  function Unwind<A, V>(c: Config<A, V>): Effect<A, V>
    decreases |c.stack|
  {
    var r := Eval(c.code, c.app);
    if c.stack == [] then r else
      var rest := Unwind(Config(c.stack[0].Resume(r.out), c.stack[1..], c.stack[0].Store(r.app, r.out)));
      Effect(rest.app, rest.out, r.posted + rest.posted)
  }

  function Prepend<A, V>(sent: seq<Code<A, V>>, e: Effect<A, V>): Effect<A, V> {
    Effect(e.app, e.out, sent + e.posted)
  }

  /** The machine refines the plain meaning: every small step keeps what the configuration means, up to the body
  it has just posted. */
  lemma AdvanceKeepsMeaning<A, V>(c: Config<A, V>)
    requires !c.Final()
    ensures Unwind(c) == Prepend(Posted(c), Unwind(Advance(c)))
  {
    var d := Advance(c);
    match c.code
    case Return(_) =>
    case Throw(_) =>
    case Update(_, _) =>
    case Branch(_, _, _) =>
    case CallSoon(later, next) =>
      var r := Eval(next, c.app);
      if c.stack != [] {
        var rest := Unwind(Config(c.stack[0].Resume(r.out), c.stack[1..], c.stack[0].Store(r.app, r.out)));
        assert ([later] + r.posted) + rest.posted == [later] + (r.posted + rest.posted);
      }
    case Call(now, next) =>
      var r := Eval(now, c.app);
      assert d.stack[1..] == c.stack;
      var mid := Config(AfterCall(next).Resume(r.out), c.stack, r.app);
      CallUnwinds(c, r, mid);
    case CallGet(asked, save, next) =>
      var r := Eval(asked, c.app);
      assert d.stack[1..] == c.stack;
      var mid := Config(next, c.stack, save(r.app, r.out));
      CallUnwinds(c, r, mid);
  }

  /** An inline call followed by the rest of its caller, however deep the stack below it is. */
  lemma CallUnwinds<A, V>(c: Config<A, V>, r: Effect<A, V>, mid: Config<A, V>)
    requires mid.stack == c.stack
    requires Eval(c.code, c.app) == Prepend(r.posted, Eval(mid.code, mid.app))
    ensures Unwind(c) == Prepend(r.posted, Unwind(mid))
  {
  }

  /** An upper bound on the number of loop steps a body takes; posting takes two, the push and the activation. */
  function Cost<A, V>(c: Code<A, V>): (n: nat)
    ensures n >= 1
  {
    match c
    case Return(_) => 1
    case Throw(_) => 1
    case Update(_, next) => 1 + Cost(next)
    case Branch(_, yes, no) => 1 + Max(Cost(yes), Cost(no))
    case CallSoon(_, next) => 2 + Cost(next)
    case Call(now, next) => 1 + Cost(now) + Cost(next)
    case CallGet(asked, _, next) => 1 + Cost(asked) + Cost(next)
  }

  function Max(x: nat, y: nat): nat { if x < y then y else x }

  function StackCost<A, V>(stack: seq<Frame<A, V>>): nat {
    if stack == [] then 0 else Cost(stack[0].next) + StackCost(stack[1..])
  }

  lemma AdvanceCosts<A, V>(c: Config<A, V>)
    requires !c.Final()
    ensures Cost(Advance(c).code) + StackCost(Advance(c).stack) + |Posted(c)| < Cost(c.code) + StackCost(c.stack)
  {
  }
}
