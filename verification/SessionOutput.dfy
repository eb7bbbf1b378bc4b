/** The sending side of an inbound session.

nghttp2 is a queue of serialised chunks; reading input may add any number of them.  `nghttp2_session_send` offers them
to `send_hook` one by one until the queue is empty or the hook refuses.  The bufferevent is a byte queue that the
network drains; draining it completely makes the write callback due.  Callbacks are deferred, so reads may come between
the drain and the write callback.  A chunk is never empty, and nghttp2 wants to write exactly when it has chunks.
*/
module SessionOutput {
  import opened Basics

  type Chunk = c: seq<Byte> | c != [] witness [0]

  const OUTPUT_BLOCK_THRESHOLD: nat := 65536
  const NGHTTP2_ERR_WOULDBLOCK: int := -504

  datatype State = State(
    pending: seq<Chunk>,
    output: seq<Byte>,
    writeDue: bool,
    closeRequested: bool,
    // history
    failed: bool,              // a read has failed, which requests a close without sending
    produced: seq<Chunk>,
    accepted: seq<Byte>,
    drained: seq<Byte>)

  const START := State([], [], false, false, false, [], [], [])

  function Flat(cs: seq<Chunk>): seq<Byte> {
    if cs == [] then [] else cs[0] + Flat(cs[1..])
  }

  lemma {:induction false} FlatConcat(x: seq<Chunk>, y: seq<Chunk>)
    ensures Flat(x + y) == Flat(x) + Flat(y)
  {
    if x == [] {
      assert x + y == y;
    } else {
      FlatConcat(x[1..], y);
      assert (x + y)[1..] == x[1..] + y;
      assert x[0] + (Flat(x[1..]) + Flat(y)) == (x[0] + Flat(x[1..])) + Flat(y);
    }
  }

  // ---------------------------------------------------------------------------------------------
  // What a send amounts to

  /** How many of the first chunks are accepted. */
  function Accepts(pending: seq<Chunk>, room: int): nat {
    if pending == [] || room <= 0 then 0 else 1 + Accepts(pending[1..], room - |pending[0]|)
  }

  function Sent(s: State): seq<Byte>
    requires Accepts(s.pending, OUTPUT_BLOCK_THRESHOLD - |s.output|) <= |s.pending|
  {
    Flat(s.pending[..Accepts(s.pending, OUTPUT_BLOCK_THRESHOLD - |s.output|)])
  }

  lemma {:induction false} AcceptsFit(pending: seq<Chunk>, room: int)
    ensures Accepts(pending, room) <= |pending|
    ensures var n := Accepts(pending, room);
      && (n < |pending| ==> |Flat(pending[..n])| >= room)
      && (forall k :: 0 <= k < n ==> |Flat(pending[..k])| < room)
  {
    if pending != [] && room > 0 {
      var n := Accepts(pending[1..], room - |pending[0]|);
      AcceptsFit(pending[1..], room - |pending[0]|);
      assert pending[..n + 1][1..] == pending[1..][..n];
      forall k | 0 <= k < n + 1
        ensures |Flat(pending[..k])| < room
      {
        if k > 0 {
          assert pending[..k][1..] == pending[1..][..k - 1];
        }
      }
    }
  }

  function Flushed(s: State): State {
    AcceptsFit(s.pending, OUTPUT_BLOCK_THRESHOLD - |s.output|);
    var n := Accepts(s.pending, OUTPUT_BLOCK_THRESHOLD - |s.output|);
    s.(pending := s.pending[n..], output := s.output + Sent(s), accepted := s.accepted + Sent(s))
  }

  datatype Step =
    | Initial(settings: seq<Chunk>)             // `send_initial`
    | Read(ok: bool, answers: seq<Chunk>)       // the read callback; nghttp2 answers with these chunks
    | Write(wantRead: bool)                     // the write callback
    | Drain(n: nat)                             // the network takes n bytes

  predicate Enabled(s: State, a: Step) {
    match a
    case Write(_) => s.writeDue
    case Drain(n) => 0 < n <= |s.output|
    case _ => true
  }

  function Next(s: State, a: Step): State
    requires Enabled(s, a)
  {
    match a
    case Initial(settings) => Flushed(Produced(s, settings))
    case Read(ok, answers) =>
      if ok then Flushed(Produced(s, answers))
      else Produced(s, answers).(closeRequested := true, failed := true)
    case Write(wantRead) =>
      var s' := s.(writeDue := false);
      if |s.output| > 0 then s'
      else if !wantRead && s.pending == [] then s'.(closeRequested := true)
      else Flushed(s')
    case Drain(n) =>
      s.(output := s.output[n..], drained := s.drained + s.output[..n], writeDue := s.writeDue || n == |s.output|)
  }

  function Produced(s: State, cs: seq<Chunk>): State {
    s.(pending := s.pending + cs, produced := s.produced + cs)
  }

  predicate Valid(s: State, run: seq<Step>)
    decreases |run|
  {
    run == [] || (Enabled(s, run[0]) && Valid(Next(s, run[0]), run[1..]))
  }

  function Exec(s: State, run: seq<Step>): State
    requires Valid(s, run)
    decreases |run|
  {
    if run == [] then s else Exec(Next(s, run[0]), run[1..])
  }

  // ---------------------------------------------------------------------------------------------
  // Invariants

  /** No byte is lost, repeated or reordered between nghttp2 and the network. */
  ghost predicate Conserved(s: State) {
    && s.accepted == s.drained + s.output
    && Flat(s.produced) == s.accepted + Flat(s.pending)
  }

  ghost predicate Flowing(s: State) {
    s.pending != [] && !s.failed ==> s.output != [] || s.writeDue
  }

  ghost predicate Small(cs: seq<Chunk>, largest: nat) {
    forall i :: 0 <= i < |cs| ==> |cs[i]| <= largest
  }

  ghost predicate Bounded(s: State, largest: nat) {
    Small(s.pending, largest) && (s.output == [] || |s.output| < 0x1_0000 + largest)
  }

  /** A send accepts a prefix of the chunks and keeps the rest; what it keeps it keeps because the buffer is full. */
  lemma FlushedConserves(s: State)
    requires Conserved(s)
    ensures Conserved(Flushed(s))
  {
    AcceptsFit(s.pending, OUTPUT_BLOCK_THRESHOLD - |s.output|);
    var n := Accepts(s.pending, OUTPUT_BLOCK_THRESHOLD - |s.output|);
    var sent, kept := s.pending[..n], s.pending[n..];
    assert s.pending == sent + kept;
    FlatConcat(sent, kept);
    Reassociate(s.accepted, Flat(sent), Flat(kept));
    Reassociate(s.drained, s.output, Flat(sent));
  }

  lemma FlushedFills(s: State)
    ensures Flushed(s).pending == [] || |Flushed(s).output| >= OUTPUT_BLOCK_THRESHOLD
    ensures s.pending != [] && |s.output| < OUTPUT_BLOCK_THRESHOLD ==> |Flushed(s).pending| < |s.pending|
  {
    AcceptsFit(s.pending, OUTPUT_BLOCK_THRESHOLD - |s.output|);
  }

  lemma FlushedKeepsBytes(s: State)
    ensures Flushed(s).output + Flat(Flushed(s).pending) == s.output + Flat(s.pending)
    ensures |s.output| >= OUTPUT_BLOCK_THRESHOLD ==> Flushed(s).output == s.output
  {
    AcceptsFit(s.pending, OUTPUT_BLOCK_THRESHOLD - |s.output|);
    var n := Accepts(s.pending, OUTPUT_BLOCK_THRESHOLD - |s.output|);
    assert s.pending == s.pending[..n] + s.pending[n..];
    FlatConcat(s.pending[..n], s.pending[n..]);
    Reassociate(s.output, Flat(s.pending[..n]), Flat(s.pending[n..]));
    if n == 0 {
      assert s.pending[..0] == [] && s.output + [] == s.output;
    }
  }

  lemma FlushedBounded(s: State, largest: nat)
    requires Bounded(s, largest)
    ensures Bounded(Flushed(s), largest)
  {
    AcceptsFit(s.pending, OUTPUT_BLOCK_THRESHOLD - |s.output|);
    var n := Accepts(s.pending, OUTPUT_BLOCK_THRESHOLD - |s.output|);
    if n > 0 {
      var last := s.pending[n - 1];
      assert s.pending[..n] == s.pending[..n - 1] + [last];
      FlatConcat(s.pending[..n - 1], [last]);
      assert Flat([last]) == last;
    }
  }

  lemma ConservedKept(s: State, a: Step)
    requires Conserved(s) && Enabled(s, a)
    ensures Conserved(Next(s, a))
  {
    match a
    case Initial(cs) => ProducedConserves(s, cs); FlushedConserves(Produced(s, cs));
    case Read(_, cs) => ProducedConserves(s, cs); FlushedConserves(Produced(s, cs));
    case Write(_) => FlushedConserves(s.(writeDue := false));
    case Drain(n) => DrainConserves(s, n);
  }

  lemma DrainConserves(s: State, n: nat)
    requires Conserved(s) && Enabled(s, Drain(n))
    ensures Conserved(Next(s, Drain(n)))
  {
  }

  lemma ProducedConserves(s: State, cs: seq<Chunk>)
    requires Conserved(s)
    ensures Conserved(Produced(s, cs))
  {
    FlatConcat(s.produced, cs);
    FlatConcat(s.pending, cs);
  }

  /** Sending stalls only by a failing read, which requests a close. */
  lemma FlowingKept(s: State, a: Step)
    requires Flowing(s) && Enabled(s, a)
    ensures Flowing(Next(s, a))
    ensures Next(s, a).failed ==> s.failed || a.Read?
  {
    match a
    case Initial(cs) => FlushedFills(Produced(s, cs));
    case Read(_, cs) => FlushedFills(Produced(s, cs));
    case Write(_) => FlushedFills(s.(writeDue := false));
    case Drain(_) =>
  }

  /** There is a way for what is pending to be sent. */
  ghost predicate Moving(s: State) {
    s.pending != [] ==> s.output != [] || s.writeDue
  }

  /** One callback stalls sending exactly when it is a read that fails after nghttp2 has queued something, with nothing
  buffered and no write callback due. */
  lemma StallsExactlyOnFailure(s: State, a: Step)
    requires Moving(s) && Enabled(s, a)
    ensures Moving(Next(s, a)) <==> !(a.Read? && !a.ok && s.pending + a.answers != [] && s.output == [] && !s.writeDue)
  {
    match a
    case Initial(cs) => FlushedFills(Produced(s, cs));
    case Read(_, cs) => FlushedFills(Produced(s, cs));
    case Write(_) => FlushedFills(s.(writeDue := false));
    case Drain(_) =>
  }

  /** For example: the settings are sent and drained, the write callback finds nothing to do, then a read fails. */
  lemma FailedReadStalls(settings: Chunk, c: Chunk)
    ensures var run := [Initial([settings]), Drain(|settings|), Write(true)];
      && Valid(START, run)
      && Moving(Exec(START, run)) && !Moving(Next(Exec(START, run), Read(false, [c])))
  {
    var run := [Initial([settings]), Drain(|settings|), Write(true)];
    var s1 := Next(START, run[0]);
    FlushedOnce(Produced(START, [settings]));
    FlushedDone(s1);
    assert s1.pending == [] && s1.output == settings;
    var s2 := Next(s1, run[1]);
    FlushedDone(s2.(writeDue := false));
    var s3 := Next(s2, run[2]);
    assert run[1..] == [run[1], run[2]] && run[1..][1..] == [run[2]] && run[1..][1..][1..] == [];
    assert Valid(s3, []) && Valid(s2, run[1..][1..]) && Valid(s1, run[1..]);
    assert Exec(s2, run[1..][1..]) == Exec(s3, run[1..][1..][1..]) == s3;
    assert Exec(s1, run[1..]) == Exec(s2, run[1..][1..]);
    assert s3.pending == [] && s3.output == [] && !s3.writeDue;
  }

  ghost predicate SmallStep(a: Step, largest: nat) {
    && (a.Initial? ==> Small(a.settings, largest))
    && (a.Read? ==> Small(a.answers, largest))
  }

  lemma BoundedKept(s: State, a: Step, largest: nat)
    requires Bounded(s, largest) && Enabled(s, a) && SmallStep(a, largest)
    ensures Bounded(Next(s, a), largest)
  {
    match a
    case Initial(cs) => FlushedBounded(Produced(s, cs), largest);
    case Read(_, cs) => FlushedBounded(Produced(s, cs), largest);
    case Write(_) => FlushedBounded(s.(writeDue := false), largest);
    case Drain(_) =>
  }

  lemma {:induction false} InvOnRuns(s: State, run: seq<Step>)
    requires Conserved(s) && Flowing(s) && Valid(s, run)
    ensures Conserved(Exec(s, run)) && Flowing(Exec(s, run))
    decreases |run|
  {
    if run != [] {
      ConservedKept(s, run[0]);
      FlowingKept(s, run[0]);
      InvOnRuns(Next(s, run[0]), run[1..]);
    }
  }

  // ---------------------------------------------------------------------------------------------
  // The theorems

  /** Over every interleaving of reading, draining and write callbacks: what the network got, followed by what is
  buffered, followed by what nghttp2 still holds, is what nghttp2 produced; and unless a read failed, sending never
  stalls.  In particular, when nothing is buffered and no callback is due, everything has been sent. */
  lemma SendingNeverStalls(run: seq<Step>)
    requires Valid(START, run)
    ensures var s := Exec(START, run);
      && s.drained + s.output + Flat(s.pending) == Flat(s.produced)
      && s.accepted == s.drained + s.output
      && (s.pending != [] && !s.failed ==> s.output != [] || s.writeDue)
      && (s.output == [] && !s.writeDue && !s.failed ==> s.drained == Flat(s.produced))
  {
    InvOnRuns(START, run);
    var s := Exec(START, run);
    if s.pending == [] && s.output == [] {
      assert s.drained + [] == s.drained;
    }
  }

  /** The buffer never holds more than the threshold and one chunk. */
  lemma {:induction false} OutputIsBounded(s: State, run: seq<Step>, largest: nat)
    requires Bounded(s, largest) && Valid(s, run) && forall i :: 0 <= i < |run| ==> SmallStep(run[i], largest)
    ensures Bounded(Exec(s, run), largest)
    decreases |run|
  {
    if run != [] {
      BoundedKept(s, run[0], largest);
      OutputIsBounded(Next(s, run[0]), run[1..], largest);
    }
  }

  /** In every run: when a write callback is the first to request the close, for want of IO, then everything that
  nghttp2 has produced has been accepted and is with the network. */
  lemma ClosesOnlyWhenDrained(run: seq<Step>, wantRead: bool)
    requires Valid(START, run) && Enabled(Exec(START, run), Write(wantRead))
    requires !Exec(START, run).closeRequested && Next(Exec(START, run), Write(wantRead)).closeRequested
    ensures var s := Next(Exec(START, run), Write(wantRead));
      s.drained == s.accepted == Flat(s.produced) && s.output == [] && s.pending == [] && !wantRead
  {
    InvOnRuns(START, run);
    var s := Exec(START, run);
    assert s.drained + [] == s.drained && s.accepted + [] == s.accepted;
  }

  /** A read that fails, or a write callback that finds nothing buffered, nothing to send and nothing to read for. */
  predicate RequestsClose(s: State, a: Step) {
    (a.Read? && !a.ok) || (a.Write? && !a.wantRead && s.output == [] && s.pending == [])
  }

  ghost predicate ClosesAt(s: State, run: seq<Step>, k: nat) {
    k < |run| && Valid(s, run[..k]) && RequestsClose(Exec(s, run[..k]), run[k])
  }

  /** In every run the session is asked to close by these steps and by no others. */
  lemma CloseIsRequestedExactly(run: seq<Step>)
    requires Valid(START, run)
    ensures Exec(START, run).closeRequested <==> exists k :: ClosesAt(START, run, k)
  {
    RequestedExactly(START, run);
  }

  lemma {:induction false} RequestedExactly(s: State, run: seq<Step>)
    requires Valid(s, run)
    ensures Exec(s, run).closeRequested <==> s.closeRequested || exists k :: ClosesAt(s, run, k)
    decreases |run|
  {
    if run != [] {
      var n, rest := Next(s, run[0]), run[1..];
      RequestedExactly(n, rest);
      assert n.closeRequested <==> s.closeRequested || RequestsClose(s, run[0]);
      FirstCloses(s, run);
      forall k: nat | k < |rest|
        ensures ClosesAt(n, rest, k) <==> ClosesAt(s, run, k + 1)
      {
        LaterCloses(s, run, k);
      }
      if k: nat :| ClosesAt(s, run, k) {
        assert k > 0 ==> ClosesAt(n, rest, k - 1);
      }
    }
  }

  lemma FirstCloses(s: State, run: seq<Step>)
    requires run != []
    ensures ClosesAt(s, run, 0) <==> RequestsClose(s, run[0])
  {
    assert run[..0] == [] && Valid(s, []);
  }

  lemma LaterCloses(s: State, run: seq<Step>, k: nat)
    requires run != [] && Enabled(s, run[0]) && k < |run| - 1
    ensures ClosesAt(Next(s, run[0]), run[1..], k) <==> ClosesAt(s, run, k + 1)
  {
    assert run[..k + 1][0] == run[0] && run[..k + 1][1..] == run[1..][..k];
  }

  /** Draining alone brings everything out: from every state in which sending flows, the network only has to keep
  taking bytes, and the write callbacks do the rest. */
  lemma {:induction false} EverythingIsDelivered(s: State) returns (run: seq<Step>)
    requires Conserved(s) && Flowing(s) && !s.failed
    ensures Valid(s, run) && forall i :: 0 <= i < |run| ==> run[i].Drain? || run[i].Write?
    ensures |run| <= 2 * |s.pending| + 2
    ensures var s' := Exec(s, run); s'.pending == [] && s'.output == [] && s'.drained == Flat(s.produced)
    decreases |s.pending|, 1
  {
    if s.output != [] {
      var s1 := Next(s, Drain(|s.output|));
      ConservedKept(s, Drain(|s.output|));
      var rest := DeliverEmpty(s1);
      run := [Drain(|s.output|)] + rest;
      assert run[1..] == rest;
    } else {
      run := DeliverEmpty(s);
    }
  }

  lemma {:induction false} DeliverEmpty(s: State) returns (run: seq<Step>)
    requires Conserved(s) && Flowing(s) && !s.failed && s.output == []
    ensures Valid(s, run) && forall i :: 0 <= i < |run| ==> run[i].Drain? || run[i].Write?
    ensures |run| <= 2 * |s.pending| + 1
    ensures var s' := Exec(s, run); s'.pending == [] && s'.output == [] && s'.drained == Flat(s.produced)
    decreases |s.pending|, 0
  {
    if s.pending == [] {
      run := [];
      assert s.drained + [] == s.drained;
    } else {
      var s1 := Next(s, Write(true));
      ConservedKept(s, Write(true));
      FlowingKept(s, Write(true));
      FlushedFills(s.(writeDue := false));
      assert |s1.pending| < |s.pending|;
      var rest := EverythingIsDelivered(s1);
      run := [Write(true)] + rest;
      assert run[1..] == rest;
    }
  }

  // ---------------------------------------------------------------------------------------------
  // The object

  /** The fields of `session_base` and of the two libraries that sending uses.  `View` is the state of the transition
  system; every callback makes exactly its step. */
  class Session {
    var pending: seq<Chunk>
    var output: seq<Byte>
    var writeDue: bool
    var closeRequested: bool

    ghost var failed: bool
    ghost var produced: seq<Chunk>
    ghost var accepted: seq<Byte>
    ghost var drained: seq<Byte>

    ghost function View(): State
      reads this
    {
      State(pending, output, writeDue, closeRequested, failed, produced, accepted, drained)
    }

    constructor ()
      ensures View() == START
    {
      pending, output, writeDue, closeRequested := [], [], false, false;
      failed, produced, accepted, drained := false, [], [], [];
    }

    /** A refusal changes nothing; otherwise the whole chunk is taken. */
    method SendHook(data: Chunk) returns (r: int)
      modifies this`output, this`accepted
      ensures |old(output)| >= 0x1_0000 ==> r == -504 && output == old(output) && accepted == old(accepted)
      ensures |old(output)| < 0x1_0000 ==>
        r == |data| && output == old(output) + data && accepted == old(accepted) + data
    {
      if |output| >= OUTPUT_BLOCK_THRESHOLD {
        return NGHTTP2_ERR_WOULDBLOCK;
      }
      output := output + data;
      accepted := accepted + data;
      r := |data|;
    }

    /** `nghttp2_session_send`: offer chunks until there is none or the hook refuses. */
    method SendSessionData()
      modifies this
      ensures View() == Flushed(old(View()))
      ensures closeRequested == old(closeRequested) && writeDue == old(writeDue)
      ensures pending == [] || |output| >= 0x1_0000
      ensures output + Flat(pending) == old(output + Flat(pending))
      ensures |old(output)| >= 0x1_0000 ==> output == old(output)
    {
      ghost var total := Flushed(View());
      var blocked := false;
      while pending != [] && !blocked
        invariant failed == old(failed) && produced == old(produced) && drained == old(drained)
        invariant writeDue == old(writeDue) && closeRequested == old(closeRequested)
        invariant Flushed(View()) == total
        invariant blocked ==> |output| >= OUTPUT_BLOCK_THRESHOLD
        decreases |pending|, !blocked
      {
        if |output| < OUTPUT_BLOCK_THRESHOLD {
          FlushedOnce(View());
        }
        var r := SendHook(pending[0]);
        if r == NGHTTP2_ERR_WOULDBLOCK {
          blocked := true;
        } else {
          pending := pending[1..];
        }
      }
      FlushedDone(View());
      FlushedFills(old(View()));
      FlushedKeepsBytes(old(View()));
    }

    method SendInitial(settings: seq<Chunk>)
      modifies this
      ensures View() == Next(old(View()), Initial(settings))
      ensures closeRequested == old(closeRequested) && writeDue == old(writeDue)
      ensures pending == [] || |output| >= 0x1_0000
      ensures output + Flat(pending) == old(output) + Flat(old(pending) + settings)
    {
      pending, produced := pending + settings, produced + settings;
      assert View() == Produced(old(View()), settings);
      SendSessionData();
    }

    method ReadSessionData(ok: bool, answers: seq<Chunk>)
      modifies this
      ensures View() == Next(old(View()), Read(ok, answers))
      ensures writeDue == old(writeDue) && closeRequested == (old(closeRequested) || !ok)
      // a failed read sends nothing, another one all that fits
      ensures !ok ==> output == old(output) && pending == old(pending) + answers
      ensures ok ==> pending == [] || |output| >= 0x1_0000
      ensures output + Flat(pending) == old(output) + Flat(old(pending) + answers)
    {
      pending, produced := pending + answers, produced + answers;
      assert View() == Produced(old(View()), answers);
      if !ok {
        closeRequested, failed := true, true;
        return;
      }
      SendSessionData();
    }

    method WriteSessionData(wantRead: bool)
      requires writeDue
      modifies this
      ensures View() == Next(old(View()), Write(wantRead)) && !writeDue
      // bytes left over: nothing; nothing left at all: close; else send
      ensures old(output) != [] ==> output == old(output) && pending == old(pending)
      ensures closeRequested == (old(closeRequested) || (!wantRead && old(output) == [] && old(pending) == []))
      ensures old(output) == [] ==> pending == [] || |output| >= 0x1_0000
      ensures output + Flat(pending) == old(output + Flat(pending))
    {
      writeDue := false;
      if |output| > 0 {
        return;
      }
      if !wantRead && pending == [] {
        closeRequested := true;
        return;
      }
      SendSessionData();
    }
  }

  /** The first turn of the sending loop. */
  lemma FlushedOnce(s: State)
    requires s.pending != [] && |s.output| < OUTPUT_BLOCK_THRESHOLD
    ensures var c := s.pending[0];
      Flushed(s) == Flushed(s.(pending := s.pending[1..], output := s.output + c, accepted := s.accepted + c))
  {
    var c, rest := s.pending[0], s.pending[1..];
    var room := OUTPUT_BLOCK_THRESHOLD - |s.output|;
    AcceptsFit(s.pending, room);
    AcceptsFit(rest, room - |c|);
    var n := Accepts(rest, room - |c|);
    assert s.pending[..n + 1][0] == c && s.pending[..n + 1][1..] == rest[..n];
    assert s.output + (c + Flat(rest[..n])) == (s.output + c) + Flat(rest[..n]);
    assert s.accepted + (c + Flat(rest[..n])) == (s.accepted + c) + Flat(rest[..n]);
  }

  lemma FlushedDone(s: State)
    requires s.pending == [] || |s.output| >= OUTPUT_BLOCK_THRESHOLD
    ensures Flushed(s) == s
  {
  }
}
