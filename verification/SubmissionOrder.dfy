/** Jobs are pushed in real-time order: a `call_soon` or `call_get` that returned before another call began has its job
pushed first, whichever threads made the two calls.
*/
module SubmissionOrder {
  import opened Programs
  import opened EventLoop
  import opened EventLoopInvariant
  import opened Linearizability

  ghost predicate LoggedBefore<A, V>(s: State<A, V>, e: Event<A, V>) {
    exists p :: 0 <= p < e.logged <= |s.log| && s.log[p] == e.job
  }

  ghost predicate Lined<A, V>(s: State<A, V>) {
    && (forall i, k :: 0 <= i <= k < |s.history| ==> s.history[i].logged <= s.history[k].logged <= |s.log|)
    && (forall i, p | 0 <= i < |s.history| && 0 <= p < |s.log| && s.history[i].Began? ::
          s.log[p] == s.history[i].job ==> s.history[i].logged <= p)
    && (forall i :: 0 <= i < |s.history| && !s.history[i].Began? ==> LoggedBefore(s, s.history[i]))
    && (forall t :: PcOf(s, t).Enqueued? || PcOf(s, t).Waiting? ==> PcOf(s, t).job in s.log)
  }

  lemma LinedKept<A, V>(init: A, s: State<A, V>, a: Step<A, V>)
    requires Inv(init, s) && Lined(s) && Enabled(s, a)
    ensures Lined(Next(s, a))
  {
    LogGrows(s, a);
    StampsLined(s, a);
    BeginsLined(s, a);
    ReturnsLined(s, a);
    CallsLined(s, a);
  }

  lemma StampsLined<A, V>(s: State<A, V>, a: Step<A, V>)
    requires Lined(s) && Enabled(s, a) && s.log <= Next(s, a).log
    ensures var s' := Next(s, a);
      forall i, k :: 0 <= i <= k < |s'.history| ==> s'.history[i].logged <= s'.history[k].logged <= |s'.log|
  {
    HistoryAfter(s, a);
    assert forall i :: 0 <= i < |s.history| ==> s.history[i].logged <= |s.log|;
  }

  lemma BeginsLined<A, V>(s: State<A, V>, a: Step<A, V>)
    requires InProgramOrder(s) && Lined(s) && Enabled(s, a) && s.log <= Next(s, a).log
    ensures var s' := Next(s, a); forall i, p | 0 <= i < |s'.history| && 0 <= p < |s'.log| && s'.history[i].Began? ::
      s'.log[p] == s'.history[i].job ==> s'.history[i].logged <= p
  {
    HistoryAfter(s, a);
    var s' := Next(s, a);
    forall i, p | 0 <= i < |s'.history| && 0 <= p < |s'.log| && s'.history[i].Began? && s'.log[p] == s'.history[i].job
      ensures s'.history[i].logged <= p
    {
      if i < |s.history| {
        assert s'.history[i] == s.history[i] && s.history[i].logged <= |s.log|;
        assert p < |s.log| ==> s'.log[p] == s.log[p];
      }
    }
  }

  lemma LoggedStays<A, V>(s: State<A, V>, s': State<A, V>, e: Event<A, V>)
    requires LoggedBefore(s, e) && s.log <= s'.log
    ensures LoggedBefore(s', e)
  {
  }

  lemma ReturnsLined<A, V>(s: State<A, V>, a: Step<A, V>)
    requires Lined(s) && Enabled(s, a) && s.log <= Next(s, a).log
    ensures var s' := Next(s, a);
      forall i :: 0 <= i < |s'.history| && !s'.history[i].Began? ==> LoggedBefore(s', s'.history[i])
  {
    HistoryAfter(s, a);
    var s' := Next(s, a);
    forall i | 0 <= i < |s'.history| && !s'.history[i].Began?
      ensures LoggedBefore(s', s'.history[i])
    {
      if i < |s.history| {
        assert s'.history[i] == s.history[i];
        LoggedStays(s, s', s.history[i]);
      } else {
        assert PcOf(s, a.t).job in s.log;
      }
    }
  }

  lemma CallsLined<A, V>(s: State<A, V>, a: Step<A, V>)
    requires Lined(s) && Enabled(s, a) && Next(s, a).log == s.log + Pushed(s, a)
    ensures var s' := Next(s, a);
      forall t :: PcOf(s', t).Enqueued? || PcOf(s', t).Waiting? ==> PcOf(s', t).job in s'.log
  {
    OthersStay(s, a);
  }

  lemma {:induction false} LinedOnRuns<A, V>(init: A, s: State<A, V>, run: seq<Step<A, V>>)
    requires Inv(init, s) && Lined(s) && Valid(s, run)
    ensures Lined(Exec(s, run)) && Inv(init, Exec(s, run))
    decreases |run|
  {
    if run != [] {
      LinedKept(init, s, run[0]);
      InvKept(init, s, run[0]);
      LinedOnRuns(init, Next(s, run[0]), run[1..]);
    }
  }

  lemma {:induction false} LinedReachable<A, V>(init: A, run: seq<Step<A, V>>)
    requires Valid(Start(init), run)
    ensures Lined(Exec(Start(init), run)) && Inv(init, Exec(Start(init), run))
  {
    StartInv<A, V>(init);
    StartLined<A, V>(init);
    LinedOnRuns(init, Start(init), run);
  }

  lemma StartLined<A, V>(init: A)
    ensures Lined<A, V>(Start(init))
  {
    var s: State<A, V> := Start(init);
    assert s.history == [] && s.log == [];
  }

  ghost predicate Fifo<A, V>(s: State<A, V>) {
    forall i, k, p, q |
      0 <= i < k < |s.history| && !s.history[i].Began? && s.history[k].Began? && 0 <= p < |s.log| && 0 <= q < |s.log| ::
      s.log[p] == s.history[i].job && s.log[q] == s.history[k].job ==> p < q
  }

  /** In every interleaving and across threads; and a call that returned has pushed its job. */
  lemma {:induction false} SubmissionsAreFifo<A, V>(init: A, run: seq<Step<A, V>>)
    requires Valid(Start(init), run)
    ensures var s := Exec(Start(init), run);
      Fifo(s) && forall i :: 0 <= i < |s.history| && !s.history[i].Began? ==> s.history[i].job in s.log
  {
    LinedReachable(init, run);
    LinedIsFifo(Exec(Start(init), run));
  }

  lemma LinedIsFifo<A, V>(s: State<A, V>)
    requires Lined(s) && Distinct(s.log)
    ensures Fifo(s)
    ensures forall i :: 0 <= i < |s.history| && !s.history[i].Began? ==> s.history[i].job in s.log
  {
    forall i | 0 <= i < |s.history| && !s.history[i].Began?
      ensures s.history[i].job in s.log
      ensures forall p :: 0 <= p < |s.log| && s.log[p] == s.history[i].job ==> p < s.history[i].logged
    {
      assert LoggedBefore(s, s.history[i]);
    }
  }
}
