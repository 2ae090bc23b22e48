/**
 The two grains of the write pump agree: until a reactor is cancelled, every run of the fine-grained pump with
 flushes one at a time is a run of the pump whose `_flush` is one step. The step that counts is the
 dequeue; the store to `_is_writing` and the StartWrite that follow it change nothing in the coarse view.
 */
module PumpRefinement {
  import opened Common
  import opened PumpSteps
  import W = WritePump

  function Upto(n: nat): seq<nat> { seq(n, i => i) }

  /** A write is on its way: `_is_writing` is set, or the thread that dequeued is about to set it. */
  ghost predicate Engaged(s: State) {
    s.core.writing || exists t, m :: At(s, t, FlushMark(m))
  }

  /** The coarse view of a state that is not cancelled. Finish is called only after a cancellation. */
  ghost function Coarse(s: State): W.Pump<nat>
    requires Gone(s.core) >= 0
  {
    W.Pump(Engaged(s), false, s.core.queue, Upto(s.core.accepted), Upto(Gone(s.core)), if Engaged(s) then 1 else 0, [])
  }

  /** The coarse operation of a step, if it is one. */
  function OpOf(s: State, a: Label): Option<W.Op<nat>> {
    if Before(s, a) == Some(SendPut) then Some(W.Accept(s.core.accepted))
    else if Before(s, a) == Some(FlushTake) then Some(W.Flush)
    else if Before(s, a).Some? && Before(s, a).value.DoneClear? then Some(W.Completed)
    else None
  }

  /** The thread that dequeues finds the pump idle. */
  lemma TakesWhenIdle(s: State, t: nat)
    requires Inv(s) && s.serialised && !s.core.cancelled && At(s, t, FlushTake)
    ensures !Engaged(s) && s.core.outstanding == 0
  {
    assert MayStart(FlushTake) && Flushing(FlushTake);
    if s.core.writing {
      var u, pc :| At(s, u, pc) && WillClear(pc);
      assert Flushing(pc);
    }
    forall u, m
      ensures !At(s, u, FlushMark(m))
    {
      assert Flushing(FlushMark(m));
    }
  }

  /** OnWriteDone clears a flag that is set, with no other write on its way. */
  lemma ClearsWhenEngaged(s: State, t: nat, ok: bool)
    requires Inv(s) && s.serialised && !s.core.cancelled && At(s, t, DoneClear(ok))
    ensures s.core.writing && forall u, m :: !At(s, u, FlushMark(m))
  {
    forall u, m
      ensures !At(s, u, FlushMark(m))
    {
      assert MayStart(FlushMark(m));
    }
  }

  lemma CoarseStep(s: State, a: Label)
    requires Inv(s) && s.serialised && Enabled(s, a) && !EffectOf(s, a).core.cancelled
    ensures var s' := Next(s, a);
            && Gone(s'.core) >= Gone(s.core) >= 0
            && match OpOf(s, a)
               case None => Coarse(s') == Coarse(s)
               case Some(op) => W.Legal(Coarse(s), op) && Coarse(s') == W.Apply(Coarse(s), op)
  {
    hide Next;
    OthersStay(s, a);
    QueueInOrderStep(s, a);
    UptoMore(s.core.accepted);
    UptoMore(Gone(s.core));
    match Before(s, a) {
      case Some(FlushTake) => TakesWhenIdle(s, a.t); TakeStep(s, a);
      case Some(DoneClear(ok)) => ClearsWhenEngaged(s, a.t, ok); ClearStep(s, a);
      case Some(SendPut) => PutStep(s, a);
      case _ => StutterStep(s, a);
    }
  }

  lemma UptoMore(n: nat)
    ensures Upto(n + 1) == Upto(n) + [n]
  {
  }

  lemma TakeStep(s: State, a: Label)
    requires Enabled(s, a) && Before(s, a) == Some(FlushTake) && !s.core.cancelled && !Engaged(s)
    requires QueueInOrder(s.core)
    ensures var s' := Next(s, a);
            Gone(s'.core) >= 0 && Coarse(s') == W.Apply(Coarse(s), W.Flush)
  {
    hide Next, At;
    OthersStay(s, a);
    QueueInOrderStep(s, a);
    UptoMore(Gone(s.core));
    var s' := Next(s, a);
    if s.core.queue != [] {
      assert At(s', a.t, FlushMark(s.core.queue[0]));
    } else {
      assert Engaged(s') == Engaged(s);
    }
  }

  lemma ClearStep(s: State, a: Label)
    requires Enabled(s, a) && Before(s, a).Some? && Before(s, a).value.DoneClear?
    requires s.core.writing && (forall u, m :: !At(s, u, FlushMark(m))) && QueueInOrder(s.core) && !s.core.cancelled
    ensures var s' := Next(s, a);
            Gone(s'.core) >= 0 && W.Legal(Coarse(s), W.Completed) && Coarse(s') == W.Apply(Coarse(s), W.Completed)
  {
    hide Next, At;
    OthersStay(s, a);
    var s' := Next(s, a);
    assert !Engaged(s');
  }

  lemma PutStep(s: State, a: Label)
    requires Enabled(s, a) && Before(s, a) == Some(SendPut) && QueueInOrder(s.core)
    ensures var s' := Next(s, a);
            Gone(s'.core) >= 0 && Coarse(s') == W.Apply(Coarse(s), W.Accept(s.core.accepted))
  {
    hide Next, At;
    OthersStay(s, a);
    UptoMore(s.core.accepted);
    assert Engaged(Next(s, a)) == Engaged(s);
  }

  /** Until a cancellation the other steps change nothing in the coarse view. */
  lemma StutterStep(s: State, a: Label)
    requires Inv(s) && Enabled(s, a) && OpOf(s, a).None? && !EffectOf(s, a).core.cancelled
    ensures var s' := Next(s, a);
            Gone(s'.core) >= 0 && Coarse(s') == Coarse(s)
  {
    hide Next, At;
    OthersStay(s, a);
    var s' := Next(s, a);
    if Before(s, a).Some? && Before(s, a).value.FlushMark? {
      assert At(s, a.t, Before(s, a).value) && Engaged(s);
    }
    forall u, m | At(s, u, FlushMark(m)) && u != a.t
      ensures At(s', u, FlushMark(m))
    {
    }
    assert Engaged(s') == Engaged(s);
  }

  /** The coarse operations of a fine-grained run. */
  function OpsOf(s: State, run: seq<Label>): seq<W.Op<nat>>
    decreases |run|
  {
    if run == [] || !Enabled(s, run[0]) then [] else
      (match OpOf(s, run[0]) case None => [] case Some(op) => [op]) + OpsOf(Next(s, run[0]), run[1..])
  }

  lemma {:induction false} RunRefines(s: State, run: seq<Label>, s': State)
    requires Inv(s) && s.serialised && Steps(s, run, s') && !s'.core.cancelled
    ensures Gone(s.core) >= 0 && Gone(s'.core) >= 0 && W.Runs(Coarse(s), OpsOf(s, run), Coarse(s'))
    decreases |run|
  {
    hide Inv, Coarse, OpOf, W.Apply, W.Legal, Enabled;
    if run == [] {
      GoneIsNat(s);
    } else {
      var t := Next(s, run[0]);
      InvStep(s, run[0]);
      NeverUncancelled(t, run[1..], s');
      NextIsEffect(s, run[0]);
      CoarseStep(s, run[0]);
      RunRefines(t, run[1..], s');
      match OpOf(s, run[0]) {
        case None => assert [] + OpsOf(t, run[1..]) == OpsOf(t, run[1..]);
        case Some(op) => assert ([op] + OpsOf(t, run[1..]))[1..] == OpsOf(t, run[1..]);
      }
    }
  }

  lemma GoneIsNat(s: State)
    requires Inv(s)
    ensures Gone(s.core) >= 0
  {
  }

  lemma NextIsEffect(s: State, a: Label)
    requires Enabled(s, a)
    ensures Next(s, a).core == EffectOf(s, a).core && Next(s, a).serialised == s.serialised
  {
  }

  lemma {:induction false} NeverUncancelled(s: State, run: seq<Label>, s': State)
    requires Steps(s, run, s') && !s'.core.cancelled
    ensures !s.core.cancelled
    decreases |run|
  {
    if run != [] {
      NeverUncancelled(Next(s, run[0]), run[1..], s');
      if s.core.cancelled { CancelStays(s, run[0]); }
    }
  }

  lemma CancelStays(s: State, a: Label)
    requires Enabled(s, a) && s.core.cancelled
    ensures Next(s, a).core.cancelled
  {
  }

  /**
   Main result: a fine-grained run with flushes one at a time that ends uncancelled is, step for step, a run of
   the coarse pump, so whatever holds of every coarse run holds of it.
   */
  lemma FineRefinesCoarse(s0: State, run: seq<Label>, s: State)
    requires Init(s0) && s0.serialised && Steps(s0, run, s) && !s.core.cancelled
    ensures Gone(s.core) >= 0 && W.Runs(W.Idle(), OpsOf(s0, run), Coarse(s))
    ensures W.Sound(Coarse(s))
  {
    hide Inv, Steps;
    InvInit(s0);
    RunRefines(s0, run, s);
    StartsIdle(s0);
    W.RunIsSound(W.Idle(), OpsOf(s0, run), Coarse(s));
  }

  lemma StartsIdle(s0: State)
    requires Init(s0)
    ensures Gone(s0.core) >= 0 && Coarse(s0) == W.Idle()
  {
  }
}
