/**
 The write pump shared by the four reactors, with `_flush` as one step.

 `Pump` is the pump as a value and `Op` an atomic operation on it. The class has the reactors'
 methods; each is a script of operations. Scripts of different threads may interleave freely,
 so the results are about arbitrary sequences of operations that respect the guards in `Legal`.
 */
module WritePump {

  /** Which reactor: they differ in `OnWriteDone`, `OnCancel` and `Stop`. */
  datatype Kind = Query | Recognize | Embedding | Subscribe

  datatype Status = FinishOk | FinishAborted

  /**
   `accepted`: messages put in the queue; `started`: messages given to StartWrite;
   `outstanding`: writes whose OnWriteDone has not yet cleared `_is_writing`.
   */
  datatype Pump<M> = Pump(
    writing: bool,
    cancelled: bool,
    queue: seq<M>,
    accepted: seq<M>,
    started: seq<M>,
    outstanding: nat,
    finishes: seq<Status>)

  function Idle<M>(): Pump<M> { Pump(false, false, [], [], [], 0, []) }

  /**
   `Accept`: `_send` enqueues, its check of `_is_cancelled` already passed; `Completed`: OnWriteDone
   clears `_is_writing`; `Clear`, `Drop`: Stop, OnCancel or OnWriteDone after storing cancelled.
   */
  datatype Op<M> = Accept(m: M) | Flush | Completed | Cancel | Clear | Drop | Finish(status: Status)

  predicate Legal<M>(p: Pump<M>, op: Op<M>) {
    match op
    case Completed => p.outstanding > 0
    case Clear => p.cancelled
    case Drop => p.cancelled
    case _ => true
  }

  function Apply<M>(p: Pump<M>, op: Op<M>): Pump<M>
    requires Legal(p, op)
  {
    match op
    case Accept(m) => p.(queue := p.queue + [m], accepted := p.accepted + [m])
    case Flush =>
      if p.writing || p.cancelled || p.queue == [] then p
      else p.(queue := p.queue[1..], writing := true, started := p.started + [p.queue[0]],
              outstanding := p.outstanding + 1)
    case Completed => p.(writing := false, outstanding := p.outstanding - 1)
    case Cancel => p.(cancelled := true)
    case Clear => p.(writing := false)
    case Drop => if p.queue == [] then p else p.(queue := p.queue[1..])
    case Finish(status) => p.(finishes := p.finishes + [status])
  }

  ghost predicate Runs<M>(p: Pump<M>, ops: seq<Op<M>>, p': Pump<M>)
    decreases |ops|
  {
    if ops == [] then p == p' else Legal(p, ops[0]) && Runs(Apply(p, ops[0]), ops[1..], p')
  }

  // ------------------------------------------------------------ every run

  ghost predicate Sound<M>(p: Pump<M>) {
    && p.started <= p.accepted
    && p.outstanding <= 1
    && (!p.cancelled ==> p.started + p.queue == p.accepted && (p.writing <==> p.outstanding == 1))
  }

  lemma SoundStep<M>(p: Pump<M>, op: Op<M>)
    requires Sound(p) && Legal(p, op)
    ensures Sound(Apply(p, op))
    ensures p.cancelled ==> Apply(p, op).started == p.started && Apply(p, op).cancelled
    ensures p.started <= Apply(p, op).started && p.accepted <= Apply(p, op).accepted
  {
    var q := Apply(p, op);
    if op.Flush? && q != p {
      assert p.queue == [p.queue[0]] + q.queue;
      assert q.started + q.queue == p.started + p.queue;
    }
  }

  /**
   Main result, over every sequence of operations. Until the reactor is cancelled, `_is_writing` says
   exactly whether the one write allowed is outstanding, and the messages started followed by
   the queue are those accepted. Afterwards no write starts, and those started stay a prefix of those accepted.
   */
  lemma {:induction false} RunIsSound<M>(p: Pump<M>, ops: seq<Op<M>>, p': Pump<M>)
    requires Sound(p) && Runs(p, ops, p')
    ensures Sound(p')
    ensures p.cancelled ==> p'.started == p.started && p'.cancelled
    ensures p.started <= p'.started && p.accepted <= p'.accepted
    decreases |ops|
  {
    hide Sound, Apply;
    if ops != [] {
      SoundStep(p, ops[0]);
      RunIsSound(Apply(p, ops[0]), ops[1..], p');
    }
  }

  /** When the pump has written all it can, every accepted message has been started, in order. */
  lemma IdlePumpIsDone<M>(ops: seq<Op<M>>, p: Pump<M>)
    requires Runs(Idle(), ops, p)
    requires !p.cancelled && Apply(p, Flush) == p && p.outstanding == 0
    ensures p.started == p.accepted
  {
    RunIsSound(Idle(), ops, p);
  }

  lemma {:induction false} RunsThen<M>(p: Pump<M>, a: seq<Op<M>>, q: Pump<M>, b: seq<Op<M>>, r: Pump<M>)
    requires Runs(p, a, q) && Runs(q, b, r)
    ensures Runs(p, a + b, r)
    decreases |a|
  {
    hide Apply, Legal;
    if a == [] {
      assert a + b == b;
    } else {
      RunsThen(Apply(p, a[0]), a[1..], q, b, r);
      assert (a + b)[0] == a[0] && (a + b)[1..] == a[1..] + b;
    }
  }

  // ------------------------------------------------------------ the reactors' methods

  function Drops<M>(n: nat): seq<Op<M>> {
    if n == 0 then [] else [Drop] + Drops(n - 1)
  }

  lemma {:induction false} DropsEmptyTheQueue<M>(p: Pump<M>)
    requires p.cancelled
    ensures Runs(p, Drops(|p.queue|), p.(queue := []))
    decreases |p.queue|
  {
    if p.queue == [] {
      assert p.(queue := []) == p;
    } else {
      var q := Apply(p, Drop);
      DropsEmptyTheQueue(q);
      assert Drops<M>(|p.queue|)[1..] == Drops(|q.queue|);
      assert Runs(q, Drops<M>(|p.queue|)[1..], p.(queue := []));
    }
  }

  /** `_send`, `OnWriteDone`, `Stop` and `OnCancel` as scripts, given the flag values they load. */
  function SendScript<M>(p: Pump<M>, m: M): seq<Op<M>> {
    if p.cancelled then [] else [Accept(m), Flush]
  }

  function WriteDoneScript<M>(kind: Kind, p: Pump<M>, ok: bool): seq<Op<M>> {
    var drains := kind.Recognize? || kind.Embedding?;
    if !ok then
      [Completed, Cancel] + (if drains then Drops(|p.queue|) else []) + [Finish(FinishAborted)]
    else if kind.Embedding? && p.cancelled then [Completed] + Drops(|p.queue|) + [Finish(FinishOk)]
    else [Completed, Flush]
  }

  function StopScript<M>(p: Pump<M>): seq<Op<M>> {
    [Cancel, Clear] + Drops(|p.queue|)
  }

  function CancelScript<M>(kind: Kind, p: Pump<M>): seq<Op<M>> {
    if kind.Query? || kind.Subscribe? then [Cancel] else StopScript(p)
  }

  lemma RunTwo<M>(p: Pump<M>, a: Op<M>, b: Op<M>)
    requires Legal(p, a) && Legal(Apply(p, a), b)
    ensures Runs(p, [a, b], Apply(Apply(p, a), b))
  {
    assert [a, b][1..] == [b] && [b][1..] == [];
    assert Runs(Apply(Apply(p, a), b), [b][1..], Apply(Apply(p, a), b));
  }

  class Reactor<M(0)> {
    const kind: Kind
    var isWriting: bool
    var isCancelled: bool
    var queue: seq<M>
    // What gRPC and the clients see of the object, recorded by the methods.
    var accepted: seq<M>
    var started: seq<M>
    var outstanding: nat
    var finishes: seq<Status>
    var tryCancels: nat

    ghost function Value(): Pump<M>
      reads this
    {
      Pump(isWriting, isCancelled, queue, accepted, started, outstanding, finishes)
    }

    /** Until cancelled, a message waits in the queue only while a write is under way. */
    ghost predicate Tended()
      reads this
    {
      !isCancelled ==> queue == [] || isWriting
    }

    /** The oldest message of `waiting`, if there is one, has been given to StartWrite, after `before`. */
    ghost predicate StartedOldest(waiting: seq<M>, before: seq<M>)
      reads this
    {
      if waiting == [] then queue == [] && started == before && !isWriting
      else [waiting[0]] + queue == waiting && started == before + [waiting[0]] && isWriting
    }

    constructor (kind: Kind)
      ensures this.kind == kind && Value() == Idle() && Tended()
    {
      this.kind := kind;
      isWriting, isCancelled, queue := false, false, [];
      accepted, started, outstanding, finishes, tryCancels := [], [], 0, [], 0;
    }

    method TryDequeue() returns (found: bool, m: M)
      modifies `queue
      ensures found == (old(queue) != [])
      ensures found ==> [m] + queue == old(queue)
      ensures !found ==> queue == []
    {
      found := queue != [];
      if found {
        m := queue[0];
        queue := queue[1..];
      } else {
        m := *;
      }
    }

    method StartWrite(m: M)
      modifies `started, `outstanding
      ensures started == old(started) + [m] && outstanding == old(outstanding) + 1
    {
      started, outstanding := started + [m], outstanding + 1;
    }

    method Flush()
      modifies this
      ensures Value() == Apply(old(Value()), Op.Flush)
      ensures Tended() && tryCancels == old(tryCancels)
      ensures !old(isWriting) && !old(isCancelled) ==> StartedOldest(old(queue), old(started))
    {
      if isWriting { return; }
      if isCancelled { return; }
      var found, m := TryDequeue();
      if !found { return; }
      isWriting := true;
      StartWrite(m);
    }

    method Send(m: M)
      modifies this
      ensures Runs(old(Value()), SendScript(old(Value()), m), Value())
      ensures Tended() && isCancelled == old(isCancelled) && finishes == old(finishes)
      ensures old(isCancelled) ==> Value() == old(Value())
      ensures !old(isCancelled) ==>
                && accepted == old(accepted) + [m] && isWriting
                && if old(isWriting) then queue == old(queue) + [m] && started == old(started)
                   else StartedOldest(old(queue) + [m], old(started))
    {
      if isCancelled { return; }
      queue := queue + [m];
      accepted := accepted + [m];
      RunTwo(old(Value()), Accept(m), Op.Flush);
      Flush();
    }

    method DrainQueue()
      requires isCancelled
      modifies this
      ensures Runs(old(Value()), Drops(|old(queue)|), Value()) && queue == []
      ensures Value() == old(Value()).(queue := [])
      ensures tryCancels == old(tryCancels)
    {
      DropsEmptyTheQueue(Value());
      var found, m := TryDequeue();
      while found
        invariant Value() == old(Value()).(queue := queue)
        invariant !found ==> queue == []
        invariant tryCancels == old(tryCancels)
        decreases if found then 1 + |queue| else 0
      {
        found, m := TryDequeue();
      }
    }

    method CallFinish(status: Status)
      modifies `finishes
      ensures finishes == old(finishes) + [status]
    {
      finishes := finishes + [status];
    }

    /** gRPC calls this once for each write it was given. */
    method OnWriteDone(ok: bool)
      requires outstanding > 0
      modifies this
      ensures Runs(old(Value()), WriteDoneScript(kind, old(Value()), ok), Value())
      ensures Tended() && accepted == old(accepted) && isCancelled == (old(isCancelled) || !ok)
      ensures ok && !old(isCancelled) ==> StartedOldest(old(queue), old(started)) && finishes == old(finishes)
      ensures ok && old(isCancelled) ==>
                && started == old(started) && !isWriting
                && if kind.Embedding? then queue == [] && finishes == old(finishes) + [FinishOk]
                   else queue == old(queue) && finishes == old(finishes)
      ensures !ok ==>
                && started == old(started) && !isWriting && finishes == old(finishes) + [FinishAborted]
                && queue == if kind.Recognize? || kind.Embedding? then [] else old(queue)
    {
      ghost var p := Value();
      isWriting, outstanding := false, outstanding - 1;
      if !ok {
        isCancelled := true;
        RunTwo(p, Completed, Cancel);
        ghost var p2 := Value();
        if kind.Recognize? || kind.Embedding? {
          DrainQueue();
          RunsThen(p, [Completed, Cancel], p2, Drops(|p.queue|), Value());
        } else {
          assert [Completed, Cancel] + [] == [Op<M>.Completed, Cancel];
        }
        ghost var p3 := Value();
        CallFinish(FinishAborted);
        RunOne(p3, Finish(FinishAborted));
        RunsThen(p, [Completed, Cancel] + (if kind.Recognize? || kind.Embedding? then Drops(|p.queue|) else []),
                 p3, [Finish(FinishAborted)], Value());
        return;
      }
      if kind.Embedding? && isCancelled {
        ghost var p1 := Value();
        RunOne(p, Completed);
        DrainQueue();
        ghost var p3 := Value();
        RunsThen(p, [Completed], p1, Drops(|p.queue|), p3);
        CallFinish(FinishOk);
        RunOne(p3, Finish(FinishOk));
        RunsThen(p, [Completed] + Drops(|p.queue|), p3, [Finish(FinishOk)], Value());
        return;
      }
      RunTwo(p, Completed, Op.Flush);
      Flush();
    }

    method Stop()
      modifies this
      ensures Runs(old(Value()), StopScript(old(Value())), Value())
      ensures isCancelled && !isWriting && queue == [] && Tended()
      ensures accepted == old(accepted) && started == old(started) && finishes == old(finishes)
      ensures tryCancels == old(tryCancels) + if kind.Embedding? then 1 else 0
    {
      ghost var p := Value();
      isCancelled := true;
      isWriting := false;
      RunTwo(p, Cancel, Clear);
      ghost var p2 := Value();
      DrainQueue();
      RunsThen(p, [Cancel, Clear], p2, Drops(|p.queue|), Value());
      if kind.Embedding? { tryCancels := tryCancels + 1; }
    }

    method OnCancel()
      modifies this
      ensures Runs(old(Value()), CancelScript(kind, old(Value())), Value())
      ensures isCancelled && Tended()
      ensures accepted == old(accepted) && started == old(started) && finishes == old(finishes)
      ensures if kind.Query? || kind.Subscribe? then queue == old(queue) && isWriting == old(isWriting)
              else queue == [] && !isWriting
    {
      if kind.Query? || kind.Subscribe? {
        ghost var p := Value();
        isCancelled := true;
        RunOne(p, Cancel);
      } else {
        ghost var p := Value();
        isCancelled := true;
        isWriting := false;
        RunTwo(p, Cancel, Clear);
        ghost var p2 := Value();
        DrainQueue();
        RunsThen(p, [Cancel, Clear], p2, Drops(|p.queue|), Value());
      }
    }
  }

  lemma RunOne<M>(p: Pump<M>, a: Op<M>)
    requires Legal(p, a)
    ensures Runs(p, [a], Apply(p, a))
  {
    assert [a][1..] == [];
    assert Runs(Apply(p, a), [a][1..], Apply(p, a));
  }

  // ------------------------------------------------------------ a reactor that is never cancelled

  /** What drives a reactor that nobody cancels and whose writes succeed. */
  datatype Call<M> = Sent(m: M) | Written

  function CallScript<M>(kind: Kind, p: Pump<M>, c: Call<M>): seq<Op<M>> {
    match c
    case Sent(m) => SendScript(p, m)
    case Written => WriteDoneScript(kind, p, true)
  }

  /** The calls take the pump from `p` to `p'`; OnWriteDone comes only for a write that is outstanding. */
  ghost predicate Driven<M(!new)>(kind: Kind, p: Pump<M>, calls: seq<Call<M>>, p': Pump<M>)
    decreases |calls|
  {
    if calls == [] then p == p'
    else
      && (calls[0].Written? ==> p.outstanding > 0)
      && exists q :: Runs(p, CallScript(kind, p, calls[0]), q) && Driven(kind, q, calls[1..], p')
  }

  function Messages<M>(calls: seq<Call<M>>): seq<M> {
    if calls == [] then [] else (if calls[0].Sent? then [calls[0].m] else []) + Messages(calls[1..])
  }

  /** The value counterpart of `Tended`, for a pump that is not cancelled. */
  ghost predicate Alive<M>(p: Pump<M>) {
    Sound(p) && !p.cancelled && (p.queue == [] || p.writing)
  }

  lemma RunsTwo<M>(p: Pump<M>, a: Op<M>, b: Op<M>, q: Pump<M>)
    requires Runs(p, [a, b], q)
    ensures Legal(p, a) && Legal(Apply(p, a), b) && q == Apply(Apply(p, a), b)
  {
    assert [a, b][1..] == [b] && [b][1..] == [];
    assert Runs(Apply(p, a), [b], q);
    assert Runs(Apply(Apply(p, a), b), [], q);
  }

  lemma AliveStep<M>(kind: Kind, p: Pump<M>, c: Call<M>, q: Pump<M>)
    requires Alive(p) && (c.Written? ==> p.outstanding > 0) && Runs(p, CallScript(kind, p, c), q)
    ensures Alive(q) && q.accepted == p.accepted + Messages([c])
  {
    hide Runs, Sound;
    assert Messages([c][1..]) == [];
    match c {
      case Sent(m) =>
        RunsTwo(p, Accept(m), Op.Flush, q);
        SoundStep(p, Accept(m));
        SoundStep(Apply(p, Accept(m)), Op.Flush);
      case Written =>
        RunsTwo(p, Completed, Op.Flush, q);
        SoundStep(p, Completed);
        SoundStep(Apply(p, Completed), Op.Flush);
    }
  }

  lemma {:induction false} AliveRun<M(!new)>(kind: Kind, p: Pump<M>, calls: seq<Call<M>>, p': Pump<M>)
    requires Alive(p) && Driven(kind, p, calls, p')
    ensures Alive(p') && p'.accepted == p.accepted + Messages(calls)
    decreases |calls|
  {
    hide Alive, Runs;
    if calls != [] {
      var q :| Runs(p, CallScript(kind, p, calls[0]), q) && Driven(kind, q, calls[1..], p');
      AliveStep(kind, p, calls[0], q);
      AliveRun(kind, q, calls[1..], p');
      assert [calls[0]][1..] == [];
      assert p.accepted + Messages([calls[0]]) + Messages(calls[1..]) == p.accepted + Messages(calls);
    }
  }

  /**
   Main result. A reactor that is sent messages and whose writes succeed has, whenever no write is outstanding, started
   exactly the messages it was sent, in order.
   */
  lemma DrivenReactorIsDone<M(!new)>(kind: Kind, calls: seq<Call<M>>, p: Pump<M>)
    requires Driven(kind, Idle(), calls, p) && p.outstanding == 0
    ensures p.started == Messages(calls)
  {
    AliveRun(kind, Idle(), calls, p);
    assert p.queue == [];
    assert [] + Messages(calls) == Messages(calls);
  }
}
