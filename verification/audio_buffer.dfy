/**
 The audio FIFO between the gRPC thread that pushes samples and the tasks that pop windows of them for
 recognition, and the loop of such a task. Samples are reals; the ring buffer underneath is a FIFO
 that is never pushed beyond its capacity.
 */
module AudioBuffer {
  import opened Common

  /** An operation of another thread, run while `pop_until` waits with the lock released. */
  datatype Op = Push(samples: seq<real>) | Pop(size: nat)

  /** The FIFO, and the record of all samples that went in and came out. */
  datatype Fifo = Fifo(buffer: seq<real>, pushed: seq<real>, popped: seq<real>)

  const EMPTY := Fifo([], [], [])

  function Apply(f: Fifo, op: Op): Fifo {
    match op
    case Push(samples) => f.(buffer := f.buffer + samples, pushed := f.pushed + samples)
    case Pop(size) => Take(f, Min(size, |f.buffer|))
  }

  function Take(f: Fifo, n: nat): Fifo
    requires n <= |f.buffer|
  {
    f.(buffer := f.buffer[n..], popped := f.popped + f.buffer[..n])
  }

  function ApplyAll(f: Fifo, ops: seq<Op>): Fifo
    decreases |ops|
  {
    if ops == [] then f else ApplyAll(Apply(f, ops[0]), ops[1..])
  }

  predicate Fits(f: Fifo, ops: seq<Op>, capacity: nat)
    decreases |ops|
  {
    ops != [] ==>
      |Apply(f, ops[0]).buffer| <= capacity && Fits(Apply(f, ops[0]), ops[1..], capacity)
  }

  /** No sample is lost, repeated or reordered. */
  ghost predicate Conserved(f: Fifo) { f.popped + f.buffer == f.pushed }

  lemma TakeConserves(f: Fifo, n: nat)
    requires Conserved(f) && n <= |f.buffer|
    ensures Conserved(Take(f, n))
    ensures f.popped <= Take(f, n).popped
    ensures Take(f, n).popped[|f.popped|..] == f.buffer[..n]
  {
    assert f.buffer == f.buffer[..n] + f.buffer[n..];
    assert (f.popped + f.buffer[..n]) + f.buffer[n..] == f.popped + f.buffer;
  }

  lemma ApplyConserves(f: Fifo, op: Op)
    requires Conserved(f)
    ensures Conserved(Apply(f, op)) && f.popped <= Apply(f, op).popped
    ensures Apply(f, op).pushed == f.pushed + if op.Push? then op.samples else []
  {
    match op
    case Push(samples) => assert f.popped + (f.buffer + samples) == (f.popped + f.buffer) + samples;
    case Pop(size) => TakeConserves(f, Min(size, |f.buffer|));
  }

  /** All samples that some operations push, in order. */
  function Samples(ops: seq<Op>): seq<real> {
    if ops == [] then [] else (if ops[0].Push? then ops[0].samples else []) + Samples(ops[1..])
  }

  /** A pop takes as many samples as asked for, or all there are. */
  lemma PopTakes(f: Fifo, size: nat)
    ensures |Apply(f, Pop(size)).popped| == |f.popped| + if size <= |f.buffer| then size else |f.buffer|
    ensures Apply(f, Pop(size)).pushed == f.pushed
  {
  }

  /**
   Main result: for every interleaving of pushes and pops, the samples popped followed by those still in the
   buffer are the samples pushed.
   */
  lemma {:induction false} EveryRunConserves(f: Fifo, ops: seq<Op>)
    requires Conserved(f)
    ensures var g := ApplyAll(f, ops);
            Conserved(g) && f.popped <= g.popped && g.pushed == f.pushed + Samples(ops)
    decreases |ops|
  {
    hide Conserved, Apply;
    if ops == [] {
      assert f.pushed + [] == f.pushed;
    } else {
      ApplyConserves(f, ops[0]);
      EveryRunConserves(Apply(f, ops[0]), ops[1..]);
      var now := if ops[0].Push? then ops[0].samples else [];
      assert f.pushed + (now + Samples(ops[1..])) == (f.pushed + now) + Samples(ops[1..]);
    }
  }

  /** A window of `size` samples: the first samples of the buffer, then zeros. */
  function Window(buffer: seq<real>, size: nat): (w: seq<real>)
    ensures |w| == size
  {
    var n := Min(size, |buffer|);
    buffer[..n] + seq(size - n, _ => 0.0)
  }

  /**
   A wait for `least` samples. `tape` is what the other threads do, wake-up by wake-up; the wait ends at the
   first check that finds enough samples, or at the time-out, which is the end of the tape.
   */
  function Wait(f: Fifo, tape: seq<seq<Op>>, least: nat): (Fifo, bool)
    decreases |tape|
  {
    if |f.buffer| >= least then (f, false)
    else if tape == [] then (f, true)
    else Wait(ApplyAll(f, tape[0]), tape[1..], least)
  }

  /** The FIFO after some wake-ups of the tape. */
  function After(f: Fifo, tape: seq<seq<Op>>): Fifo
    decreases |tape|
  {
    if tape == [] then f else After(ApplyAll(f, tape[0]), tape[1..])
  }

  /**
   A wait is patient: it ends after the first n wake-ups, n the first number after which there are enough samples, or at
   the time-out with too few; `late` says which.
   */
  lemma {:induction false} WaitIsPatient(f: Fifo, tape: seq<seq<Op>>, least: nat) returns (n: nat)
    ensures n <= |tape|
    ensures var (g, late) := Wait(f, tape, least);
            && g == After(f, tape[..n])
            && (late <==> |g.buffer| < least)
            && (late ==> n == |tape|)
    ensures forall m: nat | m < n :: |After(f, tape[..m]).buffer| < least
    decreases |tape|
  {
    n := 0;
    if |f.buffer| < least && tape != [] {
      var f' := ApplyAll(f, tape[0]);
      var k := WaitIsPatient(f', tape[1..], least);
      n := k + 1;
      assert tape[..n][1..] == tape[1..][..k];
      forall m: nat | m < n
        ensures |After(f, tape[..m]).buffer| < least
      {
        if m > 0 { assert tape[..m][1..] == tape[1..][..m - 1]; }
      }
    }
  }

  predicate WaitFits(f: Fifo, tape: seq<seq<Op>>, least: nat, capacity: nat)
    decreases |tape|
  {
    |f.buffer| < least && tape != [] ==>
      Fits(f, tape[0], capacity) && WaitFits(ApplyAll(f, tape[0]), tape[1..], least, capacity)
  }

  lemma {:induction false} WaitConserves(f: Fifo, tape: seq<seq<Op>>, least: nat)
    requires Conserved(f)
    ensures var (g, late) := Wait(f, tape, least);
            Conserved(g) && f.popped <= g.popped && (late <==> |g.buffer| < least)
    decreases |tape|
  {
    if |f.buffer| < least && tape != [] {
      EveryRunConserves(f, tape[0]);
      WaitConserves(ApplyAll(f, tape[0]), tape[1..], least);
    }
  }

  // ------------------------------------------------------------ a recognition task

  /** What the task reads in one turn: whether the flags let it go on, the others' doings, recognition's code. */
  datatype Turn = Turn(goOn: bool, tape: seq<seq<Op>>, code: int)

  /** A window handed to recognition: `at` samples had been popped before it, `real` of its samples are real. */
  datatype Heard = Heard(at: nat, samples: seq<real>, count: nat, late: bool)

  datatype TaskResult = TaskResult(fifo: Fifo, heard: seq<Heard>)

  function Task(f: Fifo, required: nat, capacity: nat, turns: seq<Turn>): TaskResult
    decreases |turns|
  {
    if turns == [] || !turns[0].goOn || required > capacity then TaskResult(f, []) else
      var (g, late) := Wait(f, turns[0].tape, required);
      var n := Min(required, |g.buffer|);
      if n == 0 then TaskResult(Take(g, 0), []) else
        var h := Heard(|g.popped|, Window(g.buffer, required), n, late);
        if turns[0].code != 0 then TaskResult(Take(g, n), [h]) else
          var more := Task(Take(g, n), required, capacity, turns[1..]);
          TaskResult(more.fifo, [h] + more.heard)
  }

  predicate TaskFits(f: Fifo, required: nat, capacity: nat, turns: seq<Turn>)
    decreases |turns|
  {
    turns != [] && turns[0].goOn && required <= capacity ==>
      && WaitFits(f, turns[0].tape, required, capacity)
      && var (g, _) := Wait(f, turns[0].tape, required);
         TaskFits(Take(g, Min(required, |g.buffer|)), required, capacity, turns[1..])
  }

  lemma TaskNone(f: Fifo, required: nat, capacity: nat, turns: seq<Turn>)
    requires turns == [] || !turns[0].goOn || required > capacity
    ensures Task(f, required, capacity, turns) == TaskResult(f, [])
  {
  }

  lemma TaskOne(f: Fifo, required: nat, capacity: nat, turns: seq<Turn>)
    requires turns != [] && turns[0].goOn && required <= capacity
    ensures var (g, late) := Wait(f, turns[0].tape, required);
            var n := Min(required, |g.buffer|);
            var more := Task(Take(g, n), required, capacity, turns[1..]);
            var h := Heard(|g.popped|, Window(g.buffer, required), n, late);
            Task(f, required, capacity, turns) ==
            if n == 0 then TaskResult(Take(g, 0), [])
            else if turns[0].code != 0 then TaskResult(Take(g, n), [h])
            else TaskResult(more.fifo, [h] + more.heard)
    ensures var (g, _) := Wait(f, turns[0].tape, required);
            TaskFits(f, required, capacity, turns) <==>
              && WaitFits(f, turns[0].tape, required, capacity)
              && TaskFits(Take(g, Min(required, |g.buffer|)), required, capacity, turns[1..])
  {
  }

  /** A window is full length; its real samples are the next ones popped, the rest zeros; it is short only if late. */
  ghost predicate GoodWindow(h: Heard, required: nat, popped: seq<real>) {
    && |h.samples| == required
    && 0 < h.count <= required
    && h.at + h.count <= |popped|
    && h.samples[..h.count] == popped[h.at..h.at + h.count]
    && (forall i | h.count <= i < required :: h.samples[i] == 0.0)
    && (h.count < required ==> h.late)
  }

  lemma GoodStays(h: Heard, required: nat, popped: seq<real>, popped': seq<real>)
    requires GoodWindow(h, required, popped) && popped <= popped'
    ensures GoodWindow(h, required, popped')
  {
    assert popped[h.at..h.at + h.count] == popped'[h.at..h.at + h.count];
  }

  lemma TurnIsGood(f: Fifo, tape: seq<seq<Op>>, required: nat)
    requires Conserved(f)
    ensures var (g, late) := Wait(f, tape, required);
            var n := Min(required, |g.buffer|);
            && Conserved(Take(g, n)) && f.popped <= g.popped <= Take(g, n).popped
            && |Take(g, n).popped| == |g.popped| + n
            && (n > 0 ==> GoodWindow(Heard(|g.popped|, Window(g.buffer, required), n, late), required, Take(g, n).popped))
  {
    WaitConserves(f, tape, required);
    var (g, late) := Wait(f, tape, required);
    var n := Min(required, |g.buffer|);
    TakeConserves(g, n);
    assert Window(g.buffer, required)[..n] == g.buffer[..n];
  }

  /**
   Main result. Whatever other threads push and pop meanwhile, every window a task hands to recognition has the
   required length: samples as they were popped, in order and each in one window, then zeros, and it
   is short only after a time-out.
   */
  lemma {:induction false} WindowsAreGood(f: Fifo, required: nat, capacity: nat, turns: seq<Turn>)
    requires Conserved(f)
    ensures var r := Task(f, required, capacity, turns);
            && Conserved(r.fifo) && f.popped <= r.fifo.popped
            && (forall i | 0 <= i < |r.heard| :: GoodWindow(r.heard[i], required, r.fifo.popped))
            && (forall i | 0 <= i < |r.heard| :: |f.popped| <= r.heard[i].at)
            && (forall i, j | 0 <= i < j < |r.heard| :: r.heard[i].at + r.heard[i].count <= r.heard[j].at)
    decreases |turns|
  {
    hide Wait, Take, Conserved, GoodWindow, Window;
    if turns != [] && turns[0].goOn && required <= capacity {
      var (g, late) := Wait(f, turns[0].tape, required);
      var n := Min(required, |g.buffer|);
      TurnIsGood(f, turns[0].tape, required);
      if n > 0 {
        var h := Heard(|g.popped|, Window(g.buffer, required), n, late);
        if turns[0].code == 0 {
          WindowsAreGood(Take(g, n), required, capacity, turns[1..]);
          var more := Task(Take(g, n), required, capacity, turns[1..]);
          GoodStays(h, required, Take(g, n).popped, more.fifo.popped);
        }
      }
    }
  }

  /**
   A task hands over one window a turn while its flags let it, up to the first that recognition fails on; it ends
   for no other reason than that, its flags, the end of its turns, a wait that left nothing, or windows that are
   empty or do not fit.
   */
  lemma {:induction false} TaskFollowsTurns(f: Fifo, required: nat, capacity: nat, turns: seq<Turn>)
    ensures var r := Task(f, required, capacity, turns);
            var n := |r.heard|;
            && n <= |turns|
            && (forall i | 0 <= i < n :: turns[i].goOn && (i + 1 < n ==> turns[i].code == 0))
            && (n > 0 ==> 0 < required <= capacity)
            && (|| (n > 0 && turns[n - 1].code != 0)
                || n == |turns| || !turns[n].goOn
                || r.fifo.buffer == []
                || required == 0 || required > capacity)
    decreases |turns|
  {
    hide Wait, Window;
    if turns != [] && turns[0].goOn && required <= capacity {
      TaskOne(f, required, capacity, turns);
      var (g, late) := Wait(f, turns[0].tape, required);
      var n := Min(required, |g.buffer|);
      if n > 0 && turns[0].code == 0 {
        TaskFollowsTurns(Take(g, n), required, capacity, turns[1..]);
      }
    }
  }

  class Buffer {
    const capacity: nat
    var buffer: seq<real>
    var pushed: seq<real>    // recorded
    var popped: seq<real>    // recorded

    ghost function View(): Fifo
      reads this
    {
      Fifo(buffer, pushed, popped)
    }

    ghost predicate Valid()
      reads this
    {
      Conserved(View()) && |buffer| <= capacity
    }

    constructor (capacity: nat)
      ensures this.capacity == capacity && View() == EMPTY && Valid()
    {
      this.capacity := capacity;
      buffer, pushed, popped := [], [], [];
    }

    method Push(data: array<real>, size: nat)
      requires Valid() && size <= data.Length && |buffer| + size <= capacity
      modifies this
      ensures Valid() && View() == Apply(old(View()), Op.Push(data[..size]))
    {
      ApplyConserves(View(), Op.Push(data[..size]));
      buffer := buffer + data[..size];
      pushed := pushed + data[..size];
    }

    /** Copy the front of the buffer into the caller's array, and fill the rest of the window with zeros. */
    method CopyOut(data: array<real>, size: nat, actual: nat)
      requires size <= data.Length && actual == Min(size, |buffer|)
      modifies data
      ensures data[..size] == Window(buffer, size)
      ensures forall i | size <= i < data.Length :: data[i] == old(data[i])
    {
      var i := 0;
      while i < actual
        invariant 0 <= i <= actual
        invariant forall j | 0 <= j < i :: data[j] == buffer[j]
        invariant forall j | size <= j < data.Length :: data[j] == old(data[j])
      {
        data[i] := buffer[i];
        i := i + 1;
      }
      while i < size
        invariant actual <= i <= size
        invariant forall j | 0 <= j < actual :: data[j] == buffer[j]
        invariant forall j | actual <= j < i :: data[j] == 0.0
        invariant forall j | size <= j < data.Length :: data[j] == old(data[j])
      {
        data[i] := 0.0;
        i := i + 1;
      }
      assert forall j | 0 <= j < size :: data[..size][j] == Window(buffer, size)[j];
    }

    method Pop(data: array<real>, size: nat) returns (actual: nat)
      requires Valid() && size <= data.Length
      modifies this, data
      ensures Valid() && actual == Min(size, |old(buffer)|)
      ensures View() == Take(old(View()), actual)
      ensures data[..size] == Window(old(buffer), size)
      ensures forall i | size <= i < data.Length :: data[i] == old(data[i])
    {
      actual := Min(size, |buffer|);
      TakeConserves(View(), actual);
      CopyOut(data, size, actual);
      popped := popped + buffer[..actual];
      buffer := buffer[actual..];
    }

    /** What other threads do, each under the lock, between two checks of a waiting thread. */
    method Others(ops: seq<Op>)
      requires Valid() && Fits(View(), ops, capacity)
      modifies this
      ensures Valid() && View() == ApplyAll(old(View()), ops)
    {
      var i := 0;
      assert ops[0..] == ops;
      while i < |ops|
        invariant 0 <= i <= |ops|
        invariant Valid() && Fits(View(), ops[i..], capacity)
        invariant ApplyAll(View(), ops[i..]) == ApplyAll(old(View()), ops)
      {
        assert ops[i..][1..] == ops[i + 1..];
        ApplyConserves(View(), ops[i]);
        match ops[i] {
          case Push(samples) =>
            buffer := buffer + samples;
            pushed := pushed + samples;
          case Pop(size) =>
            var n := Min(size, |buffer|);
            popped := popped + buffer[..n];
            buffer := buffer[n..];
        }
        i := i + 1;
      }
    }

    method PopUntil(data: array<real>, size: nat, least: nat, tape: seq<seq<Op>>) returns (actual: nat, late: bool)
      requires Valid() && size <= data.Length
      requires least <= capacity ==> WaitFits(View(), tape, least, capacity)
      modifies this, data
      ensures Valid()
      ensures least > capacity ==> actual == 0 && View() == old(View()) && data[..] == old(data[..])
      ensures least <= capacity ==>
                var (g, t) := Wait(old(View()), tape, least);
                && late == t && actual == Min(size, |g.buffer|)
                && View() == Take(g, actual)
                && data[..size] == Window(g.buffer, size)
    {
      if least > capacity { return 0, false; }
      var i := 0;
      assert tape[0..] == tape;
      while |buffer| < least && i < |tape|
        invariant 0 <= i <= |tape|
        invariant Valid() && WaitFits(View(), tape[i..], least, capacity)
        invariant Wait(View(), tape[i..], least) == Wait(old(View()), tape, least)
        decreases |tape| - i
      {
        assert tape[i..][0] == tape[i] && tape[i..][1..] == tape[i + 1..];
        Others(tape[i]);
        i := i + 1;
      }
      late := |buffer| < least;
      actual := Pop(data, size);
    }
  }

  /** The processing loop of a task, from the setting of `_is_processing` to its end. */
  method RecognizeLoop(b: Buffer, required: nat, turns: seq<Turn>) returns (heard: seq<Heard>)
    requires b.Valid() && TaskFits(b.View(), required, b.capacity, turns)
    modifies b
    ensures b.Valid()
    ensures TaskResult(b.View(), heard) == Task(old(b.View()), required, b.capacity, turns)
  {
    hide Task, TaskFits, Wait, WaitFits, Conserved, Window;
    heard := [];
    var data := new real[required](_ => 0.0);
    var i := 0;
    ghost var r := Task(b.View(), required, b.capacity, turns);
    assert turns[0..] == turns;
    while i < |turns| && turns[i].goOn
      invariant 0 <= i <= |turns|
      invariant b.Valid() && TaskFits(b.View(), required, b.capacity, turns[i..])
      invariant r.fifo == Task(b.View(), required, b.capacity, turns[i..]).fifo
      invariant r.heard == heard + Task(b.View(), required, b.capacity, turns[i..]).heard
    {
      assert turns[i..][0] == turns[i] && turns[i..][1..] == turns[i + 1..];
      if required <= b.capacity {
        TaskOne(b.View(), required, b.capacity, turns[i..]);
      } else {
        TaskNone(b.View(), required, b.capacity, turns[i..]);
      }
      var actual, late := b.PopUntil(data, required, required, turns[i].tape);
      if actual == 0 { return; }
      assert data[..required] == data[..];
      heard := heard + [Heard(|b.popped| - actual, data[..], actual, late)];
      if turns[i].code != 0 { return; }
      i := i + 1;
    }
    TaskNone(b.View(), required, b.capacity, turns[i..]);
  }
}
