/**
 The write pump of a reactor at the grain of single atomic operations.

 Any number of threads run `_send`, `_flush`, `OnWriteDone`, `Stop` and `OnCancel`; every atomic
 load or store, every queue operation and every call into gRPC is one step, and steps interleave
 in any order (sequential consistency). Messages are values the pump never looks at, so a
 message is named by its number: the n-th message put in the queue is message n.
 */
module PumpSteps {
  import opened Common
  import W = WritePump

  type Kind = W.Kind

  /** The next operation of a thread. */
  datatype Pc =
    | SendLoadCancelled
    | SendPut
    | FlushLoadWriting
    | FlushLoadCancelled
    | FlushTake
    | FlushMark(msg: nat)
    | FlushStart(msg: nat)
    | DoneClear(ok: bool)
    | DoneCancel
    | DoneLoadCancelled
    | StopCancel
    | StopClear
    | DrainQueue(thenFinish: bool)
    | CallFinish
    | JustCancel

  /**
   What the threads share. `accepted` counts the messages put in the queue, `started` lists the
   StartWrite calls, and `outstanding` counts those whose OnWriteDone has not been called yet.
   */
  datatype Core = Core(
    writing: bool,
    cancelled: bool,
    queue: seq<nat>,
    accepted: nat,
    started: seq<nat>,
    outstanding: nat)

  /** `crossed` is an auxiliary variable: a drain has crossed a flush, as said at `Crosses`. */
  datatype State = State(kind: Kind, serialised: bool, core: Core, threads: map<nat, Pc>, crossed: bool)

  predicate Init(s: State) {
    s.core == Core(false, false, [], 0, [], 0) && s.threads == map[] && !s.crossed
  }

  /** `Enter`: a thread calls `_send`, `Stop` or `OnCancel`. `Completed`: gRPC calls OnWriteDone. */
  datatype Label = Enter(t: nat, pc: Pc) | Completed(t: nat, ok: bool) | Move(t: nat)

  /** Inside `_flush` with `_is_writing` already loaded. */
  predicate Flushing(pc: Pc) {
    pc.FlushLoadCancelled? || pc.FlushTake? || pc.FlushMark? || pc.FlushStart?
  }

  predicate Holds(pc: Pc) { pc.FlushMark? || pc.FlushStart? }

  predicate IsEntry(kind: Kind, pc: Pc) {
    || pc == SendLoadCancelled
    || pc == StopCancel
    || (pc == JustCancel && (kind.Query? || kind.Subscribe?))
  }

  /** With `serialised`, a thread enters `_flush` only when no other thread is inside. */
  predicate Enabled(s: State, a: Label) {
    match a
    case Enter(t, pc) => t !in s.threads && IsEntry(s.kind, pc)
    case Completed(t, _) => t !in s.threads && s.core.outstanding > 0
    case Move(t) =>
      && t in s.threads
      && (s.serialised && s.threads[t] == FlushLoadWriting ==>
            forall u | u in s.threads :: !Flushing(s.threads[u]))
  }

  /** The shared state after an operation, and the thread's next operation if it has one. */
  datatype Effect = Effect(core: Core, pc: Option<Pc>)

  function Perform(kind: Kind, c: Core, pc: Pc): Effect {
    match pc
    // _send
    case SendLoadCancelled => Effect(c, if c.cancelled then None else Some(SendPut))
    case SendPut =>
      Effect(c.(queue := c.queue + [c.accepted], accepted := c.accepted + 1), Some(FlushLoadWriting))
    // _flush
    case FlushLoadWriting => Effect(c, if c.writing then None else Some(FlushLoadCancelled))
    case FlushLoadCancelled => Effect(c, if c.cancelled then None else Some(FlushTake))
    case FlushTake =>
      if c.queue == [] then Effect(c, None)
      else Effect(c.(queue := c.queue[1..]), Some(FlushMark(c.queue[0])))
    case FlushMark(m) => Effect(c.(writing := true), Some(FlushStart(m)))
    case FlushStart(m) => Effect(c.(started := c.started + [m], outstanding := c.outstanding + 1), None)
    // OnWriteDone
    case DoneClear(ok) =>
      Effect(c.(writing := false),
             Some(if !ok then DoneCancel else if kind.Embedding? then DoneLoadCancelled else FlushLoadWriting))
    case DoneCancel =>
      Effect(c.(cancelled := true),
             Some(if kind.Recognize? || kind.Embedding? then DrainQueue(true) else CallFinish))
    case DoneLoadCancelled => Effect(c, Some(if c.cancelled then DrainQueue(true) else FlushLoadWriting))
    case CallFinish => Effect(c, None)
    // Stop, and OnCancel of the two bidirectional reactors
    case StopCancel => Effect(c.(cancelled := true), Some(StopClear))
    case StopClear => Effect(c.(writing := false), Some(DrainQueue(false)))
    case DrainQueue(thenFinish) =>
      if c.queue != [] then Effect(c.(queue := c.queue[1..]), Some(pc))
      else Effect(c, if thenFinish then Some(CallFinish) else None)
    // OnCancel of the other two
    case JustCancel => Effect(c.(cancelled := true), None)
  }

  function EffectOf(s: State, a: Label): Effect
    requires Enabled(s, a)
  {
    match a
    case Enter(_, pc) => Effect(s.core, Some(pc))
    case Completed(_, ok) => Effect(s.core.(outstanding := s.core.outstanding - 1), Some(DoneClear(ok)))
    case Move(t) => Perform(s.kind, s.core, s.threads[t])
  }

  /**
   A drain removes a message while a flush is past its checks and about to dequeue, and another message is
   behind it in the queue or about to be put there.
   */
  predicate Crosses(s: State, a: Label)
    requires Enabled(s, a)
  {
    && a.Move? && s.threads[a.t].DrainQueue? && s.core.queue != []
    && (exists t | t in s.threads :: s.threads[t].FlushTake?)
    && (|s.core.queue| > 1 || exists u | u in s.threads :: s.threads[u].SendPut?)
  }

  function Next(s: State, a: Label): State
    requires Enabled(s, a)
  {
    var e := EffectOf(s, a);
    s.(core := e.core,
       threads := if e.pc.Some? then s.threads[a.t := e.pc.value] else s.threads - {a.t},
       crossed := s.crossed || Crosses(s, a))
  }

  ghost predicate Steps(s: State, run: seq<Label>, s': State)
    decreases |run|
  {
    if run == [] then s == s'
    else Enabled(s, run[0]) && Steps(Next(s, run[0]), run[1..], s')
  }

  ghost predicate Reachable(s: State) {
    exists s0, run :: Init(s0) && Steps(s0, run, s)
  }

  /** The thread that moves, before the step. */
  function Before(s: State, a: Label): Option<Pc> {
    if a.t in s.threads then Some(s.threads[a.t]) else None
  }

  ghost predicate At(s: State, t: nat, pc: Pc) { t in s.threads && s.threads[t] == pc }

  /** Only the moving thread changes its place. */
  lemma OthersStay(s: State, a: Label)
    requires Enabled(s, a)
    ensures Next(s, a).kind == s.kind && Next(s, a).serialised == s.serialised
    ensures Next(s, a).core == EffectOf(s, a).core
    ensures Next(s, a).crossed == (s.crossed || Crosses(s, a))
    ensures forall t, pc :: At(Next(s, a), t, pc) <==>
              if t == a.t then EffectOf(s, a).pc == Some(pc) else At(s, t, pc)
    ensures forall pc :: At(s, a.t, pc) <==> Before(s, a) == Some(pc)
    ensures Before(s, a).Some? ==> At(s, a.t, Before(s, a).value)
    ensures EffectOf(s, a).pc.Some? ==> At(Next(s, a), a.t, EffectOf(s, a).pc.value)
  {
  }

  // ------------------------------------------------------- nothing is stranded

  /** These operations come only after `_is_cancelled` was seen or stored true. */
  predicate AfterCancel(pc: Pc) { pc.StopClear? || pc.DrainQueue? || pc.CallFinish? }

  /** A thread that will end in OnWriteDone clearing `_is_writing`. */
  predicate WillClear(pc: Pc) { pc.FlushStart? || pc.DoneClear? }

  ghost predicate CancelSeen(s: State) {
    forall t, pc :: At(s, t, pc) && AfterCancel(pc) ==> s.core.cancelled
  }

  ghost predicate WritingHasOwner(s: State) {
    s.core.writing && !s.core.cancelled ==> s.core.outstanding > 0 || exists t, pc :: At(s, t, pc) && WillClear(pc)
  }

  ghost predicate QueueIsWatched(s: State) {
    !s.core.cancelled && s.core.queue != [] ==> s.core.outstanding > 0 || exists t, pc :: At(s, t, pc)
  }

  ghost predicate Watched(s: State) { CancelSeen(s) && WritingHasOwner(s) && QueueIsWatched(s) }

  lemma CancelSeenStep(s: State, a: Label)
    requires CancelSeen(s) && Enabled(s, a)
    ensures CancelSeen(Next(s, a))
  {
    hide At, Next;
    OthersStay(s, a);
  }

  lemma WritingHasOwnerStep(s: State, a: Label)
    requires WritingHasOwner(s) && Enabled(s, a)
    ensures WritingHasOwner(Next(s, a))
  {
    hide At, Next;
    OthersStay(s, a);
    var s' := Next(s, a);
    if s'.core.writing && !s'.core.cancelled && s'.core.outstanding == 0 {
      var e := EffectOf(s, a);
      if e.pc.Some? && WillClear(e.pc.value) {
        assert At(s', a.t, e.pc.value);
      } else {
        var t, pc :| At(s, t, pc) && WillClear(pc);
        assert At(s', t, pc);
      }
    }
  }

  lemma QueueIsWatchedStep(s: State, a: Label)
    requires CancelSeen(s) && WritingHasOwner(s) && QueueIsWatched(s) && Enabled(s, a)
    ensures QueueIsWatched(Next(s, a))
  {
    hide At, Next;
    OthersStay(s, a);
    var s' := Next(s, a);
    var e := EffectOf(s, a);
    if !s'.core.cancelled && s'.core.queue != [] && s'.core.outstanding == 0 {
      if e.pc.Some? {
        assert At(s', a.t, e.pc.value);
      } else {
        assert At(s, a.t, FlushLoadWriting);
        var t, pc :| At(s, t, pc) && WillClear(pc);
        assert At(s', t, pc);
      }
    }
  }

  // ------------------------------------------------------- each accepted message

  /** The number of messages that have left the queue. */
  function Gone(c: Core): int { c.accepted - |c.queue| }

  /** The queue holds the latest messages, in order of acceptance. */
  ghost predicate QueueInOrder(c: Core) {
    Gone(c) >= 0 && forall i | 0 <= i < |c.queue| :: c.queue[i] == Gone(c) + i
  }

  ghost predicate Held(s: State, t: nat, m: nat) {
    At(s, t, FlushMark(m)) || At(s, t, FlushStart(m))
  }

  /** Only messages that left the queue are in hand or started. */
  ghost predicate TakenInOrder(s: State) {
    && (forall i | 0 <= i < |s.core.started| :: s.core.started[i] < Gone(s.core))
    && (forall t: nat, m: nat :: Held(s, t, m) ==> m < Gone(s.core))
  }

  /** No message is started twice, and none that was started is in hand, nor any in two hands. */
  ghost predicate TakenOnce(s: State) {
    && (forall i, j | 0 <= i < j < |s.core.started| :: s.core.started[i] != s.core.started[j])
    && (forall t: nat, m: nat :: Held(s, t, m) ==> m !in s.core.started)
    && (forall t: nat, u: nat, m: nat :: Held(s, t, m) && Held(s, u, m) ==> t == u)
  }

  /** Until the reactor is cancelled every message that left the queue is in hand or started. */
  ghost predicate NoneLost(s: State) {
    !s.core.cancelled ==>
      forall m: nat | m < Gone(s.core) :: m in s.core.started || exists t :: Held(s, t, m)
  }

  ghost predicate Conserved(s: State) {
    QueueInOrder(s.core) && TakenInOrder(s) && TakenOnce(s) && NoneLost(s)
  }

  lemma QueueInOrderStep(s: State, a: Label)
    requires QueueInOrder(s.core) && Enabled(s, a)
    ensures QueueInOrder(EffectOf(s, a).core)
    ensures Gone(s.core) <= Gone(EffectOf(s, a).core)
  {
  }

  /** A hand is filled only with the oldest queued message. */
  lemma HandFilled(s: State, a: Label)
    requires Enabled(s, a)
    ensures var s' := Next(s, a);
            forall t: nat, m: nat :: Held(s', t, m) ==>
              || Held(s, t, m)
              || (t == a.t && s.core.queue != [] && m == s.core.queue[0] && Gone(s'.core) == Gone(s.core) + 1)
  {
    hide At, Next;
    OthersStay(s, a);
  }

  /** A hand is emptied only by starting its message, and only then is one started. */
  lemma HandEmptied(s: State, a: Label)
    requires Enabled(s, a)
    ensures var s' := Next(s, a);
            && (forall t: nat, m: nat :: Held(s, t, m) ==> Held(s', t, m) || (t == a.t && s'.core.started == s.core.started + [m]))
            && (s'.core.started == s.core.started
                || exists m :: Held(s, a.t, m) && !Held(s', a.t, m) && s'.core.started == s.core.started + [m])
  {
    hide At, Next;
    OthersStay(s, a);
    var s' := Next(s, a);
    if s'.core.started != s.core.started {
      var m := s.threads[a.t].msg;
      assert Held(s, a.t, m) && !Held(s', a.t, m);
    }
  }

  lemma HandIsOne(s: State)
    ensures forall t: nat, m: nat, n: nat :: Held(s, t, m) && Held(s, t, n) ==> m == n
  {
  }

  lemma TakenStep(s: State, a: Label)
    requires QueueInOrder(s.core) && TakenInOrder(s) && TakenOnce(s) && Enabled(s, a)
    ensures TakenInOrder(Next(s, a)) && TakenOnce(Next(s, a))
  {
    hide Next, Held;
    OthersStay(s, a);
    QueueInOrderStep(s, a);
    HandFilled(s, a);
    HandEmptied(s, a);
    HandIsOne(Next(s, a));
  }

  lemma NoneLostStep(s: State, a: Label)
    requires CancelSeen(s) && QueueInOrder(s.core) && NoneLost(s) && Enabled(s, a)
    ensures NoneLost(Next(s, a))
  {
    hide Next, At;
    OthersStay(s, a);
    HandEmptied(s, a);
    var s' := Next(s, a);
    if !s'.core.cancelled {
      forall m: nat | m < Gone(s'.core)
        ensures m in s'.core.started || exists t :: Held(s', t, m)
      {
        if m < Gone(s.core) && m !in s.core.started {
          var t :| Held(s, t, m);
          assert Held(s', t, m) || m in s'.core.started;
        } else if m >= Gone(s.core) {
          assert Held(s', a.t, m);
        }
      }
    }
  }

  // ------------------------------------------------------- flushes one at a time

  /** No write is outstanding, nor completed with `_is_writing` still to be cleared. */
  ghost predicate NoWrite(s: State) {
    s.core.outstanding == 0 && forall t, pc :: At(s, t, pc) ==> !pc.DoneClear?
  }

  predicate MayStart(pc: Pc) { pc.FlushTake? || Holds(pc) }

  ghost predicate OneFlusher(s: State) {
    s.serialised ==>
      forall t, u, p, q :: At(s, t, p) && At(s, u, q) && Flushing(p) && Flushing(q) ==> t == u
  }

  ghost predicate OneWrite(s: State) {
    && s.core.outstanding <= 1
    && (s.core.outstanding == 1 ==> forall t, pc :: At(s, t, pc) ==> !pc.DoneClear?)
    && (forall t, u, p, q :: At(s, t, p) && At(s, u, q) && p.DoneClear? && q.DoneClear? ==> t == u)
  }

  /** A flush that found `_is_writing` clear is alone, or will find the reactor cancelled. */
  ghost predicate FlushIsSafe(s: State) {
    && (!s.core.writing ==> s.core.cancelled || NoWrite(s))
    && (forall t :: At(s, t, FlushLoadCancelled) ==> s.core.cancelled || NoWrite(s))
    && (forall t, pc :: At(s, t, pc) && MayStart(pc) ==> NoWrite(s))
    && (forall t, m :: At(s, t, FlushStart(m)) ==> s.core.writing || s.core.cancelled)
  }

  ghost predicate Exclusive(s: State) {
    OneFlusher(s) && (s.serialised ==> OneWrite(s) && FlushIsSafe(s))
  }

  lemma OneFlusherStep(s: State, a: Label)
    requires OneFlusher(s) && Enabled(s, a)
    ensures OneFlusher(Next(s, a))
  {
    hide At, Next;
    OthersStay(s, a);
    assert s.serialised && Before(s, a) == Some(FlushLoadWriting) ==>
        forall t, pc :: At(s, t, pc) ==> !Flushing(pc) by {
      AtMeans(s);
    }
  }

  lemma AtMeans(s: State)
    ensures forall t, pc :: At(s, t, pc) <==> t in s.threads && s.threads[t] == pc
  {
  }

  lemma OneWriteStep(s: State, a: Label)
    requires OneWrite(s) && FlushIsSafe(s) && Enabled(s, a)
    ensures OneWrite(Next(s, a))
  {
    hide At, Next;
    OthersStay(s, a);
  }

  lemma FlushIsSafeStep(s: State, a: Label)
    requires s.serialised && CancelSeen(s) && OneFlusher(s) && OneWrite(s) && FlushIsSafe(s) && Enabled(s, a)
    ensures FlushIsSafe(Next(s, a))
  {
    hide At, Next;
    OthersStay(s, a);
  }

  // ------------------------------------------------------- messages start in order

  ghost predicate StartedInOrder(s: State) {
    && (forall i, j | 0 <= i < j < |s.core.started| :: s.core.started[i] < s.core.started[j])
    && (forall t: nat, m: nat, i | Held(s, t, m) && 0 <= i < |s.core.started| :: s.core.started[i] < m)
  }

  /** Until cancelled: message i is the i-th started, and the message in hand, if any, is the next. */
  ghost predicate StartedAll(s: State) {
    !s.core.cancelled ==>
      && (forall i | 0 <= i < |s.core.started| :: s.core.started[i] == i)
      && (forall t: nat, m: nat :: Held(s, t, m) ==> |s.core.started| == m && Gone(s.core) == m + 1)
      && ((forall t: nat, m: nat :: !Held(s, t, m)) ==> |s.core.started| == Gone(s.core))
  }

  lemma HoldersFlush(s: State)
    requires s.serialised && OneFlusher(s)
    ensures forall t: nat, m: nat, u: nat, n: nat :: Held(s, t, m) && Held(s, u, n) ==> t == u && m == n
    ensures forall t: nat, m: nat, u: nat :: !(Held(s, t, m) && At(s, u, FlushTake))
  {
    forall t: nat, m: nat, u: nat, n: nat | Held(s, t, m) && Held(s, u, n)
      ensures t == u && m == n
    {
      assert Flushing(s.threads[t]) && Flushing(s.threads[u]) && At(s, t, s.threads[t]) && At(s, u, s.threads[u]);
    }
    forall t: nat, m: nat, u: nat | Held(s, t, m) && At(s, u, FlushTake)
      ensures false
    {
      assert Flushing(s.threads[t]) && At(s, t, s.threads[t]);
    }
  }

  lemma StartedInOrderStep(s: State, a: Label)
    requires s.serialised && OneFlusher(s) && QueueInOrder(s.core) && TakenInOrder(s)
    requires StartedInOrder(s) && Enabled(s, a)
    ensures StartedInOrder(Next(s, a))
  {
    hide At, Next, Held;
    HoldersFlush(s);
    HandIsOne(Next(s, a));
    HandFilled(s, a);
    HandEmptied(s, a);
    QueueInOrderStep(s, a);
  }

  lemma GoneStep(s: State, a: Label)
    requires CancelSeen(s) && Enabled(s, a) && !EffectOf(s, a).core.cancelled
    ensures var s' := Next(s, a);
            Gone(s'.core) == Gone(s.core)
            || (Gone(s'.core) == Gone(s.core) + 1 && At(s, a.t, FlushTake) && s.core.queue != []
                && Held(s', a.t, s.core.queue[0]) && s'.core.started == s.core.started)
  {
    if a.Move? { assert At(s, a.t, s.threads[a.t]); }
  }

  lemma StartedAllStep(s: State, a: Label)
    requires s.serialised && CancelSeen(s) && OneFlusher(s) && QueueInOrder(s.core)
    requires StartedAll(s) && Enabled(s, a)
    ensures StartedAll(Next(s, a))
  {
    hide At, Next, Held;
    OthersStay(s, a);
    HoldersFlush(s);
    HandIsOne(Next(s, a));
    HandFilled(s, a);
    HandEmptied(s, a);
    if !EffectOf(s, a).core.cancelled {
      GoneStep(s, a);
    }
  }

  // ------------------------------------------------------- OnWriteDone follows a write

  predicate InWriteDone(pc: Pc) {
    pc.DoneClear? || pc.DoneCancel? || pc.DoneLoadCancelled? || pc == DrainQueue(true) || pc.CallFinish?
  }

  /** Before the first write nothing is outstanding, and no thread is where only OnWriteDone comes. */
  ghost predicate DoneAfterWrite(s: State) {
    s.core.started == [] ==> s.core.outstanding == 0 && forall t, pc :: At(s, t, pc) ==> !InWriteDone(pc)
  }

  lemma DoneAfterWriteStep(s: State, a: Label)
    requires DoneAfterWrite(s) && Enabled(s, a)
    ensures DoneAfterWrite(Next(s, a))
  {
    hide At, Next;
    OthersStay(s, a);
  }

  // ------------------------------------------------------- a drain ends with nothing to drain

  predicate Drains(kind: Kind) { kind.Recognize? || kind.Embedding? }

  /**
   A thread leaves Stop, or an OnCancel that drains, only with the reactor cancelled and the queue empty; and comes to
   Finish only with the reactor cancelled and, on the two reactors whose OnWriteDone drains, the queue empty.
   */
  lemma DrainsBeforeLeaving(s: State, a: Label)
    requires Reachable(s) && Enabled(s, a)
    ensures At(s, a.t, DrainQueue(false)) && a.Move? && a.t !in Next(s, a).threads ==>
              Next(s, a).core.cancelled && Next(s, a).core.queue == []
    ensures !At(s, a.t, CallFinish) && At(Next(s, a), a.t, CallFinish) ==>
              Next(s, a).core.cancelled && (Drains(s.kind) ==> Next(s, a).core.queue == [])
  {
    hide Reachable, NoneLost, TakenOnce, TakenInOrder, QueueInOrder, OneFlusher, OneWrite, FlushIsSafe, StartedInOrder, StartedAll;
    ReachableInv(s);
    assert AfterCancel(DrainQueue(false)) && AfterCancel(CallFinish);
    if a.Move? { assert At(s, a.t, s.threads[a.t]); }
  }

  /** On the way to Finish, in an OnWriteDone. */
  predicate HeadsToFinish(pc: Pc) { pc.DoneCancel? || pc == DrainQueue(true) || pc.CallFinish? }

  /**
   An OnWriteDone of a failed write goes on to Finish, and so does one of the embedding reactor that finds it cancelled; no
   other does, and once on the way it ends by calling Finish.
   */
  lemma WriteDoneFinishes(s: State, a: Label)
    requires Enabled(s, a) && a.Move? && InWriteDone(s.threads[a.t])
    ensures var pc, s' := s.threads[a.t], Next(s, a);
            var finishes := HeadsToFinish(pc) || pc == DoneClear(false) || (pc.DoneLoadCancelled? && s.core.cancelled);
            && (a.t in s'.threads && HeadsToFinish(s'.threads[a.t]) <==> finishes && !pc.CallFinish?)
            && (a.t !in s'.threads <==> pc.CallFinish?)
            && (pc.DoneLoadCancelled? ==> s.kind.Embedding? || !s.core.cancelled || a.t in s'.threads)
  {
  }

  // ------------------------------------------------------- no message is skipped

  /** Messages were started without a gap, and what is in hand or will be dequeued by a flush is the next one. */
  ghost predicate NoGaps(s: State) {
    && (forall i | 0 <= i < |s.core.started| :: s.core.started[i] == i)
    && (forall t: nat, m: nat :: Held(s, t, m) ==> m == |s.core.started|)
    && (forall t :: At(s, t, FlushTake) ==> Gone(s.core) == |s.core.started| || NothingToTake(s))
  }

  /** The queue is empty for good. */
  ghost predicate NothingToTake(s: State) {
    s.core.cancelled && s.core.queue == [] && forall u :: !At(s, u, SendPut)
  }

  lemma CrossesMeans(s: State, a: Label)
    requires Enabled(s, a)
    ensures Crosses(s, a) <==>
              && (exists f :: At(s, a.t, DrainQueue(f))) && a.Move? && s.core.queue != []
              && (exists t :: At(s, t, FlushTake))
              && (|s.core.queue| > 1 || exists u :: At(s, u, SendPut))
  {
    if Crosses(s, a) {
      assert At(s, a.t, DrainQueue(s.threads[a.t].thenFinish));
      var t :| t in s.threads && s.threads[t].FlushTake?;
      assert At(s, t, FlushTake);
      if |s.core.queue| <= 1 {
        var u :| u in s.threads && s.threads[u].SendPut?;
        assert At(s, u, SendPut);
      }
    }
  }

  /** Once nothing can be taken it stays so. */
  lemma NothingToTakeStep(s: State, a: Label)
    requires NothingToTake(s) && Enabled(s, a)
    ensures NothingToTake(Next(s, a))
  {
    hide At, Next;
    OthersStay(s, a);
  }

  /** Of the steps that take a message from the queue, a drain that crosses no flush leaves nothing to take. */
  lemma QuietDrain(s: State, a: Label, t: nat)
    requires CancelSeen(s) && Enabled(s, a) && !Crosses(s, a) && At(s, t, FlushTake) && a.t != t
    requires s.serialised && OneFlusher(s)
    ensures Gone(Next(s, a).core) == Gone(s.core) || NothingToTake(Next(s, a))
  {
    hide At, Next, Crosses;
    OthersStay(s, a);
    CrossesMeans(s, a);
    if Gone(EffectOf(s, a).core) != Gone(s.core) {
      assert Before(s, a).Some?;
      assert Flushing(FlushTake);
      assert Before(s, a).value.DrainQueue?;
      assert At(s, a.t, DrainQueue(Before(s, a).value.thenFinish));
    }
  }

  lemma HandsNoGaps(s: State, a: Label)
    requires s.serialised && OneFlusher(s) && QueueInOrder(s.core) && NoGaps(s) && Enabled(s, a)
    ensures var s' := Next(s, a);
            && (forall i | 0 <= i < |s'.core.started| :: s'.core.started[i] == i)
            && (forall t: nat, m: nat :: Held(s', t, m) ==> m == |s'.core.started|)
  {
    hide At, Next, Held;
    OthersStay(s, a);
    HoldersFlush(s);
    HandIsOne(Next(s, a));
    HandFilled(s, a);
    HandEmptied(s, a);
    HandFilledByTake(s, a);
  }

  lemma HandFilledByTake(s: State, a: Label)
    requires Enabled(s, a)
    ensures forall m: nat :: Held(Next(s, a), a.t, m) && !Held(s, a.t, m) ==> At(s, a.t, FlushTake)
  {
    hide Next, At;
    OthersStay(s, a);
  }

  lemma TakersNoGaps(s: State, a: Label)
    requires s.serialised && CancelSeen(s) && OneFlusher(s) && StartedAll(s)
    requires NoGaps(s) && Enabled(s, a) && !Crosses(s, a)
    ensures var s' := Next(s, a);
            forall t :: At(s', t, FlushTake) ==> Gone(s'.core) == |s'.core.started| || NothingToTake(s')
  {
    hide At, Next, Held, Crosses;
    OthersStay(s, a);
    HoldersFlush(s);
    HandEmptied(s, a);
    var s' := Next(s, a);
    forall t | At(s', t, FlushTake)
      ensures Gone(s'.core) == |s'.core.started| || NothingToTake(s')
    {
      if a.t != t {
        if NothingToTake(s) { NothingToTakeStep(s, a); } else { QuietDrain(s, a, t); }
      } else {
        assert At(s, t, FlushLoadCancelled);
        FlusherHolds(s, t);
      }
    }
  }

  lemma FlusherHolds(s: State, t: nat)
    requires s.serialised && OneFlusher(s) && At(s, t, FlushLoadCancelled)
    ensures forall u: nat, m: nat :: !Held(s, u, m)
  {
    forall u: nat, m: nat | Held(s, u, m)
      ensures false
    {
      assert Flushing(s.threads[u]) && At(s, u, s.threads[u]) && Flushing(FlushLoadCancelled);
    }
  }

  lemma NoGapsStep(s: State, a: Label)
    requires s.serialised && CancelSeen(s) && OneFlusher(s) && QueueInOrder(s.core) && StartedAll(s)
    requires NoGaps(s) && Enabled(s, a) && !Crosses(s, a)
    ensures NoGaps(Next(s, a))
  {
    hide At, Next, Held, Crosses, NothingToTake, CancelSeen, OneFlusher, QueueInOrder, StartedAll;
    HandsNoGaps(s, a);
    TakersNoGaps(s, a);
  }

  // ------------------------------------------------------- every reachable state

  ghost predicate Inv(s: State) {
    && Watched(s) && Conserved(s) && Exclusive(s) && DoneAfterWrite(s)
    && (s.serialised ==> StartedInOrder(s) && StartedAll(s))
    && (s.serialised && !s.crossed ==> NoGaps(s))
  }

  lemma InvInit(s: State)
    requires Init(s)
    ensures Inv(s)
  {
  }

  lemma InvStep(s: State, a: Label)
    requires Inv(s) && Enabled(s, a)
    ensures Inv(Next(s, a))
  {
    hide Next, CancelSeen, WritingHasOwner, QueueIsWatched, QueueInOrder, TakenInOrder, TakenOnce, NoneLost;
    hide OneFlusher, OneWrite, FlushIsSafe, StartedInOrder, StartedAll, DoneAfterWrite, NoGaps, Crosses;
    OthersStay(s, a);
    CancelSeenStep(s, a);
    WritingHasOwnerStep(s, a);
    QueueIsWatchedStep(s, a);
    QueueInOrderStep(s, a);
    TakenStep(s, a);
    NoneLostStep(s, a);
    OneFlusherStep(s, a);
    DoneAfterWriteStep(s, a);
    if s.serialised {
      OneWriteStep(s, a);
      FlushIsSafeStep(s, a);
      StartedInOrderStep(s, a);
      StartedAllStep(s, a);
      if !s.crossed && !Crosses(s, a) { NoGapsStep(s, a); }
    }
  }

  lemma {:induction false} InvRun(s: State, run: seq<Label>, s': State)
    requires Inv(s) && Steps(s, run, s')
    ensures Inv(s')
    decreases |run|
  {
    hide Inv, Next;
    if run != [] {
      InvStep(s, run[0]);
      InvRun(Next(s, run[0]), run[1..], s');
    }
  }

  lemma ReachableInv(s: State)
    requires Reachable(s)
    ensures Inv(s)
  {
    hide Inv, Next;
    var s0, run :| Init(s0) && Steps(s0, run, s);
    InvInit(s0);
    InvRun(s0, run, s);
  }

  /** No thread is inside the pump and gRPC owes no OnWriteDone. */
  predicate Quiet(s: State) { s.threads == map[] && s.core.outstanding == 0 }

  /**
   Main result, for any number of threads and flushes that overlap freely. A quiet reactor that was
   not cancelled has an empty queue, and has started every accepted message exactly once.
   */
  lemma NothingIsStranded(s: State)
    requires Reachable(s) && Quiet(s) && !s.core.cancelled
    ensures s.core.queue == []
    ensures forall m: nat | m < s.core.accepted :: m in s.core.started
    ensures forall i, j | 0 <= i < j < |s.core.started| :: s.core.started[i] != s.core.started[j]
    ensures forall i | 0 <= i < |s.core.started| :: s.core.started[i] < s.core.accepted
  {
    ReachableInv(s);
  }

  /**
   Main result. When flushes do not overlap, and whatever Stop, OnCancel and OnWriteDone do in between,
   StartWrite is called only with no write outstanding, and messages are started in order of acceptance;
   a quiet reactor that was not cancelled has started exactly the accepted messages in order.
   */
  lemma SerialisedFlushesAreSafe(s: State)
    requires Reachable(s) && s.serialised
    ensures s.core.outstanding <= 1
    ensures forall t: nat, m: nat | t in s.threads && s.threads[t] == FlushStart(m) :: s.core.outstanding == 0
    ensures forall i, j | 0 <= i < j < |s.core.started| :: s.core.started[i] < s.core.started[j]
    ensures Quiet(s) && !s.core.cancelled ==> s.core.started == seq(s.core.accepted, i => i)
  {
    ReachableInv(s);
    forall t: nat, m: nat | t in s.threads && s.threads[t] == FlushStart(m)
      ensures s.core.outstanding == 0
    {
      assert At(s, t, FlushStart(m)) && MayStart(FlushStart(m));
    }
  }

  // ------------------------------------------------------- exactly when a message is skipped

  /** The messages started are the first ones accepted, in order. */
  ghost predicate Gapless(s: State) {
    |s.core.started| <= s.core.accepted && forall i | 0 <= i < |s.core.started| :: s.core.started[i] == i
  }

  /**
   Main result. With flushes one at a time, and until a drain crosses one, the messages started are the first
   ones accepted, without a gap: before a cancellation and after it.
   */
  lemma NoMessageIsSkipped(s: State)
    requires Reachable(s) && s.serialised && !s.crossed
    ensures Gapless(s)
  {
    hide Reachable;
    ReachableInv(s);
    if s.core.started != [] {
      assert s.core.started[|s.core.started| - 1] < s.core.accepted;
    }
  }

  /** With their contents: the messages started, when message n is the n-th of `accepted`. */
  function Written<M>(accepted: seq<M>, started: seq<nat>): seq<M>
    requires forall i | 0 <= i < |started| :: started[i] < |accepted|
  {
    seq(|started|, i requires 0 <= i < |started| => accepted[started[i]])
  }

  /** Only accepted messages are started; those started are a prefix of those accepted until a drain crosses a flush. */
  lemma WrittenIsPrefix<M>(s: State, accepted: seq<M>)
    requires Inv(s) && |accepted| == s.core.accepted
    ensures forall i | 0 <= i < |s.core.started| :: s.core.started[i] < |accepted|
    ensures s.serialised && (!s.crossed || !s.core.cancelled) ==> Written(accepted, s.core.started) <= accepted
    ensures s.serialised && !s.core.cancelled && Quiet(s) ==> Written(accepted, s.core.started) == accepted
  {
    if s.core.started != [] {
      assert s.core.started[|s.core.started| - 1] < s.core.accepted;
    }
  }

  function Numbers(n: nat): seq<nat> { seq(n, i => i) }

  lemma {:induction false} EachOnce(s: seq<nat>)
    requires forall i, j | 0 <= i < j < |s| :: s[i] != s[j]
    ensures forall x :: multiset(s)[x] == if x in s then 1 else 0
  {
    if s != [] {
      var last := |s| - 1;
      EachOnce(s[..last]);
      assert s == s[..last] + [s[last]];
    }
  }

  lemma AllNumbers(s: seq<nat>, n: nat)
    requires forall i, j | 0 <= i < j < |s| :: s[i] != s[j]
    requires forall x: nat :: x in s <==> x < n
    ensures multiset(s) == multiset(Numbers(n))
  {
    EachOnce(s);
    EachOnce(Numbers(n));
    forall x: nat
      ensures x in Numbers(n) <==> x < n
    {
      if x < n { assert Numbers(n)[x] == x; }
    }
  }

  /** The order in which messages are started does not change which are. */
  lemma {:induction false} WrittenSame<M>(accepted: seq<M>, a: seq<nat>, b: seq<nat>)
    requires multiset(a) == multiset(b)
    requires forall i | 0 <= i < |a| :: a[i] < |accepted|
    requires forall i | 0 <= i < |b| :: b[i] < |accepted|
    ensures multiset(Written(accepted, a)) == multiset(Written(accepted, b))
    decreases |a|
  {
    hide Written;
    if a == [] {
      assert |multiset(a)| == |multiset(b)|;
    } else {
      var last := |a| - 1;
      assert a[last] in multiset(b);
      var j :| 0 <= j < |b| && b[j] == a[last];
      Without(a, last);
      Without(b, j);
      WrittenCut(accepted, a, last);
      WrittenCut(accepted, b, j);
      var a', b' := a[..last] + a[last + 1..], b[..j] + b[j + 1..];
      assert multiset(a') == multiset(a) - multiset{a[last]} == multiset(b) - multiset{b[j]} == multiset(b');
      WrittenSame(accepted, a', b');
    }
  }

  lemma Without<T>(s: seq<T>, j: nat)
    requires j < |s|
    ensures multiset(s) == multiset(s[..j] + s[j + 1..]) + multiset{s[j]}
  {
    assert s == s[..j] + [s[j]] + s[j + 1..];
  }

  lemma WrittenCut<M>(accepted: seq<M>, b: seq<nat>, j: nat)
    requires j < |b| && forall i | 0 <= i < |b| :: b[i] < |accepted|
    ensures var rest := b[..j] + b[j + 1..];
            && (forall i | 0 <= i < |rest| :: rest[i] < |accepted|)
            && multiset(Written(accepted, b)) == multiset(Written(accepted, rest)) + multiset{accepted[b[j]]}
  {
    var rest := b[..j] + b[j + 1..];
    var w := Written(accepted, b);
    assert w == w[..j] + [w[j]] + w[j + 1..];
    assert Written(accepted, rest) == w[..j] + w[j + 1..];
  }

  /** However flushes overlap, a quiet pump that was not cancelled has written each accepted message once. */
  lemma WrittenIsPermutation<M>(s: State, accepted: seq<M>)
    requires Inv(s) && |accepted| == s.core.accepted && Quiet(s) && !s.core.cancelled
    ensures forall i | 0 <= i < |s.core.started| :: s.core.started[i] < |accepted|
    ensures multiset(Written(accepted, s.core.started)) == multiset(accepted)
  {
    WrittenIsPrefix(s, accepted);
    QuietStartedAll(s);
    AllNumbers(s.core.started, |accepted|);
    WrittenSame(accepted, s.core.started, Numbers(|accepted|));
    assert Written(accepted, Numbers(|accepted|)) == accepted;
  }

  lemma QuietStartedAll(s: State)
    requires Inv(s) && Quiet(s) && !s.core.cancelled
    ensures s.core.queue == []
    ensures forall m: nat | m < s.core.accepted :: m in s.core.started
    ensures forall i, j | 0 <= i < j < |s.core.started| :: s.core.started[i] != s.core.started[j]
    ensures forall i | 0 <= i < |s.core.started| :: s.core.started[i] < s.core.accepted
  {
  }

  /** No step of the run is a drain that crosses a flush. */
  ghost predicate Uncrossed(s: State, run: seq<Label>)
    decreases |run|
  {
    run != [] ==> Enabled(s, run[0]) && !Crosses(s, run[0]) && Uncrossed(Next(s, run[0]), run[1..])
  }

  lemma {:induction false} UncrossedStays(s: State, run: seq<Label>, s': State)
    requires Steps(s, run, s') && Uncrossed(s, run)
    ensures s'.crossed == s.crossed && s'.serialised == s.serialised
    decreases |run|
  {
    if run != [] { UncrossedStays(Next(s, run[0]), run[1..], s'); }
  }

  lemma OneStepAhead(s: State, a: Label, run: seq<Label>, s': State)
    requires Enabled(s, a) && !Crosses(s, a) && Steps(Next(s, a), run, s') && Uncrossed(Next(s, a), run)
    ensures Steps(s, [a] + run, s') && Uncrossed(s, [a] + run)
  {
    assert ([a] + run)[1..] == run;
  }

  /** A flush about to dequeue starts the oldest message in the queue. */
  lemma TakeAndStart(s: State, t: nat) returns (run: seq<Label>, s': State)
    requires At(s, t, FlushTake) && s.core.queue != []
    ensures Steps(s, run, s') && Uncrossed(s, run)
    ensures s'.core.started == s.core.started + [s.core.queue[0]]
  {
    var m := s.core.queue[0];
    var s1 := Next(s, Move(t));
    assert s1.threads[t] == FlushMark(m);
    var s2 := Next(s1, Move(t));
    assert s2.threads[t] == FlushStart(m);
    s' := Next(s2, Move(t));
    assert Steps(s', [], s') && Uncrossed(s', []);
    OneStepAhead(s2, Move(t), [], s');
    OneStepAhead(s1, Move(t), [Move(t)] + [], s');
    OneStepAhead(s, Move(t), [Move(t)] + ([Move(t)] + []), s');
    run := [Move(t)] + ([Move(t)] + ([Move(t)] + []));
  }

  /** The same, where the queue may be empty but a thread is about to put a message. */
  lemma PutTakeAndStart(s: State, t: nat) returns (run: seq<Label>, s': State, m: nat)
    requires At(s, t, FlushTake) && (s.core.queue != [] || exists u :: At(s, u, SendPut))
    requires QueueInOrder(s.core)
    ensures Steps(s, run, s') && Uncrossed(s, run)
    ensures s'.core.started == s.core.started + [m] && m >= Gone(s.core)
  {
    if s.core.queue != [] {
      m := s.core.queue[0];
      run, s' := TakeAndStart(s, t);
    } else {
      var u :| At(s, u, SendPut);
      m := s.core.accepted;
      var s1 := Next(s, Move(u));
      assert At(s1, t, FlushTake) && s1.core.queue == [m];
      var more;
      more, s' := TakeAndStart(s1, t);
      OneStepAhead(s, Move(u), more, s');
      run := [Move(u)] + more;
    }
  }

  /** Every drain that crosses a flush has a continuation, with no further crossing, in which a message is skipped. */
  lemma CrossingSkips(s: State, a: Label) returns (run: seq<Label>, s': State)
    requires Reachable(s) && Enabled(s, a) && Crosses(s, a)
    ensures Steps(Next(s, a), run, s') && Uncrossed(Next(s, a), run)
    ensures !Gapless(s') && s.core.queue[0] !in s'.core.started
  {
    hide Reachable;
    ReachableInv(s);
    CrossesMeans(s, a);
    var s1, d := Next(s, a), s.core.queue[0];
    assert Inv(s1) by { InvStep(s, a); }
    var t :| At(s, t, FlushTake);
    assert At(s1, t, FlushTake);
    if |s.core.queue| == 1 {
      var u :| At(s, u, SendPut);
      assert At(s1, u, SendPut);
    }
    var m;
    run, s', m := PutTakeAndStart(s1, t);
    assert s1.core.started == s.core.started && m > d == Gone(s.core);
    var last := |s.core.started|;
    var i := if m == last then d else last;
    assert s'.core.started[i] != i;
  }

  /**
   The condition is exact: of the steps that can follow a run without a crossing, it is the drains that cross a flush,
   and no others, after which a message may be skipped with no further crossing.
   */
  lemma SkipsExactlyAfterCrossing(s: State, a: Label)
    requires Reachable(s) && s.serialised && !s.crossed && Enabled(s, a)
    ensures Crosses(s, a) <==>
              exists run, s' :: Steps(Next(s, a), run, s') && Uncrossed(Next(s, a), run) && !Gapless(s')
  {
    hide Crosses, Gapless, Steps, Uncrossed;
    if Crosses(s, a) {
      var run, s' := CrossingSkips(s, a);
    } else {
      OneMore(s, a);
      forall run, s' | Steps(Next(s, a), run, s') && Uncrossed(Next(s, a), run)
        ensures Gapless(s')
      {
        UncrossedStays(Next(s, a), run, s');
        MoreSteps(Next(s, a), run, s');
        NoMessageIsSkipped(s');
      }
    }
  }

  lemma {:induction false} MoreSteps(s: State, run: seq<Label>, s': State)
    requires Reachable(s) && Steps(s, run, s')
    ensures Reachable(s')
    decreases |run|
  {
    hide Reachable, Next, Enabled;
    if run != [] {
      OneMore(s, run[0]);
      MoreSteps(Next(s, run[0]), run[1..], s');
    }
  }

  // ------------------------------------------------------- one thread among the others

  predicate Does(s: State, a: Label, pc: Pc) { a.Move? && a.t in s.threads && s.threads[a.t] == pc }

  lemma DoesMeans(s: State, a: Label, pc: Pc)
    ensures Does(s, a, pc) ==> At(s, a.t, pc)
  {
  }

  /** A step of a thread inside `_send`. */
  lemma SenderMoves(s: State, t: nat, pc: Pc)
    requires At(s, t, pc) && Enabled(s, Move(t))
    requires pc.SendLoadCancelled? || pc.SendPut? || pc.FlushLoadWriting? || Flushing(pc)
    ensures var s' := Next(s, Move(t));
            && s'.core.cancelled == s.core.cancelled
            && s'.core.accepted == s.core.accepted + (if pc.SendPut? then 1 else 0)
            && (pc.SendLoadCancelled? ==> if s.core.cancelled then t !in s'.threads else At(s', t, SendPut))
            && (pc.SendPut? ==> At(s', t, FlushLoadWriting))
            && (pc.FlushLoadWriting? || Flushing(pc) ==> t !in s'.threads || Flushing(s'.threads[t]))
  {
  }

  lemma SenderEnters(s: State, t: nat)
    ensures Enabled(s, Enter(t, SendLoadCancelled)) ==>
              var s' := Next(s, Enter(t, SendLoadCancelled));
              s'.core == s.core && At(s', t, SendLoadCancelled)
  {
  }

  /** A step of another thread puts a message only where `Does` says so, and leaves this one where it is. */
  lemma OthersMove(s: State, a: Label, t: nat)
    requires Enabled(s, a) && a.t != t
    ensures var s' := Next(s, a);
            && (s.core.cancelled ==> s'.core.cancelled)
            && s'.core.accepted == s.core.accepted + (if Does(s, a, SendPut) then 1 else 0)
            && (t in s'.threads <==> t in s.threads)
            && (t in s.threads ==> s'.threads[t] == s.threads[t])
  {
  }

  // ------------------------------------------------------- what the code does not promise

  lemma {:induction false} StepsThen(s: State, run: seq<Label>, s': State, a: Label)
    requires Steps(s, run, s') && Enabled(s', a)
    ensures Steps(s, run + [a], Next(s', a))
    decreases |run|
  {
    hide Next, Enabled;
    if run == [] {
      assert [a][1..] == [];
      assert run + [a] == [a];
      assert Steps(Next(s, a), [], Next(s, a));
    } else {
      StepsThen(Next(s, run[0]), run[1..], s', a);
      assert (run + [a])[0] == run[0] && (run + [a])[1..] == run[1..] + [a];
    }
  }

  lemma OneMore(s: State, a: Label)
    requires Reachable(s) && Enabled(s, a)
    ensures Reachable(Next(s, a))
  {
    hide Next, Init, Steps, Enabled;
    var s0, run :| Init(s0) && Steps(s0, run, s);
    StepsThen(s0, run, s, a);
  }

  lemma Fresh(s: State)
    requires Init(s)
    ensures Reachable(s)
  {
    assert Steps(s, [], s);
  }

  /** Threads 0 and 1 have each put a message in the queue. */
  function TwoQueued(kind: Kind, serialised: bool): State {
    State(kind, serialised, Core(false, false, [0, 1], 2, [], 0),
          map[0 := FlushLoadWriting, 1 := FlushLoadWriting], false)
  }

  /** The state after a thread's `_send` has put its message in the queue. */
  function WithOneMore(s: State, t: nat): State {
    s.(core := s.core.(queue := s.core.queue + [s.core.accepted], accepted := s.core.accepted + 1),
       threads := s.threads[t := FlushLoadWriting])
  }

  lemma Queued(s: State, t: nat)
    requires Reachable(s) && t !in s.threads && !s.core.cancelled
    ensures Reachable(WithOneMore(s, t))
  {
    hide Reachable;
    OneMore(s, Enter(t, SendLoadCancelled));
    var s1 := Next(s, Enter(t, SendLoadCancelled));
    OneMore(s1, Move(t));
    var s2 := Next(s1, Move(t));
    assert s2.threads == s.threads[t := SendPut];
    OneMore(s2, Move(t));
    assert Next(s2, Move(t)).threads == s.threads[t := FlushLoadWriting];
    assert Next(s2, Move(t)) == WithOneMore(s, t);
  }

  lemma TwoQueuedIsReachable(kind: Kind, serialised: bool)
    ensures Reachable(TwoQueued(kind, serialised))
  {
    var s0 := State(kind, serialised, Core(false, false, [], 0, [], 0), map[], false);
    Fresh(s0);
    Queued(s0, 0);
    var s1 := WithOneMore(s0, 0);
    assert s1.core.queue == [0];
    Queued(s1, 1);
    assert WithOneMore(s1, 1).core.queue == [0, 1];
    assert WithOneMore(s1, 1) == TwoQueued(kind, serialised);
  }

  /** Two operations in a row, each leaving its thread where `p` and `q` say. */
  lemma BothMove(s: State, p: Pc, q: Pc, s': State)
    requires Reachable(s) && !s.serialised && s.threads == map[0 := p, 1 := q] && !p.DrainQueue? && !q.DrainQueue?
    requires var e := Perform(s.kind, s.core, p);
             var f := Perform(s.kind, e.core, q);
             && e.pc.Some? && f.pc.Some?
             && s' == s.(core := f.core, threads := map[0 := e.pc.value, 1 := f.pc.value])
    ensures Reachable(s')
  {
    hide Perform;
    OneMore(s, Move(0));
    OneMore(Next(s, Move(0)), Move(1));
    assert Next(Next(s, Move(0)), Move(1)).threads == s'.threads;
  }

  /** Both threads found `_is_writing` clear before either set it. */
  lemma BothPastTheCheck(kind: Kind) returns (s: State)
    ensures Reachable(s)
    ensures s == TwoQueued(kind, false).(threads := map[0 := FlushTake, 1 := FlushTake])
  {
    TwoQueuedIsReachable(kind, false);
    var s0 := TwoQueued(kind, false);
    var s1 := s0.(threads := map[0 := FlushLoadCancelled, 1 := FlushLoadCancelled]);
    BothMove(s0, FlushLoadWriting, FlushLoadWriting, s1);
    s := s0.(threads := map[0 := FlushTake, 1 := FlushTake]);
    BothMove(s1, FlushLoadCancelled, FlushLoadCancelled, s);
  }

  lemma BothAboutToStart(kind: Kind) returns (s: State)
    ensures Reachable(s)
    ensures s == State(kind, false, Core(true, false, [], 2, [], 0), map[0 := FlushStart(0), 1 := FlushStart(1)], false)
  {
    var s2 := BothPastTheCheck(kind);
    var s3 := s2.(core := s2.core.(queue := []), threads := map[0 := FlushMark(0), 1 := FlushMark(1)]);
    BothMove(s2, FlushTake, FlushTake, s3);
    s := s3.(core := s3.core.(writing := true), threads := map[0 := FlushStart(0), 1 := FlushStart(1)]);
    BothMove(s3, FlushMark(0), FlushMark(1), s);
  }

  /** Overlapping flushes can have two writes outstanding at once, on every reactor, with nobody cancelling. */
  lemma OverlappingFlushesCollide(kind: Kind) returns (s: State)
    ensures Reachable(s) && s.kind == kind && !s.serialised && !s.core.cancelled && s.core.outstanding == 2
  {
    hide Reachable;
    var s4 := BothAboutToStart(kind);
    OneMore(s4, Move(0));
    s := Next(Next(s4, Move(0)), Move(1));
    OneMore(Next(s4, Move(0)), Move(1));
  }

  /** Overlapping flushes can also start messages in the other order, with nobody cancelling and no crossing. */
  lemma OverlappingFlushesReorder(kind: Kind) returns (s: State)
    ensures Reachable(s) && s.kind == kind && !s.serialised && !s.core.cancelled && !s.crossed
    ensures s.core.started == [1, 0] && s.core.accepted == 2
  {
    hide Reachable;
    var s4 := BothAboutToStart(kind);
    OneMore(s4, Move(1));
    s := Next(Next(s4, Move(1)), Move(0));
    OneMore(Next(s4, Move(1)), Move(0));
  }

  /** Thread 0 is inside `_flush`, past both checks. */
  lemma OneMidFlush(kind: Kind) returns (s: State)
    ensures Reachable(s)
    ensures s == TwoQueued(kind, true).(threads := map[0 := FlushTake, 1 := FlushLoadWriting])
  {
    TwoQueuedIsReachable(kind, true);
    var s0 := TwoQueued(kind, true);
    OneMore(s0, Move(0));
    var s1 := Next(s0, Move(0));
    assert s1.threads == map[0 := FlushLoadCancelled, 1 := FlushLoadWriting];
    OneMore(s1, Move(0));
    s := Next(s1, Move(0));
    assert s.threads == map[0 := FlushTake, 1 := FlushLoadWriting];
  }

  /** The state in which a thread's Stop has cancelled the reactor and is about to drain the queue. */
  function WithStop(s: State, t: nat): State {
    s.(core := s.core.(cancelled := true, writing := false), threads := s.threads[t := DrainQueue(false)])
  }

  lemma Stopping(s: State, t: nat)
    requires Reachable(s) && t !in s.threads
    ensures Reachable(WithStop(s, t))
  {
    hide Reachable;
    OneMore(s, Enter(t, StopCancel));
    var s1 := Next(s, Enter(t, StopCancel));
    OneMore(s1, Move(t));
    var s2 := Next(s1, Move(t));
    assert s2.threads == s.threads[t := StopClear];
    OneMore(s2, Move(t));
    assert Next(s2, Move(t)).threads == s.threads[t := DrainQueue(false)];
    assert Next(s2, Move(t)) == WithStop(s, t);
  }

  lemma StopMidFlush(kind: Kind) returns (s: State)
    ensures Reachable(s)
    ensures s == State(kind, true, Core(false, true, [0, 1], 2, [], 0),
                       map[0 := FlushTake, 1 := FlushLoadWriting, 2 := DrainQueue(false)], false)
  {
    hide Reachable;
    var s2 := OneMidFlush(kind);
    Stopping(s2, 2);
    s := WithStop(s2, 2);
    assert s.threads == map[0 := FlushTake, 1 := FlushLoadWriting, 2 := DrainQueue(false)];
  }

  /**
   Even with flushes serialised, a Stop in the middle of one can make the pump skip a message: here
   message 1 is started and message 0 never is.
   */
  lemma StopMaySkipAMessage(kind: Kind) returns (s: State)
    ensures Reachable(s) && s.kind == kind && s.serialised && s.core.cancelled && s.crossed
    ensures s.core.started == [1] && s.core.queue == []
  {
    hide Reachable;
    var s0 := StopMidFlush(kind);
    assert s0.threads[0] == FlushTake && Crosses(s0, Move(2));
    OneMore(s0, Move(2));
    var s1 := Next(s0, Move(2));
    assert s1.core.queue == [1];
    OneMore(s1, Move(0));
    var s2 := Next(s1, Move(0));
    assert s2.threads[0] == FlushMark(1);
    OneMore(s2, Move(0));
    OneMore(Next(s2, Move(0)), Move(0));
    s := Next(Next(s2, Move(0)), Move(0));
  }
}
