/**
 Start and stop of the message-queue worker: `init`, `stop`, and the worker thread seen from outside.

 One thread calls `stop` and one at a time is inside the starting part of `init` (`_request` calls it too);
 `stop` is not called while a start is in progress, but a start may come while `stop` is running.
 The stop request either is served by the worker or fails; a context that was shut down never works again.
 */
module MqLifecycle {

  datatype Worker =
    | NoThread
    | Booting
    | LoopHead                 // about to load the stop flag
    | Polling
    | Batch(left: nat)         // events of this poll not yet handled
    | Receiving(left: nat)     // in the receive on the control socket, which blocks until a message comes
    | Emptying                 // about to clear poller and subscriber table
    | Resetting                // about to store _initialized = false
    | Crashing                 // in the catch block
    | Finished                 // thread function returned, not joined

  datatype Stopper = Outside | Requesting | Joining | JoinOnly | LastStore

  datatype Starter = NotStarting | FlagReset | Awaiting

  datatype Promise = Unset | Ready(ok: bool)

  /** `used`: poller or subscriber table hold something. `served`: the worker executed this stop's command. */
  datatype State = State(
    stopFlag: bool,
    initialized: bool,
    joinable: bool,
    contextAlive: bool,
    used: bool,
    served: bool,
    worker: Worker,
    stopper: Stopper,
    starter: Starter,
    promise: Promise)

  const START := State(false, false, false, true, false, false, NoThread, Outside, NotStarting, Unset)

  datatype Handled = Plain | StopCommand | ContextClosed | Throws

  datatype Label =
    // init
    | StartCall | Spawn | StartDone
    // stop
    | StopCall | RequestEnds(ok: bool) | Join | Store
    // the worker
    | Boot(ok: bool) | LoadFlag | Poll(events: nat) | PollThrows | Receive | Handle(what: Handled) | BatchDone | Empty | Reset | Catch

  predicate IsWorkerStep(a: Label) {
    a.Boot? || a.LoadFlag? || a.Poll? || a.PollThrows? || a.Receive? || a.Handle? || a.BatchDone? || a.Empty? || a.Reset? || a.Catch?
  }

  predicate Enabled(s: State, a: Label) {
    match a
    case StartCall => s.starter.NotStarting?
    case Spawn => s.starter.FlagReset?
    case StartDone => s.starter.Awaiting? && s.promise.Ready? && (s.promise.ok || s.worker.Finished?)
    case StopCall => s.stopper.Outside? && s.starter.NotStarting?
    case RequestEnds(ok) => s.stopper.Requesting? && (ok ==> s.served)
    case Join => (s.stopper.Joining? || s.stopper.JoinOnly?) && s.worker.Finished?
    case Store => s.stopper.LastStore?
    case Boot(ok) => s.worker.Booting? && (ok ==> s.contextAlive)
    case LoadFlag => s.worker.LoopHead?
    case Poll(_) => s.worker.Polling?
    case PollThrows => s.worker.Polling?
    case Receive => s.worker.Batch? && s.worker.left > 0
    case Handle(what) =>
      || (s.worker.Batch? && s.worker.left > 0 && (what.Plain? || what.Throws?))
      || (s.worker.Receiving?
          && (what.StopCommand? ==> s.stopper.Requesting? && !s.served)
          && (what.ContextClosed? ==> !s.contextAlive))
    case BatchDone => s.worker == Batch(0)
    case Empty => s.worker.Emptying?
    case Reset => s.worker.Resetting?
    case Catch => s.worker.Crashing?
  }

  function Next(s: State, a: Label): State
    requires Enabled(s, a)
  {
    match a
    // init: under the lock return if the thread exists, else reset the flag; then start it and wait
    case StartCall => if s.joinable then s else s.(stopFlag := false, starter := FlagReset)
    case Spawn => s.(joinable := true, worker := Booting, promise := Unset, starter := Awaiting)
    case StartDone =>
      if s.promise.ok then s.(starter := NotStarting)
      else s.(starter := NotStarting, joinable := false, worker := NoThread)
    // stop
    case StopCall =>
      if s.stopFlag then s.(stopper := if s.joinable then JoinOnly else Outside)
      else s.(stopFlag := true, served := false, stopper := if s.joinable then Requesting else LastStore)
    case RequestEnds(ok) => s.(contextAlive := s.contextAlive && ok, stopper := Joining)
    case Join =>
      s.(joinable := false, worker := NoThread, stopper := if s.stopper.JoinOnly? then Outside else LastStore)
    case Store => s.(initialized := false, stopper := Outside)
    // the worker
    case Boot(ok) =>
      if ok then s.(used := true, initialized := true, promise := Ready(true), worker := LoopHead)
      else s.(initialized := false, promise := Ready(false), worker := Finished)
    case LoadFlag => s.(worker := if s.stopFlag then Emptying else Polling)
    case Poll(n) => s.(worker := if n == 0 then LoopHead else Batch(n))
    case PollThrows => s.(worker := Crashing)
    case Receive => s.(worker := Receiving(s.worker.left - 1))
    case Handle(what) =>
      (match what
       case Plain => s.(worker := Batch(if s.worker.Batch? then s.worker.left - 1 else s.worker.left))
       case StopCommand => s.(served := true, stopFlag := true, worker := Emptying)
       case ContextClosed => s.(worker := Emptying)
       case Throws => s.(worker := Crashing))
    case BatchDone => s.(worker := LoopHead)
    case Empty => s.(used := false, worker := Resetting)
    case Reset => s.(initialized := false, worker := Finished)
    case Catch => s.(initialized := false, worker := Finished)
  }

  ghost predicate Steps(s: State, run: seq<Label>, s': State)
    decreases |run|
  {
    if run == [] then s == s' else Enabled(s, run[0]) && Steps(Next(s, run[0]), run[1..], s')
  }

  // ------------------------------------------------------------ invariant

  predicate Stopping(s: State) { s.stopper.Requesting? || s.stopper.Joining? }

  ghost predicate Inv(s: State) {
    // the thread object and the thread
    && (s.joinable <==> !s.worker.NoThread?)
    && (s.starter.FlagReset? ==> !s.joinable && !s.stopFlag && !Stopping(s))
    && (s.starter.Awaiting? ==> s.joinable && !Stopping(s))
    && (s.starter.Awaiting? && s.promise.Unset? ==> s.worker.Booting?)
    && (s.starter.Awaiting? && s.promise == Ready(false) ==> s.worker.Finished?)
    && (s.worker.Booting? ==> s.starter.Awaiting? && s.promise.Unset?)
    // the flag is set only by a stop in progress, or with no thread to see it
    && (s.joinable && s.stopFlag ==> Stopping(s))
    && (Stopping(s) ==> s.joinable && s.stopFlag)
    && !s.stopper.JoinOnly?
    // a served stop ends the loop normally
    && (s.served && Stopping(s) ==> s.worker.Emptying? || (!s.used && (s.worker.Resetting? || s.worker.Finished?)))
    && (s.stopper.Joining? && s.contextAlive ==> s.served)
    // what a dead worker left behind is seen only by a dead context
    && (s.used && (s.worker.NoThread? || s.worker.Booting?) ==> !s.contextAlive)
    && (s.used && s.worker.Finished? && s.starter.Awaiting? && s.promise == Ready(false) ==> !s.contextAlive)
    && (s.worker.Resetting? ==> !s.used)
    && (s.initialized ==> s.joinable && !s.worker.Booting? && !s.worker.Finished?)
  }

  lemma WorkerKeepsInv(s: State, a: Label)
    requires Inv(s) && Enabled(s, a) && IsWorkerStep(a)
    ensures Inv(Next(s, a))
  {
  }

  lemma CallersKeepInv(s: State, a: Label)
    requires Inv(s) && Enabled(s, a) && !IsWorkerStep(a)
    ensures Inv(Next(s, a))
  {
  }

  lemma {:induction false} InvRun(s: State, run: seq<Label>, s': State)
    requires Inv(s) && Steps(s, run, s')
    ensures Inv(s')
    decreases |run|
  {
    hide Inv, Next, Enabled;
    if run != [] {
      if IsWorkerStep(run[0]) { WorkerKeepsInv(s, run[0]); } else { CallersKeepInv(s, run[0]); }
      InvRun(Next(s, run[0]), run[1..], s');
    }
  }

  // ------------------------------------------------------------ what stop leaves behind

  /**
   A worker that leaves its loop normally has emptied poller and subscriber table, and a worker that
   starts finds both empty even if an earlier one died of an exception and left them full.
   */
  lemma WorkersStartEmpty(run: seq<Label>, s: State)
    requires Steps(START, run, s)
    ensures s.worker.Resetting? ==> !s.used
    ensures s.worker.Booting? && Enabled(s, Boot(true)) ==> !s.used
  {
    InvRun(START, run, s);
  }

  /** No start() between these labels. */
  predicate NoStart(run: seq<Label>) { forall i | 0 <= i < |run| :: !run[i].Spawn? }

  predicate NoStore(run: seq<Label>) { forall i | 0 <= i < |run| :: !run[i].Store? }

  /** No worker told its `init` that it is up. */
  predicate NoneCameUp(run: seq<Label>) { forall i | 0 <= i < |run| :: run[i] != Boot(true) }

  /** No thread, or one that has not come up, or will not and is to be joined by the `init` that started it. */
  predicate NoWorker(s: State) {
    s.worker.NoThread? || s.worker.Booting? || (s.starter.Awaiting? && s.promise == Ready(false))
  }

  /** What a step of the worker leaves alone. */
  lemma WorkerMoves(s: State, a: Label)
    requires Enabled(s, a) && IsWorkerStep(a)
    ensures var s' := Next(s, a);
            && s'.stopper == s.stopper && s'.starter == s.starter
            && !s.worker.NoThread? && (s.worker.Booting? <==> a.Boot?)
            && !s'.worker.NoThread? && !s'.worker.Booting?
            && s'.promise == if a.Boot? then Ready(a.ok) else s.promise
  {
    match a
    case Boot(ok) => assert s.worker.Booting?;
    case LoadFlag => assert s.worker.LoopHead?;
    case Poll(_) => assert s.worker.Polling?;
    case PollThrows => assert s.worker.Polling?;
    case Receive => assert s.worker.Batch?;
    case Handle(_) => assert s.worker.Batch? || s.worker.Receiving?;
    case BatchDone => assert s.worker.Batch?;
    case Empty => assert s.worker.Emptying?;
    case Reset => assert s.worker.Resetting?;
    case Catch => assert s.worker.Crashing?;
  }

  /** Before the last store of a stop a worker can come up, and one that came up is not joined. */
  lemma LastStoreWorker(s: State, a: Label)
    requires s.worker.Booting? ==> s.starter.Awaiting?
    requires s.stopper.LastStore? && Enabled(s, a) && IsWorkerStep(a)
    ensures Next(s, a).stopper.LastStore?
    ensures NoWorker(Next(s, a)) <==> NoWorker(s) && a != Boot(true)
  {
    hide Next, Enabled, IsWorkerStep;
    WorkerMoves(s, a);
  }

  lemma BootingIsAwaited(s: State)
    requires Inv(s)
    ensures s.worker.Booting? ==> s.starter.Awaiting?
  {
  }

  lemma LastStoreCallers(s: State, a: Label)
    requires Inv(s) && s.stopper.LastStore? && Enabled(s, a) && !a.Store? && !IsWorkerStep(a)
    ensures Next(s, a).stopper.LastStore?
    ensures NoWorker(Next(s, a)) <==> NoWorker(s)
  {
  }

  lemma {:induction false} LastStoreRun(s: State, run: seq<Label>, s': State)
    requires Inv(s) && s.stopper.LastStore? && Steps(s, run, s') && NoStore(run)
    ensures Inv(s') && s'.stopper.LastStore?
    ensures NoWorker(s') <==> NoWorker(s) && NoneCameUp(run)
    decreases |run|
  {
    hide Inv, Next, Enabled, NoWorker;
    if run != [] {
      if IsWorkerStep(run[0]) {
        BootingIsAwaited(s);
        LastStoreWorker(s, run[0]);
        WorkerKeepsInv(s, run[0]);
      } else {
        LastStoreCallers(s, run[0]);
        CallersKeepInv(s, run[0]);
      }
      LastStoreRun(Next(s, run[0]), run[1..], s');
      assert run == [run[0]] + run[1..];
    }
  }

  /**
   Main result. `a` is the step after which a stop has only its last store to do: the join, its request served or
   the context shut down, or the call itself if there was no thread. When the stop returns, no worker runs
   exactly if none came up in between; calls of `init` made in that time have ended.
   */
  lemma StopLeavesNothing(before: seq<Label>, s0: State, a: Label, after: seq<Label>, s: State)
    requires Steps(START, before, s0) && Enabled(s0, a) && !s0.stopper.LastStore? && Next(s0, a).stopper.LastStore?
    requires Steps(Next(s0, a), after, s) && NoStore(after) && s.starter.NotStarting?
    ensures Enabled(s, Store)
    ensures Next(s, Store).worker.NoThread? <==> NoneCameUp(after)
    ensures Next(s, Store).joinable <==> !NoneCameUp(after)
  {
    hide Next, NoStore, NoneCameUp;
    InvRun(START, before, s0);
    EntersLastStore(s0, a);
    CallersKeepInv(s0, a);
    LastStoreRun(Next(s0, a), after, s);
    StoreKeepsThread(s);
  }

  lemma EntersLastStore(s: State, a: Label)
    requires Inv(s) && Enabled(s, a) && !s.stopper.LastStore? && Next(s, a).stopper.LastStore?
    ensures !IsWorkerStep(a) && NoWorker(Next(s, a))
  {
  }

  lemma StoreKeepsThread(s: State)
    requires s.stopper.LastStore?
    ensures Next(s, Store).worker == s.worker && Next(s, Store).joinable == s.joinable
  {
  }

  /** Whichever way `stop` returns, `_initialized` is false; a stop that returns at once leaves no thread. */
  lemma StopReturnsUninitialized(run: seq<Label>, s: State, a: Label)
    requires Steps(START, run, s) && Enabled(s, a)
    requires (a.StopCall? || !s.stopper.Outside?) && Next(s, a).stopper.Outside?
    ensures !Next(s, a).initialized
    ensures a.StopCall? ==> Next(s, a).worker.NoThread?
  {
    hide Next, Steps, Enabled;
    InvRun(START, run, s);
    if IsWorkerStep(a) { WorkerMoves(s, a); } else { ReturnOfStop(s, a); }
  }

  lemma ReturnOfStop(s: State, a: Label)
    requires Inv(s) && Enabled(s, a) && !IsWorkerStep(a)
    requires (a.StopCall? || !s.stopper.Outside?) && Next(s, a).stopper.Outside?
    ensures !Next(s, a).initialized
    ensures a.StopCall? ==> Next(s, a).worker.NoThread?
  {
  }

  // ------------------------------------------------------------ the worker does leave

  /** Steps a worker can still take once the flag is set, and how many of them are polls. */
  function Phase(w: Worker): nat {
    match w
    case Booting => 6
    case Polling => 5
    case Batch(_) => 4
    case Receiving(_) => 4
    case LoopHead => 3
    case Emptying => 2
    case Resetting => 1
    case Crashing => 1
    case Finished => 0
    case NoThread => 0
  }

  function Left(w: Worker): nat { if w.Batch? then 2 * w.left else if w.Receiving? then 2 * w.left + 1 else 0 }

  function PollsLeft(w: Worker): nat { if w.Polling? then 1 else 0 }

  function Polls(run: seq<Label>): nat {
    if run == [] then 0 else (if run[0].Poll? then 1 else 0) + Polls(run[1..])
  }

  /** With the flag set every step of the worker brings it nearer to its end, and no other step moves it. */
  lemma LeavesStep(s: State, a: Label)
    requires Inv(s) && Enabled(s, a) && s.joinable && s.stopFlag
    ensures var s' := Next(s, a);
            if IsWorkerStep(a) then
              && (Phase(s'.worker) < Phase(s.worker) || (Phase(s'.worker) == Phase(s.worker) && Left(s'.worker) < Left(s.worker)))
              && s'.joinable && s'.stopFlag
            else (s'.worker == s.worker && s'.joinable && s'.stopFlag) || s'.worker.NoThread?
    ensures (if a.Poll? then 1 else 0) + PollsLeft(Next(s, a).worker) <= PollsLeft(s.worker)
  {
  }

  /** The worker takes the step whatever other threads do: no message has to come. */
  predicate OnItsOwn(s: State, a: Label) {
    Enabled(s, a) && IsWorkerStep(a) && (s.worker.Receiving? ==> a == Handle(ContextClosed))
  }

  /** Until it has ended, a worker has a step to take on its own, unless it is receiving in a context not shut down. */
  lemma WorkerIsNeverStuck(s: State)
    requires Inv(s) && s.joinable && !s.worker.Finished?
    ensures (exists a :: OnItsOwn(s, a)) <==> !(s.worker.Receiving? && s.contextAlive)
  {
    if !(s.worker.Receiving? && s.contextAlive) {
      var a := match s.worker
        case Booting => Boot(false)
        case LoopHead => LoadFlag
        case Polling => Poll(0)
        case Batch(n) => if n == 0 then BatchDone else Handle(Plain)
        case Receiving(_) => Handle(ContextClosed)
        case Emptying => Empty
        case Resetting => Reset
        case _ => Catch;
      assert OnItsOwn(s, a);
    }
  }

  /**
   A stop that waits in its join waits for nobody else: the thread has ended, or it has a step to take on its own. Each
   such step brings it nearer its end, so the join comes.
   */
  lemma JoinIsNotBlocked(run: seq<Label>, s: State)
    requires Steps(START, run, s) && s.stopper.Joining?
    ensures Enabled(s, Join) || exists a :: OnItsOwn(s, a)
  {
    hide Next, Steps, OnItsOwn;
    InvRun(START, run, s);
    if !s.worker.Finished? { WorkerIsNeverStuck(s); }
  }

  /** Once the stop flag is set the worker polls at most once more, and that only if it had already loaded the flag. */
  lemma {:induction false} AtMostOneMorePoll(s: State, run: seq<Label>, s': State)
    requires Inv(s) && s.joinable && s.stopFlag && Steps(s, run, s') && NoStart(run)
    ensures Polls(run) <= PollsLeft(s.worker)
    decreases |run|
  {
    if run != [] {
      LeavesStep(s, run[0]);
      if IsWorkerStep(run[0]) { WorkerKeepsInv(s, run[0]); } else { CallersKeepInv(s, run[0]); }
      var t := Next(s, run[0]);
      if t.joinable && t.stopFlag {
        AtMostOneMorePoll(t, run[1..], s');
      } else {
        NoPolls(t, run[1..], s');
      }
    }
  }

  lemma {:induction false} NoPolls(s: State, run: seq<Label>, s': State)
    requires s.worker.NoThread? && !s.starter.Awaiting? && Steps(s, run, s') && NoStart(run)
    ensures Polls(run) == 0
    decreases |run|
  {
    if run != [] {
      NoPolls(Next(s, run[0]), run[1..], s');
    }
  }

  /** Out of the loop, or on the way out of it. */
  predicate IsLeaving(w: Worker) { w.Emptying? || w.Resetting? || w.Crashing? || w.Finished? || w.NoThread? }

  lemma LeavingStep(s: State, a: Label)
    requires IsLeaving(s.worker) && Enabled(s, a) && !a.Spawn?
    ensures IsLeaving(Next(s, a).worker) && !a.Poll?
  {
  }

  lemma {:induction false} LeavingRun(s: State, run: seq<Label>, s': State)
    requires IsLeaving(s.worker) && Steps(s, run, s') && NoStart(run)
    ensures IsLeaving(s'.worker) && Polls(run) == 0
    decreases |run|
  {
    hide Next, Enabled, IsLeaving;
    if run != [] {
      LeavingStep(s, run[0]);
      LeavingRun(Next(s, run[0]), run[1..], s');
    }
  }

  /** A stop command served, a closed context or an exception ends the loop: the worker never polls again. */
  lemma LoopEndsForGood(s: State, a: Label, run: seq<Label>, s': State)
    requires Enabled(s, a) && (a.PollThrows? || (a.Handle? && !a.what.Plain?))
    requires Steps(Next(s, a), run, s') && NoStart(run)
    ensures Polls(run) == 0 && IsLeaving(s'.worker)
  {
    hide Steps;
    LeavingRun(Next(s, a), run, s');
  }

  // ------------------------------------------------------------ a start inside stop

  lemma Follow(s: State, a: Label, run: seq<Label>, s': State)
    requires Enabled(s, a) && Steps(Next(s, a), run, s')
    ensures Steps(s, [a] + run, s')
  {
    assert ([a] + run)[1..] == run;
  }

  /**
   A start that comes between the join and the last store leaves a running worker that `_initialized`
   denies: `stop` returns with the thread alive and every later request refused.
   */
  lemma StartInsideStop() returns (run: seq<Label>, s: State)
    ensures Steps(START, run, s) && s.stopper.Outside?
    ensures s.worker.LoopHead? && s.joinable && !s.stopFlag && !s.initialized
  {
    var up := START.(joinable := true, worker := LoopHead, used := true, initialized := true, promise := Ready(true));
    var down := up.(joinable := false, worker := NoThread, used := false, initialized := false,
                    stopFlag := true, served := true, stopper := LastStore);
    var again := down.(stopFlag := false, joinable := true, worker := LoopHead, used := true, initialized := true);
    s := again.(initialized := false, stopper := Outside);
    var run4 := [Store];
    assert run4[1..] == [] && Steps(s, [], s);
    assert Steps(again, run4, s);
    var run3 := StartRun(down, run4, s);
    var run2 := StopRun(up, run3, s);
    run := StartRun(START, run2, s);
  }

  /** A start from scratch in front of a run. */
  lemma StartRun(s: State, more: seq<Label>, s': State) returns (run: seq<Label>)
    requires s.starter.NotStarting? && !s.joinable && s.contextAlive
    requires Steps(s.(stopFlag := false, joinable := true, used := true, initialized := true, worker := LoopHead,
                      promise := Ready(true)), more, s')
    ensures Steps(s, run, s')
  {
    var s1 := Next(s, StartCall);
    var s2 := Next(s1, Spawn);
    var s3 := Next(s2, Boot(true));
    Follow(s3, StartDone, more, s');
    Follow(s2, Boot(true), [StartDone] + more, s');
    Follow(s1, Spawn, [Boot(true)] + ([StartDone] + more), s');
    Follow(s, StartCall, [Spawn] + ([Boot(true)] + ([StartDone] + more)), s');
    run := [StartCall] + ([Spawn] + ([Boot(true)] + ([StartDone] + more)));
  }

  /** The end of a served stop, up to its join, in front of a run. */
  lemma ServedStopEnds(s: State, more: seq<Label>, s': State) returns (run: seq<Label>)
    requires s.worker.Emptying? && s.joinable && s.served && s.stopper.Requesting? && s.contextAlive
    requires Steps(s.(joinable := false, worker := NoThread, used := false, initialized := false, stopper := LastStore),
                   more, s')
    ensures Steps(s, run, s')
  {
    var s1 := Next(s, Empty);
    var s2 := Next(s1, Reset);
    var s3 := Next(s2, RequestEnds(true));
    Follow(s3, Join, more, s');
    run := [RequestEnds(true)] + ([Join] + more);
    Follow(s2, RequestEnds(true), [Join] + more, s');
    Follow(s1, Reset, run, s');
    Follow(s, Empty, [Reset] + run, s');
    run := [Empty] + ([Reset] + run);
  }

  /** A served stop, up to its join, in front of a run. */
  lemma StopRun(s: State, more: seq<Label>, s': State) returns (run: seq<Label>)
    requires s.worker.LoopHead? && s.joinable && !s.stopFlag && s.stopper.Outside? && s.starter.NotStarting? && s.contextAlive
    requires Steps(s.(joinable := false, worker := NoThread, used := false, initialized := false,
                      stopFlag := true, served := true, stopper := LastStore), more, s')
    ensures Steps(s, run, s')
  {
    var s1 := Next(s, LoadFlag);
    var s2 := Next(s1, Poll(1));
    var s3 := Next(s2, Receive);
    var s4 := Next(s3, StopCall);
    var s5 := Next(s4, Handle(StopCommand));
    var tail := ServedStopEnds(s5, more, s');
    Follow(s4, Handle(StopCommand), tail, s');
    var q := [Handle(StopCommand)] + tail;
    Follow(s3, StopCall, q, s');
    Follow(s2, Receive, [StopCall] + q, s');
    q := [Receive] + ([StopCall] + q);
    Follow(s1, Poll(1), q, s');
    Follow(s, LoadFlag, [Poll(1)] + q, s');
    run := [LoadFlag] + ([Poll(1)] + q);
  }
}
