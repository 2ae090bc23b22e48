/**
 The message-queue control RPC. Any number of application threads each put a command in a locked table
 under a fresh id, send the id to the worker over a request socket of their own, and wait for a reply with
 a time-out; the worker claims the command under the lock, executes it and replies.

 A call is named by its command id. Every step of a thread that others can notice is one label; steps
 interleave in any order. Sockets are paired request and reply: a message may be lost, and a failing send may
 or may not have delivered, but a request comes only from `_request` and a reply reaches only its caller.
 The worker body is `_run_loop`; that nothing in the source calls it is not modelled.
 */
module MqRpc {
  import opened Common
  import opened MqTable

  /** How `_request` returned. `Withdrawn`, `TooLate`: -1 without a reply, its command still in the table, or not. */
  datatype Ending = Replied(code: int) | Withdrawn | TooLate

  function ReturnCode(e: Ending): int { if e.Replied? then e.code else -1 }

  datatype Pc =
    | Drawn                              // has its id
    | Stored                             // command in the table, about to send
    | Waiting                            // sent, waiting for the reply
    | Withdrawing                        // gave up, about to erase its command
    | Ended(how: Ending, at: nat)

  datatype Call = Call(cmd: Command, calledAt: nat, pc: Pc)

  datatype WorkerPc =
    | Off
    | Idle
    | Got(id: nat)
    | Holding(id: nat, cmd: Command)
    | Replying(id: nat, code: int, leave: bool)
    | Dead                               // an exception left the loop

  /** The worker's history: commands executed, and the starts and normal ends of its loop. */
  datatype Act = Ran(id: nat, cmd: Command, good: nat, result: Result, at: nat) | Booted | Emptied

  /** `ranAt` is an auxiliary variable: where in the history a command id was last executed. */
  datatype State = State(
    now: nat,
    nextId: nat,
    calls: map<nat, Call>,
    pending: map<nat, Command>,
    requests: set<nat>,
    replies: map<nat, int>,
    worker: WorkerPc,
    table: Table,
    history: seq<Act>,
    ranAt: map<nat, nat>)

  datatype Label =
    // the calling threads
    | Draw(cmd: Command)
    | Store(id: nat)
    | Send(id: nat)
    | GiveUp(id: nat, delivered: bool)   // send failure, time-out, bad size, or exception
    | Receive(id: nat)
    | Erase(id: nat)
    // the network
    | LoseRequest(id: nat)
    | LoseReply(id: nat)
    // the worker
    | Boot
    | Take(id: nat)
    | Claim
    | Execute(good: nat)
    | Reply(ok: bool)
    | Leave

  predicate Init(s: State) {
    s.calls == map[] && s.pending == map[] && s.requests == {} && s.replies == map[]
    && s.worker == Off && s.table == FRESH && s.history == [] && s.ranAt == map[]
  }

  predicate PcIs(s: State, id: nat, pc: Pc) { id in s.calls && s.calls[id].pc == pc }

  predicate Enabled(s: State, a: Label) {
    match a
    case Draw(_) => true
    case Store(id) => PcIs(s, id, Drawn)
    case Send(id) => PcIs(s, id, Stored)
    case GiveUp(id, _) => PcIs(s, id, Stored) || PcIs(s, id, Waiting)
    case Receive(id) => PcIs(s, id, Waiting) && id in s.replies
    case Erase(id) => PcIs(s, id, Withdrawing)
    case LoseRequest(id) => id in s.requests
    case LoseReply(id) => id in s.replies
    case Boot => s.worker == Off
    case Take(id) => s.worker == Idle && id in s.requests
    case Claim => s.worker.Got?
    case Execute(_) => s.worker.Holding?
    case Reply(_) => s.worker.Replying?
    case Leave => s.worker == Idle
  }

  function Goto(s: State, id: nat, pc: Pc): State
    requires id in s.calls
  {
    s.(calls := s.calls[id := s.calls[id].(pc := pc)])
  }

  function Next(s: State, a: Label): State
    requires Enabled(s, a)
  {
    Do(s.(now := s.now + 1), s.now, a)
  }

  function Do(s: State, now: nat, a: Label): State
    requires Enabled(s, a)
  {
    match a
    case Draw(cmd) =>
      s.(nextId := s.nextId + 1, calls := s.calls[s.nextId := Call(cmd, now, Drawn)])
    case Store(id) => Goto(s, id, Stored).(pending := s.pending[id := s.calls[id].cmd])
    case Send(id) => Goto(s, id, Waiting).(requests := s.requests + {id})
    case GiveUp(id, delivered) =>
      Goto(s, id, Withdrawing).(requests := if delivered && s.calls[id].pc == Stored then s.requests + {id} else s.requests)
    case Receive(id) => Goto(s, id, Ended(Replied(s.replies[id]), now)).(replies := s.replies - {id})
    case Erase(id) =>
      Goto(s, id, Ended(if id in s.pending then Withdrawn else TooLate, now)).(pending := s.pending - {id})
    case LoseRequest(id) => s.(requests := s.requests - {id})
    case LoseReply(id) => s.(replies := s.replies - {id})
    case Boot => s.(worker := Idle, table := Started(s.table), history := s.history + [Booted])
    case Take(id) => s.(worker := Got(id), requests := s.requests - {id})
    case Claim =>
      var id := s.worker.id;
      if id in s.pending then s.(worker := Holding(id, s.pending[id]), pending := s.pending - {id})
      else s.(worker := Replying(id, -1, false))
    case Execute(good) =>
      var Holding(id, cmd) := s.worker;
      var o := Exec(s.table, cmd, good);
      s.(table := o.table,
         history := s.history + [Ran(id, cmd, good, o.result, now)],
         ranAt := s.ranAt[id := |s.history|],
         worker := if o.result.Escaped? then Dead else Replying(id, o.result.code, cmd.Stop?))
    case Reply(ok) =>
      var Replying(id, code, leave) := s.worker;
      var s' := if ok then s.(replies := s.replies[id := code]) else s;
      if leave then Exit(s') else s'.(worker := Idle)
    case Leave => Exit(s)
  }

  function Exit(s: State): State {
    s.(worker := Off, table := Cleared(s.table), history := s.history + [Emptied])
  }

  ghost predicate Steps(s: State, run: seq<Label>, s': State)
    decreases |run|
  {
    if run == [] then s == s' else Enabled(s, run[0]) && Steps(Next(s, run[0]), run[1..], s')
  }

  ghost predicate Reachable(s: State) { exists s0, run :: Init(s0) && Steps(s0, run, s) }

  // ------------------------------------------------------------ the sequential queue

  /** The table after a history, one command after the other: no threads, no messages. */
  function Replay(h: seq<Act>): Table {
    if h == [] then FRESH else Redo(Replay(h[..|h| - 1]), h[|h| - 1])
  }

  function Redo(t: Table, a: Act): Table {
    match a
    case Ran(_, cmd, good, _, _) => Exec(t, cmd, good).table
    case Booted => Started(t)
    case Emptied => Cleared(t)
  }

  /** Each command's result is the one the sequential queue gives at that point. */
  ghost predicate LegalHistory(h: seq<Act>) {
    h != [] ==>
      var prior, last := h[..|h| - 1], h[|h| - 1];
      LegalHistory(prior) && (last.Ran? ==> last.result == Exec(Replay(prior), last.cmd, last.good).result)
  }

  ghost predicate TableIsReplay(s: State) { s.table == Replay(s.history) && LegalHistory(s.history) }

  lemma ReplayMore(h: seq<Act>, a: Act)
    ensures Replay(h + [a]) == Redo(Replay(h), a)
    ensures LegalHistory(h + [a]) <==>
              LegalHistory(h) && (a.Ran? ==> a.result == Exec(Replay(h), a.cmd, a.good).result)
  {
    assert (h + [a])[..|h + [a]| - 1] == h;
  }

  lemma TableIsReplayStep(s: State, a: Label)
    requires TableIsReplay(s) && Enabled(s, a)
    ensures TableIsReplay(Next(s, a))
  {
    hide Replay, LegalHistory, Exec, Started, Cleared;
    var s' := Next(s, a);
    if s'.history != s.history {
      var act := s'.history[|s.history|];
      assert s'.history == s.history + [act];
      ReplayMore(s.history, act);
    }
  }

  // ------------------------------------------------------------ everything about one call

  /** What the state holds about one command id. `worker` is Idle unless the worker is busy with this id. */
  datatype Spot = Spot(
    call: Option<Call>,
    stored: Option<Command>,
    inTransit: bool,
    reply: Option<int>,
    worker: WorkerPc,
    ran: Option<Act>)

  const NOWHERE := Spot(None, None, false, None, Idle, None)

  predicate Busy(w: WorkerPc) { w.Got? || w.Holding? || w.Replying? }

  function Get<V>(m: map<nat, V>, id: nat): Option<V> { if id in m then Some(m[id]) else None }

  function View(s: State, id: nat): Spot {
    Spot(Get(s.calls, id),
         Get(s.pending, id),
         id in s.requests,
         Get(s.replies, id),
         if Busy(s.worker) && s.worker.id == id then s.worker else Idle,
         if id in s.ranAt && s.ranAt[id] < |s.history| then Some(s.history[s.ranAt[id]]) else None)
  }

  /** The worker has taken the command out of the table. */
  predicate IsClaimed(sp: Spot) { sp.worker.Holding? || sp.ran.Some? }

  predicate Unsent(pc: Pc) { pc.Drawn? || pc.Stored? }

  /** Where the command of a call is, at each point of the call. */
  predicate CommandPlaced(sp: Spot) {
    sp.call.Some? ==>
      match sp.call.value.pc
      case Drawn => sp.stored.None? && !IsClaimed(sp)
      case Stored => sp.stored.Some? && !IsClaimed(sp)
      case Waiting => sp.stored.Some? <==> !IsClaimed(sp)
      case Withdrawing => sp.stored.Some? <==> !IsClaimed(sp)
      case Ended(Replied(_), _) => sp.stored.None? && sp.ran.Some?
      case Ended(Withdrawn, _) => sp.stored.None? && !IsClaimed(sp)
      case Ended(TooLate, _) => sp.stored.None? && IsClaimed(sp)
  }

  /** Nothing is known of an id before its call, and only the table knows it before the call has sent. */
  predicate SentFirst(sp: Spot) {
    && (sp.call.None? ==> sp == NOWHERE)
    && (sp.call.Some? && Unsent(sp.call.value.pc) ==>
          !sp.inTransit && sp.reply.None? && sp.worker == Idle && sp.ran.None?)
    && (sp.call.Some? && sp.stored.Some? ==> sp.stored.value == sp.call.value.cmd)
    && (sp.call.Some? && sp.worker.Holding? ==> sp.worker.cmd == sp.call.value.cmd)
  }

  /** The one request of a call is in transit, at the worker, or used up. */
  predicate OneRequest(sp: Spot) {
    && (sp.inTransit ==> sp.worker == Idle && sp.ran.None?)
    && (sp.worker.Got? || sp.worker.Holding? ==> sp.ran.None?)
    && (sp.worker.Holding? ==> sp.stored.None?)
  }

  /** The command was executed with this result. */
  predicate RanWith(sp: Spot, code: int) { sp.ran.Some? && sp.ran.value.Ran? && sp.ran.value.result == Returned(code) }

  predicate HasEnded(sp: Spot) { sp.call.Some? && sp.call.value.pc.Ended? }

  predicate HasReply(sp: Spot) { HasEnded(sp) && sp.call.value.pc.how.Replied? }

  /** A reply tells the result of the call's own command, unless the caller has already gone. */
  predicate RepliesTrue(sp: Spot) {
    && (sp.reply.Some? ==> HasEnded(sp) || RanWith(sp, sp.reply.value))
    && (sp.worker.Replying? ==> HasEnded(sp) || RanWith(sp, sp.worker.code))
    && (HasReply(sp) ==> RanWith(sp, sp.call.value.pc.how.code))
  }

  /** A command runs after its call began, and before a reply to it returns. */
  predicate InTime(sp: Spot, id: nat, now: nat) {
    && (sp.call.Some? ==> sp.call.value.calledAt < now)
    && (sp.ran.Some? ==>
          && sp.call.Some? && sp.ran.value.Ran? && sp.ran.value.id == id && sp.ran.value.cmd == sp.call.value.cmd
          && sp.call.value.calledAt < sp.ran.value.at < now
          && (HasReply(sp) ==> sp.ran.value.at < sp.call.value.pc.at))
  }

  predicate SpotOk(sp: Spot, id: nat, now: nat) {
    CommandPlaced(sp) && SentFirst(sp) && OneRequest(sp) && RepliesTrue(sp) && InTime(sp, id, now)
  }

  ghost predicate CallsOk(s: State) {
    && (forall id: nat :: SpotOk(View(s, id), id, s.now))
    && (forall id: nat | id >= s.nextId :: View(s, id) == NOWHERE)
  }

  /** The history executes no id twice, and `ranAt` finds each. */
  ghost predicate Indexed(s: State) {
    && (forall i, id | RanIs(s.history, i, id) :: id in s.ranAt && s.ranAt[id] == i)
    && (forall id | id in s.ranAt :: RanIs(s.history, s.ranAt[id], id))
  }

  ghost predicate RanIs(h: seq<Act>, i: int, id: nat) { 0 <= i < |h| && h[i].Ran? && h[i].id == id }

  ghost predicate HistoryOrdered(s: State) {
    && (forall i | 0 <= i < |s.history| && s.history[i].Ran? :: s.history[i].at < s.now)
    && (forall i, j | 0 <= i < j < |s.history| && s.history[i].Ran? && s.history[j].Ran? ::
          s.history[i].at < s.history[j].at)
  }

  /** The id a step is about; the others do not notice it. */
  function Subject(s: State, a: Label): Option<nat>
    requires Enabled(s, a)
  {
    match a
    case Draw(_) => Some(s.nextId)
    case Store(id) => Some(id)
    case Send(id) => Some(id)
    case GiveUp(id, _) => Some(id)
    case Receive(id) => Some(id)
    case Erase(id) => Some(id)
    case LoseRequest(id) => Some(id)
    case LoseReply(id) => Some(id)
    case Boot => None
    case Take(id) => Some(id)
    case Claim => Some(s.worker.id)
    case Execute(_) => Some(s.worker.id)
    case Reply(_) => Some(s.worker.id)
    case Leave => None
  }

  predicate ByWorker(a: Label) { a.Boot? || a.Take? || a.Claim? || a.Execute? || a.Reply? || a.Leave? }

  lemma CallersLeaveOthers(s: State, a: Label, id: nat)
    requires Enabled(s, a) && Subject(s, a) != Some(id) && !ByWorker(a)
    ensures View(Next(s, a), id) == View(s, id)
  {
  }

  lemma ClaimLeavesOthers(s: State, a: Label, id: nat)
    requires Enabled(s, a) && Subject(s, a) != Some(id) && (a.Take? || a.Claim?)
    ensures View(Next(s, a), id) == View(s, id)
  {
  }

  lemma ExecuteLeavesOthers(s: State, a: Label, id: nat)
    requires Indexed(s) && Enabled(s, a) && Subject(s, a) != Some(id) && a.Execute?
    ensures View(Next(s, a), id) == View(s, id)
  {
    hide Exec;
  }

  lemma ReplyLeavesOthers(s: State, a: Label, id: nat)
    requires Indexed(s) && Enabled(s, a) && Subject(s, a) != Some(id) && (a.Boot? || a.Reply? || a.Leave?)
    ensures View(Next(s, a), id) == View(s, id)
  {
    hide Started, Cleared;
  }

  lemma WorkerLeavesOthers(s: State, a: Label, id: nat)
    requires Indexed(s) && Enabled(s, a) && Subject(s, a) != Some(id) && ByWorker(a)
    ensures View(Next(s, a), id) == View(s, id)
  {
    hide Next, View, Subject, Indexed;
    if a.Take? || a.Claim? {
      ClaimLeavesOthers(s, a, id);
    } else if a.Execute? {
      ExecuteLeavesOthers(s, a, id);
    } else {
      ReplyLeavesOthers(s, a, id);
    }
  }

  lemma CallerStep(s: State, a: Label, id: nat)
    requires Enabled(s, a) && Subject(s, a) == Some(id)
    requires !(a.Take? || a.Claim? || a.Execute? || a.Reply?)
    requires SpotOk(View(s, id), id, s.now)
    requires a.Draw? ==> View(s, id) == NOWHERE
    ensures SpotOk(View(Next(s, a), id), id, s.now + 1)
  {
  }

  lemma WorkerStep(s: State, a: Label, id: nat)
    requires Enabled(s, a) && Subject(s, a) == Some(id)
    requires a.Take? || a.Claim?
    requires SpotOk(View(s, id), id, s.now)
    ensures SpotOk(View(Next(s, a), id), id, s.now + 1)
  {
  }

  lemma ReplyStep(s: State, a: Label, id: nat)
    requires Enabled(s, a) && Subject(s, a) == Some(id) && a.Reply? && Indexed(s)
    requires SpotOk(View(s, id), id, s.now)
    ensures SpotOk(View(Next(s, a), id), id, s.now + 1)
  {
    hide SpotOk, View, Next;
    ReplyEffect(s, a, id);
    ReplySpot(View(s, id), id, s.now);
  }

  lemma ReplyEffect(s: State, a: Label, id: nat)
    requires Enabled(s, a) && Subject(s, a) == Some(id) && a.Reply? && Indexed(s)
    ensures var sp, sp' := View(s, id), View(Next(s, a), id);
            && sp.worker.Replying?
            && sp' == if a.ok then sp.(worker := Idle, reply := Some(sp.worker.code)) else sp.(worker := Idle)
  {
    hide Cleared, Exec, Started;
    if s.worker.leave {
      assert Next(s, a).history == s.history + [Emptied];
    } else {
      assert Next(s, a).history == s.history;
    }
  }

  lemma ReplySpot(sp: Spot, id: nat, now: nat)
    requires SpotOk(sp, id, now) && sp.worker.Replying?
    ensures SpotOk(sp.(worker := Idle), id, now + 1)
    ensures SpotOk(sp.(worker := Idle, reply := Some(sp.worker.code)), id, now + 1)
  {
  }

  lemma ExecuteStep(s: State, a: Label, id: nat)
    requires Enabled(s, a) && Subject(s, a) == Some(id) && a.Execute?
    requires SpotOk(View(s, id), id, s.now)
    ensures SpotOk(View(Next(s, a), id), id, s.now + 1)
  {
    hide Exec;
  }

  /** One step of history: nothing, a start or an end, or the execution of the command the worker holds. */
  lemma HistoryStep(s: State, a: Label)
    requires Enabled(s, a)
    ensures var s' := Next(s, a);
            && s'.now == s.now + 1
            && if a.Execute? then
                 exists act: Act :: act.Ran? && act.id == s.worker.id && act.at == s.now
                   && s'.history == s.history + [act] && s'.ranAt == s.ranAt[s.worker.id := |s.history|]
               else
                 s'.ranAt == s.ranAt && (s'.history == s.history || exists act: Act :: !act.Ran? && s'.history == s.history + [act])
  {
    hide Exec;
    var s' := Next(s, a);
    if s'.history != s.history {
      var act := s'.history[|s.history|];
      assert s'.history == s.history + [act];
    }
  }

  lemma IndexedStep(s: State, a: Label)
    requires Indexed(s) && Enabled(s, a)
    requires a.Execute? ==> s.worker.id !in s.ranAt
    ensures Indexed(Next(s, a))
  {
    hide Next;
    HistoryStep(s, a);
    var s', h := Next(s, a), s.history;
    assert forall i, id :: RanIs(s'.history, i, id) <==>
        RanIs(h, i, id) || (i == |h| < |s'.history| && s'.history[i].Ran? && s'.history[i].id == id);
    forall id | id in s'.ranAt
      ensures RanIs(s'.history, s'.ranAt[id], id)
    {
      if id in s.ranAt { assert RanIs(h, s.ranAt[id], id); }
    }
  }

  lemma HistoryOrderedStep(s: State, a: Label)
    requires HistoryOrdered(s) && Enabled(s, a)
    ensures HistoryOrdered(Next(s, a))
  {
    hide Next;
    HistoryStep(s, a);
  }

  lemma CallsOkStep(s: State, a: Label)
    requires CallsOk(s) && Indexed(s) && Enabled(s, a)
    ensures CallsOk(Next(s, a))
  {
    hide Next, SpotOk, View, Enabled;
    var s' := Next(s, a);
    forall id: nat
      ensures SpotOk(View(s', id), id, s'.now)
      ensures id >= s'.nextId ==> View(s', id) == NOWHERE
    {
      assert SpotOk(View(s, id), id, s.now);
      NextIdStep(s, a, id);
      if Subject(s, a) != Some(id) {
        if ByWorker(a) { WorkerLeavesOthers(s, a, id); } else { CallersLeaveOthers(s, a, id); }
        Later(View(s, id), id, s.now);
      } else if a.Execute? {
        ExecuteStep(s, a, id);
      } else if a.Reply? {
        ReplyStep(s, a, id);
      } else if a.Take? || a.Claim? {
        WorkerStep(s, a, id);
      } else {
        CallerStep(s, a, id);
      }
    }
  }

  lemma Later(sp: Spot, id: nat, now: nat)
    requires SpotOk(sp, id, now)
    ensures SpotOk(sp, id, now + 1)
  {
  }

  lemma NextIdStep(s: State, a: Label, id: nat)
    requires Enabled(s, a)
    ensures Next(s, a).now == s.now + 1 && s.nextId <= Next(s, a).nextId
    ensures Subject(s, a) == Some(id) && id >= Next(s, a).nextId && View(s, id) == NOWHERE ==> false
  {
  }

  // ------------------------------------------------------------ every reachable state

  ghost predicate Inv(s: State) {
    TableIsReplay(s) && Indexed(s) && HistoryOrdered(s) && CallsOk(s)
  }

  lemma InvInit(s: State)
    requires Init(s)
    ensures Inv(s)
  {
  }

  lemma InvStep(s: State, a: Label)
    requires Inv(s) && Enabled(s, a)
    ensures Inv(Next(s, a))
  {
    TableIsReplayStep(s, a);
    HistoryOrderedStep(s, a);
    CallsOkStep(s, a);
    if a.Execute? { HeldIsNew(s); }
    IndexedStep(s, a);
  }

  lemma HeldIsNew(s: State)
    requires CallsOk(s) && Indexed(s) && s.worker.Holding?
    ensures s.worker.id !in s.ranAt
  {
    assert SpotOk(View(s, s.worker.id), s.worker.id, s.now);
  }

  lemma {:induction false} InvRun(s: State, run: seq<Label>, s': State)
    requires Inv(s) && Steps(s, run, s')
    ensures Inv(s')
    decreases |run|
  {
    hide Inv, Next, Enabled;
    if run != [] {
      InvStep(s, run[0]);
      InvRun(Next(s, run[0]), run[1..], s');
    }
  }

  lemma ReachableInv(s: State)
    requires Reachable(s)
    ensures Inv(s)
  {
    hide Inv, Next, Enabled;
    var s0, run :| Init(s0) && Steps(s0, run, s);
    InvInit(s0);
    InvRun(s0, run, s);
  }

  /** A call that returned with a reply, its code and the time. */
  ghost predicate ReturnedWith(s: State, id: nat, code: int, at: nat) { PcIs(s, id, Ended(Replied(code), at)) }

  /**
   Main result. The subscriber table of the concurrent system is that of a sequential one that executes
   the claimed commands one after the other, in the order of the history, each with its own result.
   */
  lemma TableIsSequential(s: State)
    requires Reachable(s)
    ensures s.table == Replay(s.history) && LegalHistory(s.history)
  {
    hide CallsOk, Indexed, HistoryOrdered, Replay, LegalHistory;
    ReachableInv(s);
  }

  /** Each command id is executed at most once, and with the command of its own call, after that call began. */
  lemma AtMostOnce(s: State, i: nat, j: nat, id: nat)
    requires Reachable(s) && RanIs(s.history, i, id)
    ensures RanIs(s.history, j, id) ==> i == j
    ensures id in s.calls && s.history[i].cmd == s.calls[id].cmd && s.calls[id].calledAt < s.history[i].at
  {
    hide TableIsReplay, HistoryOrdered;
    ReachableInv(s);
    assert SpotOk(View(s, id), id, s.now);
  }

  /**
   A request that returned with a reply had its own command executed exactly once, between its call and its
   return, and the code it returned is the result of that execution.
   */
  lemma ReplyMeansExecuted(s: State, id: nat, code: int, at: nat) returns (i: nat)
    requires Reachable(s) && ReturnedWith(s, id, code, at)
    ensures RanIs(s.history, i, id) && s.history[i].cmd == s.calls[id].cmd && s.history[i].result == Returned(code)
    ensures s.calls[id].calledAt < s.history[i].at < at
    ensures forall j :: RanIs(s.history, j, id) ==> j == i
  {
    hide TableIsReplay, HistoryOrdered;
    ReachableInv(s);
    assert SpotOk(View(s, id), id, s.now);
    i := s.ranAt[id];
  }

  /** In particular a request that returns 0 was executed with result 0. */
  lemma ZeroMeansExecuted(s: State, id: nat, how: Ending, at: nat) returns (i: nat)
    requires Reachable(s) && PcIs(s, id, Ended(how, at)) && ReturnCode(how) == 0
    ensures RanIs(s.history, i, id) && s.history[i].result == Returned(0)
    ensures forall j :: RanIs(s.history, j, id) ==> j == i
  {
    i := ReplyMeansExecuted(s, id, 0, at);
  }

  /**
   Real-time order: if one replied request returned before another was called, the worker executed its
   command first.
   */
  lemma RealTimeOrder(s: State, a: nat, code: int, at: nat, b: nat, i: nat, j: nat)
    requires Reachable(s) && ReturnedWith(s, a, code, at) && b in s.calls && at <= s.calls[b].calledAt
    requires RanIs(s.history, i, a) && RanIs(s.history, j, b)
    ensures i < j
  {
    var k := ReplyMeansExecuted(s, a, code, at);
    AtMostOnce(s, j, j, b);
    Ordered(s, i, j);
  }

  lemma Ordered(s: State, i: nat, j: nat)
    requires Reachable(s) && i < |s.history| && j < |s.history| && s.history[i].Ran? && s.history[j].Ran?
    ensures s.history[i].at < s.history[j].at ==> i < j
  {
    hide TableIsReplay, CallsOk, Indexed;
    ReachableInv(s);
  }

  /**
   A request that gave up takes its command back or is too late, and which of the two decides whether the
   command takes effect: executed or in the worker's hands if too late, never executed if taken back.
   */
  lemma GivingUp(s: State, id: nat, how: Ending, at: nat)
    requires Reachable(s) && PcIs(s, id, Ended(how, at)) && !how.Replied?
    ensures how.TooLate? <==> id in s.ranAt || (s.worker.Holding? && s.worker.id == id)
    ensures id in s.ranAt <==> exists i :: RanIs(s.history, i, id)
    ensures ReturnCode(how) == -1
  {
    hide TableIsReplay, HistoryOrdered;
    ReachableInv(s);
    assert SpotOk(View(s, id), id, s.now);
  }

  lemma {:induction false} EndedIsFinal(s: State, run: seq<Label>, s': State, id: nat, how: Ending, at: nat)
    requires PcIs(s, id, Ended(how, at)) && CallsOk(s) && Indexed(s) && Inv(s) && Steps(s, run, s')
    ensures PcIs(s', id, Ended(how, at))
    decreases |run|
  {
    if run != [] {
      assert SpotOk(View(s, id), id, s.now);
      EndedStays(s, run[0], id, how, at);
      InvStep(s, run[0]);
      EndedIsFinal(Next(s, run[0]), run[1..], s', id, how, at);
    }
  }

  lemma EndedStays(s: State, a: Label, id: nat, how: Ending, at: nat)
    requires PcIs(s, id, Ended(how, at)) && id < s.nextId && Enabled(s, a)
    ensures PcIs(Next(s, a), id, Ended(how, at))
  {
  }

  /** A command taken back before the worker claimed it is never executed, however the run goes on. */
  lemma WithdrawnNeverRuns(s: State, run: seq<Label>, s': State, id: nat, at: nat)
    requires Reachable(s) && PcIs(s, id, Ended(Withdrawn, at)) && Steps(s, run, s')
    ensures forall i :: !RanIs(s'.history, i, id)
  {
    hide TableIsReplay, HistoryOrdered;
    ReachableInv(s);
    EndedIsFinal(s, run, s', id, Withdrawn, at);
    InvRun(s, run, s');
    assert SpotOk(View(s', id), id, s'.now);
  }

  /** `_erase_command` finds the command in the table exactly when the worker has not claimed it. */
  lemma EraseDecides(s: State, id: nat)
    requires Reachable(s) && PcIs(s, id, Withdrawing)
    ensures Next(s, Erase(id)).calls[id].pc.how
            == if id in s.ranAt || (s.worker.Holding? && s.worker.id == id) then TooLate else Withdrawn
  {
    hide TableIsReplay, HistoryOrdered;
    ReachableInv(s);
    assert SpotOk(View(s, id), id, s.now);
  }

  /** Every command in the pending table is that of a request still in progress: none is left behind. */
  lemma PendingIsInProgress(s: State, id: nat)
    requires Reachable(s) && id in s.pending
    ensures id in s.calls && s.pending[id] == s.calls[id].cmd && !s.calls[id].pc.Ended? && !s.calls[id].pc.Drawn?
  {
    hide TableIsReplay, HistoryOrdered, Indexed;
    ReachableInv(s);
    assert SpotOk(View(s, id), id, s.now);
  }

  // ------------------------------------------------------------ the worker's table in every state

  /** While a worker runs its poller is the control socket plus its subscribers; between workers both are empty. */
  ghost predicate WorkerTable(s: State) {
    if s.worker.Off? then Consistent(s.table) && s.table.subscribers == map[] && s.table.poller == map[]
    else Running(s.table)
  }

  lemma StartedIsRunning(t: Table)
    requires Consistent(t) && t.subscribers == map[]
    ensures Running(Started(t))
  {
  }

  lemma ClearedIsConsistent(t: Table)
    requires Running(t)
    ensures Consistent(Cleared(t))
  {
  }

  lemma WorkerTableStep(s: State, a: Label)
    requires WorkerTable(s) && Enabled(s, a)
    ensures WorkerTable(Next(s, a))
    ensures NewTagsOnly(s.table, Next(s, a).table)
  {
    hide Exec, Running, Consistent;
    NoNewTags(s.table);
    match a
    case Boot => StartedIsRunning(s.table);
    case Execute(good) =>
      ExecKeepsRunning(s.table, s.worker.cmd, good);
    case Reply(_) => ClearedIsConsistent(s.table);
    case Leave => ClearedIsConsistent(s.table);
    case _ =>
  }

  lemma {:induction false} WorkerTableRun(s: State, run: seq<Label>, s': State)
    requires WorkerTable(s) && Steps(s, run, s')
    ensures WorkerTable(s') && NewTagsOnly(s.table, s'.table)
    decreases |run|
  {
    hide WorkerTable, NewTagsOnly, Next, Enabled;
    NoNewTags(s.table);
    if run != [] {
      var t := Next(s, run[0]);
      WorkerTableStep(s, run[0]);
      WorkerTableRun(t, run[1..], s');
      NewTagsTwice(s.table, t.table, s'.table);
    }
  }

  /**
   In every reachable state, over any number of workers one after the other, subscriber tags are distinct and above
   the control tag, and the poller holds exactly the control socket plus the current subscribers, or nothing when
   no worker runs. A tag is never given twice: however the run goes on, an entry with a tag that had been drawn
   before is the entry that had it then, under the same id and with the same socket.
   */
  lemma TableIsAlwaysConsistent(s: State, run: seq<Label>, s': State)
    requires Reachable(s) && Steps(s, run, s')
    ensures WorkerTable(s) && WorkerTable(s')
    ensures s.table.nextTag <= s'.table.nextTag
    ensures forall id | id in s'.table.subscribers && s'.table.subscribers[id].tag <= s.table.nextTag ::
              && id in s.table.subscribers
              && s.table.subscribers[id].tag == s'.table.subscribers[id].tag
              && s.table.subscribers[id].socket == s'.table.subscribers[id].socket
  {
    hide WorkerTable, Next, Enabled;
    var s0, before :| Init(s0) && Steps(s0, before, s);
    FreshTable(s0);
    WorkerTableRun(s0, before, s);
    WorkerTableRun(s, run, s');
  }

  lemma FreshTable(s: State)
    requires Init(s)
    ensures WorkerTable(s)
  {
  }

  // ------------------------------------------------------------ requests are served

  /** No message was lost: every request sent reaches the worker, every reply sent its caller. */
  predicate NothingLost(run: seq<Label>) {
    forall i | 0 <= i < |run| :: !run[i].LoseRequest? && !run[i].LoseReply? && run[i] != Reply(false)
  }

  /** The exception that left the loop came from this command. */
  predicate DiedOn(s: State, id: nat) {
    && s.worker.Dead? && s.history != []
    && var last := s.history[|s.history| - 1];
       last.Ran? && last.id == id && last.result.Escaped?
  }

  /** The request of a waiting call is on its way, with the worker, or answered. */
  predicate OnItsWay(s: State, id: nat) {
    || id in s.requests
    || (Busy(s.worker) && s.worker.id == id)
    || id in s.replies
    || DiedOn(s, id)
  }

  lemma OnItsWayCallers(s: State, a: Label, id: nat)
    requires Enabled(s, a) && !ByWorker(a) && !a.LoseRequest? && !a.LoseReply?
    requires PcIs(s, id, Waiting) ==> OnItsWay(s, id)
    requires PcIs(Next(s, a), id, Waiting)
    ensures OnItsWay(Next(s, a), id)
  {
  }

  lemma OnItsWayWorker(s: State, a: Label, id: nat)
    requires Enabled(s, a) && ByWorker(a) && a != Reply(false)
    requires PcIs(s, id, Waiting) ==> OnItsWay(s, id)
    requires PcIs(Next(s, a), id, Waiting)
    ensures OnItsWay(Next(s, a), id)
  {
    hide Exec, Started, Cleared;
  }

  lemma {:induction false} OnItsWayRun(s: State, run: seq<Label>, s': State, id: nat)
    requires Steps(s, run, s') && NothingLost(run) && PcIs(s', id, Waiting)
    requires PcIs(s, id, Waiting) ==> OnItsWay(s, id)
    ensures OnItsWay(s', id)
    decreases |run|
  {
    hide Next, Enabled, OnItsWay, PcIs;
    if run != [] {
      var t := Next(s, run[0]);
      if PcIs(t, id, Waiting) {
        if ByWorker(run[0]) { OnItsWayWorker(s, run[0], id); } else { OnItsWayCallers(s, run[0], id); }
      }
      OnItsWayRun(t, run[1..], s', id);
    }
  }

  /**
   Main result. In a run that lost no message, the request of every call that waits for its reply has reached the worker's
   socket and not been taken, is in the worker's hands, or has been answered; or the worker died executing it.
   */
  lemma SentRequestsAreSomewhere(s0: State, run: seq<Label>, s: State, id: nat)
    requires Init(s0) && Steps(s0, run, s) && NothingLost(run) && PcIs(s, id, Waiting)
    ensures OnItsWay(s, id)
  {
    hide Next, Enabled, OnItsWay;
    OnItsWayRun(s0, run, s, id);
  }

  /** No call in the run gives up, and nothing is lost. */
  predicate Smooth(run: seq<Label>) { NothingLost(run) && forall i | 0 <= i < |run| :: !run[i].GiveUp? }

  lemma Ahead(s: State, a: Label, run: seq<Label>, s': State)
    requires Enabled(s, a) && Steps(Next(s, a), run, s') && Smooth(run)
    requires !a.GiveUp? && !a.LoseRequest? && !a.LoseReply? && a != Reply(false)
    ensures Steps(s, [a] + run, s') && Smooth([a] + run)
  {
    hide Next, Enabled;
    assert ([a] + run)[1..] == run;
  }

  /** What serving a command leaves: it alone was executed, with its result, and a stop ends the loop. */
  ghost predicate Served(s: State, s': State, id: nat, cmd: Command, good: nat, code: int) {
    && (exists at :: PcIs(s', id, Ended(Replied(code), at)))
    && (exists at :: s'.history == s.history + [Ran(id, cmd, good, Returned(code), at)] + if cmd.Stop? then [Emptied] else [])
    && var t := Exec(s.table, cmd, good).table;
       if cmd.Stop? then s'.worker.Off? && s'.table == Cleared(t) else s'.worker.Idle? && s'.table == t
  }

  /** A result is sent and returned. */
  lemma ResultIsReturned(s: State, id: nat, code: int, leave: bool) returns (run: seq<Label>, s': State)
    requires s.worker == Replying(id, code, leave) && PcIs(s, id, Waiting)
    ensures Steps(s, run, s') && Smooth(run)
    ensures exists at :: PcIs(s', id, Ended(Replied(code), at))
    ensures s'.history == s.history + if leave then [Emptied] else []
    ensures if leave then s'.worker.Off? && s'.table == Cleared(s.table) else s'.worker.Idle? && s'.table == s.table
  {
    hide Cleared;
    var s1 := Next(s, Reply(true));
    s' := Next(s1, Receive(id));
    assert PcIs(s', id, Ended(Replied(code), s1.now));
    assert s.history + [] == s.history;
    assert Steps(s', [], s') && Smooth([]);
    Ahead(s1, Receive(id), [], s');
    run := [Receive(id)] + [];
    Ahead(s, Reply(true), run, s');
    run := [Reply(true)] + run;
  }

  /** A command the worker holds is executed, its result is sent, and the caller returns it. */
  lemma HeldIsServed(s: State, id: nat, good: nat, code: int) returns (run: seq<Label>, s': State)
    requires s.worker.Holding? && s.worker.id == id && PcIs(s, id, Waiting)
    requires Exec(s.table, s.worker.cmd, good).result == Returned(code)
    ensures Steps(s, run, s') && Smooth(run) && Served(s, s', id, s.worker.cmd, good, code)
  {
    hide Exec, Cleared, Steps, Smooth;
    var s1 := Next(s, Execute(good));
    assert s1.history == s.history + [Ran(id, s.worker.cmd, good, Returned(code), s.now)];
    run, s' := ResultIsReturned(s1, id, code, s.worker.cmd.Stop?);
    Ahead(s, Execute(good), run, s');
    run := [Execute(good)] + run;
  }

  /** The id of a stored command is sent, taken and claimed. */
  lemma StoredIsHeld(s: State, id: nat) returns (t: State)
    requires Inv(s) && s.worker.Idle? && PcIs(s, id, Stored)
    ensures Enabled(s, Send(id)) && Enabled(Next(s, Send(id)), Take(id))
    ensures var s2 := Next(Next(s, Send(id)), Take(id));
            && Enabled(s2, Claim) && t == Next(s2, Claim)
    ensures t.worker == Holding(id, s.calls[id].cmd) && PcIs(t, id, Waiting)
    ensures t.table == s.table && t.history == s.history
  {
    assert SpotOk(View(s, id), id, s.now);
    t := Next(Next(Next(s, Send(id)), Take(id)), Claim);
  }

  /**
   Main result. While the worker is free, a request that has stored its command can be served: some run in which nobody
   gives up and nothing is lost ends with its caller returning `code`, the result the command has on the table now, and
   with exactly its command executed.
   */
  lemma StoredRequestCanBeServed(s: State, id: nat, good: nat, code: int) returns (run: seq<Label>, s': State)
    requires Reachable(s) && s.worker.Idle? && PcIs(s, id, Stored)
    requires Exec(s.table, s.calls[id].cmd, good).result == Returned(code)
    ensures Steps(s, run, s') && Smooth(run) && Served(s, s', id, s.calls[id].cmd, good, code)
  {
    hide Exec, Cleared, Served, Inv, Reachable, Next, Enabled;
    ReachableInv(s);
    var t := StoredIsHeld(s, id);
    run, s' := HeldIsServed(t, id, good, code);
    SameServed(s, t, s', id, s.calls[id].cmd, good, code);
    var s1 := Next(s, Send(id));
    Ahead(Next(s1, Take(id)), Claim, run, s');
    run := [Claim] + run;
    Ahead(s1, Take(id), run, s');
    run := [Take(id)] + run;
    Ahead(s, Send(id), run, s');
    run := [Send(id)] + run;
  }

  lemma SameServed(s: State, t: State, s': State, id: nat, cmd: Command, good: nat, code: int)
    requires t.table == s.table && t.history == s.history && Served(t, s', id, cmd, good, code)
    ensures Served(s, s', id, cmd, good, code)
  {
  }

  /** In particular any command can be called for, and returns the result it has on the table now. */
  lemma RequestCanBeServed(s: State, cmd: Command, good: nat, code: int) returns (run: seq<Label>, s': State)
    requires Reachable(s) && s.worker.Idle? && Exec(s.table, cmd, good).result == Returned(code)
    ensures Steps(s, run, s') && Smooth(run) && Served(s, s', s.nextId, cmd, good, code)
  {
    hide Exec, Served, Reachable, Cleared;
    var id := s.nextId;
    var s1 := Next(s, Draw(cmd));
    var s2 := Next(s1, Store(id));
    OneMore(s, Draw(cmd));
    OneMore(s1, Store(id));
    run, s' := StoredRequestCanBeServed(s2, id, good, code);
    SameServed(s, s2, s', id, cmd, good, code);
    Ahead(s1, Store(id), run, s');
    run := [Store(id)] + run;
    Ahead(s, Draw(cmd), run, s');
    run := [Draw(cmd)] + run;
  }

  /** With enough calls succeeding a command throws nothing. */
  lemma NothingThrows(t: Table, cmd: Command)
    ensures Exec(t, cmd, Calls(t, cmd) + 1).result.Returned?
  {
  }

  function StepsToIdle(w: WorkerPc): nat {
    match w
    case Idle => 0
    case Off => 1
    case Replying(_, _, _) => 2
    case Holding(_, _) => 3
    case Got(_) => 4
    case Dead => 0
  }

  /** A worker that is not dead gets free: it starts, or finishes what it has in hand, and starts again after a stop. */
  lemma {:induction false} WorkerGetsFree(s: State) returns (run: seq<Label>, t: State)
    requires !s.worker.Dead?
    ensures Steps(s, run, t) && Smooth(run) && t.worker.Idle?
    decreases StepsToIdle(s.worker)
  {
    hide Exec, Started, Cleared, Smooth, Calls;
    if s.worker.Idle? {
      run, t := [], s;
      assert Steps(s, [], s);
      NoStepIsSmooth();
    } else {
      var a := match s.worker
        case Off => Boot
        case Got(_) => Claim
        case Holding(_, cmd) => Execute(Calls(s.table, cmd) + 1)
        case _ => Reply(true);
      if s.worker.Holding? { NothingThrows(s.table, s.worker.cmd); }
      var more;
      more, t := WorkerGetsFree(Next(s, a));
      Ahead(s, a, more, t);
      run := [a] + more;
    }
  }

  lemma NoStepIsSmooth()
    ensures Smooth([])
  {
  }

  lemma {:induction false} MoreSteps(s: State, run: seq<Label>, s': State)
    requires Reachable(s) && Steps(s, run, s')
    ensures Reachable(s')
    decreases |run|
  {
    hide Reachable, Next, Enabled;
    if run != [] {
      OneMore(s, run[0]);
      MoreSteps(Next(s, run[0]), run[1..], s');
    }
  }

  lemma {:induction false} StepsAfter(s: State, a: seq<Label>, t: State, b: seq<Label>, u: State)
    requires Steps(s, a, t) && Steps(t, b, u) && Smooth(a) && Smooth(b)
    ensures Steps(s, a + b, u) && Smooth(a + b)
    decreases |a|
  {
    hide Next, Enabled;
    if a == [] {
      assert a + b == b;
    } else {
      assert Smooth(a[1..]);
      StepsAfter(Next(s, a[0]), a[1..], t, b, u);
      assert (a + b)[0] == a[0] && (a + b)[1..] == a[1..] + b;
    }
  }

  /**
   Main result. From every reachable state in which the worker did not die, and for every command, there is a run without
   a loss and without anybody giving up in which the worker gets free and the command is called for, executed and
   its result returned, whatever result it can have on the table then.
   */
  lemma EveryCommandCanBeServed(s: State, cmd: Command)
      returns (before: seq<Label>, t: State)
    requires Reachable(s) && !s.worker.Dead?
    ensures Steps(s, before, t) && Smooth(before) && t.worker.Idle?
    ensures forall good, code | Exec(t.table, cmd, good).result == Returned(code) ::
              exists run, s' :: Steps(s, run, s') && Smooth(run) && Served(t, s', t.nextId, cmd, good, code)
  {
    hide Exec, Served, Reachable, Smooth;
    before, t := WorkerGetsFree(s);
    MoreSteps(s, before, t);
    forall good, code | Exec(t.table, cmd, good).result == Returned(code)
      ensures exists run, s' :: Steps(s, run, s') && Smooth(run) && Served(t, s', t.nextId, cmd, good, code)
    {
      var run, s' := RequestCanBeServed(t, cmd, good, code);
      StepsAfter(s, before, t, run, s');
    }
  }

  lemma OneMore(s: State, a: Label)
    requires Reachable(s) && Enabled(s, a)
    ensures Reachable(Next(s, a))
  {
    hide Next, Enabled, Init;
    var s0, run :| Init(s0) && Steps(s0, run, s);
    StepsThen(s0, run, s, a);
  }

  lemma {:induction false} StepsThen(s: State, run: seq<Label>, s': State, a: Label)
    requires Steps(s, run, s') && Enabled(s', a)
    ensures Steps(s, run + [a], Next(s', a))
    decreases |run|
  {
    hide Next, Enabled;
    if run == [] {
      assert [a][1..] == [];
      assert run + [a] == [a];
      assert Steps(Next(s, a), [], Next(s, a));
    } else {
      StepsThen(Next(s, run[0]), run[1..], s', a);
      assert (run + [a])[0] == run[0] && (run + [a])[1..] == run[1..] + [a];
    }
  }
}
