/**
 One run of a query reactor: the pool thread that stores the question, runs the query loop and sends the
 answer piece by piece; gRPC and other threads, which complete or fail writes, cancel and stop; and OnDone,
 which stores the answer.

 The pump is the one of `PumpSteps`: every atomic load, store and queue operation of `_send`, `_flush`, OnWriteDone,
 `Stop` and `OnCancel` is a step, and steps of all threads interleave. The pool thread is thread 0 of the pump, and
 message n of the pump is the n-th of `accepted`. The database, the model and the watch dog are parameters of
 the steps: whether an insert succeeds, what the loop hands to the callback, whether the watch dog accepts it.
 */
module QueryRun {
  import P = PumpSteps
  import W = WritePump

  const OK: int := 0
  const SQLITE_EXEC_FAIL: int := 103
  const UNKNOWN_PIPELINE: int := 104

  /** The thread of the pump that is the pool thread. */
  const POOL: nat := 0

  datatype Pipeline = Local | Remote | Other

  datatype Message = Message(content: string, isFinished: bool, errorCode: int)

  /** What OnDone sends when the answer cannot be stored. */
  const NOT_STORED := Message("", true, SQLITE_EXEC_FAIL)

  datatype Role = User | Assistant

  datatype Row = Row(id: int, role: Role, content: string, prev: int)

  /** Where the thread goes on after `_send`. */
  datatype After = ToLoop | ToLoopReturn | ToStopFinish | ToLastFinish | ToEnd

  /** The next operation of the pool thread; in `_send` it is that of thread 0 of the pump. */
  datatype Pc =
    | Choose
    | StoreUser
    | NewId
    | Looping                         // inside loop_query, between callbacks
    | Callback(output: string)        // about to load _is_cancelled in the callback
    | StopFinish                      // Finish from the callback
    | LoopReturned
    | AfterLoop(code: int)            // about to load _is_cancelled after the loop
    | LastFinish
    | End
    | SendCheck(m: Message, next: After)
    | SendPut(m: Message, next: After)
    | SendFlush(next: After)

  /** `refused`, `done`: a watch dog refusal, OnDone have happened. */
  datatype State = State(
    pipeline: Pipeline,
    content: string,
    pump: P.State,
    accepted: seq<Message>,
    finishes: seq<W.Status>,
    pc: Pc,
    prevId: int,
    currId: int,
    answer: string,
    rows: seq<Row>,
    refused: bool,
    done: bool)

  /** A query. With `serialised`, flushes of different threads do not overlap. */
  datatype Query = Query(pipeline: Pipeline, content: string, msgId: int, serialised: bool)

  function Start(q: Query): State {
    var pump := P.State(W.Query, q.serialised, P.Core(false, false, [], 0, [], 0), map[], false);
    State(q.pipeline, q.content, pump, [], [], Choose, 0, q.msgId, "", [], false, false)
  }

  datatype Label =
    // the pool thread; the parameters are used by the operations that read them
    | Pool(stored: bool, newId: int, output: string, code: int, loopEnds: bool, watched: bool)
    // gRPC and other threads
    | Around(a: P.Label)
    | OnDone(t: nat, stored: bool)

  predicate InSend(pc: Pc) { pc.SendCheck? || pc.SendPut? || pc.SendFlush? }

  /** What the pool thread does next in the pump, or would do to call `_send`. */
  function PumpLabel(pc: Pc): P.Label {
    if InSend(pc) then P.Move(POOL) else P.Enter(POOL, P.SendLoadCancelled)
  }

  predicate Enabled(s: State, a: Label) {
    match a
    case Pool(_, _, _, _, _, _) => s.pc != End && P.Enabled(s.pump, PumpLabel(s.pc))
    case Around(b) => b.t != POOL && P.Enabled(s.pump, b) && !(b.Enter? && b.pc.SendLoadCancelled?)
    case OnDone(t, _) => s.finishes != [] && !s.done && t != POOL && t !in s.pump.threads
  }

  function Resume(next: After): Pc {
    match next
    case ToLoop => Looping
    case ToLoopReturn => LoopReturned
    case ToStopFinish => StopFinish
    case ToLastFinish => LastFinish
    case ToEnd => End
  }

  function Next(s: State, a: Label): State
    requires Enabled(s, a)
  {
    match a
    case Pool(_, _, _, _, _, _) => Move(s, a)
    case Around(b) =>
      s.(pump := P.Next(s.pump, b),
         accepted := s.accepted + if P.Does(s.pump, b, P.SendPut) then [NOT_STORED] else [],
         finishes := s.finishes + if P.Does(s.pump, b, P.CallFinish) then [W.FinishAborted] else [])
    case OnDone(t, stored) =>
      if stored then s.(done := true, rows := s.rows + [Row(s.currId, Assistant, s.answer, s.prevId)])
      else s.(done := true, pump := P.Next(s.pump, P.Enter(t, P.SendLoadCancelled)))
  }

  /** The pool thread calls `_send`. */
  function Call(s: State, m: Message, next: After): State
    requires P.Enabled(s.pump, P.Enter(POOL, P.SendLoadCancelled))
  {
    s.(pump := P.Next(s.pump, P.Enter(POOL, P.SendLoadCancelled)), pc := SendCheck(m, next))
  }

  function Move(s: State, a: Label): State
    requires a.Pool? && Enabled(s, a)
  {
    var cancelled := s.pump.core.cancelled;
    match s.pc
    case Choose =>
      if s.pipeline.Other? then Call(s, Message("", true, UNKNOWN_PIPELINE), ToEnd) else s.(pc := StoreUser)
    case StoreUser =>
      if a.stored then s.(rows := s.rows + [Row(s.currId, User, s.content, s.prevId)], pc := NewId)
      else Call(s, Message("", true, SQLITE_EXEC_FAIL), ToEnd)
    case NewId => s.(prevId := s.currId, currId := a.newId, pc := Looping)
    case Looping => s.(pc := if a.loopEnds then LoopReturned else Callback(a.output))
    case Callback(output) =>
      if cancelled then Call(s, Message(output, true, OK), ToStopFinish)
      else if output == "" then s.(pc := Looping)
      else if s.pipeline.Local? && !a.watched then Call(s.(refused := true), Message(output, true, OK), ToLoopReturn)
      else Call(s.(answer := s.answer + output), Message(output, false, OK), ToLoop)
    case StopFinish => s.(finishes := s.finishes + [W.FinishOk], pc := LoopReturned)
    case LoopReturned => s.(pc := AfterLoop(a.code))
    case AfterLoop(code) => if cancelled then s.(pc := End) else Call(s, Message("", true, code), ToLastFinish)
    case LastFinish => s.(finishes := s.finishes + [W.FinishOk], pc := End)
    case SendCheck(m, next) =>
      s.(pump := P.Next(s.pump, P.Move(POOL)), pc := if cancelled then Resume(next) else SendPut(m, next))
    case SendPut(m, next) =>
      s.(pump := P.Next(s.pump, P.Move(POOL)), accepted := s.accepted + [m], pc := SendFlush(next))
    case SendFlush(next) =>
      var pump := P.Next(s.pump, P.Move(POOL));
      s.(pump := pump, pc := if POOL in pump.threads then SendFlush(next) else Resume(next))
  }

  ghost predicate Steps(s: State, run: seq<Label>, s': State)
    decreases |run|
  {
    if run == [] then s == s' else Enabled(s, run[0]) && Steps(Next(s, run[0]), run[1..], s')
  }

  // ------------------------------------------------------------ the pool thread in the pump

  /** The pool thread is in the pump exactly while it is in `_send`, and there where its pc says. */
  ghost predicate Joined(s: State) {
    match s.pc
    case SendCheck(_, _) => P.At(s.pump, POOL, P.SendLoadCancelled)
    case SendPut(_, _) => P.At(s.pump, POOL, P.SendPut)
    case SendFlush(_) =>
      POOL in s.pump.threads && (s.pump.threads[POOL].FlushLoadWriting? || P.Flushing(s.pump.threads[POOL]))
    case _ => POOL !in s.pump.threads
  }

  /** No other thread sends before OnDone. */
  ghost predicate OthersSendLate(s: State) {
    forall t :: t != POOL && (P.At(s.pump, t, P.SendLoadCancelled) || P.At(s.pump, t, P.SendPut)) ==> s.done
  }

  ghost predicate PumpOk(s: State) {
    P.Inv(s.pump) && |s.accepted| == s.pump.core.accepted && Joined(s) && OthersSendLate(s)
  }

  /** The pump step of a step, if it is one. */
  function PumpStep(s: State, a: Label): seq<P.Label>
    requires Enabled(s, a)
  {
    match a
    case Pool(_, _, _, _, _, _) => if InSend(s.pc) || InSend(Next(s, a).pc) then [PumpLabel(s.pc)] else []
    case Around(b) => [b]
    case OnDone(t, stored) => if stored then [] else [P.Enter(t, P.SendLoadCancelled)]
  }

  lemma PumpFollows(s: State, a: Label)
    requires Enabled(s, a)
    ensures var b := PumpStep(s, a);
            if b == [] then Next(s, a).pump == s.pump
            else P.Enabled(s.pump, b[0]) && Next(s, a).pump == P.Next(s.pump, b[0])
  {
    hide P.Next;
  }

  lemma PoolInPump(s: State, a: Label)
    requires Joined(s) && Enabled(s, a) && a.Pool? && InSend(s.pc)
    ensures var s' := Next(s, a);
            && Joined(s')
            && s'.pump.core.cancelled == s.pump.core.cancelled
            && s'.pump.core.accepted == s.pump.core.accepted + (if s.pc.SendPut? then 1 else 0)
            && s'.accepted == s.accepted + (if s.pc.SendPut? then [s.pc.m] else [])
            && s'.finishes == s.finishes
  {
    hide P.Next, P.Enabled;
    P.SenderMoves(s.pump, POOL, s.pump.threads[POOL]);
  }

  lemma PoolOutside(s: State, a: Label)
    requires Joined(s) && Enabled(s, a) && a.Pool? && !InSend(s.pc)
    ensures var s' := Next(s, a);
            && Joined(s')
            && s'.pump.core == s.pump.core
            && s'.accepted == s.accepted
            && s'.finishes == s.finishes + (if s.pc.StopFinish? || s.pc.LastFinish? then [W.FinishOk] else [])
  {
    hide P.Next, P.Enabled;
    P.SenderEnters(s.pump, POOL);
  }

  /** What a step of the pool thread does to what the others can see. */
  lemma PoolPump(s: State, a: Label)
    requires Joined(s) && Enabled(s, a) && a.Pool?
    ensures var s' := Next(s, a);
            && Joined(s')
            && s'.pump.core.cancelled == s.pump.core.cancelled
            && s'.pump.core.accepted == s.pump.core.accepted + (if s.pc.SendPut? then 1 else 0)
            && s'.accepted == s.accepted + (if s.pc.SendPut? then [s.pc.m] else [])
            && s'.finishes == s.finishes + (if s.pc.StopFinish? || s.pc.LastFinish? then [W.FinishOk] else [])
  {
    hide P.Next, P.Enabled;
    if InSend(s.pc) { PoolInPump(s, a); } else { PoolOutside(s, a); }
  }

  lemma JoinedOthers(s: State, a: Label)
    requires Joined(s) && Enabled(s, a) && !a.Pool?
    ensures Joined(Next(s, a))
    ensures |s.accepted| == s.pump.core.accepted ==> |Next(s, a).accepted| == Next(s, a).pump.core.accepted
  {
    hide P.Next, P.Enabled;
    PumpFollows(s, a);
    var b := PumpStep(s, a);
    if b != [] { P.OthersMove(s.pump, b[0], POOL); }
  }

  lemma DoneStays(s: State, a: Label)
    requires Enabled(s, a)
    ensures Next(s, a).done == (s.done || a.OnDone?)
  {
    hide P.Next, P.Enabled, Resume;
  }

  lemma OthersSendLateStep(s: State, a: Label)
    requires OthersSendLate(s) && Enabled(s, a)
    ensures OthersSendLate(Next(s, a))
  {
    hide P.Next, P.At, Move;
    DoneStays(s, a);
    PumpFollows(s, a);
    var b := PumpStep(s, a);
    if b != [] { P.OthersStay(s.pump, b[0]); }
  }

  lemma PumpOkStep(s: State, a: Label)
    requires PumpOk(s) && Enabled(s, a)
    ensures PumpOk(Next(s, a))
  {
    hide P.Inv, P.Next, P.Enabled, Joined, OthersSendLate, Next, Enabled, PumpStep;
    if a.Pool? { PoolPump(s, a); } else { JoinedOthers(s, a); }
    OthersSendLateStep(s, a);
    PumpFollows(s, a);
    var b := PumpStep(s, a);
    if b != [] { P.InvStep(s.pump, b[0]); }
  }

  /** What the other steps do: only OnDone sends, and only a write that failed finishes the call. */
  lemma OthersPump(s: State, a: Label)
    requires PumpOk(s) && Enabled(s, a) && !a.Pool?
    ensures var s' := Next(s, a);
            && (s.pump.core.cancelled ==> s'.pump.core.cancelled)
            && (s'.accepted == s.accepted || (s.done && s'.accepted == s.accepted + [NOT_STORED]))
            && (s'.finishes == s.finishes || (s.accepted != [] && s'.finishes == s.finishes + [W.FinishAborted]))
  {
    hide Joined;
    if a.Around? { P.DoesMeans(s.pump, a.a, P.SendPut); }
    if a.Around? && P.Does(s.pump, a.a, P.CallFinish) {
      assert P.At(s.pump, a.a.t, P.CallFinish) && P.InWriteDone(P.CallFinish);
      assert s.pump.core.started[0] < P.Gone(s.pump.core);
    }
  }

  // ------------------------------------------------------------ the answer

  /** The text a client gets from messages that are not final, in order. */
  function Contents(ms: seq<Message>): string {
    if ms == [] then "" else
      var last := ms[|ms| - 1];
      Contents(ms[..|ms| - 1]) + if last.isFinished then "" else last.content
  }

  lemma ContentsMore(ms: seq<Message>, m: Message)
    ensures Contents(ms + [m]) == Contents(ms) + if m.isFinished then "" else m.content
  {
    assert (ms + [m])[..|ms|] == ms;
  }

  lemma {:induction false} ContentsPrefix(a: seq<Message>, b: seq<Message>)
    requires a <= b
    ensures Contents(a) <= Contents(b)
    decreases |b|
  {
    if |a| < |b| {
      ContentsPrefix(a, b[..|b| - 1]);
    } else {
      assert a == b;
    }
  }

  /** The text of the message in hand that is not final, if there is one. */
  function InHand(pc: Pc): string {
    match pc
    case SendCheck(m, _) => if m.isFinished then "" else m.content
    case SendPut(m, _) => if m.isFinished then "" else m.content
    case _ => ""
  }

  /**
   While nothing has been left out, the text accepted and in hand is `_answer`; a piece is left out only by
   a send that finds the reactor cancelled, and no later send puts anything.
   */
  ghost predicate AnswerKept(s: State) {
    || Contents(s.accepted) + InHand(s.pc) == s.answer
    || (s.pump.core.cancelled && Contents(s.accepted) <= s.answer && (s.pc.SendPut? ==> s.pc.m.isFinished))
  }

  lemma AnswerKeptPut(s: State, a: Label)
    requires Joined(s) && AnswerKept(s) && Enabled(s, a) && a.Pool? && s.pc.SendPut?
    ensures AnswerKept(Next(s, a))
  {
    hide Contents, P.Next, P.Enabled, Joined;
    PoolPump(s, a);
    ContentsMore(s.accepted, s.pc.m);
    assert Contents(s.accepted) + "" == Contents(s.accepted);
    assert s.answer + "" == s.answer;
  }

  lemma AnswerKeptCallback(s: State, a: Label)
    requires Joined(s) && AnswerKept(s) && Enabled(s, a) && a.Pool? && s.pc.Callback?
    ensures AnswerKept(Next(s, a))
  {
    hide Contents, P.Next, P.Enabled, Joined;
    PoolPump(s, a);
    assert Contents(s.accepted) + "" == Contents(s.accepted);
    assert s.accepted + [] == s.accepted;
  }

  lemma AnswerKeptPool(s: State, a: Label)
    requires Joined(s) && AnswerKept(s) && Enabled(s, a) && a.Pool? && !s.pc.SendPut? && !s.pc.Callback?
    ensures AnswerKept(Next(s, a))
  {
    hide Contents, P.Next, P.Enabled, Joined;
    PoolPump(s, a);
    assert s.accepted + [] == s.accepted;
    assert Contents(s.accepted) + "" == Contents(s.accepted);
  }

  lemma AnswerKeptOthers(s: State, a: Label)
    requires PumpOk(s) && AnswerKept(s) && Enabled(s, a) && !a.Pool?
    ensures AnswerKept(Next(s, a))
  {
    hide Contents, P.Next, P.Enabled, PumpOk;
    OthersPump(s, a);
    ContentsMore(s.accepted, NOT_STORED);
    assert Contents(s.accepted) + "" == Contents(s.accepted);
  }

  // ------------------------------------------------------------ final messages

  predicate NoFinal(ms: seq<Message>) { forall i | 0 <= i < |ms| :: !ms[i].isFinished }

  predicate FinalLast(ms: seq<Message>) { forall i | 0 <= i < |ms| - 1 :: !ms[i].isFinished }

  predicate OnlyOneFinal(ms: seq<Message>) {
    forall i, j | 0 <= i < j < |ms| :: !(ms[i].isFinished && ms[j].isFinished)
  }

  /** After the operation the thread may still send a message. */
  predicate MaySend(pc: Pc) {
    match pc
    case StopFinish => false
    case LastFinish => false
    case End => false
    case SendFlush(next) => next == ToLoop
    case _ => true
  }

  /** A stop found in the callback sends nothing: its send finds the reactor cancelled again. */
  ghost predicate SendsMeet(s: State) {
    match s.pc
    case SendCheck(m, next) =>
      && (m.isFinished <==> next != ToLoop)
      && (next == ToStopFinish ==> s.pump.core.cancelled)
      && (next == ToLoopReturn ==> s.refused)
    case SendPut(m, next) =>
      && (m.isFinished <==> next != ToLoop)
      && next != ToStopFinish
      && (next == ToLoopReturn ==> s.refused)
    case SendFlush(next) => next != ToStopFinish && (next == ToLoopReturn ==> s.refused)
    case StopFinish => s.pump.core.cancelled
    case _ => true
  }

  ghost predicate OneFinal(s: State) {
    !s.refused && !s.done ==>
      if MaySend(s.pc) || s.pc.StopFinish? then NoFinal(s.accepted) else FinalLast(s.accepted)
  }

  lemma SendsMeetStep(s: State, a: Label)
    requires PumpOk(s) && SendsMeet(s) && Enabled(s, a)
    ensures SendsMeet(Next(s, a))
  {
    hide P.Next, P.Enabled, P.Inv, Joined, OthersSendLate;
    if a.Pool? { PoolPump(s, a); } else { OthersPump(s, a); }
  }

  lemma OneFinalStep(s: State, a: Label)
    requires PumpOk(s) && SendsMeet(s) && OneFinal(s) && Enabled(s, a)
    ensures OneFinal(Next(s, a))
  {
    hide P.Next, P.Enabled, P.Inv, Joined, OthersSendLate;
    if a.Pool? { PoolPump(s, a); } else { OthersPump(s, a); }
  }

  // ------------------------------------------------------------ Finish and the rows

  predicate WriteFailed(s: State) { W.FinishAborted in s.finishes }

  /** The pool thread has called Finish, in a run that goes on. */
  predicate OwnFinish(pc: Pc) { pc.LoopReturned? || pc.AfterLoop? || pc.End? }

  ghost predicate FinishedOnce(s: State) {
    !WriteFailed(s) ==>
      && |s.finishes| <= 1
      && (s.finishes != [] ==> s.pc.End? || (s.pump.core.cancelled && OwnFinish(s.pc)))
  }

  lemma FinishedOnceStep(s: State, a: Label)
    requires PumpOk(s) && SendsMeet(s) && FinishedOnce(s) && Enabled(s, a)
    ensures FinishedOnce(Next(s, a))
  {
    hide P.Next, P.Enabled, P.Inv, Joined, OthersSendLate;
    if a.Pool? { PoolPump(s, a); } else { OthersPump(s, a); }
  }

  predicate IsStored(s: State) { s.rows != [] && s.rows[0].role.User? }

  /** On its way out without having stored the question. */
  predicate GivesUp(pc: Pc) {
    match pc
    case SendCheck(_, next) => next == ToEnd
    case SendPut(_, next) => next == ToEnd
    case SendFlush(next) => next == ToEnd
    case End => true
    case _ => false
  }

  predicate Untouched(s: State) { s.accepted == [] && s.finishes == [] && !s.done }

  /** The rows a run has written: the question, then the answer that points at it; or none before the answer. */
  ghost predicate RowsOk(s: State) {
    && (s.pc.Choose? || s.pc.StoreUser? ==> s.rows == [] && Untouched(s))
    && (s.pc.NewId? ==> s.rows == [Row(s.currId, User, s.content, s.prevId)] && Untouched(s))
    && (if IsStored(s) then
          && |s.rows| == (if s.done && |s.rows| > 1 then 2 else 1)
          && (|s.rows| == 2 ==> s.rows[1].role.Assistant? && s.rows[1].prev == s.rows[0].id)
          && (s.pc.NewId? || s.prevId == s.rows[0].id)
          && (GivesUp(s.pc) ==> s.pc.End?)
        else
          && (s.pc.Choose? || s.pc.StoreUser? || GivesUp(s.pc))
          && (s.rows == [] || (s.done && |s.rows| == 1)))
  }

  ghost predicate EndsFinished(s: State) {
    && (s.pc.End? && IsStored(s) ==> s.pump.core.cancelled || s.finishes != [])
    && (!IsStored(s) && !WriteFailed(s) ==> s.finishes == [])
  }

  predicate Early(pc: Pc) { pc.Choose? || pc.StoreUser? || pc.NewId? }

  lemma RowsOkEarly(s: State, a: Label)
    requires RowsOk(s) && Enabled(s, a) && a.Pool? && Early(s.pc)
    ensures RowsOk(Next(s, a))
  {
    hide P.Next, P.Enabled;
  }

  /** After the question has been dealt with, the pool thread neither stores anything nor gives up or un-gives up. */
  lemma LatePool(s: State, a: Label)
    requires a.Pool? && Enabled(s, a) && !Early(s.pc)
    ensures var s' := Move(s, a);
            s'.rows == s.rows && s'.prevId == s.prevId && s'.done == s.done && !Early(s'.pc)
  {
    hide P.Next, P.Enabled, Resume;
    ResumeIsLate();
  }

  lemma ResumeIsLate()
    ensures forall next :: !Early(Resume(next)) && (GivesUp(Resume(next)) <==> next == ToEnd)
    ensures forall next :: Resume(next).End? <==> next == ToEnd
  {
  }

  lemma GivesUpStays(s: State, a: Label)
    requires a.Pool? && Enabled(s, a) && !Early(s.pc)
    ensures var s' := Move(s, a);
            && (GivesUp(s.pc) ==> GivesUp(s'.pc))
            && (GivesUp(s'.pc) && !s'.pc.End? ==> GivesUp(s.pc) && !s.pc.End?)
  {
    hide P.Next, P.Enabled, Resume;
    ResumeIsLate();
  }

  lemma RowsOkLate(s: State, a: Label)
    requires RowsOk(s) && Enabled(s, a) && a.Pool? && !Early(s.pc)
    ensures RowsOk(Next(s, a))
  {
    hide Enabled, Move, GivesUp;
    LatePool(s, a);
    GivesUpStays(s, a);
  }

  lemma RowsOkOthers(s: State, a: Label)
    requires PumpOk(s) && RowsOk(s) && Enabled(s, a) && !a.Pool?
    ensures RowsOk(Next(s, a))
  {
    hide P.Next, P.Enabled, PumpOk;
    OthersPump(s, a);
  }

  lemma EndsFinishedPool(s: State, a: Label)
    requires PumpOk(s) && RowsOk(s) && EndsFinished(s) && Enabled(s, a) && a.Pool?
    ensures EndsFinished(Next(s, a))
  {
    hide P.Next, P.Enabled, P.Inv, Joined, OthersSendLate;
    PoolPump(s, a);
  }

  lemma EndsFinishedOthers(s: State, a: Label)
    requires PumpOk(s) && RowsOk(s) && EndsFinished(s) && Enabled(s, a) && !a.Pool?
    ensures EndsFinished(Next(s, a))
  {
    hide P.Next, P.Enabled, PumpOk;
    OthersPump(s, a);
  }

  // ------------------------------------------------------------ every run

  ghost predicate Inv(s: State) {
    PumpOk(s) && AnswerKept(s) && SendsMeet(s) && OneFinal(s) && FinishedOnce(s) && RowsOk(s) && EndsFinished(s)
  }

  lemma InvStep(s: State, a: Label)
    requires Inv(s) && Enabled(s, a)
    ensures Inv(Next(s, a))
  {
    hide Next, P.Inv, Joined, OthersSendLate, AnswerKept, SendsMeet, OneFinal, FinishedOnce, RowsOk, EndsFinished, Enabled;
    PumpOkStep(s, a);
    SendsMeetStep(s, a);
    OneFinalStep(s, a);
    FinishedOnceStep(s, a);
    if a.Pool? {
      EndsFinishedPool(s, a);
      if s.pc.SendPut? {
        AnswerKeptPut(s, a);
      } else if s.pc.Callback? {
        AnswerKeptCallback(s, a);
      } else {
        AnswerKeptPool(s, a);
      }
      if Early(s.pc) { RowsOkEarly(s, a); } else { RowsOkLate(s, a); }
    } else {
      EndsFinishedOthers(s, a);
      AnswerKeptOthers(s, a);
      RowsOkOthers(s, a);
    }
  }

  lemma {:induction false} InvRun(s: State, run: seq<Label>, s': State)
    requires Inv(s) && Steps(s, run, s')
    ensures Inv(s')
    decreases |run|
  {
    hide Inv, Next, Enabled;
    if run != [] {
      InvStep(s, run[0]);
      InvRun(Next(s, run[0]), run[1..], s');
    }
  }

  /** The states of the runs of one query. */
  ghost predicate Reached(q: Query, s: State) {
    exists run :: Steps(Start(q), run, s)
  }

  lemma ReachedInv(q: Query, s: State)
    requires Reached(q, s)
    ensures Inv(s)
  {
    hide Inv, Next, Enabled;
    var start := Start(q);
    var run :| Steps(start, run, s);
    StartInv(q);
    InvRun(start, run, s);
  }

  lemma StartInv(q: Query)
    ensures Inv(Start(q))
  {
    hide P.Inv;
    P.InvInit(Start(q).pump);
  }

  /**
   What the client was sent is a prefix of `_answer`, when flushes do not overlap: in every state before a cancellation,
   and in every state of a cancelled run until a drain crosses a flush.
   */
  lemma ClientSeesAPrefix(q: Query, s: State)
    requires Reached(q, s) && q.serialised
    ensures forall i | 0 <= i < |s.pump.core.started| :: s.pump.core.started[i] < |s.accepted|
    ensures !s.pump.crossed || !s.pump.core.cancelled ==>
              Contents(P.Written(s.accepted, s.pump.core.started)) <= s.answer
  {
    hide SendsMeet, OneFinal, FinishedOnce, RowsOk, EndsFinished, Contents, P.Inv, Joined, OthersSendLate;
    ReachedInv(q, s);
    NeverUnserialised(q, s);
    P.WrittenIsPrefix(s.pump, s.accepted);
    if !s.pump.crossed || !s.pump.core.cancelled {
      ContentsPrefix(P.Written(s.accepted, s.pump.core.started), s.accepted);
      var all := Contents(s.accepted);
      assert all <= s.answer;
    }
  }

  /** However flushes overlap, a run that is not cancelled and at rest has written each accepted message once. */
  lemma EachMessageIsWritten(q: Query, s: State)
    requires Reached(q, s) && !s.pump.core.cancelled && P.Quiet(s.pump)
    ensures forall i | 0 <= i < |s.pump.core.started| :: s.pump.core.started[i] < |s.accepted|
    ensures multiset(P.Written(s.accepted, s.pump.core.started)) == multiset(s.accepted)
  {
    hide SendsMeet, AnswerKept, OneFinal, FinishedOnce, RowsOk, EndsFinished, P.Inv, Joined, OthersSendLate;
    ReachedInv(q, s);
    P.WrittenIsPermutation(s.pump, s.accepted);
  }

  lemma NeverUnserialised(q: Query, s: State)
    requires Reached(q, s)
    ensures s.pump.serialised == q.serialised
  {
    hide Next, Enabled;
    var start := Start(q);
    var run :| Steps(start, run, s);
    SameGrain(start, run, s);
  }

  lemma {:induction false} SameGrain(s: State, run: seq<Label>, s': State)
    requires Steps(s, run, s')
    ensures s'.pump.serialised == s.pump.serialised
    decreases |run|
  {
    hide Next, Enabled, PumpStep;
    if run != [] {
      PumpFollows(s, run[0]);
      SameGrain(Next(s, run[0]), run[1..], s');
    }
  }

  /**
   Before OnDone, and while the watch dog has refused nothing, at most one final message was accepted and nothing
   after it; so the client gets at most one, and, when flushes do not overlap, nothing after it. `watch` in
   the source accepts everything.
   */
  lemma AtMostOneFinal(q: Query, s: State)
    requires Reached(q, s) && !s.refused && !s.done
    ensures forall i | 0 <= i < |s.pump.core.started| :: s.pump.core.started[i] < |s.accepted|
    ensures FinalLast(s.accepted)
    ensures OnlyOneFinal(P.Written(s.accepted, s.pump.core.started))
    ensures q.serialised ==> FinalLast(P.Written(s.accepted, s.pump.core.started))
  {
    hide SendsMeet, AnswerKept, FinishedOnce, RowsOk, EndsFinished, Joined, OthersSendLate;
    ReachedInv(q, s);
    NeverUnserialised(q, s);
    P.WrittenIsPrefix(s.pump, s.accepted);
    FinalsStarted(s.pump, s.accepted);
  }

  lemma FinalsStarted(p: P.State, accepted: seq<Message>)
    requires P.Inv(p) && FinalLast(accepted)
    requires forall i | 0 <= i < |p.core.started| :: p.core.started[i] < |accepted|
    ensures OnlyOneFinal(P.Written(accepted, p.core.started))
    ensures p.serialised ==> FinalLast(P.Written(accepted, p.core.started))
  {
    assert forall i, j | 0 <= i < j < |p.core.started| :: p.core.started[i] != p.core.started[j];
    var last := |p.core.started| - 1;
    assert p.serialised ==> forall i | 0 <= i < last :: p.core.started[i] < p.core.started[last];
  }

  /**
   With no failed write Finish is called at most once. When the pool thread of a run that was never cancelled
   has ended, it was called exactly when the question was stored: an unknown pipeline or a failed insert
   sends its error and never finishes the call.
   */
  lemma FinishIsCalledOnce(q: Query, s: State)
    requires Reached(q, s) && !WriteFailed(s)
    ensures |s.finishes| <= 1
    ensures s.pc.End? && !s.pump.core.cancelled ==> (|s.finishes| == 1 <==> IsStored(s))
  {
    hide SendsMeet, AnswerKept, OneFinal, PumpOk;
    ReachedInv(q, s);
  }

  // ------------------------------------------------------------ when a stored question is never finished

  /** The check after the loop has found the reactor running: the thread goes on to Finish. */
  ghost predicate GoesOnToFinish(s: State) {
    match s.pc
    case SendCheck(_, next) => next == ToLastFinish
    case SendPut(_, next) => next == ToLastFinish
    case SendFlush(next) => next == ToLastFinish
    case LastFinish => true
    case End => s.finishes != []
    case _ => false
  }

  lemma GoesOnStep(s: State, a: Label)
    requires PumpOk(s) && GoesOnToFinish(s) && Enabled(s, a)
    ensures GoesOnToFinish(Next(s, a))
  {
    hide P.Next, P.Enabled, P.Inv, Joined, OthersSendLate;
    if a.Pool? { PoolPump(s, a); } else { OthersPump(s, a); }
  }

  /** Ended without a failed write, the thread has called Finish for the last time. */
  lemma EndedStep(s: State, a: Label)
    requires PumpOk(s) && s.pc.End? && Enabled(s, a)
    ensures Next(s, a).pc.End? && (WriteFailed(s) ==> WriteFailed(Next(s, a)))
    ensures Next(s, a).finishes == s.finishes || WriteFailed(Next(s, a))
  {
    hide P.Next, P.Enabled, P.Inv, Joined, OthersSendLate;
    OthersPump(s, a);
  }

  lemma {:induction false} AfterTheCheck(s: State, run: seq<Label>, s': State)
    requires Inv(s) && Steps(s, run, s')
    ensures GoesOnToFinish(s) ==> GoesOnToFinish(s')
    ensures s.pc.End? ==> s'.pc.End? && (WriteFailed(s) ==> WriteFailed(s')) && (s'.finishes == s.finishes || WriteFailed(s'))
    decreases |run|
  {
    hide Inv, Next, Enabled, GoesOnToFinish;
    if run != [] {
      var t := Next(s, run[0]);
      InvIsPumpOk(s);
      if GoesOnToFinish(s) { GoesOnStep(s, run[0]); }
      if s.pc.End? { EndedStep(s, run[0]); }
      InvStep(s, run[0]);
      AfterTheCheck(t, run[1..], s');
    }
  }

  lemma InvIsPumpOk(s: State)
    requires Inv(s)
    ensures PumpOk(s)
  {
  }

  /** The check of `_is_cancelled` after the loop. */
  predicate IsLastCheck(s: State, a: Label) { s.pc.AfterLoop? && a.Pool? }

  lemma LastCheck(s: State, a: Label)
    requires Joined(s) && Enabled(s, a) && IsLastCheck(s, a)
    ensures if s.pump.core.cancelled then Next(s, a).pc.End? else GoesOnToFinish(Next(s, a))
    ensures Next(s, a).finishes == s.finishes
  {
    hide P.Next, P.Enabled, Joined;
    PoolPump(s, a);
  }

  /**
   Main result, for a question that was stored and with no failed write. From the check after the loop on, Finish is never
   called exactly if that check finds the reactor cancelled and no callback had found it so, and called Finish.
   */
  lemma FinishIsNeverCalled(q: Query, s: State, a: Label, run: seq<Label>, s': State)
    requires Reached(q, s) && Enabled(s, a) && IsLastCheck(s, a)
    requires Steps(Next(s, a), run, s') && s'.pc.End? && !WriteFailed(s')
    ensures s'.finishes == [] <==> s.pump.core.cancelled && s.finishes == []
  {
    hide Next, Enabled, P.Inv, Joined, OthersSendLate, AnswerKept, SendsMeet, OneFinal, FinishedOnce, RowsOk, EndsFinished;
    ReachedInv(q, s);
    LastCheck(s, a);
    InvStep(s, a);
    AfterTheCheck(Next(s, a), run, s');
  }

  /** The pool thread has not come to that check. */
  predicate BeforeLastCheck(pc: Pc) {
    match pc
    case SendCheck(_, next) => next != ToLastFinish && next != ToEnd
    case SendPut(_, next) => next != ToLastFinish && next != ToEnd
    case SendFlush(next) => next != ToLastFinish && next != ToEnd
    case LastFinish => false
    case End => false
    case _ => true
  }

  /** Every run that ends with its question stored goes through that check. */
  lemma {:induction false} PassesLastCheck(q: Query, s: State, run: seq<Label>, s': State)
      returns (t: State, a: Label, more: seq<Label>)
    requires Reached(q, s) && BeforeLastCheck(s.pc) && Steps(s, run, s') && s'.pc.End? && IsStored(s')
    ensures Reached(q, t) && Enabled(t, a) && IsLastCheck(t, a) && Steps(Next(t, a), more, s')
    decreases |run|
  {
    hide Next, Enabled, Reached, IsStored;
    if IsLastCheck(s, run[0]) {
      t, a, more := s, run[0], run[1..];
    } else {
      OneMore(q, s, run[0]);
      var u := Next(s, run[0]);
      StaysBefore(q, s, run[0], run[1..], s');
      t, a, more := PassesLastCheck(q, u, run[1..], s');
    }
  }

  /** The same, said of whole runs: there is one step that decides. */
  lemma StoredAndNeverFinished(q: Query, run: seq<Label>, s: State) returns (t: State, a: Label, more: seq<Label>)
    requires Steps(Start(q), run, s) && s.pc.End? && IsStored(s) && !WriteFailed(s)
    ensures Reached(q, t) && Enabled(t, a) && IsLastCheck(t, a) && Steps(Next(t, a), more, s)
    ensures s.finishes == [] <==> t.pump.core.cancelled && t.finishes == []
  {
    hide Next, Enabled, Reached, Steps, IsStored, WriteFailed;
    Begins(q);
    t, a, more := PassesLastCheck(q, Start(q), run, s);
    FinishIsNeverCalled(q, t, a, more, s);
  }

  lemma StaysBefore(q: Query, s: State, a: Label, run: seq<Label>, s': State)
    requires Reached(q, s) && BeforeLastCheck(s.pc) && Enabled(s, a) && !IsLastCheck(s, a)
    requires Steps(Next(s, a), run, s') && IsStored(s')
    ensures BeforeLastCheck(Next(s, a).pc)
  {
    hide Next, Steps, RowsOk, PumpOk, AnswerKept, SendsMeet, OneFinal, FinishedOnce, EndsFinished;
    var t := Next(s, a);
    ReachedInv(q, s);
    if !BeforeLastCheck(t.pc) {
      GivingUp(s, a);
      NeverStored(t, run, s');
    }
  }

  lemma GivingUp(s: State, a: Label)
    requires RowsOk(s) && Enabled(s, a)
    requires BeforeLastCheck(s.pc) && !IsLastCheck(s, a) && !BeforeLastCheck(Next(s, a).pc)
    ensures GivesUp(Next(s, a).pc) && !IsStored(Next(s, a))
  {
    hide P.Next, P.Enabled;
  }

  lemma {:induction false} NeverStored(s: State, run: seq<Label>, s': State)
    requires GivesUp(s.pc) && !IsStored(s) && Steps(s, run, s')
    ensures !IsStored(s')
    decreases |run|
  {
    hide Next, Enabled;
    if run != [] {
      NotStoredStep(s, run[0]);
      NeverStored(Next(s, run[0]), run[1..], s');
    }
  }

  lemma NotStoredStep(s: State, a: Label)
    requires GivesUp(s.pc) && !IsStored(s) && Enabled(s, a)
    ensures GivesUp(Next(s, a).pc) && !IsStored(Next(s, a))
  {
    hide P.Next, P.Enabled;
  }

  /** A run that stored its question writes at most one answer row, after it, that points at it. */
  lemma AnswerPointsAtQuestion(q: Query, s: State)
    requires Reached(q, s) && IsStored(s)
    ensures |s.rows| <= 2
    ensures |s.rows| == 2 ==> s.rows[1].role.Assistant? && s.rows[1].prev == s.rows[0].id
  {
    hide SendsMeet, AnswerKept, OneFinal, PumpOk, FinishedOnce, EndsFinished;
    ReachedInv(q, s);
  }

  /** Until it has ended the pool thread has a step to take, unless its flush waits for another thread's. */
  lemma PoolIsNeverStuck(q: Query, s: State, a: Label)
    requires Reached(q, s) && !s.pc.End? && a.Pool?
    ensures Enabled(s, a)
            || (q.serialised && s.pc.SendFlush?
                && exists t | t in s.pump.threads :: t != POOL && P.Flushing(s.pump.threads[t]))
  {
    hide SendsMeet, AnswerKept, OneFinal, FinishedOnce, RowsOk, EndsFinished, P.Inv, OthersSendLate;
    ReachedInv(q, s);
    NeverUnserialised(q, s);
  }

  // ------------------------------------------------------------ single steps and sends, for the runs below

  lemma {:induction false} StepsThen(s: State, run: seq<Label>, s': State, a: Label)
    requires Steps(s, run, s') && Enabled(s', a)
    ensures Steps(s, run + [a], Next(s', a))
    decreases |run|
  {
    hide Next, Enabled;
    if run == [] {
      assert [a][1..] == [];
      assert run + [a] == [a];
      assert Steps(Next(s, a), [], Next(s, a));
    } else {
      StepsThen(Next(s, run[0]), run[1..], s', a);
      assert (run + [a])[0] == run[0] && (run + [a])[1..] == run[1..] + [a];
    }
  }

  lemma OneMore(q: Query, s: State, a: Label)
    requires Reached(q, s) && Enabled(s, a)
    ensures Reached(q, Next(s, a))
  {
    hide Next, Steps, Enabled;
    var start := Start(q);
    var run :| Steps(start, run, s);
    StepsThen(start, run, s, a);
  }

  /** Two steps of the pool thread. */
  lemma TwoMore(q: Query, s: State, a: Label) returns (s': State)
    requires Reached(q, s) && Enabled(s, a) && Enabled(Next(s, a), a)
    ensures Reached(q, s') && s' == Next(Next(s, a), a)
  {
    hide Next, Enabled, Reached;
    OneMore(q, s, a);
    OneMore(q, Next(s, a), a);
    s' := Next(Next(s, a), a);
  }

  /** The pool thread alone in the pump, with its operation there and the shared state. */
  function Alone(s: State, core: P.Core, pc: P.Pc): State {
    s.(pump := s.pump.(core := core, threads := map[POOL := pc]))
  }

  function Left(s: State, core: P.Core, pc: Pc): State {
    s.(pump := s.pump.(core := core, threads := map[]), pc := pc)
  }

  /** One operation of a flush. */
  lemma FlushMore(q: Query, s: State, a: Label, core: P.Core, pc: P.Pc) returns (s': State)
    requires Reached(q, Alone(s, core, pc)) && a.Pool? && s.pc.SendFlush? && !pc.DrainQueue?
    ensures Reached(q, s')
    ensures var e := P.Perform(s.pump.kind, core, pc);
            s' == if e.pc.Some? then Alone(s, e.core, e.pc.value) else Left(s, e.core, Resume(s.pc.next))
  {
    hide Reached, P.Perform;
    var before := Alone(s, core, pc);
    OneMore(q, before, a);
    s' := Next(before, a);
    var e := P.Perform(s.pump.kind, core, pc);
    assert s'.pump.threads == if e.pc.Some? then map[POOL := e.pc.value] else map[];
  }

  /** In `_send`, the reactor not cancelled: the message is put in the queue. */
  lemma SendPuts(q: Query, s: State, a: Label, core: P.Core) returns (s': State)
    requires Reached(q, Alone(s, core, P.SendLoadCancelled)) && a.Pool? && s.pc.SendCheck? && !core.cancelled
    ensures Reached(q, s')
    ensures s' == Alone(s.(pc := SendFlush(s.pc.next), accepted := s.accepted + [s.pc.m]),
                        core.(queue := core.queue + [core.accepted], accepted := core.accepted + 1), P.FlushLoadWriting)
  {
    hide Reached;
    var before := Alone(s, core, P.SendLoadCancelled);
    OneMore(q, before, a);
    var s1 := Next(before, a);
    assert s1.pump.threads == map[POOL := P.SendPut];
    OneMore(q, s1, a);
    s' := Next(s1, a);
    assert s'.pump.threads == map[POOL := P.FlushLoadWriting];
  }

  /** In `_send`, the reactor idle: the message is started. */
  lemma SendStarts(q: Query, s: State, a: Label, core: P.Core) returns (s': State)
    requires Reached(q, Alone(s, core, P.SendLoadCancelled)) && a.Pool? && s.pc.SendCheck?
    requires !core.cancelled && !core.writing && core.queue == []
    ensures Reached(q, s')
    ensures var n := core.accepted;
            s' == Left(s.(accepted := s.accepted + [s.pc.m]),
                       P.Core(true, false, [], n + 1, core.started + [n], core.outstanding + 1), Resume(s.pc.next))
  {
    hide Reached;
    var n := core.accepted;
    s' := SendPuts(q, s, a, core);
    var t := s.(pc := SendFlush(s.pc.next), accepted := s.accepted + [s.pc.m]);
    var c := core.(queue := [n], accepted := n + 1);
    assert core.queue + [n] == [n];
    s' := FlushMore(q, t, a, c, P.FlushLoadWriting);
    s' := FlushMore(q, t, a, c, P.FlushLoadCancelled);
    s' := FlushMore(q, t, a, c, P.FlushTake);
    assert c.queue[1..] == [];
    s' := FlushMore(q, t, a, c.(queue := []), P.FlushMark(n));
    s' := FlushMore(q, t, a, c.(queue := [], writing := true), P.FlushStart(n));
  }

  /** In `_send`, a write outstanding: the message stays in the queue. */
  lemma SendQueues(q: Query, s: State, a: Label, core: P.Core) returns (s': State)
    requires Reached(q, Alone(s, core, P.SendLoadCancelled)) && a.Pool? && s.pc.SendCheck?
    requires !core.cancelled && core.writing
    ensures Reached(q, s')
    ensures s' == Left(s.(accepted := s.accepted + [s.pc.m]),
                       core.(queue := core.queue + [core.accepted], accepted := core.accepted + 1), Resume(s.pc.next))
  {
    hide Reached;
    s' := SendPuts(q, s, a, core);
    var t := s.(pc := SendFlush(s.pc.next), accepted := s.accepted + [s.pc.m]);
    var c := core.(queue := core.queue + [core.accepted], accepted := core.accepted + 1);
    s' := FlushMore(q, t, a, c, P.FlushLoadWriting);
  }

  /** A step of another thread that neither puts a message nor finishes the call. */
  lemma AroundMore(q: Query, s: State, b: P.Label, core: P.Core, threads: map<nat, P.Pc>, crossed: bool)
    requires Reached(q, s) && b.t != POOL && P.Enabled(s.pump, b) && !(b.Enter? && b.pc.SendLoadCancelled?)
    requires !P.Does(s.pump, b, P.SendPut) && !P.Does(s.pump, b, P.CallFinish)
    requires P.Next(s.pump, b) == s.pump.(core := core, threads := threads, crossed := crossed)
    ensures Reached(q, s.(pump := s.pump.(core := core, threads := threads, crossed := crossed)))
  {
    hide Reached, P.Next, P.Enabled;
    OneMore(q, s, Around(b));
    assert s.accepted + [] == s.accepted && s.finishes + [] == s.finishes;
  }

  // ------------------------------------------------------------ runs that show the limits

  /** A step of the pool thread in which inserts succeed, and the loop hands over `output`. */
  function Hands(output: string, watched: bool): Label { Pool(true, 1, output, OK, false, watched) }

  const IDLE := P.Core(false, false, [], 0, [], 0)

  /** A question that is not stored, its insert failed or no pipeline fits it: its error is sent, Finish never called. */
  lemma NotStoredNeverFinishes(q: Query) returns (s: State)
    ensures Reached(q, s) && s.pc.End? && !s.pump.core.cancelled && !IsStored(s) && s.finishes == []
    ensures s.accepted == [Message("", true, if q.pipeline.Other? then UNKNOWN_PIPELINE else SQLITE_EXEC_FAIL)]
  {
    hide Reached;
    var start, a := Start(q), Pool(false, 1, "", OK, false, true);
    var code := if q.pipeline.Other? then UNKNOWN_PIPELINE else SQLITE_EXEC_FAIL;
    var t := start.(pc := SendCheck(Message("", true, code), ToEnd));
    Begins(q);
    if q.pipeline.Other? {
      OneMore(q, start, a);
      s := Next(start, a);
    } else {
      s := TwoMore(q, start, a);
    }
    assert s.pump.threads == map[POOL := P.SendLoadCancelled];
    assert s == Alone(t, IDLE, P.SendLoadCancelled);
    s := SendStarts(q, t, a, IDLE);
  }

  /** The loop has returned without a piece. */
  lemma LoopEndsEmpty(q: Query) returns (s: State)
    requires !q.pipeline.Other?
    ensures Reached(q, s) && s.pc == AfterLoop(OK) && s.pump == Left(s, IDLE, Looping).pump
    ensures IsStored(s) && s.finishes == [] && !s.done && !s.pump.crossed && s.pump.kind == W.Query
  {
    hide Reached;
    s := InTheLoop(q);
    s := TwoMore(q, Left(s, IDLE, Looping), Pool(true, 1, "", OK, true, true));
  }

  /**
   A question that is stored: no piece comes, OnCancel lands after the loop and before the check that follows it, and the
   thread ends without Finish, with nothing left that could call it.
   */
  lemma CancelledAfterLoop(q: Query) returns (s: State)
    requires !q.pipeline.Other?
    ensures Reached(q, s) && s.pc.End? && IsStored(s) && s.finishes == [] && s.pump.core.cancelled && !s.done
    ensures s.pump.threads == map[] && s.pump.core.queue == [] && s.pump.core.outstanding == 0
  {
    hide Reached;
    s := CancelledAtCheck(q);
    OneMore(q, s, Hands("", true));
    s := Next(s, Hands("", true));
  }

  lemma CancelledAtCheck(q: Query) returns (s: State)
    requires !q.pipeline.Other?
    ensures Reached(q, s) && s.pc == AfterLoop(OK) && IsStored(s) && s.finishes == [] && !s.done
    ensures s.pump == Left(s, IDLE.(cancelled := true), Looping).pump
  {
    hide Reached;
    s := LoopEndsEmpty(q);
    AroundMore(q, s, P.Enter(1, P.JustCancel), IDLE, map[1 := P.JustCancel], false);
    s := s.(pump := s.pump.(threads := map[1 := P.JustCancel]));
    AroundMore(q, s, P.Move(1), IDLE.(cancelled := true), map[], false);
    s := s.(pump := s.pump.(core := IDLE.(cancelled := true), threads := map[]));
  }

  lemma Begins(q: Query)
    ensures Reached(q, Start(q))
  {
    assert Steps(Start(q), [], Start(q));
  }

  /** The question stored, the query loop about to hand over its first piece. */
  lemma InTheLoop(q: Query) returns (s: State)
    requires !q.pipeline.Other?
    ensures Reached(q, Left(s, IDLE, Looping)) && s.pipeline == q.pipeline && s.answer == "" && s.accepted == []
    ensures !s.done && s.pump.serialised == q.serialised && !s.pump.crossed && s.pump.kind == W.Query
    ensures IsStored(s) && s.finishes == []
  {
    hide Reached;
    var start, a := Start(q), Hands("", true);
    Begins(q);
    var s2 := TwoMore(q, start, a);
    OneMore(q, s2, a);
    s := Next(s2, a);
    assert s == Left(s, IDLE, Looping);
  }

  /** The callback is given a piece and calls `_send` with it. */
  lemma PieceSent(q: Query, s: State, core: P.Core, output: string) returns (t: State)
    requires Reached(q, Left(s, core, Looping)) && output != "" && !core.cancelled
    ensures t == s.(answer := s.answer + output, pc := SendCheck(Message(output, false, OK), ToLoop))
    ensures Reached(q, Alone(t, core, P.SendLoadCancelled))
  {
    hide Reached;
    t := s.(answer := s.answer + output, pc := SendCheck(Message(output, false, OK), ToLoop));
    var before := Left(s, core, Looping);
    var s2 := TwoMore(q, before, Hands(output, true));
    assert s2.pump.threads == map[POOL := P.SendLoadCancelled];
    assert s2 == Alone(t, core, P.SendLoadCancelled);
  }

  /** The first piece is being written, the second and third are queued. */
  lemma ThreePieces(q: Query) returns (s: State)
    requires !q.pipeline.Other? && q.serialised
    ensures Reached(q, s) && s.pump == P.State(W.Query, true, P.Core(true, false, [1, 2], 3, [0], 1), map[], false)
    ensures s.answer == "abc"
    ensures s.accepted == [Message("a", false, OK), Message("b", false, OK), Message("c", false, OK)]
  {
    hide Reached;
    var a := Hands("", true);
    s := InTheLoop(q);
    var t := PieceSent(q, s, IDLE, "a");
    s := SendStarts(q, t, a, IDLE);
    var c1 := P.Core(true, false, [], 1, [0], 1);
    assert IDLE.started + [0] == [0] && s.accepted == [Message("a", false, OK)] && s == Left(s, c1, Looping);
    t := PieceSent(q, s, c1, "b");
    s := SendQueues(q, t, a, c1);
    var c2 := P.Core(true, false, [1], 2, [0], 1);
    assert [] + [1] == [1] && s == Left(s, c2, Looping);
    t := PieceSent(q, s, c2, "c");
    s := SendQueues(q, t, a, c2);
    assert [1] + [2] == [1, 2];
    assert "" + "a" == "a" && "a" + "b" == "ab" && "ab" + "c" == "abc";
  }

  /** OnWriteDone of the first piece has cleared `_is_writing`. */
  lemma WriteReturned(q: Query) returns (s: State)
    requires !q.pipeline.Other? && q.serialised
    ensures Reached(q, s) && s.answer == "abc"
    ensures s.pump == P.State(W.Query, true, P.Core(false, false, [1, 2], 3, [0], 0), map[1 := P.FlushLoadWriting], false)
    ensures s.accepted == [Message("a", false, OK), Message("b", false, OK), Message("c", false, OK)]
  {
    hide Reached;
    s := ThreePieces(q);
    var c := P.Core(true, false, [1, 2], 3, [0], 0);
    AroundMore(q, s, P.Completed(1, true), c, map[1 := P.DoneClear(true)], false);
    s := s.(pump := P.State(W.Query, true, c, map[1 := P.DoneClear(true)], false));
    c := c.(writing := false);
    AroundMore(q, s, P.Move(1), c, map[1 := P.FlushLoadWriting], false);
    s := s.(pump := s.pump.(core := c, threads := map[1 := P.FlushLoadWriting]));
  }

  /** It is in its flush, past both checks. */
  lemma FlushUnderWay(q: Query) returns (s: State)
    requires !q.pipeline.Other? && q.serialised
    ensures Reached(q, s) && s.answer == "abc"
    ensures s.pump == P.State(W.Query, true, P.Core(false, false, [1, 2], 3, [0], 0), map[1 := P.FlushTake], false)
    ensures s.accepted == [Message("a", false, OK), Message("b", false, OK), Message("c", false, OK)]
  {
    hide Reached;
    s := WriteReturned(q);
    var c := s.pump.core;
    AroundMore(q, s, P.Move(1), c, map[1 := P.FlushLoadCancelled], false);
    s := s.(pump := s.pump.(threads := map[1 := P.FlushLoadCancelled]));
    AroundMore(q, s, P.Move(1), c, map[1 := P.FlushTake], false);
    s := s.(pump := s.pump.(threads := map[1 := P.FlushTake]));
  }

  /** A Stop has begun. */
  lemma StopBegun(q: Query) returns (s: State)
    requires !q.pipeline.Other? && q.serialised
    ensures Reached(q, s) && s.answer == "abc"
    ensures s.pump == P.State(W.Query, true, P.Core(false, false, [1, 2], 3, [0], 0),
                              map[1 := P.FlushTake, 2 := P.StopCancel], false)
    ensures s.accepted == [Message("a", false, OK), Message("b", false, OK), Message("c", false, OK)]
  {
    hide Reached;
    s := FlushUnderWay(q);
    AroundMore(q, s, P.Enter(2, P.StopCancel), s.pump.core, map[1 := P.FlushTake, 2 := P.StopCancel], false);
    s := s.(pump := s.pump.(threads := map[1 := P.FlushTake, 2 := P.StopCancel]));
  }

  /** It has cancelled the reactor and is about to drain the queue. */
  lemma StopCalled(q: Query) returns (s: State)
    requires !q.pipeline.Other? && q.serialised
    ensures Reached(q, s) && s.answer == "abc"
    ensures s.pump == P.State(W.Query, true, P.Core(false, true, [1, 2], 3, [0], 0),
                              map[1 := P.FlushTake, 2 := P.DrainQueue(false)], false)
    ensures s.accepted == [Message("a", false, OK), Message("b", false, OK), Message("c", false, OK)]
  {
    hide Reached;
    s := StopBegun(q);
    var c := s.pump.core.(cancelled := true);
    AroundMore(q, s, P.Move(2), c, map[1 := P.FlushTake, 2 := P.StopClear], false);
    s := s.(pump := s.pump.(core := c, threads := map[1 := P.FlushTake, 2 := P.StopClear]));
    AroundMore(q, s, P.Move(2), c, map[1 := P.FlushTake, 2 := P.DrainQueue(false)], false);
    s := s.(pump := s.pump.(threads := map[1 := P.FlushTake, 2 := P.DrainQueue(false)]));
  }

  /** It has drained the second piece. */
  lemma StopUnderWay(q: Query) returns (s: State)
    requires !q.pipeline.Other? && q.serialised
    ensures Reached(q, s) && s.answer == "abc"
    ensures s.pump == P.State(W.Query, true, P.Core(false, true, [2], 3, [0], 0),
                              map[1 := P.FlushTake, 2 := P.DrainQueue(false)], true)
    ensures s.accepted == [Message("a", false, OK), Message("b", false, OK), Message("c", false, OK)]
  {
    hide Reached;
    s := StopCalled(q);
    assert 1 in s.pump.threads && s.pump.threads[1].FlushTake? && [1, 2][1..] == [2];
    var c := s.pump.core.(queue := [2]);
    AroundMore(q, s, P.Move(2), c, map[1 := P.FlushTake, 2 := P.DrainQueue(false)], true);
    s := s.(pump := s.pump.(core := c, crossed := true));
  }

  /**
   A Stop that crosses the flush of an OnWriteDone, flushes not overlapping: the client is sent the first and third
   pieces of the answer and not the second.
   */
  lemma StopMaySkipAPiece(q: Query) returns (s: State)
    requires !q.pipeline.Other? && q.serialised
    ensures Reached(q, s) && s.pump.crossed && s.answer == "abc" && |s.accepted| == 3 && s.pump.core.started == [0, 2]
    ensures Contents(P.Written(s.accepted, s.pump.core.started)) == "ac"
    ensures !(Contents(P.Written(s.accepted, s.pump.core.started)) <= s.answer)
  {
    hide Reached, Contents;
    s := StopUnderWay(q);
    var c, stop := s.pump.core.(queue := []), P.DrainQueue(false);
    assert [2][1..] == [];
    AroundMore(q, s, P.Move(1), c, map[1 := P.FlushMark(2), 2 := stop], true);
    s := s.(pump := s.pump.(core := c, threads := map[1 := P.FlushMark(2), 2 := stop]));
    c := c.(writing := true);
    AroundMore(q, s, P.Move(1), c, map[1 := P.FlushStart(2), 2 := stop], true);
    s := s.(pump := s.pump.(core := c, threads := map[1 := P.FlushStart(2), 2 := stop]));
    c := c.(started := [0, 2], outstanding := 1);
    assert [0] + [2] == [0, 2];
    AroundMore(q, s, P.Move(1), c, map[2 := stop], true);
    s := s.(pump := s.pump.(core := c, threads := map[2 := stop]));
    assert P.Written(s.accepted, [0, 2]) == [s.accepted[0], s.accepted[2]];
    ContentsMore([], s.accepted[0]);
    ContentsMore([s.accepted[0]], s.accepted[2]);
    assert [] + [s.accepted[0]] == [s.accepted[0]] && [s.accepted[0]] + [s.accepted[2]] == [s.accepted[0], s.accepted[2]];
    ContentsNone();
    assert "ac"[1] != "abc"[1];
  }

  lemma ContentsNone()
    ensures Contents([]) == ""
  {
  }

  /** The first piece was refused and sent as final; the loop has returned. */
  lemma PieceRefused(q: Query) returns (s: State)
    requires q.pipeline.Local?
    ensures Reached(q, s) && !s.done && s.pc.LoopReturned? && s.accepted == [Message("x", true, OK)]
    ensures s == Left(s, P.Core(true, false, [], 1, [0], 1), LoopReturned)
  {
    hide Reached;
    var a := Hands("x", false);
    s := InTheLoop(q);
    var before := Left(s, IDLE, Looping);
    var t := s.(refused := true, pc := SendCheck(Message("x", true, OK), ToLoopReturn));
    s := TwoMore(q, before, a);
    assert s.pump.threads == map[POOL := P.SendLoadCancelled];
    assert s == Alone(t, IDLE, P.SendLoadCancelled);
    s := SendStarts(q, t, a, IDLE);
    assert IDLE.started + [0] == [0];
  }

  /** A refused piece is sent as final, and so is the end of the loop: the bound above does rest on `watch`. */
  lemma RefusalSendsTwoFinals(q: Query) returns (s: State)
    requires q.pipeline.Local?
    ensures Reached(q, s) && !s.done && s.accepted == [Message("x", true, OK), Message("", true, OK)]
  {
    hide Reached;
    var a := Hands("x", false);
    s := PieceRefused(q);
    var c := s.pump.core;
    var t := s.(pc := SendCheck(Message("", true, OK), ToLastFinish));
    s := TwoMore(q, s, a);
    assert s.pump.threads == map[POOL := P.SendLoadCancelled];
    assert s == Alone(t, c, P.SendLoadCancelled);
    s := SendQueues(q, t, a, c);
  }
}
