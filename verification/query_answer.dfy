/**
 What a query run stores and what it sends, said of whole runs: the rows in the database against the question,
 the pieces the loop handed over and the messages of the client.
 */
module QueryAnswer {
  import opened Common
  import opened QueryRun
  import P = PumpSteps
  import W = WritePump

  // ------------------------------------------------------------ the rows

  /** Once Finish was called nothing is added to `_answer`. */
  ghost predicate Settled(s: State) {
    && (s.finishes != [] ==> s.pump.core.cancelled || s.pc.End?)
    && (s.done ==> s.finishes != [])
  }

  /** The question as it came, and its row. */
  ghost predicate Origin(q: Query, s: State) {
    && s.content == q.content
    && (Early(s.pc) ==> s.currId == q.msgId && s.prevId == 0)
    && (IsStored(s) ==> s.rows[0] == Row(q.msgId, User, q.content, 0))
  }

  /** The row of the answer. */
  ghost predicate AnswerRow(s: State) {
    IsStored(s) && |s.rows| == 2 ==>
      s.done && s.rows[1].id == s.currId && s.rows[1].content == s.answer
  }

  ghost predicate Stored(q: Query, s: State) { Settled(s) && Origin(q, s) && AnswerRow(s) }

  /** What a step of the pool thread leaves alone. */
  lemma PoolKeeps(s: State, a: Label)
    requires Enabled(s, a) && a.Pool?
    ensures var s' := Next(s, a);
            && s'.content == s.content && s'.done == s.done
            && (!Early(s.pc) ==> s'.currId == s.currId && s'.prevId == s.prevId && s'.rows == s.rows && !Early(s'.pc))
            && (s.pc.End? ==> s'.pc.End?)
            && (s'.answer == s.answer || (s.pc.Callback? && !s.pump.core.cancelled))
  {
    hide P.Next, P.Enabled, Resume;
    ResumeIsLate();
  }

  lemma OthersKeep(s: State, a: Label)
    requires Enabled(s, a) && !a.Pool?
    ensures var s' := Next(s, a);
            && s'.content == s.content && s'.pc == s.pc && s'.answer == s.answer
            && s'.currId == s.currId && s'.prevId == s.prevId
            && ((s'.rows == s.rows && (s'.done == s.done || (a.OnDone? && !s.done)))
                || (a.OnDone? && !s.done && s'.done
                    && s'.rows == s.rows + [Row(s.currId, Assistant, s.answer, s.prevId)]))
            && (s'.done && !s.done ==> s.finishes != [] && s'.finishes == s.finishes)
  {
    hide P.Next, P.Enabled;
  }

  lemma SettledStep(s: State, a: Label)
    requires PumpOk(s) && SendsMeet(s) && Settled(s) && Enabled(s, a)
    ensures Settled(Next(s, a))
  {
    hide P.Next, P.Enabled, P.Inv, Joined, OthersSendLate;
    if a.Pool? {
      PoolKeeps(s, a);
      PoolPump(s, a);
    } else {
      OthersKeep(s, a);
      OthersPump(s, a);
      if a.Around? && P.Does(s.pump, a.a, P.CallFinish) { FinishIsAfterCancel(s.pump, a.a); }
    }
  }

  lemma FinishIsAfterCancel(p: P.State, b: P.Label)
    requires P.Inv(p) && P.Does(p, b, P.CallFinish)
    ensures p.core.cancelled
  {
    assert P.At(p, b.t, P.CallFinish) && P.AfterCancel(P.CallFinish);
  }

  lemma OriginEarly(q: Query, s: State, a: Label)
    requires RowsOk(s) && Origin(q, s) && Enabled(s, a) && a.Pool? && Early(s.pc)
    ensures Origin(q, Next(s, a))
  {
    hide P.Next, P.Enabled;
  }

  lemma OriginStep(q: Query, s: State, a: Label)
    requires RowsOk(s) && Origin(q, s) && Enabled(s, a)
    ensures Origin(q, Next(s, a))
  {
    hide Next, Enabled;
    if a.Pool? {
      PoolKeeps(s, a);
      if Early(s.pc) { OriginEarly(q, s, a); }
    } else {
      OthersKeep(s, a);
    }
  }

  lemma AnswerRowStep(s: State, a: Label)
    requires RowsOk(s) && Settled(s) && AnswerRow(s) && Enabled(s, a)
    ensures AnswerRow(Next(s, a))
  {
    hide Next, Enabled;
    if a.Pool? {
      PoolKeeps(s, a);
      if Early(s.pc) { RowsOkEarly(s, a); EarlyRows(s, a); }
    } else {
      OthersKeep(s, a);
    }
  }

  lemma EarlyRows(s: State, a: Label)
    requires RowsOk(s) && Enabled(s, a) && a.Pool? && Early(s.pc)
    ensures |Next(s, a).rows| <= 1
  {
    hide P.Next, P.Enabled;
  }

  lemma {:induction false} StoredRun(q: Query, s: State, run: seq<Label>, s': State)
    requires QueryRun.Inv(s) && Stored(q, s) && Steps(s, run, s')
    ensures Stored(q, s')
    decreases |run|
  {
    hide Next, Enabled, PumpOk, AnswerKept, SendsMeet, OneFinal, FinishedOnce, RowsOk, EndsFinished;
    hide Settled, Origin, AnswerRow;
    if run != [] {
      SettledStep(s, run[0]);
      OriginStep(q, s, run[0]);
      AnswerRowStep(s, run[0]);
      InvStep(s, run[0]);
      StoredRun(q, Next(s, run[0]), run[1..], s');
    }
  }

  lemma ReachedStored(q: Query, s: State)
    requires Reached(q, s)
    ensures Stored(q, s)
  {
    hide Next, Enabled, QueryRun.Inv;
    var run :| Steps(Start(q), run, s);
    StartInv(q);
    StoredRun(q, Start(q), run, s);
  }

  /**
   Main result. The first row of a stored query is the question as it came, and the second, if there is one, the whole
   of `_answer` under the id drawn after the question was stored, pointing at the question.
   */
  lemma RowsAreQuestionAndAnswer(q: Query, run: seq<Label>, s: State)
    requires Steps(Start(q), run, s) && IsStored(s)
    ensures s.rows[0] == Row(q.msgId, User, q.content, 0)
    ensures |s.rows| <= 2
    ensures |s.rows| == 2 ==>
              && Drawn(Start(q), run).Some?
              && s.rows[1] == Row(Drawn(Start(q), run).value, Assistant, s.answer, q.msgId)
  {
    hide Next, Enabled, PumpOk, AnswerKept, SendsMeet, OneFinal, FinishedOnce, EndsFinished, Drawn;
    assert Reached(q, s);
    ReachedStored(q, s);
    ReachedInv(q, s);
    if |s.rows| == 2 {
      StartInv(q);
      DrawnIsCurrent(Start(q), run, s);
    }
  }

  /** The id the pool thread draws once the question is stored. */
  ghost function Drawn(s: State, run: seq<Label>): Option<int>
    decreases |run|
  {
    if run == [] || !Enabled(s, run[0]) then None
    else if run[0].Pool? && s.pc.NewId? then Some(run[0].newId)
    else Drawn(Next(s, run[0]), run[1..])
  }

  lemma {:induction false} LateIdStays(s: State, run: seq<Label>, s': State)
    requires !Early(s.pc) && Steps(s, run, s')
    ensures s'.currId == s.currId
    decreases |run|
  {
    hide Next, Enabled;
    if run != [] {
      if run[0].Pool? { PoolKeeps(s, run[0]); } else { OthersKeep(s, run[0]); }
      LateIdStays(Next(s, run[0]), run[1..], s');
    }
  }

  /** A step of the early part: it stays there, draws the id, or gives the question up unstored. */
  lemma EarlyStep(s: State, a: Label)
    requires RowsOk(s) && Early(s.pc) && Enabled(s, a)
    ensures var s' := Next(s, a);
            || (Early(s'.pc) && !(a.Pool? && s.pc.NewId?))
            || (a.Pool? && s.pc.NewId? && s'.currId == a.newId && !Early(s'.pc))
            || (GivesUp(s'.pc) && !IsStored(s') && !(a.Pool? && s.pc.NewId?))
  {
    hide P.Next, P.Enabled;
  }

  lemma {:induction false} DrawnIsCurrent(s: State, run: seq<Label>, s': State)
    requires QueryRun.Inv(s) && Early(s.pc) && Steps(s, run, s') && IsStored(s') && !Early(s'.pc)
    ensures Drawn(s, run) == Some(s'.currId)
    decreases |run|
  {
    hide Next, Enabled, PumpOk, AnswerKept, SendsMeet, OneFinal, FinishedOnce, RowsOk, EndsFinished, IsStored;
    if run != [] {
      var t := Next(s, run[0]);
      EarlyStep(s, run[0]);
      InvStep(s, run[0]);
      if run[0].Pool? && s.pc.NewId? {
        LateIdStays(t, run[1..], s');
      } else if Early(t.pc) {
        DrawnIsCurrent(t, run[1..], s');
      } else {
        NeverStored(t, run[1..], s');
        assert false;
      }
    }
  }

  /**
   In a run that ended and was never cancelled the stored answer is the text of the messages accepted; at rest, with
   flushes one at a time, the text the client was sent.
   */
  lemma StoredIsSent(q: Query, s: State)
    requires Reached(q, s) && IsStored(s) && |s.rows| == 2 && s.pc.End? && !s.pump.core.cancelled
    ensures s.rows[1].content == Contents(s.accepted)
    ensures forall i | 0 <= i < |s.pump.core.started| :: s.pump.core.started[i] < |s.accepted|
    ensures q.serialised && P.Quiet(s.pump) ==>
              s.rows[1].content == Contents(P.Written(s.accepted, s.pump.core.started))
  {
    hide SendsMeet, OneFinal, FinishedOnce, RowsOk, EndsFinished, Contents, P.Inv, Joined, OthersSendLate;
    ReachedStored(q, s);
    ReachedInv(q, s);
    NeverUnserialised(q, s);
    P.WrittenIsPrefix(s.pump, s.accepted);
    assert Contents(s.accepted) + "" == Contents(s.accepted);
  }

  // ------------------------------------------------------------ the pieces

  /** What the loop handed to the callback, in order. */
  ghost function Handed(s: State, run: seq<Label>): string
    decreases |run|
  {
    if run == [] || !Enabled(s, run[0]) then "" else
      (if run[0].Pool? && s.pc.Callback? then s.pc.output else "") + Handed(Next(s, run[0]), run[1..])
  }

  lemma HandedStep(s: State, a: Label)
    requires PumpOk(s) && Enabled(s, a) && !Next(s, a).pump.core.cancelled && !Next(s, a).refused
    ensures !s.pump.core.cancelled && !s.refused
    ensures Next(s, a).answer == s.answer + if a.Pool? && s.pc.Callback? then s.pc.output else ""
  {
    hide P.Next, P.Enabled, P.Inv, Joined, OthersSendLate;
    assert s.answer + "" == s.answer;
    if a.Pool? { PoolPump(s, a); } else { OthersPump(s, a); }
  }

  lemma {:induction false} HandedRun(s: State, run: seq<Label>, s': State)
    requires QueryRun.Inv(s) && Steps(s, run, s') && !s'.pump.core.cancelled && !s'.refused
    ensures !s.pump.core.cancelled && !s.refused && s'.answer == s.answer + Handed(s, run)
    decreases |run|
  {
    hide Next, Enabled, QueryRun.Inv;
    if run == [] {
      assert s.answer + "" == s.answer;
    } else {
      var t := Next(s, run[0]);
      InvStep(s, run[0]);
      HandedRun(t, run[1..], s');
      InvIsPumpOk(s);
      HandedStep(s, run[0]);
      var now := if run[0].Pool? && s.pc.Callback? then s.pc.output else "";
      assert (s.answer + now) + Handed(t, run[1..]) == s.answer + (now + Handed(t, run[1..]));
    }
  }

  /** While nothing was cancelled or refused, `_answer` is all the loop handed over, piece after piece. */
  lemma AnswerIsAllHanded(q: Query, run: seq<Label>, s: State)
    requires Steps(Start(q), run, s) && !s.pump.core.cancelled && !s.refused
    ensures s.answer == Handed(Start(q), run)
  {
    hide Next, Enabled, QueryRun.Inv;
    StartInv(q);
    HandedRun(Start(q), run, s);
    assert "" + Handed(Start(q), run) == Handed(Start(q), run);
  }

  // ------------------------------------------------------------ the final message

  /** The code of the loop is on its way to the client, or accepted as the last message. */
  ghost predicate CodeKept(s: State, code: int) {
    s.pump.core.cancelled || s.done ||
    match s.pc
    case SendCheck(m, next) => next == ToLastFinish && m == Message("", true, code)
    case SendPut(m, next) => next == ToLastFinish && m == Message("", true, code)
    case SendFlush(next) => next == ToLastFinish && EndsWith(s.accepted, Message("", true, code))
    case LastFinish => EndsWith(s.accepted, Message("", true, code))
    case End => EndsWith(s.accepted, Message("", true, code))
    case _ => false
  }

  predicate EndsWith(ms: seq<Message>, m: Message) { ms != [] && ms[|ms| - 1] == m }

  lemma CodeKeptStep(s: State, a: Label, code: int)
    requires PumpOk(s) && CodeKept(s, code) && Enabled(s, a)
    ensures CodeKept(Next(s, a), code)
  {
    hide P.Next, P.Enabled, P.Inv, Joined, OthersSendLate;
    if a.Pool? {
      PoolPump(s, a);
      PoolKeeps(s, a);
    } else {
      OthersPump(s, a);
      OthersKeep(s, a);
    }
  }

  lemma {:induction false} CodeKeptRun(s: State, run: seq<Label>, s': State, code: int)
    requires QueryRun.Inv(s) && CodeKept(s, code) && Steps(s, run, s')
    ensures CodeKept(s', code)
    decreases |run|
  {
    hide Next, Enabled, QueryRun.Inv, CodeKept;
    if run != [] {
      InvIsPumpOk(s);
      CodeKeptStep(s, run[0], code);
      InvStep(s, run[0]);
      CodeKeptRun(Next(s, run[0]), run[1..], s', code);
    }
  }

  /**
   The last message of a run that stored its question and ended, before OnDone and never cancelled, is final and carries
   the code the loop returned with.
   */
  lemma LastMessageCarriesTheCode(q: Query, run: seq<Label>, s: State) returns (t: State)
    requires Steps(Start(q), run, s) && s.pc.End? && IsStored(s) && !s.pump.core.cancelled && !s.done
    ensures Reached(q, t) && t.pc.AfterLoop?
    ensures s.accepted != [] && s.accepted[|s.accepted| - 1] == Message("", true, t.pc.code)
  {
    hide Next, Enabled, Reached, Steps, IsStored, QueryRun.Inv;
    Begins(q);
    var a, more;
    t, a, more := PassesLastCheck(q, Start(q), run, s);
    ReachedInv(q, t);
    InvIsPumpOk(t);
    FromTheCheck(t, a);
    InvStep(t, a);
    CodeKeptRun(Next(t, a), more, s, t.pc.code);
  }

  lemma FromTheCheck(t: State, a: Label)
    requires PumpOk(t) && Enabled(t, a) && IsLastCheck(t, a)
    ensures CodeKept(Next(t, a), t.pc.code)
  {
    hide P.Next, P.Enabled, P.Inv, Joined, OthersSendLate;
    PoolPump(t, a);
  }

  /** Every message that is not final is a piece: not empty, and without an error. */
  ghost predicate PiecesOk(s: State) {
    && (forall i | 0 <= i < |s.accepted| && !s.accepted[i].isFinished :: IsPiece(s.accepted[i]))
    && (s.pc.SendCheck? || s.pc.SendPut? ==> s.pc.m.isFinished || IsPiece(s.pc.m))
  }

  predicate IsPiece(m: Message) { m.content != "" && m.errorCode == OK }

  lemma PiecesOkStep(s: State, a: Label)
    requires PumpOk(s) && PiecesOk(s) && Enabled(s, a)
    ensures PiecesOk(Next(s, a))
  {
    hide P.Next, P.Enabled, P.Inv, Joined, OthersSendLate;
    if a.Pool? { PoolPump(s, a); } else { OthersPump(s, a); }
  }

  lemma {:induction false} PiecesRun(s: State, run: seq<Label>, s': State)
    requires QueryRun.Inv(s) && PiecesOk(s) && Steps(s, run, s')
    ensures PiecesOk(s')
    decreases |run|
  {
    hide Next, Enabled, QueryRun.Inv, PiecesOk;
    if run != [] {
      InvIsPumpOk(s);
      PiecesOkStep(s, run[0]);
      InvStep(s, run[0]);
      PiecesRun(Next(s, run[0]), run[1..], s');
    }
  }

  /** The messages of a query that are not final are its pieces: not empty, and without an error. */
  lemma OthersArePieces(q: Query, s: State, i: nat)
    requires Reached(q, s) && i < |s.accepted| && !s.accepted[i].isFinished
    ensures s.accepted[i].content != "" && s.accepted[i].errorCode == OK
  {
    hide Next, Enabled, QueryRun.Inv;
    var run :| Steps(Start(q), run, s);
    StartInv(q);
    PiecesRun(Start(q), run, s);
  }

  // ------------------------------------------------------------ the watch dog

  lemma RefusedStep(s: State, a: Label)
    requires Enabled(s, a) && (s.refused ==> s.pipeline.Local?)
    ensures Next(s, a).pipeline == s.pipeline && (Next(s, a).refused ==> s.pipeline.Local?)
  {
    hide P.Next, P.Enabled, Resume;
  }

  lemma {:induction false} RefusedRun(s: State, run: seq<Label>, s': State)
    requires Steps(s, run, s') && (s.refused ==> s.pipeline.Local?)
    ensures s'.pipeline == s.pipeline && (s'.refused ==> s.pipeline.Local?)
    decreases |run|
  {
    hide Next, Enabled;
    if run != [] {
      RefusedStep(s, run[0]);
      RefusedRun(Next(s, run[0]), run[1..], s');
    }
  }

  /** Only the local path asks the watch dog. */
  lemma OnlyLocalIsRefused(q: Query, s: State)
    requires Reached(q, s) && s.refused
    ensures q.pipeline.Local?
  {
    hide Next, Enabled;
    var run :| Steps(Start(q), run, s);
    RefusedRun(Start(q), run, s);
  }

  // ------------------------------------------------------------ a stop found in the callback

  ghost predicate WillHaveFinished(s: State) {
    || s.finishes != []
    || s.pc.StopFinish?
    || (s.pc.SendCheck? && s.pc.next == ToStopFinish && s.pump.core.cancelled)
  }

  lemma WillFinishStep(s: State, a: Label)
    requires PumpOk(s) && WillHaveFinished(s) && Enabled(s, a)
    ensures WillHaveFinished(Next(s, a))
  {
    hide P.Next, P.Enabled, P.Inv, Joined, OthersSendLate;
    if a.Pool? {
      PoolPump(s, a);
    } else {
      OthersPump(s, a);
      OthersKeep(s, a);
    }
  }

  lemma {:induction false} WillFinishRun(s: State, run: seq<Label>, s': State)
    requires QueryRun.Inv(s) && WillHaveFinished(s) && Steps(s, run, s')
    ensures WillHaveFinished(s')
    decreases |run|
  {
    hide Next, Enabled, QueryRun.Inv, WillHaveFinished;
    if run != [] {
      InvIsPumpOk(s);
      WillFinishStep(s, run[0]);
      InvStep(s, run[0]);
      WillFinishRun(Next(s, run[0]), run[1..], s');
    }
  }

  /** A callback that finds the reactor cancelled leads to Finish. */
  lemma CallbackStopFinishes(q: Query, s: State, a: Label, run: seq<Label>, s': State)
    requires Reached(q, s) && s.pc.Callback? && s.pump.core.cancelled && a.Pool? && Enabled(s, a)
    requires Steps(Next(s, a), run, s') && s'.pc.End?
    ensures s'.finishes != []
  {
    hide Enabled, QueryRun.Inv, Reached, Steps, P.Next, P.Enabled;
    ReachedInv(q, s);
    InvStep(s, a);
    InvIsPumpOk(s);
    PoolPump(s, a);
    WillFinishRun(Next(s, a), run, s');
  }

  // ------------------------------------------------------------ one whole run

  /** One piece was sent and is being written, and the loop has returned. */
  lemma OnePiece(q: Query, piece: string) returns (s: State)
    requires !q.pipeline.Other? && piece != ""
    ensures Reached(q, s) && s.pc == AfterLoop(OK) && IsStored(s) && s.answer == piece && s.finishes == [] && !s.done
    ensures s.pump == Left(s, P.Core(true, false, [], 1, [0], 1), Looping).pump
    ensures s.accepted == [Message(piece, false, OK)]
  {
    hide Reached;
    s := InTheLoop(q);
    assert s.answer + piece == piece;
    var t := PieceSent(q, s, IDLE, piece);
    s := SendStarts(q, t, Hands("", true), IDLE);
    assert IDLE.started + [0] == [0] && [] + [Message(piece, false, OK)] == [Message(piece, false, OK)];
    s := TwoMore(q, s, Pool(true, 1, "", OK, true, true));
  }

  /** Its end is sent, and Finish called. */
  lemma OnePieceFinished(q: Query, piece: string) returns (s: State)
    requires !q.pipeline.Other? && piece != ""
    ensures Reached(q, s) && s.pc.End? && IsStored(s) && s.answer == piece && s.finishes == [W.FinishOk] && !s.done
    ensures !s.pump.core.cancelled && s.pump.threads == map[]
    ensures s.accepted == [Message(piece, false, OK), Message("", true, OK)]
  {
    hide Reached;
    s := OnePiece(q, piece);
    var a, core := Hands("", true), s.pump.core;
    var t := s.(pc := SendCheck(Message("", true, OK), ToLastFinish));
    OneMore(q, s, a);
    s := Next(s, a);
    assert s.pump.threads == map[POOL := P.SendLoadCancelled];
    assert s == Alone(t, core, P.SendLoadCancelled);
    s := SendQueues(q, t, a, core);
    OneMore(q, s, a);
    s := Next(s, a);
  }

  /** For every query with a pipeline and every piece: a run in which it is the answer, sent and then stored. */
  lemma AnAnswerIsStored(q: Query, piece: string) returns (s: State)
    requires !q.pipeline.Other? && piece != ""
    ensures Reached(q, s) && s.done && !s.pump.core.cancelled && |s.rows| == 2 && s.rows[1].content == piece
    ensures s.accepted == [Message(piece, false, OK), Message("", true, OK)]
  {
    hide Reached;
    s := OnePieceFinished(q, piece);
    ReachedRows(q, s);
    OneMore(q, s, OnDone(1, true));
    s := Next(s, OnDone(1, true));
  }

  lemma ReachedRows(q: Query, s: State)
    requires Reached(q, s) && IsStored(s) && !s.done
    ensures |s.rows| == 1
  {
    hide SendsMeet, AnswerKept, OneFinal, PumpOk, FinishedOnce, EndsFinished;
    ReachedInv(q, s);
  }

  /** OnDone cannot store the answer: nothing is stored, and it calls `_send` on a thread of its own. */
  lemma OnDoneSends(q: Query, s: State, t: nat) returns (s': State)
    requires Reached(q, s) && Enabled(s, OnDone(t, false)) && !s.pump.core.cancelled
    ensures Reached(q, s') && s'.done && s'.rows == s.rows && s'.accepted == s.accepted && s'.pump.core == s.pump.core
    ensures P.At(s'.pump, t, P.SendPut)
  {
    hide Reached;
    OneMore(q, s, OnDone(t, false));
    var s1 := Next(s, OnDone(t, false));
    assert P.At(s1.pump, t, P.SendLoadCancelled);
    OneMore(q, s1, Around(P.Move(t)));
    s' := Next(s1, Around(P.Move(t)));
    assert s'.accepted == s.accepted;
  }

  /** From every state in which OnDone may come and nobody cancelled: an answer that cannot be stored is reported. */
  lemma FailedInsertIsReported(q: Query, s: State, t: nat) returns (s': State)
    requires Reached(q, s) && Enabled(s, OnDone(t, false)) && !s.pump.core.cancelled
    ensures Reached(q, s') && s'.done && s'.rows == s.rows
    ensures s'.accepted == s.accepted + [Message("", true, SQLITE_EXEC_FAIL)]
  {
    hide Reached;
    var s1 := OnDoneSends(q, s, t);
    OneMore(q, s1, Around(P.Move(t)));
    s' := Next(s1, Around(P.Move(t)));
  }
}
