/**
 The embedding stream: each request sets the dimension, carries a chunk to embed, or both, and is
 answered by one response. Building and serialising the index of a chunk is a parameter.

 The class has the reactor's methods as one thread runs them. The runs at the end are at the grain of single atomic
 operations: gRPC's reader is thread 0 of the pump of `PumpSteps`, and between any two of its
 operations other threads may complete or fail writes, cancel and stop.
 */
module EmbeddingReactor {
  import opened Common
  import opened WritePump
  import P = PumpSteps

  const OK: int := 0
  const SERIALIZE_FAIL: int := 504

  datatype Chunk = Chunk(id: int, data: string)

  datatype Request = Request(taskId: int, dimension: Option<int>, chunk: Option<Chunk>)

  datatype Response = Response(errorCode: int, taskId: int, chunkId: int, index: string)

  /** The code of `build_index`, and what `serialize` then gives. */
  datatype Built = Built(code: int, serialized: bool, bytes: string)

  type Embedder = (string, int) -> Built

  // ------------------------------------------------------------ what a stream promises

  /** The dimension in force at request n: that of the latest request up to n that set one, 0 before any. */
  function Dimension(reqs: seq<Request>, n: nat): int
    requires n < |reqs|
  {
    if reqs[n].dimension.Some? then reqs[n].dimension.value
    else if n == 0 then 0 else Dimension(reqs, n - 1)
  }

  /** The stream's task: the first non-zero task id among the requests up to n, 0 before any. */
  function Task(reqs: seq<Request>, n: nat): int
    requires n < |reqs|
  {
    var earlier := if n == 0 then 0 else Task(reqs, n - 1);
    if earlier != 0 then earlier else reqs[n].taskId
  }

  /** The response to request n. */
  function Answer(reqs: seq<Request>, n: nat, embed: Embedder): Response
    requires n < |reqs|
  {
    var task := Task(reqs, n);
    match reqs[n].chunk
    case None => Response(OK, task, 0, "")
    case Some(chunk) =>
      var b := embed(chunk.data, Dimension(reqs, n));
      if b.code != OK then Response(b.code, task, chunk.id, "")
      else if !b.serialized || b.bytes == "" then Response(SERIALIZE_FAIL, task, chunk.id, "")
      else Response(OK, task, chunk.id, b.bytes)
  }

  lemma {:induction false} LatestDimension(reqs: seq<Request>, n: nat)
    requires n < |reqs|
    ensures || ((forall i | 0 <= i <= n :: reqs[i].dimension.None?) && Dimension(reqs, n) == 0)
            || exists j :: 0 <= j <= n && reqs[j].dimension == Some(Dimension(reqs, n))
                           && (forall i | j < i <= n :: reqs[i].dimension.None?)
  {
    if reqs[n].dimension.None? && n > 0 {
      LatestDimension(reqs, n - 1);
      if j :| 0 <= j <= n - 1 && reqs[j].dimension == Some(Dimension(reqs, n - 1))
              && forall i | j < i <= n - 1 :: reqs[i].dimension.None? {
        assert reqs[j].dimension == Some(Dimension(reqs, n));
      }
    } else if reqs[n].dimension.Some? {
      assert reqs[n].dimension == Some(Dimension(reqs, n));
    }
  }

  lemma {:induction false} FirstTask(reqs: seq<Request>, n: nat)
    requires n < |reqs|
    ensures || ((forall i | 0 <= i <= n :: reqs[i].taskId == 0) && Task(reqs, n) == 0)
            || exists j :: 0 <= j <= n && reqs[j].taskId == Task(reqs, n) != 0
                           && (forall i | 0 <= i < j :: reqs[i].taskId == 0)
  {
    if n > 0 {
      FirstTask(reqs, n - 1);
      if j :| 0 <= j <= n - 1 && reqs[j].taskId == Task(reqs, n - 1) != 0
              && forall i | 0 <= i < j :: reqs[i].taskId == 0 {
        assert reqs[j].taskId == Task(reqs, n);
      } else {
        assert reqs[n].taskId == Task(reqs, n);
      }
    } else {
      assert reqs[0].taskId == Task(reqs, 0);
    }
  }

  /**
   What a response says: it is for the stream's task and the request's chunk, 0 if it has none. With a chunk it holds the
   index built from that chunk's data with the dimension in force and reports success exactly if it was built and
   serialised to something; otherwise it holds no index and reports why. Without a chunk it only acknowledges.
   */
  lemma AnswerMeans(reqs: seq<Request>, n: nat, embed: Embedder)
    requires n < |reqs|
    ensures var a, chunk := Answer(reqs, n, embed), reqs[n].chunk;
            && a.taskId == Task(reqs, n)
            && (chunk.None? ==> a.chunkId == 0 && a.errorCode == OK && a.index == "")
            && (chunk.Some? ==>
                  var b := embed(chunk.value.data, Dimension(reqs, n));
                  var good := b.code == OK && b.serialized && b.bytes != "";
                  && a.chunkId == chunk.value.id
                  && (a.errorCode == OK <==> good)
                  && a.index == (if good then b.bytes else "")
                  && (b.code != OK ==> a.errorCode == b.code)
                  && (b.code == OK && !good ==> a.errorCode == SERIALIZE_FAIL))
  {
  }

  // ------------------------------------------------------------ the reactor

  /** What the reactor remembers from one request to the next. */
  datatype Memory = Memory(registered: bool, taskId: int, dimension: int)

  const START := Memory(false, 0, 0)

  function Named(m: Memory, req: Request): Memory {
    if req.taskId != 0 && !m.registered then m.(registered := true, taskId := req.taskId) else m
  }

  function Dimensioned(m: Memory, req: Request): Memory {
    if req.dimension.Some? then m.(dimension := req.dimension.value) else m
  }

  function Remember(m: Memory, req: Request): Memory { Dimensioned(Named(m, req), req) }

  function Respond(m: Memory, req: Request, embed: Embedder): Response {
    match req.chunk
    case None => Response(OK, m.taskId, 0, "")
    case Some(chunk) =>
      var b := embed(chunk.data, m.dimension);
      if b.code != OK then Response(b.code, m.taskId, chunk.id, "")
      else if !b.serialized || b.bytes == "" then Response(SERIALIZE_FAIL, m.taskId, chunk.id, "")
      else Response(OK, m.taskId, chunk.id, b.bytes)
  }

  class Stream {
    const embed: Embedder
    const pump: Reactor<Response>
    var isRegistered: bool
    var taskId: int
    var dimension: int
    var readsStarted: nat   // StartRead calls

    ghost function View(): Memory
      reads this
    {
      Memory(isRegistered, taskId, dimension)
    }

    constructor (embed: Embedder)
      ensures this.embed == embed && View() == START && readsStarted == 1
      ensures pump.kind == Embedding && pump.Value() == Idle() && fresh(pump)
    {
      this.embed := embed;
      pump := new Reactor(Embedding);
      isRegistered, taskId, dimension, readsStarted := false, 0, 0, 1;
    }

    method EnsureRegistered(id: int)
      modifies `isRegistered, `taskId
      ensures isRegistered && (old(isRegistered) ==> taskId == old(taskId)) && (!old(isRegistered) ==> taskId == id)
    {
      if isRegistered { return; }
      isRegistered := true;
      taskId := id;
    }

    method Process(req: Request)
      modifies this, pump
      ensures readsStarted == old(readsStarted)
      ensures if old(pump.isCancelled) then
                && pump.Value() == old(pump.Value())
                && dimension == old(dimension)
              else
                && View() == Remember(old(View()), req)
                && WritePump.Runs(old(pump.Value()), SendScript(old(pump.Value()), Respond(View(), req, embed)), pump.Value())
                && pump.accepted == old(pump.accepted) + [Respond(View(), req, embed)] && pump.isWriting
    {
      if !isRegistered && req.taskId != 0 { EnsureRegistered(req.taskId); }
      if pump.isCancelled { return; }
      if req.dimension.Some? { dimension := req.dimension.value; }
      match req.chunk {
        case Some(chunk) =>
          var b := embed(chunk.data, dimension);
          if b.code != OK {
            pump.Send(Response(b.code, taskId, chunk.id, ""));
            return;
          }
          if !b.serialized {
            pump.Send(Response(SERIALIZE_FAIL, taskId, chunk.id, ""));
            return;
          }
          if b.bytes == "" {
            pump.Send(Response(SERIALIZE_FAIL, taskId, chunk.id, ""));
            return;
          }
          pump.Send(Response(OK, taskId, chunk.id, b.bytes));
        case None =>
          pump.Send(Response(OK, taskId, 0, ""));
      }
    }

    /** gRPC calls this once for each StartRead. */
    method OnReadDone(ok: bool, req: Request)
      modifies this, pump
      ensures if ok && !old(pump.isCancelled) then
                && readsStarted == old(readsStarted) + 1
                && View() == Remember(old(View()), req)
                && WritePump.Runs(old(pump.Value()), SendScript(old(pump.Value()), Respond(View(), req, embed)), pump.Value())
                && pump.accepted == old(pump.accepted) + [Respond(View(), req, embed)] && pump.isWriting
              else
                && readsStarted == old(readsStarted) && View() == old(View())
                && pump.Value() == Apply(old(pump.Value()), Finish(FinishOk))
    {
      if !ok {
        pump.CallFinish(FinishOk);
        return;
      }
      if pump.isCancelled {
        pump.CallFinish(FinishOk);
        return;
      }
      if req.taskId != 0 && !isRegistered { EnsureRegistered(req.taskId); }
      Process(req);
      readsStarted := readsStarted + 1;
    }
  }

  // ------------------------------------------------------------ every run of a stream

  /** The thread of the pump that is gRPC's reader. */
  const READER: nat := 0

  /** The next operation of the reader; in `_send` it is that of thread 0 of the pump. */
  datatype Pc =
    | Waiting                  // a read is outstanding
    | Got(req: Request)        // about to load _is_cancelled in OnReadDone
    | Naming(req: Request)     // about to register the stream
    | Checking(req: Request)   // about to load _is_cancelled in _process
    | Setting(req: Request)    // about to take the dimension
    | Building(req: Request)   // building the index, about to call _send
    | SendCheck(r: Response)
    | SendPut(r: Response)
    | SendFlush
    | Closed                   // Finish called, no further read

  /** `handled`: the requests that passed the check of OnReadDone. Message n of the pump is the n-th of `accepted`. */
  datatype State = State(memory: Memory, pump: P.State, accepted: seq<Response>, handled: seq<Request>, pc: Pc)

  function Opened(serialised: bool): State {
    State(START, P.State(Embedding, serialised, P.Core(false, false, [], 0, [], 0), map[], false), [], [], Waiting)
  }

  datatype Label = ReadDone(ok: bool, req: Request) | Reader | Around(a: P.Label)

  predicate InSend(pc: Pc) { pc.SendCheck? || pc.SendPut? || pc.SendFlush? }

  /** What the reader does next in the pump, or would do to call `_send`. */
  function PumpLabel(pc: Pc): P.Label {
    if InSend(pc) then P.Move(READER) else P.Enter(READER, P.SendLoadCancelled)
  }

  predicate Enabled(s: State, a: Label) {
    match a
    case ReadDone(_, _) => s.pc.Waiting?
    case Reader => !s.pc.Waiting? && !s.pc.Closed? && P.Enabled(s.pump, PumpLabel(s.pc))
    case Around(b) => b.t != READER && P.Enabled(s.pump, b) && !(b.Enter? && b.pc.SendLoadCancelled?)
  }

  function Next(s: State, a: Label, embed: Embedder): State
    requires Enabled(s, a)
  {
    match a
    case ReadDone(ok, req) => s.(pc := if ok then Got(req) else Closed)
    case Reader => Move(s, embed)
    case Around(b) => s.(pump := P.Next(s.pump, b))
  }

  function Move(s: State, embed: Embedder): State
    requires Enabled(s, Reader)
  {
    var cancelled := s.pump.core.cancelled;
    match s.pc
    case Got(req) => if cancelled then s.(pc := Closed) else s.(handled := s.handled + [req], pc := Naming(req))
    case Naming(req) => s.(memory := Named(s.memory, req), pc := Checking(req))
    case Checking(req) => s.(pc := if cancelled then Waiting else Setting(req))
    case Setting(req) => s.(memory := Dimensioned(s.memory, req), pc := Building(req))
    case Building(req) =>
      s.(pump := P.Next(s.pump, P.Enter(READER, P.SendLoadCancelled)), pc := SendCheck(Respond(s.memory, req, embed)))
    case SendCheck(r) => s.(pump := P.Next(s.pump, P.Move(READER)), pc := if cancelled then Waiting else SendPut(r))
    case SendPut(r) => s.(pump := P.Next(s.pump, P.Move(READER)), accepted := s.accepted + [r], pc := SendFlush)
    case SendFlush =>
      var pump := P.Next(s.pump, P.Move(READER));
      s.(pump := pump, pc := if READER in pump.threads then SendFlush else Waiting)
  }

  ghost predicate Steps(s: State, run: seq<Label>, s': State, embed: Embedder)
    decreases |run|
  {
    if run == [] then s == s' else Enabled(s, run[0]) && Steps(Next(s, run[0], embed), run[1..], s', embed)
  }

  // ------------------------------------------------------------ the reader in the pump

  /** The reader is in the pump exactly while it is in `_send`, and there where its pc says. */
  ghost predicate Joined(s: State) {
    match s.pc
    case SendCheck(_) => P.At(s.pump, READER, P.SendLoadCancelled)
    case SendPut(_) => P.At(s.pump, READER, P.SendPut)
    case SendFlush =>
      READER in s.pump.threads && (s.pump.threads[READER].FlushLoadWriting? || P.Flushing(s.pump.threads[READER]))
    case _ => READER !in s.pump.threads
  }

  ghost predicate OnlyReaderSends(s: State) {
    forall t :: P.At(s.pump, t, P.SendLoadCancelled) || P.At(s.pump, t, P.SendPut) ==> t == READER
  }

  ghost predicate PumpOk(s: State) {
    P.Inv(s.pump) && |s.accepted| == s.pump.core.accepted && Joined(s) && OnlyReaderSends(s)
  }

  /** The pump step of a step, if it is one. */
  function PumpStep(s: State, a: Label): seq<P.Label> {
    match a
    case ReadDone(_, _) => []
    case Reader => if InSend(s.pc) || s.pc.Building? then [PumpLabel(s.pc)] else []
    case Around(b) => [b]
  }

  lemma PumpFollows(s: State, a: Label, embed: Embedder)
    requires Enabled(s, a)
    ensures var b := PumpStep(s, a);
            if b == [] then Next(s, a, embed).pump == s.pump
            else P.Enabled(s.pump, b[0]) && Next(s, a, embed).pump == P.Next(s.pump, b[0])
  {
    hide P.Next, P.Enabled;
  }

  lemma ReaderPump(s: State, embed: Embedder)
    requires Joined(s) && Enabled(s, Reader)
    ensures var s' := Next(s, Reader, embed);
            && Joined(s')
            && s'.pump.core.cancelled == s.pump.core.cancelled
            && s'.pump.core.accepted == s.pump.core.accepted + (if s.pc.SendPut? then 1 else 0)
  {
    hide P.Next, P.Enabled;
    if InSend(s.pc) {
      P.SenderMoves(s.pump, READER, s.pump.threads[READER]);
    } else {
      P.SenderEnters(s.pump, READER);
    }
  }

  lemma OthersPump(s: State, a: Label, embed: Embedder)
    requires Joined(s) && OnlyReaderSends(s) && Enabled(s, a) && a.Around?
    ensures var s' := Next(s, a, embed);
            && Joined(s')
            && (s.pump.core.cancelled ==> s'.pump.core.cancelled)
            && s'.pump.core.accepted == s.pump.core.accepted
  {
    hide P.Next, P.Enabled;
    P.OthersMove(s.pump, a.a, READER);
    P.DoesMeans(s.pump, a.a, P.SendPut);
  }

  lemma OnlyReaderSendsStep(s: State, a: Label, embed: Embedder)
    requires OnlyReaderSends(s) && Enabled(s, a)
    ensures OnlyReaderSends(Next(s, a, embed))
  {
    hide P.Next, P.At;
    PumpFollows(s, a, embed);
    var b := PumpStep(s, a);
    if b != [] { P.OthersStay(s.pump, b[0]); }
  }

  lemma PumpOkStep(s: State, a: Label, embed: Embedder)
    requires PumpOk(s) && Enabled(s, a)
    ensures PumpOk(Next(s, a, embed))
  {
    hide P.Inv, P.Next, P.Enabled, OnlyReaderSends;
    match a {
      case ReadDone(_, _) =>
      case Reader => ReaderPump(s, embed);
      case Around(_) => OthersPump(s, a, embed);
    }
    OnlyReaderSendsStep(s, a, embed);
    PumpFollows(s, a, embed);
    var b := PumpStep(s, a);
    if b != [] { P.InvStep(s.pump, b[0]); }
  }

  // ------------------------------------------------------------ what the reader remembers and answers

  function Answers(reqs: seq<Request>, embed: Embedder): seq<Response> {
    seq(|reqs|, n requires 0 <= n < |reqs| => Answer(reqs, n, embed))
  }

  ghost predicate TaskOk(m: Memory, reqs: seq<Request>) {
    && m.taskId == (if reqs == [] then 0 else Task(reqs, |reqs| - 1))
    && (m.registered <==> m.taskId != 0)
  }

  ghost predicate DimensionOk(m: Memory, reqs: seq<Request>) {
    m.dimension == if reqs == [] then 0 else Dimension(reqs, |reqs| - 1)
  }

  lemma {:induction false} PrefixAnswers(reqs: seq<Request>, req: Request, n: nat)
    requires n < |reqs|
    ensures Dimension(reqs + [req], n) == Dimension(reqs, n) && Task(reqs + [req], n) == Task(reqs, n)
  {
    if n > 0 { PrefixAnswers(reqs, req, n - 1); }
  }

  lemma NamedIsFirst(m: Memory, reqs: seq<Request>, req: Request)
    requires TaskOk(m, reqs)
    ensures TaskOk(Named(m, req), reqs + [req])
  {
    if reqs != [] { PrefixAnswers(reqs, req, |reqs| - 1); }
  }

  lemma DimensionedIsLatest(m: Memory, reqs: seq<Request>, req: Request)
    requires DimensionOk(m, reqs)
    ensures DimensionOk(Dimensioned(m, req), reqs + [req])
  {
    if reqs != [] { PrefixAnswers(reqs, req, |reqs| - 1); }
  }

  lemma AnswersMore(reqs: seq<Request>, req: Request, embed: Embedder)
    ensures Answers(reqs + [req], embed) == Answers(reqs, embed) + [Answer(reqs + [req], |reqs|, embed)]
  {
    forall n: nat | n < |reqs|
      ensures Answer(reqs + [req], n, embed) == Answer(reqs, n, embed)
    {
      PrefixAnswers(reqs, req, n);
    }
  }

  /** A request is in hand that has not been answered. */
  predicate InHand(pc: Pc) {
    pc.Naming? || pc.Checking? || pc.Setting? || pc.Building? || pc.SendCheck? || pc.SendPut?
  }

  /** Every request handled was answered, but for one: the one in hand, or the one a cancellation found in hand. */
  ghost predicate Counted(s: State) {
    && |s.accepted| <= |s.handled| <= |s.accepted| + 1
    && (InHand(s.pc) ==> |s.handled| == |s.accepted| + 1)
    && (|s.handled| == |s.accepted| + 1 ==> InHand(s.pc) || s.pump.core.cancelled)
  }

  /** The memory is what the stream promises at the latest request, or at the one before until it is taken in. */
  ghost predicate MemoryOk(s: State, embed: Embedder) {
    match s.pc
    case Naming(req) => Taken(s, req) && TaskOk(s.memory, Earlier(s)) && DimensionOk(s.memory, Earlier(s))
    case Checking(req) => Taken(s, req) && TaskOk(s.memory, s.handled) && DimensionOk(s.memory, Earlier(s))
    case Setting(req) => Taken(s, req) && TaskOk(s.memory, s.handled) && DimensionOk(s.memory, Earlier(s))
    case Building(req) => Taken(s, req) && TaskOk(s.memory, s.handled) && DimensionOk(s.memory, s.handled)
    case SendCheck(r) => AnswersLatest(s, r, embed) && TaskOk(s.memory, s.handled) && DimensionOk(s.memory, s.handled)
    case SendPut(r) => AnswersLatest(s, r, embed) && TaskOk(s.memory, s.handled) && DimensionOk(s.memory, s.handled)
    case _ => s.pump.core.cancelled || (TaskOk(s.memory, s.handled) && DimensionOk(s.memory, s.handled))
  }

  function Earlier(s: State): seq<Request> {
    if s.handled == [] then [] else s.handled[..|s.handled| - 1]
  }

  ghost predicate Taken(s: State, req: Request) { s.handled == Earlier(s) + [req] }

  ghost predicate AnswersLatest(s: State, r: Response, embed: Embedder) {
    s.handled != [] && r == Answer(s.handled, |s.handled| - 1, embed)
  }

  ghost predicate Answered(s: State, embed: Embedder) { s.accepted <= Answers(s.handled, embed) }

  lemma CountedStep(s: State, a: Label, embed: Embedder)
    requires Joined(s) && OnlyReaderSends(s) && Counted(s) && Enabled(s, a)
    ensures Counted(Next(s, a, embed))
  {
    hide P.Next, P.Enabled, Joined, OnlyReaderSends;
    match a {
      case ReadDone(_, _) =>
      case Reader => ReaderPump(s, embed);
      case Around(_) => OthersPump(s, a, embed);
    }
  }

  lemma MemoryOkReader(s: State, embed: Embedder)
    requires Joined(s) && MemoryOk(s, embed) && Enabled(s, Reader)
    ensures MemoryOk(Next(s, Reader, embed), embed)
  {
    hide P.Next, P.Enabled, Joined, TaskOk, DimensionOk, Named, Dimensioned, Respond, Answer;
    ReaderPump(s, embed);
    match s.pc {
      case Got(req) => assert Earlier(s.(handled := s.handled + [req])) == s.handled;
      case Naming(req) => NamedIsFirst(s.memory, Earlier(s), req); NamedKeeps(s.memory, Earlier(s), req);
      case Setting(req) => DimensionedIsLatest(s.memory, Earlier(s), req); DimensionedKeeps(s.memory, s.handled, req);
      case Building(req) => RespondIsAnswer(s.memory, Earlier(s), req, embed);
      case _ =>
    }
  }

  lemma NamedKeeps(m: Memory, reqs: seq<Request>, req: Request)
    ensures DimensionOk(m, reqs) ==> DimensionOk(Named(m, req), reqs)
  {
  }

  lemma DimensionedKeeps(m: Memory, reqs: seq<Request>, req: Request)
    ensures TaskOk(m, reqs) ==> TaskOk(Dimensioned(m, req), reqs)
  {
  }

  lemma RespondIsAnswer(m: Memory, reqs: seq<Request>, req: Request, embed: Embedder)
    requires TaskOk(m, reqs + [req]) && DimensionOk(m, reqs + [req])
    ensures Respond(m, req, embed) == Answer(reqs + [req], |reqs|, embed)
  {
  }

  lemma MemoryOkOthers(s: State, a: Label, embed: Embedder)
    requires Joined(s) && OnlyReaderSends(s) && MemoryOk(s, embed) && Enabled(s, a) && !a.Reader?
    ensures MemoryOk(Next(s, a, embed), embed)
  {
    hide P.Next, P.Enabled, Joined, OnlyReaderSends, TaskOk, DimensionOk, Answer;
    if a.Around? { OthersPump(s, a, embed); }
  }

  lemma AnsweredStep(s: State, a: Label, embed: Embedder)
    requires Counted(s) && MemoryOk(s, embed) && Answered(s, embed) && Enabled(s, a)
    ensures Answered(Next(s, a, embed), embed)
  {
    hide P.Next, P.Enabled, TaskOk, DimensionOk, Answer, Answers;
    match s.pc {
      case Got(req) => AnswersMore(s.handled, req, embed);
      case SendPut(r) => AnswersAt(s.handled, embed);
      case _ =>
    }
  }

  lemma AnswersAt(reqs: seq<Request>, embed: Embedder)
    ensures |Answers(reqs, embed)| == |reqs|
    ensures forall n: nat | n < |reqs| :: Answers(reqs, embed)[n] == Answer(reqs, n, embed)
  {
  }

  // ------------------------------------------------------------ every reachable state

  ghost predicate Inv(s: State, embed: Embedder) {
    PumpOk(s) && Counted(s) && MemoryOk(s, embed) && Answered(s, embed)
  }

  lemma InvStep(s: State, a: Label, embed: Embedder)
    requires Inv(s, embed) && Enabled(s, a)
    ensures Inv(Next(s, a, embed), embed)
  {
    hide Next, Enabled, P.Inv, Joined, OnlyReaderSends, Counted, MemoryOk, Answered;
    PumpOkStep(s, a, embed);
    CountedStep(s, a, embed);
    AnsweredStep(s, a, embed);
    if a.Reader? { MemoryOkReader(s, embed); } else { MemoryOkOthers(s, a, embed); }
  }

  lemma {:induction false} InvRun(s: State, run: seq<Label>, s': State, embed: Embedder)
    requires Inv(s, embed) && Steps(s, run, s', embed)
    ensures Inv(s', embed) && s'.pump.serialised == s.pump.serialised
    decreases |run|
  {
    hide Inv, Next, Enabled, PumpStep;
    if run != [] {
      InvStep(s, run[0], embed);
      PumpFollows(s, run[0], embed);
      InvRun(Next(s, run[0], embed), run[1..], s', embed);
    }
  }

  lemma OpenedInv(serialised: bool, embed: Embedder)
    ensures Inv(Opened(serialised), embed)
  {
    hide P.Inv;
    P.InvInit(Opened(serialised).pump);
  }

  ghost predicate Reached(serialised: bool, s: State, embed: Embedder) {
    exists run :: Steps(Opened(serialised), run, s, embed)
  }

  lemma ReachedInv(serialised: bool, s: State, embed: Embedder)
    requires Reached(serialised, s, embed)
    ensures Inv(s, embed) && s.pump.serialised == serialised
  {
    hide Inv, Steps;
    var run :| Steps(Opened(serialised), run, s, embed);
    OpenedInv(serialised, embed);
    InvRun(Opened(serialised), run, s, embed);
  }

  /**
   Main result. The stream answers one for one: the n-th response put in the queue is the answer to the n-th request
   handled, computed from that request, the latest dimension and the stream's task. Every request is
   answered but the one in hand; after a cancellation at most that one stays without an answer.
   */
  lemma OneResponsePerRequest(serialised: bool, s: State, embed: Embedder)
    requires Reached(serialised, s, embed)
    ensures s.accepted <= Answers(s.handled, embed)
    ensures |s.handled| <= |s.accepted| + 1
    ensures |s.handled| == |s.accepted| + 1 ==> InHand(s.pc) || s.pump.core.cancelled
    ensures s.pc.Waiting? && !s.pump.core.cancelled ==> s.accepted == Answers(s.handled, embed)
  {
    hide PumpOk, MemoryOk, Answer;
    ReachedInv(serialised, s, embed);
  }

  /**
   Main result. With flushes one at a time, the responses written are a prefix of the answers: before a
   cancellation, and after it until a drain crosses a flush. A stream at rest has written them all.
   */
  lemma WrittenInOrder(s: State, embed: Embedder)
    requires Reached(true, s, embed)
    ensures forall i | 0 <= i < |s.pump.core.started| :: s.pump.core.started[i] < |s.accepted|
    ensures !s.pump.crossed || !s.pump.core.cancelled ==>
              P.Written(s.accepted, s.pump.core.started) <= Answers(s.handled, embed)
    ensures s.pc.Waiting? && !s.pump.core.cancelled && P.Quiet(s.pump) ==>
              P.Written(s.accepted, s.pump.core.started) == Answers(s.handled, embed)
  {
    hide P.Inv, Joined, OnlyReaderSends, MemoryOk, Answers, Answered, Counted;
    ReachedInv(true, s, embed);
    OneResponsePerRequest(true, s, embed);
    P.WrittenIsPrefix(s.pump, s.accepted);
  }

  /** However flushes overlap, a stream at rest that was not cancelled has written each answer once. */
  lemma EachAnswerIsWritten(serialised: bool, s: State, embed: Embedder)
    requires Reached(serialised, s, embed) && s.pc.Waiting? && !s.pump.core.cancelled && P.Quiet(s.pump)
    ensures forall i | 0 <= i < |s.pump.core.started| :: s.pump.core.started[i] < |s.accepted|
    ensures multiset(P.Written(s.accepted, s.pump.core.started)) == multiset(Answers(s.handled, embed))
  {
    hide P.Inv, Joined, OnlyReaderSends, MemoryOk, Answers, Answered, Counted;
    ReachedInv(serialised, s, embed);
    OneResponsePerRequest(serialised, s, embed);
    P.WrittenIsPermutation(s.pump, s.accepted);
  }

  /** A cancelled stream handles no further request. */
  lemma {:induction false} CancelledHandlesNoMore(s: State, run: seq<Label>, s': State, embed: Embedder)
    requires s.pump.core.cancelled && Steps(s, run, s', embed)
    ensures s'.handled == s.handled
    decreases |run|
  {
    hide Next, Enabled, PumpStep;
    if run != [] {
      CancelStays(s, run[0], embed);
      CancelledHandlesNoMore(Next(s, run[0], embed), run[1..], s', embed);
    }
  }

  lemma CancelStays(s: State, a: Label, embed: Embedder)
    requires s.pump.core.cancelled && Enabled(s, a)
    ensures Next(s, a, embed).pump.core.cancelled && Next(s, a, embed).handled == s.handled
  {
    hide P.Next;
    PumpFollows(s, a, embed);
    var b := PumpStep(s, a);
    if b != [] { PumpCancelStays(s.pump, b[0]); }
  }

  lemma PumpCancelStays(p: P.State, b: P.Label)
    requires p.core.cancelled && P.Enabled(p, b)
    ensures P.Next(p, b).core.cancelled
  {
  }

  /** Until its call is closed, the reader has a step to take, unless its flush waits for another thread's. */
  lemma ReaderIsNeverStuck(serialised: bool, s: State, req: Request, embed: Embedder)
    requires Reached(serialised, s, embed) && !s.pc.Closed?
    ensures || Enabled(s, ReadDone(true, req)) || Enabled(s, Reader)
            || (serialised && s.pc.SendFlush?
                && exists t | t in s.pump.threads :: t != READER && P.Flushing(s.pump.threads[t]))
  {
    hide P.Inv, OnlyReaderSends, MemoryOk, Answered, Counted;
    ReachedInv(serialised, s, embed);
  }

  lemma KeepsDimension(s: State, a: Label, embed: Embedder)
    requires s.pump.core.cancelled && !s.pc.Setting? && Enabled(s, a)
    ensures Next(s, a, embed).memory.dimension == s.memory.dimension && !Next(s, a, embed).pc.Setting?
  {
    hide P.Next, P.Enabled, Respond;
  }

  /** A cancelled stream takes no further dimension, but for the request that had passed both checks. */
  lemma {:induction false} CancelledTakesNoDimension(s: State, run: seq<Label>, s': State, embed: Embedder)
    requires s.pump.core.cancelled && !s.pc.Setting? && Steps(s, run, s', embed)
    ensures s'.memory.dimension == s.memory.dimension
    decreases |run|
  {
    hide Next, Enabled, PumpStep;
    if run != [] {
      CancelStays(s, run[0], embed);
      KeepsDimension(s, run[0], embed);
      CancelledTakesNoDimension(Next(s, run[0], embed), run[1..], s', embed);
    }
  }

  /** The call is closed exactly by a read that failed, or by a request that finds the stream cancelled. */
  lemma ClosedExactly(s: State, a: Label, embed: Embedder)
    requires Enabled(s, a) && !s.pc.Closed?
    ensures Next(s, a, embed).pc.Closed? <==>
              || (a.ReadDone? && !a.ok)
              || (a.Reader? && s.pc.Got? && s.pump.core.cancelled)
  {
    hide P.Next, P.Enabled;
  }

  // ------------------------------------------------------------ a request left without an answer

  lemma {:induction false} StepsThen(s: State, run: seq<Label>, s': State, a: Label, embed: Embedder)
    requires Steps(s, run, s', embed) && Enabled(s', a)
    ensures Steps(s, run + [a], Next(s', a, embed), embed)
    decreases |run|
  {
    hide Next, Enabled;
    if run == [] {
      assert [a][1..] == [];
      assert run + [a] == [a];
      assert Steps(Next(s, a, embed), [], Next(s, a, embed), embed);
    } else {
      StepsThen(Next(s, run[0], embed), run[1..], s', a, embed);
      assert (run + [a])[0] == run[0] && (run + [a])[1..] == run[1..] + [a];
    }
  }

  lemma OneMore(serialised: bool, s: State, a: Label, embed: Embedder) returns (s': State)
    requires Reached(serialised, s, embed) && Enabled(s, a)
    ensures Reached(serialised, s', embed) && s' == Next(s, a, embed)
  {
    hide Next, Enabled, Steps;
    var run :| Steps(Opened(serialised), run, s, embed);
    StepsThen(Opened(serialised), run, s, a, embed);
    s' := Next(s, a, embed);
  }

  /** The first request has passed both checks and its index is being built. */
  lemma BuildUnderWay(serialised: bool, req: Request, embed: Embedder) returns (s: State)
    ensures Reached(serialised, s, embed) && s.pc.Building? && s.handled == [req] && s.accepted == []
    ensures s.pump == Opened(serialised).pump
  {
    hide Reached;
    Begins(serialised, embed);
    s := OneMore(serialised, Opened(serialised), ReadDone(true, req), embed);
    s := OneMore(serialised, s, Reader, embed);
    s := OneMore(serialised, s, Reader, embed);
    s := OneMore(serialised, s, Reader, embed);
    s := OneMore(serialised, s, Reader, embed);
  }

  lemma Begins(serialised: bool, embed: Embedder)
    ensures Reached(serialised, Opened(serialised), embed)
  {
    assert Steps(Opened(serialised), [], Opened(serialised), embed);
  }

  /** A Stop while the index is being built leaves that request, whatever it is, without an answer. */
  lemma StopDuringBuild(serialised: bool, req: Request, embed: Embedder) returns (s: State)
    ensures Reached(serialised, s, embed) && s.pc.Waiting? && s.pump.core.cancelled
    ensures s.handled == [req] && s.accepted == []
  {
    hide Reached;
    s := BuildUnderWay(serialised, req, embed);
    s := OneMore(serialised, s, Around(P.Enter(1, P.StopCancel)), embed);
    s := OneMore(serialised, s, Around(P.Move(1)), embed);
    s := OneMore(serialised, s, Reader, embed);
    s := OneMore(serialised, s, Reader, embed);
  }
}
