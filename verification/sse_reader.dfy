/**
 The incremental reader of the server-sent-events body of a chat completion.

 The HTTP client hands the body over in chunks cut anywhere; the reader buffers
 them, takes complete lines off the front, and gives content pieces to a callback.
 JSON decoding and the callback's answers are parameters: `Decoder` maps a payload
 to what the decoder finds in it, `Answers` says what the k-th callback call returns.
 */
module SseReader {
  import opened Common

  const LF: char := '\n'
  const CR: char := '\r'
  const FIELD := "data: "
  const DONE_MARK := "[DONE]"

  /** What decoding a payload yields: choices[0].delta.content, no such content, or an exception. */
  datatype Decoded = Piece(text: string) | Nothing | Error

  type Decoder = string -> Decoded
  type Answers = nat -> bool

  datatype LineKind = Skip | Done | Payload(json: string)

  /** How a line, a call of the handler, or a whole parse ended. */
  datatype Status = Open | SawDone | Failed

  /** The pieces given to the callback, and how it ended. */
  datatype Outcome = Outcome(pieces: seq<string>, status: Status)

  /** What one line does when `k` callback calls were made before it. */
  type LineStep = (string, nat) -> Outcome

  // ---------------------------------------------------------------- one line

  function StripCr(line: string): string {
    if line != "" && line[|line| - 1] == CR then line[..|line| - 1] else line
  }

  function Classify(line: string): LineKind {
    if line == "" || line[0] == ':' then Skip
    else if !(FIELD <= line) then Skip
    else if line[|FIELD|..] == DONE_MARK then Done
    else Payload(line[|FIELD|..])
  }

  /** A refused piece was still given to the callback. */
  function Effect(line: string, k: nat, decode: Decoder, answer: Answers): Outcome {
    match Classify(StripCr(line))
    case Skip => Outcome([], Open)
    case Done => Outcome([], SawDone)
    case Payload(json) =>
      match decode(json)
      case Nothing => Outcome([], Open)
      case Error => Outcome([], Failed)
      case Piece(p) => Outcome([p], if answer(k) then Open else Failed)
  }

  function StepOf(decode: Decoder, answer: Answers): LineStep {
    (line: string, k: nat) => Effect(line, k, decode, answer)
  }

  // -------------------------------------------------- the stream as lines

  predicate HasLf(s: string) { LF in s }

  /** Index of the first line feed. */
  function FirstLf(s: string): (i: nat)
    requires HasLf(s)
    ensures i < |s| && s[i] == LF && !HasLf(s[..i])
  {
    if s[0] == LF then 0 else
      var j := FirstLf(s[1..]);
      assert s[..j + 1] == [s[0]] + s[1..][..j];
      j + 1
  }

  lemma FirstLfUnique(s: string, i: nat)
    requires i < |s| && s[i] == LF && !HasLf(s[..i])
    ensures HasLf(s) && FirstLf(s) == i
  {
    var j := FirstLf(s);
    var u, v := s[..i], s[..j];
    assert forall x | 0 <= x < i :: u[x] == s[x];
    assert forall x | 0 <= x < j :: v[x] == s[x];
  }

  /** The complete lines of a byte stream, without their line feeds. */
  function Lines(s: string): seq<string>
    decreases |s|
  {
    if !HasLf(s) then [] else [s[..FirstLf(s)]] + Lines(s[FirstLf(s) + 1..])
  }

  /** The bytes after the last line feed. */
  function Rest(s: string): (r: string)
    ensures !HasLf(r)
    decreases |s|
  {
    if !HasLf(s) then s else Rest(s[FirstLf(s) + 1..])
  }

  lemma NoLines(tail: string)
    requires !HasLf(tail)
    ensures Lines(tail) == [] && Rest(tail) == tail
  {
  }

  lemma TakeLine(s: string)
    requires HasLf(s)
    ensures var i := FirstLf(s);
            && Lines(s) == [s[..i]] + Lines(s[i + 1..])
            && Lines(s)[1..] == Lines(s[i + 1..])
            && Rest(s) == Rest(s[i + 1..])
  {
  }

  function Concat(chunks: seq<string>): string {
    if chunks == [] then "" else chunks[0] + Concat(chunks[1..])
  }

  /** Cutting the stream in two does not change its lines. */
  lemma {:induction false} LinesSplit(a: string, b: string)
    ensures Lines(a + b) == Lines(a) + Lines(Rest(a) + b)
    ensures Rest(a + b) == Rest(Rest(a) + b)
    decreases |a|
  {
    hide Lines, Rest;
    if HasLf(a) {
      var i := FirstLf(a);
      assert (a + b)[..i] == a[..i];
      FirstLfUnique(a + b, i);
      assert (a + b)[i + 1..] == a[i + 1..] + b;
      TakeLine(a);
      TakeLine(a + b);
      LinesSplit(a[i + 1..], b);
    } else {
      NoLines(a);
    }
  }

  // -------------------------------------------------- reference parse of whole lines

  lemma ParseFirst(line: string, more: seq<string>, k: nat, through: bool, step: LineStep)
    ensures var o := Seen(step(line, k), through);
            Parse([line] + more, k, through, step) ==
            if o.status != Open then o else Then(o, Parse(more, k + |o.pieces|, through, step))
  {
    assert ([line] + more)[1..] == more;
  }

  lemma EmptyParse(k: nat, through: bool, step: LineStep)
    ensures Parse([], k, through, step) == Outcome([], Open)
  {
  }

  function Then(a: Outcome, b: Outcome): Outcome {
    if a.status == Open then Outcome(a.pieces + b.pieces, b.status) else a
  }

  /** With `through`, a [DONE] line counts as plain progress. */
  function Seen(o: Outcome, through: bool): Outcome {
    if through && o.status == SawDone then Outcome(o.pieces, Open) else o
  }

  /** One pass over a list of complete lines, `k` callback calls having been made before. */
  function Parse(lines: seq<string>, k: nat, through: bool, step: LineStep): Outcome {
    if lines == [] then Outcome([], Open) else
      var o := Seen(step(lines[0], k), through);
      if o.status != Open then o else
        Then(o, Parse(lines[1..], k + |o.pieces|, through, step))
  }

  lemma {:induction false} ParseSplit(a: seq<string>, b: seq<string>, k: nat, through: bool, step: LineStep)
    ensures var oa := Parse(a, k, through, step);
            Parse(a + b, k, through, step) == Then(oa, Parse(b, k + |oa.pieces|, through, step))
  {
    if a == [] {
      assert a + b == b;
    } else {
      assert (a + b)[1..] == a[1..] + b;
      var o := Seen(step(a[0], k), through);
      ParseSplit(a[1..], b, k + |o.pieces|, through, step);
    }
  }

  // -------------------------------------------------- one call of the handler

  /** A buffer seen as its complete lines and the bytes after the last line feed. */
  datatype Buffer = Buffer(lines: seq<string>, tail: string)

  function View(buf: string): Buffer { Buffer(Lines(buf), Rest(buf)) }

  /** The bytes of a buffer: the view loses nothing. */
  function Unview(b: Buffer): string
    decreases |b.lines|
  {
    if b.lines == [] then b.tail else b.lines[0] + [LF] + Unview(Buffer(b.lines[1..], b.tail))
  }

  lemma {:induction false} ViewKeepsBytes(buf: string)
    ensures Unview(View(buf)) == buf
    decreases |buf|
  {
    hide Lines, Rest, FirstLf;
    if !HasLf(buf) {
      NoLines(buf);
    } else {
      var i := FirstLf(buf);
      TakeLine(buf);
      ViewKeepsBytes(buf[i + 1..]);
      assert buf == buf[..i] + [LF] + buf[i + 1..];
    }
  }

  datatype Drained = Drained(out: Outcome, left: seq<string>)

  /** What one call does with the complete lines it finds: it stops at the first that is not plain progress. */
  function Drain(lines: seq<string>, k: nat, step: LineStep): Drained {
    if lines == [] then Drained(Outcome([], Open), []) else
      var o := step(lines[0], k);
      if o.status != Open then Drained(o, lines[1..]) else
        var d := Drain(lines[1..], k + |o.pieces|, step);
        Drained(Then(o, d.out), d.left)
  }

  lemma DrainNone(k: nat, step: LineStep)
    ensures Drain([], k, step) == Drained(Outcome([], Open), [])
  {
  }

  lemma DrainOne(lines: seq<string>, k: nat, step: LineStep)
    requires lines != []
    ensures var o := step(lines[0], k);
            Drain(lines, k, step) ==
            if o.status != Open then Drained(o, lines[1..]) else
              var d := Drain(lines[1..], k + |o.pieces|, step);
              Drained(Then(o, d.out), d.left)
  {
  }

  /** What the line loop does to the drain of its buffer by taking one line. */
  lemma DrainLine(buf: string, k: nat, step: LineStep)
    requires HasLf(buf)
    ensures var i := FirstLf(buf);
            var o, rest := step(buf[..i], k), buf[i + 1..];
            var d, more := Drain(Lines(buf), k, step), Drain(Lines(rest), k + |o.pieces|, step);
            && Rest(buf) == Rest(rest)
            && if o.status != Open then d == Drained(o, Lines(rest))
               else d.out.pieces == o.pieces + more.out.pieces && d.out.status == more.out.status && d.left == more.left
  {
    hide Drain, Lines, Rest, FirstLf;
    TakeLine(buf);
    DrainOne(Lines(buf), k, step);
  }

  /** The handler object: the buffer shared by all calls, and the pieces given to the callback so far. */
  class StreamReader {
    const decode: Decoder
    const answer: Answers
    var buf: string
    var pieces: seq<string>

    constructor (decode: Decoder, answer: Answers)
      ensures this.decode == decode && this.answer == answer
      ensures buf == "" && pieces == []
    {
      this.decode, this.answer := decode, answer;
      buf, pieces := "", [];
    }

    ghost function Step(): LineStep { StepOf(decode, answer) }

    /** The body of the line loop. */
    method HandleLine(raw: string) returns (status: Status)
      modifies `pieces
      ensures var o := Step()(raw, |old(pieces)|);
              pieces == old(pieces) + o.pieces && status == o.status
    {
      var line := StripCr(raw);
      if line == "" || line[0] == ':' { return Open; }
      if !(FIELD <= line) { return Open; }
      var json := line[|FIELD|..];
      if json == DONE_MARK { return SawDone; }
      match decode(json) {
        case Nothing => return Open;
        case Error => return Failed;
        case Piece(p) =>
          var accepted := answer(|pieces|);
          pieces := pieces + [p];
          return if accepted then Open else Failed;
      }
    }

    /** One call of on_data. */
    method OnData(data: string) returns (more: bool)
      modifies this
      ensures var b := View(old(buf) + data);
              var d := Drain(b.lines, |old(pieces)|, Step());
              && View(buf) == Buffer(d.left, b.tail)
              && pieces == old(pieces) + d.out.pieces
              && more == (d.out.status != Failed)
    {
      hide FirstLf, Lines, Rest, Drain, StepOf;
      buf := buf + data;
      ghost var all := Drain(Lines(buf), |pieces|, Step());
      ghost var tail := Rest(buf);
      ghost var given := pieces;
      while HasLf(buf)
        invariant Rest(buf) == tail
        invariant given + all.out.pieces == pieces + Drain(Lines(buf), |pieces|, Step()).out.pieces
        invariant all.left == Drain(Lines(buf), |pieces|, Step()).left
        invariant all.out.status == Drain(Lines(buf), |pieces|, Step()).out.status
        decreases |buf|
      {
        var pos := FirstLf(buf);
        var line := buf[..pos];
        DrainLine(buf, |pieces|, Step());
        buf := buf[pos + 1..];
        var status := HandleLine(line);
        if status != Open { return status == SawDone; }
      }
      NoLines(buf);
      DrainNone(|pieces|, Step());
      return true;
    }

    /** The HTTP client: chunks in order until a call refuses more. */
    method Feed(chunks: seq<string>)
      requires buf == "" && pieces == []
      modifies this
      ensures var r := Run(chunks, Buffer([], ""), 0, Step());
              pieces == r.pieces && View(buf) == r.buf
      ensures forall k: nat | k + 1 < |pieces| :: answer(k)
    {
      hide Lines, Rest, Drain, Run, Absorb, StepOf;
      var i, more := 0, true;
      ghost var r := Run(chunks, Buffer([], ""), 0, Step());
      assert chunks[0..] == chunks;
      NoLines(buf);
      while more && i < |chunks|
        invariant 0 <= i <= |chunks|
        invariant more ==> r.pieces == pieces + Run(chunks[i..], View(buf), |pieces|, Step()).pieces
        invariant more ==> r.buf == Run(chunks[i..], View(buf), |pieces|, Step()).buf
        invariant !more ==> r.pieces == pieces && r.buf == View(buf)
      {
        assert chunks[i..][1..] == chunks[i + 1..];
        AbsorbIsAppend(buf, chunks[i]);
        RunOne(chunks[i..], View(buf), |pieces|, Step());
        more := OnData(chunks[i]);
        i := i + 1;
      }
      if more {
        assert chunks[i..] == [];
        RunNone(View(buf), |pieces|, Step());
        assert pieces + [] == pieces;
      }
      NoPieceAfterRefusal(chunks, decode, answer);
    }
  }

  // -------------------------------------------------- a whole response body

  /** Appending a chunk to a buffer. */
  function Absorb(b: Buffer, chunk: string): Buffer {
    Buffer(b.lines + Lines(b.tail + chunk), Rest(b.tail + chunk))
  }

  lemma AbsorbIsAppend(buf: string, chunk: string)
    ensures View(buf + chunk) == Absorb(View(buf), chunk)
  {
    LinesSplit(buf, chunk);
  }

  /**
   `pieces`: everything given to the callback; `upTo`: the part before the first event that is
   not plain progress (a [DONE] line, a decoding error, a refusal); `status`: that event.
   */
  datatype RunResult = RunResult(pieces: seq<string>, upTo: seq<string>, status: Status, buf: Buffer)

  function Prepend(out: Outcome, later: RunResult): RunResult {
    var now := out.pieces;
    if out.status == SawDone then RunResult(now + later.pieces, now, SawDone, later.buf)
    else RunResult(now + later.pieces, now + later.upTo, later.status, later.buf)
  }

  function Run(chunks: seq<string>, buf: Buffer, k: nat, step: LineStep): RunResult {
    if chunks == [] then RunResult([], [], Open, buf) else
      var b := Absorb(buf, chunks[0]);
      var d := Drain(b.lines, k, step);
      if d.out.status == Failed then RunResult(d.out.pieces, d.out.pieces, Failed, Buffer(d.left, b.tail))
      else Prepend(d.out, Run(chunks[1..], Buffer(d.left, b.tail), k + |d.out.pieces|, step))
  }

  lemma RunNone(buf: Buffer, k: nat, step: LineStep)
    ensures Run([], buf, k, step) == RunResult([], [], Open, buf)
  {
  }

  lemma RunOne(chunks: seq<string>, buf: Buffer, k: nat, step: LineStep)
    requires chunks != []
    ensures var b := Absorb(buf, chunks[0]);
            var d := Drain(b.lines, k, step);
            var now := Buffer(d.left, b.tail);
            var r, later := Run(chunks, buf, k, step), Run(chunks[1..], now, k + |d.out.pieces|, step);
            if d.out.status == Failed then r.pieces == d.out.pieces && r.buf == now
            else r.pieces == d.out.pieces + later.pieces && r.buf == later.buf
  {
  }

  /** All lines that a run starting with this buffer can see. */
  function Ahead(chunks: seq<string>, buf: Buffer): Buffer {
    Absorb(buf, Concat(chunks))
  }

  lemma AheadStep(chunks: seq<string>, buf: Buffer)
    requires chunks != []
    ensures var b := Absorb(buf, chunks[0]);
            Ahead(chunks, buf) == Absorb(b, Concat(chunks[1..]))
  {
    hide Lines, Rest;
    var more := Concat(chunks[1..]);
    assert buf.tail + (chunks[0] + more) == (buf.tail + chunks[0]) + more;
    LinesSplit(buf.tail + chunks[0], more);
  }

  /** One call parses the complete lines in the buffer, and leaves none if it was not stopped. */
  lemma {:induction false} DrainIsParse(lines: seq<string>, k: nat, step: LineStep)
    ensures var d := Drain(lines, k, step);
            && d.out == Parse(lines, k, false, step)
            && (d.out.status == Open ==> d.left == [])
  {
    if lines != [] {
      DrainIsParse(lines[1..], k + |step(lines[0], k).pieces|, step);
    }
  }

  lemma {:induction false} RunIsParse(chunks: seq<string>, tail: string, k: nat, step: LineStep)
    requires !HasLf(tail)
    ensures var r := Run(chunks, Buffer([], tail), k, step);
            var all := Ahead(chunks, Buffer([], tail));
            && Outcome(r.upTo, r.status) == Parse(all.lines, k, false, step)
            && (r.status == Open ==> r.buf == Buffer([], all.tail))
            && (r.status != SawDone ==> r.pieces == r.upTo)
            && r.upTo <= r.pieces
    decreases |chunks|
  {
    hide Lines, Rest, Drain, Parse;
    NoLines(tail);
    EmptyParse(k, false, step);
    if chunks == [] {
      assert tail + "" == tail;
      assert Ahead(chunks, Buffer([], tail)).lines == [];
    } else {
      AheadStep(chunks, Buffer([], tail));
      var b := Absorb(Buffer([], tail), chunks[0]);
      var later := Lines(b.tail + Concat(chunks[1..]));
      DrainIsParse(b.lines, k, step);
      ParseSplit(b.lines, later, k, false, step);
      var d := Drain(b.lines, k, step);
      if d.out.status == Open {
        RunIsParse(chunks[1..], b.tail, k + |d.out.pieces|, step);
        assert [] + later == later;
      }
    }
  }

  /**
   Main result. However the body is cut into chunks, the pieces up to the first [DONE] line,
   decoding error or refusal, and which of these came first, are those of one pass over the
   complete lines of the whole body; while none has come the buffer is what follows the last line feed.
   */
  lemma ChunkingIsInvisible(chunks: seq<string>, step: LineStep)
    ensures var r := Run(chunks, Buffer([], ""), 0, step);
            && Outcome(r.upTo, r.status) == Parse(Lines(Concat(chunks)), 0, false, step)
            && (r.status == Open ==> r.buf == Buffer([], Rest(Concat(chunks))))
            && (r.status != SawDone ==> r.pieces == r.upTo)
  {
    assert "" + Concat(chunks) == Concat(chunks);
    assert [] + Lines(Concat(chunks)) == Lines(Concat(chunks));
    RunIsParse(chunks, "", 0, step);
  }

  // -------------------------------------------------- after a [DONE] line

  /** A call that did not fail has parsed a prefix of the lines and left the others in the buffer. */
  lemma {:induction false} DrainThrough(lines: seq<string>, k: nat, step: LineStep) returns (used: seq<string>)
    requires Drain(lines, k, step).out.status != Failed
    ensures var d := Drain(lines, k, step);
            && lines == used + d.left
            && Parse(used, k, true, step) == Outcome(d.out.pieces, Open)
  {
    if lines == [] { return []; }
    var o := step(lines[0], k);
    used := [lines[0]];
    assert used[1..] == [];
    if o.status == Open {
      var u := DrainThrough(lines[1..], k + |o.pieces|, step);
      used := used + u;
      assert used[1..] == u;
    }
  }

  lemma {:induction false} DrainFails(lines: seq<string>, k: nat, step: LineStep)
    requires Drain(lines, k, step).out.status == Failed
    ensures Drain(lines, k, step).out == Parse(lines, k, true, step)
  {
    var o := step(lines[0], k);
    if o.status == Open {
      DrainFails(lines[1..], k + |o.pieces|, step);
    }
  }

  lemma {:induction false} RunWithin(chunks: seq<string>, buf: Buffer, k: nat, step: LineStep)
    ensures Run(chunks, buf, k, step).pieces <= Parse(Ahead(chunks, buf).lines, k, true, step).pieces
    decreases |chunks|
  {
    hide Lines, Rest, Drain, Parse;
    if chunks != [] {
      AheadStep(chunks, buf);
      var b := Absorb(buf, chunks[0]);
      var later := Lines(b.tail + Concat(chunks[1..]));
      var d := Drain(b.lines, k, step);
      if d.out.status == Failed {
        DrainFails(b.lines, k, step);
        ParseSplit(b.lines, later, k, true, step);
      } else {
        var used := DrainThrough(b.lines, k, step);
        assert b.lines + later == used + (d.left + later);
        ParseSplit(used, d.left + later, k, true, step);
        RunWithin(chunks[1..], Buffer(d.left, b.tail), k + |d.out.pieces|, step);
      }
    }
  }

  /** All pieces of a run lie between the parse that ends at [DONE] and the parse that passes over it. */
  lemma PiecesAreSandwiched(chunks: seq<string>, step: LineStep)
    ensures Parse(Lines(Concat(chunks)), 0, false, step).pieces <= Run(chunks, Buffer([], ""), 0, step).pieces
    ensures Run(chunks, Buffer([], ""), 0, step).pieces <= Parse(Lines(Concat(chunks)), 0, true, step).pieces
  {
    assert "" + Concat(chunks) == Concat(chunks);
    assert [] + Lines(Concat(chunks)) == Lines(Concat(chunks));
    RunIsParse(chunks, "", 0, step);
    RunWithin(chunks, Buffer([], ""), 0, step);
  }

  function Bytes(s: string): (chunks: seq<string>)
    ensures Concat(chunks) == s
  {
    if s == "" then [] else [[s[0]]] + Bytes(s[1..])
  }

  /** A buffer that has just received its first line feed is one line. */
  lemma OneLine(tail: string)
    requires !HasLf(tail)
    ensures Lines(tail + [LF]) == [tail] && Rest(tail + [LF]) == ""
  {
    var t := tail + [LF];
    assert t[..|tail|] == tail;
    FirstLfUnique(t, |tail|);
    assert t[|tail| + 1..] == "";
  }

  lemma LineThen(line: string, more: string)
    requires !HasLf(line)
    ensures Lines(line + [LF] + more) == [line] + Lines(more) && Rest(line + [LF] + more) == Rest(more)
  {
    hide Lines, Rest;
    OneLine(line);
    LinesSplit(line + [LF], more);
    assert "" + more == more;
  }

  /** The effect of a one-byte chunk on a drained buffer. */
  lemma OneByte(tail: string, c: char, k: nat, step: LineStep)
    requires !HasLf(tail)
    ensures var b := Absorb(Buffer([], tail), [c]);
            if c == LF then b == Buffer([tail], "") && Drain(b.lines, k, step) == Drained(step(tail, k), [])
            else b == Buffer([], tail + [c]) && Drain(b.lines, k, step) == Drained(Outcome([], Open), [])
  {
    if c == LF {
      OneLine(tail);
      assert [] + [tail] == [tail];
    }
  }

  lemma {:induction false} BytewiseRun(s: string, tail: string, k: nat, step: LineStep)
    requires !HasLf(tail)
    ensures Run(Bytes(s), Buffer([], tail), k, step).pieces == Parse(Lines(tail + s), k, true, step).pieces
    decreases |s|
  {
    hide Lines, Rest, Drain, Parse;
    NoLines(tail);
    EmptyParse(k, true, step);
    if s == "" {
      assert tail + s == tail;
    } else {
      var more := Lines((if s[0] == LF then "" else tail + [s[0]]) + s[1..]);
      assert Bytes(s)[0] == [s[0]] && Bytes(s)[1..] == Bytes(s[1..]);
      OneByte(tail, s[0], k, step);
      AheadStep(Bytes(s), Buffer([], tail));
      assert [] + more == more;
      if s[0] == LF {
        var o := step(tail, k);
        assert Lines(tail + s) == [tail] + more;
        ParseFirst(tail, more, k, true, step);
        if o.status != Failed {
          BytewiseRun(s[1..], "", k + |o.pieces|, step);
        }
      } else {
        assert Lines(tail + s) == more;
        BytewiseRun(s[1..], tail + [s[0]], k, step);
      }
    }
  }

  ghost predicate SamePiecesHoweverCut(s: string, step: LineStep) {
    forall chunks | Concat(chunks) == s ::
      Run(chunks, Buffer([], ""), 0, step).pieces == Parse(Lines(s), 0, false, step).pieces
  }

  /**
   The pieces of the whole run depend on the chunking exactly when some piece follows a [DONE] line:
   they are the same for every cut if and only if passing over [DONE] lines would add none.
   */
  lemma WhenCuttingMatters(s: string, step: LineStep)
    ensures SamePiecesHoweverCut(s, step)
            <==> Parse(Lines(s), 0, true, step).pieces == Parse(Lines(s), 0, false, step).pieces
  {
    forall chunks | Concat(chunks) == s
      ensures Parse(Lines(s), 0, false, step).pieces <= Run(chunks, Buffer([], ""), 0, step).pieces
      ensures Run(chunks, Buffer([], ""), 0, step).pieces <= Parse(Lines(s), 0, true, step).pieces
    {
      PiecesAreSandwiched(chunks, step);
    }
    assert "" + s == s;
    BytewiseRun(s, "", 0, step);
    assert Concat(Bytes(s)) == s;
  }

  // -------------------------------------------------- round trip

  /** One line as a server writes it, ended by LF or CRLF. */
  datatype Item = Data(text: string, crlf: bool) | Filler(line: string, crlf: bool)

  function Bare(item: Item): string {
    if item.Data? then FIELD + item.text else item.line
  }

  function LineOf(item: Item): string {
    Bare(item) + if item.crlf then [CR] else ""
  }

  function Print(items: seq<Item>): string {
    if items == [] then "" else LineOf(items[0]) + [LF] + Print(items[1..])
  }

  /** A payload may end in CR only when the line ends in CRLF. */
  predicate Writable(item: Item) {
    item.Data? && !HasLf(item.text) && (item.crlf || item.text == "" || item.text[|item.text| - 1] != CR)
  }

  /** A payload that can be decoded, to a piece or to nothing, or a line that is not data. */
  predicate Printable(item: Item, decode: Decoder) {
    match item
    case Data(text, _) => Writable(item) && text != DONE_MARK && !decode(text).Error?
    case Filler(line, _) => !HasLf(line) && (line == "" || line[0] == ':' || !(FIELD <= line))
  }

  /** The piece of a line, if it has one. */
  function PieceOf(item: Item, decode: Decoder): seq<string> {
    if item.Data? && decode(item.text).Piece? then [decode(item.text).text] else []
  }

  function PiecesOf(items: seq<Item>, decode: Decoder): seq<string> {
    if items == [] then [] else PieceOf(items[0], decode) + PiecesOf(items[1..], decode)
  }

  lemma DataRoundTrip(item: Item)
    requires Writable(item)
    ensures !HasLf(LineOf(item))
    ensures Classify(StripCr(LineOf(item))) == if item.text == DONE_MARK then Done else Payload(item.text)
  {
    var body, line := Bare(item), LineOf(item);
    assert body[|FIELD|..] == item.text;
    assert line[..|body|] == body;
    assert body[|body| - 1] == if item.text == "" then ' ' else item.text[|item.text| - 1];
    assert StripCr(line) == body;
  }

  lemma FillerIsSkipped(item: Item, decode: Decoder)
    requires item.Filler? && Printable(item, decode)
    ensures Classify(StripCr(LineOf(item))) == Skip
  {
    var whole := LineOf(item);
    assert whole[..|item.line|] == item.line;
    assert StripCr(whole) <= item.line;
  }

  lemma LineEffect(item: Item, k: nat, decode: Decoder, answer: Answers)
    requires Printable(item, decode)
    requires PieceOf(item, decode) != [] ==> answer(k)
    ensures !HasLf(LineOf(item))
    ensures StepOf(decode, answer)(LineOf(item), k) == Outcome(PieceOf(item, decode), Open)
  {
    if item.Data? { DataRoundTrip(item); } else { FillerIsSkipped(item, decode); }
  }

  lemma PrintFirst(items: seq<Item>, more: string, decode: Decoder)
    requires items != []
    ensures Print(items) + more == LineOf(items[0]) + [LF] + (Print(items[1..]) + more)
    ensures PiecesOf(items, decode) == PieceOf(items[0], decode) + PiecesOf(items[1..], decode)
  {
    hide LineOf;
  }

  lemma ThenTwice(a: seq<string>, b: seq<string>, o: Outcome)
    ensures Then(Outcome(a, Open), Then(Outcome(b, Open), o)) == Then(Outcome(a + b, Open), o)
    ensures Then(Outcome([], Open), o) == o
  {
    assert a + (b + o.pieces) == (a + b) + o.pieces;
    assert [] + o.pieces == o.pieces;
  }

  /** Printed lines whose pieces are accepted, and then anything. */
  lemma {:induction false} PrintThen(items: seq<Item>, more: string, k: nat, decode: Decoder, answer: Answers)
    requires forall i | 0 <= i < |items| :: Printable(items[i], decode)
    requires forall i: nat | k <= i < k + |PiecesOf(items, decode)| :: answer(i)
    ensures Rest(Print(items) + more) == Rest(more)
    ensures var step := StepOf(decode, answer);
            var n := |PiecesOf(items, decode)|;
            Parse(Lines(Print(items) + more), k, false, step)
            == Then(Outcome(PiecesOf(items, decode), Open), Parse(Lines(more), k + n, false, step))
    decreases |items|
  {
    hide Lines, Rest, StepOf, LineOf, Parse, Printable, PieceOf, Then;
    var step := StepOf(decode, answer);
    if items == [] {
      assert Print(items) + more == more;
      ThenTwice([], [], Parse(Lines(more), k, false, step));
    } else {
      var line, later := LineOf(items[0]), Print(items[1..]) + more;
      var here, rest := PieceOf(items[0], decode), PiecesOf(items[1..], decode);
      PrintFirst(items, more, decode);
      AtMostOnePiece(items[0], decode);
      LineEffect(items[0], k, decode, answer);
      LineThen(line, later);
      ParseFirst(line, Lines(later), k, false, step);
      PrintThen(items[1..], more, k + |here|, decode, answer);
      assert k + |here| + |rest| == k + |PiecesOf(items, decode)|;
      ThenTwice(here, rest, Parse(Lines(more), k + |here| + |rest|, false, step));
    }
  }

  lemma AtMostOnePiece(item: Item, decode: Decoder)
    ensures |PieceOf(item, decode)| <= 1
  {
  }

  /**
   Round trip. Payloads printed as `data: ` lines among blank lines, comments, other fields and payloads without a piece
   come back as exactly their pieces under every chunking, and the unfinished last line stays in the buffer.
   */
  lemma RoundTrip(items: seq<Item>, tail: string, chunks: seq<string>, decode: Decoder, answer: Answers)
    requires forall i | 0 <= i < |items| :: Printable(items[i], decode)
    requires !HasLf(tail)
    requires forall i: nat | i < |PiecesOf(items, decode)| :: answer(i)
    requires Concat(chunks) == Print(items) + tail
    ensures var r := Run(chunks, Buffer([], ""), 0, StepOf(decode, answer));
            r.pieces == PiecesOf(items, decode) && r.status == Open && r.buf == Buffer([], tail)
  {
    hide Parse, Lines, Rest, Run;
    ChunkingIsInvisible(chunks, StepOf(decode, answer));
    PrintThen(items, tail, 0, decode, answer);
    NoLines(tail);
    EmptyParse(|PiecesOf(items, decode)|, false, StepOf(decode, answer));
    assert PiecesOf(items, decode) + [] == PiecesOf(items, decode);
  }

  // -------------------------------------------------- lines that stop the stream

  /** What a data line that stops the stream gives: the piece that was refused, and how the stream ends. */
  function Stops(last: Item, k: nat, decode: Decoder, answer: Answers): Option<Outcome>
    requires last.Data?
  {
    if last.text == DONE_MARK then Some(Outcome([], SawDone))
    else if decode(last.text).Error? then Some(Outcome([], Failed))
    else if decode(last.text).Piece? && !answer(k) then Some(Outcome(PieceOf(last, decode), Failed))
    else None
  }

  lemma StoppingLine(last: Item, more: string, k: nat, decode: Decoder, answer: Answers)
    requires Writable(last) && Stops(last, k, decode, answer).Some?
    ensures Parse(Lines(LineOf(last) + [LF] + more), k, false, StepOf(decode, answer)) == Stops(last, k, decode, answer).value
  {
    hide Lines, Rest, Parse, LineOf;
    DataRoundTrip(last);
    LineThen(LineOf(last), more);
    ParseFirst(LineOf(last), Lines(more), k, false, StepOf(decode, answer));
  }

  /**
   Main result. After printed lines whose pieces are accepted, a payload that cannot be decoded or whose piece is refused
   ends the stream in failure, and the [DONE] mark ends it well, whatever follows and however it is cut: the pieces
   up to there are exactly those of the lines before, and the refused one.
   */
  lemma StopsWhereItShould(items: seq<Item>, last: Item, more: string, chunks: seq<string>, decode: Decoder, answer: Answers)
    requires forall i | 0 <= i < |items| :: Printable(items[i], decode)
    requires forall i: nat | i < |PiecesOf(items, decode)| :: answer(i)
    requires Writable(last) && Stops(last, |PiecesOf(items, decode)|, decode, answer).Some?
    requires Concat(chunks) == Print(items) + (LineOf(last) + [LF] + more)
    ensures var r := Run(chunks, Buffer([], ""), 0, StepOf(decode, answer));
            var o := Stops(last, |PiecesOf(items, decode)|, decode, answer).value;
            && r.status == o.status
            && r.upTo == PiecesOf(items, decode) + o.pieces
            && (r.status == Failed ==> r.pieces == r.upTo)
  {
    hide Parse, Lines, Rest, Run, LineOf, Print;
    ChunkingIsInvisible(chunks, StepOf(decode, answer));
    PrintThen(items, LineOf(last) + [LF] + more, 0, decode, answer);
    StoppingLine(last, more, |PiecesOf(items, decode)|, decode, answer);
  }

  /** Every piece but the last was accepted, and the last too unless the call failed. */
  predicate AcceptedBefore(o: Outcome, k: nat, answer: Answers) {
    forall i: nat | k <= i < k + |o.pieces| && (i + 1 < k + |o.pieces| || o.status != Failed) :: answer(i)
  }

  lemma {:induction false} DrainAccepted(lines: seq<string>, k: nat, decode: Decoder, answer: Answers)
    ensures AcceptedBefore(Drain(lines, k, StepOf(decode, answer)).out, k, answer)
    decreases |lines|
  {
    var step := StepOf(decode, answer);
    if lines != [] {
      var o := step(lines[0], k);
      if o.status == Open {
        DrainAccepted(lines[1..], k + |o.pieces|, decode, answer);
        var later := Drain(lines[1..], k + |o.pieces|, step).out;
        assert Drain(lines, k, step).out.pieces == o.pieces + later.pieces;
      }
    }
  }

  lemma {:induction false} RunAccepted(chunks: seq<string>, buf: Buffer, k: nat, decode: Decoder, answer: Answers)
    ensures var r := Run(chunks, buf, k, StepOf(decode, answer));
            forall i: nat | k <= i && i + 1 < k + |r.pieces| :: answer(i)
    decreases |chunks|
  {
    hide Drain, Absorb, StepOf, Run;
    var step := StepOf(decode, answer);
    if chunks == [] {
      RunNone(buf, k, step);
    } else {
      var b := Absorb(buf, chunks[0]);
      var d := Drain(b.lines, k, step);
      RunOne(chunks, buf, k, step);
      DrainAccepted(b.lines, k, decode, answer);
      if d.out.status != Failed {
        var now := Buffer(d.left, b.tail);
        RunAccepted(chunks[1..], now, k + |d.out.pieces|, decode, answer);
      }
    }
  }

  /** Main result. For every body and every cut, no piece follows one that the callback refused. */
  lemma NoPieceAfterRefusal(chunks: seq<string>, decode: Decoder, answer: Answers)
    ensures var r := Run(chunks, Buffer([], ""), 0, StepOf(decode, answer));
            forall k: nat | k + 1 < |r.pieces| :: answer(k)
  {
    hide Run;
    RunAccepted(chunks, Buffer([], ""), 0, decode, answer);
  }
}
