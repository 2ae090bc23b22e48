/**
 The message-queue worker thread. Its table, poller and tag counter are touched by no other thread,
 so a run of the worker is determined by what it reads from outside: the stop flag, what poll reports,
 the commands it claims and how many ZeroMQ calls succeed. These are the parameters.

 `_run` sets up its sockets and leaves the loop to `_run_loop`, which nothing calls; the
 worker body modelled here is `_run_loop`.
 */
module MqWorker {
  import opened Common
  import opened MqTable

  /** What handling the control socket comes to. */
  datatype Control =
    | NoCommand                          // receive not ok, bad size, or an id not in the command table
    | Closed                             // receive reports a closed context
    | Claimed(cmd: Command, good: nat)

  /** One entry of a poll result, with what is read when it is handled. */
  datatype Event = Event(tag: nat, readable: bool, control: Control)

  datatype Round = Round(stopFlag: bool, events: seq<Event>)

  /** Why a batch or the loop ended. `Going`: it did not. */
  datatype End = Going | Left | Crashed

  /** A subscriber event handled: the entry it reached, the poll round, and the event's place in that round's result. */
  datatype Delivery = Delivery(round: nat, event: nat, id: int, socket: nat)

  // ------------------------------------------------------------ one poll result

  /** The subscriber with a tag. */
  ghost function Holder(t: Table, tag: nat): (holder: Option<int>)
    ensures holder.Some? ==> holder.value in t.subscribers && t.subscribers[holder.value].tag == tag
    ensures holder.None? ==> forall id | id in t.subscribers :: t.subscribers[id].tag != tag
  {
    if exists id :: id in t.subscribers && t.subscribers[id].tag == tag then
      var id :| id in t.subscribers && t.subscribers[id].tag == tag;
      Some(id)
    else None
  }

  lemma HolderIsUnique(t: Table, tag: nat, id: int)
    requires TagsDistinct(t) && id in t.subscribers && t.subscribers[id].tag == tag
    ensures Holder(t, tag) == Some(id)
  {
  }

  /** What a subscriber event comes to: a delivery to the subscriber with its tag, if there is one. */
  ghost function DeliveryOf(t: Table, tag: nat, round: nat, event: nat): seq<Delivery> {
    match Holder(t, tag)
    case None => []
    case Some(id) => [Delivery(round, event, id, t.subscribers[id].socket)]
  }

  /** The table after a poll result, how handling it ended, and the deliveries made. */
  datatype Handled = Handled(table: Table, end: End, deliveries: seq<Delivery>)

  /** Events in order, up to a control event that ends the loop; the first of them has place `k`. */
  ghost function AfterBatch(t: Table, events: seq<Event>, round: nat, k: nat): Handled
    decreases |events|
  {
    if events == [] then Handled(t, Going, [])
    else
      var (t', end) := AfterEvent(t, events[0]);
      if end != Going then Handled(t', end, [])
      else
        var more := AfterBatch(t', events[1..], round, k + 1);
        more.(deliveries := FirstDelivery(t, events[0], round, k) + more.deliveries)
  }

  predicate IsDelivery(e: Event) { e.readable && e.tag != CONTROL_TAG }

  ghost function FirstDelivery(t: Table, e: Event, round: nat, k: nat): seq<Delivery> {
    if IsDelivery(e) then DeliveryOf(t, e.tag, round, k) else []
  }

  /** Only readable control events change the table or end the loop. */
  function AfterEvent(t: Table, e: Event): (Table, End) {
    if e.readable && e.tag == CONTROL_TAG then AfterControl(t, e.control) else (t, Going)
  }

  function AfterControl(t: Table, control: Control): (Table, End) {
    match control
    case NoCommand => (t, Going)
    case Closed => (t, Left)
    case Claimed(cmd, good) =>
      var o := Exec(t, cmd, good);
      (o.table, if o.result.Escaped? then Crashed else if cmd.Stop? then Left else Going)
  }

  lemma BatchOne(t: Table, events: seq<Event>, round: nat, k: nat)
    requires events != []
    ensures var (t', end) := AfterEvent(t, events[0]);
            AfterBatch(t, events, round, k) ==
            if end != Going then Handled(t', end, [])
            else
              var more := AfterBatch(t', events[1..], round, k + 1);
              more.(deliveries := FirstDelivery(t, events[0], round, k) + more.deliveries)
  {
  }

  lemma BatchNone(t: Table, round: nat, k: nat)
    ensures AfterBatch(t, [], round, k) == Handled(t, Going, [])
  {
  }

  /** The table when event i of a poll result is reached; None if the loop ends before. */
  function TableAt(t: Table, events: seq<Event>, i: nat): Option<Table>
    requires i < |events|
    decreases |events|
  {
    if i == 0 then Some(t)
    else
      var (t', end) := AfterEvent(t, events[0]);
      if end != Going then None else TableAt(t', events[1..], i - 1)
  }

  /** Event i is reached, is a subscriber's, and that subscriber is in the table then. */
  ghost predicate Due(t: Table, events: seq<Event>, i: nat)
    requires i < |events|
  {
    IsDelivery(events[i]) && TableAt(t, events, i).Some? && Holder(TableAt(t, events, i).value, events[i].tag).Some?
  }

  /** Delivery d was made for event i, and to the very subscriber with that event's tag. */
  ghost predicate Rightly(t: Table, events: seq<Event>, i: nat, d: Delivery)
    requires i < |events|
  {
    Due(t, events, i) && var now := TableAt(t, events, i).value;
      d.id in now.subscribers && now.subscribers[d.id].tag == events[i].tag && now.subscribers[d.id].socket == d.socket
  }

  /** The deliveries of a poll result are those due, each once and in order. */
  ghost predicate DeliversDue(t: Table, events: seq<Event>, round: nat, k: nat, ds: seq<Delivery>) {
    && (forall j | 0 <= j < |ds| ::
          k <= ds[j].event < k + |events| && ds[j].round == round && Rightly(t, events, ds[j].event - k, ds[j]))
    && (forall j, l | 0 <= j < l < |ds| :: ds[j].event < ds[l].event)
    && (forall i: nat | i < |events| && Due(t, events, i) :: exists j :: 0 <= j < |ds| && ds[j].event == k + i)
  }

  lemma Later(t: Table, events: seq<Event>, i: nat)
    requires 0 < i < |events| && AfterEvent(t, events[0]).1 == Going
    ensures var t' := AfterEvent(t, events[0]).0;
            && TableAt(t, events, i) == TableAt(t', events[1..], i - 1)
            && (Due(t, events, i) <==> Due(t', events[1..], i - 1))
            && (forall d :: Rightly(t, events, i, d) <==> Rightly(t', events[1..], i - 1, d))
  {
    hide AfterEvent;
  }

  lemma Never(t: Table, events: seq<Event>, i: nat)
    requires i < |events| && AfterEvent(t, events[0]).1 != Going
    ensures !Due(t, events, i)
  {
  }

  lemma First(t: Table, events: seq<Event>, round: nat, k: nat)
    requires events != []
    ensures var ds := FirstDelivery(t, events[0], round, k);
            && (Due(t, events, 0) <==> ds != [])
            && |ds| <= 1
            && (ds != [] ==> ds[0].event == k && ds[0].round == round && Rightly(t, events, 0, ds[0]))
  {
  }

  lemma OneMoreIsRight(t: Table, events: seq<Event>, round: nat, k: nat, more: seq<Delivery>)
    requires events != [] && AfterEvent(t, events[0]).1 == Going
    requires DeliversDue(AfterEvent(t, events[0]).0, events[1..], round, k + 1, more)
    ensures var ds := FirstDelivery(t, events[0], round, k) + more;
            forall j | 0 <= j < |ds| ::
              k <= ds[j].event < k + |events| && ds[j].round == round && Rightly(t, events, ds[j].event - k, ds[j])
  {
    hide AfterEvent, Due, Rightly, FirstDelivery;
    var first := FirstDelivery(t, events[0], round, k);
    First(t, events, round, k);
    var ds := first + more;
    forall j | 0 <= j < |ds|
      ensures k <= ds[j].event < k + |events| && ds[j].round == round && Rightly(t, events, ds[j].event - k, ds[j])
    {
      if j >= |first| {
        var d := more[j - |first|];
        Later(t, events, d.event - k);
      }
    }
  }

  lemma OneMoreIsDelivered(t: Table, events: seq<Event>, round: nat, k: nat, more: seq<Delivery>, i: nat)
    requires events != [] && AfterEvent(t, events[0]).1 == Going && i < |events| && Due(t, events, i)
    requires DeliversDue(AfterEvent(t, events[0]).0, events[1..], round, k + 1, more)
    ensures var ds := FirstDelivery(t, events[0], round, k) + more;
            exists j :: 0 <= j < |ds| && ds[j].event == k + i
  {
    hide AfterEvent, Due, Rightly, FirstDelivery;
    var first := FirstDelivery(t, events[0], round, k);
    First(t, events, round, k);
    var ds := first + more;
    if i == 0 {
      assert ds[0].event == k;
    } else {
      Later(t, events, i);
      var j :| 0 <= j < |more| && more[j].event == (k + 1) + (i - 1);
      assert ds[|first| + j] == more[j];
    }
  }

  lemma DeliversOneMore(t: Table, events: seq<Event>, round: nat, k: nat, more: seq<Delivery>)
    requires events != [] && AfterEvent(t, events[0]).1 == Going
    requires DeliversDue(AfterEvent(t, events[0]).0, events[1..], round, k + 1, more)
    ensures DeliversDue(t, events, round, k, FirstDelivery(t, events[0], round, k) + more)
  {
    hide AfterEvent, Due, Rightly, FirstDelivery;
    var first := FirstDelivery(t, events[0], round, k);
    First(t, events, round, k);
    var ds := first + more;
    OneMoreIsRight(t, events, round, k, more);
    forall i: nat | i < |events| && Due(t, events, i)
      ensures exists j :: 0 <= j < |ds| && ds[j].event == k + i
    {
      OneMoreIsDelivered(t, events, round, k, more, i);
    }
  }

  lemma {:induction false} BatchDeliversDue(t: Table, events: seq<Event>, round: nat, k: nat)
    ensures DeliversDue(t, events, round, k, AfterBatch(t, events, round, k).deliveries)
    decreases |events|
  {
    hide Due, Rightly, AfterBatch, AfterEvent, DeliversDue;
    if events == [] {
      BatchNone(t, round, k);
      NothingDue(t, events, round, k);
    } else {
      BatchOne(t, events, round, k);
      var (t', end) := AfterEvent(t, events[0]);
      if end != Going {
        forall i: nat | i < |events| { Never(t, events, i); }
        NothingDue(t, events, round, k);
      } else {
        BatchDeliversDue(t', events[1..], round, k + 1);
        var more := AfterBatch(t', events[1..], round, k + 1).deliveries;
        DeliversOneMore(t, events, round, k, more);
      }
    }
  }

  lemma NothingDue(t: Table, events: seq<Event>, round: nat, k: nat)
    requires forall i: nat | i < |events| :: !Due(t, events, i)
    ensures DeliversDue(t, events, round, k, [])
  {
    hide Due, Rightly;
  }

  /** A readable control event for which the worker claims a command. */
  predicate Claims(e: Event) { e.readable && e.tag == CONTROL_TAG && e.control.Claimed? }

  /** A readable control event that tells the worker to leave: a stop command, or a closed context. */
  predicate TellsToLeave(e: Event) {
    e.readable && e.tag == CONTROL_TAG && (e.control.Closed? || (e.control.Claimed? && e.control.cmd.Stop?))
  }

  /** A claimed command whose execution throws. */
  predicate Throws(now: Table, e: Event) {
    Claims(e) && Exec(now, e.control.cmd, e.control.good).result.Escaped?
  }

  /** The table changes by executing claimed commands and by nothing else. */
  function Executed(now: Table, e: Event): Table {
    if Claims(e) then Exec(now, e.control.cmd, e.control.good).table else now
  }

  lemma EventEnds(t: Table, e: Event)
    ensures var (t', end) := AfterEvent(t, e);
            && t' == Executed(t, e)
            && (end == Left <==> TellsToLeave(e))
            && (end == Crashed <==> Throws(t, e))
  {
  }

  /** The table when event i is reached, for events that are. */
  function Now(t: Table, events: seq<Event>, i: nat): Table
    requires i < |events|
  {
    match TableAt(t, events, i) case None => t case Some(now) => now
  }

  /** Event i leaves the loop going, and the table with its command executed. */
  ghost predicate GoesOn(t: Table, events: seq<Event>, i: nat)
    requires i + 1 < |events|
  {
    && !TellsToLeave(events[i]) && !Throws(Now(t, events, i), events[i])
    && Now(t, events, i + 1) == Executed(Now(t, events, i), events[i])
  }

  lemma NowLater(t: Table, events: seq<Event>, i: nat)
    requires i < |events| && i > 0 && AfterEvent(t, events[0]).1 == Going && TableAt(t, events, i).Some?
    ensures Now(t, events, i) == Now(AfterEvent(t, events[0]).0, events[1..], i - 1)
  {
    hide AfterEvent;
  }

  /**
   How a poll result ends and what it leaves: of its events the first n are reached. The loop is left exactly if the last
   of these tells it to, and dies exactly if the last throws; otherwise all are reached. The table goes from
   event to event by executing the commands claimed.
   */
  lemma {:induction false} HowABatchEnds(t: Table, events: seq<Event>, round: nat, k: nat) returns (n: nat)
    ensures n <= |events| && (events != [] ==> n > 0)
    ensures forall i: nat | i < |events| :: TableAt(t, events, i).Some? <==> i < n
    ensures forall i: nat | i + 1 < n :: GoesOn(t, events, i)
    ensures var b := AfterBatch(t, events, round, k);
            if n == 0 then b.table == t && b.end == Going
            else
              var last := Now(t, events, n - 1);
              && b.table == Executed(last, events[n - 1])
              && (b.end == Left <==> TellsToLeave(events[n - 1]))
              && (b.end == Crashed <==> Throws(last, events[n - 1]))
              && (b.end == Going ==> n == |events|)
    decreases |events|
  {
    hide AfterEvent, Executed, TellsToLeave, Throws;
    n := 0;
    if events != [] {
      var (t', end) := AfterEvent(t, events[0]);
      EventEnds(t, events[0]);
      n := 1;
      if end == Going {
        var m := HowABatchEnds(t', events[1..], round, k + 1);
        n := m + 1;
        forall i: nat | 0 < i < n { NowLater(t, events, i); }
        forall i: nat | i + 1 < n
          ensures GoesOn(t, events, i)
        {
          if i > 0 { assert GoesOn(t', events[1..], i - 1); }
        }
      }
    }
  }

  lemma EventKeepsRunning(t: Table, e: Event)
    requires Running(t)
    ensures Running(AfterEvent(t, e).0) && NewTagsOnly(t, AfterEvent(t, e).0)
  {
    hide Exec, Running, NewTagsOnly;
    NoNewTags(t);
    if e.control.Claimed? { ExecKeepsRunning(t, e.control.cmd, e.control.good); }
  }

  lemma {:induction false} TableAtKeepsRunning(t: Table, events: seq<Event>, i: nat)
    requires Running(t) && i < |events| && TableAt(t, events, i).Some?
    ensures Running(TableAt(t, events, i).value) && NewTagsOnly(t, TableAt(t, events, i).value)
    decreases |events|
  {
    hide AfterEvent, Running, NewTagsOnly;
    NoNewTags(t);
    if i > 0 {
      var (t', end) := AfterEvent(t, events[0]);
      EventKeepsRunning(t, events[0]);
      TableAtKeepsRunning(t', events[1..], i - 1);
      NewTagsTwice(t, t', TableAt(t, events, i).value);
    }
  }

  /** The subscriber is still in the table, and not gone and created again. */
  predicate StillThere(t: Table, now: Table, id: int)
    requires id in t.subscribers
  {
    id in now.subscribers && now.subscribers[id].tag == t.subscribers[id].tag
  }

  /**
   Main result. An event of a poll result reported for a subscriber is delivered exactly when it is readable, the loop gets
   to it, and that subscriber is still in the table then; and it goes to that subscriber, over the socket it had
   at the poll. If the subscriber is gone the event reaches nobody, not even one created again under its id.
   */
  lemma EventsReachTheirSubscribers(t: Table, events: seq<Event>, round: nat, i: nat, id: int)
    requires Running(t) && i < |events| && id in t.subscribers && events[i].tag == t.subscribers[id].tag
    ensures var ds := AfterBatch(t, events, round, 0).deliveries;
            && ((exists j :: 0 <= j < |ds| && ds[j].event == i) <==>
                  events[i].readable && TableAt(t, events, i).Some? && StillThere(t, TableAt(t, events, i).value, id))
            && (forall j | 0 <= j < |ds| && ds[j].event == i :: ds[j] == Delivery(round, i, id, t.subscribers[id].socket))
            && (forall j, l | 0 <= j < l < |ds| :: ds[j].event != ds[l].event)
  {
    hide AfterBatch, TableAt, NewTagsOnly, Running;
    BatchDeliversDue(t, events, round, 0);
    var ds := AfterBatch(t, events, round, 0).deliveries;
    assert Due(t, events, i) ==> exists j :: 0 <= j < |ds| && ds[j].event == 0 + i;
    RunningIsDistinct(t);
    if TableAt(t, events, i).Some? {
      var now := TableAt(t, events, i).value;
      TableAtKeepsRunning(t, events, i);
      RunningIsDistinct(now);
      OldTagIsOldEntry(t, now, events[i].tag, id);
      if StillThere(t, now, id) { HolderIsUnique(now, events[i].tag, id); }
    }
  }

  /** A tag drawn before the poll is held now, if at all, by the subscriber that held it then. */
  lemma OldTagIsOldEntry(t: Table, now: Table, tag: nat, id: int)
    requires TagsDistinct(t) && NewTagsOnly(t, now) && id in t.subscribers && t.subscribers[id].tag == tag
    ensures forall jd | jd in now.subscribers && now.subscribers[jd].tag == tag ::
              jd == id && now.subscribers[id].socket == t.subscribers[id].socket
  {
  }

  /** Every delivery of a poll result is of an event that was reported for the subscriber it reached. */
  lemma DeliveriesAreReported(t: Table, events: seq<Event>, round: nat)
    requires Running(t) && forall e | e in events :: e.tag in t.poller.Values
    ensures forall d | d in AfterBatch(t, events, round, 0).deliveries ::
              && d.event < |events| && d.round == round
              && d.id in t.subscribers
              && t.subscribers[d.id].tag == events[d.event].tag && t.subscribers[d.id].socket == d.socket
  {
    hide AfterBatch, TableAt, NewTagsOnly, Running, Holder;
    BatchDeliversDue(t, events, round, 0);
    PolledTags(t);
    forall d | d in AfterBatch(t, events, round, 0).deliveries
      ensures && d.event < |events| && d.round == round
              && d.id in t.subscribers
              && t.subscribers[d.id].tag == events[d.event].tag && t.subscribers[d.id].socket == d.socket
    {
      assert events[d.event] in events;
      TableAtKeepsRunning(t, events, d.event);
      OldEntry(t, TableAt(t, events, d.event).value, d.id);
    }
  }

  lemma OldEntry(t: Table, now: Table, id: int)
    requires NewTagsOnly(t, now) && id in now.subscribers && now.subscribers[id].tag <= t.nextTag
    ensures id in t.subscribers
    ensures t.subscribers[id].tag == now.subscribers[id].tag && t.subscribers[id].socket == now.subscribers[id].socket
  {
  }

  /** What poll can report was drawn from the tag counter before the poll. */
  lemma PolledTags(t: Table)
    requires Running(t)
    ensures forall tag | tag in t.poller.Values :: tag <= t.nextTag
  {
    forall tag | tag in t.poller.Values
      ensures tag <= t.nextTag
    {
      var w :| w in t.poller && t.poller[w] == tag;
    }
  }

  // ------------------------------------------------------------ the loop

  /** Poll reports registered sockets only. */
  function Reported(ready: seq<Event>, poller: map<Watched, nat>): (events: seq<Event>)
    ensures forall e | e in events :: e in ready && e.tag in poller.Values
    ensures (forall e | e in ready :: e.tag in poller.Values) ==> events == ready
  {
    if ready == [] then [] else
      (if ready[0].tag in poller.Values then [ready[0]] else []) + Reported(ready[1..], poller)
  }

  /** `polled`: the table at each poll. */
  datatype Looped = Looped(table: Table, end: End, polled: seq<Table>, delivered: seq<Delivery>)

  /** Rounds in order, up to one whose flag is set or whose poll result ends the loop; the first is round n. */
  ghost function AfterRounds(t: Table, rounds: seq<Round>, n: nat): Looped
    decreases |rounds|
  {
    if rounds == [] then Looped(t, Going, [], [])
    else if rounds[0].stopFlag then Looped(t, Left, [], [])
    else
      var b := AfterBatch(t, Reported(rounds[0].events, t.poller), n, 0);
      if b.end != Going then Looped(b.table, b.end, [t], b.deliveries)
      else
        var more := AfterRounds(b.table, rounds[1..], n + 1);
        more.(polled := [t] + more.polled, delivered := b.deliveries + more.delivered)
  }

  lemma RoundsOne(t: Table, rounds: seq<Round>, n: nat)
    requires rounds != [] && !rounds[0].stopFlag
    ensures var b := AfterBatch(t, Reported(rounds[0].events, t.poller), n, 0);
            var l := AfterRounds(t, rounds, n);
            if b.end != Going then l == Looped(b.table, b.end, [t], b.deliveries)
            else
              var more := AfterRounds(b.table, rounds[1..], n + 1);
              l == more.(polled := [t] + more.polled, delivered := b.deliveries + more.delivered)
  {
  }

  lemma RoundsEnd(t: Table, rounds: seq<Round>, n: nat)
    requires rounds == [] || rounds[0].stopFlag
    ensures AfterRounds(t, rounds, n) == Looped(t, if rounds == [] then Going else Left, [], [])
  {
  }

  lemma {:induction false} BatchKeepsRunning(t: Table, events: seq<Event>, round: nat, k: nat)
    requires Running(t)
    ensures Running(AfterBatch(t, events, round, k).table)
    decreases |events|
  {
    hide AfterEvent, Running;
    if events != [] {
      EventKeepsRunning(t, events[0]);
      BatchKeepsRunning(AfterEvent(t, events[0]).0, events[1..], round, k + 1);
    }
  }

  /** What handling the poll result of a round comes to, from the table at that poll. */
  ghost function OfRound(t: Table, r: Round, n: nat): Handled { AfterBatch(t, Reported(r.events, t.poller), n, 0) }

  /** No flag was set where the loop polled, and it goes on until something ends it. */
  ghost predicate PollsRight(rounds: seq<Round>, n: nat, l: Looped) {
    && Running(l.table)
    && |l.polled| <= |rounds| && (l.end == Going ==> |l.polled| == |rounds|)
    && (forall i | 0 <= i < |l.polled| :: !rounds[i].stopFlag && Running(l.polled[i]))
    && (forall i: nat | i + 1 < |l.polled| :: l.polled[i + 1] == OfRound(l.polled[i], rounds[i], n + i).table)
  }

  /** No event of any round is delivered twice. */
  predicate OnceEach(ds: seq<Delivery>) {
    forall j, m | 0 <= j < m < |ds| :: ds[j].round != ds[m].round || ds[j].event != ds[m].event
  }

  /** The deliveries of each round are those of its poll result. */
  ghost predicate DeliversPolls(rounds: seq<Round>, n: nat, l: Looped)
    requires |l.polled| <= |rounds|
  {
    && OnceEach(l.delivered)
    && (forall d | d in l.delivered :: n <= d.round < n + |l.polled|)
    && (forall i: nat, d: Delivery | i < |l.polled| && d.round == n + i ::
          d in l.delivered <==> d in OfRound(l.polled[i], rounds[i], n + i).deliveries)
  }

  /**
   Over every run of the loop: it polls in no round whose flag was set, and the deliveries of a round are exactly
   those of that round's poll result, handled with the table as it was at that poll.
   */
  lemma {:induction false} LoopDeliversItsPolls(t: Table, rounds: seq<Round>, n: nat)
    requires Running(t)
    ensures PollsRight(rounds, n, AfterRounds(t, rounds, n)) && DeliversPolls(rounds, n, AfterRounds(t, rounds, n))
    ensures AfterRounds(t, rounds, n).polled != [] ==> AfterRounds(t, rounds, n).polled[0] == t
    decreases |rounds|
  {
    hide AfterBatch, Running, Reported;
    if rounds != [] && !rounds[0].stopFlag {
      var events := Reported(rounds[0].events, t.poller);
      BatchKeepsRunning(t, events, n, 0);
      InRound(t, events, n);
      var b := AfterBatch(t, events, n, 0);
      if b.end == Going {
        LoopDeliversItsPolls(b.table, rounds[1..], n + 1);
        LoopOne(t, rounds, n, b, AfterRounds(b.table, rounds[1..], n + 1));
      }
    }
  }

  lemma InRound(t: Table, events: seq<Event>, round: nat)
    ensures forall d | d in AfterBatch(t, events, round, 0).deliveries :: d.round == round
    ensures OnceEach(AfterBatch(t, events, round, 0).deliveries)
  {
    hide AfterBatch, TableAt, Due, Rightly;
    BatchDeliversDue(t, events, round, 0);
  }

  lemma LoopOne(t: Table, rounds: seq<Round>, n: nat, b: Handled, more: Looped)
    requires rounds != [] && !rounds[0].stopFlag && Running(t) && b == OfRound(t, rounds[0], n)
    requires OnceEach(b.deliveries) && forall d | d in b.deliveries :: d.round == n
    requires PollsRight(rounds[1..], n + 1, more) && DeliversPolls(rounds[1..], n + 1, more)
    requires more.polled != [] ==> more.polled[0] == b.table
    ensures var l := more.(polled := [t] + more.polled, delivered := b.deliveries + more.delivered);
            PollsRight(rounds, n, l) && DeliversPolls(rounds, n, l)
  {
    hide OfRound, Running;
    var l := more.(polled := [t] + more.polled, delivered := b.deliveries + more.delivered);
    forall i: nat | i + 1 < |l.polled|
      ensures l.polled[i + 1] == OfRound(l.polled[i], rounds[i], n + i).table
    {
      if i > 0 { assert more.polled[(i - 1) + 1] == OfRound(more.polled[i - 1], rounds[1..][i - 1], (n + 1) + (i - 1)).table; }
    }
    forall i: nat, d: Delivery | i < |l.polled| && d.round == n + i
      ensures d in l.delivered <==> d in OfRound(l.polled[i], rounds[i], n + i).deliveries
    {
      if i > 0 {
        assert d.round == (n + 1) + (i - 1);
        assert d in more.delivered <==> d in OfRound(more.polled[i - 1], rounds[1..][i - 1], (n + 1) + (i - 1)).deliveries;
      }
    }
  }

  /**
   How the loop ends and what it leaves: every poll but the last goes on to the next round; with its last poll the loop is
   left or dies, or it is left at a round whose flag is set, or there are no more rounds.
   */
  ghost predicate EndsRight(t: Table, rounds: seq<Round>, n: nat, l: Looped) {
    var m := |l.polled|;
    && m <= |rounds|
    && (forall i: nat | i + 1 < m :: OfRound(l.polled[i], rounds[i], n + i).end == Going)
    && if m == 0 then l.table == t && AfterPolls(rounds, l)
       else
         var last := OfRound(l.polled[m - 1], rounds[m - 1], n + (m - 1));
         l.table == last.table && if last.end != Going then l.end == last.end else AfterPolls(rounds, l)
  }

  predicate AfterPolls(rounds: seq<Round>, l: Looped) {
    var m := |l.polled|;
    if m < |rounds| then l.end == Left && rounds[m].stopFlag else l.end == Going
  }

  lemma EndsRightMore(t: Table, rounds: seq<Round>, n: nat, b: Handled, more: Looped)
    requires rounds != [] && b == OfRound(t, rounds[0], n) && b.end == Going
    requires EndsRight(b.table, rounds[1..], n + 1, more)
    ensures EndsRight(t, rounds, n, more.(polled := [t] + more.polled, delivered := b.deliveries + more.delivered))
  {
    hide OfRound;
    var l := more.(polled := [t] + more.polled, delivered := b.deliveries + more.delivered);
    var m := |more.polled|;
    forall i: nat | i + 1 < |l.polled|
      ensures OfRound(l.polled[i], rounds[i], n + i).end == Going
    {
      if i > 0 { assert OfRound(more.polled[i - 1], rounds[1..][i - 1], (n + 1) + (i - 1)).end == Going; }
    }
    if m > 0 {
      assert OfRound(more.polled[m - 1], rounds[1..][m - 1], (n + 1) + (m - 1))
          == OfRound(l.polled[m], rounds[m], n + m);
    }
  }

  lemma {:induction false} HowTheLoopEnds(t: Table, rounds: seq<Round>, n: nat)
    ensures EndsRight(t, rounds, n, AfterRounds(t, rounds, n))
    decreases |rounds|
  {
    hide AfterBatch, Reported, EndsRight;
    if rounds == [] || rounds[0].stopFlag {
      NoPoll(t, rounds, n);
    } else {
      var b := OfRound(t, rounds[0], n);
      if b.end == Going {
        HowTheLoopEnds(b.table, rounds[1..], n + 1);
        EndsRightMore(t, rounds, n, b, AfterRounds(b.table, rounds[1..], n + 1));
      } else {
        LastPoll(t, rounds, n, b);
      }
    }
  }

  lemma NoPoll(t: Table, rounds: seq<Round>, n: nat)
    requires rounds == [] || rounds[0].stopFlag
    ensures EndsRight(t, rounds, n, AfterRounds(t, rounds, n))
  {
  }

  lemma LastPoll(t: Table, rounds: seq<Round>, n: nat, b: Handled)
    requires rounds != [] && b == OfRound(t, rounds[0], n) && b.end != Going
    ensures EndsRight(t, rounds, n, Looped(b.table, b.end, [t], b.deliveries))
  {
    hide OfRound;
    assert [t][0] == t && n + 0 == n;
  }

  /**
   Main result, over whole runs of the loop. In each round, an event reported for a subscriber is delivered exactly
   when it is readable, the loop gets to it, and that subscriber is still in the table then; once, to that
   subscriber, over the socket it had at that round's poll.
   */
  lemma LoopReachesSubscribers(t: Table, rounds: seq<Round>, n: nat, i: nat, k: nat, id: int)
    requires Running(t) && i < |AfterRounds(t, rounds, n).polled| && i < |rounds|
    requires var at := AfterRounds(t, rounds, n).polled[i];
             var events := Reported(rounds[i].events, at.poller);
             k < |events| && id in at.subscribers && events[k].tag == at.subscribers[id].tag
    ensures var l := AfterRounds(t, rounds, n);
            var at := l.polled[i];
            var events := Reported(rounds[i].events, at.poller);
            && OnceEach(l.delivered)
            && (forall d | d in l.delivered && d.round == n + i && d.event == k ::
                  d == Delivery(n + i, k, id, at.subscribers[id].socket))
            && ((exists d :: d in l.delivered && d.round == n + i && d.event == k) <==>
                  events[k].readable && TableAt(at, events, k).Some? && StillThere(at, TableAt(at, events, k).value, id))
  {
    hide AfterRounds, AfterBatch, TableAt, Running, Reported, StillThere;
    LoopDeliversItsPolls(t, rounds, n);
    var l := AfterRounds(t, rounds, n);
    var at := l.polled[i];
    var events := Reported(rounds[i].events, at.poller);
    EventsReachTheirSubscribers(at, events, n + i, k, id);
    InRound(at, events, n + i);
    var ds := AfterBatch(at, events, n + i, 0).deliveries;
    assert ds == OfRound(at, rounds[i], n + i).deliveries;
    if j :| 0 <= j < |ds| && ds[j].event == k {
      assert ds[j] in ds;
    }
  }

  class Worker {
    var subscribers: map<int, Entry>
    var poller: map<Watched, nat>
    var nextTag: nat
    var sockets: nat
    var delivered: seq<Delivery>   // recorded

    function View(): Table
      reads this
    {
      Table(subscribers, poller, nextTag, sockets)
    }

    constructor ()
      ensures View() == FRESH && delivered == []
    {
      subscribers, poller, nextTag, sockets := map[], map[], CONTROL_TAG + 1, 0;
      delivered := [];
    }

    /** The filter calls of a command on one socket, until one throws. */
    method CallFilters(id: int, filters: seq<Filter>, good: nat) returns (all: bool)
      requires id in subscribers
      modifies `subscribers
      ensures subscribers == old(subscribers)[id :=
                old(subscribers)[id].(filters := old(subscribers)[id].filters + filters[..Min(good, |filters|)])]
      ensures all == (good >= |filters|)
    {
      var i, e := 0, subscribers[id];
      assert e.filters + filters[..0] == e.filters;
      while i < |filters|
        invariant 0 <= i <= Min(good, |filters|)
        invariant subscribers == old(subscribers)[id := e.(filters := e.filters + filters[..i])]
      {
        if i == good { return false; }
        assert e.filters + filters[..i + 1] == (e.filters + filters[..i]) + [filters[i]];
        subscribers := subscribers[id := subscribers[id].(filters := subscribers[id].filters + [filters[i]])];
        i := i + 1;
      }
      return true;
    }

    method DoSubscribe(cmd: Command, good: nat) returns (rc: Result)
      requires cmd.Subscribe?
      modifies `subscribers, `poller, `nextTag, `sockets
      ensures Outcome(View(), rc) == Exec(old(View()), cmd, good)
    {
      if cmd.id !in subscribers {
        nextTag := nextTag + 1;
        if good == 0 { return Escaped; }
        var socket := sockets;
        sockets := sockets + 1;
        if good < |cmd.topics| + 2 { return Returned(-1); }
        if good == |cmd.topics| + 2 { return Escaped; }
        poller := poller[SubscriberSocket(socket) := nextTag];
        subscribers := subscribers[cmd.id := Entry(nextTag, socket, cmd.addr, Subs(cmd.topics), cmd.callback)];
        return Returned(0);
      }
      if cmd.callback.Some? {
        subscribers := subscribers[cmd.id := subscribers[cmd.id].(callback := cmd.callback)];
      }
      var all := CallFilters(cmd.id, Subs(cmd.topics), good);
      return Returned(if all then 0 else -1);
    }

    method DoUnsubscribe(cmd: Command, good: nat) returns (rc: Result)
      requires cmd.Unsubscribe?
      modifies `subscribers
      ensures Outcome(View(), rc) == Exec(old(View()), cmd, good)
    {
      if cmd.id !in subscribers { return Returned(-1); }
      var all := CallFilters(cmd.id, Unsubs(cmd.topics), good);
      return Returned(if all then 0 else -1);
    }

    /** The socket leaves the poller before it is destroyed with its entry. */
    method DoRemove(id: int, good: nat) returns (rc: Result)
      modifies `subscribers, `poller
      ensures Outcome(View(), rc) == Exec(old(View()), RemoveSubscriber(id), good)
    {
      if id !in subscribers { return Returned(-1); }
      if good == 0 { return Escaped; }
      poller := poller - {SubscriberSocket(subscribers[id].socket)};
      subscribers := subscribers - {id};
      return Returned(0);
    }

    method ExecuteCommand(cmd: Command, good: nat) returns (rc: Result)
      modifies `subscribers, `poller, `nextTag, `sockets
      ensures Outcome(View(), rc) == Exec(old(View()), cmd, good)
    {
      match cmd {
        case Bind(_) => rc := Returned(if good > 0 then 0 else -1);
        case Subscribe(_, _, _, _) => rc := DoSubscribe(cmd, good);
        case Unsubscribe(_, _) => rc := DoUnsubscribe(cmd, good);
        case RemoveSubscriber(id) => rc := DoRemove(id, good);
        case Publish(_) => rc := Returned(if good > 0 then 0 else -1);
        case Stop => rc := Returned(0);
      }
    }

    /** The scan of the table for the entry with an event's tag. */
    method FindTag(tag: nat) returns (found: bool, id: int)
      ensures found ==> id in subscribers && subscribers[id].tag == tag
      ensures !found ==> forall jd | jd in subscribers :: subscribers[jd].tag != tag
    {
      var rest := subscribers.Keys;
      while true
        invariant rest <= subscribers.Keys
        invariant forall jd | jd in subscribers && jd !in rest :: subscribers[jd].tag != tag
        decreases |rest|
      {
        if jd :| jd in rest {
          if subscribers[jd].tag == tag { return true, jd; }
          rest := rest - {jd};
        } else {
          return false, 0;
        }
      }
    }

    /** A subscriber event: the entry with the tag, if there is one, is drained. */
    method Dispatch(tag: nat, round: nat, event: nat)
      requires TagsDistinct(View())
      modifies `delivered
      ensures delivered == old(delivered) + DeliveryOf(View(), tag, round, event)
    {
      var found, id := FindTag(tag);
      if found {
        HolderIsUnique(View(), tag, id);
        delivered := delivered + [Delivery(round, event, id, subscribers[id].socket)];
      }
    }

    method ProcessControl(control: Control) returns (end: End)
      requires Running(View())
      modifies `subscribers, `poller, `nextTag, `sockets
      ensures (View(), end) == AfterControl(old(View()), control)
      ensures Running(View()) && NewTagsOnly(old(View()), View())
    {
      match control {
        case NoCommand => end := Going;
        case Closed => end := Left;
        case Claimed(cmd, good) =>
          ExecKeepsRunning(View(), cmd, good);
          var rc := ExecuteCommand(cmd, good);
          end := if rc.Escaped? then Crashed else if cmd.Stop? then Left else Going;
      }
    }

    /** The for loop over one poll result. */
    method HandleBatch(events: seq<Event>, round: nat) returns (end: End)
      requires Running(View())
      modifies `subscribers, `poller, `nextTag, `sockets, `delivered
      ensures Running(View())
      ensures var b := AfterBatch(old(View()), events, round, 0);
              (View(), end) == (b.table, b.end) && delivered == old(delivered) + b.deliveries
    {
      hide AfterBatch, AfterControl, DeliveryOf;
      hide Running, NewTagsOnly;
      ghost var all := AfterBatch(View(), events, round, 0);
      var i := 0;
      end := Going;
      assert events[0..] == events;
      while i < |events|
        invariant 0 <= i <= |events|
        invariant Running(View()) && end == Going
        invariant var more := AfterBatch(View(), events[i..], round, i);
                  all.table == more.table && all.end == more.end
                  && old(delivered) + all.deliveries == delivered + more.deliveries
      {
        var e := events[i];
        BatchOne(View(), events[i..], round, i);
        assert events[i..][1..] == events[i + 1..];
        i := i + 1;
        if e.readable {
          if e.tag == CONTROL_TAG {
            end := ProcessControl(e.control);
            if end != Going { return; }
          } else {
            RunningIsDistinct(View());
            Dispatch(e.tag, round, i - 1);
          }
        }
      }
      assert events[i..] == [];
      BatchNone(View(), round, i);
    }

    /**
     The worker loop: `rounds` is what it reads, round after round. It stops at the first round whose flag
     is set, after a stop command or a closed context, or on an exception.
     */
    method RunLoop(rounds: seq<Round>) returns (end: End, batches: nat)
      requires Consistent(View()) && ControlSocket !in poller
      modifies this
      ensures var l := AfterRounds(Started(old(View())), rounds, 0);
              && end == l.end && batches == |l.polled|
              && delivered == old(delivered) + l.delivered
              && View() == if end == Left then Cleared(l.table) else l.table
      ensures end == Left ==> subscribers == map[] && poller == map[]
      ensures end != Left ==> Running(View())
    {
      hide AfterBatch, AfterRounds, Running, Consistent, Reported;
      StartedRuns(View());
      poller := poller[ControlSocket := CONTROL_TAG];
      batches := 0;
      end := Going;
      ghost var all := AfterRounds(View(), rounds, 0);
      assert rounds[0..] == rounds;
      while batches < |rounds| && end == Going && !rounds[batches].stopFlag
        invariant 0 <= batches <= |rounds|
        invariant Running(View())
        invariant end == Going ==>
                    var more := AfterRounds(View(), rounds[batches..], batches);
                    && all.table == more.table && all.end == more.end && |all.polled| == batches + |more.polled|
                    && old(delivered) + all.delivered == delivered + more.delivered
        invariant end != Going ==>
                    && all.table == View() && all.end == end && |all.polled| == batches
                    && old(delivered) + all.delivered == delivered
      {
        assert rounds[batches..][1..] == rounds[batches + 1..];
        RoundsOne(View(), rounds[batches..], batches);
        var events := Reported(rounds[batches].events, poller);
        batches := batches + 1;
        end := HandleBatch(events, batches - 1);
      }
      if end == Going { RoundsEnd(View(), rounds[batches..], batches); }
      if end == Crashed { return; }
      if end == Left || batches < |rounds| {
        poller := map[];
        subscribers := map[];
        end := Left;
      }
    }
  }

  lemma RunningIsDistinct(t: Table)
    requires Running(t)
    ensures TagsDistinct(t)
  {
  }

  lemma StartedRuns(t: Table)
    requires Consistent(t)
    ensures Running(Started(t))
  {
    var t' := Started(t);
    forall w | w in t'.poller && w != ControlSocket
      ensures exists id :: id in t'.subscribers && w == SubscriberSocket(t'.subscribers[id].socket)
    {
      var id :| id in t.subscribers && w == SubscriberSocket(t.subscribers[id].socket);
      assert id in t'.subscribers;
    }
  }
}
