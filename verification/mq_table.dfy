/**
 The state owned by the message-queue worker thread: its subscriber table, its poller and the tag
 counter, and what one command does to them.

 A ZeroMQ call either succeeds or fails. `good` says how many ZeroMQ calls of a command succeed before
 one fails; a failure inside a try block or reported as a status gives the result -1, a failure
 outside one is an exception that ends the worker.
 */
module MqTable {
  import opened Common

  const CONTROL_TAG: nat := 1

  type Callback = nat

  datatype Command =
    | Bind(addr: string)
    | Subscribe(id: int, topics: seq<string>, addr: string, callback: Option<Callback>)
    | Unsubscribe(id: int, topics: seq<string>)
    | RemoveSubscriber(id: int)
    | Publish(message: string)
    | Stop

  datatype Filter = Sub(topic: string) | Unsub(topic: string)

  /** A subscriber: its socket, the filter calls made on that socket, and its callback. */
  datatype Entry = Entry(tag: nat, socket: nat, addr: string, filters: seq<Filter>, callback: Option<Callback>)

  datatype Watched = ControlSocket | SubscriberSocket(socket: nat)

  /** `poller` maps the registered sockets to their tags; `sockets` counts the sockets ever created. */
  datatype Table = Table(subscribers: map<int, Entry>, poller: map<Watched, nat>, nextTag: nat, sockets: nat)

  datatype Result = Returned(code: int) | Escaped

  datatype Outcome = Outcome(table: Table, result: Result)

  function Subs(topics: seq<string>): seq<Filter> { seq(|topics|, i requires 0 <= i < |topics| => Sub(topics[i])) }

  function Unsubs(topics: seq<string>): seq<Filter> { seq(|topics|, i requires 0 <= i < |topics| => Unsub(topics[i])) }

  /** The table after one command. */
  function Exec(t: Table, cmd: Command, good: nat): Outcome {
    match cmd
    case Bind(_) => Outcome(t, Returned(if good > 0 then 0 else -1))
    case Publish(_) => Outcome(t, Returned(if good > 0 then 0 else -1))
    case Stop => Outcome(t, Returned(0))
    case Subscribe(id, topics, addr, callback) =>
      if id in t.subscribers then
        var e := t.subscribers[id];
        var n := Min(good, |topics|);
        var e' := e.(callback := if callback.Some? then callback else e.callback,
                     filters := e.filters + Subs(topics)[..n]);
        Outcome(t.(subscribers := t.subscribers[id := e']), Returned(if good < |topics| then -1 else 0))
      else
        Create(t.(nextTag := t.nextTag + 1), id, topics, addr, callback, good)
    case Unsubscribe(id, topics) =>
      if id !in t.subscribers then Outcome(t, Returned(-1)) else
        var e := t.subscribers[id];
        var n := Min(good, |topics|);
        Outcome(t.(subscribers := t.subscribers[id := e.(filters := e.filters + Unsubs(topics)[..n])]),
                Returned(if good < |topics| then -1 else 0))
    case RemoveSubscriber(id) =>
      if id !in t.subscribers then Outcome(t, Returned(-1))
      else if good == 0 then Outcome(t, Escaped)
      else Outcome(t.(subscribers := t.subscribers - {id},
                      poller := t.poller - {SubscriberSocket(t.subscribers[id].socket)}),
                   Returned(0))
  }

  /**
   A new subscriber, its tag already drawn: create the socket, connect it, make one filter call for each
   topic, add it to the poller. The first and last of these are outside the try block.
   */
  function Create(t: Table, id: int, topics: seq<string>, addr: string, callback: Option<Callback>, good: nat): Outcome {
    if good == 0 then Outcome(t, Escaped)
    else if good < |topics| + 2 then Outcome(t.(sockets := t.sockets + 1), Returned(-1))
    else if good == |topics| + 2 then Outcome(t.(sockets := t.sockets + 1), Escaped)
    else
      var e := Entry(t.nextTag, t.sockets, addr, Subs(topics), callback);
      Outcome(t.(subscribers := t.subscribers[id := e],
                 poller := t.poller[SubscriberSocket(t.sockets) := t.nextTag],
                 sockets := t.sockets + 1),
              Returned(0))
  }

  /** The worker has registered its control socket. */
  function Started(t: Table): Table { t.(poller := t.poller[ControlSocket := CONTROL_TAG]) }

  /** The worker has left its loop normally. */
  function Cleared(t: Table): Table { t.(subscribers := map[], poller := map[]) }

  /** The members before the first start; `_next_subscriber_tag` begins at control_tag + 1. */
  const FRESH := Table(map[], map[], CONTROL_TAG + 1, 0)

  // ------------------------------------------------------------ what every command keeps

  /** Tags are distinct, above the control tag, and were all drawn from the counter; sockets likewise. */
  ghost predicate TagsDistinct(t: Table) {
    && t.nextTag > CONTROL_TAG
    && (forall id | id in t.subscribers :: CONTROL_TAG < t.subscribers[id].tag <= t.nextTag)
    && (forall id | id in t.subscribers :: t.subscribers[id].socket < t.sockets)
    && (forall id, jd | id in t.subscribers && jd in t.subscribers && id != jd ::
          t.subscribers[id].tag != t.subscribers[jd].tag && t.subscribers[id].socket != t.subscribers[jd].socket)
  }

  /** The poller holds the current subscribers' sockets, under their tags, and no other but the control socket. */
  ghost predicate PollerMatches(t: Table) {
    && (forall id | id in t.subscribers ::
          SubscriberSocket(t.subscribers[id].socket) in t.poller
          && t.poller[SubscriberSocket(t.subscribers[id].socket)] == t.subscribers[id].tag)
    && (forall w | w in t.poller ::
          w == ControlSocket || exists id :: id in t.subscribers && w == SubscriberSocket(t.subscribers[id].socket))
  }

  ghost predicate Consistent(t: Table) { TagsDistinct(t) && PollerMatches(t) }

  ghost predicate Running(t: Table) {
    Consistent(t) && ControlSocket in t.poller && t.poller[ControlSocket] == CONTROL_TAG
  }

  lemma TagsStep(t: Table, cmd: Command, good: nat)
    requires TagsDistinct(t)
    ensures TagsDistinct(Exec(t, cmd, good).table)
  {
  }

  lemma PollerStep(t: Table, cmd: Command, good: nat)
    requires Consistent(t)
    ensures PollerMatches(Exec(t, cmd, good).table)
  {
    var t' := Exec(t, cmd, good).table;
    forall w | w in t'.poller && w != ControlSocket
      ensures exists id :: id in t'.subscribers && w == SubscriberSocket(t'.subscribers[id].socket)
    {
      if w in t.poller {
        var id :| id in t.subscribers && w == SubscriberSocket(t.subscribers[id].socket);
        assert id in t'.subscribers;
      } else {
        assert cmd.id in t'.subscribers;
      }
    }
  }

  /** An entry of the new table is that subscriber as it was, or has a tag never drawn before. */
  ghost predicate NewTagsOnly(t: Table, t': Table) {
    && t.nextTag <= t'.nextTag
    && forall id | id in t'.subscribers ::
         || (id in t.subscribers && t'.subscribers[id].tag == t.subscribers[id].tag
             && t'.subscribers[id].socket == t.subscribers[id].socket)
         || t'.subscribers[id].tag > t.nextTag
  }

  lemma NoNewTags(t: Table)
    ensures NewTagsOnly(t, t)
  {
  }

  lemma NewTagsTwice(t: Table, t': Table, t'': Table)
    requires NewTagsOnly(t, t') && NewTagsOnly(t', t'')
    ensures NewTagsOnly(t, t'')
  {
  }

  lemma NewTagsStep(t: Table, cmd: Command, good: nat)
    ensures NewTagsOnly(t, Exec(t, cmd, good).table)
  {
  }

  lemma ControlStep(t: Table, cmd: Command, good: nat)
    requires ControlSocket in t.poller && t.poller[ControlSocket] == CONTROL_TAG
    ensures var p := Exec(t, cmd, good).table.poller;
            ControlSocket in p && p[ControlSocket] == CONTROL_TAG
  {
  }

  /**
   Every command, whatever fails in it, keeps tags distinct and never draws one again, and keeps the poller
   equal to the control socket plus the current subscribers.
   */
  lemma ExecKeepsRunning(t: Table, cmd: Command, good: nat)
    requires Running(t)
    ensures Running(Exec(t, cmd, good).table)
    ensures NewTagsOnly(t, Exec(t, cmd, good).table)
  {
    hide Exec, TagsDistinct, PollerMatches, NewTagsOnly;
    TagsStep(t, cmd, good);
    PollerStep(t, cmd, good);
    ControlStep(t, cmd, good);
    NewTagsStep(t, cmd, good);
  }

  // ------------------------------------------------------------ what a result means

  function Entries(t: Table, id: int): Option<Entry> { if id in t.subscribers then Some(t.subscribers[id]) else None }

  /** The subscriber a command is about, if it is about one. */
  function About(cmd: Command): Option<int> {
    match cmd
    case Subscribe(id, _, _, _) => Some(id)
    case Unsubscribe(id, _) => Some(id)
    case RemoveSubscriber(id) => Some(id)
    case _ => None
  }

  /** A command changes no subscriber but its own. */
  lemma OthersUntouched(t: Table, cmd: Command, good: nat, id: int)
    requires About(cmd) != Some(id)
    ensures Entries(Exec(t, cmd, good).table, id) == Entries(t, id)
  {
  }

  /** A command that did not return 0 leaves the set of subscribers as it was. */
  lemma FailureAddsNobody(t: Table, cmd: Command, good: nat)
    requires Exec(t, cmd, good).result != Returned(0)
    ensures Exec(t, cmd, good).table.subscribers.Keys == t.subscribers.Keys
    ensures Exec(t, cmd, good).table.poller == t.poller
  {
  }

  /** A subscription that returned 0 has its subscriber in the table, with every topic asked for and the callback given. */
  lemma SubscribedMeansAllTopics(t: Table, id: int, topics: seq<string>, addr: string, callback: Option<Callback>, good: nat)
    requires Exec(t, Subscribe(id, topics, addr, callback), good).result == Returned(0)
    ensures var t' := Exec(t, Subscribe(id, topics, addr, callback), good).table;
            && id in t'.subscribers
            && (forall topic | topic in topics :: Sub(topic) in t'.subscribers[id].filters)
            && (callback.Some? ==> t'.subscribers[id].callback == callback)
  {
    var e := Exec(t, Subscribe(id, topics, addr, callback), good).table.subscribers[id];
    assert Subs(topics)[..|topics|] == Subs(topics);
    forall topic | topic in topics
      ensures Sub(topic) in e.filters
    {
      var i :| 0 <= i < |topics| && topics[i] == topic;
      assert Subs(topics)[i] == Sub(topic);
    }
  }

  /** The ZeroMQ calls a command has to make, the creation of a socket counted as one. */
  function Calls(t: Table, cmd: Command): nat {
    match cmd
    case Bind(_) => 1
    case Publish(_) => 1
    case Stop => 0
    case Subscribe(id, topics, _, _) => if id in t.subscribers then |topics| else |topics| + 3
    case Unsubscribe(_, topics) => |topics|
    case RemoveSubscriber(_) => 1
  }

  /** A command on a subscriber that has to be there, and is not. */
  predicate Misses(t: Table, cmd: Command) {
    (cmd.Unsubscribe? || cmd.RemoveSubscriber?) && cmd.id !in t.subscribers
  }

  /** A command returns 0 exactly when its subscriber was there if it had to be and every ZeroMQ call succeeded. */
  lemma ZeroMeansAllCallsSucceeded(t: Table, cmd: Command, good: nat)
    ensures Exec(t, cmd, good).result == Returned(0) <==> !Misses(t, cmd) && good >= Calls(t, cmd)
    ensures Exec(t, cmd, good).result.Returned? ==> Exec(t, cmd, good).result.code in {0, -1}
  {
  }

  /**
   A command throws exactly where its first failing call is outside a try block: creating the socket of a new subscriber
   or adding it to the poller, and taking a subscriber's socket from the poller.
   */
  lemma WhenACommandThrows(t: Table, cmd: Command, good: nat)
    ensures Exec(t, cmd, good).result.Escaped? <==>
              || (cmd.Subscribe? && cmd.id !in t.subscribers && (good == 0 || good == Calls(t, cmd) - 1))
              || (cmd.RemoveSubscriber? && cmd.id in t.subscribers && good == 0)
  {
  }

  // ------------------------------------------------------------ the filters of a subscriber

  /** How often a filter call was made on a subscriber's socket. */
  function Made(e: Entry, f: Filter): nat { multiset(e.filters)[f] }

  /** How often a topic is in a list. */
  function Times(topics: seq<string>, topic: string): nat { multiset(topics)[topic] }

  lemma {:induction false} SubsMade(topics: seq<string>, topic: string)
    ensures multiset(Subs(topics))[Sub(topic)] == Times(topics, topic) && multiset(Subs(topics))[Unsub(topic)] == 0
  {
    if topics != [] {
      var n := |topics| - 1;
      SubsMade(topics[..n], topic);
      assert topics == topics[..n] + [topics[n]];
      assert Subs(topics) == Subs(topics[..n]) + [Sub(topics[n])];
    }
  }

  lemma {:induction false} UnsubsMade(topics: seq<string>, topic: string)
    ensures multiset(Unsubs(topics))[Unsub(topic)] == Times(topics, topic) && multiset(Unsubs(topics))[Sub(topic)] == 0
  {
    if topics != [] {
      var n := |topics| - 1;
      UnsubsMade(topics[..n], topic);
      assert topics == topics[..n] + [topics[n]];
      assert Unsubs(topics) == Unsubs(topics[..n]) + [Unsub(topics[n])];
    }
  }

  lemma AddsCalls(filters: seq<Filter>, more: seq<Filter>, f: Filter)
    ensures multiset(filters + more)[f] == multiset(filters)[f] + multiset(more)[f]
  {
  }

  /** Only the filters and the callback of a subscriber ever change. */
  predicate SameSubscriber(e: Entry, e': Entry) {
    e'.tag == e.tag && e'.socket == e.socket && e'.addr == e.addr
  }

  /**
   An unsubscription makes one unsubscribe call for each topic, up to the first that fails, and nothing else: for each
   topic that many more unsubscribe calls were made, and no other subscribe call.
   */
  lemma UnsubscribeMeans(t: Table, id: int, topics: seq<string>, good: nat)
    requires id in t.subscribers
    ensures var o := Exec(t, Unsubscribe(id, topics), good);
            var done := topics[..Min(good, |topics|)];
            && id in o.table.subscribers
            && var e, e' := t.subscribers[id], o.table.subscribers[id];
               && SameSubscriber(e, e') && e'.callback == e.callback
               && (o.result == Returned(0) <==> done == topics)
               && forall topic ::
                    && Made(e', Unsub(topic)) == Made(e, Unsub(topic)) + Times(done, topic)
                    && Made(e', Sub(topic)) == Made(e, Sub(topic))
  {
    var done := topics[..Min(good, |topics|)];
    var e := t.subscribers[id];
    assert Unsubs(topics)[..|done|] == Unsubs(done);
    assert topics[..|topics|] == topics;
    forall topic
      ensures multiset(e.filters + Unsubs(done))[Unsub(topic)] == Made(e, Unsub(topic)) + Times(done, topic)
      ensures multiset(e.filters + Unsubs(done))[Sub(topic)] == Made(e, Sub(topic))
    {
      UnsubsMade(done, topic);
      AddsCalls(e.filters, Unsubs(done), Unsub(topic));
      AddsCalls(e.filters, Unsubs(done), Sub(topic));
    }
  }

  /** A subscription of an existing subscriber likewise makes subscribe calls only, and replaces the callback if it has one. */
  lemma ResubscribeMeans(t: Table, id: int, topics: seq<string>, addr: string, callback: Option<Callback>, good: nat)
    requires id in t.subscribers
    ensures var o := Exec(t, Subscribe(id, topics, addr, callback), good);
            var done := topics[..Min(good, |topics|)];
            && id in o.table.subscribers
            && var e, e' := t.subscribers[id], o.table.subscribers[id];
               && SameSubscriber(e, e') && e'.callback == (if callback.Some? then callback else e.callback)
               && (o.result == Returned(0) <==> done == topics)
               && forall topic ::
                    && Made(e', Sub(topic)) == Made(e, Sub(topic)) + Times(done, topic)
                    && Made(e', Unsub(topic)) == Made(e, Unsub(topic))
  {
    var done := topics[..Min(good, |topics|)];
    var e := t.subscribers[id];
    assert Subs(topics)[..|done|] == Subs(done);
    assert topics[..|topics|] == topics;
    forall topic
      ensures multiset(e.filters + Subs(done))[Sub(topic)] == Made(e, Sub(topic)) + Times(done, topic)
      ensures multiset(e.filters + Subs(done))[Unsub(topic)] == Made(e, Unsub(topic))
    {
      SubsMade(done, topic);
      AddsCalls(e.filters, Subs(done), Sub(topic));
      AddsCalls(e.filters, Subs(done), Unsub(topic));
    }
  }

  /** A subscription that creates a subscriber gives it the address and callback asked for, and one call for each topic. */
  lemma FirstSubscriptionMeans(t: Table, id: int, topics: seq<string>, addr: string, callback: Option<Callback>, good: nat)
    requires id !in t.subscribers
    requires Exec(t, Subscribe(id, topics, addr, callback), good).result == Returned(0)
    ensures var t' := Exec(t, Subscribe(id, topics, addr, callback), good).table;
            && id in t'.subscribers
            && var e' := t'.subscribers[id];
               && e'.addr == addr && e'.callback == callback && e'.socket == t.sockets
               && forall topic :: Made(e', Sub(topic)) == Times(topics, topic) && Made(e', Unsub(topic)) == 0
  {
    forall topic { SubsMade(topics, topic); }
  }

  /** Subscribe calls less unsubscribe calls. */
  function Net(e: Entry, topic: string): int { Made(e, Sub(topic)) - Made(e, Unsub(topic)) }

  /** Unsubscribing what was just subscribed leaves every topic of the subscriber as it was, nothing subscribed if it was new. */
  lemma UnsubscribeUndoesSubscribe(t: Table, id: int, topics: seq<string>, addr: string, callback: Option<Callback>,
                                   good: nat, more: nat, topic: string)
    requires Exec(t, Subscribe(id, topics, addr, callback), good).result == Returned(0)
    requires Exec(Exec(t, Subscribe(id, topics, addr, callback), good).table, Unsubscribe(id, topics), more).result == Returned(0)
    ensures var t' := Exec(Exec(t, Subscribe(id, topics, addr, callback), good).table, Unsubscribe(id, topics), more).table;
            && id in t'.subscribers
            && Net(t'.subscribers[id], topic) == if id in t.subscribers then Net(t.subscribers[id], topic) else 0
  {
    hide Exec;
    SubscribedMeansAllTopics(t, id, topics, addr, callback, good);
    if id in t.subscribers {
      ResubscribeMeans(t, id, topics, addr, callback, good);
    } else {
      FirstSubscriptionMeans(t, id, topics, addr, callback, good);
    }
    UnsubscribeMeans(Exec(t, Subscribe(id, topics, addr, callback), good).table, id, topics, more);
  }

  /** A removal that returned 0 has taken the subscriber, and its socket alone, from table and poller. */
  lemma RemovedMeansGone(t: Table, id: int, good: nat)
    requires Exec(t, RemoveSubscriber(id), good).result == Returned(0)
    ensures var t' := Exec(t, RemoveSubscriber(id), good).table;
            && id in t.subscribers && t'.subscribers.Keys == t.subscribers.Keys - {id}
            && t'.poller.Keys == t.poller.Keys - {SubscriberSocket(t.subscribers[id].socket)}
            && t'.nextTag == t.nextTag && t'.sockets == t.sockets
  {
  }

  /** Removing a subscriber just created gives back the table and the poller; only the counters have moved. */
  lemma RemoveUndoesSubscribe(t: Table, id: int, topics: seq<string>, addr: string, callback: Option<Callback>, good: nat, more: nat)
    requires Running(t) && id !in t.subscribers && more > 0
    requires Exec(t, Subscribe(id, topics, addr, callback), good).result == Returned(0)
    ensures var made := Exec(t, Subscribe(id, topics, addr, callback), good).table;
            var gone := Exec(made, RemoveSubscriber(id), more);
            && gone.result == Returned(0)
            && gone.table == t.(nextTag := t.nextTag + 1, sockets := t.sockets + 1)
  {
    var made := Exec(t, Subscribe(id, topics, addr, callback), good).table;
    var gone := Exec(made, RemoveSubscriber(id), more).table;
    assert SubscriberSocket(t.sockets) !in t.poller;
    assert gone.subscribers == t.subscribers;
    assert gone.poller == t.poller;
  }
}
