/**
 The registries of live reactors: an id is mapped to the reactor that registered it last, and
 unregistering an id erases the entry whoever it points to. Every operation runs under the
 registry's mutex, so a run is a sequence of operations.
 */
module ReactorRegistry {
  import opened WritePump

  class Registry<M(0)> {
    var active: map<int, Reactor<M>>

    constructor ()
      ensures active == map[]
    {
      active := map[];
    }

    method Register(id: int, reactor: Reactor<M>)
      modifies this
      ensures active == old(active)[id := reactor]
    {
      active := active[id := reactor];
    }

    method Unregister(id: int)
      modifies this
      ensures active == old(active) - {id}
    {
      active := active - {id};
    }

    /** The stop_* operations: only the reactor entered under `id` is touched. */
    method Stop(id: int) returns (found: bool)
      modifies if id in active then {active[id]} else {}
      ensures found == (id in active)
      ensures found ==> active[id].isCancelled && active[id].queue == []
      ensures found ==> WritePump.Runs(old(active[id].Value()), StopScript(old(active[id].Value())), active[id].Value())
    {
      if id !in active { return false; }
      active[id].Stop();
      return true;
    }
  }

  // ------------------------------------------------------------ runs of a whole process

  /** A live reactor; the bidirectional ones have no key until the first request that names one. */
  datatype Key = Unset | Registered(id: int)

  datatype World = World(live: map<nat, Key>, active: map<int, nat>)

  /**
   `Open`: construction, which for query and subscribe reactors registers at once; `Name`: the first
   request with a non-zero id reaches a bidirectional reactor; `Close`: destruction.
   */
  datatype Op = Open(r: nat, key: Key) | Name(r: nat, id: int) | Close(r: nat) | StopId(id: int)

  predicate Legal(w: World, op: Op) {
    match op
    case Open(r, _) => r !in w.live
    case Name(r, id) => r in w.live && w.live[r] == Unset && id != 0
    case Close(r) => r in w.live
    case StopId(_) => true
  }

  function Enter(w: World, r: nat, key: Key): World {
    World(w.live[r := key], match key case Unset => w.active case Registered(id) => w.active[id := r])
  }

  function Apply(w: World, op: Op): World
    requires Legal(w, op)
  {
    match op
    case Open(r, key) => Enter(w, r, key)
    case Name(r, id) => Enter(w, r, Registered(id))
    case Close(r) =>
      World(w.live - {r}, match w.live[r] case Unset => w.active case Registered(id) => w.active - {id})
    case StopId(_) => w
  }

  /** A reactor opened with an id, or named, is live and found under it; nothing else changes but the entry it takes. */
  lemma RegistrationMeans(w: World, r: nat, id: int, named: bool)
    requires Legal(w, if named then Name(r, id) else Open(r, Registered(id)))
    ensures var w' := Apply(w, if named then Name(r, id) else Open(r, Registered(id)));
            && r in w'.live && w'.live[r] == Registered(id) && id in w'.active && w'.active[id] == r
            && w'.live - {r} == w.live - {r} && w'.active - {id} == w.active - {id}
  {
  }

  /** A reactor closed is gone, its entry with it; nothing else changes. */
  lemma ClosingMeans(w: World, r: nat)
    requires r in w.live
    ensures var w' := Apply(w, Close(r));
            && w'.live == w.live - {r}
            && forall id | id in w.active :: id in w'.active <==> w.live[r] != Registered(id)
  {
  }

  ghost predicate Runs(w: World, ops: seq<Op>, w': World)
    decreases |ops|
  {
    if ops == [] then w == w' else Legal(w, ops[0]) && Runs(Apply(w, ops[0]), ops[1..], w')
  }

  const START := World(map[], map[])

  /** Every pointer in the registry is a live reactor whose own id is that entry. */
  ghost predicate NoDanglingPointer(w: World) {
    forall id | id in w.active :: w.active[id] in w.live && w.live[w.active[id]] == Registered(id)
  }

  /** Every live reactor that has an id is found under it. */
  ghost predicate AllFound(w: World) {
    forall r, id | r in w.live && w.live[r] == Registered(id) :: id in w.active && w.active[id] == r
  }

  /** The id this operation registers is not that of another live reactor. */
  ghost predicate FreshId(w: World, op: Op) {
    match op
    case Open(r, Registered(id)) => forall q | q in w.live :: w.live[q] != Registered(id)
    case Name(r, id) => forall q | q in w.live :: w.live[q] != Registered(id)
    case _ => true
  }

  ghost predicate DistinctIds(w: World, ops: seq<Op>)
    decreases |ops|
  {
    ops != [] && Legal(w, ops[0]) ==> FreshId(w, ops[0]) && DistinctIds(Apply(w, ops[0]), ops[1..])
  }

  lemma SafeStep(w: World, op: Op)
    requires NoDanglingPointer(w) && Legal(w, op)
    ensures NoDanglingPointer(Apply(w, op))
  {
  }

  lemma FoundStep(w: World, op: Op)
    requires NoDanglingPointer(w) && AllFound(w) && Legal(w, op) && FreshId(w, op)
    ensures AllFound(Apply(w, op))
  {
  }

  /**
   Main result. In every run, whatever ids are used and reused, the registry points only to live reactors
   that own the id; so stopping an id never touches a reactor that was destroyed.
   */
  lemma {:induction false} RegistryIsSafe(w: World, ops: seq<Op>, w': World)
    requires NoDanglingPointer(w) && Runs(w, ops, w')
    ensures NoDanglingPointer(w')
    decreases |ops|
  {
    hide Apply, NoDanglingPointer, Legal;
    if ops != [] {
      SafeStep(w, ops[0]);
      RegistryIsSafe(Apply(w, ops[0]), ops[1..], w');
    }
  }

  lemma {:induction false} RegistryFindsAll(w: World, ops: seq<Op>, w': World)
    requires NoDanglingPointer(w) && AllFound(w) && Runs(w, ops, w') && DistinctIds(w, ops)
    ensures NoDanglingPointer(w') && AllFound(w')
    decreases |ops|
  {
    hide Apply, NoDanglingPointer, AllFound, Legal;
    if ops != [] {
      SafeStep(w, ops[0]);
      FoundStep(w, ops[0]);
      RegistryFindsAll(Apply(w, ops[0]), ops[1..], w');
    }
  }

  /** With no two live reactors under one id, the registry is exactly the live registered reactors. */
  lemma RegistryIsTheLiveReactors(ops: seq<Op>, w: World)
    requires Runs(START, ops, w) && DistinctIds(START, ops)
    ensures forall r, id :: id in w.active && w.active[id] == r <==> r in w.live && w.live[r] == Registered(id)
  {
    RegistryFindsAll(START, ops, w);
  }

  // ------------------------------------------------------------ when a live reactor is lost

  /** The operation writes or erases the entry of `id`. */
  predicate Touches(w: World, op: Op, id: int) {
    match op
    case Open(_, key) => key == Registered(id)
    case Name(_, i) => i == id
    case Close(r) => r in w.live && w.live[r] == Registered(id)
    case StopId(_) => false
  }

  ghost predicate Untouched(w: World, ops: seq<Op>, id: int)
    decreases |ops|
  {
    ops != [] && Legal(w, ops[0]) ==> !Touches(w, ops[0], id) && Untouched(Apply(w, ops[0]), ops[1..], id)
  }

  /** Live and registered, but not what the registry finds under its id. */
  ghost predicate Lost(w: World, r: nat) {
    r in w.live && w.live[r].Registered?
    && !(w.live[r].id in w.active && w.active[w.live[r].id] == r)
  }

  lemma WhatLosesAReactor(w: World, r: nat, op: Op)
    requires NoDanglingPointer(w) && Legal(w, op) && op != Close(r)
    requires r in w.live && w.live[r].Registered?
    ensures var w' := Apply(w, op);
            r in w'.live && w'.live[r] == w.live[r] && (Lost(w', r) <==> Lost(w, r) || Touches(w, op, w.live[r].id))
  {
  }

  /**
   With ids reused a live reactor can be lost. One that is in the registry and is not destroyed is still
   found at the end of a run exactly when nothing on the way registered its id again and no other live
   reactor with that id was destroyed.
   */
  lemma {:induction false} FoundUntilTouched(w: World, r: nat, id: int, ops: seq<Op>, w': World)
    requires NoDanglingPointer(w) && Runs(w, ops, w')
    requires r in w.live && w.live[r] == Registered(id)
    requires forall k | 0 <= k < |ops| :: ops[k] != Close(r)
    ensures r in w'.live && w'.live[r] == Registered(id)
    ensures !Lost(w', r) <==> !Lost(w, r) && Untouched(w, ops, id)
    decreases |ops|
  {
    hide NoDanglingPointer, Lost, Touches, Apply;
    if ops != [] {
      SafeStep(w, ops[0]);
      WhatLosesAReactor(w, r, ops[0]);
      FoundUntilTouched(Apply(w, ops[0]), r, id, ops[1..], w');
    }
  }

  /** Two queries under one session id: closing the first leaves the second live and unstoppable. */
  lemma SameIdLosesTheSecond(id: int) returns (ops: seq<Op>, w: World)
    ensures Runs(START, ops, w)
    ensures 1 in w.live && w.live[1] == Registered(id) && id !in w.active
  {
    var w1 := Apply(START, Open(0, Registered(id)));
    var w2 := Apply(w1, Open(1, Registered(id)));
    w := Apply(w2, Close(0));
    ops := [Open(0, Registered(id)), Open(1, Registered(id)), Close(0)];
    assert ops[1..] == [Open(1, Registered(id)), Close(0)] && ops[1..][1..] == [Close(0)] && ops[1..][1..][1..] == [];
    assert Runs(w, [], w);
    assert Runs(w2, [Close(0)], w);
  }
}
