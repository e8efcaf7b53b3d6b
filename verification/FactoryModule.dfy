/** The factory as it runs (stdmodules/factory/factory.go), proved against module Factory. The calls to the
    submodules' ApplyEvents are recorded in `handed`. */
module FactoryModule {
  import opened Types
  import opened ModuleIds
  import opened MessageBuffer
  import opened Factory

  class Module {
    const p: Params
    const messageBuffer: Buffer

    var submodules: set<ModuleId>
    var moduleRetention: map<nat, seq<ModuleId>>
    var retIdx: nat
    var eventBuffer: map<ModuleId, seq<Event>>
    var handed: map<ModuleId, seq<Handed>>
    ghost var lost: map<nat, Reason>
    ghost var ops: seq<BufferOp>

    ghost predicate Valid()
      reads this, messageBuffer
    {
      messageBuffer.Valid() && messageBuffer.capacity == p.capacity
    }

    /** The state with the given events still to be distributed. */
    ghost function StWith(pending: map<ModuleId, seq<Event>>): State
      reads this, messageBuffer
    {
      State(submodules, moduleRetention, retIdx, messageBuffer.messages, pending, handed, lost, ops)
    }

    ghost function St(): State
      reads this, messageBuffer
    {
      StWith(eventBuffer)
    }

    constructor (p: Params)
      ensures Valid() && this.p == p && fresh(messageBuffer) && St() == Factory.EMPTY
    {
      this.p := p;
      this.messageBuffer := new Buffer(p.capacity);
      submodules, moduleRetention, retIdx, eventBuffer, handed, lost, ops := {}, map[], 0, map[], map[], map[], [];
    }

    method BufferSubmoduleEvent(e: Event)
      modifies this`eventBuffer
      ensures St() == Enqueue(old(St()), e)
    {
      if e.dest !in eventBuffer {
        eventBuffer := eventBuffer[e.dest := []];
      }
      eventBuffer := eventBuffer[e.dest := eventBuffer[e.dest] + [e]];
    }

    method StoreEarly(e: Event, ghost pending: map<ModuleId, seq<Event>>)
      requires Valid()
      modifies this`lost, this`ops, messageBuffer
      ensures Valid() && StWith(pending) == TryBuffering(p, old(StWith(pending)), e)
    {
      if !e.isMessage {
        lost := lost[e.nr := NoMessage];
        return;
      }
      ghost var dropped := Dropped(messageBuffer.messages, p.capacity - e.size);
      var stored := messageBuffer.Store(AsMsg(e));
      lost := if stored then Lose(lost, dropped, |ops|) else lost[e.nr := Oversized];
      ops := if stored then ops + [Stored(AsMsg(e))] else ops;
    }

    method BufferEarlyMsgs(id: ModuleId, events: seq<Event>, ghost others: map<ModuleId, seq<Event>>)
      requires Valid() && id !in others
      modifies this`lost, this`ops, messageBuffer
      ensures Valid() && StWith(others) == BufferEarly(p, old(StWith(others[id := events])), id)
    {
      hide BufferEarly, TryBuffering;
      assert events[0..] == events;
      for i := 0 to |events|
        invariant Valid()
        invariant
          BufferEarly(p, StWith(others[id := events[i..]]), id) == BufferEarly(p, old(StWith(others[id := events])), id)
      {
        EarlyOne(p, StWith(others[id := events[i..]]), id, events[i..], others);
        assert events[i..][1..] == events[i + 1..];
        StoreEarly(events[i], others[id := events[i + 1..]]);
      }
      EarlyNone(p, StWith(others[id := events[|events|..]]), id, others);
    }

    method DistributeTo(id: ModuleId, events: seq<Event>, ghost others: map<ModuleId, seq<Event>>)
      requires Valid() && id !in others
      modifies this`handed, this`lost, this`ops, messageBuffer
      ensures Valid() && StWith(others) == Distribute(p, old(StWith(others[id := events])), id)
    {
      hide BufferEarly;
      if id in submodules {
        assert others[id := events] - {id} == others;
        HandOver(id, Gots(events));
      } else {
        BufferEarlyMsgs(id, events, others);
      }
    }

    method ApplySubmodulesEvents() returns (ghost order: seq<ModuleId>)
      requires Valid()
      modifies this`eventBuffer, this`handed, this`lost, this`ops, messageBuffer
      ensures Valid() && Traversal(order, old(eventBuffer.Keys)) && eventBuffer == map[]
      ensures St() == DistributeAll(p, old(St()), order)
    {
      hide Distribute, Traversal;
      var rest := eventBuffer;
      order := [];
      NothingTraversed(eventBuffer);
      while rest != map[]
        invariant Valid() && rest.Keys <= old(eventBuffer.Keys) && Traversal(order, old(eventBuffer.Keys) - rest.Keys)
        invariant StWith(rest) == DistributeAll(p, old(St()), order)
        decreases |rest|
      {
        var id :| id in rest;
        OneMoreTraversed(order, old(eventBuffer.Keys), rest, id);
        var events := rest[id];
        rest := rest - {id};
        DistributeTo(id, events, rest);
        DistributeSnoc(p, old(St()), order, id);
        order := order + [id];
      }
      AllTraversed(order, old(eventBuffer.Keys), rest);
      eventBuffer := map[];
    }

    method HandOver(id: ModuleId, events: seq<Handed>)
      modifies this`handed
      ensures handed == old(handed)[id := LogOf(old(St()), id) + events]
    {
      handed := handed[id := (if id in handed then handed[id] else []) + events];
    }

    /** The Init event, and then the messages that came too early. */
    method Start(id: ModuleId)
      requires Valid()
      modifies this`handed, this`ops, messageBuffer
      ensures Valid() && messageBuffer.messages == Kept(old(messageBuffer.messages), For(id))
      ensures ops == old(ops) + [TakenFor(id)]
      ensures
        var early := GotMsgs(Applied(old(messageBuffer.messages), For(id)));
        handed == old(handed)[id := LogOf(old(St()), id) + ([Init] + early)]
    {
      hide Kept, Applied;
      ghost var log := LogOf(St(), id);
      HandOver(id, [Init]);
      var buffered := messageBuffer.Iterate(For(id));
      ops := ops + [TakenFor(id)];
      HandOver(id, GotMsgs(buffered));
      assert log + [Init] + GotMsgs(buffered) == log + ([Init] + GotMsgs(buffered));
    }

    /** Errors: a foreign identifier, or parameters the generator does not accept. */
    method CreateSubmodule(id: ModuleId, r: nat, generated: bool) returns (ok: bool)
      requires Valid()
      modifies this`submodules, this`moduleRetention, this`handed, this`ops, messageBuffer
      ensures Valid() && (ok <==> NewSubmodule(p, old(St()), id, r, generated).Some?)
      ensures ok ==> St() == NewSubmodule(p, old(St()), id, r, generated).value
    {
      hide Kept, Applied, Top;
      if Top(id) != p.ownId {
        return false;
      }
      if r < retIdx {
        return true;
      }
      if !generated {
        return false;
      }
      submodules := submodules + {id};
      moduleRetention := moduleRetention[r := (if r in moduleRetention then moduleRetention[r] else []) + [id]];
      Start(id);
      ok := true;
    }

    /** Deletes the submodules listed under the current index. */
    method DeleteListed(ids: seq<ModuleId>)
      modifies this`submodules
      ensures submodules == old(submodules) - (set id | id in ids)
    {
      for i := 0 to |ids|
        invariant submodules == old(submodules) - (set id | id in ids[..i])
      {
        assert ids[..i + 1] == ids[..i] + [ids[i]];
        submodules := submodules - {ids[i]};
      }
      assert ids[..|ids|] == ids;
    }

    method CollectGarbage(r: nat)
      modifies this`submodules, this`moduleRetention, this`retIdx
      ensures St() == GarbageCollect(old(St()), r)
    {
      while r > retIdx
        invariant GarbageCollect(St(), r) == GarbageCollect(old(St()), r)
        decreases r - retIdx
      {
        ghost var s := St();
        DeleteListed(if retIdx in moduleRetention then moduleRetention[retIdx] else []);
        moduleRetention := moduleRetention - {retIdx};
        retIdx := retIdx + 1;
        assert St() == CollectOne(s);
      }
    }

    /** Before an event for the factory itself, everything pending is distributed. */
    method ApplyNewSubmodule(id: ModuleId, r: nat, generated: bool) returns (ok: bool, ghost order: seq<ModuleId>)
      requires Valid()
      modifies this, messageBuffer
      ensures Valid() && Traversal(order, old(eventBuffer.Keys))
      ensures ok <==> Step(p, old(St()), 0, New(order, id, r, generated)).Some?
      ensures ok ==> St() == Step(p, old(St()), 0, New(order, id, r, generated)).value
    {
      hide DistributeAll, NewSubmodule;
      order := ApplySubmodulesEvents();
      ok := CreateSubmodule(id, r, generated);
    }

    method ApplyGarbageCollect(r: nat) returns (ghost order: seq<ModuleId>)
      requires Valid()
      modifies this, messageBuffer
      ensures Valid() && Traversal(order, old(eventBuffer.Keys))
      ensures Some(St()) == Step(p, old(St()), 0, Collect(order, r))
    {
      hide DistributeAll, GarbageCollect;
      order := ApplySubmodulesEvents();
      CollectGarbage(r);
    }
  }

  // ---------------------------------------------------------------- one round of the loops

  lemma EarlyOne(p: Params, s: State, id: ModuleId, events: seq<Event>, others: map<ModuleId, seq<Event>>)
    requires s.pending == others[id := events] && events != []
    ensures
      BufferEarly(p, s, id) == BufferEarly(p, TryBuffering(p, s.(pending := others[id := events[1..]]), events[0]), id)
  {
    hide TryBuffering;
    assert s.pending[id := events[1..]] == others[id := events[1..]];
  }

  lemma EarlyNone(p: Params, s: State, id: ModuleId, others: map<ModuleId, seq<Event>>)
    requires s.pending == others[id := []] && id !in others
    ensures BufferEarly(p, s, id) == s.(pending := others)
  {
    assert others[id := []] - {id} == others;
  }

  lemma DistributeSnoc(p: Params, s: State, order: seq<ModuleId>, id: ModuleId)
    ensures DistributeAll(p, s, order + [id]) == Distribute(p, DistributeAll(p, s, order), id)
  {
    assert (order + [id])[..|order|] == order;
  }

  lemma NothingTraversed(events: map<ModuleId, seq<Event>>)
    ensures Traversal([], events.Keys - events.Keys)
  {}

  lemma OneMoreTraversed(order: seq<ModuleId>, keys: set<ModuleId>, rest: map<ModuleId, seq<Event>>, id: ModuleId)
    requires Traversal(order, keys - rest.Keys) && id in rest && rest.Keys <= keys
    ensures Traversal(order + [id], keys - (rest - {id}).Keys)
    ensures (rest - {id})[id := rest[id]] == rest
  {}

  lemma AllTraversed(order: seq<ModuleId>, keys: set<ModuleId>, rest: map<ModuleId, seq<Event>>)
    requires Traversal(order, keys - rest.Keys) && rest == map[]
    ensures Traversal(order, keys)
  {}
}
