/** The event loop's data structures as they run (stdtypes/eventlist.go, eventbuffer.go, node.go), proved
    against module Node. */
module NodeLoop {
  import opened Types
  import opened ModuleIds
  import opened Node

  /** The linked list of events, which is not allocated before its first use. */
  class EventList {
    var list: Option<seq<Event>>

    function Slice(): seq<Event>
      reads this
    {
      if list.None? then [] else list.value
    }

    constructor Empty()
      ensures list == None && Slice() == []
    {
      list := None;
    }

    method PushBack(e: Event)
      modifies this
      ensures list == Some(old(Slice()) + [e]) && Slice() == old(Slice()) + [e]
    {
      if list.None? {
        list := Some([]);
      }
      list := Some(list.value + [e]);
    }

    method PushBackList(other: EventList)
      modifies this
      ensures Slice() == old(Slice()) + old(other.Slice())
      ensures list.None? <==> old(list).None? && old(other.list).None?
    {
      if other.list.Some? {
        if list.None? {
          list := Some([]);
        }
        list := Some(list.value + other.list.value);
      }
    }

    method Head(n: int) returns (head: EventList)
      ensures fresh(head) && head.Slice() == Slice()[..if n < 0 then 0 else if n < |Slice()| then n else |Slice()|]
    {
      head := new EventList.Empty();
      if list.None? {
        return;
      }
      var events, i := list.value, 0;
      while i < n
        invariant 0 <= i <= |events| && (n >= 0 ==> i <= n) && (n < 0 ==> i == 0) && head.Slice() == events[..i]
      {
        if i == |events| {
          break;
        }
        head.PushBack(events[i]);
        i := i + 1;
      }
    }

    /** A negative count comes back as it is, unless the list was never used. */
    method RemoveFront(n: int) returns (removed: int)
      modifies this
      ensures removed ==
        if old(list).None? then 0 else if n < 0 then n else if n < old(|Slice()|) then n else old(|Slice()|)
      ensures Slice() == old(Slice())[if removed < 0 then 0 else removed..] && (list.None? <==> old(list).None?)
    {
      if list.None? {
        return 0;
      }
      var i := 0;
      while i < n
        invariant list.Some? && 0 <= i <= old(|Slice()|) && (n >= 0 ==> i <= n) && (n < 0 ==> i == 0)
        invariant Slice() == old(Slice())[i..]
        decreases n - i
      {
        if list.value == [] {
          return i;
        }
        list := Some(list.value[1..]);
        i := i + 1;
      }
      removed := n;
    }
  }

  /** Takes the first events out of one buffer. */
  method TakeFront(buffer: EventList, max: int) returns (batch: seq<Event>)
    requires max > 0
    modifies buffer
    ensures
      var n := BatchSize(max, old(buffer.Slice()));
      batch == old(buffer.Slice())[..n] && buffer.Slice() == old(buffer.Slice())[n..]
  {
    var head := buffer.Head(max);
    batch := head.Slice();
    var _ := buffer.RemoveFront(|batch|);
  }

  class EventBuffer {
    var buffers: map<ModuleId, EventList>
    var totalEvents: int

    /** No two modules share a buffer. */
    ghost predicate Valid()
      reads this
    {
      forall m, n | m in buffers && n in buffers && m != n :: buffers[m] != buffers[n]
    }

    ghost function Contents(): Buffers
      reads this, buffers.Values
    {
      map m | m in buffers :: buffers[m].Slice()
    }

    constructor (modules: set<ModuleId>)
      ensures Valid() && Contents() == EmptyBuffers(modules) && totalEvents == 0 && fresh(buffers.Values)
    {
      buffers, totalEvents := map[], 0;
      new;
      var rest := modules;
      while rest != {}
        invariant rest <= modules && buffers.Keys == modules - rest && totalEvents == 0
        invariant Valid() && forall m | m in buffers :: fresh(buffers[m]) && buffers[m].Slice() == []
      {
        var m :| m in rest;
        var empty := new EventList.Empty();
        buffers := buffers[m := empty];
        rest := rest - {m};
      }
    }

    method AddEvent(e: Event)
      requires Valid()
      modifies this`totalEvents, buffers.Values
      ensures forall paused ::
        State(Contents(), totalEvents, paused) == AddOne(State(old(Contents()), old(totalEvents), paused), e)
    {
      var m := Top(e.dest);
      if m in buffers {
        buffers[m].PushBack(e);
        totalEvents := totalEvents + 1;
      }
    }

    method Add(events: seq<Event>)
      requires Valid()
      modifies this`totalEvents, buffers.Values
      ensures forall paused ::
        State(Contents(), totalEvents, paused) == Node.Add(State(old(Contents()), old(totalEvents), paused), events)
    {
      hide AddOne;
      for i := 0 to |events|
        invariant forall paused ::
          State(Contents(), totalEvents, paused) ==
            Node.Add(State(old(Contents()), old(totalEvents), paused), events[..i])
      {
        assert events[..i + 1][..i] == events[..i];
        AddEvent(events[i]);
      }
      assert events[..|events|] == events;
    }

    method TakeBatch(m: ModuleId, max: int) returns (batch: seq<Event>)
      requires Valid() && m in buffers && max > 0
      modifies this`totalEvents, buffers.Values
      ensures batch == old(Contents())[m][..BatchSize(max, old(Contents())[m])]
      ensures forall paused ::
        State(Contents(), totalEvents, paused) == Taken(State(old(Contents()), old(totalEvents), paused), m, max)
    {
      batch := TakeFront(buffers[m], max);
      totalEvents := totalEvents - |batch|;
    }
  }

  class Loop {
    const config: Config
    const pendingEvents: EventBuffer
    var inputPaused: bool
    var dispatched: Buffers

    ghost predicate Valid()
      reads this, pendingEvents
    {
      ValidConfig(config) && pendingEvents.Valid() && dispatched.Keys == pendingEvents.buffers.Keys
    }

    ghost function St(): State
      reads this, pendingEvents, pendingEvents.buffers.Values
    {
      State(pendingEvents.Contents(), pendingEvents.totalEvents, inputPaused)
    }

    constructor (config: Config, modules: set<ModuleId>, inits: seq<Event>)
      requires ValidConfig(config)
      ensures Valid() && this.config == config && dispatched == EmptyBuffers(modules) && St() == Begin(modules, inits).s
      ensures fresh(pendingEvents) && fresh(pendingEvents.buffers.Values)
    {
      var buffer := new EventBuffer(modules);
      buffer.Add(inits);
      this.config, this.pendingEvents := config, buffer;
      this.inputPaused, this.dispatched := false, EmptyBuffers(modules);
    }

    /** The reaction to a list of new events. */
    method Receive(events: seq<Event>)
      requires Valid()
      modifies this`inputPaused, pendingEvents`totalEvents, pendingEvents.buffers.Values
      ensures Valid() && St() == Node.Receive(config, old(St()), events)
    {
      hide Node.Add;
      pendingEvents.Add(events);
      if pendingEvents.totalEvents > config.pause {
        inputPaused := true;
      }
    }

    /** The reaction to a batch having been written to a module's channel. */
    method Dispatch(m: ModuleId)
      requires Valid() && m in pendingEvents.buffers
      modifies this`inputPaused, this`dispatched, pendingEvents`totalEvents, pendingEvents.buffers.Values
      ensures Valid() && St() == Node.Dispatch(config, old(St()), m)
      ensures
        var buffer := old(St()).buffers[m];
        dispatched == old(dispatched)[m := old(dispatched)[m] + buffer[..BatchSize(config.maxBatch, buffer)]]
    {
      hide Taken, Settled, BatchSize;
      var batch := pendingEvents.TakeBatch(m, config.maxBatch);
      Settle();
      dispatched := dispatched[m := dispatched[m] + batch];
    }

    /** Resumes the input when little enough is buffered. */
    method Settle()
      modifies this`inputPaused
      ensures St() == Node.Settled(config, old(St()))
    {
      if pendingEvents.totalEvents <= config.resume {
        inputPaused := false;
      }
    }
  }
}
