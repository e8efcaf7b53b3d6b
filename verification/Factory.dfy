/** The factory of submodules as functions of its state (stdmodules/factory/factory.go). */
module Factory {
  import opened Lists
  import opened Types
  import opened ModuleIds
  import opened MessageBuffer

  datatype Params = Params(ownId: ModuleId, capacity: int)

  /** An event for a submodule, numbered by arrival; only received messages are buffered when early. */
  datatype Event = Event(nr: nat, dest: ModuleId, isMessage: bool, size: nat)

  /** What a submodule is given: first an Init event. */
  datatype Handed = Init | Got(nr: nat)

  /** What happened to the buffer of early messages: one was stored, or those for a submodule were taken out. */
  datatype BufferOp = Stored(m: Msg) | TakenFor(id: ModuleId)

  /** Why an event never reached a submodule: it was no message, larger than the whole buffer, or evicted by the
      buffer operation with the given number. */
  datatype Reason = NoMessage | Oversized | Evicted(at: nat)

  datatype State = State(
    live: set<ModuleId>,
    retention: map<nat, seq<ModuleId>>,
    retIdx: nat,
    buffer: seq<Msg>,
    pending: map<ModuleId, seq<Event>>,
    handed: map<ModuleId, seq<Handed>>,
    lost: map<nat, Reason>,
    ops: seq<BufferOp>)

  const EMPTY := State({}, map[], 0, [], map[], map[], map[], [])

  function LogOf(s: State, id: ModuleId): seq<Handed> {
    if id in s.handed then s.handed[id] else []
  }

  function PendingOf(s: State, id: ModuleId): seq<Event> {
    if id in s.pending then s.pending[id] else []
  }

  function Hand(s: State, id: ModuleId, events: seq<Handed>): State {
    s.(handed := s.handed[id := LogOf(s, id) + events])
  }

  function Enqueue(s: State, e: Event): State {
    s.(pending := s.pending[e.dest := PendingOf(s, e.dest) + [e]])
  }

  // ---------------------------------------------------------------- distributing events

  function AsMsg(e: Event): Msg {
    Msg(e.nr, e.dest, e.size)
  }

  function Lose(lost: map<nat, Reason>, dropped: seq<Msg>, at: nat): map<nat, Reason> {
    if dropped == [] then lost
    else Lose(lost, dropped[..|dropped| - 1], at)[dropped[|dropped| - 1].nr := Evicted(at)]
  }

  function TryBuffering(p: Params, s: State, e: Event): State {
    if !e.isMessage then s.(lost := s.lost[e.nr := NoMessage])
    else if e.size > p.capacity then s.(lost := s.lost[e.nr := Oversized])
    else
      s.(buffer := StoreIn(p.capacity, s.buffer, AsMsg(e)),
         ops := s.ops + [Stored(AsMsg(e))],
         lost := Lose(s.lost, Dropped(s.buffer, p.capacity - e.size), |s.ops|))
  }

  /** Takes the first pending event of a submodule that does not exist. */
  function BufferFirst(p: Params, s: State, id: ModuleId): State
    requires PendingOf(s, id) != []
  {
    TryBuffering(p, s.(pending := s.pending[id := s.pending[id][1..]]), s.pending[id][0])
  }

  function BufferEarly(p: Params, s: State, id: ModuleId): State
    decreases |PendingOf(s, id)|
  {
    if PendingOf(s, id) == [] then s.(pending := s.pending - {id}) else BufferEarly(p, BufferFirst(p, s, id), id)
  }

  function Gots(events: seq<Event>): seq<Handed> {
    seq(|events|, i requires 0 <= i < |events| => Got(events[i].nr))
  }

  function Distribute(p: Params, s: State, id: ModuleId): State {
    if id in s.live then Hand(s.(pending := s.pending - {id}), id, Gots(PendingOf(s, id)))
    else BufferEarly(p, s, id)
  }

  /** The submodules' events are distributed in the order in which the map is traversed. */
  function DistributeAll(p: Params, s: State, order: seq<ModuleId>): State {
    if order == [] then s else Distribute(p, DistributeAll(p, s, order[..|order| - 1]), order[|order| - 1])
  }

  ghost predicate Traversal(order: seq<ModuleId>, keys: set<ModuleId>) {
    (forall id :: id in order <==> id in keys) && Distinct(order)
  }

  // ---------------------------------------------------------------- events for the factory itself

  function For(id: ModuleId): Msg -> Applicable {
    (m: Msg) => if m.dest == id then Current else Future
  }

  function GotMsgs(ms: seq<Msg>): seq<Handed> {
    seq(|ms|, i requires 0 <= i < |ms| => Got(ms[i].nr))
  }

  function RetainedAt(s: State, r: nat): seq<ModuleId> {
    if r in s.retention then s.retention[r] else []
  }

  function Create(s: State, id: ModuleId, r: nat): State {
    var early := Applied(s.buffer, For(id));
    Hand(s.(live := s.live + {id},
            retention := s.retention[r := RetainedAt(s, r) + [id]],
            buffer := Kept(s.buffer, For(id)),
            ops := s.ops + [TakenFor(id)]),
         id, [Init] + GotMsgs(early))
  }

  /** The result of a NewSubmodule event; an error stops the node. */
  function NewSubmodule(p: Params, s: State, id: ModuleId, r: nat, generated: bool): Option<State> {
    if Top(id) != p.ownId then None
    else if r < s.retIdx then Some(s)
    else if !generated then None
    else Some(Create(s, id, r))
  }

  function CollectOne(s: State): State {
    s.(live := s.live - (set id | id in RetainedAt(s, s.retIdx)),
       retention := s.retention - {s.retIdx},
       retIdx := s.retIdx + 1)
  }

  function GarbageCollect(s: State, r: nat): State
    decreases r - s.retIdx
  {
    if r <= s.retIdx then s else GarbageCollect(CollectOne(s), r)
  }

  // ---------------------------------------------------------------- runs

  datatype Move =
    | SubmoduleEvent(dest: ModuleId, isMessage: bool, size: nat)
    | New(order: seq<ModuleId>, id: ModuleId, retIdx: nat, generated: bool)
    | Collect(order: seq<ModuleId>, retIdx: nat)
    | Distributed(order: seq<ModuleId>)

  /** Events for the factory itself are handled after distributing what is pending, and so is the end of a batch. */
  function Step(p: Params, s: State, nr: nat, m: Move): Option<State> {
    match m
    case SubmoduleEvent(dest, isMessage, size) => Some(Enqueue(s, Event(nr, dest, isMessage, size)))
    case New(order, id, r, generated) => NewSubmodule(p, DistributeAll(p, s, order), id, r, generated)
    case Collect(order, r) => Some(GarbageCollect(DistributeAll(p, s, order), r))
    case Distributed(order) => Some(DistributeAll(p, s, order))
  }

  ghost predicate Possible(s: State, m: Move) {
    m.SubmoduleEvent? || Traversal(m.order, s.pending.Keys)
  }

  /** The state, the events that arrived, and the submodules created so far. */
  datatype History = History(s: State, arrivals: seq<Event>, created: seq<ModuleId>)

  function Arrived(h: History, m: Move): seq<Event> {
    if m.SubmoduleEvent? then h.arrivals + [Event(|h.arrivals|, m.dest, m.isMessage, m.size)] else h.arrivals
  }

  function Play(p: Params, moves: seq<Move>): Option<History> {
    if moves == [] then Some(History(EMPTY, [], []))
    else
      match Play(p, moves[..|moves| - 1])
      case None => None
      case Some(h) =>
        var m := moves[|moves| - 1];
        match Step(p, h.s, |h.arrivals|, m)
        case None => None
        case Some(s) =>
          Some(History(s, Arrived(h, m),
                       if m.New? && m.retIdx >= h.s.retIdx then h.created + [m.id] else h.created))
  }

  ghost predicate PossibleRun(p: Params, moves: seq<Move>) {
    moves == [] ||
      var init := moves[..|moves| - 1];
      PossibleRun(p, init) && (Play(p, init).Some? ==> Possible(Play(p, init).value.s, moves[|moves| - 1]))
  }
}
