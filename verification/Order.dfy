/** One key across the whole fleet: its key states, its reservations and its requests.

The machine runs the fleet and every key state of one key side by side. A cursor
advance is one step of both: the request's guard must be armed, and the advance gets
its place in the fleet's log. A range reaches a key state only through a reservation
that the store committed for it.

A request stands for one activity on one key in one gate: a batch over several keys,
or over several blocks, is as many requests.
*/
module Order {
  import opened Tables
  import opened Transactions
  import opened Automaton
  import opened Local
  import opened RangeOrder
  import C = Cursor
  import F = Fleet

  type Tid = nat

  /** The key under study, the slot it hashes to, and the configured range sizes. */
  datatype Model = Model(world: F.World, key: Key, slot: Slot, sizes: C.Sizes)

  /** A key state: the gate it belongs to, its cursor and its reference word (-1 once retired). */
  datatype Cell = Cell(proc: Instance, gate: GateId, cursor: C.State, references: int, born: nat)
  {
    predicate Retired() {
      references < 0
    }
  }

  /** Which cursor advance an entry of the fleet's log was, if it was this key's. */
  datatype Origin = Elsewhere | Here(cell: nat, at: nat)

  datatype State = State(
    fleet: F.State,
    cells: seq<Cell>,
    table: map<(Instance, GateId), nat>,
    holding: map<Tid, nat>,
    answers: map<nat, Range>,
    // history
    origin: seq<Origin>,
    grants: seq<Grant>)

  datatype Step =
    | FleetStep(inner: F.Step)
    | Commit(txn: Txn, fetcher: Option<nat>)
    | Acquire(tid: Tid)
    | LetGo(tid: Tid)
    | Evict(cell: nat)
    | Cursor(tid: Tid, cell: nat, move: C.Step)

  function Guard(s: State, tid: Tid): F.Guard {
    if tid in s.fleet.threads then s.fleet.threads[tid].guard else F.Outside
  }

  function Home(c: Cell): (Instance, GateId) {
    (c.proc, c.gate)
  }

  function HomeOf(s: State, tid: Tid): (Instance, GateId)
    requires tid in s.fleet.threads
  {
    (s.fleet.threads[tid].proc, s.fleet.threads[tid].gate)
  }

  predicate Attends(s: State, tid: Tid, x: nat) {
    tid in s.holding && s.holding[tid] == x
  }

  /** A request that holds a key state advances, serves and leaves only together with it. */
  predicate Free(s: State, step: F.Step) {
    step.Request? && step.tid in s.holding ==> step.access !in {F.Advance, F.Serve, F.Leave}
  }

  /** The transaction answers the fetch outstanding in the cell. */
  predicate Answers(m: Model, s: State, t: Txn, x: nat) {
    && x < |s.cells| && x !in s.answers && s.cells[x].cursor.fetch.Some?
    && var g := Granting(s.fleet.store, t, m.world.clock(s.fleet.now), m.key);
    && g.Some? && g.value.instance == s.cells[x].proc && g.value.epoch == s.cells[x].gate.epoch
    && forall tid | tid in s.cells[x].cursor.threads && s.cells[x].cursor.threads[tid].Fetching? ::
         s.cells[x].cursor.threads[tid].size == C.Size(g.value.range)
  }

  /** Who may take a cursor step: a holder; or, in a usable cell, a background fetch and its completion. */
  predicate Entitled(s: State, tid: Tid, x: nat, step: C.Step)
    requires x < |s.cells|
  {
    match step
    case Prefetch(_) => !s.cells[x].Retired()
    case Complete(range) => range.Some? ==> x in s.answers && s.answers[x] == range.value
    case _ => Attends(s, tid, x)
  }

  predicate Enabled(m: Model, s: State, step: Step) {
    match step
    case FleetStep(fs) => F.Enabled(m.world, s.fleet, fs) && !fs.Commit? && Free(s, fs)
    case Commit(t, x) =>
      && F.Enabled(m.world, s.fleet, F.Commit(t)) && Routed(t, m.key, m.slot)
      && (x.Some? ==> Answers(m, s, t, x.value))
    case Acquire(tid) =>
      && tid !in s.holding && Guard(s, tid) == F.Inside && s.fleet.threads[tid].gate.slot == m.slot
      && (HomeOf(s, tid) in s.table ==>
            && s.table[HomeOf(s, tid)] < |s.cells|
            && C.PcOf(s.cells[s.table[HomeOf(s, tid)]].cursor, tid) == C.Resting)
    case LetGo(tid) =>
      && tid in s.holding && s.holding[tid] < |s.cells| && Guard(s, tid) == F.Inside
      && C.PcOf(s.cells[s.holding[tid]].cursor, tid) == C.Resting
    case Evict(x) =>
      && x < |s.cells| && Home(s.cells[x]) in s.table && s.table[Home(s.cells[x])] == x
      && s.cells[x].references == 0 && s.cells[x].cursor.fetch == None && s.cells[x].cursor.lock == None
    case Cursor(tid, x, cs) =>
      && x < |s.cells| && C.Enabled(s.cells[x].cursor, tid, cs) && Entitled(s, tid, x, cs)
      && (C.Advances(s.cells[x].cursor, tid, cs) ==> Access(m, s, tid, F.Advance))
      && (cs == C.Serve ==> Access(m, s, tid, F.Serve))
  }

  predicate Access(m: Model, s: State, tid: Tid, access: F.Access) {
    F.Enabled(m.world, s.fleet, F.Request(tid, access))
  }

  function Tag(s: State, fleet': F.State, o: Origin): seq<Origin> {
    if |fleet'.log| > |s.fleet.log| then s.origin + [o] else s.origin
  }

  /** The state of a key the gate does not have yet; every range it will get lies above today's watermark. */
  function NewCell(m: Model, s: State, home: (Instance, GateId)): Cell {
    var mark := Mark(s.fleet.store.marks, m.key);
    Cell(home.0, home.1, C.Unused(m.sizes), 1, mark)
  }

  function Acquired(m: Model, s: State, tid: Tid): State
    requires tid in s.fleet.threads
    requires HomeOf(s, tid) in s.table ==> s.table[HomeOf(s, tid)] < |s.cells|
  {
    var home := HomeOf(s, tid);
    if home in s.table then
      var x := s.table[home];
      if s.cells[x].Retired() then s
      else s.(cells := s.cells[x := s.cells[x].(references := s.cells[x].references + 1)],
         holding := s.holding[tid := x])
    else
      s.(cells := s.cells + [NewCell(m, s, home)],
         table := s.table[home := |s.cells|],
         holding := s.holding[tid := |s.cells|])
  }

  function Released(s: State, tid: Tid): State
    requires tid in s.holding && s.holding[tid] < |s.cells|
  {
    var x := s.holding[tid];
    s.(cells := s.cells[x := s.cells[x].(references := s.cells[x].references - 1)], holding := s.holding - {tid})
  }

  function CursorFleet(m: Model, s: State, tid: Tid, x: nat, cs: C.Step): F.State
    requires Enabled(m, s, Cursor(tid, x, cs))
  {
    if C.Advances(s.cells[x].cursor, tid, cs) then F.Do(m.world, s.fleet, F.Request(tid, F.Advance))
    else if cs == C.Serve then F.Do(m.world, s.fleet, F.Request(tid, F.Serve))
    else s.fleet
  }

  function Do(m: Model, s: State, step: Step): State
    requires Enabled(m, s, step)
  {
    match step
    case FleetStep(fs) =>
      var fleet' := F.Do(m.world, s.fleet, fs);
      s.(fleet := fleet', origin := Tag(s, fleet', Elsewhere))
    case Commit(t, x) =>
      var g := Granting(s.fleet.store, t, m.world.clock(s.fleet.now), m.key);
      s.(fleet := F.Do(m.world, s.fleet, F.Commit(t)),
         grants := Extend(s.grants, g),
         answers := if x.Some? then s.answers[x.value := g.value.range] else s.answers)
    case Acquire(tid) => Acquired(m, s, tid)
    case LetGo(tid) => Released(s, tid)
    case Evict(x) =>
      s.(cells := s.cells[x := s.cells[x].(references := -1)], table := s.table - {Home(s.cells[x])})
    case Cursor(tid, x, cs) =>
      var c := s.cells[x].cursor;
      var fleet' := CursorFleet(m, s, tid, x, cs);
      s.(fleet := fleet',
         origin := Tag(s, fleet', Here(x, |c.advances|)),
         cells := s.cells[x := s.cells[x].(cursor := C.Do(c, tid, cs))],
         answers := if cs.Complete? then s.answers - {x} else s.answers)
  }
}
