/** What every step keeps about one key's states, requests and reservations. */
module OrderInvariant {
  import opened Tables
  import opened Transactions
  import opened Automaton
  import opened Local
  import opened RangeOrder
  import opened Order
  import C = Cursor
  import CS = CursorSafety
  import F = Fleet
  import FI = FleetInvariant
  import FR = FleetRuns

  /** The log entry a request is still answering for. */
  function Pending(g: F.Guard): Option<nat> {
    match g
    case Moved(_, at) => Some(at)
    case Bounded(at) => Some(at)
    case Rechecked(at) => Some(at)
    case Reloaded(at, _) => Some(at)
    case Cleared(at) => Some(at)
    case _ => None
  }

  /** The cursor advance a request may yet serve. */
  function Carried(pc: C.Pc): Option<nat> {
    match pc
    case Taken(_, at) => Some(at)
    case SawStart(_, at, _) => Some(at)
    case SawBounds(_, at, _, _) => Some(at)
    case InRange(_, at) => Some(at)
    case BlockSwapped(_, _, _, at) => Some(at)
    case NextStored(at, _) => Some(at)
    case StartStored(at, _) => Some(at)
    case EndStored(at, _) => Some(at)
    case Validated(at) => Some(at)
    case _ => None
  }

  ghost predicate CellsOk(cells: seq<Cell>) {
    forall x | 0 <= x < |cells| :: C.Inv(cells[x].cursor)
  }

  /** A gate's cache has one usable state of the key; its predecessors are retired and their ranges below it. */
  ghost predicate TableOk(cells: seq<Cell>, table: map<(Instance, GateId), nat>, slot: Slot) {
    && (forall h | h in table ::
          table[h] < |cells| && Home(cells[table[h]]) == h && !cells[table[h]].Retired())
    && (forall x | 0 <= x < |cells| ::
          && cells[x].gate.slot == slot
          && (!cells[x].Retired() ==> Home(cells[x]) in table && table[Home(cells[x])] == x))
    && (forall x, y | 0 <= x < y < |cells| && Home(cells[x]) == Home(cells[y]) ::
          cells[x].Retired() && cells[x].cursor.top <= cells[y].born)
  }

  ghost predicate HoldOk(threads: map<Tid, F.Thread>, cells: seq<Cell>, holding: map<Tid, nat>) {
    forall tid | tid in holding ::
      && holding[tid] < |cells| && tid in threads
      && threads[tid].guard != F.Outside && threads[tid].guard != F.Entering
      && (threads[tid].proc, threads[tid].gate) == Home(cells[holding[tid]])
  }

  function Holders(holding: map<Tid, nat>, x: nat): set<Tid> {
    set tid | tid in holding && holding[tid] == x
  }

  ghost predicate RefsOk(cells: seq<Cell>, holding: map<Tid, nat>) {
    forall x | 0 <= x < |cells| ::
      if cells[x].Retired() then Holders(holding, x) == {} && cells[x].cursor.fetch == None
      else cells[x].references == |Holders(holding, x)|
  }

  /** Only holders and background fetches are inside a cursor. */
  ghost predicate RestOk(cells: seq<Cell>, holding: map<Tid, nat>) {
    forall x, t | 0 <= x < |cells| && t in cells[x].cursor.threads ::
      Placed(cells[x].cursor.threads[t], t in holding && holding[t] == x)
  }

  predicate Placed(pc: C.Pc, holder: bool) {
    pc == C.Resting || holder || (pc.Fetching? && pc.purpose.Refill?)
  }

  predicate LinkOk(i: nat, tid: Tid, cells: seq<Cell>, holding: map<Tid, nat>, origin: seq<Origin>) {
    && i < |origin|
    && if tid in holding then
         holding[tid] < |cells| &&
         (var a := Carried(C.PcOf(cells[holding[tid]].cursor, tid));
          a.Some? ==> origin[i] == Here(holding[tid], a.value))
       else origin[i] == Elsewhere
  }

  /** The guard and the cursor speak of the same advance. */
  ghost predicate LinksOk(threads: map<Tid, F.Thread>, cells: seq<Cell>, holding: map<Tid, nat>, origin: seq<Origin>) {
    forall tid | tid in threads && Pending(threads[tid].guard).Some? ::
      LinkOk(Pending(threads[tid].guard).value, tid, cells, holding, origin)
  }

  ghost predicate OriginOk(log: seq<F.Entry>, served: set<nat>, cells: seq<Cell>, origin: seq<Origin>) {
    && |origin| == |log|
    && (forall i | 0 <= i < |origin| && origin[i].Here? ::
          && origin[i].cell < |cells|
          && origin[i].at < |cells[origin[i].cell].cursor.advances|
          && (log[i].proc, log[i].gate) == Home(cells[origin[i].cell])
          && (i in served ==> origin[i].at in cells[origin[i].cell].cursor.served))
    && (forall i, j | 0 <= i < j < |origin| && origin[i].Here? && origin[j].Here? ::
          && (origin[i].cell == origin[j].cell ==> origin[i].at < origin[j].at)
          && (Home(cells[origin[i].cell]) == Home(cells[origin[j].cell]) ==> origin[i].cell <= origin[j].cell))
  }

  /** Everything a state ever held was cut for its instance at its gate's epoch, after the state was born. */
  ghost predicate BroughtOk(cells: seq<Cell>, grants: seq<Grant>, mark: nat) {
    forall x | 0 <= x < |cells| ::
      && cells[x].born <= mark && cells[x].cursor.top <= mark
      && forall r | r in cells[x].cursor.brought :: Cut(cells[x], grants, r)
  }

  predicate Cut(c: Cell, grants: seq<Grant>, r: Range) {
    Grant(c.proc, c.gate.epoch, r) in grants && c.born < r.start
  }

  /** A reservation answered to a fetch fits it: right size, and above everything brought before. */
  predicate AnswerOk(c: Cell, grants: seq<Grant>, r: Range) {
    && c.cursor.fetch.Some? && Cut(c, grants, r)
    && C.Usable(r, c.cursor.top)
    && forall t | t in c.cursor.threads && c.cursor.threads[t].Fetching? :: c.cursor.threads[t].size == C.Size(r)
  }

  ghost predicate AnswersOk(cells: seq<Cell>, grants: seq<Grant>, answers: map<nat, Range>) {
    forall x | x in answers :: x < |cells| && AnswerOk(cells[x], grants, answers[x])
  }

  ghost predicate GrantsOk(m: Model, st: Store, grants: seq<Grant>) {
    Tiled(grants, Mark(st.marks, m.key)) && Ordered(grants, st.slots, m.slot)
  }

  ghost predicate Inv(m: Model, s: State) {
    && FI.Inv(m.world, s.fleet)
    && CellsOk(s.cells)
    && TableOk(s.cells, s.table, m.slot)
    && HoldOk(s.fleet.threads, s.cells, s.holding)
    && RefsOk(s.cells, s.holding)
    && RestOk(s.cells, s.holding)
    && LinksOk(s.fleet.threads, s.cells, s.holding, s.origin)
    && OriginOk(s.fleet.log, s.fleet.served, s.cells, s.origin)
    && BroughtOk(s.cells, s.grants, Mark(s.fleet.store.marks, m.key))
    && AnswersOk(s.cells, s.grants, s.answers)
    && GrantsOk(m, s.fleet.store, s.grants)
  }

  // ------------------------------------------------------------------
  // The order of served blocks.

  function Block(s: State, i: nat): (int, int)
    requires i < |s.origin| && s.origin[i].Here? && s.origin[i].cell < |s.cells|
    requires s.origin[i].at < |s.cells[s.origin[i].cell].cursor.advances|
  {
    var a := s.cells[s.origin[i].cell].cursor.advances[s.origin[i].at];
    (a.lo, a.hi)
  }

  /** A served block lies inside one committed range of its state. */
  lemma BlockInRange(c: Cell, grants: seq<Grant>, a: nat) returns (r: Range)
    requires C.Inv(c.cursor) && a in c.cursor.served
    requires forall q | q in c.cursor.brought :: Cut(c, grants, q)
    ensures a < |c.cursor.advances|
    ensures r.start <= c.cursor.advances[a].lo <= c.cursor.advances[a].hi <= r.end <= c.cursor.top
    ensures Cut(c, grants, r)
  {
    assert C.Valid(c.cursor, a);
    r := c.cursor.ranges[c.cursor.advances[a].generation];
  }

  lemma CutsSeparate(
    grants: seq<Grant>, mark: nat, slots: map<Slot, Row>, slot: Slot, c: Cell, d: Cell, q: Range, r: Range)
    requires Tiled(grants, mark) && Ordered(grants, slots, slot)
    requires Cut(c, grants, q) && Cut(d, grants, r) && c.gate.epoch < d.gate.epoch
    ensures q.end < r.start
  {
    var i :| 0 <= i < |grants| && grants[i] == Grant(c.proc, c.gate.epoch, q);
    var j :| 0 <= j < |grants| && grants[j] == Grant(d.proc, d.gate.epoch, r);
    EpochsSeparate(grants, mark, slots, slot, i, j);
  }

  lemma ServedRise(m: Model, s: State, i: nat, j: nat)
    requires Inv(m, s)
    requires i in s.fleet.served && j in s.fleet.served && i < j < |s.origin| == |s.fleet.log|
    requires s.fleet.log[i].held && s.fleet.log[j].held
    requires s.origin[i].Here? && s.origin[j].Here?
    ensures Block.requires(s, i) && Block.requires(s, j)
    ensures Block(s, i).0 <= Block(s, i).1 < Block(s, j).0 <= Block(s, j).1
  {
    hide FI.ProcOk, FI.ThreadOk, FI.CountsOk, C.Inv, C.Valid, Tiled, Ordered, Coupled;
    var x, y := s.origin[i].cell, s.origin[j].cell;
    var c, d := s.cells[x], s.cells[y];
    var q := BlockInRange(c, s.grants, s.origin[i].at);
    var r := BlockInRange(d, s.grants, s.origin[j].at);
    var f := s.fleet;
    assert f.log[i].gate.epoch <= f.log[j].gate.epoch;
    assert f.log[i].gate.epoch == f.log[j].gate.epoch ==> f.log[i].proc == f.log[j].proc;
    if x == y {
      CursorAscends(c.cursor, s.origin[i].at, s.origin[j].at);
    } else if Home(c) == Home(d) {
      assert c.cursor.top <= d.born;
    } else {
      CutsSeparate(s.grants, Mark(f.store.marks, m.key), f.store.slots, m.slot, c, d, q, r);
    }
  }

  lemma CursorAscends(c: C.State, a: nat, b: nat)
    requires C.Inv(c) && a in c.served && b in c.served && a < b
    ensures b < |c.advances| && c.advances[a].hi < c.advances[b].lo
  {
    assert C.Valid(c, a) && C.Valid(c, b);
  }
}
