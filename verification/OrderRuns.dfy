/** Whole runs of one key across the fleet: the order of its IDs. */
module OrderRuns {
  import opened Tables
  import opened Transactions
  import opened Automaton
  import opened Local
  import opened RangeOrder
  import opened Order
  import opened OrderInvariant
  import opened OrderSafety
  import C = Cursor
  import F = Fleet
  import FI = FleetInvariant
  import FR = FleetRuns

  ghost predicate Initial(s: State) {
    && FR.Initial(s.fleet) && s.fleet.store.marks == map[]
    && s.cells == [] && s.table == map[] && s.holding == map[] && s.answers == map[]
    && s.origin == [] && s.grants == []
  }

  ghost predicate IsRun(m: Model, states: seq<State>, steps: seq<Step>) {
    && |states| == |steps| + 1
    && Initial(states[0])
    && forall i | 0 <= i < |steps| :: Enabled(m, states[i], steps[i]) && states[i + 1] == Do(m, states[i], steps[i])
  }

  /** What every result here takes for granted; the timed ones say so in addition. */
  ghost predicate Configured(m: Model) {
    F.Monotone(m.world) && m.sizes.Valid()
  }

  lemma InitialInv(m: Model, s: State)
    requires Initial(s)
    ensures Inv(m, s)
  {
    FR.InitialInv(m.world, s.fleet);
    hide FI.Inv;
  }

  lemma StepInv(m: Model, s: State, step: Step)
    requires Configured(m) && Inv(m, s) && Enabled(m, s, step)
    ensures Inv(m, Do(m, s, step))
  {
    hide Inv, Enabled, Do;
    match step
    case FleetStep(fs) => FleetStepInv(m, s, fs);
    case Commit(t, x) => CommitInv(m, s, t, x);
    case Acquire(tid) => AcquireInv(m, s, tid);
    case LetGo(tid) => ReleaseInv(m, s, tid);
    case Evict(x) => EvictInv(m, s, x);
    case Cursor(tid, x, cs) => CursorStepInv(m, s, tid, x, cs);
  }

  lemma {:induction false} RunInv(m: Model, states: seq<State>, steps: seq<Step>, i: nat)
    requires Configured(m) && IsRun(m, states, steps) && i < |states|
    ensures Inv(m, states[i])
  {
    hide Inv, Enabled, Do, Initial, Configured;
    if i == 0 {
      InitialInv(m, states[0]);
    } else {
      RunInv(m, states, steps, i - 1);
      StepInv(m, states[i - 1], steps[i - 1]);
    }
  }

  // ------------------------------------------------------------------

  /** Without any clock: of two served blocks whose advances the store then stood behind, the later is above. */
  lemma HeldBlocksRise(m: Model, states: seq<State>, steps: seq<Step>, k: nat, i: nat, j: nat)
    requires Configured(m) && IsRun(m, states, steps) && k < |states|
    requires i in states[k].fleet.served && j in states[k].fleet.served
    requires i < j < |states[k].origin| == |states[k].fleet.log|
    requires states[k].fleet.log[i].held && states[k].fleet.log[j].held
    requires states[k].origin[i].Here? && states[k].origin[j].Here?
    ensures Block.requires(states[k], i) && Block.requires(states[k], j)
    ensures Block(states[k], i).0 <= Block(states[k], i).1 < Block(states[k], j).0 <= Block(states[k], j).1
  {
    RunInv(m, states, steps, k);
    ServedRise(m, states[k], i, j);
  }

  /** The global order: blocks served for a key, by whatever instances, strictly rise in the order of their
      cursor advances, across takeovers, drains, boundaries, releases, re-claims and evictions. */
  lemma GlobalOrder(m: Model, states: seq<State>, steps: seq<Step>, k: nat, i: nat, j: nat)
    requires Configured(m) && F.Timed(m.world) && IsRun(m, states, steps) && k < |states|
    requires i in states[k].fleet.served && j in states[k].fleet.served && i < j < |states[k].origin|
    requires states[k].origin[i].Here? && states[k].origin[j].Here?
    ensures Block.requires(states[k], i) && Block.requires(states[k], j)
    ensures Block(states[k], i).0 <= Block(states[k], i).1 < Block(states[k], j).0 <= Block(states[k], j).1
  {
    BlocksWereHeld(m, states, steps, k, i);
    BlocksWereHeld(m, states, steps, k, j);
    OriginsOfLog(m, states, steps, k);
    HeldBlocksRise(m, states, steps, k, i, j);
  }

  /** Every entry of the fleet's log is some cursor's advance. */
  lemma OriginsOfLog(m: Model, states: seq<State>, steps: seq<Step>, k: nat)
    requires Configured(m) && IsRun(m, states, steps) && k < |states|
    ensures |states[k].origin| == |states[k].fleet.log|
  {
    RunInv(m, states, steps, k);
    OriginLength(states[k]);
  }

  /** The order of epochs and ranges needs no clock: ranges cut for a key tile 1..watermark, and what a
      state holds was cut for its own instance at its own gate's epoch. */
  lemma RangesTile(m: Model, states: seq<State>, steps: seq<Step>, k: nat, x: nat, r: Range)
    requires Configured(m) && IsRun(m, states, steps) && k < |states|
    requires x < |states[k].cells| && r in states[k].cells[x].cursor.brought
    ensures Tiled(states[k].grants, Mark(states[k].fleet.store.marks, m.key))
    ensures Grant(states[k].cells[x].proc, states[k].cells[x].gate.epoch, r) in states[k].grants
  {
    RunInv(m, states, steps, k);
    hide FI.Inv, C.Inv, Tiled, Ordered, LinksOk, OriginOk, HoldOk, RefsOk, RestOk, TableOk, AnswersOk;
    assert Cut(states[k].cells[x], states[k].grants, r);
  }

  // ------------------------------------------------------------------
  // Eviction.

  /** A state some request holds is not evicted, and a retired one takes no step. */
  lemma RetiredIsDead(m: Model, states: seq<State>, steps: seq<Step>, k: nat)
    requires Configured(m) && IsRun(m, states, steps) && k < |steps|
    ensures match steps[k]
            case Evict(x) => forall tid | tid in states[k].holding :: states[k].holding[tid] != x
            case Cursor(_, x, _) => !states[k].cells[x].Retired()
            case Acquire(tid) =>
              tid in states[k + 1].holding && states[k + 1].holding[tid] < |states[k + 1].cells|
              && !states[k + 1].cells[states[k + 1].holding[tid]].Retired()
            case _ => true
  {
    RunInv(m, states, steps, k);
    RunStep(m, states, steps, k);
    hide Inv, IsRun, Do, Enabled;
    match steps[k]
    case Evict(x) => EvictsUnheld(m, states[k], x);
    case Cursor(tid, x, cs) => StepsUsable(m, states[k], tid, x, cs);
    case Acquire(tid) => AcquiresUsable(m, states[k], tid);
    case _ =>
  }

  lemma RunStep(m: Model, states: seq<State>, steps: seq<Step>, k: nat)
    requires IsRun(m, states, steps) && k < |steps|
    ensures Enabled(m, states[k], steps[k]) && states[k + 1] == Do(m, states[k], steps[k])
  {
    hide Do, Enabled, Initial;
  }

  lemma EvictsUnheld(m: Model, s: State, x: nat)
    requires Inv(m, s) && Enabled(m, s, Evict(x))
    ensures forall tid | tid in s.holding :: s.holding[tid] != x
  {
    hide FI.Inv, C.Inv, CellsOk, LinksOk, OriginOk, RestOk, BroughtOk, AnswersOk, GrantsOk, HoldOk, TableOk;
    EvictRefs(s.cells, s.holding, x);
  }

  lemma StepsUsable(m: Model, s: State, tid: Tid, x: nat, cs: C.Step)
    requires Inv(m, s) && Enabled(m, s, Cursor(tid, x, cs))
    ensures x < |s.cells| && !s.cells[x].Retired()
  {
    hide FI.Inv, C.Inv, CellsOk, LinksOk, OriginOk, RefsOk, RestOk, BroughtOk, AnswersOk, GrantsOk, HoldOk, TableOk;
    hide C.Do, C.Enabled, C.Advances, Entitled, Access;
    StepCells(s.cells, tid, x, cs);
    CompletesFetching(s.cells[x].cursor, tid, cs);
    SteppedIsUsable(s, tid, x, cs);
  }

  lemma AcquiresUsable(m: Model, s: State, tid: Tid)
    requires Inv(m, s) && Enabled(m, s, Acquire(tid))
    ensures var s' := Do(m, s, Acquire(tid));
            tid in s'.holding && s'.holding[tid] < |s'.cells| && !s'.cells[s'.holding[tid]].Retired()
  {
    hide FI.Inv, C.Inv, CellsOk, LinksOk, OriginOk, RefsOk, RestOk, BroughtOk, AnswersOk, GrantsOk, HoldOk;
  }

  /** One gate never has two usable states of the key, and a later state's ranges lie above all of an earlier one's. */
  lemma ReplacementIsAbove(m: Model, states: seq<State>, steps: seq<Step>, k: nat, x: nat, y: nat)
    requires Configured(m) && IsRun(m, states, steps) && k < |states|
    requires x < y < |states[k].cells| && Home(states[k].cells[x]) == Home(states[k].cells[y])
    ensures states[k].cells[x].Retired()
    ensures forall q, r | q in states[k].cells[x].cursor.brought && r in states[k].cells[y].cursor.brought ::
              q.end < r.start
  {
    RunInv(m, states, steps, k);
    hide FI.Inv, LinksOk, OriginOk, RefsOk, RestOk, AnswersOk, GrantsOk, C.AdvancesOk, C.FetchOk, C.LockOk;
    var c, d := states[k].cells[x], states[k].cells[y];
    assert C.Inv(c.cursor);
    forall q, r | q in c.cursor.brought && r in d.cursor.brought ensures q.end < r.start {
      assert Cut(d, states[k].grants, r);
    }
  }

  // ------------------------------------------------------------------

  /** What the cursor asks of a range is what the store delivers: every answer to a fetch is acceptable to it. */
  lemma AnswersAreUsable(m: Model, states: seq<State>, steps: seq<Step>, k: nat, x: nat, tid: Tid)
    requires Configured(m) && IsRun(m, states, steps) && k < |states|
    requires x in states[k].answers && x < |states[k].cells|
    requires C.PcOf(states[k].cells[x].cursor, tid).Fetching? && states[k].cells[x].cursor.lock == None
    ensures Enabled(m, states[k], Cursor(tid, x, C.Complete(Some(states[k].answers[x]))))
  {
    RunInv(m, states, steps, k);
    AnswerFits(m, states[k], x, tid);
  }

  lemma AnswerFits(m: Model, s: State, x: nat, tid: Tid)
    requires AnswersOk(s.cells, s.grants, s.answers)
    requires x in s.answers && x < |s.cells|
    requires C.PcOf(s.cells[x].cursor, tid).Fetching? && s.cells[x].cursor.lock == None
    ensures Enabled(m, s, Cursor(tid, x, C.Complete(Some(s.answers[x]))))
  {
    assert AnswerOk(s.cells[x], s.grants, s.answers[x]);
  }

  /** Every served block was advanced over while the store named its instance and epoch. */
  lemma BlocksWereHeld(m: Model, states: seq<State>, steps: seq<Step>, k: nat, i: nat)
    requires Configured(m) && F.Timed(m.world) && IsRun(m, states, steps) && k < |states|
    requires i in states[k].fleet.served
    ensures i < |states[k].fleet.log| && states[k].fleet.log[i].held
  {
    RunInv(m, states, steps, k);
  }
}
