/** Whole runs of the fleet: the timed fence, and what processes never undo. */
module FleetRuns {
  import opened Tables
  import opened Transactions
  import opened Automaton
  import opened Local
  import opened Fleet
  import opened FleetInvariant
  import opened FleetCommit
  import opened FleetLocal
  import opened FleetRequest

  predicate FreshProc(proc: Proc) {
    && !proc.initialized && !proc.stopping && !proc.fenced
    && proc.revision == 0 && proc.deadline == 0
    && proc.gates == map[] && proc.drains == map[] && proc.pending == {}
    && proc.detached == map[] && proc.phantoms == {} && proc.boxes == map[]
    && proc.op == Idle
  }

  /** The migration's baseline: every slot UNOWNED at epoch 0, every process unregistered. */
  ghost predicate Initial(f: State) {
    && f.store.leases == map[] && f.store.handoffs == map[]
    && (forall s | s in f.store.slots :: f.store.slots[s] == Row(None, 0, Unowned))
    && (forall p | p in f.procs :: FreshProc(f.procs[p]) && f.procs[p].granted <= f.now)
    && f.threads == map[] && f.log == [] && f.served == {}
  }

  ghost predicate IsRun(w: World, states: seq<State>, steps: seq<Step>) {
    && |states| == |steps| + 1
    && Initial(states[0])
    && forall i | 0 <= i < |steps| :: Enabled(w, states[i], steps[i]) && states[i + 1] == Do(w, states[i], steps[i])
  }

  lemma InitialInv(w: World, f: State)
    requires Initial(f)
    ensures Inv(w, f)
  {
  }

  lemma StepInv(w: World, f: State, step: Step)
    requires Monotone(w)
    requires Inv(w, f) && Enabled(w, f, step)
    ensures Inv(w, Do(w, f, step))
  {
    match step
    case Tick(to) => TickInv(w, f, to);
    case Commit(t) => CommitInv(w, f, t);
    case Local(p, act) => LocalInv(w, f, act, p);
    case Enter(tid, p, s) => EnterInv(w, f, tid, p, s);
    case Request(tid, access) => RequestInv(w, f, access, tid);
  }

  lemma {:induction false} RunInv(w: World, states: seq<State>, steps: seq<Step>, i: nat)
    requires Monotone(w)
    requires IsRun(w, states, steps) && i < |states|
    ensures Inv(w, states[i])
  {
    if i == 0 {
      InitialInv(w, states[0]);
    } else {
      RunInv(w, states, steps, i - 1);
      StepInv(w, states[i - 1], steps[i - 1]);
    }
  }

  /** The configured floor is more than the theorem needs. */
  lemma FloorSuffices(ha: HA)
    requires ha.ValidAuthority()
    ensures Sufficient(ha)
    ensures ha.quiet >= ha.Deadline() + ha.maxPause + ha.drift + ha.jump + 2 * ha.margin
  {
  }

  // ------------------------------------------------------------------
  // The timed fence.

  /** Every served cursor advance was made while the store named its instance and epoch. */
  lemma ServedWhileHeld(w: World, states: seq<State>, steps: seq<Step>, i: nat, k: nat)
    requires Timed(w)
    requires IsRun(w, states, steps) && i < |states| && k in states[i].served
    ensures k < |states[i].log| && states[i].log[k].held
  {
    RunInv(w, states, steps, i);
  }

  /** Served advances of one slot are in epoch order, and an epoch is one instance's. */
  lemma ServedInEpochOrder(w: World, states: seq<State>, steps: seq<Step>, i: nat, j: nat, k: nat)
    requires Timed(w)
    requires IsRun(w, states, steps) && i < |states|
    requires j in states[i].served && k in states[i].served && j < k
    requires k < |states[i].log| && states[i].log[j].gate.slot == states[i].log[k].gate.slot
    ensures states[i].log[j].gate.epoch <= states[i].log[k].gate.epoch
    ensures states[i].log[j].gate.epoch == states[i].log[k].gate.epoch ==>
        states[i].log[j].proc == states[i].log[k].proc
  {
    RunInv(w, states, steps, i);
  }

  // ------------------------------------------------------------------
  // What a process never undoes.

  /** A withdrawn gate stays withdrawn, shutdown latches, an armed deadline does not move back. */
  ghost predicate Keeps(p: Proc, q: Proc) {
    && (p.deadline > 0 ==> q.deadline >= p.deadline)
    && (forall g | p.Withdrawn(g) :: q.Withdrawn(g))
    && (p.stopping ==> q.stopping)
  }

  lemma LocalKeeps(w: World, f: State, act: Act, p: Instance)
    requires Monotone(w) && p in f.procs && ProcOk(w, f.now, f.store, p, f.procs[p])
    requires ProcEnabled(w, f, act, p)
    ensures Keeps(f.procs[p], ProcDo(w, f, act, p))
  {
    LocalProc(w, f, act, p);
    DeadlineKeeps(w, f, act, p);
  }

  lemma DeadlineKeeps(w: World, f: State, act: Act, p: Instance)
    requires p in f.procs && ProcEnabled(w, f, act, p)
    requires RenewalOk(w, f.now, p, f.procs[p])
    ensures f.procs[p].deadline > 0 ==> ProcDo(w, f, act, p).deadline >= f.procs[p].deadline
    ensures f.procs[p].stopping ==> ProcDo(w, f, act, p).stopping
  {
  }

  lemma RequestKeeps(w: World, f: State, access: Access, tid: Tid, p: Instance)
    requires p in f.procs && Well(f, tid) && ThreadEnabled(w, f, access, tid)
    ensures p in ThreadDo(w, f, access, tid).procs && Keeps(f.procs[p], ThreadDo(w, f, access, tid).procs[p])
  {
  }

  lemma CommitKeeps(w: World, f: State, t: Txn, p: Instance)
    requires p in f.procs
    ensures p in Committed(w, f, t).procs && Keeps(f.procs[p], Committed(w, f, t).procs[p])
  {
  }

  lemma StepKeeps(w: World, f: State, step: Step, p: Instance)
    requires Monotone(w) && p in f.procs && ProcOk(w, f.now, f.store, p, f.procs[p])
    requires Enabled(w, f, step)
    ensures p in Do(w, f, step).procs && Keeps(f.procs[p], Do(w, f, step).procs[p])
  {
    match step
    case Tick(_) =>
    case Commit(t) => CommitKeeps(w, f, t, p);
    case Local(q, act) => if q == p { LocalKeeps(w, f, act, p); }
    case Enter(_, _, _) =>
    case Request(tid, access) => RequestKeeps(w, f, access, tid, p);
  }

  /** Over any stretch of any run. */
  lemma {:induction false} ProcessNeverUndoes(w: World, states: seq<State>, steps: seq<Step>, i: nat, j: nat,
      p: Instance)
    requires Monotone(w)
    requires IsRun(w, states, steps) && i <= j < |states| && p in states[i].procs
    ensures p in states[j].procs && Keeps(states[i].procs[p], states[j].procs[p])
    ensures forall g | states[i].procs[p].Withdrawn(g) :: !states[j].procs[p].Open(g)
    decreases j
  {
    if i < j {
      ProcessNeverUndoes(w, states, steps, i, j - 1, p);
      RunProc(w, states, steps, j - 1, p);
      RunStep(w, states, steps, j - 1);
      StepKeeps(w, states[j - 1], steps[j - 1], p);
    }
    RunProc(w, states, steps, j, p);
    WithdrawnClosed(w, states[j], p);
  }

  lemma RunProc(w: World, states: seq<State>, steps: seq<Step>, i: nat, p: Instance)
    requires Monotone(w)
    requires IsRun(w, states, steps) && i < |states| && p in states[i].procs
    ensures ProcOk(w, states[i].now, states[i].store, p, states[i].procs[p])
  {
    RunInv(w, states, steps, i);
  }

  lemma RunStep(w: World, states: seq<State>, steps: seq<Step>, i: nat)
    requires IsRun(w, states, steps) && i < |steps|
    ensures Enabled(w, states[i], steps[i]) && states[i + 1] == Do(w, states[i], steps[i])
  {
  }

  lemma WithdrawnClosed(w: World, f: State, p: Instance)
    requires p in f.procs && BoxesOk(f.store, p, f.procs[p])
    ensures forall g | f.procs[p].Withdrawn(g) :: !f.procs[p].Open(g)
  {
  }

  // ------------------------------------------------------------------
  // Acknowledged drains.

  /** No request thread is inside the gate. */
  ghost predicate Empty(f: State, p: Instance, g: GateId) {
    forall tid | tid in f.threads && f.threads[tid].proc == p && f.threads[tid].gate == g ::
      f.threads[tid].guard == Outside
  }

  lemma QuiescedEmpty(w: World, f: State, p: Instance, g: GateId)
    requires Inv(w, f) && p in f.procs && Quiesced(f.procs[p], g)
    ensures Empty(f, p, g)
  {
    forall tid | tid in f.threads && f.threads[tid].proc == p && f.threads[tid].gate == g
      ensures f.threads[tid].guard == Outside
    {
      assert ThreadOk(w, f.now, f.log, f.procs, f.threads[tid]);
      assert g in f.procs[p].boxes ==> |Riders(f.threads, p, g)| == 0;
      assert f.threads[tid].guard != Outside ==> tid in Riders(f.threads, p, g);
    }
  }

  lemma LocalQuiesced(w: World, f: State, act: Act, p: Instance, g: GateId)
    requires Monotone(w) && p in f.procs && ProcOk(w, f.now, f.store, p, f.procs[p])
    requires ProcEnabled(w, f, act, p) && Quiesced(f.procs[p], g)
    ensures Quiesced(ProcDo(w, f, act, p), g)
  {
    LocalProc(w, f, act, p);
    DeadlineKeeps(w, f, act, p);
    if f.procs[p].stopping {
      StoppingBoxes(w, f, act, p);
    }
  }

  lemma StoppingBoxes(w: World, f: State, act: Act, p: Instance)
    requires p in f.procs && ProcEnabled(w, f, act, p) && f.procs[p].stopping
    ensures ProcDo(w, f, act, p).boxes.Keys == f.procs[p].boxes.Keys
  {
  }

  lemma RequestQuiesced(w: World, f: State, access: Access, tid: Tid, p: Instance, g: GateId)
    requires p in f.procs && Quiesced(f.procs[p], g)
    requires Well(f, tid) && ThreadEnabled(w, f, access, tid)
    ensures p in ThreadDo(w, f, access, tid).procs && Quiesced(ThreadDo(w, f, access, tid).procs[p], g)
  {
  }

  lemma CommitQuiesced(w: World, f: State, t: Txn, p: Instance, g: GateId)
    requires p in f.procs && Quiesced(f.procs[p], g)
    ensures p in Committed(w, f, t).procs && Quiesced(Committed(w, f, t).procs[p], g)
  {
  }

  lemma StepQuiesced(w: World, f: State, step: Step, p: Instance, g: GateId)
    requires Monotone(w) && p in f.procs && ProcOk(w, f.now, f.store, p, f.procs[p])
    requires Enabled(w, f, step) && Quiesced(f.procs[p], g)
    ensures p in Do(w, f, step).procs && Quiesced(Do(w, f, step).procs[p], g)
  {
    match step
    case Tick(_) =>
    case Commit(t) => CommitQuiesced(w, f, t, p, g);
    case Local(q, act) => if q == p { LocalQuiesced(w, f, act, p, g); }
    case Enter(_, _, _) =>
    case Request(tid, access) => RequestQuiesced(w, f, access, tid, p, g);
  }

  lemma {:induction false} QuiescedForever(
    w: World, states: seq<State>, steps: seq<Step>, i: nat, j: nat, p: Instance, g: GateId)
    requires Monotone(w)
    requires IsRun(w, states, steps) && i <= j < |states|
    requires p in states[i].procs && Quiesced(states[i].procs[p], g)
    ensures p in states[j].procs && Quiesced(states[j].procs[p], g)
    decreases j
  {
    if i < j {
      QuiescedForever(w, states, steps, i, j - 1, p, g);
      RunProc(w, states, steps, j - 1, p);
      RunStep(w, states, steps, j - 1);
      StepQuiesced(w, states[j - 1], steps[j - 1], p, g);
    }
  }

  /** Once a drain is acknowledged on record, its gate is empty, then and ever after. */
  lemma AcknowledgedDrainIsFinal(w: World, states: seq<State>, steps: seq<Step>, i: nat, j: nat, s: Slot)
    requires Monotone(w)
    requires IsRun(w, states, steps) && i <= j < |states|
    requires s in states[i].store.handoffs
    requires states[i].store.handoffs[s].phase == Drain && states[i].store.handoffs[s].drained
    ensures var h := states[i].store.handoffs[s];
            Empty(states[j], h.source, GateId(s, h.sourceEpoch))
  {
    var h := states[i].store.handoffs[s];
    RunInv(w, states, steps, i);
    RunInv(w, states, steps, j);
    assert PairOk(states[i].store.slots[s], IntentOf(states[i].store.handoffs, s));
    assert ProcOk(w, states[i].now, states[i].store, h.source, states[i].procs[h.source]);
    QuiescedForever(w, states, steps, i, j, h.source, GateId(s, h.sourceEpoch));
    QuiescedEmpty(w, states[j], h.source, GateId(s, h.sourceEpoch));
  }
}
