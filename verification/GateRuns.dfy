/** Over whole runs: what opens a gate, and what moves the shared deadline. */
module GateRuns {
  import opened Tables
  import opened Transactions
  import opened Automaton
  import opened Local
  import opened Fleet
  import opened FleetInvariant
  import opened FleetRuns

  /** The operation under way rests on a renewal that storage has committed. */
  predicate Proven(op: Op) {
    (op.Sent? && op.committed) || op.Confirmed? || op.Timely? || op.Stored? || op.Opening?
  }

  predicate Within(gates: map<Slot, nat>, wider: map<Slot, nat>) {
    forall s | s in gates :: s in wider && wider[s] == gates[s]
  }

  predicate Anchored(op: Op) {
    op.Sent? || op.Confirmed? || op.Timely?
  }

  /** The renewal's send time, while the process still remembers it. */
  predicate SameAnchor(op: Op, op': Op) {
    Anchored(op') ==> Anchored(op) && op.anchor == op'.anchor
  }

  predicate Renews(w: World, f: State, step: Step, p: Instance) {
    && step.Commit? && step.txn.RenewTxn? && step.txn.id == p
    && Renew(f.store, p, step.txn.revision, w.clock(f.now)).Ok?
  }

  lemma StepKeepsProcs(w: World, f: State, step: Step)
    requires Enabled(w, f, step)
    ensures Do(w, f, step).procs.Keys == f.procs.Keys
  {
  }

  /** Only a committed renewal makes an operation proven; until it ends, no new revision and no new gate. */
  lemma ProvenStep(w: World, f: State, step: Step, p: Instance)
    requires Enabled(w, f, step) && p in f.procs && p in Do(w, f, step).procs
    requires Proven(Do(w, f, step).procs[p].op)
    ensures var q, q' := f.procs[p], Do(w, f, step).procs[p];
            && q'.revision == q.revision
            && Within(q'.gates, q.gates)
            && SameAnchor(q.op, q'.op)
            && (Proven(q.op) || (Renews(w, f, step, p) && q.op.Sent?))
  {
    match step
    case Tick(_) =>
    case Commit(t) => hide After;
    case Local(q, act) =>
      if q == p {
        ProvenLocal(w, f, act, p);
      }
    case Enter(_, _, _) =>
    case Request(_, _) =>
  }

  lemma ProvenLocal(w: World, f: State, act: Act, p: Instance)
    requires p in f.procs && ProcEnabled(w, f, act, p)
    requires Proven(ProcDo(w, f, act, p).op)
    ensures var q, q' := f.procs[p], ProcDo(w, f, act, p);
            && q'.revision == q.revision
            && Within(q'.gates, q.gates)
            && SameAnchor(q.op, q'.op)
            && Proven(q.op)
  {
    hide ApplyAuthority, Held, Close;
  }

  /** Step `i` committed the renewal on which `p` stands in state `k`: same revision, no gate since. */
  ghost predicate StandsOn(w: World, states: seq<State>, steps: seq<Step>, p: Instance, i: nat, k: nat) {
    && i < k < |states| == |steps| + 1
    && Renews(w, states[i], steps[i], p)
    && p in states[i].procs && p in states[k].procs
    && steps[i].txn.revision == states[i].procs[p].revision == states[k].procs[p].revision
    && Within(states[k].procs[p].gates, states[i].procs[p].gates)
    && (Anchored(states[k].procs[p].op) ==>
          states[i].procs[p].op.Sent? && states[k].procs[p].op.anchor == states[i].procs[p].op.anchor)
  }

  /** A renewal commits only at the revision its process has applied. */
  lemma RenewsCurrent(w: World, f: State, step: Step, p: Instance)
    requires Inv(w, f) && Enabled(w, f, step) && Renews(w, f, step, p)
    ensures p in f.procs && p in f.store.leases
    ensures step.txn.revision == f.procs[p].revision == f.store.leases[p].revision
  {
    hide After;
    assert p in f.store.leases;
    assert ProcOk(w, f.now, f.store, p, f.procs[p]);
  }

  /** Each state's proven operation either began at the last step or was proven before it. */
  lemma ProvenBefore(w: World, states: seq<State>, steps: seq<Step>, p: Instance, k: nat)
    requires Monotone(w)
    requires IsRun(w, states, steps) && 0 < k < |states| == |steps| + 1
    requires p in states[k].procs && Proven(states[k].procs[p].op)
    ensures p in states[k - 1].procs
    ensures StandsOn(w, states, steps, p, k - 1, k)
            || (Proven(states[k - 1].procs[p].op)
                && forall i: nat | StandsOn(w, states, steps, p, i, k - 1) :: StandsOn(w, states, steps, p, i, k))
  {
    hide IsRun, Do, Monotone, Inv, Enabled, Renews, Within, SameAnchor, StandsOn;
    var f, step := states[k - 1], steps[k - 1];
    RunStep(w, states, steps, k - 1);
    StepKeepsProcs(w, f, step);
    ProvenStep(w, f, step, p);
    RunInv(w, states, steps, k - 1);
    if Proven(f.procs[p].op) {
      forall i: nat | StandsOn(w, states, steps, p, i, k - 1) ensures StandsOn(w, states, steps, p, i, k) {
        StandsLonger(w, states, steps, p, i, k);
      }
    } else {
      StandsFirst(w, states, steps, p, k);
    }
  }

  lemma {:induction false} ProvenStands(w: World, states: seq<State>, steps: seq<Step>, p: Instance, k: nat)
    requires Monotone(w)
    requires IsRun(w, states, steps) && k < |states|
    requires p in states[k].procs && Proven(states[k].procs[p].op)
    ensures exists i: nat :: StandsOn(w, states, steps, p, i, k)
  {
    hide StandsOn, Do, Enabled, Monotone;
    if k > 0 {
      ProvenBefore(w, states, steps, p, k);
      if !StandsOn(w, states, steps, p, k - 1, k) {
        ProvenStands(w, states, steps, p, k - 1);
        var i: nat :| StandsOn(w, states, steps, p, i, k - 1);
        assert StandsOn(w, states, steps, p, i, k);
      }
    }
  }

  lemma StandsFirst(w: World, states: seq<State>, steps: seq<Step>, p: Instance, k: nat)
    requires 0 < k < |states| == |steps| + 1
    requires Inv(w, states[k - 1]) && Enabled(w, states[k - 1], steps[k - 1])
    requires p in states[k - 1].procs && p in states[k].procs
    requires Renews(w, states[k - 1], steps[k - 1], p) && states[k - 1].procs[p].op.Sent?
    requires states[k].procs[p].revision == states[k - 1].procs[p].revision
    requires Within(states[k].procs[p].gates, states[k - 1].procs[p].gates)
    requires SameAnchor(states[k - 1].procs[p].op, states[k].procs[p].op)
    ensures StandsOn(w, states, steps, p, k - 1, k)
  {
    RenewsCurrent(w, states[k - 1], steps[k - 1], p);
    ProcRenewal(w, states[k - 1], p);
    hide Inv, Enabled;
  }

  lemma ProcRenewal(w: World, f: State, p: Instance)
    requires Inv(w, f) && p in f.procs
    ensures RenewalOk(w, f.now, p, f.procs[p])
  {
    assert ProcOk(w, f.now, f.store, p, f.procs[p]);
  }

  lemma StandsLonger(w: World, states: seq<State>, steps: seq<Step>, p: Instance, i: nat, k: nat)
    requires 0 < k < |states|
    requires StandsOn(w, states, steps, p, i, k - 1)
    requires p in states[k].procs
    requires states[k].procs[p].revision == states[k - 1].procs[p].revision
    requires Within(states[k].procs[p].gates, states[k - 1].procs[p].gates)
    requires SameAnchor(states[k - 1].procs[p].op, states[k].procs[p].op)
    ensures StandsOn(w, states, steps, p, i, k)
  {
  }

  /** When the renewal committed, storage still had the process's gates OWNED at their epochs. */
  lemma RenewalSeesOwned(w: World, states: seq<State>, steps: seq<Step>, p: Instance, i: nat, k: nat, s: Slot)
    requires Monotone(w)
    requires IsRun(w, states, steps) && StandsOn(w, states, steps, p, i, k)
    requires s in states[k].procs[p].gates
    ensures OwnedBy(states[i].store.slots, p, GateId(s, states[k].procs[p].gates[s]))
  {
    RunInv(w, states, steps, i);
    RunStep(w, states, steps, i);
    RenewsCurrent(w, states[i], steps[i], p);
    assert ProcOk(w, states[i].now, states[i].store, p, states[i].procs[p]);
    assert GatesOk(w, states[i].now, states[i].store, p, states[i].procs[p]);
  }

  /** A gate opens only after a renewal committed at the revision of the applied snapshot,
      while storage had the slot OWNED by this process at the gate's epoch. */
  lemma OpensAfterRenewal(w: World, states: seq<State>, steps: seq<Step>, p: Instance, k: nat, s: Slot)
    requires Monotone(w)
    requires IsRun(w, states, steps) && k < |steps|
    requires p in states[k].procs && s in states[k].procs[p].gates
    requires var g := GateId(s, states[k].procs[p].gates[s]);
             p in states[k + 1].procs && !states[k].procs[p].Open(g) && states[k + 1].procs[p].Open(g)
    ensures exists i: nat ::
              && StandsOn(w, states, steps, p, i, k)
              && OwnedBy(states[i].store.slots, p, GateId(s, states[k].procs[p].gates[s]))
  {
    RunStep(w, states, steps, k);
    OnlyOpenGateOpens(w, states[k], steps[k], p, GateId(s, states[k].procs[p].gates[s]));
    ProvenStands(w, states, steps, p, k);
    var i: nat :| StandsOn(w, states, steps, p, i, k);
    RenewalSeesOwned(w, states, steps, p, i, k, s);
  }

  /** No other action opens a closed gate, and a new gate is born closed. */
  lemma OnlyOpenGateOpens(w: World, f: State, step: Step, p: Instance, g: GateId)
    requires Enabled(w, f, step) && p in f.procs && p in Do(w, f, step).procs
    requires !f.procs[p].Open(g) && Do(w, f, step).procs[p].Open(g)
    ensures step == Local(p, OpenGate(g.slot)) && f.procs[p].Serving(g) && Proven(f.procs[p].op)
  {
    match step
    case Tick(_) =>
    case Commit(t) => hide After;
    case Local(q, act) =>
      if q == p {
        LocalOpens(w, f, act, p, g);
      }
    case Enter(_, _, _) =>
    case Request(_, _) =>
  }

  lemma LocalOpens(w: World, f: State, act: Act, p: Instance, g: GateId)
    requires p in f.procs && ProcEnabled(w, f, act, p)
    requires !f.procs[p].Open(g) && ProcDo(w, f, act, p).Open(g)
    ensures act == OpenGate(g.slot) && f.procs[p].Serving(g) && Proven(f.procs[p].op)
  {
    hide Kept, Lost, Gained, Held;
  }

  // ------------------------------------------------------------------
  // The shared deadline.

  /** Step `j` found the term of the renewal anchored at `anchor` not yet run out. */
  predicate InTime(w: World, states: seq<State>, steps: seq<Step>, p: Instance, j: nat, anchor: int) {
    && j < |steps| < |states|
    && steps[j] == Local(p, TestDeadline)
    && w.mono(p, states[j].now) < anchor + w.ha.Deadline()
  }

  /** Step `s` sent the renewal anchored at `anchor`. */
  predicate Sends(w: World, states: seq<State>, steps: seq<Step>, p: Instance, s: nat, anchor: int) {
    s < |steps| < |states| && steps[s] == Local(p, SendRenew) && anchor == w.mono(p, states[s].now)
  }

  /** A renewal's anchor is read when it is sent. */
  lemma {:induction false} AnchoredAtSending(
    w: World, states: seq<State>, steps: seq<Step>, p: Instance, k: nat) returns (s: nat)
    requires IsRun(w, states, steps) && k < |states|
    requires p in states[k].procs && states[k].procs[p].op.Sent?
    ensures s < k && Sends(w, states, steps, p, s, states[k].procs[p].op.anchor)
  {
    RunStep(w, states, steps, k - 1);
    StepKeepsProcs(w, states[k - 1], steps[k - 1]);
    SentStep(w, states[k - 1], steps[k - 1], p);
    hide Enabled, Do;
    if states[k - 1].procs[p].op.Sent? {
      s := AnchoredAtSending(w, states, steps, p, k - 1);
    } else {
      s := k - 1;
    }
  }

  lemma SentStep(w: World, f: State, step: Step, p: Instance)
    requires Enabled(w, f, step) && p in f.procs && p in Do(w, f, step).procs
    requires Do(w, f, step).procs[p].op.Sent?
    ensures var q, q' := f.procs[p], Do(w, f, step).procs[p];
            || (q.op.Sent? && q.op.anchor == q'.op.anchor)
            || (step == Local(p, SendRenew) && q'.op.anchor == w.mono(p, f.now))
  {
    match step
    case Tick(_) =>
    case Commit(t) => hide After;
    case Local(q, act) =>
      if q == p {
        SentLocal(w, f, act, p);
      }
    case Enter(_, _, _) =>
    case Request(_, _) =>
  }

  lemma SentLocal(w: World, f: State, act: Act, p: Instance)
    requires p in f.procs && ProcEnabled(w, f, act, p) && ProcDo(w, f, act, p).op.Sent?
    ensures var q, q' := f.procs[p], ProcDo(w, f, act, p);
            || (q.op.Sent? && q.op.anchor == q'.op.anchor)
            || (act == SendRenew && q'.op.anchor == w.mono(p, f.now))
  {
    hide ApplyAuthority, Held, Close;
  }

  lemma TimelyStep(w: World, f: State, step: Step, p: Instance)
    requires Enabled(w, f, step) && p in f.procs && p in Do(w, f, step).procs
    requires Do(w, f, step).procs[p].op.Timely?
    ensures var q, q' := f.procs[p], Do(w, f, step).procs[p];
            || q.op == q'.op
            || (step == Local(p, TestDeadline) && q.op.Confirmed? && q.op.anchor == q'.op.anchor
                && w.mono(p, f.now) < q'.op.anchor + w.ha.Deadline())
  {
    match step
    case Tick(_) =>
    case Commit(t) => hide After;
    case Local(q, act) =>
      if q == p {
        TimelyLocal(w, f, act, p);
      }
    case Enter(_, _, _) =>
    case Request(_, _) =>
  }

  lemma TimelyLocal(w: World, f: State, act: Act, p: Instance)
    requires p in f.procs && ProcEnabled(w, f, act, p) && ProcDo(w, f, act, p).op.Timely?
    ensures var q, q' := f.procs[p], ProcDo(w, f, act, p);
            || q.op == q'.op
            || (act == TestDeadline && q.op.Confirmed? && q.op.anchor == q'.op.anchor
                && w.mono(p, f.now) < q'.op.anchor + w.ha.Deadline())
  {
    hide ApplyAuthority, Held, Close;
  }

  /** The last step of a run that leaves the term checked. */
  lemma TimelyLast(w: World, states: seq<State>, steps: seq<Step>, p: Instance, k: nat)
    requires IsRun(w, states, steps) && k < |states| == |steps| + 1
    requires p in states[k].procs && states[k].procs[p].op.Timely?
    ensures k > 0 && p in states[k - 1].procs && Proven(states[k - 1].procs[p].op)
    ensures var q, q' := states[k - 1].procs[p], states[k].procs[p];
            && q'.revision == q.revision && Within(q'.gates, q.gates) && SameAnchor(q.op, q'.op)
            && (q.op == q'.op || InTime(w, states, steps, p, k - 1, q'.op.anchor))
  {
    TimelyFirst(w, states, steps, p, k);
    var f, step := states[k - 1], steps[k - 1];
    RunStep(w, states, steps, k - 1);
    StepKeepsProcs(w, f, step);
    hide Enabled, Do, IsRun, Within, SameAnchor;
    TimelyStep(w, f, step, p);
    ProvenStep(w, f, step, p);
  }

  /** The check came after the commit, and before anything changed. */
  lemma {:induction false} TimelyStands(w: World, states: seq<State>, steps: seq<Step>, p: Instance, k: nat)
    returns (i: nat, j: nat)
    requires Monotone(w)
    requires IsRun(w, states, steps) && k < |states| == |steps| + 1
    requires p in states[k].procs && states[k].procs[p].op.Timely?
    ensures i < j < k && StandsOn(w, states, steps, p, i, k)
    ensures InTime(w, states, steps, p, j, states[k].procs[p].op.anchor)
  {
    hide StandsOn, Monotone, IsRun, Within, InTime, Proven;
    TimelyLast(w, states, steps, p, k);
    if states[k - 1].procs[p].op.Timely? {
      i, j := TimelyStands(w, states, steps, p, k - 1);
    } else {
      ProvenStands(w, states, steps, p, k - 1);
      i :| StandsOn(w, states, steps, p, i, k - 1);
      j := k - 1;
      StandsBefore(w, states, steps, p, i, k - 1);
    }
    StandsLonger(w, states, steps, p, i, k);
  }

  lemma TimelyFirst(w: World, states: seq<State>, steps: seq<Step>, p: Instance, k: nat)
    requires IsRun(w, states, steps) && k < |states|
    requires p in states[k].procs && states[k].procs[p].op.Timely?
    ensures k > 0
  {
    hide Do, Enabled;
  }

  lemma StandsBefore(w: World, states: seq<State>, steps: seq<Step>, p: Instance, i: nat, k: nat)
    requires StandsOn(w, states, steps, p, i, k)
    ensures i < k
  {
  }

  /** The life of a deadline: sent at `s`, committed at `i`, checked at `j`, stored at `k`. */
  ghost predicate Earned(
    w: World, states: seq<State>, steps: seq<Step>, p: Instance, s: nat, i: nat, j: nat, k: nat, deadline: int)
  {
    && s < i < j < k
    && Sends(w, states, steps, p, s, deadline - w.ha.Deadline())
    && StandsOn(w, states, steps, p, i, k)
    && InTime(w, states, steps, p, j, deadline - w.ha.Deadline())
  }

  /** The deadline moves only forward: to the send time of a renewal plus the local term, after storage has
      committed that renewal at the applied revision and the process has found the term not run out, and only
      while every withdrawn gate is closed. */
  lemma DeadlineMoves(w: World, states: seq<State>, steps: seq<Step>, p: Instance, k: nat)
    returns (s: nat, i: nat, j: nat)
    requires Monotone(w)
    requires IsRun(w, states, steps) && k < |steps|
    requires p in states[k].procs && p in states[k + 1].procs
    requires states[k + 1].procs[p].deadline != states[k].procs[p].deadline
    ensures Earned(w, states, steps, p, s, i, j, k, states[k + 1].procs[p].deadline)
    ensures states[k].procs[p].deadline > 0 ==> states[k].procs[p].deadline < states[k + 1].procs[p].deadline
    ensures forall g | states[k].procs[p].Withdrawn(g) :: !states[k].procs[p].Open(g)
  {
    RunStep(w, states, steps, k);
    RunProc(w, states, steps, k, p);
    OnlyStoreDeadline(w, states[k], steps[k], p);
    WithdrawnClosed(w, states[k], p);
    hide Inv, Enabled, Do, ProcOk;
    i, j := TimelyStands(w, states, steps, p, k);
    s := AnchoredAtSending(w, states, steps, p, i);
  }

  lemma OnlyStoreDeadline(w: World, f: State, step: Step, p: Instance)
    requires Enabled(w, f, step) && p in f.procs && p in Do(w, f, step).procs
    requires Do(w, f, step).procs[p].deadline != f.procs[p].deadline
    requires RenewalOk(w, f.now, p, f.procs[p])
    ensures step == Local(p, StoreDeadline) && f.procs[p].op.Timely?
    ensures Do(w, f, step).procs[p].deadline == f.procs[p].op.anchor + w.ha.Deadline()
    ensures f.procs[p].deadline > 0 ==> f.procs[p].deadline < Do(w, f, step).procs[p].deadline
  {
    match step
    case Tick(_) =>
    case Commit(t) => hide After;
    case Local(q, act) =>
      if q == p {
        LocalDeadline(w, f, act, p);
      }
    case Enter(_, _, _) =>
    case Request(_, _) =>
  }

  lemma LocalDeadline(w: World, f: State, act: Act, p: Instance)
    requires p in f.procs && ProcEnabled(w, f, act, p) && RenewalOk(w, f.now, p, f.procs[p])
    requires ProcDo(w, f, act, p).deadline != f.procs[p].deadline
    ensures act == StoreDeadline && f.procs[p].op.Timely?
    ensures ProcDo(w, f, act, p).deadline == f.procs[p].op.anchor + w.ha.Deadline()
    ensures f.procs[p].deadline > 0 ==> f.procs[p].deadline < f.procs[p].op.anchor + w.ha.Deadline()
  {
    hide Kept, Lost, Gained, Held, Close, Acceptable;
  }
}
