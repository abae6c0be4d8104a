/** The fleet as a timed state machine.

One store, every process, every request thread, real time, the storage clock and
each process's monotonic clock. A step is one store transaction, one action of the
process's authority loop, or one atomic read or write of a request thread.
*/
module Fleet {
  import opened Tables
  import opened Transactions
  import opened Automaton
  import opened Local

  type Tid = nat

  /** Clocks are functions of real time; the bounds are the fleet's configuration. */
  datatype World = World(clock: int -> int, mono: (Instance, int) -> int, ha: HA)

  /** Monotonic clocks do not run backwards. Nothing is said of the storage clock. */
  ghost predicate Monotone(w: World) {
    forall p: Instance, t1: int, t2: int | t1 <= t2 :: w.mono(p, t1) <= w.mono(p, t2)
  }

  /** Over any stretch no longer than the quiet window the storage clock gains at most drift + jump
      on each monotonic clock. */
  ghost predicate DriftBounded(w: World) {
    forall p: Instance, t1: int, t2: int | t1 <= t2 && w.mono(p, t2) - w.mono(p, t1) < w.ha.quiet ::
      w.clock(t2) - w.clock(t1) <= w.mono(p, t2) - w.mono(p, t1) + w.ha.drift + w.ha.jump
  }

  ghost predicate Disciplined(w: World) {
    Monotone(w) && DriftBounded(w)
  }

  /** What the theorem needs of the quiet window; implied by the configured floor. */
  predicate Sufficient(ha: HA) {
    && ha.maxPause >= 0 && ha.drift + ha.jump >= 0
    && ha.quiet >= ha.Deadline() + ha.maxPause + ha.drift + ha.jump
  }

  /** The hypotheses of the timed results, and of no others: the storage clock keeps its bound and the quiet
      window is long enough. */
  ghost predicate Timed(w: World) {
    Disciplined(w) && Sufficient(w.ha)
  }

  /** Where a request thread stands between entering a gate and serving. */
  datatype Guard =
    | Outside
    | Entering
    | Inside
    | Begun(started: int)
    | Sighted(started: int)
    | Loaded(started: int, deadline: int)
    | Armed(started: int)
    | Moved(started: int, at: nat)
    | Bounded(at: nat)
    | Rechecked(at: nat)
    | Reloaded(at: nat, deadline: int)
    | Cleared(at: nat)

  datatype Thread = Thread(proc: Instance, gate: GateId, guard: Guard)

  /** A cursor advance; `held` records whether the store then named this instance and epoch. */
  datatype Entry = Entry(proc: Instance, gate: GateId, held: bool)

  datatype State = State(
    now: int,
    store: Store,
    procs: map<Instance, Proc>,
    threads: map<Tid, Thread>,
    log: seq<Entry>,
    served: set<nat>)

  /** One action of a process's authority loop, or a local fence. */
  datatype Act =
    | SendRenew
    | Confirm
    | Abandon
    | TestDeadline
    | StoreDeadline
    | BeginOpening
    | OpenGate(slot: Slot)
    | EndOpening
    | ReadAuthority
    | Apply
    | Stop
    | DetachAll
    | IncludeHeld
    | Prune(slot: Slot)
    | FenceGate(slot: Slot)
    | FenceAll

  /** One atomic access by a request thread. A locked request whose cursor ran out may advance again,
      by activating the standby, under the reading that opened its first attempt. */
  datatype Access =
    | Pass
    | Bounce
    | Leave
    | Abort
    | Begin
    | Sight
    | Load
    | Check
    | Advance
    | Rearm
    | Bound
    | Recheck
    | Reload
    | Clear
    | Serve

  datatype Step =
    | Tick(to: int)
    | Commit(txn: Txn)
    | Local(p: Instance, act: Act)
    | Enter(tid: Tid, p: Instance, slot: Slot)
    | Request(tid: Tid, access: Access)

  // ------------------------------------------------------------------
  // Store transactions.

  /** Restrictions the processes put on what they send. Everything else is arbitrary. An instance registers
      until it has applied its first snapshot, claims and hands off only after that, and retires last. */
  predicate Sendable(f: State, t: Txn) {
    match t
    case RegisterTxn(_, id) =>
      id in f.procs && (f.procs[id].initialized || f.procs[id].op != Idle ==> id in f.store.leases)
    case RenewTxn(id, revision) => id in f.procs && revision <= f.procs[id].revision
    case RetireTxn(id) => id in f.procs && f.procs[id].stopping
    case ClaimTxn(claim, _) => claim.instance in f.procs && f.procs[claim.instance].initialized
    case ApplyTxn(request) =>
      && request.instance in f.procs && f.procs[request.instance].initialized
      && forall c | c in request.commands ::
        && (c.action == WithdrawCmd ==> !c.intent.drained)
        && (c.action == AckDrainCmd ==>
              Drained(f.procs[request.instance], GateId(c.slot, c.intent.sourceEpoch)))
    case _ => true
  }

  /** The instance whose lease clock the commit moves, if any. */
  function Clocked(st: Store, t: Txn, now: int): Option<Instance> {
    match t
    case RegisterTxn(node, id) => if Register(st, node, id, now).Ok? && id !in st.leases then Some(id) else None
    case RenewTxn(id, revision) => if Renew(st, id, revision, now).Ok? then Some(id) else None
    case _ => None
  }

  function Stamp(procs: map<Instance, Proc>, id: Option<Instance>, now: int): map<Instance, Proc> {
    if id.Some? && id.value in procs then
      var p := procs[id.value];
      procs[id.value := p.(granted := now, op := if p.op.Sent? then Sent(p.op.anchor, true) else p.op)]
    else procs
  }

  // ------------------------------------------------------------------

  predicate ProcEnabled(w: World, f: State, act: Act, id: Instance)
    requires id in f.procs
  {
    var p := f.procs[id];
    match act
    case SendRenew => p.op == Idle
    case Confirm => p.op.Sent? && p.op.committed
    case Abandon => p.op.Sent? || p.op.Confirmed? || p.op.Snapshot?
    case TestDeadline =>
      p.op.Confirmed? && w.mono(id, f.now) < p.op.anchor + w.ha.Deadline() && !p.stopping && !p.fenced
    case StoreDeadline => p.op.Timely?
    case BeginOpening => p.op == Stored
    case OpenGate(s) => p.op.Opening? && s in p.op.todo && s in p.gates && GateId(s, p.gates[s]) in p.boxes
    case EndOpening => p.op == Opening({})
    case ReadAuthority => p.op == Idle && id in f.store.leases && f.store.leases[id].state == Active
    case Apply => p.op.Snapshot? && Acceptable(p, p.op.revision, p.op.view)
    case Stop => true
    case DetachAll => p.stopping && !p.op.Opening? && p.detached == map[]
    case IncludeHeld =>
      p.stopping && p.gates == map[] && id in f.store.leases && f.store.leases[id].state == Active
    case Prune(s) =>
      s in p.drains && GateId(s, p.drains[s]) in p.boxes && p.boxes[GateId(s, p.drains[s])].inflight == 0
    case FenceGate(s) => s in p.gates && GateId(s, p.gates[s]) in p.boxes
    case FenceAll => true
  }

  function ProcDo(w: World, f: State, act: Act, id: Instance): Proc
    requires id in f.procs && ProcEnabled(w, f, act, id)
  {
    var p := f.procs[id];
    match act
    case SendRenew => p.(op := Sent(w.mono(id, f.now), false))
    case Confirm => p.(op := Confirmed(p.op.anchor))
    case Abandon => p.(op := Idle)
    case TestDeadline => p.(op := Timely(p.op.anchor))
    case StoreDeadline => p.(deadline := p.op.anchor + w.ha.Deadline(), op := Stored)
    case BeginOpening => p.(op := Opening(p.pending))
    case OpenGate(s) => SetDraining(p, GateId(s, p.gates[s]), false).(op := Opening(p.op.todo - {s}))
    case EndOpening => p.(pending := {}, op := Idle)
    case ReadAuthority => p.(op := Snapshot(f.store.leases[id].revision, View(f.store.slots, id)))
    case Apply => ApplyAuthority(p, p.op.revision, p.op.view).(op := Idle, initialized := true)
    case Stop => p.(stopping := true)
    case DetachAll => Detach(p)
    case IncludeHeld => p.(phantoms := p.phantoms + Held(p, View(f.store.slots, id)))
    case Prune(s) => p.(drains := p.drains - {s})
    case FenceGate(s) => SetDraining(p, GateId(s, p.gates[s]), true)
    case FenceAll => p.(fenced := true)
  }

  // ------------------------------------------------------------------
  // Request threads. Each step is one atomic access of the shared process state.

  predicate Well(f: State, tid: Tid) {
    && tid in f.threads
    && f.threads[tid].proc in f.procs
    && f.threads[tid].gate in f.procs[f.threads[tid].proc].boxes
  }

  predicate ThreadEnabled(w: World, f: State, access: Access, tid: Tid)
    requires Well(f, tid)
  {
    var t := f.threads[tid];
    var p := f.procs[t.proc];
    var mono := w.mono(t.proc, f.now);
    var open := !p.boxes[t.gate].draining && !p.stopping && !p.fenced;
    match access
    case Pass => t.guard == Entering && !p.boxes[t.gate].draining
    case Bounce => t.guard == Entering && p.boxes[t.gate].draining && p.boxes[t.gate].inflight > 0
    case Leave => t.guard == Inside && p.boxes[t.gate].inflight > 0
    case Abort => t.guard != Outside && t.guard != Entering
    case Begin => t.guard == Inside
    case Sight => t.guard.Begun? && open
    case Load => t.guard.Sighted? && p.deadline > 0
    case Check => t.guard.Loaded? && mono < t.guard.deadline
    case Advance => t.guard.Armed?
    case Rearm => t.guard.Moved?
    case Bound => t.guard.Moved? && mono - t.guard.started <= w.ha.maxPause
    case Recheck => t.guard.Bounded? && open
    case Reload => t.guard.Rechecked? && p.deadline > 0
    case Clear => t.guard.Reloaded? && mono < t.guard.deadline
    case Serve => t.guard.Cleared?
  }

  /** The store names `p` at the gate's epoch: OWNED, or DRAINING with the epoch not yet ended. */
  predicate Names(slots: map<Slot, Row>, p: Instance, g: GateId) {
    g.slot in slots && slots[g.slot].owner == Some(p) && slots[g.slot].epoch == g.epoch
  }

  function GuardAfter(w: World, f: State, access: Access, tid: Tid): Guard
    requires Well(f, tid) && ThreadEnabled(w, f, access, tid)
  {
    var t := f.threads[tid];
    var p := f.procs[t.proc];
    var mono := w.mono(t.proc, f.now);
    match access
    case Pass => Inside
    case Bounce => Outside
    case Leave => Outside
    case Abort => Inside
    case Begin => Begun(mono)
    case Sight => Sighted(t.guard.started)
    case Load => Loaded(t.guard.started, p.deadline)
    case Check => Armed(t.guard.started)
    case Advance => Moved(t.guard.started, |f.log|)
    case Rearm => Armed(t.guard.started)
    case Bound => Bounded(t.guard.at)
    case Recheck => Rechecked(t.guard.at)
    case Reload => Reloaded(t.guard.at, p.deadline)
    case Clear => Cleared(t.guard.at)
    case Serve => Inside
  }

  function ThreadDo(w: World, f: State, access: Access, tid: Tid): State
    requires Well(f, tid) && ThreadEnabled(w, f, access, tid)
  {
    var t := f.threads[tid];
    var p := f.procs[t.proc];
    var f1 := f.(threads := f.threads[tid := t.(guard := GuardAfter(w, f, access, tid))]);
    match access
    case Bounce => f1.(procs := f.procs[t.proc := SetInflight(p, t.gate, p.boxes[t.gate].inflight - 1)])
    case Leave => f1.(procs := f.procs[t.proc := SetInflight(p, t.gate, p.boxes[t.gate].inflight - 1)])
    case Advance => f1.(log := f.log + [Entry(t.proc, t.gate, Names(f.store.slots, t.proc, t.gate))])
    case Serve => f1.(served := f.served + {t.guard.at})
    case _ => f1
  }

  // ------------------------------------------------------------------

  predicate Enabled(w: World, f: State, step: Step) {
    match step
    case Tick(to) => to >= f.now
    case Commit(t) => WellFormed(t, w.ha.quiet) && Sendable(f, t)
    case Local(p, act) => p in f.procs && ProcEnabled(w, f, act, p)
    case Enter(tid, p, s) =>
      && (tid !in f.threads || f.threads[tid].guard == Outside)
      && p in f.procs && s in f.procs[p].gates && GateId(s, f.procs[p].gates[s]) in f.procs[p].boxes
    case Request(tid, access) => Well(f, tid) && ThreadEnabled(w, f, access, tid)
  }

  function Committed(w: World, f: State, t: Txn): State {
    f.(store := After(f.store, t, w.clock(f.now)),
       procs := Stamp(f.procs, Clocked(f.store, t, w.clock(f.now)), f.now))
  }

  function Entered(f: State, tid: Tid, p: Instance, g: GateId): State
    requires p in f.procs && g in f.procs[p].boxes
  {
    f.(threads := f.threads[tid := Thread(p, g, Entering)],
       procs := f.procs[p := SetInflight(f.procs[p], g, f.procs[p].boxes[g].inflight + 1)])
  }

  function Do(w: World, f: State, step: Step): State
    requires Enabled(w, f, step)
  {
    match step
    case Tick(to) => f.(now := to)
    case Commit(t) => Committed(w, f, t)
    case Local(p, act) => f.(procs := f.procs[p := ProcDo(w, f, act, p)])
    case Enter(tid, p, s) => Entered(f, tid, p, GateId(s, f.procs[p].gates[s]))
    case Request(tid, access) => ThreadDo(w, f, access, tid)
  }
}
