/** A release that does not wait for its boundary.

One process serves an ID, withdraws its slot, and acknowledges once its gate is closed and empty;
another then claims the slot and serves from it, all in one instant, long before the boundary that
an unacknowledged drain would have to wait for.
*/
module HandoverRun {
  import opened Tables
  import opened Transactions
  import opened Automaton
  import opened Local
  import opened Fleet
  import opened FleetRuns
  import opened CommandEffects
  import opened Threshold

  const NEXT: GateId := GateId(0, 2)

  // ------------------------------------------------------------------
  // Steps of the one request thread, for whichever process it serves.

  function Ride(p: Instance, g: GateId, guard: Guard): map<Tid, Thread> {
    map[0 := Thread(p, g, guard)]
  }

  lemma Rides(w: World, f: State, p: Instance, g: GateId, guard: Guard, access: Access, guard': Guard)
    requires Reached(w, f) && f.threads == Ride(p, g, guard) && Well(f, 0)
    requires ThreadEnabled(w, f, access, 0) && GuardAfter(w, f, access, 0) == guard'
    requires !access.Bounce? && !access.Leave? && !access.Advance? && !access.Serve?
    ensures Reached(w, f.(threads := Ride(p, g, guard')))
  {
    hide ThreadEnabled, GuardAfter, Reached;
    assert f.threads[0 := Thread(p, g, guard')] == Ride(p, g, guard');
    Go(w, f, Step.Request(0, access), f.(threads := Ride(p, g, guard')));
  }

  lemma RideAdvances(w: World, f: State, p: Instance, g: GateId, started: int)
    requires Reached(w, f) && f.threads == Ride(p, g, Armed(started)) && Well(f, 0) && Names(f.store.slots, p, g)
    ensures Reached(w, f.(threads := Ride(p, g, Moved(started, |f.log|)), log := f.log + [Entry(p, g, true)]))
  {
    hide Reached, Names;
    var f' := f.(threads := Ride(p, g, Moved(started, |f.log|)), log := f.log + [Entry(p, g, true)]);
    assert f.threads[0 := Thread(p, g, Moved(started, |f.log|))] == f'.threads;
    Go(w, f, Step.Request(0, Advance), f');
  }

  lemma RideServes(w: World, f: State, p: Instance, g: GateId, at: nat)
    requires Reached(w, f) && f.threads == Ride(p, g, Cleared(at)) && Well(f, 0)
    ensures Reached(w, f.(threads := Ride(p, g, Inside), served := f.served + {at}))
  {
    hide Reached;
    var f' := f.(threads := Ride(p, g, Inside), served := f.served + {at});
    assert f.threads[0 := Thread(p, g, Inside)] == f'.threads;
    Go(w, f, Step.Request(0, Serve), f');
  }

  /** The gate is open, the deadline ahead. */
  predicate Admitting(w: World, f: State, p: Instance, g: GateId) {
    && p in f.procs && g in f.procs[p].boxes && !f.procs[p].boxes[g].draining
    && !f.procs[p].stopping && !f.procs[p].fenced
    && f.procs[p].deadline > 0 && w.mono(p, f.now) < f.procs[p].deadline
  }

  lemma RideArms(w: World, f: State, p: Instance, g: GateId)
    requires Reached(w, f) && f.threads == Ride(p, g, Inside) && Admitting(w, f, p, g)
    ensures Reached(w, f.(threads := Ride(p, g, Armed(w.mono(p, f.now)))))
  {
    hide Reached;
    var m, d := w.mono(p, f.now), f.procs[p].deadline;
    Rides(w, f, p, g, Inside, Begin, Begun(m));
    Rides(w, f.(threads := Ride(p, g, Begun(m))), p, g, Begun(m), Sight, Sighted(m));
    Rides(w, f.(threads := Ride(p, g, Sighted(m))), p, g, Sighted(m), Load, Loaded(m, d));
    Rides(w, f.(threads := Ride(p, g, Loaded(m, d))), p, g, Loaded(m, d), Check, Armed(m));
  }

  lemma RideClears(w: World, f: State, p: Instance, g: GateId, at: nat)
    requires Reached(w, f) && f.threads == Ride(p, g, Moved(w.mono(p, f.now), at)) && Admitting(w, f, p, g)
    requires w.ha.maxPause >= 0
    ensures Reached(w, f.(threads := Ride(p, g, Cleared(at))))
  {
    hide Reached;
    var m, d := w.mono(p, f.now), f.procs[p].deadline;
    Rides(w, f, p, g, Moved(m, at), Bound, Bounded(at));
    Rides(w, f.(threads := Ride(p, g, Bounded(at))), p, g, Bounded(at), Recheck, Rechecked(at));
    Rides(w, f.(threads := Ride(p, g, Rechecked(at))), p, g, Rechecked(at), Reload, Reloaded(at, d));
    Rides(w, f.(threads := Ride(p, g, Reloaded(at, d))), p, g, Reloaded(at, d), Clear, Cleared(at));
  }

  /** An admitted request serves one ID. */
  lemma Serving(w: World, f: State, p: Instance, g: GateId)
    requires Reached(w, f) && f.threads == Ride(p, g, Inside) && Admitting(w, f, p, g)
    requires w.ha.maxPause >= 0 && Names(f.store.slots, p, g)
    ensures Reached(w, f.(log := f.log + [Entry(p, g, true)], served := f.served + {|f.log|}))
  {
    hide Reached, Names;
    var m := w.mono(p, f.now);
    RideArms(w, f, p, g);
    RideAdvances(w, f.(threads := Ride(p, g, Armed(m))), p, g, m);
    var f1 := f.(threads := Ride(p, g, Moved(m, |f.log|)), log := f.log + [Entry(p, g, true)]);
    RideClears(w, f1, p, g, |f.log|);
    RideServes(w, f1.(threads := Ride(p, g, Cleared(|f.log|))), p, g, |f.log|);
  }

  // ------------------------------------------------------------------
  // The tables.

  const ROOM: Limits := Limits(1, 1, 1, 1, 1)

  /** The release, when it begins to drain, and once acknowledged. */
  function Release(ha: HA, drained: bool): Handoff {
    Handoff("h", Kind.Release, OLD, 1, None, Drain, drained, false, Some(1 + ha.quiet))
  }

  function Wish(): Handoff {
    Handoff("h", Kind.Release, OLD, 1, None, Planned, false, false, None)
  }

  function Draining(ha: HA, drained: bool, leases: map<Instance, Lease>): Store {
    Store(leases, map[0 := Row(Some(OLD), 1, SlotState.Draining)], map[0 := Release(ha, drained)], map[],
          Tenure(None, 0, None))
  }

  function Alone(): map<Instance, Lease> {
    map[OLD := LeaseAt(2, 1)]
  }

  function Both(): map<Instance, Lease> {
    map[OLD := LeaseAt(2, 1), NEW := LeaseAt(0, 1)]
  }

  function Ask(ha: HA, revision: nat, action: Action): Txn {
    ApplyTxn(Transactions.Request(OLD, revision, [Command(0, Wish(), action)], ha, ROOM))
  }

  lemma AppliedIs(st: Store, req: Transactions.Request, now: int, st': Store)
    requires ApplyHandoffs(st, req, now) == Ok(st')
    ensures After(st, ApplyTxn(req), now) == st'
  {
    hide ApplyHandoffs;
  }

  lemma HeldIsCoupled()
    ensures Coupled(HeldByOld())
  {
  }

  lemma DrainingIsCoupled(ha: HA, drained: bool, leases: map<Instance, Lease>)
    requires OLD in leases
    ensures Coupled(Draining(ha, drained, leases))
  {
  }

  lemma EmptyRoom(st: Store, st': Store, req: Transactions.Request, h: Handoff)
    requires st.handoffs == map[] && req.limits == ROOM
    ensures Room(st, st', req, 0, h)
  {
    assert Flying(st.handoffs) == {} && FlyingFrom(st.handoffs, h.source) == {};
    assert FlyingTo(st.handoffs, h.target) == {};
    assert Beginnings(st, st', req.commands, 0) == {};
    assert BeginningsFrom(st, st', req.commands, 0, h.source) == {};
    assert BeginningsTo(st, st', req.commands, 0, h.target) == {};
  }

  /** The tables after a batch of one command on the only slot. */
  lemma OneCommand(st: Store, req: Transactions.Request, now: int, st': Store, h: Handoff, r: Row)
    requires ApplyHandoffs(st, req, now) == Ok(st') && |req.commands| == 1 && req.commands[0].slot == 0
    requires st.slots.Keys == {0} && st.handoffs.Keys <= {0} && Becomes(st', 0, h, r)
    ensures st'.slots == map[0 := r] && st'.handoffs == map[0 := h]
  {
    forall s: Slot | s != 0 ensures s !in st'.slots && s !in st'.handoffs {
      NamedOnly(st, req, now, st', s);
    }
  }

  lemma WithdrawalDrains(ha: HA, st': Store)
    requires Configured(ha) && ApplyHandoffs(HeldByOld(), Ask(ha, 1, WithdrawCmd).request, 1) == Ok(st')
    ensures Becomes(st', 0, Release(ha, false), Row(Some(OLD), 1, SlotState.Draining))
  {
    hide Coupled, ApplyHandoffs, Room, Becomes, Unmoved;
    var st, req := HeldByOld(), Ask(ha, 1, WithdrawCmd).request;
    var c := req.commands[0];
    HeldIsCoupled();
    EmptyRoom(st, st', req, c.intent.(kind := Kind.Release, target := None));
    WithdrawEffect(st, req, 1, st', 0);
    assert Withdrawable(st, req, c);
    assert DrainBoundary(st, req, OLD, 1) == 1 + ha.quiet;
  }

  lemma OneIsExecutable(st: Store, c: Command)
    requires c.action != UnknownCmd
    ensures Executable(st, [c])
  {
  }

  /** The withdrawal starts the drain, with its boundary a quiet window away. */
  lemma Withdraws(ha: HA)
    requires Configured(ha)
    ensures After(HeldByOld(), Ask(ha, 1, WithdrawCmd), 1) == Draining(ha, false, Alone())
  {
    hide Coupled, ApplyHandoffs, Release, Wish, Concerned, After, Becomes, Executable;
    var st, req := HeldByOld(), Ask(ha, 1, WithdrawCmd).request;
    HeldIsCoupled();
    OneIsExecutable(st, req.commands[0]);
    AcceptedExactly(st, req, 1);
    var st' := ApplyHandoffs(st, req, 1).value;
    WithdrawalDrains(ha, st');
    OneCommand(st, req, 1, st', Release(ha, false), Row(Some(OLD), 1, SlotState.Draining));
    RevisionsFollowRows(st, req, 1, st');
    ConcernedBy(st, st', OLD, 0);
    assert st'.leases == Alone();
    AppliedIs(st, req, 1, st');
  }

  lemma AcknowledgementIsKept(ha: HA, st': Store)
    requires ApplyHandoffs(Draining(ha, false, Alone()), Ask(ha, 2, AckDrainCmd).request, 1) == Ok(st')
    ensures Becomes(st', 0, Release(ha, true), Row(Some(OLD), 1, SlotState.Draining))
  {
    hide Coupled, ApplyHandoffs, Becomes, Unmoved;
    var st, req := Draining(ha, false, Alone()), Ask(ha, 2, AckDrainCmd).request;
    DrainingIsCoupled(ha, false, Alone());
    AckDrainEffect(st, req, 1, st', 0);
  }

  /** The acknowledgement goes on record, and moves no revision. */
  lemma Acknowledges(ha: HA)
    requires Configured(ha)
    ensures After(Draining(ha, false, Alone()), Ask(ha, 2, AckDrainCmd), 1) == Draining(ha, true, Alone())
  {
    hide Coupled, ApplyHandoffs, Release, Wish, After, Becomes, Executable;
    var st, req := Draining(ha, false, Alone()), Ask(ha, 2, AckDrainCmd).request;
    DrainingIsCoupled(ha, false, Alone());
    OneIsExecutable(st, req.commands[0]);
    AcceptedExactly(st, req, 1);
    var st' := ApplyHandoffs(st, req, 1).value;
    AcknowledgementIsKept(ha, st');
    OneCommand(st, req, 1, st', Release(ha, true), Row(Some(OLD), 1, SlotState.Draining));
    RevisionsFollowRows(st, req, 1, st');
    assert !Concerned(st, st', OLD);
    assert st'.leases == Alone();
    AppliedIs(st, req, 1, st');
  }

  /** The newcomer registers. */
  lemma NewcomerJoins(ha: HA)
    ensures After(Draining(ha, true, Alone()), RegisterTxn("n", NEW), 1) == Draining(ha, true, Both())
  {
    hide Release;
    assert Alone()[NEW := LeaseAt(0, 1)] == Both();
  }

  /** Storage once the newcomer has claimed the slot. */
  function Handed(ha: HA): Store {
    Store(map[OLD := LeaseAt(3, 1), NEW := LeaseAt(1, 1)], map[0 := Row(Some(NEW), 2, Owned)],
          map[0 := Release(ha, true).(phase := Cancelled)], map[], Tenure(None, 0, None))
  }

  /** An acknowledged release may be claimed at once. */
  lemma NewcomerClaims(ha: HA)
    requires Configured(ha)
    ensures After(Draining(ha, true, Both()), ClaimOf(ha, NEW), 1) == Handed(ha)
  {
    var st := Draining(ha, true, Both());
    ClaimGrants(st, ClaimOf(ha, NEW), NEW, ha, 1);
    hide After, ClaimOf;
    assert Owners(st, {0}) == {OLD};
    assert Grant(st, NEW, {0}).leases == Handed(ha).leases;
    assert Grant(st, NEW, {0}).slots == Handed(ha).slots;
    assert Cancel(st.handoffs, {0}) == Handed(ha).handoffs;
  }

  // ------------------------------------------------------------------
  // The run, in acts. All of it happens at time 1.

  function Pair(owner: Proc, newcomer: Proc): map<Instance, Proc> {
    map[OLD := owner, NEW := newcomer]
  }

  const FIRST_SERVED: seq<Entry> := [Entry(OLD, GATE, true)]

  function Stage(st: Store, owner: Proc, newcomer: Proc, threads: map<Tid, Thread>): State {
    State(1, st, Pair(owner, newcomer), threads, FIRST_SERVED, {0})
  }

  lemma AtOne(ha: HA)
    requires Configured(ha)
    ensures var w := Slipping(ha);
      w.ha == ha && w.clock(1) == 1 && w.mono(OLD, 1) == 1 && w.mono(NEW, 1) == 1
  {
  }

  /** The owner serves an ID. */
  lemma ActServeOld(ha: HA)
    requires Configured(ha)
    ensures Reached(Slipping(ha), Stage(HeldByOld(), Busy(ha), Idler(), Ride(OLD, GATE, Inside)))
  {
    var w, f := Slipping(ha), Scene(1, HeldByOld(), Busy(ha), Idler(), Rider(Inside));
    ActEnter(ha);
    AtOne(ha);
    hide Reached, Slipping;
    Serving(w, f, OLD, GATE);
    assert f.(log := f.log + [Entry(OLD, GATE, true)], served := f.served + {|f.log|})
      == Stage(HeldByOld(), Busy(ha), Idler(), Ride(OLD, GATE, Inside));
  }

  /** A commit that stamps no lease clock touches no process. */
  lemma Commits(w: World, f: State, t: Txn, st': Store)
    requires Reached(w, f) && t.ApplyTxn? && WellFormed(t, w.ha.quiet) && Sendable(f, t)
    requires After(f.store, t, w.clock(f.now)) == st'
    ensures Reached(w, f.(store := st'))
  {
    hide After, Reached, Sendable, WellFormed;
    Go(w, f, Commit(t), f.(store := st'));
  }

  /** It withdraws the slot: the drain begins while its gate is still open. */
  lemma ActWithdraw(ha: HA)
    requires Configured(ha)
    ensures Reached(Slipping(ha), Stage(Draining(ha, false, Alone()), Busy(ha), Idler(), Ride(OLD, GATE, Inside)))
  {
    var w := Slipping(ha);
    var f := Stage(HeldByOld(), Busy(ha), Idler(), Ride(OLD, GATE, Inside));
    ActServeOld(ha);
    AtOne(ha);
    Withdraws(ha);
    assert Sendable(f, Ask(ha, 1, WithdrawCmd)) && WellFormed(Ask(ha, 1, WithdrawCmd), ha.quiet);
    hide Reached, Slipping, After, Sendable, WellFormed;
    Commits(w, f, Ask(ha, 1, WithdrawCmd), Draining(ha, false, Alone()));
  }

  const LEAVING: map<Slot, Row> := map[0 := Row(Some(OLD), 1, SlotState.Draining)]

  lemma LeavingApply(ha: HA)
    ensures View(Draining(ha, false, Alone()).slots, OLD) == LEAVING
    ensures Acceptable(Busy(ha).(op := Snapshot(2, LEAVING)), 2, LEAVING)
    ensures ApplyAuthority(Busy(ha).(op := Snapshot(2, LEAVING)), 2, LEAVING).(op := Idle, initialized := true)
            == Loser(1 + ha.Deadline(), Idle, 1)
  {
    var p := Busy(ha).(op := Snapshot(2, LEAVING));
    assert Kept(p, LEAVING) == {} && Lost(p, LEAVING) == {0} && Gained(p, LEAVING) == {};
    assert Ids(p.gates, {0}) == {GATE};
  }

  /** The gate closes with a request still inside. */
  lemma ActClose(ha: HA)
    requires Configured(ha)
    ensures Reached(Slipping(ha), Stage(Draining(ha, false, Alone()), Loser(1 + ha.Deadline(), Idle, 1), Idler(),
                                        Ride(OLD, GATE, Inside)))
  {
    var w, n, q := Slipping(ha), Idler(), Loser(1 + ha.Deadline(), Idle, 1);
    var p := Busy(ha).(op := Snapshot(2, LEAVING));
    var f := Stage(Draining(ha, false, Alone()), Busy(ha), n, Ride(OLD, GATE, Inside));
    ActWithdraw(ha);
    LeavingApply(ha);
    hide Reached, Slipping, View, ApplyAuthority, Acceptable;
    OwnerReads(w, f, Busy(ha), n, 2, LEAVING);
    OwnerApplies(w, f.(procs := Pair(p, n)), p, n, q);
  }

  /** The old owner once its closed gate is empty. */
  function Emptied(ha: HA): Proc {
    Loser(1 + ha.Deadline(), Idle, 1).(boxes := map[GATE := Gate(true, 0)])
  }

  lemma RideLeaves(w: World, f: State, p: Proc, n: Proc, p': Proc)
    requires Reached(w, f) && f.threads == Ride(OLD, GATE, Inside) && f.procs == Pair(p, n) && GATE in p.boxes
    requires p.boxes[GATE].inflight > 0 && p' == SetInflight(p, GATE, p.boxes[GATE].inflight - 1)
    ensures Reached(w, f.(threads := Ride(OLD, GATE, Outside), procs := Pair(p', n)))
  {
    hide Reached;
    var f' := f.(threads := Ride(OLD, GATE, Outside), procs := Pair(p', n));
    assert f.threads[0 := Thread(OLD, GATE, Outside)] == f'.threads;
    assert f.procs[OLD := p'] == f'.procs;
    Go(w, f, Step.Request(0, Access.Leave), f');
  }

  /** The request leaves, and the acknowledgement goes on record. */
  lemma ActAcknowledge(ha: HA)
    requires Configured(ha)
    ensures Reached(Slipping(ha), Stage(Draining(ha, true, Alone()), Emptied(ha), Idler(), Ride(OLD, GATE, Outside)))
  {
    var w, n, p, q := Slipping(ha), Idler(), Loser(1 + ha.Deadline(), Idle, 1), Emptied(ha);
    var f := Stage(Draining(ha, false, Alone()), p, n, Ride(OLD, GATE, Inside));
    var f' := Stage(Draining(ha, false, Alone()), q, n, Ride(OLD, GATE, Outside));
    ActClose(ha);
    AtOne(ha);
    Acknowledges(ha);
    assert q.boxes == p.boxes[GATE := Gate(true, 0)];
    assert Drained(q, GATE);
    assert Sendable(f', Ask(ha, 2, AckDrainCmd)) && WellFormed(Ask(ha, 2, AckDrainCmd), ha.quiet);
    hide Reached, Slipping, After, Sendable, WellFormed;
    RideLeaves(w, f, p, n, q);
    Commits(w, f', Ask(ha, 2, AckDrainCmd), Draining(ha, true, Alone()));
  }

  // ------------------------------------------------------------------
  // The newcomer.

  /** The newcomer once its gate is installed. */
  function Taker(deadline: int, pending: set<Slot>, gate: Gate, op: Op): Proc {
    Proc(true, false, false, 1, deadline, map[0 := 2], map[], pending, map[], {}, map[NEXT := gate], op, 1)
  }

  lemma Registering(w: World, f: State, p: Proc, st': Store)
    requires Reached(w, f) && f.procs == Pair(p, Idler()) && f.now == 1 && w.clock(1) == 1 && NEW !in f.store.leases
    requires After(f.store, RegisterTxn("n", NEW), 1) == st'
    ensures Reached(w, f.(store := st', procs := Pair(p, Idler().(granted := 1))))
  {
    hide Reached, After;
    assert f.procs[NEW := Idler().(granted := 1)] == Pair(p, Idler().(granted := 1));
    Go(w, f, Commit(RegisterTxn("n", NEW)), f.(store := st', procs := Pair(p, Idler().(granted := 1))));
  }

  /** It registers and applies its first snapshot, which is empty. */
  lemma ActJoinNew(ha: HA)
    requires Configured(ha)
    ensures Reached(Slipping(ha), Stage(Draining(ha, true, Both()), Emptied(ha), Threshold.Ready(1),
                                        Ride(OLD, GATE, Outside)))
  {
    var w, p, n := Slipping(ha), Emptied(ha), Idler().(granted := 1);
    var f := Stage(Draining(ha, true, Alone()), p, Idler(), Ride(OLD, GATE, Outside));
    var f1 := Stage(Draining(ha, true, Both()), p, n, Ride(OLD, GATE, Outside));
    ActAcknowledge(ha);
    AtOne(ha);
    NewcomerJoins(ha);
    assert f1.procs[NEW := Threshold.Ready(1)] == Pair(p, Threshold.Ready(1));
    assert forall s :: s !in View(f1.store.slots, NEW);
    hide Reached, Slipping, After, View, Emptied, Release, Threshold.Ready;
    Registering(w, f, p, Draining(ha, true, Both()));
    Initializes(w, f1, NEW, 1);
  }

  /** It claims the acknowledged release. */
  lemma ActClaimNew(ha: HA)
    requires Configured(ha)
    ensures Reached(Slipping(ha), Stage(Handed(ha), Emptied(ha), Threshold.Ready(1), Ride(OLD, GATE, Outside)))
  {
    ActJoinNew(ha);
    AtOne(ha);
    NewcomerClaims(ha);
    hide Reached, Slipping, After, Emptied, Release;
    SlotClaimed(Slipping(ha), Stage(Draining(ha, true, Both()), Emptied(ha), Threshold.Ready(1),
                                    Ride(OLD, GATE, Outside)), ClaimOf(ha, NEW), Handed(ha));
  }

  lemma NewcomerActs(w: World, f: State, p: Proc, n: Proc, act: Act, n': Proc)
    requires Reached(w, f) && f.procs == Pair(p, n)
    requires ProcEnabled(w, f, act, NEW) && ProcDo(w, f, act, NEW) == n'
    ensures Reached(w, f.(procs := Pair(p, n')))
  {
    hide ProcEnabled, ProcDo, Reached;
    assert f.procs[NEW := n'] == Pair(p, n');
    Acts(w, f, NEW, act, n');
  }

  const GRANTED: map<Slot, Row> := map[0 := Row(Some(NEW), 2, Owned)]

  lemma GrantedApply(ha: HA)
    ensures View(Handed(ha).slots, NEW) == GRANTED
    ensures var n := Threshold.Ready(1).(op := Snapshot(1, GRANTED));
      && Acceptable(n, 1, GRANTED)
      && ApplyAuthority(n, 1, GRANTED).(op := Idle, initialized := true) == Taker(0, {0}, Gate(true, 0), Idle)
  {
    var n := Threshold.Ready(1).(op := Snapshot(1, GRANTED));
    assert Kept(n, GRANTED) == {} && Lost(n, GRANTED) == {} && Gained(n, GRANTED) == {0};
    assert Epochs(GRANTED, {0}) == map[0 := 2];
    assert Ids(map[0 := 2], {0}) == {NEXT};
  }

  lemma NewcomerReads(w: World, f: State, p: Proc, n: Proc)
    requires Reached(w, f) && f.procs == Pair(p, n) && n.op == Idle && View(f.store.slots, NEW) == GRANTED
    requires NEW in f.store.leases && f.store.leases[NEW] == LeaseAt(1, 1)
    ensures Reached(w, f.(procs := Pair(p, n.(op := Snapshot(1, GRANTED)))))
  {
    hide Reached, View;
    NewcomerActs(w, f, p, n, ReadAuthority, n.(op := Snapshot(1, GRANTED)));
  }

  lemma NewcomerApplies(w: World, f: State, p: Proc, n: Proc, n': Proc)
    requires Reached(w, f) && f.procs == Pair(p, n) && n.op == Snapshot(1, GRANTED) && Acceptable(n, 1, GRANTED)
    requires ApplyAuthority(n, 1, GRANTED).(op := Idle, initialized := true) == n'
    ensures Reached(w, f.(procs := Pair(p, n')))
  {
    hide Reached, ApplyAuthority, Acceptable;
    NewcomerActs(w, f, p, n, Apply, n');
  }

  /** It applies what it now holds: a gate, still closed. */
  lemma ActInstall(ha: HA)
    requires Configured(ha)
    ensures Reached(Slipping(ha), Stage(Handed(ha), Emptied(ha), Taker(0, {0}, Gate(true, 0), Idle),
                                        Ride(OLD, GATE, Outside)))
  {
    var w, p, n := Slipping(ha), Emptied(ha), Threshold.Ready(1).(op := Snapshot(1, GRANTED));
    var f := Stage(Handed(ha), p, Threshold.Ready(1), Ride(OLD, GATE, Outside));
    ActClaimNew(ha);
    GrantedApply(ha);
    hide Reached, Slipping, View, ApplyAuthority, Acceptable, Emptied, Release;
    NewcomerReads(w, f, p, Threshold.Ready(1));
    NewcomerApplies(w, f.(procs := Pair(p, n)), p, n, Taker(0, {0}, Gate(true, 0), Idle));
  }

  lemma NewcomerCommits(w: World, f: State, p: Proc, n: Proc, n': Proc)
    requires Reached(w, f) && f.procs == Pair(p, n) && n.op.Sent? && f.now == 1 && w.clock(1) == 1
    requires NEW in f.store.leases && f.store.leases[NEW] == LeaseAt(n.revision, 1) && n.granted == 1
    requires n' == n.(op := Sent(n.op.anchor, true))
    ensures Reached(w, f.(procs := Pair(p, n')))
  {
    hide Reached;
    assert f.procs[NEW := n'] == Pair(p, n');
    assert f.store.leases[NEW := LeaseAt(n.revision, 1)] == f.store.leases;
    Go(w, f, Commit(RenewTxn(NEW, n.revision)), f.(procs := Pair(p, n')));
  }

  /** Its first renewal commits in time and moves its deadline. */
  lemma ActRenewNew(ha: HA)
    requires Configured(ha)
    ensures Reached(Slipping(ha), Stage(Handed(ha), Emptied(ha), Taker(1 + ha.Deadline(), {0}, Gate(true, 0), Stored),
                                        Ride(OLD, GATE, Outside)))
  {
    var w, p, d := Slipping(ha), Emptied(ha), 1 + ha.Deadline();
    var n := Taker(0, {0}, Gate(true, 0), Idle);
    var f := Stage(Handed(ha), p, n, Ride(OLD, GATE, Outside));
    ActInstall(ha);
    AtOne(ha);
    hide Reached, Slipping, Emptied;
    var sent, committed, confirmed, timely := n.(op := Sent(1, false)), n.(op := Sent(1, true)),
      n.(op := Confirmed(1)), n.(op := Timely(1));
    NewcomerActs(w, f, p, n, SendRenew, sent);
    NewcomerCommits(w, f.(procs := Pair(p, sent)), p, sent, committed);
    NewcomerActs(w, f.(procs := Pair(p, committed)), p, committed, Confirm, confirmed);
    NewcomerActs(w, f.(procs := Pair(p, confirmed)), p, confirmed, TestDeadline, timely);
    NewcomerActs(w, f.(procs := Pair(p, timely)), p, timely, StoreDeadline, Taker(d, {0}, Gate(true, 0), Stored));
  }

  /** The renewal opens the gate. */
  lemma ActOpenNew(ha: HA)
    requires Configured(ha)
    ensures Reached(Slipping(ha), Stage(Handed(ha), Emptied(ha), Taker(1 + ha.Deadline(), {}, Gate(false, 0), Idle),
                                        Ride(OLD, GATE, Outside)))
  {
    hide Reached, Slipping, Emptied, Handed;
    var w, p, d := Slipping(ha), Emptied(ha), 1 + ha.Deadline();
    var stored, opening := Taker(d, {0}, Gate(true, 0), Stored), Taker(d, {0}, Gate(true, 0), Op.Opening({0}));
    var half := Taker(d, {0}, Gate(false, 0), Op.Opening({}));
    var f := Stage(Handed(ha), p, stored, Ride(OLD, GATE, Outside));
    ActRenewNew(ha);
    assert opening.op.todo - {0} == half.op.todo;
    assert map[NEXT := Gate(true, 0)][NEXT := Gate(false, 0)] == map[NEXT := Gate(false, 0)];
    NewcomerActs(w, f, p, stored, BeginOpening, opening);
    NewcomerActs(w, f.(procs := Pair(p, opening)), p, opening, OpenGate(0), half);
    NewcomerActs(w, f.(procs := Pair(p, half)), p, half, EndOpening, Taker(d, {}, Gate(false, 0), Idle));
  }

  /** A request enters the newcomer's gate. */
  lemma ActEnterNew(ha: HA)
    requires Configured(ha)
    ensures Reached(Slipping(ha), Stage(Handed(ha), Emptied(ha), Taker(1 + ha.Deadline(), {}, Gate(false, 1), Idle),
                                        Ride(NEW, NEXT, Inside)))
  {
    hide Reached, Slipping, Emptied, Handed;
    var w, p, d := Slipping(ha), Emptied(ha), 1 + ha.Deadline();
    var n, n' := Taker(d, {}, Gate(false, 0), Idle), Taker(d, {}, Gate(false, 1), Idle);
    var f, f' := Stage(Handed(ha), p, n, Ride(OLD, GATE, Outside)), Stage(Handed(ha), p, n', Ride(NEW, NEXT, Entering));
    ActOpenNew(ha);
    assert f.procs[NEW := n'] == f'.procs && f.threads[0 := Thread(NEW, NEXT, Entering)] == f'.threads;
    assert map[NEXT := Gate(false, 0)][NEXT := Gate(false, 1)] == map[NEXT := Gate(false, 1)];
    Go(w, f, Enter(0, NEW, 0), f');
    Rides(w, f', NEW, NEXT, Entering, Pass, Inside);
  }

  /** An acknowledged release needs no waiting: whatever the quiet window, there is a run in which one process serves
      an ID, releases its slot and acknowledges, and another has claimed the slot and served the next ID before the
      boundary on record, the store standing behind both. */
  lemma AcknowledgedReleaseIsPrompt(ha: HA) returns (w: World, f: State)
    requires Configured(ha)
    ensures w.ha == ha && Disciplined(w) && Reached(w, f)
    ensures f.log == [Entry(OLD, GATE, true), Entry(NEW, NEXT, true)] && f.served == {0, 1}
    ensures 0 in f.store.handoffs && f.store.handoffs[0].drained
    ensures f.store.handoffs[0].notBefore == Some(w.clock(f.now) + ha.quiet)
  {
    w := Slipping(ha);
    SlippingIsDisciplined(ha);
    ActEnterNew(ha);
    AtOne(ha);
    var f0 := Stage(Handed(ha), Emptied(ha), Taker(1 + ha.Deadline(), {}, Gate(false, 1), Idle),
                    Ride(NEW, NEXT, Inside));
    hide Reached, Slipping;
    Serving(w, f0, NEW, NEXT);
    f := f0.(log := f0.log + [Entry(NEW, NEXT, true)], served := f0.served + {|f0.log|});
  }
}
