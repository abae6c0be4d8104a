/** The quiet window's exact threshold.

FleetRuns proves every run safe when the quiet window reaches the local deadline,
the longest pause and the storage clock's drift and jump together. Here is a run
that serves an ID its instance no longer holds whenever the window is any shorter:
a request arms its guard in the last instant of the deadline, pauses for as long as
it may, and reads `draining` just before the takeover reaches its process; the
renewal that follows then extends the deadline its last check reads.
*/
module Threshold {
  import opened Tables
  import opened Transactions
  import opened Automaton
  import opened Local
  import opened Fleet
  import opened FleetInvariant
  import opened FleetRuns

  // ------------------------------------------------------------------
  // Reachable states.

  ghost predicate Reached(w: World, f: State) {
    exists states, steps :: IsRun(w, states, steps) && states[|steps|] == f
  }

  lemma Start(w: World, f: State)
    requires Initial(f)
    ensures Reached(w, f)
  {
    assert IsRun(w, [f], []);
  }

  lemma Go(w: World, f: State, step: Step, f': State)
    requires Reached(w, f)
    requires Enabled(w, f, step) && Do(w, f, step) == f'
    ensures Reached(w, f')
  {
    hide Initial, Do, Enabled;
    var states, steps :| IsRun(w, states, steps) && states[|steps|] == f;
    RunLonger(w, states, steps, step);
    assert IsRun(w, states + [Do(w, f, step)], steps + [step]);
  }

  lemma RunLonger(w: World, states: seq<State>, steps: seq<Step>, step: Step)
    requires IsRun(w, states, steps)
    requires Enabled(w, states[|steps|], step)
    ensures IsRun(w, states + [Do(w, states[|steps|], step)], steps + [step])
  {
    hide Initial, Do, Enabled;
    var longer, more := states + [Do(w, states[|steps|], step)], steps + [step];
    forall i | 0 <= i < |more| ensures Enabled(w, longer[i], more[i]) && longer[i + 1] == Do(w, longer[i], more[i]) {
      if i < |steps| {
        assert longer[i] == states[i] && longer[i + 1] == states[i + 1] && more[i] == steps[i];
      }
    }
  }

  // ------------------------------------------------------------------
  // The world of the counterexample.

  /** The instant of the takeover, in real time. */
  function Late(ha: HA): int {
    ha.Deadline() + ha.maxPause + 1
  }

  /** Local clocks stand still for an instant; meanwhile the storage clock gains all it may. */
  function Slipping(ha: HA): World {
    World(
      (t: int) => if t >= Late(ha) then t - 1 + ha.drift + ha.jump else t,
      (p: Instance, t: int) => if t >= Late(ha) then t - 1 else t,
      ha)
  }

  lemma SlippingIsDisciplined(ha: HA)
    requires ha.drift + ha.jump >= 0
    ensures Disciplined(Slipping(ha))
  {
  }

  /** Durations a fleet can be configured with, whatever its quiet window. */
  predicate Configured(ha: HA) {
    && ha.lease > 0 && ha.quiet > 0 && ha.Deadline() >= 1
    && ha.maxPause >= 0 && ha.drift + ha.jump >= 0
  }

  const OLD: Instance := "a"
  const NEW: Instance := "b"
  const GATE: GateId := GateId(0, 1)

  function Scenery(leases: map<Instance, Lease>, row: Row): Store {
    Store(leases, map[0 := row], map[], map[], Tenure(None, 0, None))
  }

  function Idler(): Proc {
    Proc(false, false, false, 0, 0, map[], map[], {}, map[], {}, map[], Idle, 0)
  }

  /** The old owner once its gate is installed. */
  function Owner(deadline: int, pending: set<Slot>, gate: Gate, op: Op, granted: int): Proc {
    Proc(true, false, false, 1, deadline, map[0 := 1], map[], pending, map[], {}, map[GATE := gate], op, granted)
  }

  /** The old owner once the takeover has reached it. */
  function Loser(deadline: int, op: Op, granted: int): Proc {
    Proc(true, false, false, 2, deadline, map[], map[0 := 1], {}, map[], {}, map[GATE := Gate(true, 1)], op, granted)
  }

  function Scene(now: int, st: Store, owner: Proc, newcomer: Proc, threads: map<Tid, Thread>): State {
    State(now, st, map[OLD := owner, NEW := newcomer], threads, [], {})
  }

  // ------------------------------------------------------------------
  // The run, in acts.

  function ClaimOf(ha: HA, id: Instance): Txn {
    ClaimTxn(ClaimRequest([0], "n", id, 0, ha.lease, ha.quiet), {OLD, NEW})
  }

  function LeaseAt(revision: nat, granted: int): Lease {
    Lease("n", revision, granted, Active)
  }

  function Before(): Store {
    Scenery(map[], Row(None, 0, Unowned))
  }

  function Registered(): Store {
    Scenery(map[OLD := LeaseAt(0, 1)], Row(None, 0, Unowned))
  }

  /** Storage while the old owner holds the slot. */
  function HeldByOld(): Store {
    Scenery(map[OLD := LeaseAt(1, 1)], Row(Some(OLD), 1, Owned))
  }

  /** Storage once the newcomer has registered, and once it has taken the slot over. */
  function Joined(at: int): Store {
    Scenery(map[OLD := LeaseAt(1, 1), NEW := LeaseAt(0, at)], Row(Some(OLD), 1, Owned))
  }

  function Taken(at: int, renewed: int): Store {
    Scenery(map[OLD := LeaseAt(2, renewed), NEW := LeaseAt(1, at)], Row(Some(NEW), 2, Owned))
  }

  lemma Registers(w: World, f: State, f': State)
    requires w.clock(1) == 1
    requires f == Scene(1, Before(), Idler(), Idler(), map[])
    requires f' == Scene(1, Registered(), Idler().(granted := 1), Idler(), map[])
    ensures Enabled(w, f, Commit(RegisterTxn("n", OLD))) && Do(w, f, Commit(RegisterTxn("n", OLD))) == f'
  {
  }

  /** A claim of the one slot that finds it grantable. */
  lemma ClaimGrants(st: Store, t: Txn, id: Instance, ha: HA, now: int)
    requires Configured(ha) && t == ClaimOf(ha, id) && id != ""
    requires st.slots.Keys == {0} && id in st.leases && st.leases[id].node == "n"
    requires st.leases[id].state == Active && st.leases[id].revision == 0 && now < st.leases[id].grantedAt + ha.lease
    requires st.slots[0].owner.Some? ==> st.slots[0].owner.value in st.leases && st.slots[0].owner.value in {OLD, NEW}
    requires Grantable(st, t.claim, 0, now)
    ensures After(st, t, now) == Grant(st, id, {0})
  {
    assert Granted(st, t.claim, t.claim.slots, now) == {0};
    hide Grantable;
  }

  lemma Claims(ha: HA)
    requires Configured(ha)
    ensures After(Registered(), ClaimOf(ha, OLD), 1) == HeldByOld()
  {
    ClaimGrants(Registered(), ClaimOf(ha, OLD), OLD, ha, 1);
    var st := Registered();
    assert Owners(st, {0}) == {};
    assert Grant(st, OLD, {0}).leases == HeldByOld().leases;
    assert Grant(st, OLD, {0}).slots == HeldByOld().slots;
    assert Cancel(st.handoffs, {0}) == map[];
  }

  lemma TakesOver(ha: HA, now: int)
    requires Configured(ha) && now >= 1 + ha.quiet
    ensures After(Joined(now), ClaimOf(ha, NEW), now) == Taken(now, 1)
  {
    var st := Joined(now);
    ClaimGrants(st, ClaimOf(ha, NEW), NEW, ha, now);
    assert Owners(st, {0}) == {OLD};
    assert Grant(st, NEW, {0}).leases == Taken(now, 1).leases;
    assert Grant(st, NEW, {0}).slots == Taken(now, 1).slots;
    assert Cancel(st.handoffs, {0}) == map[];
  }

  // ------------------------------------------------------------------
  // Joining.

  /** A process that has registered and, holding nothing yet, applied its first snapshot. */
  function Ready(granted: int): Proc {
    Idler().(initialized := true, granted := granted)
  }

  lemma EmptyApply(granted: int, view: map<Slot, Row>)
    requires forall s :: s !in view
    ensures var p := Idler().(granted := granted, op := Snapshot(0, view));
            ApplyAuthority(p, 0, view).(op := Idle, initialized := true) == Ready(granted)
  {
    var p := Idler().(granted := granted, op := Snapshot(0, view));
    assert Kept(p, view) == {} && Lost(p, view) == {} && Gained(p, view) == {};
  }

  /** A process of the fleet takes an action of its own. */
  lemma Acts(w: World, f: State, id: Instance, act: Act, p': Proc)
    requires Reached(w, f) && id in f.procs
    requires ProcEnabled(w, f, act, id) && ProcDo(w, f, act, id) == p'
    ensures Reached(w, f.(procs := f.procs[id := p']))
  {
    hide ProcEnabled, ProcDo, Reached;
    Go(w, f, Local(id, act), f.(procs := f.procs[id := p']));
  }

  lemma ReadsNothing(w: World, f: State, id: Instance, granted: int)
    requires Reached(w, f) && id in f.procs && f.procs[id] == Idler().(granted := granted)
    requires id in f.store.leases && f.store.leases[id].state == Active && f.store.leases[id].revision == 0
    ensures Reached(w, f.(procs := f.procs[id := Idler().(granted := granted,
                                                          op := Snapshot(0, View(f.store.slots, id)))]))
  {
    hide Reached, View;
    Acts(w, f, id, ReadAuthority, Idler().(granted := granted, op := Snapshot(0, View(f.store.slots, id))));
  }

  lemma AppliesNothing(w: World, f: State, id: Instance, granted: int, view: map<Slot, Row>)
    requires Reached(w, f) && id in f.procs && f.procs[id] == Idler().(granted := granted, op := Snapshot(0, view))
    requires Acceptable(f.procs[id], 0, view) && forall s :: s !in view
    ensures Reached(w, f.(procs := f.procs[id := Ready(granted)]))
  {
    EmptyApply(granted, view);
    hide Reached, ApplyAuthority, Acceptable;
    Acts(w, f, id, Apply, Ready(granted));
  }

  lemma Initializes(w: World, f: State, id: Instance, granted: int)
    requires Reached(w, f) && id in f.procs && f.procs[id] == Idler().(granted := granted)
    requires id in f.store.leases && f.store.leases[id].state == Active && f.store.leases[id].revision == 0
    requires forall s | s in f.store.slots :: RowOk(f.store.slots[s])
    requires forall s :: s !in View(f.store.slots, id)
    ensures Reached(w, f.(procs := f.procs[id := Ready(granted)]))
  {
    var view := View(f.store.slots, id);
    var n := Idler().(granted := granted, op := Snapshot(0, view));
    var f' := f.(procs := f.procs[id := n]);
    ViewAccepted(n, 0, f.store.slots, id);
    ReadsNothing(w, f, id, granted);
    assert f'.procs[id := Ready(granted)] == f.procs[id := Ready(granted)];
    hide *;
    AppliesNothing(w, f', id, granted, view);
  }

  // ------------------------------------------------------------------
  // Steps of the old owner's, from any scene.

  lemma OwnerActs(w: World, f: State, p: Proc, n: Proc, act: Act, p': Proc)
    requires Reached(w, f) && f.procs == map[OLD := p, NEW := n]
    requires ProcEnabled(w, f, act, OLD) && ProcDo(w, f, act, OLD) == p'
    ensures Reached(w, f.(procs := map[OLD := p', NEW := n]))
  {
    hide ProcEnabled, ProcDo, Reached;
    assert f.procs[OLD := p'] == map[OLD := p', NEW := n];
    Go(w, f, Local(OLD, act), f.(procs := map[OLD := p', NEW := n]));
  }

  lemma OwnerRequests(w: World, f: State, guard: Guard, access: Access, guard': Guard)
    requires Reached(w, f) && f.threads == map[0 := Thread(OLD, GATE, guard)] && Well(f, 0)
    requires ThreadEnabled(w, f, access, 0) && GuardAfter(w, f, access, 0) == guard'
    requires !access.Bounce? && !access.Leave? && !access.Advance? && !access.Serve?
    ensures Reached(w, f.(threads := map[0 := Thread(OLD, GATE, guard')]))
  {
    hide ThreadEnabled, GuardAfter, Reached;
    assert f.threads[0 := Thread(OLD, GATE, guard')] == map[0 := Thread(OLD, GATE, guard')];
    Go(w, f, Step.Request(0, access), f.(threads := map[0 := Thread(OLD, GATE, guard')]));
  }

  lemma TimePasses(w: World, f: State, to: int)
    requires Reached(w, f) && to >= f.now
    ensures Reached(w, f.(now := to))
  {
    hide Reached;
    Go(w, f, Tick(to), f.(now := to));
  }

  /** A claim neither stamps a lease clock nor touches a process. */
  lemma SlotClaimed(w: World, f: State, t: Txn, st': Store)
    requires Reached(w, f) && t.ClaimTxn? && t.claim.quiet == w.ha.quiet
    requires t.claim.instance in f.procs && f.procs[t.claim.instance].initialized
    requires After(f.store, t, w.clock(f.now)) == st'
    ensures Reached(w, f.(store := st'))
  {
    hide Claim, Reached;
    Go(w, f, Commit(t), f.(store := st'));
  }

  /** The old owner's renewal commits at the revision it has applied. */
  lemma RenewalCommits(w: World, f: State, p: Proc, n: Proc, st': Store)
    requires Reached(w, f) && f.procs == map[OLD := p, NEW := n] && p.op.Sent?
    requires OLD in f.store.leases && f.store.leases[OLD].state == Active
    requires f.store.leases[OLD].revision == p.revision
    requires st' == f.store.(leases := f.store.leases[OLD := f.store.leases[OLD].(grantedAt := w.clock(f.now))])
    ensures Reached(w, f.(store := st',
                          procs := map[OLD := p.(granted := f.now, op := Sent(p.op.anchor, true)), NEW := n]))
  {
    hide Reached;
    var p' := p.(granted := f.now, op := Sent(p.op.anchor, true));
    assert f.procs[OLD := p'] == map[OLD := p', NEW := n];
    Go(w, f, Commit(RenewTxn(OLD, p.revision)), f.(store := st', procs := map[OLD := p', NEW := n]));
  }

  lemma OwnerReads(w: World, f: State, p: Proc, n: Proc, revision: nat, view: map<Slot, Row>)
    requires Reached(w, f) && f.procs == map[OLD := p, NEW := n] && p.op == Idle
    requires OLD in f.store.leases && f.store.leases[OLD].state == Active && f.store.leases[OLD].revision == revision
    requires View(f.store.slots, OLD) == view
    ensures Reached(w, f.(procs := map[OLD := p.(op := Snapshot(revision, view)), NEW := n]))
  {
    hide Reached, View;
    OwnerActs(w, f, p, n, ReadAuthority, p.(op := Snapshot(revision, view)));
  }

  lemma OwnerApplies(w: World, f: State, p: Proc, n: Proc, p': Proc)
    requires Reached(w, f) && f.procs == map[OLD := p, NEW := n] && p.op.Snapshot?
    requires Acceptable(p, p.op.revision, p.op.view)
    requires ApplyAuthority(p, p.op.revision, p.op.view).(op := Idle, initialized := true) == p'
    ensures Reached(w, f.(procs := map[OLD := p', NEW := n]))
  {
    hide Reached, ApplyAuthority, Acceptable;
    OwnerActs(w, f, p, n, Apply, p');
  }

  /** A renewal: sent, committed at the applied revision, confirmed in time, and the deadline moved. */
  lemma OwnerRenews(w: World, f: State, p: Proc, n: Proc, st': Store)
    requires Reached(w, f) && f.procs == map[OLD := p, NEW := n] && p.op == Idle && !p.stopping && !p.fenced
    requires w.ha.Deadline() > 0
    requires OLD in f.store.leases && f.store.leases[OLD].state == Active && f.store.leases[OLD].revision == p.revision
    requires st' == f.store.(leases := f.store.leases[OLD := f.store.leases[OLD].(grantedAt := w.clock(f.now))])
    ensures Reached(w, f.(store := st',
                          procs := map[OLD := p.(granted := f.now, deadline := w.mono(OLD, f.now) + w.ha.Deadline(),
                                                 op := Stored), NEW := n]))
  {
    hide Reached;
    var anchor := w.mono(OLD, f.now);
    var sent, granted := p.(op := Sent(anchor, false)), p.(granted := f.now, op := Sent(anchor, true));
    var confirmed := granted.(op := Confirmed(anchor));
    OwnerActs(w, f, p, n, SendRenew, sent);
    RenewalCommits(w, f.(procs := map[OLD := sent, NEW := n]), sent, n, st');
    var f' := f.(store := st', procs := map[OLD := granted, NEW := n]);
    OwnerActs(w, f', granted, n, Confirm, confirmed);
    var timely := confirmed.(op := Timely(anchor));
    OwnerActs(w, f'.(procs := map[OLD := confirmed, NEW := n]), confirmed, n, TestDeadline, timely);
    OwnerActs(w, f'.(procs := map[OLD := timely, NEW := n]), timely, n, StoreDeadline,
              timely.(deadline := anchor + w.ha.Deadline(), op := Stored));
  }

  // ------------------------------------------------------------------
  // The acts.

  const FIRST: map<Slot, Row> := map[0 := Row(Some(OLD), 1, Owned)]

  lemma FirstApply()
    ensures View(HeldByOld().slots, OLD) == FIRST
    ensures var p := Ready(1).(op := Snapshot(1, FIRST));
            && Acceptable(p, 1, FIRST)
            && ApplyAuthority(p, 1, FIRST).(op := Idle, initialized := true) == Owner(0, {0}, Gate(true, 0), Idle, 1)
  {
    var p := Ready(1).(op := Snapshot(1, FIRST));
    assert Kept(p, FIRST) == {} && Lost(p, FIRST) == {} && Gained(p, FIRST) == {0};
    assert Epochs(FIRST, {0}) == map[0 := 1];
    assert Ids(map[0 := 1], {0}) == {GATE};
  }

  /** The old owner registers and applies its first, empty snapshot. */
  lemma ActJoin(ha: HA)
    requires Configured(ha)
    ensures Reached(Slipping(ha), Scene(1, Registered(), Ready(1), Idler(), map[]))
  {
    var w := Slipping(ha);
    var p := Idler().(granted := 1);
    var f0, f1 := Scene(0, Before(), Idler(), Idler(), map[]), Scene(1, Before(), Idler(), Idler(), map[]);
    var f2 := Scene(1, Registered(), p, Idler(), map[]);
    Start(w, f0);
    Registers(w, f1, f2);
    assert f2.procs[OLD := Ready(1)] == map[OLD := Ready(1), NEW := Idler()];
    hide Reached, Do, Enabled, Late, Ready;
    TimePasses(w, f0, 1);
    Go(w, f1, Commit(RegisterTxn("n", OLD)), f2);
    Initializes(w, f2, OLD, 1);
  }

  /** It claims the slot and applies what it holds: a gate, still closed. */
  lemma ActClaim(ha: HA)
    requires Configured(ha)
    ensures Reached(Slipping(ha), Scene(1, HeldByOld(), Owner(0, {0}, Gate(true, 0), Idle, 1), Idler(), map[]))
  {
    var w := Slipping(ha);
    var p, q := Ready(1), Ready(1).(op := Snapshot(1, FIRST));
    ActJoin(ha);
    Claims(ha);
    FirstApply();
    hide Reached, Do, Enabled, After, ApplyAuthority, Acceptable, View, Late;
    SlotClaimed(w, Scene(1, Registered(), p, Idler(), map[]), ClaimOf(ha, OLD), HeldByOld());
    OwnerReads(w, Scene(1, HeldByOld(), p, Idler(), map[]), p, Idler(), 1, FIRST);
    OwnerApplies(w, Scene(1, HeldByOld(), q, Idler(), map[]), q, Idler(), Owner(0, {0}, Gate(true, 0), Idle, 1));
  }

  function Rider(guard: Guard): map<Tid, Thread> {
    map[0 := Thread(OLD, GATE, guard)]
  }

  /** Its first renewal, at the revision it applied. */
  lemma ActRenew(ha: HA)
    requires Configured(ha)
    ensures Reached(Slipping(ha),
                    Scene(1, HeldByOld(), Owner(1 + ha.Deadline(), {0}, Gate(true, 0), Stored, 1), Idler(), map[]))
  {
    var w, st := Slipping(ha), HeldByOld();
    var p := Owner(0, {0}, Gate(true, 0), Idle, 1);
    ActClaim(ha);
    assert w.clock(1) == 1 && w.mono(OLD, 1) == 1 && w.ha == ha;
    assert st.leases[OLD] == LeaseAt(1, 1) && st.leases[OLD := LeaseAt(1, 1)] == st.leases;
    hide Reached, Late;
    OwnerRenews(w, Scene(1, st, p, Idler(), map[]), p, Idler(), st);
  }

  /** The renewal opens the gate. */
  lemma ActOpen(ha: HA)
    requires Configured(ha)
    ensures Reached(Slipping(ha),
                    Scene(1, HeldByOld(), Owner(1 + ha.Deadline(), {}, Gate(false, 0), Idle, 1), Idler(), map[]))
  {
    var w, n, d := Slipping(ha), Idler(), 1 + ha.Deadline();
    var stored := Owner(d, {0}, Gate(true, 0), Stored, 1);
    var opening := Owner(d, {0}, Gate(true, 0), Op.Opening({0}), 1);
    var half := Owner(d, {0}, Gate(false, 0), Op.Opening({}), 1);
    ActRenew(ha);
    assert opening.op.todo - {0} == half.op.todo;
    assert map[GATE := Gate(true, 0)][GATE := Gate(false, 0)] == map[GATE := Gate(false, 0)];
    hide Reached, Late, Slipping, HeldByOld;
    OwnerActs(w, Scene(1, HeldByOld(), stored, n, map[]), stored, n, BeginOpening, opening);
    OwnerActs(w, Scene(1, HeldByOld(), opening, n, map[]), opening, n, OpenGate(0), half);
    OwnerActs(w, Scene(1, HeldByOld(), half, n, map[]), half, n, EndOpening, Owner(d, {}, Gate(false, 0), Idle, 1));
  }

  /** The old owner in the middle of the run: its gate open, one request inside. */
  function Busy(ha: HA): Proc {
    Owner(1 + ha.Deadline(), {}, Gate(false, 1), Idle, 1)
  }

  lemma ActEnter(ha: HA)
    requires Configured(ha)
    ensures Reached(Slipping(ha), Scene(1, HeldByOld(), Busy(ha), Idler(), Rider(Inside)))
  {
    var w, n := Slipping(ha), Idler();
    var p := Owner(1 + ha.Deadline(), {}, Gate(false, 0), Idle, 1);
    var f, f' := Scene(1, HeldByOld(), p, n, map[]), Scene(1, HeldByOld(), Busy(ha), n, Rider(Entering));
    ActOpen(ha);
    assert map[OLD := p, NEW := n][OLD := Busy(ha)] == map[OLD := Busy(ha), NEW := n];
    assert map[GATE := Gate(false, 0)][GATE := Gate(false, 1)] == map[GATE := Gate(false, 1)];
    hide Reached, Late;
    Go(w, f, Enter(0, OLD, 0), f');
    OwnerRequests(w, f', Entering, Pass, Inside);
  }

  /** In the last instant of the deadline the request starts its first check. */
  lemma ActBegin(ha: HA)
    requires Configured(ha)
    ensures Reached(Slipping(ha), Scene(ha.Deadline(), HeldByOld(), Busy(ha), Idler(), Rider(Sighted(ha.Deadline()))))
  {
    var w, n, d := Slipping(ha), Idler(), ha.Deadline();
    ActEnter(ha);
    assert w.mono(OLD, d) == d;
    hide Reached, Late, HeldByOld;
    TimePasses(w, Scene(1, HeldByOld(), Busy(ha), n, Rider(Inside)), d);
    OwnerRequests(w, Scene(d, HeldByOld(), Busy(ha), n, Rider(Inside)), Inside, Begin, Begun(d));
    OwnerRequests(w, Scene(d, HeldByOld(), Busy(ha), n, Rider(Begun(d))), Begun(d), Sight, Sighted(d));
  }

  /** The check passes. */
  lemma ActArm(ha: HA)
    requires Configured(ha)
    ensures Reached(Slipping(ha), Scene(ha.Deadline(), HeldByOld(), Busy(ha), Idler(), Rider(Armed(ha.Deadline()))))
  {
    var w, n, d := Slipping(ha), Idler(), ha.Deadline();
    ActBegin(ha);
    assert w.mono(OLD, d) == d;
    hide Reached, Late, HeldByOld;
    OwnerRequests(w, Scene(d, HeldByOld(), Busy(ha), n, Rider(Sighted(d))), Sighted(d), Load, Loaded(d, 1 + d));
    OwnerRequests(w, Scene(d, HeldByOld(), Busy(ha), n, Rider(Loaded(d, 1 + d))), Loaded(d, 1 + d), Check, Armed(d));
  }

  function Now(ha: HA): int {
    ha.Deadline() + ha.maxPause + ha.drift + ha.jump
  }

  /** After the longest pause a newcomer registers. */
  lemma ActNewcomer(ha: HA)
    requires Configured(ha)
    ensures Reached(Slipping(ha),
                    Scene(Late(ha), Joined(Now(ha)), Busy(ha), Ready(Late(ha)), Rider(Armed(ha.Deadline()))))
  {
    var w, n, d := Slipping(ha), Idler(), ha.Deadline();
    var joined := Idler().(granted := Late(ha));
    var f := Scene(d, HeldByOld(), Busy(ha), n, Rider(Armed(d)));
    var f1 := f.(now := Late(ha));
    var f2 := Scene(Late(ha), Joined(Now(ha)), Busy(ha), joined, Rider(Armed(d)));
    ActArm(ha);
    assert w.clock(Late(ha)) == Now(ha);
    Joins(w, f1, f2, Busy(ha));
    assert f2.procs[NEW := Ready(Late(ha))] == map[OLD := Busy(ha), NEW := Ready(Late(ha))];
    hide Reached, Late, Do, Enabled, Now, Ready;
    TimePasses(w, f, Late(ha));
    Go(w, f1, Commit(RegisterTxn("n", NEW)), f2);
    Initializes(w, f2, NEW, Late(ha));
  }

  /** It takes the slot over. */
  lemma ActTakeover(ha: HA)
    requires Configured(ha) && !Sufficient(ha)
    ensures Reached(Slipping(ha), Scene(Late(ha), Taken(Now(ha), 1), Busy(ha), Ready(Late(ha)),
                                        Rider(Armed(ha.Deadline()))))
  {
    var w := Slipping(ha);
    ActNewcomer(ha);
    assert w.clock(Late(ha)) == Now(ha);
    TakesOver(ha, Now(ha));
    hide Reached, Late, Do, Enabled, After, Now;
    SlotClaimed(w, Scene(Late(ha), Joined(Now(ha)), Busy(ha), Ready(Late(ha)), Rider(Armed(ha.Deadline()))),
                ClaimOf(ha, NEW), Taken(Now(ha), 1));
  }

  lemma Joins(w: World, f: State, f': State, p: Proc)
    requires f.store == HeldByOld() && f.procs == map[OLD := p, NEW := Idler()]
    requires f' == f.(store := Joined(w.clock(f.now)), procs := map[OLD := p, NEW := Idler().(granted := f.now)])
    ensures Enabled(w, f, Commit(RegisterTxn("n", NEW))) && Do(w, f, Commit(RegisterTxn("n", NEW))) == f'
  {
    assert f.procs[NEW := Idler().(granted := f.now)] == f'.procs;
  }

  /** The request, resumed: the cursor advance the store no longer vouches for. */
  function Overtaken(): seq<Entry> {
    [Entry(OLD, GATE, false)]
  }

  lemma Advances(w: World, f: State, f': State, started: int)
    requires Reached(w, f) && Well(f, 0) && f.threads == Rider(Armed(started)) && f.log == []
    requires !Names(f.store.slots, OLD, GATE)
    requires f' == f.(threads := Rider(Moved(started, 0)), log := Overtaken())
    ensures Reached(w, f')
  {
    assert f.threads[0 := Thread(OLD, GATE, Moved(started, 0))] == f'.threads;
    hide Reached, Names;
    Go(w, f, Step.Request(0, Advance), f');
  }

  lemma ActAdvance(ha: HA)
    requires Configured(ha) && !Sufficient(ha)
    ensures Reached(Slipping(ha), Scene(Late(ha), Taken(Now(ha), 1), Busy(ha), Ready(Late(ha)),
                                        Rider(Rechecked(0))).(log := Overtaken()))
  {
    var w, n, d := Slipping(ha), Ready(Late(ha)), ha.Deadline();
    var st := Taken(Now(ha), 1);
    var f := Scene(Late(ha), st, Busy(ha), n, Rider(Armed(d)));
    var f' := Scene(Late(ha), st, Busy(ha), n, Rider(Moved(d, 0))).(log := Overtaken());
    ActTakeover(ha);
    assert w.mono(OLD, Late(ha)) == d + ha.maxPause;
    assert !Names(st.slots, OLD, GATE);
    hide Reached, Late, Now, Taken, Names;
    Advances(w, f, f', d);
    OwnerRequests(w, f', Moved(d, 0), Bound, Bounded(0));
    OwnerRequests(w, f'.(threads := Rider(Bounded(0))), Bounded(0), Recheck, Rechecked(0));
  }

  /** What storage holds for an instance is never refused for its epochs. */
  lemma ViewAccepted(p: Proc, revision: nat, slots: map<Slot, Row>, id: Instance)
    requires !p.stopping && !p.fenced && p.revision <= revision
    requires forall s | s in slots :: RowOk(slots[s])
    ensures Acceptable(p, revision, View(slots, id))
  {
  }

  lemma NothingLeft(at: int)
    ensures forall s :: s !in View(Taken(at, 1).slots, OLD)
  {
  }

  /** A snapshot without the slot withdraws the gate. */
  lemma LastApply(ha: HA, view: map<Slot, Row>)
    requires forall s :: s !in view
    ensures ApplyAuthority(Busy(ha).(op := Snapshot(2, view)), 2, view).(op := Idle, initialized := true)
            == Loser(1 + ha.Deadline(), Idle, 1)
  {
    var p := Busy(ha).(op := Snapshot(2, view));
    assert Kept(p, view) == {} && Lost(p, view) == {0} && Gained(p, view) == {};
    assert Ids(p.gates, {0}) == {GATE};
  }

  /** Only now does the takeover reach the old owner. */
  lemma ActResync(ha: HA)
    requires Configured(ha) && !Sufficient(ha)
    ensures Reached(Slipping(ha), Scene(Late(ha), Taken(Now(ha), 1), Loser(1 + ha.Deadline(), Idle, 1),
                                        Ready(Late(ha)), Rider(Rechecked(0))).(log := Overtaken()))
  {
    var w, n := Slipping(ha), Ready(Late(ha));
    var f := Scene(Late(ha), Taken(Now(ha), 1), Busy(ha), n, Rider(Rechecked(0))).(log := Overtaken());
    var view := View(Taken(Now(ha), 1).slots, OLD);
    var p := Busy(ha).(op := Snapshot(2, view));
    ActAdvance(ha);
    NothingLeft(Now(ha));
    LastApply(ha, view);
    ViewAccepted(p, 2, Taken(Now(ha), 1).slots, OLD);
    hide Reached, Late, Now, ApplyAuthority, Acceptable, View, Slipping;
    OwnerReads(w, f, Busy(ha), n, 2, view);
    OwnerApplies(w, f.(procs := map[OLD := p, NEW := n]), p, n, Loser(1 + ha.Deadline(), Idle, 1));
  }

  /** Its next renewal, at the new revision, moves the deadline. */
  lemma ActExtend(ha: HA)
    requires Configured(ha) && !Sufficient(ha)
    ensures Reached(Slipping(ha), Scene(Late(ha), Taken(Now(ha), Now(ha)),
                                        Loser(2 * ha.Deadline() + ha.maxPause, Stored, Late(ha)),
                                        Ready(Late(ha)), Rider(Rechecked(0))).(log := Overtaken()))
  {
    var w, n := Slipping(ha), Ready(Late(ha));
    var st, st' := Taken(Now(ha), 1), Taken(Now(ha), Now(ha));
    var q := Loser(1 + ha.Deadline(), Idle, 1);
    ActResync(ha);
    assert w.mono(OLD, Late(ha)) == ha.Deadline() + ha.maxPause && w.clock(Late(ha)) == Now(ha) && w.ha == ha;
    assert st.leases[OLD] == LeaseAt(2, 1) && st.leases[OLD := LeaseAt(2, Now(ha))] == st'.leases;
    hide Reached, Late, Now;
    OwnerRenews(w, Scene(Late(ha), st, q, n, Rider(Rechecked(0))).(log := Overtaken()), q, n, st');
  }

  /** The last check reads the moved deadline, and the request serves an ID the newcomer may also reach. */
  lemma ActServe(ha: HA) returns (f: State)
    requires Configured(ha) && !Sufficient(ha)
    ensures Reached(Slipping(ha), f) && f.served == {0} && f.log == Overtaken()
  {
    var w, n, d := Slipping(ha), Ready(Late(ha)), 2 * ha.Deadline() + ha.maxPause;
    var q := Loser(d, Stored, Late(ha));
    var f0 := Scene(Late(ha), Taken(Now(ha), Now(ha)), q, n, Rider(Rechecked(0))).(log := Overtaken());
    var f1, f2 := f0.(threads := Rider(Reloaded(0, d))), f0.(threads := Rider(Cleared(0)));
    f := f0.(threads := Rider(Inside), served := {0});
    ActExtend(ha);
    assert w.mono(OLD, Late(ha)) == ha.Deadline() + ha.maxPause;
    hide Reached, Late, Now, Taken;
    OwnerRequests(w, f0, Rechecked(0), Reload, Reloaded(0, d));
    OwnerRequests(w, f1, Reloaded(0, d), Clear, Cleared(0));
    Serves(w, f2, f);
  }

  lemma Serves(w: World, f: State, f': State)
    requires Reached(w, f) && f.threads == Rider(Cleared(0)) && f.served == {} && Well(f, 0)
    requires f' == f.(threads := Rider(Inside), served := {0})
    ensures Reached(w, f')
  {
    hide Reached;
    assert f.threads[0 := Thread(OLD, GATE, Inside)] == f'.threads;
    Go(w, f, Step.Request(0, Serve), f');
  }

  // ------------------------------------------------------------------
  // The threshold.

  /** Every served advance was the store's to vouch for. */
  predicate Vouched(f: State) {
    forall k | k in f.served :: k < |f.log| && f.log[k].held
  }

  /** Under any clocks within the configured bounds, no run serves an ID its instance no longer held. */
  ghost predicate Safe(ha: HA) {
    forall w: World, f: State | w.ha == ha && Disciplined(w) && Reached(w, f) :: Vouched(f)
  }

  lemma SufficientIsSafe(ha: HA)
    requires Sufficient(ha)
    ensures Safe(ha)
  {
    forall w: World, f: State | w.ha == ha && Disciplined(w) && Reached(w, f) ensures Vouched(f) {
      var states, steps :| IsRun(w, states, steps) && states[|steps|] == f;
      forall k | k in f.served ensures k < |f.log| && f.log[k].held {
        ServedWhileHeld(w, states, steps, |steps|, k);
      }
    }
  }

  /** Silent takeover is safe exactly when the quiet window reaches the local deadline, the longest pause,
      and the storage clock's drift and jump together. */
  lemma ExactThreshold(ha: HA)
    requires Configured(ha)
    ensures Safe(ha) <==> ha.quiet >= ha.Deadline() + ha.maxPause + ha.drift + ha.jump
  {
    if Sufficient(ha) {
      SufficientIsSafe(ha);
    } else {
      var f := ActServe(ha);
      SlippingIsDisciplined(ha);
      assert 0 in f.served && !f.log[0].held;
      assert !Vouched(f);
    }
  }

  /** The configured floor clears the threshold by twice the clock margin. */
  lemma FloorIsSafe(ha: HA)
    requires ha.ValidAuthority()
    ensures Safe(ha)
  {
    FloorSuffices(ha);
    SufficientIsSafe(ha);
  }
}
