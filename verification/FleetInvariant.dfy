/** What every step of the fleet keeps. */
module FleetInvariant {
  import opened Tables
  import opened Transactions
  import opened Automaton
  import opened Local
  import opened Fleet

  // ------------------------------------------------------------------
  // Facts about one gate and the slot's row.

  predicate OwnedBy(slots: map<Slot, Row>, p: Instance, g: GateId) {
    g.slot in slots && slots[g.slot] == Row(Some(p), g.epoch, Owned)
  }

  /** The slot has reached this epoch, and if it is still there it is `p`'s or released. */
  predicate Past(slots: map<Slot, Row>, p: Instance, g: GateId) {
    && g.slot in slots
    && var r := slots[g.slot];
    && (r.epoch > g.epoch || (r.epoch == g.epoch && (r.owner == Some(p) || r.owner == None)))
  }

  /** The quiet window, less what the storage clock may gain, has passed on `p`'s own clock. */
  ghost predicate Elapsed(w: World, p: Instance, granted: int, now: int) {
    Timed(w) ==> w.mono(p, now) - w.mono(p, granted) >= w.ha.quiet - w.ha.drift - w.ha.jump
  }

  predicate DrainFenced(w: World, intent: Option<Handoff>, granted: int) {
    && intent.Some?
    && var h := intent.value;
    && !h.drained && h.notBefore.Some? && h.notBefore.value >= w.clock(granted) + w.ha.quiet
  }

  /** What protects a gate the process may still serve under, at revision `revision`. */
  ghost predicate Watch(w: World, now: int, st: Store, p: Instance, granted: int, g: GateId, revision: nat) {
    && Past(st.slots, p, g)
    && (!OwnedBy(st.slots, p, g) ==> p !in st.leases || revision < st.leases[p].revision)
    && (st.slots[g.slot] == Row(Some(p), g.epoch, Draining) ==> DrainFenced(w, IntentOf(st.handoffs, g.slot), granted))
    && (!Names(st.slots, p, g) ==> Elapsed(w, p, granted, now))
  }

  lemma QuietMeansElapsed(w: World, p: Instance, granted: int, now: int)
    requires granted <= now
    requires w.clock(now) >= w.clock(granted) + w.ha.quiet
    ensures Elapsed(w, p, granted, now)
  {
    if Timed(w) && w.mono(p, now) - w.mono(p, granted) < w.ha.quiet {
      assert w.clock(now) - w.clock(granted) <= w.mono(p, now) - w.mono(p, granted) + w.ha.drift + w.ha.jump;
    }
  }

  lemma ElapsedLater(w: World, p: Instance, granted: int, now: int, later: int)
    requires Monotone(w)
    requires Elapsed(w, p, granted, now) && now <= later
    ensures Elapsed(w, p, granted, later)
  {
    assert w.mono(p, now) <= w.mono(p, later);
  }

  lemma PastStep(st: Store, t: Txn, quiet: int, now: int, st': Store, p: Instance, g: GateId)
    requires Facts(st, t, quiet, now, st')
    requires Past(st.slots, p, g)
    ensures Past(st'.slots, p, g)
    ensures OwnedBy(st'.slots, p, g) ==> OwnedBy(st.slots, p, g)
    ensures Names(st'.slots, p, g) ==> Names(st.slots, p, g)
  {
    hide Coupled, LeaseStep, RevisionStep, CollectStep;
    assert SlotStep(st.leases, t, g.slot, quiet, now,
                    st.slots[g.slot], IntentOf(st.handoffs, g.slot),
                    st'.slots[g.slot], IntentOf(st'.handoffs, g.slot));
  }

  /** A row that stops being OWNED by `p` moves `p`'s revision. */
  lemma RevisionMoves(st: Store, t: Txn, quiet: int, now: int, st': Store, p: Instance, g: GateId)
    requires Facts(st, t, quiet, now, st')
    requires OwnedBy(st.slots, p, g) && !OwnedBy(st'.slots, p, g)
    ensures p in st.leases && p in st'.leases && st.leases[p].revision < st'.leases[p].revision
  {
    var v, v' := View(st.slots, p), View(st'.slots, p);
    assert g.slot in v && v[g.slot] == Row(Some(p), g.epoch, Owned);
    assert !(g.slot in v' && v'[g.slot] == v[g.slot]);
  }

  lemma WatchCommit(
    w: World, now: int, st: Store, t: Txn, st': Store, p: Instance, granted: int, granted': int,
    g: GateId, revision: nat)
    requires Monotone(w)
    requires Coupled(st) && Facts(st, t, w.ha.quiet, w.clock(now), st')
    requires Watch(w, now, st, p, granted, g, revision)
    requires granted <= now
    requires p in st.leases ==> st.leases[p].grantedAt == w.clock(granted) && revision <= st.leases[p].revision
    requires p !in st.leases ==> p !in st'.leases
    requires !Acks(t, p, g.slot, g.epoch)
    requires granted' == granted || (granted' == now && t.RenewTxn? && t.id == p && t.revision <= revision
                                     && p in st.leases && st.leases[p].revision == t.revision
                                     && st'.slots == st.slots)
    ensures Watch(w, now, st', p, granted', g, revision)
  {
    PastStep(st, t, w.ha.quiet, w.clock(now), st', p, g);
    if OwnedBy(st.slots, p, g) && !OwnedBy(st'.slots, p, g) {
      RevisionMoves(st, t, w.ha.quiet, w.clock(now), st', p, g);
    }
    assert LeaseMoves(st, t, w.clock(now), st', p);
    if granted' == granted {
      var r, h := st.slots[g.slot], IntentOf(st.handoffs, g.slot);
      assert PairOk(r, h);
      WatchRow(w, now, st.leases, t, r, h, st'.slots[g.slot], IntentOf(st'.handoffs, g.slot), p, granted, g);
    }
  }

  /** The quiet window is waited out, by a takeover or by a boundary, before a row stops naming `p`. */
  lemma WatchRow(
    w: World, now: int, leases: map<Instance, Lease>, t: Txn,
    r: Row, h: Option<Handoff>, r': Row, h': Option<Handoff>, p: Instance, granted: int, g: GateId)
    requires Monotone(w)
    requires PairOk(r, h)
    requires SlotStep(leases, t, g.slot, w.ha.quiet, w.clock(now), r, h, r', h')
    requires r == Row(Some(p), g.epoch, Draining) ==> DrainFenced(w, h, granted)
    requires !(r.owner == Some(p) && r.epoch == g.epoch) ==> Elapsed(w, p, granted, now)
    requires granted <= now
    requires p in leases ==> leases[p].grantedAt == w.clock(granted)
    requires !Acks(t, p, g.slot, g.epoch)
    requires r.epoch > g.epoch || (r.epoch == g.epoch && (r.owner == Some(p) || r.owner == None))
    ensures r' == Row(Some(p), g.epoch, Draining) ==> DrainFenced(w, h', granted)
    ensures !(r'.owner == Some(p) && r'.epoch == g.epoch) ==> Elapsed(w, p, granted, now)
  {
    if r.owner == Some(p) && r.epoch == g.epoch && !(r'.owner == Some(p) && r'.epoch == g.epoch) {
      assert w.clock(now) >= w.clock(granted) + w.ha.quiet;
      QuietMeansElapsed(w, p, granted, now);
    }
  }

  // ------------------------------------------------------------------
  // One process.

  predicate ClockOk(w: World, now: int, st: Store, p: Instance, proc: Proc) {
    && proc.granted <= now
    && (p in st.leases ==>
          st.leases[p].grantedAt == w.clock(proc.granted) && proc.revision <= st.leases[p].revision)
    && (proc.deadline > 0 ==> proc.deadline <= w.mono(p, proc.granted) + w.ha.Deadline())
  }

  /** A renewal in flight is anchored no later than its commit, and after the armed deadline's own anchor. */
  predicate RenewalOk(w: World, now: int, p: Instance, proc: Proc) {
    match proc.op
    case Sent(anchor, committed) =>
      && anchor <= w.mono(p, now)
      && (committed ==> anchor <= w.mono(p, proc.granted))
      && (proc.deadline > 0 ==> proc.deadline <= anchor + w.ha.Deadline())
    case Confirmed(anchor) =>
      && anchor <= w.mono(p, proc.granted)
      && (proc.deadline > 0 ==> proc.deadline <= anchor + w.ha.Deadline())
    case Timely(anchor) =>
      && anchor <= w.mono(p, proc.granted)
      && (proc.deadline > 0 ==> proc.deadline <= anchor + w.ha.Deadline())
    case Opening(todo) => todo <= proc.gates.Keys
    case _ => true
  }

  ghost predicate SnapshotOk(w: World, now: int, st: Store, p: Instance, proc: Proc) {
    proc.op.Snapshot? ==>
      var revision, view := proc.op.revision, proc.op.view;
      && proc.revision <= revision
      && (p in st.leases ==> revision <= st.leases[p].revision)
      && (!proc.stopping ==>
            && (forall s | s in view && view[s].state == Owned ::
                  && Watch(w, now, st, p, proc.granted, GateId(s, view[s].epoch), revision)
                  && (GateId(s, view[s].epoch) in proc.boxes ==> proc.Serving(GateId(s, view[s].epoch))))
            && (forall s | s in proc.gates && !Confirms(view, s, proc.gates[s]) ::
                  !OwnedBy(st.slots, p, GateId(s, proc.gates[s]))))
  }

  ghost predicate GatesOk(w: World, now: int, st: Store, p: Instance, proc: Proc) {
    && (forall s | s in proc.gates ::
          && GateId(s, proc.gates[s]) in proc.boxes
          && Watch(w, now, st, p, proc.granted, GateId(s, proc.gates[s]), proc.revision))
    && proc.pending <= proc.gates.Keys
    && (!proc.initialized ==> proc.boxes == map[] && proc.revision == 0)
  }

  /** A withdrawn gate is closed for good, and storage no longer has it OWNED unless shutdown withdrew it. */
  predicate BoxesOk(st: Store, p: Instance, proc: Proc) {
    forall g | g in proc.boxes ::
      && Past(st.slots, p, g)
      && (!proc.Serving(g) ==>
            && proc.boxes[g].draining
            && (OwnedBy(st.slots, p, g) ==> g.slot in proc.detached && proc.detached[g.slot] == g.epoch))
  }

  predicate ShutdownOk(proc: Proc) {
    && (proc.detached != map[] ==> proc.stopping && proc.gates == map[])
    && (proc.phantoms != {} ==> proc.stopping && proc.gates == map[])
    && (forall g | g in proc.phantoms :: g !in proc.boxes)
    && (forall s | s in proc.detached :: GateId(s, proc.detached[s]) in proc.boxes)
    && (forall s | s in proc.drains :: proc.Withdrawn(GateId(s, proc.drains[s])))
  }

  /** No request is inside the gate, and none can get in. */
  predicate Quiesced(proc: Proc, g: GateId) {
    && (g in proc.boxes ==> !proc.Serving(g) && proc.boxes[g].draining && proc.boxes[g].inflight == 0)
    && (g !in proc.boxes ==> proc.stopping)
  }

  predicate AcksOk(st: Store, p: Instance, proc: Proc) {
    forall s | s in st.slots && s in st.handoffs && st.handoffs[s].phase == Drain
               && st.handoffs[s].source == p && st.handoffs[s].drained ::
      Quiesced(proc, GateId(s, st.handoffs[s].sourceEpoch))
  }

  ghost predicate ProcOk(w: World, now: int, st: Store, p: Instance, proc: Proc) {
    && ClockOk(w, now, st, p, proc)
    && RenewalOk(w, now, p, proc)
    && SnapshotOk(w, now, st, p, proc)
    && GatesOk(w, now, st, p, proc)
    && BoxesOk(st, p, proc)
    && ShutdownOk(proc)
    && AcksOk(st, p, proc)
  }

  // ------------------------------------------------------------------
  // One request thread.

  predicate Lapsed(w: World, now: int, p: Instance, started: int) {
    w.mono(p, now) - started > w.ha.maxPause
  }

  /** The request's own advance, which under the timed hypotheses the store stood behind. */
  ghost predicate Backed(w: World, log: seq<Entry>, t: Thread, at: nat) {
    at < |log| && log[at].proc == t.proc && log[at].gate == t.gate && (Timed(w) ==> log[at].held)
  }

  ghost predicate GuardOk(w: World, now: int, log: seq<Entry>, t: Thread, proc: Proc) {
    var limit := w.mono(t.proc, proc.granted) + w.ha.Deadline();
    match t.guard
    case Outside => true
    case Loaded(started, deadline) => deadline <= limit && started <= w.mono(t.proc, now)
    case Begun(started) => started <= w.mono(t.proc, now)
    case Sighted(started) => started <= w.mono(t.proc, now)
    case Armed(started) => started < limit && started <= w.mono(t.proc, now)
    case Moved(started, at) =>
      && started < limit && started <= w.mono(t.proc, now)
      && at < |log| && log[at].proc == t.proc && log[at].gate == t.gate
      && (Timed(w) && !log[at].held ==> !proc.Serving(t.gate) || Lapsed(w, now, t.proc, started))
    case Bounded(at) =>
      && at < |log| && log[at].proc == t.proc && log[at].gate == t.gate
      && (Timed(w) && !log[at].held ==> !proc.Serving(t.gate))
    case Rechecked(at) => Backed(w, log, t, at)
    case Reloaded(at, _) => Backed(w, log, t, at)
    case Cleared(at) => Backed(w, log, t, at)
    case _ => true
  }

  ghost predicate ThreadOk(w: World, now: int, log: seq<Entry>, procs: map<Instance, Proc>, t: Thread) {
    t.guard != Outside ==>
      && t.proc in procs
      && t.gate in procs[t.proc].boxes
      && GuardOk(w, now, log, t, procs[t.proc])
  }

  /** The requests inside a gate. */
  function Riders(threads: map<Tid, Thread>, p: Instance, g: GateId): set<Tid> {
    set tid | tid in threads && threads[tid].proc == p && threads[tid].gate == g && threads[tid].guard != Outside
  }

  ghost predicate CountsOk(f: State) {
    forall p, g | p in f.procs && g in f.procs[p].boxes ::
      f.procs[p].boxes[g].inflight == |Riders(f.threads, p, g)|
  }

  // ------------------------------------------------------------------
  // The log of cursor advances.

  ghost predicate LogOk(w: World, slots: map<Slot, Row>, log: seq<Entry>, served: set<nat>) {
    && (forall i | 0 <= i < |log| && log[i].held :: Past(slots, log[i].proc, log[i].gate))
    && (forall i, j | 0 <= i < j < |log| && log[i].held && log[j].held && log[i].gate.slot == log[j].gate.slot ::
          && log[i].gate.epoch <= log[j].gate.epoch
          && (log[i].gate.epoch == log[j].gate.epoch ==> log[i].proc == log[j].proc))
    && (forall i | i in served :: i < |log| && (Timed(w) ==> log[i].held))
  }

  ghost predicate Inv(w: World, f: State) {
    && Coupled(f.store)
    && (forall p | p in f.store.leases :: p in f.procs)
    && (forall p | p in f.procs :: ProcOk(w, f.now, f.store, p, f.procs[p]))
    && (forall tid | tid in f.threads :: ThreadOk(w, f.now, f.log, f.procs, f.threads[tid]))
    && CountsOk(f)
    && LogOk(w, f.store.slots, f.log, f.served)
  }

  // ------------------------------------------------------------------
  // Time.

  lemma WatchLater(w: World, now: int, later: int, st: Store, p: Instance, granted: int, g: GateId, revision: nat)
    requires Monotone(w) && now <= later
    requires Watch(w, now, st, p, granted, g, revision)
    ensures Watch(w, later, st, p, granted, g, revision)
  {
    if Elapsed(w, p, granted, now) {
      ElapsedLater(w, p, granted, now, later);
    }
  }

  lemma ProcLater(w: World, now: int, later: int, st: Store, p: Instance, proc: Proc)
    requires Monotone(w) && now <= later
    requires ProcOk(w, now, st, p, proc)
    ensures ProcOk(w, later, st, p, proc)
  {
    assert w.mono(p, now) <= w.mono(p, later);
    forall s | s in proc.gates
      ensures Watch(w, later, st, p, proc.granted, GateId(s, proc.gates[s]), proc.revision)
    {
      WatchLater(w, now, later, st, p, proc.granted, GateId(s, proc.gates[s]), proc.revision);
    }
    if proc.op.Snapshot? && !proc.stopping {
      var view := proc.op.view;
      forall s | s in view && view[s].state == Owned
        ensures Watch(w, later, st, p, proc.granted, GateId(s, view[s].epoch), proc.op.revision)
      {
        WatchLater(w, now, later, st, p, proc.granted, GateId(s, view[s].epoch), proc.op.revision);
      }
    }
  }

  lemma ThreadLater(
    w: World, now: int, later: int, log: seq<Entry>, procs: map<Instance, Proc>, t: Thread)
    requires Monotone(w) && now <= later
    requires ThreadOk(w, now, log, procs, t)
    ensures ThreadOk(w, later, log, procs, t)
  {
    assert w.mono(t.proc, now) <= w.mono(t.proc, later);
    hide Timed;
  }

  lemma TickInv(w: World, f: State, to: int)
    requires Monotone(w) && Inv(w, f) && to >= f.now
    ensures Inv(w, f.(now := to))
  {
    hide ProcOk, ThreadOk, LogOk, Coupled;
    forall p | p in f.procs ensures ProcOk(w, to, f.store, p, f.procs[p]) {
      ProcLater(w, f.now, to, f.store, p, f.procs[p]);
    }
    forall tid | tid in f.threads ensures ThreadOk(w, to, f.log, f.procs, f.threads[tid]) {
      ThreadLater(w, f.now, to, f.log, f.procs, f.threads[tid]);
    }
  }
}
