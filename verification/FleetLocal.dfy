/** The authority loop's own actions keep the fleet invariant. */
module FleetLocal {
  import opened Tables
  import opened Transactions
  import opened Automaton
  import opened Local
  import opened Fleet
  import opened FleetInvariant

  /** Gates are only ever added, closed gates stay out of service, and no request is moved. */
  predicate Extends(proc: Proc, proc': Proc) {
    && proc'.granted == proc.granted
    && (forall g | g in proc.boxes ::
          && g in proc'.boxes
          && proc'.boxes[g].inflight == proc.boxes[g].inflight
          && (proc'.Serving(g) ==> proc.Serving(g)))
    && (forall g | g in proc'.boxes && g !in proc.boxes :: proc'.boxes[g].inflight == 0)
  }

  lemma ExtendsCounts(f: State, p: Instance, proc': Proc)
    requires CountsOk(f) && p in f.procs && Extends(f.procs[p], proc')
    requires forall tid | tid in f.threads && f.threads[tid].guard != Outside && f.threads[tid].proc == p ::
               f.threads[tid].gate in f.procs[p].boxes
    ensures CountsOk(f.(procs := f.procs[p := proc']))
  {
    forall g | g in proc'.boxes
      ensures proc'.boxes[g].inflight == |Riders(f.threads, p, g)|
    {
      if g !in f.procs[p].boxes {
        assert Riders(f.threads, p, g) == {};
      }
    }
  }

  lemma ExtendsThread(w: World, now: int, log: seq<Entry>, procs: map<Instance, Proc>, p: Instance, proc': Proc,
      t: Thread)
    requires p in procs && Extends(procs[p], proc')
    requires ThreadOk(w, now, log, procs, t)
    ensures ThreadOk(w, now, log, procs[p := proc'], t)
  {
  }

  lemma ExtendsInv(w: World, f: State, p: Instance, proc': Proc)
    requires Inv(w, f) && p in f.procs
    requires ProcOk(w, f.now, f.store, p, proc') && Extends(f.procs[p], proc')
    ensures Inv(w, f.(procs := f.procs[p := proc']))
  {
    forall tid | tid in f.threads
      ensures ThreadOk(w, f.now, f.log, f.procs[p := proc'], f.threads[tid])
    {
      ExtendsThread(w, f.now, f.log, f.procs, p, proc', f.threads[tid]);
    }
    forall tid | tid in f.threads && f.threads[tid].guard != Outside && f.threads[tid].proc == p
      ensures f.threads[tid].gate in f.procs[p].boxes
    {
      assert ThreadOk(w, f.now, f.log, f.procs, f.threads[tid]);
    }
    ExtendsCounts(f, p, proc');
  }

  // ------------------------------------------------------------------
  // Actions that leave the set of serving gates alone.

  predicate Steady(proc: Proc, proc': Proc) {
    && proc'.granted == proc.granted
    && proc'.revision == proc.revision
    && proc'.initialized == proc.initialized
    && (proc.stopping ==> proc'.stopping)
    && proc'.gates == proc.gates
    && proc'.pending <= proc.gates.Keys
    && proc'.detached == proc.detached
    && proc'.phantoms == proc.phantoms
    && proc'.boxes.Keys == proc.boxes.Keys
    && (forall g | g in proc.boxes ::
          && proc'.boxes[g].inflight == proc.boxes[g].inflight
          && (!proc.Serving(g) ==> proc'.boxes[g] == proc.boxes[g]))
    && (forall s | s in proc'.drains :: s in proc.drains && proc'.drains[s] == proc.drains[s])
  }

  lemma SteadyExtends(proc: Proc, proc': Proc)
    requires Steady(proc, proc')
    ensures Extends(proc, proc')
  {
  }

  lemma SteadyAcks(st: Store, p: Instance, proc: Proc, proc': Proc)
    requires Steady(proc, proc') && AcksOk(st, p, proc)
    ensures AcksOk(st, p, proc')
  {
    forall s | s in st.slots && s in st.handoffs && st.handoffs[s].phase == Drain
               && st.handoffs[s].source == p && st.handoffs[s].drained
      ensures Quiesced(proc', GateId(s, st.handoffs[s].sourceEpoch))
    {
      assert Quiesced(proc, GateId(s, st.handoffs[s].sourceEpoch));
    }
  }

  lemma SteadyGates(w: World, now: int, st: Store, p: Instance, proc: Proc, proc': Proc)
    requires Steady(proc, proc')
    requires GatesOk(w, now, st, p, proc) && BoxesOk(st, p, proc) && ShutdownOk(proc)
    ensures GatesOk(w, now, st, p, proc') && BoxesOk(st, p, proc') && ShutdownOk(proc')
  {
  }

  lemma SteadyOk(w: World, now: int, st: Store, p: Instance, proc: Proc, proc': Proc)
    requires ProcOk(w, now, st, p, proc) && Steady(proc, proc')
    requires ClockOk(w, now, st, p, proc') && RenewalOk(w, now, p, proc')
    requires proc'.op == proc.op || !proc'.op.Snapshot?
    ensures ProcOk(w, now, st, p, proc') && Extends(proc, proc')
  {
    SteadyExtends(proc, proc');
    SteadyAcks(st, p, proc, proc');
    SteadyGates(w, now, st, p, proc, proc');
    assert SnapshotOk(w, now, st, p, proc');
  }

  predicate SteadyAct(act: Act) {
    !(act.ReadAuthority? || act.Apply? || act.DetachAll? || act.IncludeHeld?)
  }

  lemma SteadyActs(w: World, f: State, act: Act, p: Instance)
    requires Monotone(w) && p in f.procs && ProcOk(w, f.now, f.store, p, f.procs[p])
    requires ProcEnabled(w, f, act, p) && SteadyAct(act)
    ensures ProcOk(w, f.now, f.store, p, ProcDo(w, f, act, p)) && Extends(f.procs[p], ProcDo(w, f, act, p))
  {
    var proc, proc' := f.procs[p], ProcDo(w, f, act, p);
    assert w.mono(p, proc.granted) <= w.mono(p, f.now);
    assert Steady(proc, proc') by {
      SteadyDo(w, f, act, p);
    }
    assert ClockOk(w, f.now, f.store, p, proc') && RenewalOk(w, f.now, p, proc') by {
      SteadyClock(w, f, act, p);
    }
    SteadyOk(w, f.now, f.store, p, proc, proc');
  }

  lemma SteadyFlag(w: World, f: State, act: Act, p: Instance)
    requires p in f.procs && ProcEnabled(w, f, act, p) && (act.OpenGate? || act.FenceGate?)
    requires f.procs[p].pending <= f.procs[p].gates.Keys
    ensures Steady(f.procs[p], ProcDo(w, f, act, p))
  {
    hide ApplyAuthority, Detach, Held, Acceptable;
  }

  lemma SteadyRest(w: World, f: State, act: Act, p: Instance)
    requires p in f.procs && ProcEnabled(w, f, act, p) && SteadyAct(act) && !act.OpenGate? && !act.FenceGate?
    requires f.procs[p].pending <= f.procs[p].gates.Keys
    ensures Steady(f.procs[p], ProcDo(w, f, act, p))
  {
    hide ApplyAuthority, Detach, Held, Acceptable;
  }

  lemma SteadyDo(w: World, f: State, act: Act, p: Instance)
    requires p in f.procs && ProcEnabled(w, f, act, p) && SteadyAct(act)
    requires f.procs[p].pending <= f.procs[p].gates.Keys
    ensures Steady(f.procs[p], ProcDo(w, f, act, p))
  {
    hide ProcEnabled, ProcDo, Steady;
    if act.OpenGate? || act.FenceGate? {
      SteadyFlag(w, f, act, p);
    } else {
      SteadyRest(w, f, act, p);
    }
  }

  lemma SteadyClock(w: World, f: State, act: Act, p: Instance)
    requires p in f.procs && ProcEnabled(w, f, act, p) && SteadyAct(act)
    requires f.procs[p].pending <= f.procs[p].gates.Keys
    requires w.mono(p, f.procs[p].granted) <= w.mono(p, f.now)
    requires ClockOk(w, f.now, f.store, p, f.procs[p]) && RenewalOk(w, f.now, p, f.procs[p])
    ensures ClockOk(w, f.now, f.store, p, ProcDo(w, f, act, p))
    ensures RenewalOk(w, f.now, p, ProcDo(w, f, act, p))
  {
    hide ApplyAuthority, Detach, Held, Acceptable;
  }

  // ------------------------------------------------------------------
  // Reading a snapshot, and shutdown.

  lemma ReadSnapshot(w: World, now: int, st: Store, p: Instance, proc: Proc)
    requires p in st.leases && ClockOk(w, now, st, p, proc) && BoxesOk(st, p, proc) && ShutdownOk(proc)
    requires GatesOk(w, now, st, p, proc)
    ensures SnapshotOk(w, now, st, p, proc.(op := Snapshot(st.leases[p].revision, View(st.slots, p))))
  {
    var view := View(st.slots, p);
    if !proc.stopping {
      forall s | s in view && view[s].state == Owned
        ensures Watch(w, now, st, p, proc.granted, GateId(s, view[s].epoch), st.leases[p].revision)
        ensures GateId(s, view[s].epoch) in proc.boxes ==> proc.Serving(GateId(s, view[s].epoch))
      {
        assert OwnedBy(st.slots, p, GateId(s, view[s].epoch));
      }
      forall s | s in proc.gates && !Confirms(view, s, proc.gates[s])
        ensures !OwnedBy(st.slots, p, GateId(s, proc.gates[s]))
      {
      }
    }
  }

  lemma ReadAct(w: World, f: State, p: Instance)
    requires p in f.procs && ProcOk(w, f.now, f.store, p, f.procs[p]) && ProcEnabled(w, f, ReadAuthority, p)
    ensures ProcOk(w, f.now, f.store, p, ProcDo(w, f, ReadAuthority, p))
    ensures Extends(f.procs[p], ProcDo(w, f, ReadAuthority, p))
  {
    var proc, proc' := f.procs[p], ProcDo(w, f, ReadAuthority, p);
    ReadSnapshot(w, f.now, f.store, p, proc);
    SteadyExtends(proc, proc');
    SteadyAcks(f.store, p, proc, proc');
    SteadyGates(w, f.now, f.store, p, proc, proc');
  }

  lemma DetachGate(proc: Proc, g: GateId)
    requires g in proc.boxes
    ensures var q := Detach(proc);
      && g in q.boxes && q.boxes[g].inflight == proc.boxes[g].inflight && !q.Serving(g)
      && (proc.Serving(g) ==> q.boxes[g].draining && g.slot in q.detached && q.detached[g.slot] == g.epoch)
      && (proc.boxes[g].draining ==> q.boxes[g].draining)
  {
    assert g == GateId(g.slot, g.epoch);
  }

  lemma DetachShutdown(proc: Proc)
    requires ShutdownOk(proc) && proc.stopping && proc.detached == map[]
    requires forall s | s in proc.gates :: GateId(s, proc.gates[s]) in proc.boxes
    ensures ShutdownOk(Detach(proc))
  {
  }

  lemma DetachBoxes(st: Store, p: Instance, proc: Proc)
    requires BoxesOk(st, p, proc) && ShutdownOk(proc)
    requires proc.stopping && proc.detached == map[]
    requires forall s | s in proc.gates :: GateId(s, proc.gates[s]) in proc.boxes
    ensures BoxesOk(st, p, Detach(proc)) && ShutdownOk(Detach(proc)) && Extends(proc, Detach(proc))
  {
    DetachShutdown(proc);
    hide ShutdownOk, Past, OwnedBy;
    var q := Detach(proc);
    forall g | g in proc.boxes
      ensures g in q.boxes && q.boxes[g].inflight == proc.boxes[g].inflight && !q.Serving(g) && q.boxes[g].draining
      ensures OwnedBy(st.slots, p, g) ==> g.slot in q.detached && q.detached[g.slot] == g.epoch
    {
      DetachGate(proc, g);
    }
  }

  lemma QuiescedStays(st: Store, p: Instance, proc: Proc, q: Proc)
    requires AcksOk(st, p, proc)
    requires Extends(proc, q) && q.boxes.Keys == proc.boxes.Keys && (proc.stopping ==> q.stopping)
    requires forall g | g in proc.boxes && proc.boxes[g].draining && !proc.Serving(g) :: q.boxes[g].draining
    ensures AcksOk(st, p, q)
  {
    forall s | s in st.slots && s in st.handoffs && st.handoffs[s].phase == Drain
               && st.handoffs[s].source == p && st.handoffs[s].drained
      ensures Quiesced(q, GateId(s, st.handoffs[s].sourceEpoch))
    {
      assert Quiesced(proc, GateId(s, st.handoffs[s].sourceEpoch));
    }
  }

  lemma DetachAct(w: World, f: State, p: Instance)
    requires p in f.procs && ProcOk(w, f.now, f.store, p, f.procs[p]) && ProcEnabled(w, f, DetachAll, p)
    ensures ProcOk(w, f.now, f.store, p, ProcDo(w, f, DetachAll, p))
    ensures Extends(f.procs[p], ProcDo(w, f, DetachAll, p))
  {
    DetachBoxes(f.store, p, f.procs[p]);
    QuiescedStays(f.store, p, f.procs[p], Detach(f.procs[p]));
  }

  lemma HeldAct(w: World, f: State, p: Instance)
    requires p in f.procs && ProcOk(w, f.now, f.store, p, f.procs[p]) && ProcEnabled(w, f, IncludeHeld, p)
    ensures ProcOk(w, f.now, f.store, p, ProcDo(w, f, IncludeHeld, p))
    ensures Extends(f.procs[p], ProcDo(w, f, IncludeHeld, p))
  {
    var proc := f.procs[p];
    var view := View(f.store.slots, p);
    forall g | g in Held(proc, view) ensures g !in proc.boxes {
      assert OwnedBy(f.store.slots, p, g);
      assert !proc.Serving(g);
    }
  }

  // ------------------------------------------------------------------
  // Applying a snapshot.

  /** The serving gates after an apply are exactly the slots the snapshot has OWNED, at its epochs. */
  lemma AppliedGates(p: Proc, revision: nat, view: map<Slot, Row>)
    ensures var q := ApplyAuthority(p, revision, view);
            && q.gates.Keys == (set s | s in view && view[s].state == Owned)
            && forall s | s in q.gates :: q.gates[s] == view[s].epoch
  {
  }

  /** Gates gained by an apply were never built before. */
  lemma GainedFresh(proc: Proc, view: map<Slot, Row>)
    requires forall s | s in view && view[s].state == Owned && GateId(s, view[s].epoch) in proc.boxes ::
               proc.Serving(GateId(s, view[s].epoch))
    ensures forall g | g in Ids(Epochs(view, Gained(proc, view)), Gained(proc, view)) ::
              g !in proc.boxes && Confirms(view, g.slot, g.epoch)
    ensures forall s | s in Gained(proc, view) ::
              GateId(s, view[s].epoch) in Ids(Epochs(view, Gained(proc, view)), Gained(proc, view))
  {
    var newcomers := Epochs(view, Gained(proc, view));
    forall s | s in Gained(proc, view) ensures GateId(s, view[s].epoch) in Ids(newcomers, Gained(proc, view)) {
      assert newcomers[s] == view[s].epoch;
    }
  }

  /** An old gate keeps its counter, and is closed when the snapshot drops it. */
  lemma AppliedBox(proc: Proc, revision: nat, view: map<Slot, Row>, g: GateId)
    requires forall s | s in view && view[s].state == Owned && GateId(s, view[s].epoch) in proc.boxes ::
               proc.Serving(GateId(s, view[s].epoch))
    requires g in proc.boxes
    requires !proc.Serving(g) ==> proc.boxes[g].draining
    ensures var q := ApplyAuthority(proc, revision, view);
            && g in q.boxes && q.boxes[g].inflight == proc.boxes[g].inflight
            && (q.Serving(g) ==> proc.Serving(g))
            && (!q.Serving(g) ==> q.boxes[g].draining)
  {
    AppliedGates(proc, revision, view);
    GainedFresh(proc, view);
    assert g == GateId(g.slot, g.epoch);
    if proc.Serving(g) && !ApplyAuthority(proc, revision, view).Serving(g) {
      assert g.slot in Lost(proc, view);
      assert g in Ids(proc.gates, Lost(proc, view));
    }
  }

  lemma AppliedBoxes(proc: Proc, revision: nat, view: map<Slot, Row>)
    requires forall s | s in view && view[s].state == Owned && GateId(s, view[s].epoch) in proc.boxes ::
               proc.Serving(GateId(s, view[s].epoch))
    requires forall s | s in proc.gates :: GateId(s, proc.gates[s]) in proc.boxes
    requires forall g | g in proc.boxes && !proc.Serving(g) :: proc.boxes[g].draining
    ensures var q := ApplyAuthority(proc, revision, view);
            && Extends(proc, q)
            && (forall g | g in q.boxes && g !in proc.boxes :: q.Serving(g) && Confirms(view, g.slot, g.epoch))
            && (forall g | g in proc.boxes && !q.Serving(g) :: q.boxes[g].draining)
            && (forall s | s in q.gates :: GateId(s, q.gates[s]) in q.boxes)
  {
    var q := ApplyAuthority(proc, revision, view);
    forall g | g in proc.boxes
      ensures g in q.boxes && q.boxes[g].inflight == proc.boxes[g].inflight
      ensures q.Serving(g) ==> proc.Serving(g)
      ensures !q.Serving(g) ==> q.boxes[g].draining
    {
      AppliedBox(proc, revision, view, g);
    }
    AppliedNew(proc, revision, view);
  }

  lemma AppliedNew(proc: Proc, revision: nat, view: map<Slot, Row>)
    requires forall s | s in view && view[s].state == Owned && GateId(s, view[s].epoch) in proc.boxes ::
               proc.Serving(GateId(s, view[s].epoch))
    requires forall s | s in proc.gates :: GateId(s, proc.gates[s]) in proc.boxes
    ensures var q := ApplyAuthority(proc, revision, view);
            && (forall g | g in q.boxes && g !in proc.boxes ::
                  q.boxes[g] == Gate(true, 0) && q.Serving(g) && Confirms(view, g.slot, g.epoch))
            && (forall s | s in q.gates :: GateId(s, q.gates[s]) in q.boxes)
  {
    AppliedGates(proc, revision, view);
    GainedFresh(proc, view);
  }

  lemma AppliedDrains(proc: Proc, revision: nat, view: map<Slot, Row>)
    requires ShutdownOk(proc)
    requires forall s | s in proc.gates :: GateId(s, proc.gates[s]) in proc.boxes
    requires Extends(proc, ApplyAuthority(proc, revision, view))
    requires !proc.stopping
    ensures ShutdownOk(ApplyAuthority(proc, revision, view))
  {
    var q := ApplyAuthority(proc, revision, view);
    AppliedGates(proc, revision, view);
    forall s | s in q.drains ensures q.Withdrawn(GateId(s, q.drains[s])) {
      if s in Lost(proc, view) {
        assert q.drains[s] == proc.gates[s];
      } else {
        assert proc.Withdrawn(GateId(s, proc.drains[s]));
      }
    }
  }

  /** What applying a snapshot does to the gates. */
  ghost predicate Applied(proc: Proc, q: Proc) {
    && proc.op.Snapshot? && !proc.stopping && Extends(proc, q)
    && q.gates.Keys == (set s | s in proc.op.view && proc.op.view[s].state == Owned)
    && (forall s | s in q.gates :: q.gates[s] == proc.op.view[s].epoch && GateId(s, q.gates[s]) in q.boxes)
    && (forall g | g in q.boxes && g !in proc.boxes :: q.Serving(g) && Confirms(proc.op.view, g.slot, g.epoch))
    && (forall g | g in proc.boxes && !q.Serving(g) :: q.boxes[g].draining)
    && q.pending <= q.gates.Keys && q.initialized && q.revision == proc.op.revision && q.granted == proc.granted
    && q.detached == proc.detached
  }

  /** A gate the snapshot confirms and the process already built is one it serves. */
  lemma SnapshotServes(w: World, now: int, st: Store, p: Instance, proc: Proc)
    requires proc.op.Snapshot? && !proc.stopping
    requires GatesOk(w, now, st, p, proc) && SnapshotOk(w, now, st, p, proc) && BoxesOk(st, p, proc)
    ensures forall s | s in proc.op.view && proc.op.view[s].state == Owned
              && GateId(s, proc.op.view[s].epoch) in proc.boxes :: proc.Serving(GateId(s, proc.op.view[s].epoch))
    ensures forall s | s in proc.gates :: GateId(s, proc.gates[s]) in proc.boxes
    ensures forall g | g in proc.boxes && !proc.Serving(g) :: proc.boxes[g].draining
  {
    hide Watch, Past, OwnedBy;
  }

  lemma AppliedRest(proc: Proc, revision: nat, view: map<Slot, Row>)
    ensures var q := ApplyAuthority(proc, revision, view);
      && q.pending <= q.gates.Keys && q.revision == revision && q.granted == proc.granted && q.detached == proc.detached
  {
  }

  lemma ApplyShape(w: World, f: State, p: Instance)
    requires p in f.procs && ProcEnabled(w, f, Apply, p)
    requires GatesOk(w, f.now, f.store, p, f.procs[p]) && SnapshotOk(w, f.now, f.store, p, f.procs[p])
    requires BoxesOk(f.store, p, f.procs[p])
    ensures Applied(f.procs[p], ProcDo(w, f, Apply, p))
    ensures Extends(f.procs[p], ApplyAuthority(f.procs[p], f.procs[p].op.revision, f.procs[p].op.view))
  {
    hide GatesOk, SnapshotOk, BoxesOk, ApplyAuthority, Confirms;
    var proc := f.procs[p];
    SnapshotServes(w, f.now, f.store, p, proc);
    AppliedBoxes(proc, proc.op.revision, proc.op.view);
    AppliedGates(proc, proc.op.revision, proc.op.view);
    AppliedRest(proc, proc.op.revision, proc.op.view);
  }

  lemma ApplyClock(w: World, f: State, p: Instance)
    requires p in f.procs && ProcEnabled(w, f, Apply, p)
    requires ClockOk(w, f.now, f.store, p, f.procs[p]) && SnapshotOk(w, f.now, f.store, p, f.procs[p])
    ensures var q := ProcDo(w, f, Apply, p);
      ClockOk(w, f.now, f.store, p, q) && RenewalOk(w, f.now, p, q) && SnapshotOk(w, f.now, f.store, p, q)
  {
    hide Watch, Confirms;
  }

  lemma ApplyShutdown(w: World, f: State, p: Instance)
    requires p in f.procs && ProcEnabled(w, f, Apply, p)
    requires GatesOk(w, f.now, f.store, p, f.procs[p]) && ShutdownOk(f.procs[p])
    requires Extends(f.procs[p], ApplyAuthority(f.procs[p], f.procs[p].op.revision, f.procs[p].op.view))
    ensures ShutdownOk(ProcDo(w, f, Apply, p))
  {
    hide Watch, Confirms, ShutdownOk, ApplyAuthority, Extends;
    var proc := f.procs[p];
    AppliedDrains(proc, proc.op.revision, proc.op.view);
    ShutdownSame(ApplyAuthority(proc, proc.op.revision, proc.op.view), ProcDo(w, f, Apply, p));
  }

  lemma ShutdownSame(p: Proc, q: Proc)
    requires ShutdownOk(p) && q == p.(op := Idle, initialized := true)
    ensures ShutdownOk(q)
  {
  }

  lemma ApplyAct(w: World, f: State, p: Instance)
    requires p in f.procs && ProcOk(w, f.now, f.store, p, f.procs[p]) && ProcEnabled(w, f, Apply, p)
    ensures ProcOk(w, f.now, f.store, p, ProcDo(w, f, Apply, p))
    ensures Extends(f.procs[p], ProcDo(w, f, Apply, p))
  {
    hide BoxesOk, AcksOk, GatesOk, SnapshotOk, ClockOk, RenewalOk, ShutdownOk, ProcDo, ProcEnabled, Extends, Confirms;
    var proc := f.procs[p];
    var q := ProcDo(w, f, Apply, p);
    ApplyShape(w, f, p);
    ApplyClock(w, f, p);
    ApplyShutdown(w, f, p);
    AppliedGatesOk(w, f.now, f.store, p, proc, q);
    ConfirmsServed(proc, q);
    AppliedBoxesOk(w, f.now, f.store, p, proc, q);
    AppliedAcksOk(f.store, p, proc, q);
  }

  lemma ConfirmsServed(proc: Proc, q: Proc)
    requires Applied(proc, q)
    ensures forall s | s in q.gates :: Confirms(proc.op.view, s, q.gates[s])
  {
  }

  lemma AppliedGatesOk(w: World, now: int, st: Store, p: Instance, proc: Proc, q: Proc)
    requires proc.op.Snapshot? && SnapshotOk(w, now, st, p, proc) && !proc.stopping
    requires q.gates.Keys == (set s | s in proc.op.view && proc.op.view[s].state == Owned)
    requires forall s | s in q.gates :: q.gates[s] == proc.op.view[s].epoch
    requires forall s | s in q.gates :: GateId(s, q.gates[s]) in q.boxes
    requires q.pending <= q.gates.Keys && q.initialized && q.revision == proc.op.revision && q.granted == proc.granted
    ensures GatesOk(w, now, st, p, q)
  {
  }

  lemma AppliedBoxesOk(w: World, now: int, st: Store, p: Instance, proc: Proc, q: Proc)
    requires proc.op.Snapshot? && SnapshotOk(w, now, st, p, proc) && !proc.stopping
    requires BoxesOk(st, p, proc)
    requires Extends(proc, q)
    requires forall g | g in q.boxes && g !in proc.boxes :: q.Serving(g) && Confirms(proc.op.view, g.slot, g.epoch)
    requires forall g | g in proc.boxes && !q.Serving(g) :: q.boxes[g].draining
    requires forall s | s in q.gates :: Confirms(proc.op.view, s, q.gates[s])
    requires forall s | s in proc.op.view && proc.op.view[s].state == Owned :: s in q.gates
    requires q.detached == proc.detached
    ensures BoxesOk(st, p, q)
  {
    forall g | g in q.boxes
      ensures Past(st.slots, p, g)
      ensures !q.Serving(g) ==>
                && q.boxes[g].draining
                && (OwnedBy(st.slots, p, g) ==> g.slot in q.detached && q.detached[g.slot] == g.epoch)
    {
      assert g == GateId(g.slot, g.epoch);
      if g in proc.boxes && proc.Serving(g) && !q.Serving(g) {
        assert !Confirms(proc.op.view, g.slot, proc.gates[g.slot]);
      }
    }
  }

  lemma AppliedAcksOk(st: Store, p: Instance, proc: Proc, q: Proc)
    requires AcksOk(st, p, proc) && !proc.stopping
    requires Extends(proc, q)
    requires forall g | g in proc.boxes && !q.Serving(g) :: q.boxes[g].draining
    ensures AcksOk(st, p, q)
  {
    forall s | s in st.slots && s in st.handoffs && st.handoffs[s].phase == Drain
               && st.handoffs[s].source == p && st.handoffs[s].drained
      ensures Quiesced(q, GateId(s, st.handoffs[s].sourceEpoch))
    {
      assert Quiesced(proc, GateId(s, st.handoffs[s].sourceEpoch));
    }
  }

  lemma LocalProc(w: World, f: State, act: Act, p: Instance)
    requires Monotone(w) && p in f.procs && ProcOk(w, f.now, f.store, p, f.procs[p])
    requires ProcEnabled(w, f, act, p)
    ensures ProcOk(w, f.now, f.store, p, ProcDo(w, f, act, p)) && Extends(f.procs[p], ProcDo(w, f, act, p))
  {
    hide ProcOk, ProcDo, Extends;
    match act
    case ReadAuthority => ReadAct(w, f, p);
    case Apply => ApplyAct(w, f, p);
    case DetachAll => DetachAct(w, f, p);
    case IncludeHeld => HeldAct(w, f, p);
    case _ => SteadyActs(w, f, act, p);
  }

  lemma LocalInv(w: World, f: State, act: Act, p: Instance)
    requires Monotone(w) && Inv(w, f) && p in f.procs && ProcEnabled(w, f, act, p)
    ensures Inv(w, f.(procs := f.procs[p := ProcDo(w, f, act, p)]))
  {
    hide ProcOk, ThreadOk, CountsOk, LogOk, Coupled;
    LocalProc(w, f, act, p);
    ExtendsInv(w, f, p, ProcDo(w, f, act, p));
  }
}
