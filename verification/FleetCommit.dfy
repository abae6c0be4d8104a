/** Store transactions keep the fleet invariant. */
module FleetCommit {
  import opened Tables
  import opened Transactions
  import opened Automaton
  import opened Local
  import opened Fleet
  import opened FleetInvariant

  function Stamped(proc: Proc, clocked: bool, now: int): Proc {
    if clocked then proc.(granted := now, op := if proc.op.Sent? then Sent(proc.op.anchor, true) else proc.op)
    else proc
  }

  /** What the commit did to `p`'s own lease row. */
  ghost predicate LeaseEffect(st: Store, t: Txn, now: int, st': Store, p: Instance, clocked: bool) {
    && (clocked ==>
          && p in st'.leases
          && st'.leases[p].grantedAt == now
          && (|| (t.RegisterTxn? && t.id == p && p !in st.leases && st'.leases[p].revision == 0)
              || (t.RenewTxn? && t.id == p && p in st.leases && st.leases[p].revision == t.revision
                  && st'.leases[p].revision == t.revision))
          && st'.slots == st.slots)
    && (!clocked && p in st'.leases ==>
          && p in st.leases
          && st'.leases[p].grantedAt == st.leases[p].grantedAt
          && st.leases[p].revision <= st'.leases[p].revision)
  }

  lemma LeaseEffects(st: Store, t: Txn, quiet: int, now: int, p: Instance)
    requires Facts(st, t, quiet, now, After(st, t, now))
    ensures LeaseEffect(st, t, now, After(st, t, now), p, Clocked(st, t, now) == Some(p))
  {
    assert LeaseMoves(st, t, now, After(st, t, now), p);
  }

  /** How the process restrains what is sent in its name. */
  ghost predicate Restrained(st: Store, t: Txn, p: Instance, proc: Proc) {
    && (t.RegisterTxn? && t.id == p && (proc.initialized || proc.op != Idle) ==> p in st.leases)
    && (t.RenewTxn? && t.id == p ==> t.revision <= proc.revision)
    && (forall s, e | Acks(t, p, s, e) :: Drained(proc, GateId(s, e)))
  }

  lemma ClockCommit(w: World, now: int, st: Store, t: Txn, st': Store, p: Instance, proc: Proc, clocked: bool)
    requires Monotone(w)
    requires LeaseEffect(st, t, w.clock(now), st', p, clocked) && Restrained(st, t, p, proc)
    requires ClockOk(w, now, st, p, proc) && RenewalOk(w, now, p, proc)
    requires !proc.initialized ==> proc.revision == 0
    ensures ClockOk(w, now, st', p, Stamped(proc, clocked, now))
    ensures RenewalOk(w, now, p, Stamped(proc, clocked, now))
  {
    assert w.mono(p, proc.granted) <= w.mono(p, now);
  }

  /** A gate the process may still serve under is not one it has acknowledged. */
  lemma NotAcked(t: Txn, p: Instance, proc: Proc, g: GateId)
    requires ShutdownOk(proc)
    requires forall s, e | Acks(t, p, s, e) :: Drained(proc, GateId(s, e))
    requires proc.Serving(g) || (g !in proc.boxes && !proc.stopping)
    ensures !Acks(t, p, g.slot, g.epoch)
  {
    assert g == GateId(g.slot, g.epoch);
    assert !Drained(proc, g);
  }

  lemma GateCommit(
    w: World, now: int, st: Store, t: Txn, st': Store, p: Instance, proc: Proc, clocked: bool,
    g: GateId, revision: nat)
    requires Monotone(w)
    requires Coupled(st) && Facts(st, t, w.ha.quiet, w.clock(now), st')
    requires LeaseEffect(st, t, w.clock(now), st', p, clocked) && Restrained(st, t, p, proc)
    requires ClockOk(w, now, st, p, proc)
    requires Watch(w, now, st, p, proc.granted, g, revision)
    requires proc.revision <= revision && (p in st.leases ==> revision <= st.leases[p].revision)
    requires proc.initialized || proc.op != Idle
    requires !Acks(t, p, g.slot, g.epoch)
    ensures Watch(w, now, st', p, Stamped(proc, clocked, now).granted, g, revision)
  {
    WatchCommit(w, now, st, t, st', p, proc.granted, Stamped(proc, clocked, now).granted, g, revision);
  }

  lemma GatesCommit(w: World, now: int, st: Store, t: Txn, st': Store, p: Instance, proc: Proc, clocked: bool)
    requires Monotone(w)
    requires Coupled(st) && Facts(st, t, w.ha.quiet, w.clock(now), st')
    requires LeaseEffect(st, t, w.clock(now), st', p, clocked) && Restrained(st, t, p, proc)
    requires ClockOk(w, now, st, p, proc) && ShutdownOk(proc)
    requires GatesOk(w, now, st, p, proc)
    ensures GatesOk(w, now, st', p, Stamped(proc, clocked, now))
  {
    forall s | s in proc.gates
      ensures Watch(w, now, st', p, Stamped(proc, clocked, now).granted, GateId(s, proc.gates[s]), proc.revision)
    {
      NotAcked(t, p, proc, GateId(s, proc.gates[s]));
      GateCommit(w, now, st, t, st', p, proc, clocked, GateId(s, proc.gates[s]), proc.revision);
    }
  }

  lemma SnapshotCommit(w: World, now: int, st: Store, t: Txn, st': Store, p: Instance, proc: Proc, clocked: bool)
    requires Monotone(w)
    requires Coupled(st) && Facts(st, t, w.ha.quiet, w.clock(now), st')
    requires LeaseEffect(st, t, w.clock(now), st', p, clocked) && Restrained(st, t, p, proc)
    requires ClockOk(w, now, st, p, proc) && ShutdownOk(proc)
    requires GatesOk(w, now, st, p, proc)
    requires SnapshotOk(w, now, st, p, proc)
    ensures SnapshotOk(w, now, st', p, Stamped(proc, clocked, now))
  {
    if proc.op.Snapshot? {
      var revision, view := proc.op.revision, proc.op.view;
      if !proc.stopping {
        forall s | s in view && view[s].state == Owned
          ensures Watch(w, now, st', p, Stamped(proc, clocked, now).granted, GateId(s, view[s].epoch), revision)
        {
          NotAcked(t, p, proc, GateId(s, view[s].epoch));
          GateCommit(w, now, st, t, st', p, proc, clocked, GateId(s, view[s].epoch), revision);
        }
        forall s | s in proc.gates && !Confirms(view, s, proc.gates[s])
          ensures !OwnedBy(st'.slots, p, GateId(s, proc.gates[s]))
        {
          PastStep(st, t, w.ha.quiet, w.clock(now), st', p, GateId(s, proc.gates[s]));
        }
      }
    }
  }

  lemma BoxesCommit(w: World, now: int, st: Store, t: Txn, st': Store, p: Instance, proc: Proc, clocked: bool)
    requires Monotone(w)
    requires Coupled(st) && Facts(st, t, w.ha.quiet, w.clock(now), st')
    requires LeaseEffect(st, t, w.clock(now), st', p, clocked) && Restrained(st, t, p, proc)
    requires BoxesOk(st, p, proc)
    ensures BoxesOk(st', p, Stamped(proc, clocked, now))
  {
    forall g | g in proc.boxes
      ensures Past(st'.slots, p, g)
      ensures OwnedBy(st'.slots, p, g) ==> OwnedBy(st.slots, p, g)
    {
      PastStep(st, t, w.ha.quiet, w.clock(now), st', p, g);
    }
  }

  /** An acknowledgement on record was there before, or is the process's own and true. */
  lemma AckCommit(
    leases: map<Instance, Lease>, t: Txn, s: Slot, quiet: int, now: int,
    r: Row, h: Option<Handoff>, r': Row, h': Handoff)
    requires PairOk(r, h) && PairOk(r', Some(h'))
    requires SlotStep(leases, t, s, quiet, now, r, h, r', Some(h'))
    requires h'.phase == Drain && h'.drained
    ensures || Acks(t, h'.source, s, h'.sourceEpoch)
            || (h.Some? && h.value.phase == Drain && h.value.drained
                && h.value.source == h'.source && h.value.sourceEpoch == h'.sourceEpoch)
  {
  }

  lemma AckSlot(st: Store, t: Txn, quiet: int, now: int, st': Store, s: Slot)
    requires Coupled(st) && Coupled(st') && SlotsStep(st, t, quiet, now, st')
    requires s in st'.slots && s in st'.handoffs && st'.handoffs[s].phase == Drain && st'.handoffs[s].drained
    ensures var h' := st'.handoffs[s];
            || Acks(t, h'.source, s, h'.sourceEpoch)
            || (s in st.slots && s in st.handoffs && st.handoffs[s].phase == Drain && st.handoffs[s].drained
                && st.handoffs[s].source == h'.source && st.handoffs[s].sourceEpoch == h'.sourceEpoch)
  {
    AckCommit(st.leases, t, s, quiet, now, st.slots[s], IntentOf(st.handoffs, s), st'.slots[s], st'.handoffs[s]);
  }

  lemma AcksCommit(w: World, now: int, st: Store, t: Txn, st': Store, p: Instance, proc: Proc, clocked: bool)
    requires Coupled(st) && Coupled(st') && SlotsStep(st, t, w.ha.quiet, w.clock(now), st')
    requires forall s, e | Acks(t, p, s, e) :: Drained(proc, GateId(s, e))
    requires ShutdownOk(proc) && AcksOk(st, p, proc)
    ensures AcksOk(st', p, Stamped(proc, clocked, now))
  {
    hide SlotStep, PairOk;
    forall s | s in st'.slots && s in st'.handoffs && st'.handoffs[s].phase == Drain
               && st'.handoffs[s].source == p && st'.handoffs[s].drained
      ensures Quiesced(Stamped(proc, clocked, now), GateId(s, st'.handoffs[s].sourceEpoch))
    {
      AckSlot(st, t, w.ha.quiet, w.clock(now), st', s);
      AckedQuiet(t, p, proc, GateId(s, st'.handoffs[s].sourceEpoch));
    }
  }

  /** What a process acknowledges is so: the gate is withdrawn and empty, or was never built. */
  lemma AckedQuiet(t: Txn, p: Instance, proc: Proc, g: GateId)
    requires forall s, e | Acks(t, p, s, e) :: Drained(proc, GateId(s, e))
    requires ShutdownOk(proc)
    ensures Acks(t, p, g.slot, g.epoch) ==> Quiesced(proc, g)
  {
    assert g == GateId(g.slot, g.epoch);
  }

  lemma ProcCommit(w: World, now: int, st: Store, t: Txn, st': Store, p: Instance, proc: Proc, clocked: bool)
    requires Monotone(w)
    requires Coupled(st) && Facts(st, t, w.ha.quiet, w.clock(now), st')
    requires LeaseEffect(st, t, w.clock(now), st', p, clocked) && Restrained(st, t, p, proc)
    requires ProcOk(w, now, st, p, proc)
    ensures ProcOk(w, now, st', p, Stamped(proc, clocked, now))
  {
    hide SnapshotOk, BoxesOk, AcksOk, LeaseStep, RevisionStep, CollectStep, Coupled;
    ClockCommit(w, now, st, t, st', p, proc, clocked);
    GatesCommit(w, now, st, t, st', p, proc, clocked);
    SnapshotCommit(w, now, st, t, st', p, proc, clocked);
    BoxesCommit(w, now, st, t, st', p, proc, clocked);
    AcksCommit(w, now, st, t, st', p, proc, clocked);
  }

  lemma SentAcks(f: State, t: Txn, p: Instance)
    requires Sendable(f, t) && p in f.procs
    ensures forall s, e | Acks(t, p, s, e) :: Drained(f.procs[p], GateId(s, e))
  {
    forall s, e | Acks(t, p, s, e) ensures Drained(f.procs[p], GateId(s, e)) {
      var c :| c in t.request.commands && c.slot == s && c.intent.sourceEpoch == e
               && (c.action == AckDrainCmd || (c.action == WithdrawCmd && c.intent.drained));
    }
  }

  lemma LogCommit(w: World, st: Store, t: Txn, quiet: int, now: int, st': Store, log: seq<Entry>, served: set<nat>)
    requires Facts(st, t, quiet, now, st')
    requires LogOk(w, st.slots, log, served)
    ensures LogOk(w, st'.slots, log, served)
  {
    forall i | 0 <= i < |log| && log[i].held ensures Past(st'.slots, log[i].proc, log[i].gate) {
      PastStep(st, t, quiet, now, st', log[i].proc, log[i].gate);
    }
  }

  lemma ThreadsCommit(w: World, f: State, t: Txn)
    requires Monotone(w) && Inv(w, f)
    ensures forall tid | tid in f.threads ::
              ThreadOk(w, f.now, f.log, Committed(w, f, t).procs, f.threads[tid])
  {
    hide RenewalOk, SnapshotOk, GatesOk, BoxesOk, ShutdownOk, AcksOk, CountsOk, LogOk, Coupled, After;
    forall tid | tid in f.threads
      ensures ThreadOk(w, f.now, f.log, Committed(w, f, t).procs, f.threads[tid])
    {
      var th := f.threads[tid];
      if th.guard != Outside {
        assert w.mono(th.proc, f.procs[th.proc].granted) <= w.mono(th.proc, f.now);
      }
    }
  }

  lemma ProcsCommit(w: World, f: State, t: Txn, p: Instance)
    requires Monotone(w)
    requires WellFormed(t, w.ha.quiet) && Sendable(f, t)
    requires Coupled(f.store)
    requires p in f.procs && ProcOk(w, f.now, f.store, p, f.procs[p])
    requires Facts(f.store, t, w.ha.quiet, w.clock(f.now), After(f.store, t, w.clock(f.now)))
    ensures p in Committed(w, f, t).procs
    ensures ProcOk(w, f.now, After(f.store, t, w.clock(f.now)), p, Committed(w, f, t).procs[p])
  {
    var now := w.clock(f.now);
    var clocked := Clocked(f.store, t, now) == Some(p);
    SentAcks(f, t, p);
    LeaseEffects(f.store, t, w.ha.quiet, now, p);
    assert Committed(w, f, t).procs[p] == Stamped(f.procs[p], clocked, f.now);
    ProcCommit(w, f.now, f.store, t, After(f.store, t, now), p, f.procs[p], clocked);
  }

  lemma CountsCommit(w: World, f: State, t: Txn)
    requires CountsOk(f)
    ensures CountsOk(Committed(w, f, t))
  {
  }

  lemma CommitInv(w: World, f: State, t: Txn)
    requires Monotone(w) && Inv(w, f)
    requires WellFormed(t, w.ha.quiet) && Sendable(f, t)
    ensures Inv(w, Committed(w, f, t))
  {
    var f' := Committed(w, f, t);
    var now := w.clock(f.now);
    EveryTransaction(f.store, t, w.ha.quiet, now);
    forall p | p in f'.procs ensures ProcOk(w, f.now, f'.store, p, f'.procs[p]) {
      ProcsCommit(w, f, t, p);
    }
    forall p | p in f'.store.leases ensures p in f'.procs {
      assert LeaseMoves(f.store, t, now, f'.store, p);
    }
    ThreadsCommit(w, f, t);
    LogCommit(w, f.store, t, w.ha.quiet, now, f'.store, f.log, f.served);
    CountsCommit(w, f, t);
  }
}
