/** Request threads keep the fleet invariant, and serve only what the store still names. */
module FleetRequest {
  import opened Tables
  import opened Transactions
  import opened Automaton
  import opened Local
  import opened Fleet
  import opened FleetInvariant

  // ------------------------------------------------------------------
  // The fence itself.

  /** An advance made after the epoch ended is past the pause bound, unless its gate is withdrawn. */
  lemma LateAdvanceLapses(w: World, f: State, tid: Tid)
    requires Well(f, tid) && f.threads[tid].guard.Armed?
    requires GuardOk(w, f.now, f.log, f.threads[tid], f.procs[f.threads[tid].proc])
    requires GatesOk(w, f.now, f.store, f.threads[tid].proc, f.procs[f.threads[tid].proc])
    requires !Names(f.store.slots, f.threads[tid].proc, f.threads[tid].gate)
    ensures || !Timed(w)
            || !f.procs[f.threads[tid].proc].Serving(f.threads[tid].gate)
            || Lapsed(w, f.now, f.threads[tid].proc, f.threads[tid].guard.started)
  {
    var t := f.threads[tid];
    var proc := f.procs[t.proc];
    if proc.Serving(t.gate) {
      assert t.gate == GateId(t.gate.slot, t.gate.epoch);
      assert Watch(w, f.now, f.store, t.proc, proc.granted, t.gate, proc.revision);
    }
  }

  /** The post-check's read of an open flag rules the withdrawn gate out. */
  lemma OpenMeansHeld(w: World, f: State, tid: Tid)
    requires Well(f, tid) && f.threads[tid].guard.Bounded?
    requires GuardOk(w, f.now, f.log, f.threads[tid], f.procs[f.threads[tid].proc])
    requires BoxesOk(f.store, f.threads[tid].proc, f.procs[f.threads[tid].proc])
    requires !f.procs[f.threads[tid].proc].boxes[f.threads[tid].gate].draining
    ensures Timed(w) ==> f.log[f.threads[tid].guard.at].held
  {
  }

  lemma GuardStep(w: World, f: State, access: Access, tid: Tid)
    requires Monotone(w)
    requires Well(f, tid) && ThreadEnabled(w, f, access, tid)
    requires f.threads[tid].guard != Outside
    requires GuardOk(w, f.now, f.log, f.threads[tid], f.procs[f.threads[tid].proc])
    requires ClockOk(w, f.now, f.store, f.threads[tid].proc, f.procs[f.threads[tid].proc])
    requires GatesOk(w, f.now, f.store, f.threads[tid].proc, f.procs[f.threads[tid].proc])
    requires BoxesOk(f.store, f.threads[tid].proc, f.procs[f.threads[tid].proc])
    ensures GuardOk(w, f.now, ThreadDo(w, f, access, tid).log, ThreadDo(w, f, access, tid).threads[tid],
                    f.procs[f.threads[tid].proc])
  {
    match access
    case Advance =>
      if !Names(f.store.slots, f.threads[tid].proc, f.threads[tid].gate) {
        LateAdvanceLapses(w, f, tid);
      }
    case Recheck => OpenMeansHeld(w, f, tid);
    case _ =>
  }

  // ------------------------------------------------------------------
  // Counters.

  lemma RidersIn(threads: map<Tid, Thread>, tid: Tid, t: Thread)
    requires tid !in threads || threads[tid].guard == Outside
    requires t.guard != Outside
    ensures Riders(threads[tid := t], t.proc, t.gate) == Riders(threads, t.proc, t.gate) + {tid}
    ensures tid !in Riders(threads, t.proc, t.gate)
    ensures forall p, g | p != t.proc || g != t.gate :: Riders(threads[tid := t], p, g) == Riders(threads, p, g)
  {
  }

  lemma RidersOut(threads: map<Tid, Thread>, tid: Tid)
    requires tid in threads && threads[tid].guard != Outside
    ensures var t := threads[tid];
            var after := threads[tid := t.(guard := Outside)];
            && Riders(after, t.proc, t.gate) == Riders(threads, t.proc, t.gate) - {tid}
            && tid in Riders(threads, t.proc, t.gate)
            && forall p, g | p != t.proc || g != t.gate :: Riders(after, p, g) == Riders(threads, p, g)
  {
  }

  lemma RidersSame(threads: map<Tid, Thread>, tid: Tid, guard: Guard)
    requires tid in threads && threads[tid].guard != Outside && guard != Outside
    ensures forall p, g :: Riders(threads[tid := threads[tid].(guard := guard)], p, g) == Riders(threads, p, g)
  {
  }

  lemma InflightProc(w: World, now: int, st: Store, p: Instance, proc: Proc, g: GateId, n: nat)
    requires ProcOk(w, now, st, p, proc) && g in proc.boxes
    requires proc.Serving(g) || n <= proc.boxes[g].inflight
    ensures ProcOk(w, now, st, p, SetInflight(proc, g, n))
  {
    var q := SetInflight(proc, g, n);
    assert AcksOk(st, p, q) by {
      forall s | s in st.slots && s in st.handoffs && st.handoffs[s].phase == Drain
                 && st.handoffs[s].source == p && st.handoffs[s].drained
        ensures Quiesced(q, GateId(s, st.handoffs[s].sourceEpoch))
      {
        assert Quiesced(proc, GateId(s, st.handoffs[s].sourceEpoch));
      }
    }
    InflightGates(w, now, st, p, proc, g, n);
  }

  lemma InflightGates(w: World, now: int, st: Store, p: Instance, proc: Proc, g: GateId, n: nat)
    requires GatesOk(w, now, st, p, proc) && BoxesOk(st, p, proc) && ShutdownOk(proc) && SnapshotOk(w, now, st, p, proc)
    requires g in proc.boxes
    ensures var q := SetInflight(proc, g, n);
            GatesOk(w, now, st, p, q) && BoxesOk(st, p, q) && ShutdownOk(q) && SnapshotOk(w, now, st, p, q)
  {
  }

  /** Another thread's facts survive a counter change and a longer log. */
  lemma OtherThread(
    w: World, now: int, log: seq<Entry>, log': seq<Entry>, procs: map<Instance, Proc>, p: Instance, g: GateId, n: nat,
    t: Thread)
    requires p in procs && g in procs[p].boxes
    requires log <= log'
    requires ThreadOk(w, now, log, procs, t)
    ensures ThreadOk(w, now, log', procs[p := SetInflight(procs[p], g, n)], t)
    ensures ThreadOk(w, now, log', procs, t)
  {
  }

  lemma OtherThreads(w: World, f: State, f': State, tid: Tid, p: Instance, g: GateId, n: nat)
    requires p in f.procs && g in f.procs[p].boxes
    requires f'.now == f.now && f.log <= f'.log
    requires f'.procs == f.procs || f'.procs == f.procs[p := SetInflight(f.procs[p], g, n)]
    requires tid in f'.threads && f'.threads == f.threads[tid := f'.threads[tid]]
    requires forall other | other in f.threads :: ThreadOk(w, f.now, f.log, f.procs, f.threads[other])
    requires ThreadOk(w, f.now, f'.log, f'.procs, f'.threads[tid])
    ensures forall other | other in f'.threads :: ThreadOk(w, f.now, f'.log, f'.procs, f'.threads[other])
  {
    forall other | other in f'.threads ensures ThreadOk(w, f.now, f'.log, f'.procs, f'.threads[other]) {
      if other != tid {
        OtherThread(w, f.now, f.log, f'.log, f.procs, p, g, n, f.threads[other]);
      }
    }
  }

  lemma Assemble(w: World, f: State, f': State, p: Instance)
    requires Inv(w, f) && p in f.procs
    requires f'.now == f.now && f'.store == f.store
    requires p in f'.procs && f'.procs == f.procs[p := f'.procs[p]]
    requires ProcOk(w, f.now, f.store, p, f'.procs[p])
    requires forall tid | tid in f'.threads :: ThreadOk(w, f.now, f'.log, f'.procs, f'.threads[tid])
    requires CountsOk(f') && LogOk(w, f.store.slots, f'.log, f'.served)
    ensures Inv(w, f')
  {
    hide ProcOk, ThreadOk, CountsOk, LogOk, Coupled;
  }

  // ------------------------------------------------------------------
  // The three steps that move a counter.

  lemma EnterCounts(f: State, tid: Tid, p: Instance, g: GateId)
    requires CountsOk(f)
    requires tid !in f.threads || f.threads[tid].guard == Outside
    requires p in f.procs && g in f.procs[p].boxes
    ensures CountsOk(Entered(f, tid, p, g))
  {
    var f' := Entered(f, tid, p, g);
    RidersIn(f.threads, tid, Thread(p, g, Entering));
    forall q, h | q in f'.procs && h in f'.procs[q].boxes
      ensures f'.procs[q].boxes[h].inflight == |Riders(f'.threads, q, h)|
    {
      assert q in f.procs && h in f.procs[q].boxes;
      assert f.procs[q].boxes[h].inflight == |Riders(f.threads, q, h)|;
    }
  }

  lemma EnterInv(w: World, f: State, tid: Tid, p: Instance, s: Slot)
    requires Inv(w, f) && Enabled(w, f, Enter(tid, p, s))
    ensures Inv(w, Do(w, f, Enter(tid, p, s)))
  {
    hide ProcOk, CountsOk, LogOk, Coupled;
    var g := GateId(s, f.procs[p].gates[s]);
    var f' := Entered(f, tid, p, g);
    InflightProc(w, f.now, f.store, p, f.procs[p], g, f.procs[p].boxes[g].inflight + 1);
    EnterCounts(f, tid, p, g);
    OtherThreads(w, f, f', tid, p, g, f.procs[p].boxes[g].inflight + 1);
    Assemble(w, f, f', p);
  }

  lemma ExitCounts(f: State, tid: Tid)
    requires CountsOk(f) && Well(f, tid) && f.threads[tid].guard != Outside
    requires f.procs[f.threads[tid].proc].boxes[f.threads[tid].gate].inflight > 0
    ensures CountsOk(Exited(f, tid))
  {
    var f' := Exited(f, tid);
    RidersOut(f.threads, tid);
    forall q, h | q in f'.procs && h in f'.procs[q].boxes
      ensures f'.procs[q].boxes[h].inflight == |Riders(f'.threads, q, h)|
    {
      assert q in f.procs && h in f.procs[q].boxes;
      assert f.procs[q].boxes[h].inflight == |Riders(f.threads, q, h)|;
    }
  }

  function Exited(f: State, tid: Tid): State
    requires Well(f, tid) && f.procs[f.threads[tid].proc].boxes[f.threads[tid].gate].inflight > 0
  {
    var t := f.threads[tid];
    var p := f.procs[t.proc];
    f.(threads := f.threads[tid := t.(guard := Outside)],
       procs := f.procs[t.proc := SetInflight(p, t.gate, p.boxes[t.gate].inflight - 1)])
  }

  lemma ExitDo(w: World, f: State, access: Access, tid: Tid)
    requires Well(f, tid) && ThreadEnabled(w, f, access, tid)
    requires access == Leave || access == Bounce
    ensures f.threads[tid].guard != Outside
    ensures f.procs[f.threads[tid].proc].boxes[f.threads[tid].gate].inflight > 0
    ensures ThreadDo(w, f, access, tid) == Exited(f, tid)
  {
  }

  lemma ExitInv(w: World, f: State, tid: Tid)
    requires Inv(w, f) && Well(f, tid) && f.threads[tid].guard != Outside
    requires f.procs[f.threads[tid].proc].boxes[f.threads[tid].gate].inflight > 0
    ensures Inv(w, Exited(f, tid))
  {
    hide CountsOk, LogOk, Coupled;
    var t := f.threads[tid];
    var n := f.procs[t.proc].boxes[t.gate].inflight - 1;
    InflightProc(w, f.now, f.store, t.proc, f.procs[t.proc], t.gate, n);
    ExitCounts(f, tid);
    OtherThreads(w, f, Exited(f, tid), tid, t.proc, t.gate, n);
    Assemble(w, f, Exited(f, tid), t.proc);
  }

  // ------------------------------------------------------------------
  // Every other access.

  lemma AdvanceLog(w: World, slots: map<Slot, Row>, log: seq<Entry>, served: set<nat>, p: Instance, g: GateId)
    requires LogOk(w, slots, log, served)
    ensures LogOk(w, slots, log + [Entry(p, g, Names(slots, p, g))], served)
  {
    var log' := log + [Entry(p, g, Names(slots, p, g))];
    forall i, j | 0 <= i < j < |log'| && log'[i].held && log'[j].held && log'[i].gate.slot == log'[j].gate.slot
      ensures log'[i].gate.epoch <= log'[j].gate.epoch
      ensures log'[i].gate.epoch == log'[j].gate.epoch ==> log'[i].proc == log'[j].proc
    {
      assert log'[i] == log[i];
      if j == |log| {
        assert Past(slots, log[i].proc, log[i].gate);
      } else {
        assert log'[j] == log[j];
      }
    }
  }

  lemma AccessLog(w: World, f: State, access: Access, tid: Tid)
    requires LogOk(w, f.store.slots, f.log, f.served)
    requires Well(f, tid) && ThreadEnabled(w, f, access, tid)
    requires f.threads[tid].guard.Cleared? ==>
               f.threads[tid].guard.at < |f.log| && (Timed(w) ==> f.log[f.threads[tid].guard.at].held)
    ensures LogOk(w, f.store.slots, ThreadDo(w, f, access, tid).log, ThreadDo(w, f, access, tid).served)
    ensures f.log <= ThreadDo(w, f, access, tid).log
  {
    if access == Advance {
      AdvanceLog(w, f.store.slots, f.log, f.served, f.threads[tid].proc, f.threads[tid].gate);
    }
  }

  lemma AccessThread(w: World, f: State, access: Access, tid: Tid)
    requires Monotone(w)
    requires Well(f, tid) && ThreadEnabled(w, f, access, tid)
    requires f.threads[tid].guard != Outside
    requires access != Leave && access != Bounce
    requires ThreadOk(w, f.now, f.log, f.procs, f.threads[tid])
    requires ProcOk(w, f.now, f.store, f.threads[tid].proc, f.procs[f.threads[tid].proc])
    requires LogOk(w, f.store.slots, f.log, f.served)
    ensures var f' := ThreadDo(w, f, access, tid);
            && ThreadOk(w, f.now, f'.log, f'.procs, f'.threads[tid])
            && LogOk(w, f.store.slots, f'.log, f'.served)
            && f.log <= f'.log
            && f'.threads[tid].guard != Outside
  {
    GuardStep(w, f, access, tid);
    AccessLog(w, f, access, tid);
  }

  lemma AccessCounts(w: World, f: State, access: Access, tid: Tid)
    requires CountsOk(f) && Well(f, tid) && ThreadEnabled(w, f, access, tid)
    requires f.threads[tid].guard != Outside
    requires access != Leave && access != Bounce
    ensures CountsOk(ThreadDo(w, f, access, tid))
  {
    var f' := ThreadDo(w, f, access, tid);
    RidersSame(f.threads, tid, f'.threads[tid].guard);
    forall p, g | p in f'.procs && g in f'.procs[p].boxes
      ensures f'.procs[p].boxes[g].inflight == |Riders(f'.threads, p, g)|
    {
      assert f.procs[p].boxes[g].inflight == |Riders(f.threads, p, g)|;
    }
  }

  lemma AccessFrame(w: World, f: State, access: Access, tid: Tid)
    requires Well(f, tid) && ThreadEnabled(w, f, access, tid)
    requires access != Leave && access != Bounce
    ensures var f' := ThreadDo(w, f, access, tid);
            && f'.now == f.now && f'.store == f.store && f'.procs == f.procs
            && tid in f'.threads && f'.threads == f.threads[tid := f'.threads[tid]]
            && f.threads[tid].guard != Outside
  {
  }

  lemma AccessInv(w: World, f: State, access: Access, tid: Tid)
    requires Monotone(w)
    requires Inv(w, f) && Well(f, tid) && ThreadEnabled(w, f, access, tid)
    requires access != Leave && access != Bounce
    ensures Inv(w, ThreadDo(w, f, access, tid))
  {
    AccessFrame(w, f, access, tid);
    AccessThread(w, f, access, tid);
    AccessCounts(w, f, access, tid);
    AccessAssemble(w, f, ThreadDo(w, f, access, tid), tid);
  }

  lemma AccessAssemble(w: World, f: State, f': State, tid: Tid)
    requires Inv(w, f) && Well(f, tid)
    requires f'.now == f.now && f'.store == f.store && f'.procs == f.procs
    requires tid in f'.threads && f'.threads == f.threads[tid := f'.threads[tid]]
    requires ThreadOk(w, f.now, f'.log, f'.procs, f'.threads[tid])
    requires f.log <= f'.log
    requires CountsOk(f') && LogOk(w, f.store.slots, f'.log, f'.served)
    ensures Inv(w, f')
  {
    hide ProcOk, ThreadOk, CountsOk, LogOk, Coupled;
    var t := f.threads[tid];
    OtherThreads(w, f, f', tid, t.proc, t.gate, 0);
    Assemble(w, f, f', t.proc);
  }

  lemma RequestInv(w: World, f: State, access: Access, tid: Tid)
    requires Monotone(w)
    requires Inv(w, f) && Well(f, tid) && ThreadEnabled(w, f, access, tid)
    ensures Inv(w, ThreadDo(w, f, access, tid))
  {
    if access == Leave || access == Bounce {
      ExitDo(w, f, access, tid);
      ExitInv(w, f, tid);
    } else {
      AccessInv(w, f, access, tid);
    }
  }
}
