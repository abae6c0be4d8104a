/** Revisions over whole runs of the fleet: a revision names one view, with no clock assumed.

An identity is registered only until its process has applied its first snapshot, and
a process claims, hands off and so comes to own slots only after that. A collected
lease is therefore never registered anew for a process that has owned anything.
*/
module RevisionRuns {
  import opened Tables
  import opened Transactions
  import opened Automaton
  import opened Local
  import opened Fleet
  import opened FleetRuns
  import T = Transactions

  // ------------------------------------------------------------------
  // An instance that owns nothing and asks for nothing.

  predicate OwnsNothing(slots: map<Slot, Row>, p: Instance) {
    forall s | s in slots :: slots[s].owner != Some(p)
  }

  /** The transaction is not one by which `p` could come to own a slot, nor its retirement. */
  predicate NotBy(t: Txn, p: Instance) {
    && (t.ClaimTxn? ==> t.claim.instance != p)
    && (t.ApplyTxn? ==> t.request.instance != p)
    && (t.RetireTxn? ==> t.id != p)
  }

  /** Nothing happens to a bystander: no slot, and no revision unless its lease row is new. */
  ghost predicate Spared(st: Store, st': Store, p: Instance) {
    && OwnsNothing(st'.slots, p)
    && (p in st.leases && p in st'.leases ==> st'.leases[p].revision == st.leases[p].revision)
    && (p !in st.leases && p in st'.leases ==> st'.leases[p].revision == 0)
  }

  predicate Uninvolved(w: Work, p: Instance) {
    p !in w.bumped && OwnsNothing(w.rows, p)
  }

  lemma CommandSpares(st: Store, req: Request, w: Work, c: Command, now: int, p: Instance)
    requires OwnsNothing(st.slots, p) && req.instance != p && Uninvolved(w, p)
    ensures T.Step(st, req, w, c, now).Ok? ==> Uninvolved(T.Step(st, req, w, c, now).value, p)
  {
  }

  lemma {:induction false} CommandsSpare(
    st: Store, req: Request, w: Work, commands: seq<Command>, now: int, p: Instance)
    requires OwnsNothing(st.slots, p) && req.instance != p && Uninvolved(w, p)
    ensures Steps(st, req, w, commands, now).Ok? ==> Uninvolved(Steps(st, req, w, commands, now).value, p)
  {
    if commands != [] {
      var front := commands[..|commands| - 1];
      CommandsSpare(st, req, w, front, now, p);
      if Steps(st, req, w, front, now).Ok? {
        CommandSpares(st, req, Steps(st, req, w, front, now).value, commands[|commands| - 1], now, p);
      }
      hide T.Step, Uninvolved;
    }
  }

  lemma {:induction false} ApplySpares(st: Store, t: Txn, now: int, p: Instance)
    requires OwnsNothing(st.slots, p) && t.ApplyTxn? && NotBy(t, p)
    ensures Spared(st, After(st, t, now), p)
  {
    CommandsSpare(st, t.request, Counted(st.handoffs), t.request.commands, now, p);
    hide Steps;
  }

  lemma {:induction false} ClaimSpares(st: Store, t: Txn, now: int, p: Instance)
    requires OwnsNothing(st.slots, p) && t.ClaimTxn? && NotBy(t, p)
    ensures Spared(st, After(st, t, now), p)
  {
    hide Undiscovered, Grantable, Distinct;
  }

  lemma {:induction false} MendsSpare(
    st: Store, nodes: seq<Instance>, ha: HA, mint: Slot -> Id, cs: seq<Candidate>, now: int, p: Instance)
    requires OwnsNothing(st.slots, p)
    ensures p !in Mends(st, nodes, ha, mint, cs, now).revised
  {
    if cs != [] {
      MendsSpare(st, nodes, ha, mint, cs[..|cs| - 1], now, p);
      var c := cs[|cs| - 1];
      assert Mend(st, nodes, ha, mint, c, now).Free? ==> Mend(st, nodes, ha, mint, c, now).intent.source != p;
    }
  }

  lemma {:induction false} RecoverSpares(st: Store, t: Txn, now: int, p: Instance)
    requires OwnsNothing(st.slots, p) && t.RecoverTxn?
    ensures Spared(st, After(st, t, now), p)
  {
    MendsSpare(st, t.nodes, t.ha, t.mint, t.candidates, now, p);
    hide Mends;
  }

  lemma {:induction false} RestSpares(st: Store, t: Txn, now: int, p: Instance)
    requires OwnsNothing(st.slots, p) && NotBy(t, p) && !t.ApplyTxn? && !t.ClaimTxn? && !t.RecoverTxn?
    ensures Spared(st, After(st, t, now), p)
  {
  }

  lemma Spares(st: Store, t: Txn, now: int, p: Instance)
    requires OwnsNothing(st.slots, p) && NotBy(t, p)
    ensures Spared(st, After(st, t, now), p)
  {
    hide After, Spared, NotBy, OwnsNothing;
    match t
    case ApplyTxn(_) => ApplySpares(st, t, now, p);
    case ClaimTxn(_, _) => ClaimSpares(st, t, now, p);
    case RecoverTxn(_, _, _, _, _) => RecoverSpares(st, t, now, p);
    case _ => RestSpares(st, t, now, p);
  }

  // ------------------------------------------------------------------
  // What every run keeps, whatever its clocks.

  /** Until its first snapshot is applied an instance owns nothing, and its lease is as it was registered
      unless the process is already on its way out. */
  ghost predicate Newborn(f: State, p: Instance) {
    p in f.procs && !f.procs[p].initialized ==>
      && OwnsNothing(f.store.slots, p)
      && (p in f.store.leases && !f.procs[p].stopping ==> f.store.leases[p].revision == 0)
  }

  /** Revision 0 is the revision of owning nothing. */
  ghost predicate ZeroOwnsNothing(st: Store, p: Instance) {
    p in st.leases && st.leases[p].revision == 0 ==> OwnsNothing(st.slots, p)
  }

  ghost predicate Sound(f: State) {
    && Coupled(f.store)
    && (forall p | p in f.store.leases :: p in f.procs)
    && (forall p: Instance :: Newborn(f, p))
    && (forall p: Instance :: ZeroOwnsNothing(f.store, p))
  }

  lemma ZeroKept(st: Store, t: Txn, quiet: int, now: int, st': Store, p: Instance)
    requires Coupled(st) && Facts(st, t, quiet, now, st') && ZeroOwnsNothing(st, p)
    ensures ZeroOwnsNothing(st', p)
  {
    hide SlotsStep, Coupled;
    assert LeaseMoves(st, t, now, st', p);
    if p in st'.leases && st'.leases[p].revision == 0 {
      assert OwnsNothing(st.slots, p) by { Unleased(st, p); }
      assert View(st.slots, p) == map[];
      assert View(st'.slots, p) == View(st.slots, p);
      EmptyViewOwnsNothing(st'.slots, p);
    }
  }

  lemma Unleased(st: Store, p: Instance)
    requires Coupled(st)
    ensures p !in st.leases ==> OwnsNothing(st.slots, p)
  {
  }

  lemma EmptyViewOwnsNothing(slots: map<Slot, Row>, p: Instance)
    ensures View(slots, p) == map[] <==> OwnsNothing(slots, p)
  {
    forall s | s in slots && slots[s].owner == Some(p) ensures View(slots, p) != map[] {
      assert s in View(slots, p);
    }
  }

  lemma NewbornCommit(w: World, f: State, t: Txn, p: Instance)
    requires Sendable(f, t) && Newborn(f, p)
    ensures Newborn(Committed(w, f, t), p)
  {
    if p in f.procs && !f.procs[p].initialized {
      if t == RetireTxn(p) {
        RetireOwnsNothing(f.store, t, w.clock(f.now), p);
      } else {
        Spares(f.store, t, w.clock(f.now), p);
      }
    }
    hide After;
  }

  lemma RetireOwnsNothing(st: Store, t: Txn, now: int, p: Instance)
    requires t.RetireTxn? && OwnsNothing(st.slots, p)
    ensures OwnsNothing(After(st, t, now).slots, p)
  {
  }

  lemma SoundCommit(w: World, f: State, t: Txn)
    requires Sound(f) && Sendable(f, t) && WellFormed(t, w.ha.quiet)
    ensures Sound(Committed(w, f, t))
  {
    var f', now := Committed(w, f, t), w.clock(f.now);
    EveryTransaction(f.store, t, w.ha.quiet, now);
    hide After, Newborn, ZeroOwnsNothing, Coupled, SlotsStep;
    forall p: Instance ensures Newborn(f', p) {
      NewbornCommit(w, f, t, p);
    }
    forall p: Instance ensures ZeroOwnsNothing(f'.store, p) {
      ZeroKept(f.store, t, w.ha.quiet, now, f'.store, p);
    }
    forall p | p in f'.store.leases ensures p in f'.procs {
      assert LeaseMoves(f.store, t, now, f'.store, p);
    }
  }

  /** A process's own actions neither uninitialise it nor restart it. */
  lemma LocalLatches(w: World, f: State, act: Act, p: Instance)
    requires p in f.procs && ProcEnabled(w, f, act, p)
    ensures var q, q' := f.procs[p], ProcDo(w, f, act, p);
            && (q.initialized ==> q'.initialized) && (q.stopping ==> q'.stopping)
            && (q'.initialized && !q.initialized ==> !q.stopping)
  {
    hide Kept, Lost, Gained, Held, Close;
  }

  lemma StepLatches(w: World, f: State, step: Step, p: Instance)
    requires Enabled(w, f, step) && p in f.procs
    ensures p in Do(w, f, step).procs
    ensures var q, q' := f.procs[p], Do(w, f, step).procs[p];
            && (q.initialized ==> q'.initialized) && (q.stopping ==> q'.stopping)
            && (q'.initialized && !q.initialized ==> !q.stopping)
  {
    match step
    case Tick(_) =>
    case Commit(t) => hide After;
    case Local(q, act) =>
      if q == p {
        LocalLatches(w, f, act, p);
      }
    case Enter(_, _, _) =>
    case Request(_, _) =>
  }

  lemma StillStore(w: World, f: State, step: Step)
    requires Enabled(w, f, step) && !step.Commit?
    ensures Do(w, f, step).store == f.store && Do(w, f, step).procs.Keys == f.procs.Keys
  {
  }

  lemma SoundStep(w: World, f: State, step: Step)
    requires Sound(f) && Enabled(w, f, step)
    ensures Sound(Do(w, f, step))
  {
    if step.Commit? {
      SoundCommit(w, f, step.txn);
    } else {
      StillStore(w, f, step);
      forall p: Instance ensures Newborn(Do(w, f, step), p) {
        assert Newborn(f, p) && (p in f.procs <==> p in Do(w, f, step).procs);
        if p in f.procs {
          StepLatches(w, f, step, p);
        }
        hide Do, Enabled;
      }
      hide Do, Enabled;
    }
  }

  lemma {:induction false} RunSound(w: World, states: seq<State>, steps: seq<Step>, i: nat)
    requires IsRun(w, states, steps) && i < |states|
    ensures Sound(states[i])
  {
    if i == 0 {
      hide Do, Enabled;
    } else {
      RunStep(w, states, steps, i - 1);
      RunSound(w, states, steps, i - 1);
      hide Sound, IsRun, Do, Enabled;
      SoundStep(w, states[i - 1], steps[i - 1]);
    }
  }

  // ------------------------------------------------------------------
  // Between two moments of a run.

  /** What one step does to the lease and the rows of an instance. */
  lemma StepRevision(w: World, f: State, step: Step, p: Instance)
    requires Sound(f) && Enabled(w, f, step)
    ensures var f' := Do(w, f, step);
            && (p in f.store.leases && p in f'.store.leases ==>
                  && f.store.leases[p].revision <= f'.store.leases[p].revision
                  && (f.store.leases[p].revision == f'.store.leases[p].revision ==>
                        View(f.store.slots, p) == View(f'.store.slots, p)))
            && (p !in f.store.leases && p in f.procs && f.procs[p].initialized ==> p !in f'.store.leases)
  {
    if step.Commit? {
      var t, now := step.txn, w.clock(f.now);
      EveryTransaction(f.store, t, w.ha.quiet, now);
      hide After, View, Coupled, SlotsStep, Newborn, ZeroOwnsNothing;
      assert LeaseMoves(f.store, t, now, After(f.store, t, now), p);
    } else {
      StillStore(w, f, step);
      hide Do;
    }
  }

  lemma {:induction false} Latched(w: World, states: seq<State>, steps: seq<Step>, i: nat, j: nat, p: Instance)
    requires IsRun(w, states, steps) && i <= j < |states| && p in states[i].procs
    ensures p in states[j].procs
    ensures states[i].procs[p].initialized ==> states[j].procs[p].initialized
    ensures states[i].procs[p].stopping ==> states[j].procs[p].stopping
    ensures states[i].procs[p].stopping && !states[i].procs[p].initialized ==> !states[j].procs[p].initialized
    decreases j
  {
    hide Do, Enabled;
    if i < j {
      Latched(w, states, steps, i, j - 1, p);
      RunStep(w, states, steps, j - 1);
      hide IsRun;
      StepLatches(w, states[j - 1], steps[j - 1], p);
    }
  }

  /** Once initialised, an instance's lease row lives without a break until it is gone for good. */
  lemma {:induction false} LeaseStretch(
    w: World, states: seq<State>, steps: seq<Step>, i: nat, j: nat, p: Instance)
    requires IsRun(w, states, steps) && i <= j < |states|
    requires p in states[i].procs && states[i].procs[p].initialized
    requires p in states[i].store.leases
    ensures p in states[j].store.leases ==>
              && states[i].store.leases[p].revision <= states[j].store.leases[p].revision
              && (states[i].store.leases[p].revision == states[j].store.leases[p].revision ==>
                    View(states[i].store.slots, p) == View(states[j].store.slots, p))
    decreases j
  {
    hide Do, Enabled, View, Sound;
    if i < j {
      LeaseStretch(w, states, steps, i, j - 1, p);
      Latched(w, states, steps, i, j - 1, p);
      RunSound(w, states, steps, j - 1);
      RunStep(w, states, steps, j - 1);
      hide IsRun;
      StepRevision(w, states[j - 1], steps[j - 1], p);
    }
  }

  lemma NewbornViews(f: State, p: Instance)
    requires Sound(f) && p in f.store.leases
    ensures p in f.procs
    ensures !f.procs[p].initialized ==> View(f.store.slots, p) == map[]
    ensures !f.procs[p].initialized && !f.procs[p].stopping ==> f.store.leases[p].revision == 0
    ensures f.store.leases[p].revision == 0 ==> View(f.store.slots, p) == map[]
  {
    EmptyViewOwnsNothing(f.store.slots, p);
    assert Newborn(f, p) && ZeroOwnsNothing(f.store, p);
  }

  /** In any run, whatever its clocks, one revision of an instance names one view. */
  lemma RevisionNamesView(w: World, states: seq<State>, steps: seq<Step>, i: nat, j: nat, p: Instance)
    requires IsRun(w, states, steps) && i <= j < |states|
    requires p in states[i].store.leases && p in states[j].store.leases
    requires states[i].store.leases[p].revision == states[j].store.leases[p].revision
    ensures View(states[i].store.slots, p) == View(states[j].store.slots, p)
  {
    RunSound(w, states, steps, i);
    RunSound(w, states, steps, j);
    NewbornViews(states[i], p);
    NewbornViews(states[j], p);
    hide Sound, Do, Enabled, View;
    Latched(w, states, steps, i, j, p);
    if states[i].procs[p].initialized {
      LeaseStretch(w, states, steps, i, j, p);
    }
  }

  /** The transaction committed only because the presented revision was `p`'s. */
  predicate Presents(st: Store, t: Txn, now: int, p: Instance, revision: nat) {
    && Run(st, t, now).Ok?
    && match t
       case RenewTxn(id, r) => id == p && r == revision
       case ReserveTxn(authority, _) => authority.instance == p && authority.revision == revision
       case ClaimTxn(claim, _) => claim.instance == p && claim.revision == revision && |claim.slots| > 0
       case _ => false
  }

  lemma PresentsCurrent(st: Store, t: Txn, now: int, p: Instance, revision: nat)
    requires Presents(st, t, now, p, revision)
    ensures p in st.leases && st.leases[p].revision == revision
  {
  }

  /** So a renewal, a reservation or a claim that commits proves that the view read at its revision is current. */
  lemma MatchProvesView(
    w: World, states: seq<State>, steps: seq<Step>, i: nat, k: nat, p: Instance, revision: nat)
    requires IsRun(w, states, steps) && i <= k < |steps|
    requires p in states[i].store.leases && states[i].store.leases[p].revision == revision
    requires steps[k].Commit? && Presents(states[k].store, steps[k].txn, w.clock(states[k].now), p, revision)
    ensures View(states[i].store.slots, p) == View(states[k].store.slots, p)
  {
    PresentsCurrent(states[k].store, steps[k].txn, w.clock(states[k].now), p, revision);
    hide Presents, View, Do, Enabled;
    RevisionNamesView(w, states, steps, i, k, p);
  }
}
