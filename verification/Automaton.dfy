/** What any transaction may do to one slot, to a lease and to an instance's view.

The store's transactions are long; everything the timed protocol needs of them is
here, in three relations. `SlotStep` is the slot's automaton, `LeaseStep` says who
can move a lease clock, and `RevisionStep` says that no view changes silently.
*/
module Automaton {
  import opened Tables
  import opened Transactions

  datatype Txn =
    | RegisterTxn(node: Node, id: Instance)
    | RenewTxn(id: Instance, revision: nat)
    | RetireTxn(id: Instance)
    | CollectTxn(ids: set<Instance>, members: set<Instance>, quiet: int)
    | ClaimTxn(claim: ClaimRequest, locked: set<Instance>)
    | PlanTxn(plans: seq<Plan>, token: Token, limits: Limits, lease: int)
    | ApplyTxn(request: Request)
    | RecoverTxn(token: Token, nodes: seq<Instance>, ha: HA, mint: Slot -> Id, candidates: seq<Candidate>)
    | ReserveTxn(authority: Authority, reservations: seq<Reservation>)
    | AcquireTxn(id: Instance, duration: int)

  /** The tables a transaction leaves behind: its commit, or no change. */
  function After(st: Store, t: Txn, now: int): Store {
    match Run(st, t, now)
    case Ok(st') => st'
    case Err(_) => st
  }

  function Run(st: Store, t: Txn, now: int): Result<Store> {
    match t
    case RegisterTxn(node, id) => Register(st, node, id, now)
    case RenewTxn(id, revision) => Renew(st, id, revision, now)
    case RetireTxn(id) => Retire(st, id)
    case CollectTxn(ids, members, quiet) => Collect(st, ids, members, quiet, now)
    case ClaimTxn(claim, locked) => Claim(st, claim, locked, now)
    case PlanTxn(plans, token, limits, lease) => PlanHandoffs(st, plans, token, limits, lease, now)
    case ApplyTxn(request) => ApplyHandoffs(st, request, now)
    case RecoverTxn(token, nodes, ha, mint, candidates) => RecoverHandoffs(st, token, nodes, ha, mint, candidates, now)
    case ReserveTxn(authority, reservations) =>
      (match Reserve(st, authority, reservations, now)
       case Ok((st', _)) => Ok(st')
       case Err(e) => Err(e))
    case AcquireTxn(id, duration) =>
      (match Acquire(st.tenure, id, duration, now)
       case Ok((tenure, _)) => Ok(st.(tenure := tenure))
       case Err(e) => Err(e))
  }

  /** Issued by the fleet: one quiet window, and no plan that claims to have drained. */
  predicate Issued(t: Txn, quiet: int) {
    match t
    case ClaimTxn(claim, _) => claim.quiet == quiet
    case ApplyTxn(request) => request.ha.quiet == quiet
    case PlanTxn(plans, _, _, _) => forall i | 0 <= i < |plans| :: !plans[i].intent.drained
    case _ => true
  }

  /** The transaction carries `p`'s own statement that slot `s` has drained at `epoch`. */
  predicate Acks(t: Txn, p: Instance, s: Slot, epoch: nat) {
    && t.ApplyTxn?
    && t.request.instance == p
    && exists c :: c in t.request.commands && c.slot == s && c.intent.sourceEpoch == epoch
                   && (c.action == AckDrainCmd || (c.action == WithdrawCmd && c.intent.drained))
  }

  // ------------------------------------------------------------------
  // The slot automaton.

  /** A draining slot that stays draining keeps its boundary. */
  predicate KeepsDrain(t: Txn, s: Slot, h: Option<Handoff>, h': Option<Handoff>) {
    && h.Some? && h'.Some?
    && h.value.phase == Drain && h'.value.phase == Drain
    && h'.value.source == h.value.source
    && h'.value.sourceEpoch == h.value.sourceEpoch
    && h'.value.notBefore == h.value.notBefore
    && (h'.value.drained ==> h.value.drained || Acks(t, h.value.source, s, h.value.sourceEpoch))
  }

  predicate Stays(t: Txn, s: Slot, r: Row, h: Option<Handoff>, r': Row, h': Option<Handoff>) {
    r' == r && (r.state == Draining ==> KeepsDrain(t, s, h, h'))
  }

  predicate Grants(r: Row, r': Row) {
    r'.owner.Some? && r' == Row(r'.owner, r.epoch + 1, Owned)
  }

  predicate BeginsDrain(
    leases: map<Instance, Lease>, t: Txn, s: Slot, quiet: int, now: int, r: Row, r': Row, h': Option<Handoff>)
  {
    && r.state == Owned && r.owner.Some? && r.owner.value in leases
    && r' == r.(state := Draining)
    && h'.Some? && h'.value.phase == Drain
    && h'.value.notBefore == Some(Boundary(leases, r.owner.value, quiet, now))
    && (h'.value.drained ==> Acks(t, r.owner.value, s, r.epoch))
  }

  /** Silent takeover: a full quiet window on the owner's last grant. */
  predicate TakesOver(leases: map<Instance, Lease>, quiet: int, now: int, r: Row, r': Row) {
    && r.state == Owned && r.owner.Some? && r.owner.value in leases
    && Grants(r, r') && r'.owner != r.owner
    && now >= leases[r.owner.value].grantedAt + quiet
  }

  /** A drain ends by acknowledgement or by its boundary, in a release or a new grant. */
  predicate EndsDrain(now: int, r: Row, h: Option<Handoff>, r': Row) {
    && r.state == Draining
    && h.Some? && h.value.phase == Drain && h.value.notBefore.Some?
    && (h.value.drained || now >= h.value.notBefore.value)
    && (Grants(r, r') || r' == Row(None, r.epoch, Unowned))
  }

  predicate SlotStep(
    leases: map<Instance, Lease>, t: Txn, s: Slot, quiet: int, now: int,
    r: Row, h: Option<Handoff>, r': Row, h': Option<Handoff>)
  {
    || Stays(t, s, r, h, r', h')
    || (r.state == Unowned && Grants(r, r'))
    || TakesOver(leases, quiet, now, r, r')
    || BeginsDrain(leases, t, s, quiet, now, r, r', h')
    || EndsDrain(now, r, h, r')
  }

  ghost predicate SlotsStep(st: Store, t: Txn, quiet: int, now: int, st': Store) {
    && st'.slots.Keys == st.slots.Keys
    && forall s | s in st.slots ::
         SlotStep(st.leases, t, s, quiet, now,
                  st.slots[s], IntentOf(st.handoffs, s), st'.slots[s], IntentOf(st'.handoffs, s))
  }

  // ------------------------------------------------------------------
  // Leases and revisions.

  predicate LeaseMoves(st: Store, t: Txn, now: int, st': Store, i: Instance) {
    if i in st.leases && i in st'.leases then
      && st'.leases[i].revision >= st.leases[i].revision
      && (st'.leases[i].grantedAt == st.leases[i].grantedAt
          || (t == RenewTxn(i, st.leases[i].revision) && st'.leases[i].grantedAt == now
              && st'.leases[i].revision == st.leases[i].revision))
    else if i in st'.leases then
      t.RegisterTxn? && t.id == i && st'.leases[i].revision == 0 && st'.leases[i].grantedAt == now
    else
      true
  }

  ghost predicate LeaseStep(st: Store, t: Txn, now: int, st': Store) {
    forall i :: LeaseMoves(st, t, now, st', i)
  }

  /** An instance whose rows changed has a lease on both sides and a later revision. */
  ghost predicate RevisionStep(st: Store, st': Store) {
    forall p: Instance | View(st.slots, p) != View(st'.slots, p) ::
      p in st.leases && p in st'.leases && st.leases[p].revision < st'.leases[p].revision
  }

  /** A collected lease belonged to an instance that held nothing. */
  ghost predicate CollectStep(st: Store, st': Store) {
    forall p: Instance | p in st.leases && p !in st'.leases :: View(st.slots, p) == map[]
  }

  // ------------------------------------------------------------------
  // One lemma per family of transactions.

  ghost predicate Facts(st: Store, t: Txn, quiet: int, now: int, st': Store) {
    && Coupled(st')
    && SlotsStep(st, t, quiet, now, st')
    && LeaseStep(st, t, now, st')
    && RevisionStep(st, st')
    && CollectStep(st, st')
  }

  /** `ids` are bumped together, and cover the old and new owner of every changed row. */
  ghost predicate Covers(st: Store, st': Store, ids: set<Instance>) {
    && st'.leases == Bump(st.leases, ids)
    && st'.slots.Keys == st.slots.Keys
    && forall s | s in st.slots && st'.slots[s] != st.slots[s] ::
         && (st.slots[s].owner.Some? ==> st.slots[s].owner.value in ids && st.slots[s].owner.value in st.leases)
         && (st'.slots[s].owner.Some? ==> st'.slots[s].owner.value in ids && st'.slots[s].owner.value in st.leases)
  }

  lemma CoversRevision(st: Store, st': Store, ids: set<Instance>)
    requires Covers(st, st', ids)
    ensures RevisionStep(st, st')
  {
    forall p: Instance | View(st.slots, p) != View(st'.slots, p)
      ensures p in st.leases && p in st'.leases && st.leases[p].revision < st'.leases[p].revision
    {
      var s := ChangedRow(st.slots, st'.slots, p);
    }
  }

  /** Two views that differ differ at a row that changed and that `p` held or holds. */
  lemma ChangedRow(slots: map<Slot, Row>, slots': map<Slot, Row>, p: Instance) returns (s: Slot)
    requires slots.Keys == slots'.Keys
    requires View(slots, p) != View(slots', p)
    ensures s in slots && slots[s] != slots'[s]
    ensures slots[s].owner == Some(p) || slots'[s].owner == Some(p)
  {
    var v, v' := View(slots, p), View(slots', p);
    if s0 :| s0 in v && (s0 !in v' || v[s0] != v'[s0]) {
      s := s0;
    } else {
      s :| s in v' && s !in v;
    }
  }

  lemma SameRows(st: Store, t: Txn, quiet: int, now: int, st': Store)
    requires Coupled(st)
    requires st'.slots == st.slots && st'.handoffs == st.handoffs
    ensures SlotsStep(st, t, quiet, now, st')
    ensures RevisionStep(st, st')
  {
  }

  /** Transactions on leases, the coordinator row and watermarks touch no slot. */
  lemma LeaseMovesOnly(st: Store, t: Txn, quiet: int, now: int)
    requires t.RegisterTxn? || t.RenewTxn? || t.RetireTxn? || t.AcquireTxn? || t.ReserveTxn?
    ensures var st' := After(st, t, now);
      && st'.slots == st.slots && st'.handoffs == st.handoffs && LeaseStep(st, t, now, st')
      && (forall p | p in st.leases :: p in st'.leases)
  {
  }

  lemma LeaseTxns(st: Store, t: Txn, quiet: int, now: int)
    requires Coupled(st)
    requires t.RegisterTxn? || t.RenewTxn? || t.RetireTxn? || t.AcquireTxn? || t.ReserveTxn?
    ensures Facts(st, t, quiet, now, After(st, t, now))
  {
    LeaseMovesOnly(st, t, quiet, now);
    SameRows(st, t, quiet, now, After(st, t, now));
    hide After, SlotsStep, LeaseStep, RevisionStep, PairOk;
  }

  lemma CollectFacts(st: Store, t: Txn, quiet: int, now: int)
    requires Coupled(st)
    requires t.CollectTxn?
    ensures Facts(st, t, quiet, now, After(st, t, now))
  {
    var st' := After(st, t, now);
    SameRows(st, t, quiet, now, st');
    forall p: Instance | p in st.leases && p !in st'.leases
      ensures View(st.slots, p) == map[]
    {
      assert Collectable(st, p, t.members, t.quiet, now);
    }
  }

  lemma PlanFacts(st: Store, t: Txn, quiet: int, now: int)
    requires Coupled(st)
    requires t.PlanTxn? && Issued(t, quiet)
    ensures Facts(st, t, quiet, now, After(st, t, now))
  {
    var st' := After(st, t, now);
    if st' != st {
      forall i | 0 <= i < |t.plans|
        ensures PlanValid(t.plans[i].intent) && !t.plans[i].intent.drained
      {
      }
      AdmittedOk(st, t.plans, t.lease, now);
      PlannedFacts(st, t, Admitted(st, t.plans, t.lease, now), quiet, now, st');
    } else {
      SameRows(st, t, quiet, now, st);
    }
  }

  lemma PlannedFacts(st: Store, t: Txn, planned: map<Slot, Handoff>, quiet: int, now: int, st': Store)
    requires t.PlanTxn? && Coupled(st) && st' == st.(handoffs := st.handoffs + planned)
    requires forall s | s in planned ::
      && s in st.slots && !planned[s].drained && PlanValid(planned[s])
      && Plannable(st, Plan(s, planned[s]), t.lease, now)
    ensures Facts(st, t, quiet, now, st')
  {
    forall s | s in st.slots
      ensures PairOk(st'.slots[s], IntentOf(st'.handoffs, s))
      ensures Stays(t, s, st.slots[s], IntentOf(st.handoffs, s), st'.slots[s], IntentOf(st'.handoffs, s))
    {
      assert PairOk(st.slots[s], IntentOf(st.handoffs, s));
    }
    hide PairOk, Stays;
  }

  lemma {:induction false} AdmittedOk(st: Store, plans: seq<Plan>, lease: int, now: int)
    requires forall i | 0 <= i < |plans| :: PlanValid(plans[i].intent) && !plans[i].intent.drained
    ensures forall s | s in Admitted(st, plans, lease, now) ::
              && s in st.slots
              && !Admitted(st, plans, lease, now)[s].drained
              && PlanValid(Admitted(st, plans, lease, now)[s])
              && Plannable(st, Plan(s, Admitted(st, plans, lease, now)[s]), lease, now)
  {
    if plans != [] {
      AdmittedOk(st, plans[..|plans| - 1], lease, now);
    }
  }

  lemma ClaimFacts(st: Store, t: Txn, quiet: int, now: int)
    requires Coupled(st)
    requires t.ClaimTxn? && Issued(t, quiet)
    ensures Facts(st, t, quiet, now, After(st, t, now))
  {
    var st' := After(st, t, now);
    if st' != st {
      var granted := Granted(st, t.claim, t.claim.slots, now);
      assert st' == Grant(st, t.claim.instance, granted);
      hide After, Claim, Coupled, SlotsStep, LeaseStep, RevisionStep, CollectStep;
      GrantOk(st, t, granted, quiet, now);
      GrantRevision(st, t.claim.instance, granted);
    }
  }

  lemma GrantRevision(st: Store, instance: Instance, granted: set<Slot>)
    requires Coupled(st) && instance in st.leases && granted <= st.slots.Keys
    ensures RevisionStep(st, Grant(st, instance, granted))
  {
    forall s | s in granted && st.slots[s].owner.Some?
      ensures st.slots[s].owner.value in Owners(st, granted)
    {
    }
    CoversRevision(st, Grant(st, instance, granted), {instance} + Owners(st, granted));
  }

  lemma GrantSlot(st: Store, t: Txn, s: Slot, quiet: int, now: int)
    requires s in st.slots && PairOk(st.slots[s], IntentOf(st.handoffs, s))
    requires t.ClaimTxn? && Issued(t, quiet)
    requires Grantable(st, t.claim, s, now)
    ensures var h := if s in st.handoffs && st.handoffs[s].Live() then Some(st.handoffs[s].(phase := Cancelled))
                     else IntentOf(st.handoffs, s);
            var r' := Row(Some(t.claim.instance), st.slots[s].epoch + 1, Owned);
            PairOk(r', h) && SlotStep(st.leases, t, s, quiet, now, st.slots[s], IntentOf(st.handoffs, s), r', h)
  {
  }

  lemma GrantOk(st: Store, t: Txn, granted: set<Slot>, quiet: int, now: int)
    requires Coupled(st)
    requires t.ClaimTxn? && Issued(t, quiet)
    requires t.claim.instance in st.leases
    requires forall s | s in granted :: s in st.slots && Grantable(st, t.claim, s, now)
    ensures Coupled(Grant(st, t.claim.instance, granted))
    ensures SlotsStep(st, t, quiet, now, Grant(st, t.claim.instance, granted))
  {
    var st' := Grant(st, t.claim.instance, granted);
    forall s | s in st'.slots
      ensures s in st.slots
      ensures PairOk(st'.slots[s], IntentOf(st'.handoffs, s))
      ensures SlotStep(st.leases, t, s, quiet, now,
                       st.slots[s], IntentOf(st.handoffs, s), st'.slots[s], IntentOf(st'.handoffs, s))
    {
      if s in granted {
        GrantSlot(st, t, s, quiet, now);
      } else {
        assert st'.slots[s] == st.slots[s];
        assert IntentOf(st'.handoffs, s) == IntentOf(st.handoffs, s);
        assert PairOk(st.slots[s], IntentOf(st.handoffs, s));
        StaysPut(st, t, s, quiet, now);
      }
    }
  }

  lemma StaysPut(st: Store, t: Txn, s: Slot, quiet: int, now: int)
    requires s in st.slots && PairOk(st.slots[s], IntentOf(st.handoffs, s))
    ensures SlotStep(st.leases, t, s, quiet, now,
                     st.slots[s], IntentOf(st.handoffs, s), st.slots[s], IntentOf(st.handoffs, s))
  {
  }

  // ------------------------------------------------------------------
  // ApplyHandoffs.

  ghost predicate Written(st: Store, t: Txn, quiet: int, now: int, w: Work, s: Slot)
    requires s in w.intents
  {
    && s in st.slots
    && var r := st.slots[s];
    && var r' := if s in w.rows then w.rows[s] else r;
    && PairOk(r', Some(w.intents[s]))
    && SlotStep(st.leases, t, s, quiet, now, r, IntentOf(st.handoffs, s), r', Some(w.intents[s]))
    && (r' != r ==>
          && (r.owner.Some? ==> r.owner.value in w.bumped && r.owner.value in st.leases)
          && (r'.owner.Some? ==> r'.owner.value in w.bumped && r'.owner.value in st.leases))
  }

  ghost predicate WorkOk(st: Store, t: Txn, quiet: int, now: int, w: Work) {
    && (forall s | s in w.rows :: s in w.intents)
    && (forall s | s in w.intents :: s in w.seen && Written(st, t, quiet, now, w, s))
  }

  /** Every write a single command makes follows the automaton. */
  ghost predicate WriteOk(st: Store, t: Txn, quiet: int, now: int, s: Slot, o: Outcome)
    requires o.Write? && s in st.slots
  {
    var r := st.slots[s];
    var r' := if o.row.Some? then o.row.value else r;
    && PairOk(r', Some(o.intent))
    && SlotStep(st.leases, t, s, quiet, now, r, IntentOf(st.handoffs, s), r', Some(o.intent))
    && (r' != r ==>
          && (r.owner.Some? ==> r.owner.value in o.bumps && r.owner.value in st.leases)
          && (r'.owner.Some? ==> r'.owner.value in o.bumps && r'.owner.value in st.leases))
  }

  lemma AdmitOk(st: Store, t: Txn, w: Work, c: Command, quiet: int, now: int)
    requires Coupled(st)
    requires t.ApplyTxn? && Issued(t, quiet)
    requires c in t.request.commands && (c.action == BeginCmd || c.action == WithdrawCmd)
    requires Decide(st, t.request, w, c, now).Write?
    ensures c.slot in st.slots && WriteOk(st, t, quiet, now, c.slot, Decide(st, t.request, w, c, now))
  {
    assert PairOk(st.slots[c.slot], IntentOf(st.handoffs, c.slot));
    var r, o := st.slots[c.slot], Decide(st, t.request, w, c, now);
    assert BeginsDrain(st.leases, t, c.slot, quiet, now, r, o.row.value, Some(o.intent));
  }

  lemma FinishOk(st: Store, t: Txn, w: Work, c: Command, quiet: int, now: int)
    requires Coupled(st)
    requires t.ApplyTxn? && Issued(t, quiet)
    requires c in t.request.commands && c.action == TransferCmd
    requires Decide(st, t.request, w, c, now).Write?
    ensures c.slot in st.slots && WriteOk(st, t, quiet, now, c.slot, Decide(st, t.request, w, c, now))
  {
    assert PairOk(st.slots[c.slot], IntentOf(st.handoffs, c.slot));
    var r, o := st.slots[c.slot], Decide(st, t.request, w, c, now);
    assert EndsDrain(now, r, IntentOf(st.handoffs, c.slot), o.row.value);
  }

  lemma NoteOk(st: Store, t: Txn, w: Work, c: Command, quiet: int, now: int)
    requires Coupled(st)
    requires t.ApplyTxn? && Issued(t, quiet)
    requires c in t.request.commands && (c.action == PrepareCmd || c.action == AckDrainCmd || c.action == AckActiveCmd)
    requires Decide(st, t.request, w, c, now).Write?
    ensures c.slot in st.slots && WriteOk(st, t, quiet, now, c.slot, Decide(st, t.request, w, c, now))
  {
    assert PairOk(st.slots[c.slot], IntentOf(st.handoffs, c.slot));
    var r, o := st.slots[c.slot], Decide(st, t.request, w, c, now);
    assert Stays(t, c.slot, r, IntentOf(st.handoffs, c.slot), r, Some(o.intent));
  }

  lemma DecideOk(st: Store, t: Txn, w: Work, c: Command, quiet: int, now: int)
    requires Coupled(st)
    requires t.ApplyTxn? && Issued(t, quiet)
    requires c in t.request.commands
    requires Decide(st, t.request, w, c, now).Write?
    ensures c.slot in st.slots && WriteOk(st, t, quiet, now, c.slot, Decide(st, t.request, w, c, now))
  {
    match c.action
    case BeginCmd => AdmitOk(st, t, w, c, quiet, now);
    case WithdrawCmd => AdmitOk(st, t, w, c, quiet, now);
    case TransferCmd => FinishOk(st, t, w, c, quiet, now);
    case _ => NoteOk(st, t, w, c, quiet, now);
  }

  lemma RecordOk(st: Store, t: Txn, quiet: int, now: int, w: Work, at: Slot, o: Outcome)
    requires WorkOk(st, t, quiet, now, w)
    requires at !in w.seen && at in st.slots
    requires o.Write? && WriteOk(st, t, quiet, now, at, o)
    ensures WorkOk(st, t, quiet, now, Record(w.(seen := w.seen + {at}), at, o))
  {
    var w' := Record(w.(seen := w.seen + {at}), at, o);
    forall s | s in w'.intents
      ensures s in w'.seen && Written(st, t, quiet, now, w', s)
    {
      if s != at {
        assert Written(st, t, quiet, now, w, s);
      }
    }
  }

  lemma {:induction false} StepsOk(st: Store, t: Txn, w0: Work, commands: seq<Command>, quiet: int, now: int)
    requires Coupled(st)
    requires t.ApplyTxn? && Issued(t, quiet)
    requires forall c | c in commands :: c in t.request.commands
    requires WorkOk(st, t, quiet, now, w0)
    requires Steps(st, t.request, w0, commands, now).Ok?
    ensures WorkOk(st, t, quiet, now, Steps(st, t.request, w0, commands, now).value)
  {
    if commands != [] {
      var front, c := commands[..|commands| - 1], commands[|commands| - 1];
      StepsOk(st, t, w0, front, quiet, now);
      var w := Steps(st, t.request, w0, front, now).value;
      StepOk(st, t, w, c, quiet, now);
    }
  }

  lemma StepOk(st: Store, t: Txn, w: Work, c: Command, quiet: int, now: int)
    requires Coupled(st)
    requires t.ApplyTxn? && Issued(t, quiet)
    requires c in t.request.commands
    requires WorkOk(st, t, quiet, now, w)
    requires Step(st, t.request, w, c, now).Ok?
    ensures WorkOk(st, t, quiet, now, Step(st, t.request, w, c, now).value)
  {
    var w1 := w.(seen := w.seen + {c.slot});
    if Decide(st, t.request, w1, c, now).Write? {
      DecideOk(st, t, w1, c, quiet, now);
      RecordOk(st, t, quiet, now, w, c.slot, Decide(st, t.request, w1, c, now));
    } else {
      forall s | s in w1.intents ensures s in w1.seen && Written(st, t, quiet, now, w1, s) {
        assert Written(st, t, quiet, now, w, s);
      }
    }
  }

  lemma CommitSlot(st: Store, t: Txn, w: Work, quiet: int, now: int, s: Slot)
    requires Coupled(st)
    requires WorkOk(st, t, quiet, now, w)
    requires s in Commit(st, w).slots
    ensures s in st.slots
    ensures var st' := Commit(st, w);
            var r, r' := st.slots[s], st'.slots[s];
            && PairOk(r', IntentOf(st'.handoffs, s))
            && SlotStep(st.leases, t, s, quiet, now, r, IntentOf(st.handoffs, s), r', IntentOf(st'.handoffs, s))
            && (r' != r ==>
                  && (r.owner.Some? ==> r.owner.value in w.bumped && r.owner.value in st.leases)
                  && (r'.owner.Some? ==> r'.owner.value in w.bumped && r'.owner.value in st.leases))
  {
    var st' := Commit(st, w);
    if s in w.intents {
      assert Written(st, t, quiet, now, w, s);
      assert IntentOf(st'.handoffs, s) == Some(w.intents[s]);
    } else {
      assert s !in w.rows;
      assert IntentOf(st'.handoffs, s) == IntentOf(st.handoffs, s);
      StaysPut(st, t, s, quiet, now);
    }
  }

  lemma CommitCovers(st: Store, t: Txn, w: Work, quiet: int, now: int)
    requires Coupled(st)
    requires WorkOk(st, t, quiet, now, w)
    ensures Covers(st, Commit(st, w), w.bumped)
  {
    var st' := Commit(st, w);
    forall s | s in w.rows ensures s in st.slots {
      assert Written(st, t, quiet, now, w, s);
    }
    assert st'.slots.Keys == st.slots.Keys;
    forall s | s in st.slots && st'.slots[s] != st.slots[s]
      ensures st.slots[s].owner.Some? ==> st.slots[s].owner.value in w.bumped && st.slots[s].owner.value in st.leases
      ensures st'.slots[s].owner.Some? ==> st'.slots[s].owner.value in w.bumped && st'.slots[s].owner.value in st.leases
    {
      CommitSlot(st, t, w, quiet, now, s);
    }
  }

  lemma CommitCoupled(st: Store, t: Txn, w: Work, quiet: int, now: int)
    requires Coupled(st)
    requires WorkOk(st, t, quiet, now, w)
    ensures Coupled(Commit(st, w))
    ensures SlotsStep(st, t, quiet, now, Commit(st, w))
  {
    var st' := Commit(st, w);
    CommitCovers(st, t, w, quiet, now);
    forall s | s in st'.handoffs ensures s in st'.slots {
      if s in w.intents {
        assert Written(st, t, quiet, now, w, s);
      }
    }
    forall s | s in st'.slots
      ensures PairOk(st'.slots[s], IntentOf(st'.handoffs, s))
      ensures st'.slots[s].owner.Some? ==> st'.slots[s].owner.value in st'.leases
      ensures SlotStep(st.leases, t, s, quiet, now,
                       st.slots[s], IntentOf(st.handoffs, s), st'.slots[s], IntentOf(st'.handoffs, s))
    {
      CommitSlot(st, t, w, quiet, now, s);
    }
  }

  lemma ApplyFacts(st: Store, t: Txn, quiet: int, now: int)
    requires Coupled(st)
    requires t.ApplyTxn? && Issued(t, quiet)
    ensures Facts(st, t, quiet, now, After(st, t, now))
  {
    var steps := Steps(st, t.request, Counted(st.handoffs), t.request.commands, now);
    if After(st, t, now) == st {
      SameRows(st, t, quiet, now, st);
    } else {
      StepsOk(st, t, Counted(st.handoffs), t.request.commands, quiet, now);
      CommitCoupled(st, t, steps.value, quiet, now);
      CommitCovers(st, t, steps.value, quiet, now);
      CoversRevision(st, Commit(st, steps.value), steps.value.bumped);
    }
  }

  // ------------------------------------------------------------------
  // RecoverHandoffs.

  /** A repair follows the automaton, and never takes a mismatch branch of a draining intent. */
  lemma MendOk(st: Store, t: Txn, c: Candidate, quiet: int, now: int)
    requires Coupled(st)
    requires t.RecoverTxn?
    ensures match Mend(st, t.nodes, t.ha, t.mint, c, now)
            case Untouched => true
            case Rewrite(h) =>
              && c.slot in st.slots
              && PairOk(st.slots[c.slot], Some(h))
              && Stays(t, c.slot, st.slots[c.slot], IntentOf(st.handoffs, c.slot), st.slots[c.slot], Some(h))
            case Free(h) =>
              && c.slot in st.slots
              && var r := st.slots[c.slot];
              && var r' := Row(None, r.epoch, Unowned);
              && r.owner == Some(h.source)
              && PairOk(r', Some(h))
              && EndsDrain(now, r, IntentOf(st.handoffs, c.slot), r')
  {
    if c.slot in st.handoffs {
      assert PairOk(st.slots[c.slot], IntentOf(st.handoffs, c.slot));
    }
  }

  ghost predicate MendedOk(st: Store, t: Txn, quiet: int, now: int, m: Mended) {
    && m.freed <= m.intents.Keys
    && forall s | s in m.intents :: Repaired(st, t, quiet, now, m, s)
  }

  ghost predicate Repaired(st: Store, t: Txn, quiet: int, now: int, m: Mended, s: Slot)
    requires s in m.intents
  {
    && s in st.slots
    && var r := st.slots[s];
    && var r' := if s in m.freed then Row(None, r.epoch, Unowned) else r;
    && PairOk(r', Some(m.intents[s]))
    && (s in m.freed ==>
          r.owner == Some(m.intents[s].source) && m.intents[s].source in m.revised
          && EndsDrain(now, r, IntentOf(st.handoffs, s), r'))
    && (s !in m.freed ==> Stays(t, s, r, IntentOf(st.handoffs, s), r, Some(m.intents[s])))
  }

  predicate DistinctCandidates(cs: seq<Candidate>) {
    forall i, j | 0 <= i < j < |cs| :: cs[i].slot != cs[j].slot
  }

  lemma {:induction false} MendsOk(st: Store, t: Txn, cs: seq<Candidate>, quiet: int, now: int)
    requires Coupled(st)
    requires t.RecoverTxn? && DistinctCandidates(cs)
    ensures MendedOk(st, t, quiet, now, Mends(st, t.nodes, t.ha, t.mint, cs, now))
    ensures forall s | s in Mends(st, t.nodes, t.ha, t.mint, cs, now).intents ::
              exists i :: 0 <= i < |cs| && cs[i].slot == s
  {
    if cs != [] {
      var front, c := cs[..|cs| - 1], cs[|cs| - 1];
      MendsOk(st, t, front, quiet, now);
      MendOk(st, t, c, quiet, now);
      var m, m' := Mends(st, t.nodes, t.ha, t.mint, front, now), Mends(st, t.nodes, t.ha, t.mint, cs, now);
      forall i | 0 <= i < |front| ensures front[i].slot != c.slot {
        assert cs[i] == front[i];
      }
      assert c.slot !in m.intents;
      forall s | s in m'.intents
        ensures Repaired(st, t, quiet, now, m', s)
        ensures exists i :: 0 <= i < |cs| && cs[i].slot == s
      {
        if s == c.slot {
          assert cs[|cs| - 1].slot == s;
        } else {
          assert Repaired(st, t, quiet, now, m, s);
          var i :| 0 <= i < |front| && front[i].slot == s;
          assert cs[i].slot == s;
        }
      }
    }
  }

  function Recovered(st: Store, m: Mended): Store {
    st.(slots := Freed(st.slots, m.freed),
        handoffs := st.handoffs + m.intents,
        leases := if m.freed == {} then st.leases else Bump(st.leases, m.revised))
  }

  lemma RecoveredSlot(st: Store, t: Txn, m: Mended, quiet: int, now: int, s: Slot)
    requires Coupled(st)
    requires MendedOk(st, t, quiet, now, m)
    requires s in st.slots
    ensures var st' := Recovered(st, m);
            var r, r' := st.slots[s], st'.slots[s];
            && PairOk(r', IntentOf(st'.handoffs, s))
            && SlotStep(st.leases, t, s, quiet, now, r, IntentOf(st.handoffs, s), r', IntentOf(st'.handoffs, s))
            && (r' != r ==> r'.owner == None && r.owner.Some? && r.owner.value in m.revised)
  {
    var st' := Recovered(st, m);
    if s in m.intents {
      assert Repaired(st, t, quiet, now, m, s);
      assert IntentOf(st'.handoffs, s) == Some(m.intents[s]);
    } else {
      assert IntentOf(st'.handoffs, s) == IntentOf(st.handoffs, s);
      StaysPut(st, t, s, quiet, now);
    }
  }

  lemma RecoverFacts(st: Store, t: Txn, quiet: int, now: int)
    requires Coupled(st)
    requires t.RecoverTxn? && DistinctCandidates(t.candidates)
    ensures Facts(st, t, quiet, now, After(st, t, now))
  {
    var st' := After(st, t, now);
    if st' == st {
      SameRows(st, t, quiet, now, st);
    } else {
      var m := Mends(st, t.nodes, t.ha, t.mint, t.candidates, now);
      MendsOk(st, t, t.candidates, quiet, now);
      assert st' == Recovered(st, m);
      RecoveredFacts(st, t, m, quiet, now);
    }
  }

  lemma RecoveredSlots(st: Store, t: Txn, m: Mended, quiet: int, now: int)
    requires Coupled(st)
    requires MendedOk(st, t, quiet, now, m)
    ensures SlotsStep(st, t, quiet, now, Recovered(st, m))
    ensures forall s | s in st.slots && Recovered(st, m).slots[s] != st.slots[s] ::
              Recovered(st, m).slots[s].owner == None && st.slots[s].owner.Some? && st.slots[s].owner.value in m.revised
  {
    forall s | s in st.slots
      ensures SlotStep(st.leases, t, s, quiet, now,
                       st.slots[s], IntentOf(st.handoffs, s),
                       Recovered(st, m).slots[s], IntentOf(Recovered(st, m).handoffs, s))
      ensures Recovered(st, m).slots[s] != st.slots[s] ==>
                Recovered(st, m).slots[s].owner == None && st.slots[s].owner.Some?
                    && st.slots[s].owner.value in m.revised
    {
      RecoveredSlot(st, t, m, quiet, now, s);
    }
  }

  lemma RecoveredCoupled(st: Store, t: Txn, m: Mended, quiet: int, now: int)
    requires Coupled(st)
    requires MendedOk(st, t, quiet, now, m)
    ensures Coupled(Recovered(st, m))
  {
    var st' := Recovered(st, m);
    forall s | s in st'.handoffs ensures s in st'.slots {
      if s in m.intents {
        assert Repaired(st, t, quiet, now, m, s);
      }
    }
    forall s | s in st'.slots
      ensures PairOk(st'.slots[s], IntentOf(st'.handoffs, s))
      ensures st'.slots[s].owner.Some? ==> st'.slots[s].owner.value in st'.leases
    {
      RecoveredSlot(st, t, m, quiet, now, s);
    }
  }

  lemma RecoveredFacts(st: Store, t: Txn, m: Mended, quiet: int, now: int)
    requires Coupled(st)
    requires t.RecoverTxn?
    requires MendedOk(st, t, quiet, now, m)
    ensures Facts(st, t, quiet, now, Recovered(st, m))
  {
    hide SlotsStep, RevisionStep, PairOk, Repaired;
    RecoveredSlots(st, t, m, quiet, now);
    RecoveredCoupled(st, t, m, quiet, now);
    RecoveredRevision(st, m);
  }

  lemma RecoveredRevision(st: Store, m: Mended)
    requires Coupled(st)
    requires forall s | s in st.slots && Recovered(st, m).slots[s] != st.slots[s] ::
               Recovered(st, m).slots[s].owner == None && st.slots[s].owner.Some?
                   && st.slots[s].owner.value in m.revised
    ensures RevisionStep(st, Recovered(st, m))
  {
    var st' := Recovered(st, m);
    if m.freed == {} {
      assert st'.slots == st.slots;
    } else {
      assert Covers(st, st', m.revised);
      CoversRevision(st, st', m.revised);
    }
  }

  // ------------------------------------------------------------------

  /** Candidates are rows of one read, so their slots differ. */
  predicate WellFormed(t: Txn, quiet: int) {
    Issued(t, quiet) && (t.RecoverTxn? ==> DistinctCandidates(t.candidates))
  }

  /** Every transaction, committed or rolled back, keeps the coupling and the relations. */
  lemma EveryTransaction(st: Store, t: Txn, quiet: int, now: int)
    requires Coupled(st) && WellFormed(t, quiet)
    ensures Facts(st, t, quiet, now, After(st, t, now))
  {
    match t
    case CollectTxn(_, _, _) => CollectFacts(st, t, quiet, now);
    case ClaimTxn(_, _) => ClaimFacts(st, t, quiet, now);
    case PlanTxn(_, _, _, _) => PlanFacts(st, t, quiet, now);
    case ApplyTxn(_) => ApplyFacts(st, t, quiet, now);
    case RecoverTxn(_, _, _, _, _) => RecoverFacts(st, t, quiet, now);
    case _ => LeaseTxns(st, t, quiet, now);
  }
}
