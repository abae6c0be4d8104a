/** Whole histories of the store: what no sequence of transactions can do.

Storage times are arbitrary here, and a commit counts whether or not its caller
was told of it, so a caller that retries after an uncertain commit is covered.
*/
module StoreRuns {
  import opened Tables
  import opened Transactions
  import opened Automaton
  import opened Local
  import opened FleetInvariant
  import opened FleetCommit
  import opened RangeOrder
  import TransactionEffects

  datatype Event = Event(txn: Txn, now: int)

  /** The schema's baseline: every slot UNOWNED at epoch 0 and nothing else. */
  ghost predicate Baseline(st: Store) {
    && st.leases == map[] && st.handoffs == map[] && st.marks == map[]
    && forall s | s in st.slots :: st.slots[s] == Row(None, 0, Unowned)
  }

  ghost predicate IsHistory(quiet: int, states: seq<Store>, events: seq<Event>) {
    && |states| == |events| + 1
    && Baseline(states[0])
    && forall i | 0 <= i < |events| ::
         WellFormed(events[i].txn, quiet) && states[i + 1] == After(states[i], events[i].txn, events[i].now)
  }

  /** Handoffs, ownership and leases agree in every reachable store. */
  lemma {:induction false} CouplingHolds(quiet: int, states: seq<Store>, events: seq<Event>, i: nat)
    requires IsHistory(quiet, states, events) && i < |states|
    ensures Coupled(states[i])
  {
    if i > 0 {
      CouplingHolds(quiet, states, events, i - 1);
      EveryTransaction(states[i - 1], events[i - 1].txn, quiet, events[i - 1].now);
    }
  }

  lemma FactsHold(quiet: int, states: seq<Store>, events: seq<Event>, i: nat)
    requires IsHistory(quiet, states, events) && i < |events|
    ensures Coupled(states[i])
    ensures Facts(states[i], events[i].txn, quiet, events[i].now, states[i + 1])
  {
    CouplingHolds(quiet, states, events, i);
    EveryTransaction(states[i], events[i].txn, quiet, events[i].now);
  }

  // ------------------------------------------------------------------
  // Epochs and owners.

  function Stage(r: Row): nat {
    match r.state
    case Owned => 0
    case Draining => 1
    case Unowned => 2
  }

  /** Rows move forward: by epoch, and within one epoch from OWNED over DRAINING to UNOWNED, under one owner. */
  predicate Forward(r: Row, r': Row) {
    || r'.epoch > r.epoch
    || (r'.epoch == r.epoch && Stage(r) <= Stage(r') && (r'.owner == r.owner || (r'.owner == None && Stage(r') == 2)))
  }

  lemma {:induction false} RowsMoveForward(quiet: int, states: seq<Store>, events: seq<Event>, i: nat, j: nat, s: Slot)
    requires IsHistory(quiet, states, events) && i <= j < |states| && s in states[i].slots
    ensures s in states[j].slots && Forward(states[i].slots[s], states[j].slots[s])
    decreases j
  {
    hide Coupled, Facts, After;
    if i < j {
      RowsMoveForward(quiet, states, events, i, j - 1, s);
      FactsHold(quiet, states, events, j - 1);
      RowForward(states[j - 1], events[j - 1].txn, quiet, events[j - 1].now, states[j], s);
    }
  }

  lemma RowForward(st: Store, t: Txn, quiet: int, now: int, st': Store, s: Slot)
    requires Coupled(st) && Facts(st, t, quiet, now, st') && s in st.slots
    ensures s in st'.slots && Forward(st.slots[s], st'.slots[s])
  {
    hide LeaseStep, RevisionStep, CollectStep;
    assert PairOk(st.slots[s], IntentOf(st.handoffs, s));
    assert SlotStep(st.leases, t, s, quiet, now, st.slots[s], IntentOf(st.handoffs, s),
                    st'.slots[s], IntentOf(st'.handoffs, s));
  }

  /** A slot and a positive epoch name at most one owner in any history. */
  lemma OneOwnerPerEpoch(quiet: int, states: seq<Store>, events: seq<Event>, i: nat, j: nat, s: Slot)
    requires IsHistory(quiet, states, events) && i < |states| && j < |states|
    requires s in states[i].slots && s in states[j].slots
    requires states[i].slots[s].epoch == states[j].slots[s].epoch
    requires states[i].slots[s].owner.Some? && states[j].slots[s].owner.Some?
    ensures states[i].slots[s].owner == states[j].slots[s].owner
  {
    if i <= j {
      RowsMoveForward(quiet, states, events, i, j, s);
    } else {
      RowsMoveForward(quiet, states, events, j, i, s);
    }
  }

  // ------------------------------------------------------------------
  // Drain boundaries.

  predicate DrainingAt(st: Store, s: Slot, epoch: nat) {
    s in st.slots && st.slots[s].state == Draining && st.slots[s].epoch == epoch
  }

  lemma DrainingIntent(st: Store, s: Slot)
    requires Coupled(st) && s in st.slots && st.slots[s].state == Draining
    ensures s in st.handoffs
    ensures var h := st.handoffs[s];
      h.phase == Drain && h.notBefore.Some? && h.sourceEpoch == st.slots[s].epoch && st.slots[s].owner == Some(h.source)
  {
    assert PairOk(st.slots[s], IntentOf(st.handoffs, s));
  }

  lemma StillDraining(quiet: int, states: seq<Store>, events: seq<Event>, i: nat, j: nat, s: Slot, epoch: nat)
    requires IsHistory(quiet, states, events) && i < j < |states|
    requires DrainingAt(states[i], s, epoch) && DrainingAt(states[j], s, epoch)
    ensures DrainingAt(states[j - 1], s, epoch)
  {
    hide IsHistory, Baseline, After, WellFormed;
    assert |states| == |events| + 1 by { Lengths(quiet, states, events); }
    RowsMoveForward(quiet, states, events, i, j - 1, s);
    RowsMoveForward(quiet, states, events, j - 1, j, s);
  }

  lemma Lengths(quiet: int, states: seq<Store>, events: seq<Event>)
    requires IsHistory(quiet, states, events)
    ensures |states| == |events| + 1
  {
    hide After, WellFormed;
  }

  /** While a slot drains at one epoch its intent stays a DRAINING one with the boundary first written:
      renewals, retargets and conversions to RELEASE do not move it. */
  lemma {:induction false} BoundaryNeverMoves(
    quiet: int, states: seq<Store>, events: seq<Event>, i: nat, j: nat, s: Slot, epoch: nat)
    requires IsHistory(quiet, states, events) && i <= j < |states|
    requires DrainingAt(states[i], s, epoch) && DrainingAt(states[j], s, epoch)
    ensures s in states[i].handoffs && s in states[j].handoffs
    ensures var h, h' := states[i].handoffs[s], states[j].handoffs[s];
      && h.phase == Drain && h'.phase == Drain
      && h.notBefore.Some? && h'.notBefore == h.notBefore
      && h.source == h'.source && h.sourceEpoch == h'.sourceEpoch == epoch
    decreases j
  {
    hide Coupled, Facts, After;
    CouplingHolds(quiet, states, events, i);
    DrainingIntent(states[i], s);
    if i < j {
      StillDraining(quiet, states, events, i, j, s, epoch);
      BoundaryNeverMoves(quiet, states, events, i, j - 1, s, epoch);
      FactsHold(quiet, states, events, j - 1);
      DrainKept(states[j - 1], events[j - 1].txn, quiet, events[j - 1].now, states[j], s);
    }
  }

  lemma DrainKept(st: Store, t: Txn, quiet: int, now: int, st': Store, s: Slot)
    requires Coupled(st) && Facts(st, t, quiet, now, st')
    requires s in st.slots && st.slots[s].state == Draining && s in st'.slots
    requires st'.slots[s].state == Draining && st'.slots[s].epoch == st.slots[s].epoch
    ensures KeepsDrain(t, s, IntentOf(st.handoffs, s), IntentOf(st'.handoffs, s))
  {
    assert PairOk(st.slots[s], IntentOf(st.handoffs, s));
    assert SlotStep(st.leases, t, s, quiet, now, st.slots[s], IntentOf(st.handoffs, s),
                    st'.slots[s], IntentOf(st'.handoffs, s));
  }

  /** A slot leaves DRAINING only at a transaction made after its boundary, or after its source had acknowledged. */
  lemma {:induction false} LeavesDrainingFenced(
    quiet: int, states: seq<Store>, events: seq<Event>, i: nat, j: nat, s: Slot, epoch: nat)
    returns (k: nat)
    requires IsHistory(quiet, states, events) && i <= j < |states|
    requires DrainingAt(states[i], s, epoch) && s in states[j].slots && !DrainingAt(states[j], s, epoch)
    ensures i <= k < j && DrainingAt(states[k], s, epoch) && !DrainingAt(states[k + 1], s, epoch)
    ensures s in states[i].handoffs && s in states[k].handoffs
    ensures states[i].handoffs[s].notBefore.Some?
    ensures events[k].now >= states[i].handoffs[s].notBefore.value || states[k].handoffs[s].drained
    decreases j
  {
    hide Coupled, Facts, After;
    RowsMoveForward(quiet, states, events, i, j - 1, s);
    if DrainingAt(states[j - 1], s, epoch) {
      k := j - 1;
      FactsHold(quiet, states, events, k);
      DrainLeft(states[k], events[k].txn, quiet, events[k].now, states[k + 1], s);
      BoundaryNeverMoves(quiet, states, events, i, k, s, epoch);
    } else {
      k := LeavesDrainingFenced(quiet, states, events, i, j - 1, s, epoch);
    }
  }

  lemma DrainLeft(st: Store, t: Txn, quiet: int, now: int, st': Store, s: Slot)
    requires Coupled(st) && Facts(st, t, quiet, now, st')
    requires s in st.slots && st.slots[s].state == Draining && s in st'.slots
    requires !(st'.slots[s].state == Draining && st'.slots[s].epoch == st.slots[s].epoch)
    ensures EndsDrain(now, st.slots[s], IntentOf(st.handoffs, s), st'.slots[s])
  {
    assert PairOk(st.slots[s], IntentOf(st.handoffs, s));
    assert SlotStep(st.leases, t, s, quiet, now, st.slots[s], IntentOf(st.handoffs, s),
                    st'.slots[s], IntentOf(st'.handoffs, s));
  }

  /** The slot's intent is a draining one with an acknowledgement on record. */
  predicate AckedDrain(st: Store, s: Slot, source: Instance, epoch: nat) {
    && s in st.handoffs && st.handoffs[s].phase == Drain && st.handoffs[s].drained
    && st.handoffs[s].source == source && st.handoffs[s].sourceEpoch == epoch
  }

  /** The acknowledgement on record was the source's own. */
  lemma {:induction false} DrainedWasAcked(
    quiet: int, states: seq<Store>, events: seq<Event>, j: nat, s: Slot, source: Instance, epoch: nat)
    returns (k: nat)
    requires IsHistory(quiet, states, events) && j < |states| == |events| + 1
    requires AckedDrain(states[j], s, source, epoch)
    ensures k < j && Acks(events[k].txn, source, s, epoch)
  {
    hide IsHistory, AckedDrain, Coupled, Facts, After, Acks;
    NotAtFirst(quiet, states, events, j, s, source, epoch);
    FactsHold(quiet, states, events, j - 1);
    DrainedBefore(states[j - 1], events[j - 1].txn, quiet, events[j - 1].now, states[j], s, source, epoch);
    if Acks(events[j - 1].txn, source, s, epoch) {
      k := j - 1;
    } else {
      k := DrainedWasAcked(quiet, states, events, j - 1, s, source, epoch);
    }
  }

  lemma NotAtFirst(
    quiet: int, states: seq<Store>, events: seq<Event>, j: nat, s: Slot, source: Instance, epoch: nat)
    requires IsHistory(quiet, states, events) && j < |states|
    requires AckedDrain(states[j], s, source, epoch)
    ensures j > 0
  {
    hide After, WellFormed;
  }

  lemma DrainedBefore(
    st: Store, t: Txn, quiet: int, now: int, st': Store, s: Slot, source: Instance, epoch: nat)
    requires Coupled(st) && Facts(st, t, quiet, now, st')
    requires AckedDrain(st', s, source, epoch)
    ensures Acks(t, source, s, epoch) || AckedDrain(st, s, source, epoch)
  {
    HandoffSlot(st', s);
    hide LeaseStep, RevisionStep, CollectStep, Coupled, SlotsStep, Acks;
    AckSlot(st, t, quiet, now, st', s);
  }

  lemma HandoffSlot(st: Store, s: Slot)
    requires Coupled(st) && s in st.handoffs
    ensures s in st.slots
  {
  }

  // ------------------------------------------------------------------
  // Revisions.

  /** The lease row was there all the way: it was not collected and registered anew. That processes never do
      the latter to a row that ever mattered is shown in RevisionRuns. */
  ghost predicate Persists(states: seq<Store>, p: Instance, i: nat, j: nat) {
    i <= j < |states| && forall k | i <= k <= j :: p in states[k].leases
  }

  /** Equal revisions are equal views: a caller whose revision matches knows its current rows. */
  lemma {:induction false} RevisionFidelity(
    quiet: int, states: seq<Store>, events: seq<Event>, p: Instance, i: nat, j: nat)
    requires IsHistory(quiet, states, events) && Persists(states, p, i, j)
    ensures states[i].leases[p].revision <= states[j].leases[p].revision
    ensures states[i].leases[p].revision == states[j].leases[p].revision ==>
              View(states[i].slots, p) == View(states[j].slots, p)
    decreases j
  {
    hide Coupled, After, View;
    if i < j {
      RevisionFidelity(quiet, states, events, p, i, j - 1);
      FactsHold(quiet, states, events, j - 1);
      assert LeaseMoves(states[j - 1], events[j - 1].txn, events[j - 1].now, states[j], p);
    }
  }

  // ------------------------------------------------------------------
  // Watermarks.

  /** The ranges cut for a key by the first `n` transactions, in commit order. */
  function Grants(states: seq<Store>, events: seq<Event>, k: Key, n: nat): seq<Grant>
    requires n <= |events| < |states|
  {
    if n == 0 then []
    else Extend(Grants(states, events, k, n - 1), Granting(states[n - 1], events[n - 1].txn, events[n - 1].now, k))
  }

  /** Whatever callers were told, the ranges cut for a key tile 1..watermark in commit order, with epochs that
      never fall and one instance per epoch. */
  lemma {:induction false} RangesTileInEpochOrder(
    quiet: int, states: seq<Store>, events: seq<Event>, k: Key, slot: Slot, n: nat)
    requires IsHistory(quiet, states, events) && n <= |events|
    requires forall i | 0 <= i < n :: Routed(events[i].txn, k, slot)
    ensures Tiled(Grants(states, events, k, n), Mark(states[n].marks, k))
    ensures Ordered(Grants(states, events, k, n), states[n].slots, slot)
  {
    hide Coupled, After, Granting;
    if n == 0 {
    } else {
      RangesTileInEpochOrder(quiet, states, events, k, slot, n - 1);
      CouplingHolds(quiet, states, events, n - 1);
      var grants := Grants(states, events, k, n - 1);
      TiledStep(states[n - 1], events[n - 1].txn, events[n - 1].now, k, grants);
      OrderedStep(states[n - 1], events[n - 1].txn, quiet, events[n - 1].now, k, slot, grants);
    }
  }

  // ------------------------------------------------------------------
  // Leases.

  /** The transaction registers or renews `p`'s lease. */
  predicate GrantsLease(t: Txn, p: Instance) {
    match t
    case RegisterTxn(_, id) => id == p
    case RenewTxn(id, _) => id == p
    case _ => false
  }

  lemma GrantTimeStep(st: Store, t: Txn, now: int, p: Instance)
    requires p in After(st, t, now).leases && After(st, t, now).leases[p].state == Active
    ensures var l := After(st, t, now).leases[p];
      || (p in st.leases && st.leases[p].state == Active && st.leases[p].grantedAt == l.grantedAt)
      || (GrantsLease(t, p) && l.grantedAt == now)
  {
    hide Granted, Undiscovered, Steps, Counted, Mends, Admitted, Advance, Ranges, CheckAuthority, Cancel, Freed;
  }

  /** The grant time of an ACTIVE lease is that of its instance's last registration or renewal, and the row has been
      there, ACTIVE, ever since. */
  lemma {:induction false} LeaseWasGranted(
    quiet: int, states: seq<Store>, events: seq<Event>, i: nat, p: Instance)
    returns (j: nat)
    requires IsHistory(quiet, states, events) && i < |states|
    requires p in states[i].leases && states[i].leases[p].state == Active
    ensures j < i && GrantsLease(events[j].txn, p)
    ensures forall m | j < m <= i ::
      && p in states[m].leases && states[m].leases[p].state == Active
      && states[m].leases[p].grantedAt == events[j].now
  {
    hide After;
    assert i > 0;
    GrantTimeStep(states[i - 1], events[i - 1].txn, events[i - 1].now, p);
    if p in states[i - 1].leases && states[i - 1].leases[p].state == Active
       && states[i - 1].leases[p].grantedAt == states[i].leases[p].grantedAt
    {
      j := LeaseWasGranted(quiet, states, events, i - 1, p);
    } else {
      j := i - 1;
    }
  }

  /** No range is cut at or after the end of its instance's lease: whoever cut it had registered or renewed less than
      the lease duration before, on the storage clock, and has stayed ACTIVE since. */
  lemma {:induction false} RangesCutWithinLease(
    quiet: int, states: seq<Store>, events: seq<Event>, k: Key, i: nat)
    returns (j: nat)
    requires IsHistory(quiet, states, events) && i < |events|
    requires Granting(states[i], events[i].txn, events[i].now, k).Some?
    ensures var p := events[i].txn.authority.instance;
      && j < i && GrantsLease(events[j].txn, p)
      && events[i].now < events[j].now + events[i].txn.authority.lease
      && (forall m | j < m <= i ::
            && p in states[m].leases && states[m].leases[p].state == Active
            && states[m].leases[p].grantedAt == events[j].now)
  {
    var t := events[i].txn;
    TransactionEffects.ReserveRefused(states[i], t.authority, t.reservations, events[i].now);
    j := LeaseWasGranted(quiet, states, events, i, t.authority.instance);
  }

  /** Every ID cut under a higher epoch exceeds every ID cut under a lower one. */
  lemma {:induction false} HigherEpochsCutHigher(
    quiet: int, states: seq<Store>, events: seq<Event>, k: Key, slot: Slot, n: nat, i: nat, j: nat)
    requires IsHistory(quiet, states, events) && n <= |events|
    requires forall e | 0 <= e < n :: Routed(events[e].txn, k, slot)
    requires i < |Grants(states, events, k, n)| && j < |Grants(states, events, k, n)|
    requires Grants(states, events, k, n)[i].epoch < Grants(states, events, k, n)[j].epoch
    ensures Grants(states, events, k, n)[i].range.end < Grants(states, events, k, n)[j].range.start
  {
    RangesTileInEpochOrder(quiet, states, events, k, slot, n);
    EpochsSeparate(Grants(states, events, k, n), Mark(states[n].marks, k), states[n].slots, slot, i, j);
  }
}
