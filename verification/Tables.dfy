/** The authority tables as values.

A `Store` is the content of every authority table at one instant. Rows are
immutable values; a transaction is a function from a `Store` to a `Store`
(Transactions.dfy) and, in the form the service runs it, a method that updates
the table fields of an `AuthorityStore` (AuthorityStore.dfy).
*/
module Tables {

  datatype Option<+T> = None | Some(value: T)

  type Instance = string
  type Node = string
  type Slot = nat
  type Key = string
  type Id = string

  datatype SlotState = Unowned | Owned | Draining

  /** One row of the slot ownership table. */
  datatype Row = Row(owner: Option<Instance>, epoch: nat, state: SlotState)

  datatype LeaseState = Active | Retired

  /** One row of the instance lease table. `grantedAt` is storage time. */
  datatype Lease = Lease(node: Node, revision: nat, grantedAt: int, state: LeaseState)

  datatype Kind = Transfer | Release

  datatype Phase = Planned | Ready | Drain | Transferred | Completed | Cancelled

  /** One row of the handoff table; `notBefore` is storage time. */
  datatype Handoff = Handoff(
    id: Id,
    kind: Kind,
    source: Instance,
    sourceEpoch: nat,
    target: Option<Instance>,
    phase: Phase,
    drained: bool,
    targetReady: bool,
    notBefore: Option<int>)
  {
    predicate Live() {
      phase != Completed && phase != Cancelled
    }

    /** Counted against the admission budgets. */
    predicate Inflight() {
      phase == Drain || phase == Transferred
    }
  }

  datatype Tenure = Tenure(owner: Option<Instance>, epoch: nat, expiresAt: Option<int>)

  /** The published directory: a version and an abstract decoded payload. */
  datatype Published<P> = Published(version: nat, payload: P)

  datatype Store = Store(
    leases: map<Instance, Lease>,
    slots: map<Slot, Row>,
    handoffs: map<Slot, Handoff>,
    marks: map<Key, nat>,
    tenure: Tenure)

  /** A reserved range of IDs, both ends included. */
  datatype Range = Range(start: int, end: int)

  datatype Error =
    | InvalidRequest
    | AuthorityChanged
    | LeaseExpired
    | SlotNotOwned
    | CoordinatorLost
    | StorageFailure

  datatype Result<+T> = Ok(value: T) | Err(error: Error)

  /** The protocol bounds of HAConfig. Durations are integers in one unit. */
  datatype HA = HA(
    lease: int,
    quiet: int,
    maxPause: int,
    drift: int,
    jump: int,
    margin: int)
  {
    function Floor(): int {
      lease + drift + maxPause + jump + margin
    }

    function Deadline(): int {
      lease - margin
    }

    predicate ValidAuthority() {
      && lease > 0 && maxPause > 0
      && drift >= 0 && jump >= 0 && margin > 0
      && quiet >= Floor()
    }
  }

  datatype Limits = Limits(
    batchSlots: nat,
    maxInflight: nat,
    maxPerSource: nat,
    maxPerTarget: nat,
    maxPlanned: nat)

  function Max(a: int, b: int): int {
    if a >= b then a else b
  }

  // ------------------------------------------------------------------
  // Table constraints (the schema's CHECK and REFERENCES clauses).

  predicate RowOk(r: Row) {
    match r.state
    case Unowned => r.owner == None
    case _ => r.owner.Some? && r.epoch > 0
  }

  /** A slot's row and the intent recorded for it agree. */
  predicate PairOk(r: Row, intent: Option<Handoff>) {
    && RowOk(r)
    && match intent
       case None => r.state != Draining
       case Some(h) =>
         && (h.kind == Transfer <==> h.target.Some?)
         && match h.phase
            case Planned => r == Row(Some(h.source), h.sourceEpoch, Owned) && !h.drained
            case Ready => r == Row(Some(h.source), h.sourceEpoch, Owned) && !h.drained
            case Drain => r == Row(Some(h.source), h.sourceEpoch, Draining) && h.notBefore.Some?
            case Transferred =>
              h.kind == Transfer && r == Row(h.target, h.sourceEpoch + 1, Owned) && h.notBefore.Some?
            case Completed => r.state != Draining
            case Cancelled => r.state != Draining
  }

  function IntentOf(hs: map<Slot, Handoff>, s: Slot): Option<Handoff> {
    if s in hs then Some(hs[s]) else None
  }

  /** The coupling between ownership, intents and leases, in every table at once. */
  ghost predicate Coupled(st: Store) {
    && (forall s | s in st.handoffs :: s in st.slots)
    && (forall s | s in st.slots :: PairOk(st.slots[s], IntentOf(st.handoffs, s)))
    && (forall s | s in st.slots && st.slots[s].owner.Some? :: st.slots[s].owner.value in st.leases)
  }

  /** The rows an instance holds: what an authority snapshot of it returns. */
  function View(slots: map<Slot, Row>, p: Instance): map<Slot, Row> {
    map s | s in slots && slots[s].owner == Some(p) :: slots[s]
  }

  function Tally<K>(m: map<K, nat>, k: K): nat {
    if k in m then m[k] else 0
  }

  function Bump(leases: map<Instance, Lease>, ids: set<Instance>): (r: map<Instance, Lease>)
    ensures r.Keys == leases.Keys
  {
    map i | i in leases :: if i in ids then leases[i].(revision := leases[i].revision + 1) else leases[i]
  }

  /** An ACTIVE lease whose grant has not aged past `lease` on the storage clock. */
  predicate Fresh(leases: map<Instance, Lease>, id: Option<Instance>, now: int, lease: int) {
    && id.Some?
    && id.value != ""
    && id.value in leases
    && leases[id.value].state == Active
    && lease > 0
    && now < leases[id.value].grantedAt + lease
  }
}
