/** What the remaining transactions do, told from the tables alone: when each commits, which error it
gives otherwise and what every row is afterwards. The handoff commands are in CommandEffects.
*/
module TransactionEffects {
  import opened Tables
  import opened Transactions
  import opened Automaton
  import opened CommandEffects
  import RangeOrder

  /** Nothing but the lease rows changed. */
  predicate OnlyLeases(st: Store, st': Store) {
    st'.slots == st.slots && st'.handoffs == st.handoffs && st'.marks == st.marks && st'.tenure == st.tenure
  }

  // ------------------------------------------------------------------
  // Leases.

  /** A lease row is created once, ACTIVE at revision 0, and never touched by a second registration. */
  lemma RegisterExactly(st: Store, node: Node, id: Instance, now: int)
    ensures match Register(st, node, id, now)
            case Err(e) => e == InvalidRequest && (node == "" || id == "")
            case Ok(st') =>
              && node != "" && id != "" && OnlyLeases(st, st')
              && st'.leases.Keys == st.leases.Keys + {id}
              && (forall q | q in st.leases :: st'.leases[q] == st.leases[q])
              && (id !in st.leases ==> st'.leases[id] == Lease(node, 0, now, Active))
  {
  }

  /** A renewal commits exactly at the ACTIVE row's revision, and moves its grant time alone. */
  lemma RenewExactly(st: Store, id: Instance, revision: nat, now: int)
    ensures match Renew(st, id, revision, now)
            case Err(e) =>
              e == AuthorityChanged
              && (id in st.leases ==> st.leases[id].state != Active || st.leases[id].revision != revision)
            case Ok(st') =>
              && id in st.leases && st.leases[id].state == Active && st.leases[id].revision == revision
              && OnlyLeases(st, st') && st'.leases.Keys == st.leases.Keys
              && st'.leases[id] == Lease(st.leases[id].node, revision, now, Active)
              && (forall q | q in st.leases && q != id :: st'.leases[q] == st.leases[q])
  {
  }

  /** Retirement ends an ACTIVE lease for good, one revision on; it never fails. */
  lemma RetireExactly(st: Store, id: Instance)
    ensures Retire(st, id).Ok?
    ensures var st' := Retire(st, id).value;
      && OnlyLeases(st, st') && st'.leases.Keys == st.leases.Keys
      && (forall q | q in st.leases && q != id :: st'.leases[q] == st.leases[q])
      && (id in st.leases ==>
            && st'.leases[id].state == Retired
            && st'.leases[id].node == st.leases[id].node && st'.leases[id].grantedAt == st.leases[id].grantedAt
            && st'.leases[id].revision == st.leases[id].revision + (if st.leases[id].state == Active then 1 else 0))
  {
  }

  /** The instance owns no slot and takes part in no handoff that is still going on. */
  predicate Uninvolved(st: Store, id: Instance) {
    && (forall s | s in st.slots :: st.slots[s].owner != Some(id))
    && (forall s | s in st.handoffs && (st.handoffs[s].source == id || st.handoffs[s].target == Some(id)) ::
          st.handoffs[s].phase == Completed || st.handoffs[s].phase == Cancelled)
  }

  /** Collection deletes exactly the listed leases that are quiet, not members and uninvolved. */
  lemma CollectExactly(st: Store, ids: set<Instance>, members: set<Instance>, quiet: int, now: int)
    ensures Collect(st, ids, members, quiet, now).Ok?
    ensures var st' := Collect(st, ids, members, quiet, now).value;
      && OnlyLeases(st, st')
      && (forall q :: q in st'.leases <==>
            q in st.leases
            && !(q in ids && q !in members && st.leases[q].grantedAt + quiet <= now && Uninvolved(st, q)))
      && (forall q | q in st'.leases :: st'.leases[q] == st.leases[q])
  {
    forall q | q in st.leases
      ensures Collectable(st, q, members, quiet, now) <==>
        q !in members && st.leases[q].grantedAt + quiet <= now && Uninvolved(st, q)
    {
    }
    hide Collectable, Uninvolved;
  }

  // ------------------------------------------------------------------
  // Claims.

  /** A slot is open to the claimant when nobody owns it, when another owner has been quiet for the window, or when
      it is being released and the release was acknowledged or has passed its boundary. */
  predicate Open(st: Store, req: ClaimRequest, s: Slot, now: int) {
    && s in st.slots
    && var row := st.slots[s];
       match row.state
       case Unowned => true
       case Owned =>
         && row.owner != Some(req.instance)
         && row.owner.Some? && row.owner.value in st.leases
         && st.leases[row.owner.value].grantedAt + req.quiet <= now
       case Draining =>
         s in st.handoffs && st.handoffs[s].kind == Release && Over(st.handoffs[s], now)
  }

  lemma OpenIsGrantable(st: Store, req: ClaimRequest, s: Slot, now: int)
    requires Coupled(st) && s in st.slots
    ensures Grantable(st, req, s, now) <==> Open(st, req, s, now)
  {
    assert PairOk(st.slots[s], IntentOf(st.handoffs, s));
    hide Coupled;
  }

  /** The slot is granted: named by the request and open. */
  predicate Taken(st: Store, req: ClaimRequest, s: Slot, now: int) {
    s in req.slots && Open(st, req, s, now)
  }

  /** The instance claims, and gets, some slot, or loses one to the claimant. */
  ghost predicate Party(st: Store, req: ClaimRequest, p: Instance, now: int) {
    exists s :: Taken(st, req, s, now) && (p == req.instance || st.slots[s].owner == Some(p))
  }

  predicate ClaimArguments(req: ClaimRequest) {
    req.instance != "" && req.lease > 0 && req.quiet > 0 && |req.slots| <= 1000
  }

  /** The claimant's lease is ACTIVE at the presented revision and node. */
  predicate ClaimantKnown(st: Store, req: ClaimRequest) {
    && req.instance in st.leases && st.leases[req.instance].state == Active
    && st.leases[req.instance].node == req.node && st.leases[req.instance].revision == req.revision
  }

  predicate SlotsKnown(st: Store, slots: seq<Slot>) {
    && (forall i, j | 0 <= i < j < |slots| :: slots[i] != slots[j])
    && (forall i | 0 <= i < |slots| :: slots[i] in st.slots)
  }

  predicate OwnersLocked(st: Store, slots: seq<Slot>, locked: set<Instance>) {
    forall i | 0 <= i < |slots| && slots[i] in st.slots && st.slots[slots[i]].owner.Some? ::
      st.slots[slots[i]].owner.value in locked
  }

  /** When a claim is refused, and with which error. */
  lemma ClaimRefused(st: Store, req: ClaimRequest, locked: set<Instance>, now: int)
    requires Coupled(st)
    ensures match Claim(st, req, locked, now)
            case Ok(_) =>
              && ClaimArguments(req)
              && (req.slots != [] ==>
                    && SlotsKnown(st, req.slots) && ClaimantKnown(st, req) && OwnersLocked(st, req.slots, locked)
                    && now < st.leases[req.instance].grantedAt + req.lease)
            case Err(InvalidRequest) => !ClaimArguments(req)
            case Err(SlotNotOwned) => ClaimArguments(req) && !SlotsKnown(st, req.slots)
            case Err(LeaseExpired) =>
              && SlotsKnown(st, req.slots) && ClaimantKnown(st, req)
              && now >= st.leases[req.instance].grantedAt + req.lease
            case Err(AuthorityChanged) =>
              && SlotsKnown(st, req.slots) && req.slots != []
              && (ClaimantKnown(st, req) ==>
                    now < st.leases[req.instance].grantedAt + req.lease && !OwnersLocked(st, req.slots, locked))
            case Err(_) => false
  {
    LockedIs(st, req.slots, locked);
    assert SlotsKnown(st, req.slots) <==> Distinct(req.slots) && forall s | s in req.slots :: s in st.slots;
    hide Coupled, Granted, Undiscovered, OwnersLocked, Grant, SlotsKnown;
  }

  lemma LockedIs(st: Store, slots: seq<Slot>, locked: set<Instance>)
    requires Coupled(st)
    ensures Undiscovered(st, slots, locked) <==> !OwnersLocked(st, slots, locked)
  {
    if Undiscovered(st, slots, locked) {
      var s :| s in slots && s in st.slots && st.slots[s].owner.Some?
                && !(st.slots[s].owner.value in locked && st.slots[s].owner.value in st.leases);
      var i :| 0 <= i < |slots| && slots[i] == s;
      assert st.slots[slots[i]].owner.value !in locked;
    }
    if !OwnersLocked(st, slots, locked) {
      var i :| 0 <= i < |slots| && slots[i] in st.slots && st.slots[slots[i]].owner.Some?
                && st.slots[slots[i]].owner.value !in locked;
      assert slots[i] in slots;
    }
  }

  /** What a committed claim leaves: exactly the open slots of the request are the claimant's, one epoch on and with
      no live intent, and exactly the claimant and those it took a slot from have moved one revision. */
  lemma ClaimExactly(st: Store, req: ClaimRequest, locked: set<Instance>, now: int, st': Store)
    requires Coupled(st) && Claim(st, req, locked, now) == Ok(st')
    ensures st'.slots.Keys == st.slots.Keys && st'.handoffs.Keys == st.handoffs.Keys
    ensures st'.leases.Keys == st.leases.Keys && st'.marks == st.marks && st'.tenure == st.tenure
    ensures forall s | s in st.slots ::
      st'.slots[s] ==
        if Taken(st, req, s, now) then Row(Some(req.instance), st.slots[s].epoch + 1, Owned) else st.slots[s]
    ensures forall s | s in st.handoffs ::
      st'.handoffs[s] ==
        if Taken(st, req, s, now) && st.handoffs[s].phase != Completed then st.handoffs[s].(phase := Cancelled)
        else st.handoffs[s]
    ensures forall p | p in st.leases ::
      st'.leases[p] ==
        if Party(st, req, p, now) then st.leases[p].(revision := st.leases[p].revision + 1) else st.leases[p]
  {
    hide Open, Grantable, Coupled;
    var granted := Granted(st, req, req.slots, now);
    forall s ensures s in granted <==> Taken(st, req, s, now) {
      if s in st.slots {
        OpenIsGrantable(st, req, s, now);
      } else {
        NotOpen(st, req, s, now);
      }
    }
    ClaimCommits(st, req, locked, now, st');
    hide Claim, Granted, Taken, ClaimArguments;
    if granted == {} {
      NoParty(st, req, now);
    } else {
      forall p ensures p in {req.instance} + Owners(st, granted) <==> Party(st, req, p, now) {
        PartyIs(st, req, now, granted, p);
      }
      hide Party, Owners;
      IntentsLive(st);
      HandoffSlots(st);
    }
  }

  lemma NotOpen(st: Store, req: ClaimRequest, s: Slot, now: int)
    requires s !in st.slots
    ensures !Open(st, req, s, now)
  {
  }

  lemma HandoffSlots(st: Store)
    requires Coupled(st)
    ensures forall s | s in st.handoffs :: s in st.slots
  {
  }

  lemma IntentsLive(st: Store)
    ensures forall s | s in st.handoffs ::
      st.handoffs[s].Live() || st.handoffs[s].phase == Completed || st.handoffs[s].phase == Cancelled
  {
  }

  lemma ClaimCommits(st: Store, req: ClaimRequest, locked: set<Instance>, now: int, st': Store)
    requires Claim(st, req, locked, now) == Ok(st')
    ensures var granted := Granted(st, req, req.slots, now);
      st' == if granted == {} then st else Grant(st, req.instance, granted)
  {
    hide Grant, Grantable, Undiscovered;
  }

  lemma NoParty(st: Store, req: ClaimRequest, now: int)
    requires forall s :: !Taken(st, req, s, now)
    ensures forall p: Instance :: !Party(st, req, p, now)
  {
    hide Taken;
  }

  lemma PartyIs(st: Store, req: ClaimRequest, now: int, granted: set<Slot>, p: Instance)
    requires granted != {} && forall s :: s in granted <==> Taken(st, req, s, now)
    ensures p in {req.instance} + Owners(st, granted) <==> Party(st, req, p, now)
  {
    TakenKnown(st, req, now);
    hide Taken;
    var one :| one in granted;
    assert Taken(st, req, one, now);
  }

  lemma TakenKnown(st: Store, req: ClaimRequest, now: int)
    ensures forall s | Taken(st, req, s, now) :: s in st.slots
  {
  }

  // ------------------------------------------------------------------
  // Range reservation.

  /** Some character of the key is not white space. */
  predicate Inked(k: Key) {
    exists i :: 0 <= i < |k| && k[i] !in {' ', '\t', '\n', '\r', '\U{000B}', '\U{000C}'}
  }

  /** The arguments of a reservation: an instance with a lease and slots of its own, and at least one request, each
      with a key of its own that is neither blank nor too long and a step that is positive. */
  predicate ReserveArguments(a: Authority, rs: seq<Reservation>) {
    && a.instance != "" && a.lease > 0 && a.epochs != map[] && rs != []
    && (forall i | 0 <= i < |rs| :: rs[i].step > 0 && |rs[i].key| <= 256)
    && (forall i | 0 <= i < |rs| :: Inked(rs[i].key))
    && (forall i, j | 0 <= i < j < |rs| :: rs[i].key != rs[j].key)
  }

  /** The lease row is there, ACTIVE and at the presented revision. */
  predicate LeaseStands(st: Store, a: Authority) {
    && a.instance in st.leases && st.leases[a.instance].state == Active
    && st.leases[a.instance].revision == a.revision
  }

  /** Every slot asked for is OWNED by the instance at the epoch it presents. */
  predicate SlotsHeld(st: Store, a: Authority, rs: seq<Reservation>) {
    forall i | 0 <= i < |rs| ::
      && rs[i].slot in a.epochs && rs[i].slot in st.slots
      && st.slots[rs[i].slot] == Row(Some(a.instance), a.epochs[rs[i].slot], Owned)
  }

  function MarkOf(st: Store, k: Key): nat {
    if k in st.marks then st.marks[k] else 0
  }

  predicate MarksFit(st: Store, rs: seq<Reservation>) {
    forall i | 0 <= i < |rs| :: MarkOf(st, rs[i].key) + rs[i].step <= 0x7fff_ffff_ffff_ffff
  }

  /** When a reservation is refused, and with which error: arguments first, then revision, age, ownership and
      overflow. */
  lemma ReserveRefused(st: Store, a: Authority, rs: seq<Reservation>, now: int)
    ensures match Reserve(st, a, rs, now)
            case Ok(_) =>
              && ReserveArguments(a, rs) && LeaseStands(st, a) && now < st.leases[a.instance].grantedAt + a.lease
              && SlotsHeld(st, a, rs) && MarksFit(st, rs)
            case Err(InvalidRequest) => !ReserveArguments(a, rs)
            case Err(AuthorityChanged) => ReserveArguments(a, rs) && !LeaseStands(st, a)
            case Err(LeaseExpired) =>
              && ReserveArguments(a, rs) && LeaseStands(st, a) && now >= st.leases[a.instance].grantedAt + a.lease
            case Err(SlotNotOwned) =>
              && ReserveArguments(a, rs) && LeaseStands(st, a) && now < st.leases[a.instance].grantedAt + a.lease
              && !SlotsHeld(st, a, rs)
            case Err(StorageFailure) =>
              && ReserveArguments(a, rs) && LeaseStands(st, a) && now < st.leases[a.instance].grantedAt + a.lease
              && SlotsHeld(st, a, rs) && !MarksFit(st, rs)
            case Err(CoordinatorLost) => false
  {
    ArgumentsAre(a, rs);
    HeldIs(st, a, rs);
    assert MarksFit(st, rs) <==> !exists i :: 0 <= i < |rs| && Overflows(st.marks, rs[i]);
    hide ReserveArguments, ValidReservations, SlotsHeld, MarksFit, Holds, Overflows, Advance, Ranges;
  }

  lemma ArgumentsAre(a: Authority, rs: seq<Reservation>)
    ensures ReserveArguments(a, rs) <==>
      a.instance != "" && a.lease > 0 && |a.epochs| > 0 && ValidReservations(rs)
  {
    forall i | 0 <= i < |rs| ensures Blank(rs[i].key) <==> !Inked(rs[i].key) {
      InkedIs(rs[i].key);
    }
    hide Blank, Inked;
  }

  lemma InkedIs(k: Key)
    ensures Blank(k) <==> !Inked(k)
  {
    if Inked(k) {
      var i :| 0 <= i < |k| && k[i] !in {' ', '\t', '\n', '\r', '\U{000B}', '\U{000C}'};
      assert k[i] in k;
    }
  }

  lemma HeldIs(st: Store, a: Authority, rs: seq<Reservation>)
    ensures SlotsHeld(st, a, rs) <==> !exists i :: 0 <= i < |rs| && !Holds(st.slots, a, rs[i].slot)
  {
  }

  /** A committed reservation hands each key the range right after its watermark, in the order asked, moves each
      watermark to the end of its range and nothing else. */
  lemma {:induction false} ReserveExactly(
    st: Store, a: Authority, rs: seq<Reservation>, now: int, st': Store, ranges: seq<Range>)
    requires Reserve(st, a, rs, now) == Ok((st', ranges))
    ensures st' == st.(marks := st'.marks) && |ranges| == |rs|
    ensures forall i | 0 <= i < |rs| ::
      && ranges[i] == Range(MarkOf(st, rs[i].key) + 1, MarkOf(st, rs[i].key) + rs[i].step)
      && MarkOf(st', rs[i].key) == MarkOf(st, rs[i].key) + rs[i].step
    ensures forall k: Key ::
      (forall i | 0 <= i < |rs| :: rs[i].key != k) ==> MarkOf(st', k) == MarkOf(st, k)
  {
    ReserveRefused(st, a, rs, now);
    hide Advance, CheckAuthority, Overflows, ValidReservations;
    forall k: Key ensures MarkOf(st', k) == MarkOf(st, k) + StepOf(rs, k) {
      RangeOrder.AdvanceMarks(st.marks, rs, k);
    }
    forall i | 0 <= i < |rs| ensures StepOf(rs, rs[i].key) == rs[i].step {
      assert RangeOrder.Find(rs, rs[i].key).Some?;
    }
    hide RangeOrder.Find;
  }

  /** How far a request moves a key's watermark. */
  function StepOf(rs: seq<Reservation>, k: Key): int {
    var i := RangeOrder.Find(rs, k);
    if i.Some? then rs[i.value].step else 0
  }

  // ------------------------------------------------------------------
  // Planning.

  /** The tenure is the token's, at its epoch, and has not run out. */
  predicate Reigns(t: Tenure, token: Token, now: int) {
    && token.held && t.owner == Some(token.instance) && t.epoch == token.epoch
    && t.expiresAt.Some? && now < t.expiresAt.value
  }

  /** A plan for a transfer of an idle owned slot between two current instances. */
  predicate Actionable(st: Store, p: Plan, lease: int, now: int) {
    && p.slot in st.slots
    && st.slots[p.slot] == Row(Some(p.intent.source), p.intent.sourceEpoch, Owned)
    && p.intent.target.Some?
    && Current(st.leases, p.intent.source, lease, now) && Current(st.leases, p.intent.target.value, lease, now)
    && (p.slot in st.handoffs ==>
          st.handoffs[p.slot].phase == Completed || st.handoffs[p.slot].phase == Cancelled)
  }

  lemma ActionableIs(st: Store, p: Plan, lease: int, now: int)
    ensures Actionable(st, p, lease, now) <==> Plannable(st, p, lease, now)
  {
  }

  /** A plan as the planner makes one. */
  predicate WellMade(p: Plan) {
    && p.intent.id != "" && p.intent.kind == Transfer && p.intent.phase == Planned && p.intent.sourceEpoch > 0
    && p.intent.target != Some(p.intent.source)
  }

  /** The slots whose handoff is still going on. */
  function Pending(hs: map<Slot, Handoff>): set<Slot> {
    set s | s in hs && hs[s].phase in {Planned, Ready, Drain, Transferred}
  }

  /** The batch's last actionable plan for the slot. */
  predicate Chosen(st: Store, plans: seq<Plan>, lease: int, now: int, s: Slot, i: int) {
    && 0 <= i < |plans| && plans[i].slot == s && Actionable(st, plans[i], lease, now)
    && forall j | i < j < |plans| :: !(plans[j].slot == s && Actionable(st, plans[j], lease, now))
  }

  lemma {:induction false} AdmittedIs(st: Store, plans: seq<Plan>, lease: int, now: int, s: Slot)
    ensures s in Admitted(st, plans, lease, now) <==> exists i :: Chosen(st, plans, lease, now, s, i)
    ensures forall i | Chosen(st, plans, lease, now, s, i) ::
      s in Admitted(st, plans, lease, now) && Admitted(st, plans, lease, now)[s] == plans[i].intent
  {
    hide Actionable, Plannable;
    if plans != [] {
      var front, last := plans[..|plans| - 1], plans[|plans| - 1];
      AdmittedIs(st, front, lease, now, s);
      ActionableIs(st, last, lease, now);
      if last.slot == s && Actionable(st, last, lease, now) {
        assert Chosen(st, plans, lease, now, s, |plans| - 1);
      } else {
        assert forall i :: Chosen(st, front, lease, now, s, i) ==> Chosen(st, plans, lease, now, s, i);
        assert forall i :: Chosen(st, plans, lease, now, s, i) ==> Chosen(st, front, lease, now, s, i);
      }
    }
  }

  /** When a plan is refused, and with which error. A batch that would leave too many pending is no error. */
  lemma PlanRefused(st: Store, plans: seq<Plan>, token: Token, limits: Limits, lease: int, now: int)
    ensures match PlanHandoffs(st, plans, token, limits, lease, now)
            case Err(CoordinatorLost) => 0 < |plans| <= limits.batchSlots && !Reigns(st.tenure, token, now)
            case Err(InvalidRequest) =>
              || |plans| > limits.batchSlots
              || (&& Reigns(st.tenure, token, now) && |Pending(st.handoffs)| + |plans| <= limits.maxPlanned
                  && exists i :: 0 <= i < |plans| && !WellMade(plans[i]))
            case Err(_) => false
            case Ok(st') =>
              && (plans != [] ==> |plans| <= limits.batchSlots && Reigns(st.tenure, token, now))
              && (plans != [] && |Pending(st.handoffs)| + |plans| <= limits.maxPlanned ==>
                    forall i | 0 <= i < |plans| :: WellMade(plans[i]))
  {
    hide Admitted;
    assert Pending(st.handoffs) == LiveSlots(st.handoffs);
    forall i | 0 <= i < |plans| ensures WellMade(plans[i]) <==> PlanValid(plans[i].intent) {
    }
    hide Pending, LiveSlots, WellMade, PlanValid;
  }

  /** Planning records each slot's actionable plan, unless that would leave too many pending; no other row moves. */
  lemma {:induction false} PlanExactly(
    st: Store, plans: seq<Plan>, token: Token, limits: Limits, lease: int, now: int, st': Store)
    requires PlanHandoffs(st, plans, token, limits, lease, now) == Ok(st')
    ensures st' == st.(handoffs := st'.handoffs)
    ensures plans == [] || |Pending(st.handoffs)| + |plans| > limits.maxPlanned ==> st' == st
    ensures |Pending(st.handoffs)| + |plans| <= limits.maxPlanned ==>
      && (forall s, i | Chosen(st, plans, lease, now, s, i) ::
            s in st'.handoffs && st'.handoffs[s] == plans[i].intent)
      && (forall s :: (forall i :: !Chosen(st, plans, lease, now, s, i)) ==> Unmoved(st, st', s))
  {
    hide Admitted, Actionable;
    assert Pending(st.handoffs) == LiveSlots(st.handoffs);
    hide Pending, LiveSlots, PlanValid, Guarded;
    forall s: Slot
      ensures s in Admitted(st, plans, lease, now) <==> exists i :: Chosen(st, plans, lease, now, s, i)
      ensures forall i | Chosen(st, plans, lease, now, s, i) ::
        s in Admitted(st, plans, lease, now) && Admitted(st, plans, lease, now)[s] == plans[i].intent
    {
      AdmittedIs(st, plans, lease, now, s);
    }
    hide Chosen;
  }

  // ------------------------------------------------------------------
  // Recovery.

  /** `nodes[i]` is the first listed instance, other than the source, with a current lease. */
  predicate FirstCurrent(
    leases: map<Instance, Lease>, nodes: seq<Instance>, source: Instance, lease: int, now: int, i: int)
  {
    && 0 <= i < |nodes| && nodes[i] != source && Current(leases, nodes[i], lease, now)
    && forall j | 0 <= j < i :: nodes[j] == source || !Current(leases, nodes[j], lease, now)
  }

  lemma {:induction false} ReplacementIs(
    leases: map<Instance, Lease>, nodes: seq<Instance>, source: Instance, lease: int, now: int)
    ensures match Replacement(leases, nodes, source, lease, now)
            case None => forall i :: !FirstCurrent(leases, nodes, source, lease, now, i)
            case Some(t) => exists i :: FirstCurrent(leases, nodes, source, lease, now, i) && t == nodes[i]
  {
    hide Fresh, Current;
    if nodes != [] {
      FreshIs(leases, Some(nodes[0]), now, lease);
      ReplacementIs(leases, nodes[1..], source, lease, now);
      if nodes[0] != source && Current(leases, nodes[0], lease, now) {
        assert FirstCurrent(leases, nodes, source, lease, now, 0);
      } else if Replacement(leases, nodes[1..], source, lease, now).Some? {
        var i :| FirstCurrent(leases, nodes[1..], source, lease, now, i)
                 && Replacement(leases, nodes[1..], source, lease, now) == Some(nodes[1..][i]);
        assert forall j | 0 <= j < i :: nodes[1..][j] == nodes[j + 1];
        assert FirstCurrent(leases, nodes, source, lease, now, i + 1);
      } else {
        forall i | FirstCurrent(leases, nodes, source, lease, now, i)
          ensures FirstCurrent(leases, nodes[1..], source, lease, now, i - 1)
        {
          assert forall j | 0 <= j < |nodes| - 1 :: nodes[1..][j] == nodes[j + 1];
        }
      }
    }
  }

  lemma FirstIsOne(
    leases: map<Instance, Lease>, nodes: seq<Instance>, source: Instance, lease: int, now: int, i: int, j: int)
    requires FirstCurrent(leases, nodes, source, lease, now, i) && FirstCurrent(leases, nodes, source, lease, now, j)
    ensures i == j
  {
    hide Current;
  }

  /** The repair of one candidate: an intent that never drained is cancelled; the drain of a release past its
      boundary is finished; the drain of a transfer is redirected, unready and under a new identity, to the first
      other current instance, or turned into a release when there is none; a transferred intent that is not the one
      read is cancelled; anything else stays. */
  ghost predicate Repaired(
    st: Store, st': Store, nodes: seq<Instance>, ha: HA, mint: Slot -> Id, c: Candidate, now: int)
  {
    var s := c.slot;
    if s !in st.handoffs || s !in st.slots || st.handoffs[s].id != c.id then Unmoved(st, st', s)
    else
      var h, row := st.handoffs[s], st.slots[s];
      match h.phase
      case Planned => Becomes(st', s, h.(phase := Cancelled), row)
      case Ready => Becomes(st', s, h.(phase := Cancelled), row)
      case Drain =>
        if h.kind == Release then
          if h.notBefore.Some? && now >= h.notBefore.value then
            Becomes(st', s, h.(phase := Completed), Row(None, h.sourceEpoch, Unowned))
          else Unmoved(st, st', s)
        else if exists i :: FirstCurrent(st.leases, nodes, h.source, ha.lease, now, i) then
          forall i | FirstCurrent(st.leases, nodes, h.source, ha.lease, now, i) ::
            var h' := h.(target := Some(nodes[i]), id := mint(s), drained := false, targetReady := false);
            Becomes(st', s, h', row)
        else
          Becomes(st', s, h.(kind := Release, target := None, id := mint(s), targetReady := false), row)
      case Transferred =>
        if h.target == c.target && h.sourceEpoch == c.sourceEpoch then Unmoved(st, st', s)
        else Becomes(st', s, h.(phase := Cancelled), row)
      case Completed => Unmoved(st, st', s)
      case Cancelled => Unmoved(st, st', s)
  }

  /** What one repair left in the rows to be written. */
  predicate Kept(m: Mended, s: Slot, r: Repair) {
    match r
    case Untouched => s !in m.intents && s !in m.freed
    case Rewrite(h) => s in m.intents && m.intents[s] == h && s !in m.freed
    case Free(h) => s in m.intents && m.intents[s] == h && s in m.freed && h.source in m.revised
  }

  /** What the repairs of the candidates left altogether. */
  predicate Mending(m: Mended, cs: seq<Candidate>, repairs: seq<Repair>)
    requires |repairs| == |cs|
  {
    && (forall k | 0 <= k < |cs| :: Kept(m, cs[k].slot, repairs[k]))
    && (forall s | s in m.intents :: exists k :: 0 <= k < |cs| && cs[k].slot == s)
    && (forall s | s in m.freed :: s in m.intents)
    && (forall p | p in m.revised ::
          exists k :: 0 <= k < |cs| && repairs[k].Free? && repairs[k].intent.source == p)
  }

  function Repairs(
    st: Store, nodes: seq<Instance>, ha: HA, mint: Slot -> Id, cs: seq<Candidate>, now: int): seq<Repair>
  {
    seq(|cs|, k requires 0 <= k < |cs| => Mend(st, nodes, ha, mint, cs[k], now))
  }

  /** One more repair. */
  predicate MendedMore(m: Mended, m': Mended, s: Slot, r: Repair) {
    match r
    case Untouched => m' == m
    case Rewrite(h) => m' == m.(intents := m.intents[s := h])
    case Free(h) => m' == Mended(m.intents[s := h], m.freed + {s}, m.revised + {h.source})
  }

  lemma KeptMore(m: Mended, m': Mended, s: Slot, r: Repair, s0: Slot, r0: Repair)
    requires MendedMore(m, m', s, r)
    ensures s0 != s && Kept(m, s0, r0) ==> Kept(m', s0, r0)
    ensures s !in m.intents && s !in m.freed ==> Kept(m', s, r)
  {
  }

  lemma MendingMore(m: Mended, m': Mended, cs: seq<Candidate>, repairs: seq<Repair>)
    requires |repairs| == |cs| > 0 && DistinctCandidates(cs)
    requires Mending(m, cs[..|cs| - 1], repairs[..|cs| - 1])
    requires MendedMore(m, m', cs[|cs| - 1].slot, repairs[|cs| - 1])
    ensures Mending(m', cs, repairs)
  {
    hide Kept;
    var n, front, before := |cs| - 1, cs[..|cs| - 1], repairs[..|cs| - 1];
    assert cs[n].slot !in m.intents;
    forall k | 0 <= k < |cs| ensures Kept(m', cs[k].slot, repairs[k]) {
      if k < n {
        assert Kept(m, front[k].slot, before[k]);
      }
      KeptMore(m, m', cs[n].slot, repairs[n], cs[k].slot, repairs[k]);
    }
    hide DistinctCandidates;
    forall s | s in m'.intents ensures exists k :: 0 <= k < |cs| && cs[k].slot == s {
      if s in m.intents {
        var k :| 0 <= k < n && front[k].slot == s;
        assert cs[k].slot == s;
      } else {
        assert cs[n].slot == s;
      }
    }
    forall p | p in m'.revised
      ensures exists k :: 0 <= k < |cs| && repairs[k].Free? && repairs[k].intent.source == p
    {
      if p in m.revised {
        var k :| 0 <= k < n && before[k].Free? && before[k].intent.source == p;
        assert repairs[k].Free? && repairs[k].intent.source == p;
      } else {
        assert repairs[n].Free? && repairs[n].intent.source == p;
      }
    }
  }

  lemma {:induction false} MendsAre(
    st: Store, nodes: seq<Instance>, ha: HA, mint: Slot -> Id, cs: seq<Candidate>, now: int)
    requires DistinctCandidates(cs)
    ensures Mending(Mends(st, nodes, ha, mint, cs, now), cs, Repairs(st, nodes, ha, mint, cs, now))
  {
    hide Mend, Mending, Kept;
    if cs == [] {
      assert Repairs(st, nodes, ha, mint, cs, now) == [];
      MendingNone(cs);
    } else {
      var front := cs[..|cs| - 1];
      MendsAre(st, nodes, ha, mint, front, now);
      var repairs := Repairs(st, nodes, ha, mint, cs, now);
      assert repairs[..|cs| - 1] == Repairs(st, nodes, ha, mint, front, now);
      MendingMore(Mends(st, nodes, ha, mint, front, now), Mends(st, nodes, ha, mint, cs, now), cs, repairs);
    }
  }

  lemma MendingNone(cs: seq<Candidate>)
    requires cs == []
    ensures Mending(Mended(map[], {}, {}), cs, [])
  {
  }

  lemma {:induction false} MendIs(
    st: Store, st': Store, nodes: seq<Instance>, ha: HA, mint: Slot -> Id, c: Candidate, now: int)
    requires Coupled(st)
    requires match Mend(st, nodes, ha, mint, c, now)
             case Untouched => Unmoved(st, st', c.slot)
             case Rewrite(h) => c.slot in st.slots ==> Becomes(st', c.slot, h, st.slots[c.slot])
             case Free(h) => c.slot in st.slots ==>
               Becomes(st', c.slot, h, Row(None, st.slots[c.slot].epoch, Unowned))
    ensures Repaired(st, st', nodes, ha, mint, c, now)
    ensures Mend(st, nodes, ha, mint, c, now).Free? ==>
      c.slot in st.slots && st.slots[c.slot].owner == Some(Mend(st, nodes, ha, mint, c, now).intent.source)
  {
    hide Unmoved, Becomes, FirstCurrent, Replacement;
    if c.slot in st.handoffs {
      assert c.slot in st.slots;
      assert PairOk(st.slots[c.slot], IntentOf(st.handoffs, c.slot));
      var h := st.handoffs[c.slot];
      ReplacementIs(st.leases, nodes, h.source, ha.lease, now);
      forall i, j | FirstCurrent(st.leases, nodes, h.source, ha.lease, now, i)
                    && FirstCurrent(st.leases, nodes, h.source, ha.lease, now, j)
        ensures i == j
      {
        FirstIsOne(st.leases, nodes, h.source, ha.lease, now, i, j);
      }
    }
    hide Coupled;
  }

  /** Recovery under a running tenure; without candidates it does nothing. */
  lemma {:induction false} RecoverRefused(
    st: Store, token: Token, nodes: seq<Instance>, ha: HA, mint: Slot -> Id, cs: seq<Candidate>, now: int)
    ensures match RecoverHandoffs(st, token, nodes, ha, mint, cs, now)
            case Ok(_) => cs == [] || Reigns(st.tenure, token, now)
            case Err(e) => e == CoordinatorLost && cs != [] && !Reigns(st.tenure, token, now)
  {
    hide Mends;
  }

  function Recovered(st: Store, m: Mended): Store {
    st.(slots := Freed(st.slots, m.freed), handoffs := st.handoffs + m.intents, leases := Bump(st.leases, m.revised))
  }

  lemma {:induction false} RecoverCommits(
    st: Store, token: Token, nodes: seq<Instance>, ha: HA, mint: Slot -> Id, cs: seq<Candidate>, now: int, st': Store)
    requires RecoverHandoffs(st, token, nodes, ha, mint, cs, now) == Ok(st')
    requires Mending(Mends(st, nodes, ha, mint, cs, now), cs, Repairs(st, nodes, ha, mint, cs, now))
    ensures st' == Recovered(st, Mends(st, nodes, ha, mint, cs, now))
  {
    var m, repairs := Mends(st, nodes, ha, mint, cs, now), Repairs(st, nodes, ha, mint, cs, now);
    hide Mends, Mend, Guarded;
    forall p | p in m.revised ensures m.freed != {} {
      var k :| 0 <= k < |cs| && repairs[k].Free? && repairs[k].intent.source == p;
      assert Kept(m, cs[k].slot, repairs[k]);
    }
    if m.freed == {} {
      assert Freed(st.slots, {}) == st.slots && Bump(st.leases, {}) == st.leases;
    }
    if cs == [] {
      assert st.handoffs + m.intents == st.handoffs;
    }
  }

  lemma RecoveredRow(st: Store, m: Mended, s: Slot, r: Repair)
    requires Kept(m, s, r)
    ensures match r
            case Untouched => Unmoved(st, Recovered(st, m), s)
            case Rewrite(h) => s in st.slots ==> Becomes(Recovered(st, m), s, h, st.slots[s])
            case Free(h) => s in st.slots ==>
              Becomes(Recovered(st, m), s, h, Row(None, st.slots[s].epoch, Unowned))
  {
    hide Bump;
  }

  lemma RecoveredElsewhere(st: Store, m: Mended, s: Slot)
    requires s !in m.intents && s !in m.freed
    ensures Unmoved(st, Recovered(st, m), s)
  {
    hide Bump;
  }

  lemma RecoveredLeases(
    st: Store, nodes: seq<Instance>, ha: HA, mint: Slot -> Id, cs: seq<Candidate>, now: int, m: Mended, p: Instance)
    requires Coupled(st) && Mending(m, cs, Repairs(st, nodes, ha, mint, cs, now))
    ensures p in m.revised <==> Concerned(st, Recovered(st, m), p)
  {
    hide Coupled, Mend, Unmoved, Repaired, Concerned, Bump;
    var st', repairs := Recovered(st, m), Repairs(st, nodes, ha, mint, cs, now);
    if p in m.revised {
      var k :| 0 <= k < |cs| && repairs[k].Free? && repairs[k].intent.source == p;
      assert Kept(m, cs[k].slot, repairs[k]);
      RecoveredRow(st, m, cs[k].slot, repairs[k]);
      MendIs(st, st', nodes, ha, mint, cs[k], now);
      ConcernedBy(st, st', p, cs[k].slot);
    }
    if Concerned(st, st', p) {
      var s := ConcernedSlot(st, st', p);
      assert s in m.freed;
      var k :| 0 <= k < |cs| && cs[k].slot == s;
      assert Kept(m, cs[k].slot, repairs[k]);
      RecoveredRow(st, m, s, repairs[k]);
      MendIs(st, st', nodes, ha, mint, cs[k], now);
    }
  }

  lemma ConcernedSlot(st: Store, st': Store, p: Instance) returns (s: Slot)
    requires Concerned(st, st', p)
    ensures s in st.slots && s in st'.slots && st'.slots[s] != st.slots[s]
    ensures st.slots[s].owner == Some(p) || st'.slots[s].owner == Some(p)
  {
    s :| && s in st.slots && s in st'.slots && st'.slots[s] != st.slots[s]
         && (st.slots[s].owner == Some(p) || st'.slots[s].owner == Some(p));
  }

  /** A committed recovery repairs each candidate and moves no other slot; a revision moves, by one, exactly when
      its instance owned a slot that was freed. */
  lemma {:induction false} RecoverExactly(
    st: Store, token: Token, nodes: seq<Instance>, ha: HA, mint: Slot -> Id, cs: seq<Candidate>, now: int, st': Store)
    requires Coupled(st) && DistinctCandidates(cs)
    requires RecoverHandoffs(st, token, nodes, ha, mint, cs, now) == Ok(st')
    ensures forall k | 0 <= k < |cs| :: Repaired(st, st', nodes, ha, mint, cs[k], now)
    ensures forall s: Slot :: (forall k | 0 <= k < |cs| :: cs[k].slot != s) ==> Unmoved(st, st', s)
    ensures st'.marks == st.marks && st'.tenure == st.tenure && st'.leases.Keys == st.leases.Keys
    ensures forall p | p in st.leases ::
      st'.leases[p] ==
        if Concerned(st, st', p) then st.leases[p].(revision := st.leases[p].revision + 1) else st.leases[p]
  {
    hide Mends, Mend, Coupled, DistinctCandidates, Repaired, Concerned, RecoverHandoffs, Recovered, Kept, Unmoved;
    var m, repairs := Mends(st, nodes, ha, mint, cs, now), Repairs(st, nodes, ha, mint, cs, now);
    MendsAre(st, nodes, ha, mint, cs, now);
    RecoverCommits(st, token, nodes, ha, mint, cs, now, st');
    forall k | 0 <= k < |cs| ensures Repaired(st, st', nodes, ha, mint, cs[k], now) {
      RecoveredRow(st, m, cs[k].slot, repairs[k]);
      MendIs(st, st', nodes, ha, mint, cs[k], now);
    }
    forall s: Slot | (forall k | 0 <= k < |cs| :: cs[k].slot != s) ensures Unmoved(st, st', s) {
      RecoveredElsewhere(st, m, s);
    }
    forall p | p in st.leases ensures p in m.revised <==> Concerned(st, st', p) {
      RecoveredLeases(st, nodes, ha, mint, cs, now, m, p);
    }
    RecoveredRest(st, m);
  }

  lemma RecoveredRest(st: Store, m: Mended)
    ensures var st' := Recovered(st, m);
      && st'.marks == st.marks && st'.tenure == st.tenure && st'.leases.Keys == st.leases.Keys
      && forall p | p in st.leases ::
           st'.leases[p] ==
             if p in m.revised then st.leases[p].(revision := st.leases[p].revision + 1) else st.leases[p]
  {
  }
}
