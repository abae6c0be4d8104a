/** The authority store in the form the service runs it: tables updated by transactions.

Each method is one transaction. Its loops work row by row, as the service does; its
contract says that the tables it leaves are exactly those of the transaction's
specification in Transactions.dfy, about which everything else is proved.
*/
module AuthorityTables {
  import opened Tables
  import opened Transactions
  import opened Automaton
  import Route
  import Coordinator

  /** The error of a transaction that was rolled back. */
  function Refusal(r: Result<Store>): Option<Error> {
    if r.Err? then Some(r.error) else None
  }

  class AuthorityStore {
    var leases: map<Instance, Lease>
    var slots: map<Slot, Row>
    var handoffs: map<Slot, Handoff>
    var marks: map<Key, nat>
    var tenure: Tenure
    var route: Option<Published<Route.Payload>>

    function State(): Store
      reads this
    {
      Store(leases, slots, handoffs, marks, tenure)
    }

    /** The migration's baseline, over the given slot space. */
    constructor (space: set<Slot>)
      ensures slots.Keys == space && forall s | s in slots :: slots[s] == Row(None, 0, Unowned)
      ensures leases == map[] && handoffs == map[] && marks == map[] && tenure == Tenure(None, 0, None) && route == None
    {
      leases, handoffs, marks, tenure, route := map[], map[], map[], Tenure(None, 0, None), None;
      slots := map s | s in space :: Row(None, 0, Unowned);
    }

    // ----------------------------------------------------------------
    // Leases.

    method RegisterInstance(node: Node, id: Instance, now: int) returns (error: Option<Error>)
      modifies `leases
      ensures State() == After(old(State()), RegisterTxn(node, id), now)
      ensures error ==
        if node == "" || id == "" then Some(InvalidRequest)
        else if id in leases && leases[id].node == node && leases[id].state == Active then None
        else Some(AuthorityChanged)
    {
      if node == "" || id == "" {
        return Some(InvalidRequest);
      }
      if id !in leases {
        leases := leases[id := Lease(node, 0, now, Active)];
      }
      if leases[id].node != node || leases[id].state != Active {
        return Some(AuthorityChanged);
      }
      return None;
    }

    method RenewInstance(id: Instance, revision: nat, now: int) returns (error: Option<Error>)
      modifies `leases
      ensures State() == After(old(State()), RenewTxn(id, revision), now)
      ensures error == Refusal(Run(old(State()), RenewTxn(id, revision), now))
    {
      if id !in leases || leases[id].state != Active || leases[id].revision != revision {
        return Some(AuthorityChanged);
      }
      leases := leases[id := leases[id].(grantedAt := now)];
      return None;
    }

    method RetireInstance(id: Instance, now: int)
      modifies `leases
      ensures State() == After(old(State()), RetireTxn(id), now)
    {
      if id in leases && leases[id].state == Active {
        leases := leases[id := leases[id].(state := Retired, revision := leases[id].revision + 1)];
      }
    }

    // ----------------------------------------------------------------
    // Claims.

    /** Whether one locked row may be granted, and the owners whose revisions a grant would move. */
    method Eligible(row: Row, slot: Slot, req: ClaimRequest, now: int) returns (eligible: bool)
      requires slot in slots && slots[slot] == row
      ensures eligible <==> Grantable(State(), req, slot, now)
    {
      var self := row.state == Owned && row.owner == Some(req.instance);
      if self {
        return false;
      }
      if row.state == Draining {
        if slot !in handoffs {
          return false;
        }
        var h := handoffs[slot];
        return h.kind == Release && h.phase == Drain && h.sourceEpoch == row.epoch && row.owner == Some(h.source)
          && h.notBefore.Some? && (h.drained || now >= h.notBefore.value);
      }
      return row.state == Unowned ||
        (row.owner.Some? && row.owner.value in leases && now >= leases[row.owner.value].grantedAt + req.quiet);
    }

    /** The claim's pass over the locked rows: what may be granted, and whose revisions move. */
    method ScanClaim(req: ClaimRequest, locked: set<Instance>, now: int)
      returns (known: bool, granted: seq<Slot>, changed: set<Instance>)
      requires forall s | s in req.slots :: s in slots
      ensures known <==> !Undiscovered(State(), req.slots, locked)
      ensures known ==> forall s :: s in granted <==> s in Granted(State(), req, req.slots, now)
      ensures known && granted != [] ==>
          changed == {req.instance} + Owners(State(), Granted(State(), req, req.slots, now))
    {
      granted, changed := [], {};
      var i := 0;
      GrantedNone(State(), req, now);
      hide Granted, Owners, Grantable;
      while i < |req.slots|
        invariant 0 <= i <= |req.slots|
        invariant forall k | 0 <= k < i && slots[req.slots[k]].owner.Some? ::
          slots[req.slots[k]].owner.value in locked && slots[req.slots[k]].owner.value in leases
        invariant forall s :: s in granted <==> s in Granted(State(), req, req.slots[..i], now)
        invariant changed ==
          Owners(State(), Granted(State(), req, req.slots[..i], now)) + (if granted == [] then {} else {req.instance})
      {
        var s := req.slots[i];
        var row := slots[s];
        if row.owner.Some? && !(row.owner.value in locked && row.owner.value in leases) {
          assert s in req.slots;
          return false, granted, changed;
        }
        var eligible := Eligible(row, s, req, now);
        GrantedMore(State(), req, i, now);
        if eligible {
          granted := granted + [s];
          changed := changed + {req.instance} + (if row.owner.Some? then {row.owner.value} else {});
        }
        i := i + 1;
      }
      assert req.slots[..i] == req.slots;
      return true, granted, changed;
    }

    method ClaimSlots(req: ClaimRequest, locked: set<Instance>, now: int) returns (r: Result<seq<Slot>>)
      modifies `slots, `handoffs, `leases
      ensures State() == After(old(State()), ClaimTxn(req, locked), now)
      ensures (if r.Ok? then None else Some(r.error)) == Refusal(Run(old(State()), ClaimTxn(req, locked), now))
      ensures r.Ok? && |req.slots| > 0 ==>
        forall s :: s in r.value <==> s in Granted(old(State()), req, req.slots, now)
    {
      hide Granted, Grantable, Owners;
      if req.instance == "" || req.lease <= 0 || req.quiet <= 0 || |req.slots| > 1000 {
        return Err(InvalidRequest);
      }
      if |req.slots| == 0 {
        return Ok([]);
      }
      if !(Distinct(req.slots) && forall s | s in req.slots :: s in slots) {
        return Err(SlotNotOwned);
      }
      if req.instance !in leases || leases[req.instance].state != Active || leases[req.instance].node != req.node
         || leases[req.instance].revision != req.revision {
        return Err(AuthorityChanged);
      }
      if now >= leases[req.instance].grantedAt + req.lease {
        return Err(LeaseExpired);
      }
      var known, granted, changed := ScanClaim(req, locked, now);
      if !known {
        return Err(AuthorityChanged);
      }
      ghost var all := Granted(State(), req, req.slots, now);
      if |granted| == 0 {
        assert forall s :: s !in all;
        return Ok([]);
      }
      assert granted[0] in all;
      WriteClaim(req.instance, granted, changed, all);
      return Ok(granted);
    }

    method WriteClaim(instance: Instance, granted: seq<Slot>, changed: set<Instance>, ghost all: set<Slot>)
      requires forall s :: s in granted <==> s in all
      requires changed == {instance} + Owners(State(), all)
      modifies `slots, `handoffs, `leases
      ensures State() == Grant(old(State()), instance, all)
    {
      slots := map s | s in slots :: if s in granted then Row(Some(instance), slots[s].epoch + 1, Owned) else slots[s];
      handoffs := map s | s in handoffs ::
        if s in granted && handoffs[s].Live() then handoffs[s].(phase := Cancelled) else handoffs[s];
      leases := Bump(leases, changed);
    }

    // ----------------------------------------------------------------
    // Handoffs.

    method PlanHandoffs(plans: seq<Plan>, token: Token, limits: Limits, lease: int, now: int)
      returns (error: Option<Error>)
      modifies `handoffs
      ensures State() == After(old(State()), PlanTxn(plans, token, limits, lease), now)
      ensures error == Refusal(Run(old(State()), PlanTxn(plans, token, limits, lease), now))
    {
      if |plans| == 0 {
        return None;
      }
      if |plans| > limits.batchSlots {
        return Some(InvalidRequest);
      }
      if !Guarded(tenure, token, now) {
        return Some(CoordinatorLost);
      }
      var pending := set s | s in handoffs && handoffs[s].Live();
      assert pending == LiveSlots(handoffs);
      if |pending| + |plans| > limits.maxPlanned {
        return None;
      }
      var i := 0;
      while i < |plans|
        invariant 0 <= i <= |plans|
        invariant forall k | 0 <= k < i :: PlanValid(plans[k].intent)
      {
        var h := plans[i].intent;
        if h.id == "" || h.kind != Transfer || Some(h.source) == h.target || h.sourceEpoch == 0 || h.phase != Planned {
          assert !PlanValid(plans[i].intent);
          return Some(InvalidRequest);
        }
        i := i + 1;
      }
      var rows := AdmitPlans(plans, lease, now);
      handoffs := handoffs + rows;
      return None;
    }

    /** The plans that still hold against the locked rows. */
    method AdmitPlans(plans: seq<Plan>, lease: int, now: int) returns (rows: map<Slot, Handoff>)
      ensures rows == Admitted(State(), plans, lease, now)
    {
      rows := map[];
      var i := 0;
      assert plans[..0] == [];
      while i < |plans|
        invariant 0 <= i <= |plans|
        invariant rows == Admitted(State(), plans[..i], lease, now)
      {
        var slot, h := plans[i].slot, plans[i].intent;
        assert plans[..i + 1][..i] == plans[..i];
        var holds := slot in slots && slots[slot] == Row(Some(h.source), h.sourceEpoch, Owned)
          && Fresh(leases, h.target, now, lease) && Fresh(leases, Some(h.source), now, lease);
        if holds && !(slot in handoffs && handoffs[slot].Live()) {
          rows := rows[slot := h];
        }
        i := i + 1;
      }
      assert plans[..i] == plans;
    }

    /** One pass over the rows in flight. */
    method CountInflight() returns (total: nat, outgoing: map<Instance, nat>, incoming: map<Option<Instance>, nat>)
      ensures Work(total, outgoing, incoming, map[], map[], {}, {}) == Counted(handoffs)
    {
      var left := set s | s in handoffs && handoffs[s].Inflight();
      ghost var counted: set<Slot> := {};
      total, outgoing, incoming := 0, map[], map[];
      assert left == Inflight(handoffs);
      while left != {}
        invariant counted !! left && counted + left == Inflight(handoffs)
        invariant total == |counted|
        invariant outgoing == Outgoing(handoffs, counted) && incoming == Incoming(handoffs, counted)
        decreases left
      {
        var s :| s in left;
        var h := handoffs[s];
        OutgoingMore(handoffs, counted, s);
        IncomingMore(handoffs, counted, s);
        total := total + 1;
        outgoing := Increment(outgoing, h.source);
        incoming := Increment(incoming, h.target);
        counted := counted + {s};
        left := left - {s};
      }
      CountAll(handoffs);
    }

    /** One command against the locked rows and the counters so far. */
    method Execute(
      c: Command, req: Request, total: nat, outgoing: map<Instance, nat>, incoming: map<Option<Instance>, nat>,
      now: int, ghost w: Work) returns (o: Outcome)
      requires w.total == total && w.outgoing == outgoing && w.incoming == incoming
      ensures o == Decide(State(), req, w, c, now)
    {
      if c.slot !in slots {
        return Skip;
      }
      var row, r := slots[c.slot], c.intent;
      if c.action == WithdrawCmd {
        if req.instance != r.source || row.owner != Some(r.source) || row.epoch != r.sourceEpoch || row.state != Owned
           || (c.slot in handoffs && handoffs[c.slot].Live()) {
          return Skip;
        }
        r := r.(kind := Release, phase := Ready, target := None);
      } else {
        if c.slot !in handoffs {
          return Skip;
        }
        r := handoffs[c.slot];
        if r.id != c.intent.id || r.source != c.intent.source || r.sourceEpoch != c.intent.sourceEpoch
           || r.target != c.intent.target {
          return Skip;
        }
      }
      var matches := row.owner == Some(r.source) && row.epoch == r.sourceEpoch;
      var isFresh := Fresh(leases, r.target, now, req.ha.lease);
      var current := Some(req.instance) == r.target && isFresh && leases[r.target.value].revision == req.revision;
      match c.action {
        case PrepareCmd =>
          if (r.phase != Planned && r.phase != Drain) || !current || !matches {
            return Skip;
          }
          r := r.(targetReady := true);
          if r.phase == Planned {
            r := r.(phase := Ready);
          }
          return Write(r, None, {}, false);
        case BeginCmd => o := Begin(req, total, outgoing, incoming, row, r, now, w);
        case WithdrawCmd => o := Begin(req, total, outgoing, incoming, row, r, now, w);
        case AckDrainCmd =>
          if r.phase != Drain || !matches || req.instance != r.source {
            return Skip;
          }
          return Write(r.(drained := true), None, {}, false);
        case TransferCmd => o := Hand(req, row, r, now);
        case AckActiveCmd =>
          if r.phase != Transferred || !current || row.owner != r.target || row.epoch != r.sourceEpoch + 1
             || row.state != Owned {
            return Skip;
          }
          return Write(r.(phase := Completed), None, {}, false);
        case UnknownCmd => return Fail(InvalidRequest);
      }
    }

    /** BEGIN and WITHDRAW: admission against the budgets, and the drain boundary. */
    method Begin(
      req: Request, total: nat, outgoing: map<Instance, nat>, incoming: map<Option<Instance>, nat>,
      row: Row, r: Handoff, now: int, ghost w: Work) returns (o: Outcome)
      requires w.total == total && w.outgoing == outgoing && w.incoming == incoming
      ensures o == Admit(State(), req, w, row, r, now)
    {
      if r.phase != Ready || !SourceMatches(row, r) || row.state != Owned
         || (req.instance != r.source && Some(req.instance) != r.target) {
        return Skip;
      }
      if total >= req.limits.maxInflight || Tally(outgoing, r.source) >= req.limits.maxPerSource {
        return Skip;
      }
      if r.kind == Transfer {
        if !r.targetReady || !Fresh(leases, r.target, now, req.ha.lease)
           || Tally(incoming, r.target) >= req.limits.maxPerTarget {
          return Skip;
        }
      }
      if r.source !in leases {
        return Fail(AuthorityChanged);
      }
      var boundary := now;
      if leases[r.source].grantedAt > boundary {
        boundary := leases[r.source].grantedAt;
      }
      boundary := boundary + req.ha.quiet;
      return Write(r.(notBefore := Some(boundary), phase := Drain), Some(row.(state := Draining)), {r.source}, true);
    }

    /** TRANSFER: the drain is over, by acknowledgement or by its boundary. */
    method Hand(req: Request, row: Row, r: Handoff, now: int) returns (o: Outcome)
      ensures o == Finish(State(), req, row, r, now)
    {
      if r.phase != Drain || !SourceMatches(row, r) || row.state != Draining || r.notBefore == None
         || (!r.drained && now < r.notBefore.value) {
        return Skip;
      }
      if r.kind == Transfer {
        if Some(req.instance) != r.target || !Fresh(leases, r.target, now, req.ha.lease) || !r.targetReady {
          return Skip;
        }
        return Write(r.(phase := Transferred), Some(Row(r.target, row.epoch + 1, Owned)), {r.target.value, r.source},
                     false);
      }
      if req.instance != r.source {
        return Skip;
      }
      return Write(r.(phase := Completed), Some(Row(None, row.epoch, Unowned)), {r.source}, false);
    }

    /** The loop over the commands; nothing is written until all have been looked at. */
    method ExecuteAll(req: Request, now: int)
      returns (error: Option<Error>, rows: map<Slot, Row>, intents: map<Slot, Handoff>, bumped: set<Instance>)
      ensures match Steps(State(), req, Counted(handoffs), req.commands, now)
              case Ok(_) => error == None
              case Err(e) => error == Some(e)
      ensures error == None ==>
        var w := Steps(State(), req, Counted(handoffs), req.commands, now).value;
        rows == w.rows && intents == w.intents && bumped == w.bumped
    {
      var total, outgoing, incoming := CountInflight();
      rows, intents, bumped := map[], map[], {};
      var seen: set<Slot> := {};
      ghost var w0 := Counted(handoffs);
      var i := 0;
      ghost var w := w0;
      assert req.commands[..0] == [];
      hide Decide, Counted, Increment, Record;
      while i < |req.commands|
        invariant 0 <= i <= |req.commands|
        invariant w == Work(total, outgoing, incoming, rows, intents, bumped, seen)
        invariant Steps(State(), req, w0, req.commands[..i], now) == Ok(w)
      {
        var c := req.commands[i];
        StepsMore(State(), req, w0, i, now);
        if c.slot in seen {
          StepsFail(State(), req, w0, i + 1, now);
          return Some(InvalidRequest), rows, intents, bumped;
        }
        seen := seen + {c.slot};
        w := w.(seen := seen);
        var o := Execute(c, req, total, outgoing, incoming, now, w);
        if o.Fail? {
          StepsFail(State(), req, w0, i + 1, now);
          return Some(o.error), rows, intents, bumped;
        }
        if o.Write? {
          if o.admitted {
            total := total + 1;
            outgoing := Increment(outgoing, o.intent.source);
            incoming := Increment(incoming, o.intent.target);
          }
          if o.row.Some? {
            rows := rows[c.slot := o.row.value];
          }
          intents := intents[c.slot := o.intent];
          bumped := bumped + o.bumps;
          RecordIs(w, c.slot, o, Work(total, outgoing, incoming, rows, intents, bumped, seen));
          w := Record(w, c.slot, o);
        }
        i := i + 1;
      }
      assert req.commands[..i] == req.commands;
      return None, rows, intents, bumped;
    }

    method ApplyHandoffs(req: Request, now: int) returns (error: Option<Error>)
      modifies `slots, `handoffs, `leases
      ensures State() == After(old(State()), ApplyTxn(req), now)
      ensures error == Refusal(Run(old(State()), ApplyTxn(req), now))
    {
      hide Steps, Counted;
      if |req.commands| == 0 {
        return None;
      }
      if |req.commands| > req.limits.batchSlots || req.instance == "" {
        return Some(InvalidRequest);
      }
      var changed, changedSlots, changedInstances;
      error, changedSlots, changed, changedInstances := ExecuteAll(req, now);
      if error == None {
        slots := slots + changedSlots;
        handoffs := handoffs + changed;
        leases := Bump(leases, changedInstances);
      }
    }

    /** The first fresh listed instance other than the source. */
    method FindReplacement(nodes: seq<Instance>, source: Instance, lease: int, now: int)
        returns (target: Option<Instance>)
      ensures target == Replacement(leases, nodes, source, lease, now)
    {
      var i := 0;
      while i < |nodes|
        invariant 0 <= i <= |nodes|
        invariant Replacement(leases, nodes, source, lease, now) == Replacement(leases, nodes[i..], source, lease, now)
      {
        assert nodes[i..][1..] == nodes[i + 1..];
        if nodes[i] != source && Fresh(leases, Some(nodes[i]), now, lease) {
          return Some(nodes[i]);
        }
        i := i + 1;
      }
      return None;
    }

    /** What recovery does with one candidate whose intent it still finds. */
    method RepairOne(c: Candidate, nodes: seq<Instance>, ha: HA, mint: Slot -> Id, now: int) returns (repair: Repair)
      ensures repair == Mend(State(), nodes, ha, mint, c, now)
    {
      if c.slot !in handoffs || handoffs[c.slot].id != c.id {
        return Untouched;
      }
      var r := handoffs[c.slot];
      var o := if c.slot in slots then slots[c.slot] else Row(None, 0, Unowned);
      if r.phase == Transferred {
        if o.owner == None || o.owner != c.target || o.epoch != c.sourceEpoch + 1 {
          return Rewrite(r.(phase := Cancelled));
        }
        return Untouched;
      }
      if r.phase == Planned || r.phase == Ready {
        return Rewrite(r.(phase := Cancelled));
      }
      if r.phase != Drain {
        return Untouched;
      }
      if o.owner != Some(r.source) || o.epoch != r.sourceEpoch || o.state != Draining {
        return Rewrite(r.(phase := Cancelled));
      }
      if r.kind == Release {
        if r.notBefore == None || now < r.notBefore.value {
          return Untouched;
        }
        return Free(r.(phase := Completed));
      }
      var target := FindReplacement(nodes, r.source, ha.lease, now);
      if target == None {
        return Rewrite(r.(kind := Release, target := None, id := mint(c.slot), targetReady := false));
      }
      return Rewrite(r.(target := target, id := mint(c.slot), drained := false, targetReady := false));
    }

    /** The loop over the candidates; nothing is written until all have been looked at. */
    method MendAll(nodes: seq<Instance>, ha: HA, mint: Slot -> Id, candidates: seq<Candidate>, now: int)
      returns (changed: map<Slot, Handoff>, released: set<Slot>, revised: set<Instance>)
      ensures Mended(changed, released, revised) == Mends(State(), nodes, ha, mint, candidates, now)
    {
      changed, released, revised := map[], {}, {};
      var i := 0;
      assert candidates[..0] == [];
      while i < |candidates|
        invariant 0 <= i <= |candidates|
        invariant Mended(changed, released, revised) == Mends(State(), nodes, ha, mint, candidates[..i], now)
      {
        var c := candidates[i];
        assert candidates[..i + 1][..i] == candidates[..i];
        var repair := RepairOne(c, nodes, ha, mint, now);
        if repair.Rewrite? {
          changed := changed[c.slot := repair.intent];
        } else if repair.Free? {
          changed := changed[c.slot := repair.intent];
          released := released + {c.slot};
          revised := revised + {repair.intent.source};
        }
        i := i + 1;
      }
      assert candidates[..i] == candidates;
    }

    method RecoverHandoffs(
      token: Token, nodes: seq<Instance>, ha: HA, mint: Slot -> Id, candidates: seq<Candidate>, now: int)
      returns (error: Option<Error>)
      modifies `slots, `handoffs, `leases
      ensures State() == After(old(State()), RecoverTxn(token, nodes, ha, mint, candidates), now)
      ensures error == Refusal(Run(old(State()), RecoverTxn(token, nodes, ha, mint, candidates), now))
    {
      hide Mends;
      if |candidates| == 0 {
        return None;
      }
      if !Guarded(tenure, token, now) {
        return Some(CoordinatorLost);
      }
      var changed, released, revised := MendAll(nodes, ha, mint, candidates, now);
      if released != {} {
        slots := map s | s in slots :: if s in released then Row(None, slots[s].epoch, Unowned) else slots[s];
        leases := Bump(leases, revised);
      }
      handoffs := handoffs + changed;
      FreedNone(old(slots));
      return None;
    }

    /** Delete the leases that still satisfy the deletion's own predicates. */
    method CollectInstances(ids: seq<Instance>, members: set<Instance>, quiet: int, now: int)
      modifies `leases
      ensures State() == After(old(State()), CollectTxn((set i | i in ids), members, quiet), now)
    {
      ghost var st := State();
      ghost var all := set i | i in ids;
      leases := map i | i in leases && !(i in ids && Idle(i, members, quiet, now)) :: leases[i];
      assert State() == After(st, CollectTxn(all, members, quiet), now);
    }

    /** No lease activity for a quiet window, no membership, no slot and no live handoff. */
    predicate Idle(id: Instance, members: set<Instance>, quiet: int, now: int)
      reads this
      ensures Idle(id, members, quiet, now) <==> Collectable(State(), id, members, quiet, now)
    {
      id in leases && now - leases[id].grantedAt >= quiet && id !in members
      && (forall s | s in slots :: slots[s].owner != Some(id))
      && (forall s | s in handoffs ::
            handoffs[s].phase == Completed || handoffs[s].phase == Cancelled
            || (handoffs[s].source != id && handoffs[s].target != Some(id)))
    }

    // ----------------------------------------------------------------
    // Range reservation.

    method ValidateReservations(rs: seq<Reservation>) returns (ok: bool)
      ensures ok <==> ValidReservations(rs)
    {
      if |rs| == 0 {
        return false;
      }
      var seen: set<Key> := {};
      var i := 0;
      while i < |rs|
        invariant 0 <= i <= |rs|
        invariant forall k | 0 <= k < i ::
            !Blank(rs[k].key) && |rs[k].key| <= 256 && rs[k].step > 0 && rs[k].key in seen
        invariant forall key | key in seen :: exists k :: 0 <= k < i && rs[k].key == key
        invariant forall j, k | 0 <= j < k < i :: rs[j].key != rs[k].key
      {
        if Blank(rs[i].key) || |rs[i].key| > 256 || rs[i].step <= 0 {
          return false;
        }
        if rs[i].key in seen {
          return false;
        }
        seen := seen + {rs[i].key};
        i := i + 1;
      }
      return true;
    }

    /** The check of the locked rows before any watermark moves. */
    method CheckRows(a: Authority, rs: seq<Reservation>, now: int) returns (error: Option<Error>)
      ensures error == CheckAuthority(State(), a, rs, now)
    {
      if a.instance !in leases || leases[a.instance].state != Active || leases[a.instance].revision != a.revision {
        return Some(AuthorityChanged);
      }
      if a.lease <= 0 || now >= leases[a.instance].grantedAt + a.lease {
        return Some(LeaseExpired);
      }
      var i := 0;
      while i < |rs|
        invariant 0 <= i <= |rs|
        invariant forall k | 0 <= k < i :: Holds(slots, a, rs[k].slot)
      {
        var s := rs[i].slot;
        if s !in slots || slots[s].state != Owned || slots[s].owner != Some(a.instance) || s !in a.epochs
           || slots[s].epoch != a.epochs[s] {
          assert !Holds(slots, a, rs[i].slot);
          return Some(SlotNotOwned);
        }
        i := i + 1;
      }
      return None;
    }

    method ReserveRanges(a: Authority, rs: seq<Reservation>, now: int) returns (r: Result<seq<Range>>)
      modifies `marks
      ensures State() == After(old(State()), ReserveTxn(a, rs), now)
      ensures match Reserve(old(State()), a, rs, now)
              case Ok((_, ranges)) => r == Ok(ranges)
              case Err(e) => r == Err(e)
    {
      if a.instance == "" || a.lease <= 0 || |a.epochs| == 0 {
        return Err(InvalidRequest);
      }
      var valid := ValidateReservations(rs);
      if !valid {
        return Err(InvalidRequest);
      }
      var refused := CheckRows(a, rs, now);
      if refused.Some? {
        return Err(refused.value);
      }
      if exists i :: 0 <= i < |rs| && Overflows(marks, rs[i]) {
        return Err(StorageFailure);
      }
      var advanced := AdvanceMarks(rs);
      var ranges: seq<Range> := [];
      var i := 0;
      while i < |rs|
        invariant 0 <= i <= |rs| && State() == old(State())
        invariant ranges == Ranges(advanced, rs)[..i]
      {
        var end := Mark(advanced, rs[i].key);
        ranges := ranges + [Range(end - rs[i].step + 1, end)];
        i := i + 1;
      }
      assert ranges == Ranges(advanced, rs);
      marks := advanced;
      return Ok(ranges);
    }

    /** The multi-row upsert: every key's watermark moves by its step. */
    method AdvanceMarks(rs: seq<Reservation>) returns (advanced: map<Key, nat>)
      requires forall i | 0 <= i < |rs| :: rs[i].step > 0
      ensures advanced == Advance(marks, rs)
    {
      advanced := marks;
      var i := 0;
      assert rs[..0] == [];
      while i < |rs|
        invariant 0 <= i <= |rs|
        invariant advanced == Advance(marks, rs[..i])
      {
        assert rs[..i + 1][..i] == rs[..i];
        advanced := advanced[rs[i].key := Mark(advanced, rs[i].key) + rs[i].step];
        i := i + 1;
      }
      assert rs[..i] == rs;
    }

    // ----------------------------------------------------------------
    // The control plane.

    method AcquireCoordinator(id: Instance, duration: int, now: int) returns (r: Result<Token>)
      modifies `tenure
      ensures State() == After(old(State()), AcquireTxn(id, duration), now)
      ensures match Acquire(old(tenure), id, duration, now)
              case Ok((_, token)) => r == Ok(token)
              case Err(e) => r == Err(e)
    {
      if id == "" || duration <= 0 {
        return Err(InvalidRequest);
      }
      var current := tenure.expiresAt.Some? && now < tenure.expiresAt.value;
      var self := tenure.owner == Some(id);
      if current && !self {
        return Ok(Token(false, id, 0));
      }
      var epoch := tenure.epoch;
      if !self || !current {
        epoch := epoch + 1;
      }
      tenure := Tenure(Some(id), epoch, Some(now + duration));
      return Ok(Token(true, id, epoch));
    }

    /** Encode the view, and publish it under the tenure if the directory changed. */
    method MaterialiseRoute(view: seq<Route.OwnershipSegment>, layout: int, size: nat, token: Token, now: int)
      returns (r: Result<nat>)
      modifies `route
      ensures r.Err? ==> route == old(route)
      ensures r.Ok? ==> exists payload ::
                Route.Encodes(view, layout, size, payload)
                && Coordinator.MaterialiseRoute(tenure, old(route), payload, token, now) == Ok(route)
      ensures r.Ok? ==> r.value == Coordinator.Version(route)
      ensures r.Ok? <==> layout > 0 && Route.ValidView(view, size) && Guarded(tenure, token, now)
    {
      var encoded := Route.EncodeOwnershipSegments(view, layout, size);
      if encoded.Err? {
        return Err(encoded.error);
      }
      if !Guarded(tenure, token, now) {
        return Err(CoordinatorLost);
      }
      ghost var before := route;
      if !(route.Some? && route.value.payload == encoded.value) {
        route := Some(Published(Coordinator.Version(route) + 1, encoded.value));
      }
      assert Coordinator.MaterialiseRoute(tenure, before, encoded.value, token, now) == Ok(route);
      return Ok(Coordinator.Version(route));
    }
  }

  lemma FreedNone(slots: map<Slot, Row>)
    ensures Freed(slots, {}) == slots
  {
  }

  function Leaving(hs: map<Slot, Handoff>, counted: set<Slot>, i: Instance): set<Slot> {
    set s | s in counted && s in hs && hs[s].source == i
  }

  function Arriving(hs: map<Slot, Handoff>, counted: set<Slot>, t: Option<Instance>): set<Slot> {
    set s | s in counted && s in hs && hs[s].target == t
  }

  function Outgoing(hs: map<Slot, Handoff>, counted: set<Slot>): map<Instance, nat> {
    map i | i in (set s | s in counted && s in hs :: hs[s].source) :: |Leaving(hs, counted, i)|
  }

  function Incoming(hs: map<Slot, Handoff>, counted: set<Slot>): map<Option<Instance>, nat> {
    map t | t in (set s | s in counted && s in hs :: hs[s].target) :: |Arriving(hs, counted, t)|
  }

  lemma LeavingMore(hs: map<Slot, Handoff>, counted: set<Slot>, s: Slot, i: Instance)
    requires s in hs && s !in counted
    ensures |Leaving(hs, counted + {s}, i)| == |Leaving(hs, counted, i)| + (if hs[s].source == i then 1 else 0)
  {
    assert Leaving(hs, counted + {s}, i) == Leaving(hs, counted, i) + (if hs[s].source == i then {s} else {});
  }

  lemma ArrivingMore(hs: map<Slot, Handoff>, counted: set<Slot>, s: Slot, t: Option<Instance>)
    requires s in hs && s !in counted
    ensures |Arriving(hs, counted + {s}, t)| == |Arriving(hs, counted, t)| + (if hs[s].target == t then 1 else 0)
  {
    assert Arriving(hs, counted + {s}, t) == Arriving(hs, counted, t) + (if hs[s].target == t then {s} else {});
  }

  lemma OutgoingMore(hs: map<Slot, Handoff>, counted: set<Slot>, s: Slot)
    requires s in hs && s !in counted
    ensures Outgoing(hs, counted + {s}) == Increment(Outgoing(hs, counted), hs[s].source)
  {
    var before, after := Outgoing(hs, counted), Outgoing(hs, counted + {s});
    forall i | i in after ensures after[i] == Tally(before, i) + (if i == hs[s].source then 1 else 0) {
      LeavingMore(hs, counted, s, i);
      assert i !in before ==> Leaving(hs, counted, i) == {};
    }
    assert after.Keys == before.Keys + {hs[s].source};
  }

  lemma IncomingMore(hs: map<Slot, Handoff>, counted: set<Slot>, s: Slot)
    requires s in hs && s !in counted
    ensures Incoming(hs, counted + {s}) == Increment(Incoming(hs, counted), hs[s].target)
  {
    var before, after := Incoming(hs, counted), Incoming(hs, counted + {s});
    forall t | t in after ensures after[t] == Tally(before, t) + (if t == hs[s].target then 1 else 0) {
      ArrivingMore(hs, counted, s, t);
      assert t !in before ==> Arriving(hs, counted, t) == {};
    }
    assert after.Keys == before.Keys + {hs[s].target};
  }

  lemma CountAll(hs: map<Slot, Handoff>)
    ensures Outgoing(hs, Inflight(hs)) == Counted(hs).outgoing && Incoming(hs, Inflight(hs)) == Counted(hs).incoming
  {
    assert forall i: Instance :: Leaving(hs, Inflight(hs), i) == From(hs, i);
    assert forall t: Option<Instance> :: Arriving(hs, Inflight(hs), t) == To(hs, t);
    assert (set s | s in Inflight(hs) && s in hs :: hs[s].source) == (set s | s in Inflight(hs) :: hs[s].source);
    assert (set s | s in Inflight(hs) && s in hs :: hs[s].target) == (set s | s in Inflight(hs) :: hs[s].target);
  }

  lemma RecordIs(w: Work, s: Slot, o: Outcome, r: Work)
    requires o.Write?
    requires r.seen == w.seen && r.intents == w.intents[s := o.intent] && r.bumped == w.bumped + o.bumps
    requires r.rows == if o.row.Some? then w.rows[s := o.row.value] else w.rows
    requires r.total == if o.admitted then w.total + 1 else w.total
    requires r.outgoing == if o.admitted then Increment(w.outgoing, o.intent.source) else w.outgoing
    requires r.incoming == if o.admitted then Increment(w.incoming, o.intent.target) else w.incoming
    ensures Record(w, s, o) == r
  {
  }

  lemma {:induction false} StepsMore(st: Store, req: Request, w0: Work, i: nat, now: int)
    requires i < |req.commands| && Steps(st, req, w0, req.commands[..i], now).Ok?
    ensures Steps(st, req, w0, req.commands[..i + 1], now)
      == Step(st, req, Steps(st, req, w0, req.commands[..i], now).value, req.commands[i], now)
  {
    hide Decide, Step;
    assert req.commands[..i + 1][..i] == req.commands[..i];
  }

  /** A command that fails fails the whole transaction. */
  lemma {:induction false} StepsFail(st: Store, req: Request, w0: Work, i: nat, now: int)
    requires i <= |req.commands| && Steps(st, req, w0, req.commands[..i], now).Err?
    ensures Steps(st, req, w0, req.commands, now) == Steps(st, req, w0, req.commands[..i], now)
    decreases |req.commands| - i
  {
    hide Step;
    if i < |req.commands| {
      assert req.commands[..i + 1][..i] == req.commands[..i];
      StepsFail(st, req, w0, i + 1, now);
    } else {
      assert req.commands[..i] == req.commands;
    }
  }

  lemma GrantedNone(st: Store, req: ClaimRequest, now: int)
    ensures Granted(st, req, req.slots[..0], now) == {}
    ensures Owners(st, Granted(st, req, req.slots[..0], now)) == {}
  {
  }

  lemma GrantedMore(st: Store, req: ClaimRequest, i: nat, now: int)
    requires i < |req.slots| && req.slots[i] in st.slots
    ensures var s := req.slots[i];
      var before, after := Granted(st, req, req.slots[..i], now), Granted(st, req, req.slots[..i + 1], now);
      var owner := if st.slots[s].owner.Some? then {st.slots[s].owner.value} else {};
      if Grantable(st, req, s, now) then after == before + {s} && Owners(st, after) == Owners(st, before) + owner
      else after == before
  {
    var s := req.slots[i];
    var before, after := Granted(st, req, req.slots[..i], now), Granted(st, req, req.slots[..i + 1], now);
    hide Grantable;
    assert req.slots[..i + 1] == req.slots[..i] + [s];
    assert after == if Grantable(st, req, s, now) then before + {s} else before;
  }
}
