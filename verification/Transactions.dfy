/** Every authority transaction as a function of the tables it locks.

`Ok(st')` is a commit of `st'`; `Err` is a rollback. Whether the caller learns of
a commit is a separate matter: a caller may see an error for a transaction that
committed.
*/
module Transactions {
  import opened Tables

  // ------------------------------------------------------------------
  // Instance leases.

  /** Insert-if-absent. The row is written even when the caller is then refused. */
  function Register(st: Store, node: Node, id: Instance, now: int): Result<Store> {
    if node == "" || id == "" then Err(InvalidRequest)
    else if id in st.leases then Ok(st)
    else Ok(st.(leases := st.leases[id := Lease(node, 0, now, Active)]))
  }

  function Renew(st: Store, id: Instance, revision: nat, now: int): Result<Store> {
    if id !in st.leases || st.leases[id].state != Active || st.leases[id].revision != revision then
      Err(AuthorityChanged)
    else
      Ok(st.(leases := st.leases[id := st.leases[id].(grantedAt := now)]))
  }

  function Retire(st: Store, id: Instance): Result<Store> {
    if id in st.leases && st.leases[id].state == Active then
      Ok(st.(leases := st.leases[id := st.leases[id].(state := Retired, revision := st.leases[id].revision + 1)]))
    else
      Ok(st)
  }

  /** Whether the deletion's own predicates hold of a lease row. */
  predicate Collectable(st: Store, id: Instance, members: set<Instance>, quiet: int, now: int) {
    && id in st.leases
    && now - st.leases[id].grantedAt >= quiet
    && id !in members
    && (forall s | s in st.slots :: st.slots[s].owner != Some(id))
    && (forall s | s in st.handoffs ::
          st.handoffs[s].Live() ==> st.handoffs[s].source != id && st.handoffs[s].target != Some(id))
  }

  function Collect(st: Store, ids: set<Instance>, members: set<Instance>, quiet: int, now: int): Result<Store> {
    Ok(st.(leases := map i | i in st.leases && !(i in ids && Collectable(st, i, members, quiet, now)) :: st.leases[i]))
  }

  // ------------------------------------------------------------------
  // Claims.

  datatype ClaimRequest = ClaimRequest(
    slots: seq<Slot>,
    node: Node,
    instance: Instance,
    revision: nat,
    lease: int,
    quiet: int)

  /** The slot is not the candidate's already and may be granted to it now. */
  predicate Grantable(st: Store, req: ClaimRequest, s: Slot, now: int)
    requires s in st.slots
  {
    var row := st.slots[s];
    var self := row.state == Owned && row.owner == Some(req.instance);
    !self &&
    match row.state
    case Unowned => true
    case Owned =>
      row.owner.Some? && row.owner.value in st.leases && now >= st.leases[row.owner.value].grantedAt + req.quiet
    case Draining =>
      && s in st.handoffs
      && var h := st.handoffs[s];
      && h.kind == Release
      && h.phase == Drain
      && h.sourceEpoch == row.epoch
      && row.owner == Some(h.source)
      && h.notBefore.Some?
      && (h.drained || now >= h.notBefore.value)
  }

  function Granted(st: Store, req: ClaimRequest, slots: seq<Slot>, now: int): set<Slot> {
    set s | s in slots && s in st.slots && Grantable(st, req, s, now)
  }

  predicate Distinct(slots: seq<Slot>) {
    forall i, j | 0 <= i < j < |slots| :: slots[i] != slots[j]
  }

  /** Owners the transaction holds no lease row for: discovery read an older owner. */
  predicate Undiscovered(st: Store, slots: seq<Slot>, locked: set<Instance>) {
    exists s :: s in slots && s in st.slots && st.slots[s].owner.Some?
                && !(st.slots[s].owner.value in locked && st.slots[s].owner.value in st.leases)
  }

  function Cancel(hs: map<Slot, Handoff>, slots: set<Slot>): (r: map<Slot, Handoff>)
    ensures r.Keys == hs.Keys
  {
    map s | s in hs :: if s in slots && hs[s].Live() then hs[s].(phase := Cancelled) else hs[s]
  }

  function Owners(st: Store, slots: set<Slot>): set<Instance> {
    set s | s in slots && s in st.slots && st.slots[s].owner.Some? :: st.slots[s].owner.value
  }

  function Grant(st: Store, instance: Instance, granted: set<Slot>): Store {
    st.(slots := map s | s in st.slots ::
                   if s in granted then Row(Some(instance), st.slots[s].epoch + 1, Owned) else st.slots[s],
        handoffs := Cancel(st.handoffs, granted),
        leases := Bump(st.leases, {instance} + Owners(st, granted)))
  }

  function Claim(st: Store, req: ClaimRequest, locked: set<Instance>, now: int): Result<Store> {
    if req.instance == "" || req.lease <= 0 || req.quiet <= 0 || |req.slots| > 1000 then Err(InvalidRequest)
    else if |req.slots| == 0 then Ok(st)
    else if !(Distinct(req.slots) && forall s | s in req.slots :: s in st.slots) then Err(SlotNotOwned)
    else if
      || req.instance !in st.leases
      || st.leases[req.instance].state != Active
      || st.leases[req.instance].node != req.node
      || st.leases[req.instance].revision != req.revision
    then Err(AuthorityChanged)
    else if now >= st.leases[req.instance].grantedAt + req.lease then Err(LeaseExpired)
    else if Undiscovered(st, req.slots, locked) then Err(AuthorityChanged)
    else
      var granted := Granted(st, req, req.slots, now);
      if granted == {} then Ok(st) else Ok(Grant(st, req.instance, granted))
  }

  // ------------------------------------------------------------------
  // The coordinator row.

  /** A held tenure as its holder presents it. */
  datatype Token = Token(held: bool, instance: Instance, epoch: nat)

  predicate TenureFresh(t: Tenure, now: int) {
    t.expiresAt.Some? && now < t.expiresAt.value
  }

  function Acquire(t: Tenure, id: Instance, duration: int, now: int): Result<(Tenure, Token)> {
    if id == "" || duration <= 0 then Err(InvalidRequest)
    else
      var current := TenureFresh(t, now);
      var self := t.owner == Some(id);
      if current && !self then Ok((t, Token(false, id, 0)))
      else
        var epoch := if !self || !current then t.epoch + 1 else t.epoch;
        Ok((Tenure(Some(id), epoch, Some(now + duration)), Token(true, id, epoch)))
  }

  predicate Guarded(t: Tenure, token: Token, now: int) {
    && token.held
    && t.owner == Some(token.instance)
    && t.epoch == token.epoch
    && TenureFresh(t, now)
  }

  // ------------------------------------------------------------------
  // Handoffs.

  predicate PlanValid(h: Handoff) {
    && h.id != ""
    && h.kind == Transfer
    && Some(h.source) != h.target
    && h.sourceEpoch > 0
    && h.phase == Planned
  }

  datatype Plan = Plan(slot: Slot, intent: Handoff)

  predicate Plannable(st: Store, p: Plan, lease: int, now: int) {
    && p.slot in st.slots
    && st.slots[p.slot] == Row(Some(p.intent.source), p.intent.sourceEpoch, Owned)
    && Fresh(st.leases, p.intent.target, now, lease)
    && Fresh(st.leases, Some(p.intent.source), now, lease)
    && !(p.slot in st.handoffs && st.handoffs[p.slot].Live())
  }

  function Admitted(st: Store, plans: seq<Plan>, lease: int, now: int): map<Slot, Handoff> {
    if plans == [] then map[]
    else
      var last := plans[|plans| - 1];
      var before := Admitted(st, plans[..|plans| - 1], lease, now);
      if Plannable(st, last, lease, now) then before[last.slot := last.intent] else before
  }

  function LiveSlots(hs: map<Slot, Handoff>): set<Slot> {
    set s | s in hs && hs[s].Live()
  }

  function PlanHandoffs(
    st: Store, plans: seq<Plan>, token: Token, limits: Limits, lease: int, now: int): Result<Store>
  {
    if |plans| == 0 then Ok(st)
    else if |plans| > limits.batchSlots then Err(InvalidRequest)
    else if !Guarded(st.tenure, token, now) then Err(CoordinatorLost)
    else if |LiveSlots(st.handoffs)| + |plans| > limits.maxPlanned then Ok(st)
    else if exists i :: 0 <= i < |plans| && !PlanValid(plans[i].intent) then Err(InvalidRequest)
    else Ok(st.(handoffs := st.handoffs + Admitted(st, plans, lease, now)))
  }

  datatype Action = PrepareCmd | BeginCmd | WithdrawCmd | AckDrainCmd | TransferCmd | AckActiveCmd | UnknownCmd

  /** One command. For WITHDRAW the intent is the one to create. */
  datatype Command = Command(slot: Slot, intent: Handoff, action: Action)

  datatype Request = Request(
    instance: Instance,
    revision: nat,
    commands: seq<Command>,
    ha: HA,
    limits: Limits)

  /** The loop state of one ApplyHandoffs transaction. */
  datatype Work = Work(
    total: nat,
    outgoing: map<Instance, nat>,
    incoming: map<Option<Instance>, nat>,
    rows: map<Slot, Row>,
    intents: map<Slot, Handoff>,
    bumped: set<Instance>,
    seen: set<Slot>)

  datatype Outcome =
    | Skip
    | Fail(error: Error)
    | Write(intent: Handoff, row: Option<Row>, bumps: set<Instance>, admitted: bool)

  /** The intent a command acts on, or None when the command does not match. */
  function Addressed(st: Store, req: Request, c: Command): Option<Handoff> {
    if c.slot !in st.slots then None
    else
      var o := st.slots[c.slot];
      var recorded := c.slot in st.handoffs;
      if c.action == WithdrawCmd then
        if
          || req.instance != c.intent.source
          || o != Row(Some(c.intent.source), c.intent.sourceEpoch, Owned)
          || (recorded && st.handoffs[c.slot].Live())
        then None
        else Some(c.intent.(kind := Release, phase := Ready, target := None))
      else if !recorded then None
      else
        var r := st.handoffs[c.slot];
        if
          || r.id != c.intent.id
          || r.source != c.intent.source
          || r.sourceEpoch != c.intent.sourceEpoch
          || r.target != c.intent.target
        then None
        else Some(r)
  }

  predicate SourceMatches(o: Row, r: Handoff) {
    o.owner == Some(r.source) && o.epoch == r.sourceEpoch
  }

  /** The caller is the intent's target, fresh, and at its current revision. */
  predicate TargetCurrent(st: Store, req: Request, r: Handoff, now: int) {
    && Some(req.instance) == r.target
    && Fresh(st.leases, r.target, now, req.ha.lease)
    && st.leases[r.target.value].revision == req.revision
  }

  function Boundary(leases: map<Instance, Lease>, source: Instance, quiet: int, now: int): int
    requires source in leases
  {
    Max(now, leases[source].grantedAt) + quiet
  }

  function Admit(st: Store, req: Request, w: Work, o: Row, r: Handoff, now: int): Outcome {
    if r.phase != Ready || !SourceMatches(o, r) || o.state != Owned
       || (req.instance != r.source && Some(req.instance) != r.target)
    then Skip
    else if
      || w.total >= req.limits.maxInflight
      || Tally(w.outgoing, r.source) >= req.limits.maxPerSource
      || (r.kind == Transfer &&
          (!r.targetReady || !Fresh(st.leases, r.target, now, req.ha.lease)
           || Tally(w.incoming, r.target) >= req.limits.maxPerTarget))
    then Skip
    else if r.source !in st.leases then Fail(AuthorityChanged)
    else
      Write(r.(notBefore := Some(Boundary(st.leases, r.source, req.ha.quiet, now)), phase := Drain),
            Some(o.(state := Draining)), {r.source}, true)
  }

  function Finish(st: Store, req: Request, o: Row, r: Handoff, now: int): Outcome {
    if r.phase != Drain || !SourceMatches(o, r) || o.state != Draining || r.notBefore == None
       || (!r.drained && now < r.notBefore.value)
    then Skip
    else if r.kind == Transfer then
      if Some(req.instance) != r.target || !Fresh(st.leases, r.target, now, req.ha.lease) || !r.targetReady then Skip
      else
        Write(r.(phase := Transferred), Some(Row(r.target, o.epoch + 1, Owned)), {r.target.value, r.source}, false)
    else if req.instance != r.source then Skip
    else Write(r.(phase := Completed), Some(Row(None, o.epoch, Unowned)), {r.source}, false)
  }

  function Decide(st: Store, req: Request, w: Work, c: Command, now: int): Outcome {
    match Addressed(st, req, c)
    case None => Skip
    case Some(r) =>
      var o := st.slots[c.slot];
      match c.action
      case PrepareCmd =>
        if (r.phase != Planned && r.phase != Drain) || !TargetCurrent(st, req, r, now) || !SourceMatches(o, r) then Skip
        else Write(r.(targetReady := true, phase := if r.phase == Planned then Ready else r.phase), None, {}, false)
      case BeginCmd => Admit(st, req, w, o, r, now)
      case WithdrawCmd => Admit(st, req, w, o, r, now)
      case AckDrainCmd =>
        if r.phase != Drain || !SourceMatches(o, r) || req.instance != r.source then Skip
        else Write(r.(drained := true), None, {}, false)
      case TransferCmd => Finish(st, req, o, r, now)
      case AckActiveCmd =>
        if r.phase != Transferred || !TargetCurrent(st, req, r, now) || o != Row(r.target, r.sourceEpoch + 1, Owned)
        then Skip
        else Write(r.(phase := Completed), None, {}, false)
      case UnknownCmd => Fail(InvalidRequest)
  }

  function Increment<K>(m: map<K, nat>, k: K): map<K, nat> {
    m[k := Tally(m, k) + 1]
  }

  function Record(w: Work, s: Slot, o: Outcome): Work
    requires o.Write?
  {
    var h := o.intent;
    w.(total := if o.admitted then w.total + 1 else w.total,
       outgoing := if o.admitted then Increment(w.outgoing, h.source) else w.outgoing,
       incoming := if o.admitted then Increment(w.incoming, h.target) else w.incoming,
       rows := if o.row.Some? then w.rows[s := o.row.value] else w.rows,
       intents := w.intents[s := h],
       bumped := w.bumped + o.bumps)
  }

  function Step(st: Store, req: Request, w: Work, c: Command, now: int): Result<Work> {
    if c.slot in w.seen then Err(InvalidRequest)
    else
      var w' := w.(seen := w.seen + {c.slot});
      match Decide(st, req, w', c, now)
      case Skip => Ok(w')
      case Fail(e) => Err(e)
      case Write(h, row, bumps, admitted) => Ok(Record(w', c.slot, Write(h, row, bumps, admitted)))
  }

  function Steps(st: Store, req: Request, w0: Work, commands: seq<Command>, now: int): Result<Work> {
    if commands == [] then Ok(w0)
    else
      match Steps(st, req, w0, commands[..|commands| - 1], now)
      case Err(e) => Err(e)
      case Ok(w) => Step(st, req, w, commands[|commands| - 1], now)
  }

  /** The handoffs of `among` that are draining or transferred and pass `p`. */
  function Inflight(hs: map<Slot, Handoff>): set<Slot> {
    set s | s in hs && hs[s].Inflight()
  }

  function From(hs: map<Slot, Handoff>, source: Instance): set<Slot> {
    set s | s in hs && hs[s].Inflight() && hs[s].source == source
  }

  function To(hs: map<Slot, Handoff>, target: Option<Instance>): set<Slot> {
    set s | s in hs && hs[s].Inflight() && hs[s].target == target
  }

  /** The counters the transaction starts from: one row at a time, in any order. */
  function Counted(hs: map<Slot, Handoff>): Work {
    Work(
      |Inflight(hs)|,
      map i | i in (set s | s in Inflight(hs) :: hs[s].source) :: |From(hs, i)|,
      map t | t in (set s | s in Inflight(hs) :: hs[s].target) :: |To(hs, t)|,
      map[], map[], {}, {})
  }

  function Commit(st: Store, w: Work): Store {
    st.(slots := st.slots + w.rows,
        handoffs := st.handoffs + w.intents,
        leases := Bump(st.leases, w.bumped))
  }

  function ApplyHandoffs(st: Store, req: Request, now: int): Result<Store> {
    if |req.commands| == 0 then Ok(st)
    else if |req.commands| > req.limits.batchSlots || req.instance == "" then Err(InvalidRequest)
    else
      match Steps(st, req, Counted(st.handoffs), req.commands, now)
      case Err(e) => Err(e)
      case Ok(w) => Ok(Commit(st, w))
  }

  /** What recovery read of a handoff before its transaction began. */
  datatype Candidate = Candidate(slot: Slot, id: Id, sourceEpoch: nat, target: Option<Instance>)

  datatype Repair =
    | Untouched
    | Rewrite(intent: Handoff)
    | Free(intent: Handoff)

  /** The first listed instance that is fresh and not the source. */
  function Replacement(
    leases: map<Instance, Lease>, nodes: seq<Instance>, source: Instance, lease: int, now: int): Option<Instance>
  {
    if nodes == [] then None
    else if nodes[0] != source && Fresh(leases, Some(nodes[0]), now, lease) then Some(nodes[0])
    else Replacement(leases, nodes[1..], source, lease, now)
  }

  function Mend(
    st: Store, nodes: seq<Instance>, ha: HA, mint: Slot -> Id, c: Candidate, now: int): Repair
  {
    if c.slot !in st.handoffs || st.handoffs[c.slot].id != c.id then Untouched
    else
      var r := st.handoffs[c.slot];
      var o := if c.slot in st.slots then st.slots[c.slot] else Row(None, 0, Unowned);
      match r.phase
      case Transferred =>
        if o.owner == None || o.owner != c.target || o.epoch != c.sourceEpoch + 1
        then Rewrite(r.(phase := Cancelled)) else Untouched
      case Planned => Rewrite(r.(phase := Cancelled))
      case Ready => Rewrite(r.(phase := Cancelled))
      case Drain =>
        if !SourceMatches(o, r) || o.state != Draining then Rewrite(r.(phase := Cancelled))
        else if r.kind == Release then
          if r.notBefore == None || now < r.notBefore.value then Untouched
          else if !SourceMatches(o, r) then Rewrite(r.(phase := Cancelled))
          else Free(r.(phase := Completed))
        else
          var target := Replacement(st.leases, nodes, r.source, ha.lease, now);
          if target == None then
            Rewrite(r.(kind := Release, target := None, id := mint(c.slot), targetReady := false))
          else
            Rewrite(r.(target := target, id := mint(c.slot), drained := false, targetReady := false))
      case Completed => Untouched
      case Cancelled => Untouched
  }

  datatype Mended = Mended(intents: map<Slot, Handoff>, freed: set<Slot>, revised: set<Instance>)

  function Mends(
    st: Store, nodes: seq<Instance>, ha: HA, mint: Slot -> Id, cs: seq<Candidate>, now: int): Mended
  {
    if cs == [] then Mended(map[], {}, {})
    else
      var m := Mends(st, nodes, ha, mint, cs[..|cs| - 1], now);
      var c := cs[|cs| - 1];
      match Mend(st, nodes, ha, mint, c, now)
      case Untouched => m
      case Rewrite(h) => m.(intents := m.intents[c.slot := h])
      case Free(h) => Mended(m.intents[c.slot := h], m.freed + {c.slot}, m.revised + {h.source})
  }

  function Freed(slots: map<Slot, Row>, freed: set<Slot>): map<Slot, Row> {
    map s | s in slots :: if s in freed then Row(None, slots[s].epoch, Unowned) else slots[s]
  }

  function RecoverHandoffs(
    st: Store, token: Token, nodes: seq<Instance>, ha: HA, mint: Slot -> Id, cs: seq<Candidate>, now: int)
    : Result<Store>
  {
    if cs == [] then Ok(st)
    else if !Guarded(st.tenure, token, now) then Err(CoordinatorLost)
    else
      var m := Mends(st, nodes, ha, mint, cs, now);
      Ok(st.(slots := Freed(st.slots, m.freed),
             handoffs := st.handoffs + m.intents,
             leases := if m.freed == {} then st.leases else Bump(st.leases, m.revised)))
  }

  // ------------------------------------------------------------------
  // Range reservation.

  const MAX_INT64: int := 0x7fff_ffff_ffff_ffff

  datatype Reservation = Reservation(key: Key, slot: Slot, step: int)

  datatype Authority = Authority(instance: Instance, revision: nat, epochs: map<Slot, nat>, lease: int)

  /** White space only, so empty once trimmed. */
  predicate Blank(k: Key) {
    forall c | c in k :: c in " \t\n\r\U{000B}\U{000C}"
  }

  predicate ValidReservations(rs: seq<Reservation>) {
    && |rs| > 0
    && (forall i | 0 <= i < |rs| :: !Blank(rs[i].key) && |rs[i].key| <= 256 && rs[i].step > 0)
    && (forall i, j | 0 <= i < j < |rs| :: rs[i].key != rs[j].key)
  }

  /** The check made on the locked instance and slot rows before any watermark moves. */
  function CheckAuthority(st: Store, a: Authority, rs: seq<Reservation>, now: int): Option<Error> {
    if a.instance !in st.leases || st.leases[a.instance].state != Active
       || st.leases[a.instance].revision != a.revision
    then Some(AuthorityChanged)
    else if a.lease <= 0 || now >= st.leases[a.instance].grantedAt + a.lease then Some(LeaseExpired)
    else if exists i :: 0 <= i < |rs| && !Holds(st.slots, a, rs[i].slot) then Some(SlotNotOwned)
    else None
  }

  predicate Holds(slots: map<Slot, Row>, a: Authority, s: Slot) {
    s in slots && s in a.epochs && slots[s] == Row(Some(a.instance), a.epochs[s], Owned)
  }

  function Mark(marks: map<Key, nat>, k: Key): nat {
    if k in marks then marks[k] else 0
  }

  predicate Overflows(marks: map<Key, nat>, r: Reservation) {
    Mark(marks, r.key) + r.step > MAX_INT64
  }

  function Advance(marks: map<Key, nat>, rs: seq<Reservation>): map<Key, nat>
    requires forall i | 0 <= i < |rs| :: rs[i].step > 0
  {
    if rs == [] then marks
    else
      var before := Advance(marks, rs[..|rs| - 1]);
      var r := rs[|rs| - 1];
      before[r.key := Mark(before, r.key) + r.step]
  }

  /** The ranges the caller is handed: cut from the new watermarks, in request order. */
  function Ranges(marks: map<Key, nat>, rs: seq<Reservation>): (ranges: seq<Range>)
    ensures |ranges| == |rs|
  {
    seq(|rs|, i requires 0 <= i < |rs| => Range(Mark(marks, rs[i].key) - rs[i].step + 1, Mark(marks, rs[i].key)))
  }

  function Reserve(st: Store, a: Authority, rs: seq<Reservation>, now: int): Result<(Store, seq<Range>)> {
    if a.instance == "" || a.lease <= 0 || |a.epochs| == 0 || !ValidReservations(rs) then Err(InvalidRequest)
    else
      var refused := CheckAuthority(st, a, rs, now);
      if refused.Some? then Err(refused.value)
      else if exists i :: 0 <= i < |rs| && Overflows(st.marks, rs[i]) then Err(StorageFailure)
      else
        var marks := Advance(st.marks, rs);
        Ok((st.(marks := marks), Ranges(marks, rs)))
  }
}
