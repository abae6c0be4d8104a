/** The process-local half of the authority: gates, revision, deadline.

`Proc` is one allocator's authority state as a value. A gate object is named by its
slot and epoch; `boxes` holds every gate the process ever built, `gates` those it
serves under, `drains` those withdrawn and still awaiting their acknowledgement.
*/
module Local {
  import opened Tables

  datatype GateId = GateId(slot: Slot, epoch: nat)

  /** An allocation gate: the drain flag and the in-flight counter. */
  datatype Gate = Gate(draining: bool, inflight: nat)

  /** The operation holding the authority mutex. */
  datatype Op =
    | Idle
    | Sent(anchor: int, committed: bool)
    | Confirmed(anchor: int)
    | Timely(anchor: int)
    | Stored
    | Opening(todo: set<Slot>)
    | Snapshot(revision: nat, view: map<Slot, Row>)

  datatype Proc = Proc(
    initialized: bool,
    stopping: bool,
    fenced: bool,
    revision: nat,
    deadline: int,
    gates: map<Slot, nat>,
    drains: map<Slot, nat>,
    pending: set<Slot>,
    detached: map<Slot, nat>,
    phantoms: set<GateId>,
    boxes: map<GateId, Gate>,
    op: Op,
    granted: int)  // real time of the commit that last moved this instance's lease clock
  {
    predicate Serving(g: GateId) {
      g.slot in gates && gates[g.slot] == g.epoch
    }

    predicate Withdrawn(g: GateId) {
      g in boxes && !Serving(g)
    }

    predicate Open(g: GateId) {
      g in boxes && !boxes[g].draining
    }
  }

  // ------------------------------------------------------------------
  // Applying an authority snapshot.

  /** The snapshot still names the gate's slot, OWNED, at the gate's epoch. */
  predicate Confirms(view: map<Slot, Row>, s: Slot, epoch: nat) {
    s in view && view[s].state == Owned && view[s].epoch == epoch
  }

  function Kept(p: Proc, view: map<Slot, Row>): set<Slot> {
    set s | s in p.gates && Confirms(view, s, p.gates[s])
  }

  function Lost(p: Proc, view: map<Slot, Row>): set<Slot> {
    p.gates.Keys - Kept(p, view)
  }

  function Gained(p: Proc, view: map<Slot, Row>): set<Slot> {
    set s | s in view && view[s].state == Owned && s !in Kept(p, view)
  }

  function Ids(gates: map<Slot, nat>, slots: set<Slot>): set<GateId> {
    set s | s in slots && s in gates :: GateId(s, gates[s])
  }

  function Close(boxes: map<GateId, Gate>, ids: set<GateId>): (r: map<GateId, Gate>)
    ensures r.Keys == boxes.Keys
  {
    map g | g in boxes :: if g in ids then boxes[g].(draining := true) else boxes[g]
  }

  function Epochs(view: map<Slot, Row>, slots: set<Slot>): map<Slot, nat> {
    map s | s in slots && s in view :: view[s].epoch
  }

  predicate Acceptable(p: Proc, revision: nat, view: map<Slot, Row>) {
    && !p.stopping && !p.fenced
    && revision >= p.revision
    && forall s | s in view :: view[s].epoch > 0
  }

  /** Withdrawn gates close before the revision they are withdrawn under is published. */
  function ApplyAuthority(p: Proc, revision: nat, view: map<Slot, Row>): Proc {
    var kept, lost, gained := Kept(p, view), Lost(p, view), Gained(p, view);
    var newcomers := Epochs(view, gained);
    p.(gates := Epochs(view, kept + gained),
       drains := p.drains + (map s | s in lost :: p.gates[s]),
       pending := (set s | s in kept && GateId(s, p.gates[s]) in p.boxes
           && p.boxes[GateId(s, p.gates[s])].draining) + gained,
       boxes := Close(p.boxes, Ids(p.gates, lost)) + (map g | g in Ids(newcomers, gained) :: Gate(true, 0)),
       revision := revision)
  }

  /** Shutdown: every gate closes and nothing is left to open. */
  function Detach(p: Proc): Proc {
    p.(gates := map[],
       drains := p.drains + p.gates,
       pending := {},
       detached := p.gates,
       boxes := Close(p.boxes, Ids(p.gates, p.gates.Keys)))
  }

  /** Slots held in storage that the serving path never saw. */
  function Held(p: Proc, view: map<Slot, Row>): set<GateId> {
    set s | s in view && view[s].state == Owned && view[s].epoch > 0 && s !in p.detached :: GateId(s, view[s].epoch)
  }

  function SetDraining(p: Proc, g: GateId, draining: bool): Proc
    requires g in p.boxes
  {
    p.(boxes := p.boxes[g := p.boxes[g].(draining := draining)])
  }

  function SetInflight(p: Proc, g: GateId, inflight: nat): Proc
    requires g in p.boxes
  {
    p.(boxes := p.boxes[g := p.boxes[g].(inflight := inflight)])
  }

  /** The withdrawn gate is empty: what an ACK_DRAIN states. */
  predicate Drained(p: Proc, g: GateId) {
    || (g in p.boxes && p.boxes[g].draining && p.boxes[g].inflight == 0
        && ((g.slot in p.drains && p.drains[g.slot] == g.epoch)
            || (g.slot in p.detached && p.detached[g.slot] == g.epoch)))
    || g in p.phantoms
  }

  // ------------------------------------------------------------------
  // What these do, gate by gate.

  /** The view grants slot `s` for service at epoch `epoch`. */
  predicate Grants(view: map<Slot, Row>, s: Slot, epoch: nat) {
    s in view && view[s] == Row(view[s].owner, epoch, Owned)
  }

  /** Applying a snapshot serves exactly what it grants, under its revision, and touches nothing but the gates. */
  lemma ApplyServes(p: Proc, revision: nat, view: map<Slot, Row>, g: GateId)
    ensures var q := ApplyAuthority(p, revision, view);
      && (q.Serving(g) <==> Grants(view, g.slot, g.epoch))
      && q == p.(gates := q.gates, drains := q.drains, pending := q.pending, boxes := q.boxes, revision := revision)
  {
    hide Lost, Close, Ids;
  }

  lemma LostIds(p: Proc, view: map<Slot, Row>, g: GateId)
    ensures g in Ids(p.gates, Lost(p, view)) <==> p.Serving(g) && !Grants(view, g.slot, g.epoch)
    ensures g in Ids(p.gates, Lost(p, view)) ==> g.slot in Lost(p, view)
  {
  }

  lemma GainedIds(p: Proc, view: map<Slot, Row>, g: GateId)
    ensures g in Ids(Epochs(view, Gained(p, view)), Gained(p, view)) <==>
      Grants(view, g.slot, g.epoch) && !p.Serving(g)
  {
    var gained := Gained(p, view);
    assert Grants(view, g.slot, g.epoch) && !p.Serving(g) <==> g.slot in gained && view[g.slot].epoch == g.epoch;
    if g.slot in gained {
      assert g.slot in Epochs(view, gained) && Epochs(view, gained)[g.slot] == view[g.slot].epoch;
    }
  }

  lemma AppliedBoxes(p: Proc, revision: nat, view: map<Slot, Row>, g: GateId)
    ensures var q, lost, gained := ApplyAuthority(p, revision, view), Lost(p, view), Gained(p, view);
      && (g in q.boxes <==> g in p.boxes || g in Ids(Epochs(view, gained), gained))
      && (g in Ids(Epochs(view, gained), gained) ==> q.boxes[g] == Gate(true, 0))
      && (g in p.boxes && g !in Ids(Epochs(view, gained), gained) ==>
            q.boxes[g] == if g in Ids(p.gates, lost) then p.boxes[g].(draining := true) else p.boxes[g])
  {
    hide Kept, Lost, Gained, Ids, Epochs;
  }

  lemma AppliedDrains(p: Proc, revision: nat, view: map<Slot, Row>, s: Slot)
    requires s in p.gates && s in Lost(p, view)
    ensures var q := ApplyAuthority(p, revision, view);
      s in q.drains && q.drains[s] == p.gates[s]
  {
    hide Kept, Lost, Gained, Ids, Epochs, Close;
  }

  /** What becomes of a gate: one served no more is closed, withdrawn and due an acknowledgement; one served before and
      after is as it was; a new one starts closed and empty; any other is left alone. */
  lemma ApplyExactly(p: Proc, revision: nat, view: map<Slot, Row>, g: GateId)
    requires forall s | s in p.gates :: GateId(s, p.gates[s]) in p.boxes
    ensures var q, granted := ApplyAuthority(p, revision, view), Grants(view, g.slot, g.epoch);
      if p.Serving(g) && !granted then
        && g in q.boxes && q.boxes[g] == p.boxes[g].(draining := true)
        && g.slot in q.drains && q.drains[g.slot] == g.epoch
      else if granted && !p.Serving(g) then g in q.boxes && q.boxes[g] == Gate(true, 0)
      else (g in q.boxes <==> g in p.boxes) && (g in p.boxes ==> q.boxes[g] == p.boxes[g])
  {
    hide ApplyAuthority, Kept, Lost, Gained, Ids, Epochs, Close, Grants;
    LostIds(p, view, g);
    GainedIds(p, view, g);
    AppliedBoxes(p, revision, view, g);
    if p.Serving(g) && !Grants(view, g.slot, g.epoch) {
      AppliedDrains(p, revision, view, g.slot);
    }
  }

  /** What may open at the next renewal: the served gates that are closed. */
  lemma ApplyOpens(p: Proc, revision: nat, view: map<Slot, Row>, s: Slot)
    requires forall s | s in p.gates :: GateId(s, p.gates[s]) in p.boxes
    ensures var q := ApplyAuthority(p, revision, view);
      s in q.pending <==>
        s in q.gates && GateId(s, q.gates[s]) in q.boxes && q.boxes[GateId(s, q.gates[s])].draining
  {
    var q := ApplyAuthority(p, revision, view);
    if s in q.gates {
      ApplyExactly(p, revision, view, GateId(s, q.gates[s]));
    }
    hide Lost, Close, Ids;
  }

  /** Acknowledgements already due stay due, unless the slot is withdrawn anew. */
  lemma DrainsStay(p: Proc, revision: nat, view: map<Slot, Row>, s: Slot)
    ensures var q := ApplyAuthority(p, revision, view);
      s in q.drains <==> s in p.drains || (s in p.gates && !Grants(view, s, p.gates[s]))
    ensures var q := ApplyAuthority(p, revision, view);
      s in p.drains && (s in p.gates ==> Grants(view, s, p.gates[s])) ==> q.drains[s] == p.drains[s]
  {
  }

  /** Shutdown serves nothing: every gate served is closed, withdrawn and due an acknowledgement, and nothing may
      open. */
  lemma DetachExactly(p: Proc)
    requires forall s | s in p.gates :: GateId(s, p.gates[s]) in p.boxes
    ensures var q := Detach(p);
      && q.gates == map[] && q.pending == {} && q.detached == p.gates
      && q.boxes.Keys == p.boxes.Keys && q.drains.Keys == p.drains.Keys + p.gates.Keys
      && (forall g | g in p.boxes :: q.boxes[g] == if p.Serving(g) then p.boxes[g].(draining := true) else p.boxes[g])
      && (forall s | s in q.drains :: q.drains[s] == if s in p.gates then p.gates[s] else p.drains[s])
      && q == p.(gates := q.gates, drains := q.drains, pending := q.pending, detached := q.detached, boxes := q.boxes)
  {
  }
}
