/** The allocator's authority state in the form the service runs it.

The fields are those of `Local.Proc`; each method is one critical section of the
authority loop or of a request, and its contract ties the fields it leaves to the
functions that the fleet's steps use.
*/
module AllocatorState {
  import opened Tables
  import opened Local

  class Allocator {
    var initialized: bool
    var stopping: bool
    var fenced: bool
    var revision: nat
    var deadline: int
    var slots: map<Slot, nat>
    var drainingSlots: map<Slot, nat>
    var pendingActive: set<Slot>
    var detached: map<Slot, nat>
    var phantoms: set<GateId>
    var boxes: map<GateId, Gate>

    constructor ()
      ensures Proc(Idle, 0) == Local.Proc(false, false, false, 0, 0, map[], map[], {}, map[], {}, map[], Idle, 0)
    {
      initialized, stopping, fenced, revision, deadline := false, false, false, 0, 0;
      slots, drainingSlots, pendingActive, detached, phantoms, boxes := map[], map[], {}, map[], {}, map[];
    }

    /** The process as the fleet sees it, given what its authority loop is waiting for. */
    function Proc(op: Op, granted: int): Local.Proc
      reads this
    {
      Local.Proc(initialized, stopping, fenced, revision, deadline, slots, drainingSlots, pendingActive, detached,
                 phantoms, boxes, op, granted)
    }

    /** Every served slot has its gate. */
    predicate Valid()
      reads this
    {
      forall s | s in slots :: GateId(s, slots[s]) in boxes
    }

    // ----------------------------------------------------------------
    // Authority.

    /** Close withdrawn gates, install new ones closed, then publish the acknowledged revision. */
    method ApplyAuthority(to: nat, view: map<Slot, Row>, ghost op: Op, ghost granted: int) returns (ok: bool)
      requires Valid()
      modifies this
      ensures ok <==> Acceptable(old(Proc(op, granted)), to, view)
      ensures ok ==> Proc(op, granted) == Local.ApplyAuthority(old(Proc(op, granted)), to, view)
      ensures !ok ==> Proc(op, granted) == old(Proc(op, granted))
    {
      if stopping || fenced {
        return false;
      }
      if to < revision || exists s :: s in view && view[s].epoch == 0 {
        return false;
      }
      ghost var before := Proc(op, granted);
      ApplyIs(before, to, view);
      hide Only, Epochs, NewGates, StillClosed, Kept, Lost, Gained, Close, Ids, Local.ApplyAuthority;
      var kept := CloseLost(view, before);
      InstallGained(view, kept, before);
      revision := to;
      return true;
    }

    method CloseLost(view: map<Slot, Row>, ghost p: Local.Proc) returns (kept: set<Slot>)
      requires Valid() && p.gates == slots && p.drains == drainingSlots && p.boxes == boxes
      modifies `slots, `drainingSlots, `boxes
      ensures kept == Kept(p, view)
      ensures slots == Only(p.gates, kept)
      ensures drainingSlots == p.drains + Only(p.gates, Lost(p, view))
      ensures boxes == Close(p.boxes, Ids(p.gates, Lost(p, view)))
    {
      var left := slots.Keys;
      kept := {};
      ghost var lost: set<Slot> := {};
      NothingLost(p);
      hide Only, Close, Ids, Kept, Confirms;
      while left != {}
        invariant left <= p.gates.Keys && kept + lost + left == p.gates.Keys && kept + left !! lost
        invariant forall s | s in kept :: Confirms(view, s, p.gates[s])
        invariant forall s | s in lost :: !Confirms(view, s, p.gates[s])
        invariant slots == Only(p.gates, kept + left)
        invariant drainingSlots == p.drains + Only(p.gates, lost)
        invariant boxes == Close(p.boxes, Ids(p.gates, lost))
        decreases left
      {
        var id :| id in left;
        ghost var rest := kept + left;
        OnlyAt(p.gates, rest, id);
        var epoch := slots[id];
        if Confirms(view, id, epoch) {
          kept := kept + {id};
          assert rest == kept + (left - {id});
        } else {
          var g := GateId(id, epoch);
          LoseMore(p, rest, lost, id);
          boxes := boxes[g := boxes[g].(draining := true)];
          drainingSlots := drainingSlots[id := epoch];
          slots := slots - {id};
          lost := lost + {id};
          assert rest - {id} == kept + (left - {id});
        }
        left := left - {id};
      }
      KeptIs(p, view, kept, lost);
      assert kept + left == kept;
    }

    method InstallGained(view: map<Slot, Row>, kept: set<Slot>, ghost p: Local.Proc)
      requires kept == Kept(p, view) && slots == Only(p.gates, kept)
      requires boxes == Close(p.boxes, Ids(p.gates, Lost(p, view)))
      requires forall s | s in p.gates :: GateId(s, p.gates[s]) in p.boxes
      modifies `slots, `pendingActive, `boxes
      ensures slots == Epochs(view, kept + Gained(p, view))
      ensures pendingActive == StillClosed(p, kept) + Gained(p, view)
      ensures boxes == Close(p.boxes, Ids(p.gates, Lost(p, view))) + NewGates(view, Gained(p, view))
    {
      pendingActive := {};
      var left := view.Keys;
      ghost var closed := boxes;
      ghost var gained: set<Slot> := {};
      NothingGained(p, view, kept, closed);
      hide Only, Epochs, NewGates, StillClosed, Kept, Lost, Close, Ids;
      while left != {}
        invariant left <= view.Keys && gained !! left && gained !! kept
        invariant forall s | s in gained :: s in view && view[s].state == Owned
        invariant forall s | s in view && s !in left && view[s].state == Owned :: s in gained || s in kept
        invariant slots == Only(p.gates, kept) + Epochs(view, gained)
        invariant boxes == closed + NewGates(view, gained)
        invariant pendingActive <= StillClosed(p, kept) + gained && gained <= pendingActive
        invariant forall s | s in StillClosed(p, kept) && s !in left :: s in pendingActive
        decreases left
      {
        var id :| id in left;
        SlotsAre(p, view, kept, gained, id);
        if view[id].state == Owned {
          if id in slots {
            KeptGate(p, view, kept, gained, closed, id);
            if boxes[GateId(id, slots[id])].draining {
              pendingActive := pendingActive + {id};
            }
          } else {
            GainMore(view, gained, id, Only(p.gates, kept), closed);
            slots := slots[id := view[id].epoch];
            boxes := boxes[GateId(id, view[id].epoch) := Gate(true, 0)];
            pendingActive := pendingActive + {id};
            gained := gained + {id};
          }
        }
        left := left - {id};
      }
      GainedIs(p, view, kept, gained);
    }

    /** Shutdown: close every gate and keep them for release; nothing is left to open. */
    method DetachAll(ghost op: Op, ghost granted: int)
      requires Valid()
      modifies this
      ensures Proc(op, granted) == Local.Detach(old(Proc(op, granted)))
    {
      DetachIs(Proc(op, granted));
      hide Only, Close, Ids, Local.Detach;
      CloseAll(Proc(op, granted));
      detached := slots;
      slots := map[];
      pendingActive := {};
    }

    method CloseAll(ghost p: Local.Proc)
      requires Valid() && p.gates == slots && p.drains == drainingSlots && p.boxes == boxes
      modifies `drainingSlots, `boxes
      ensures drainingSlots == p.drains + Only(p.gates, p.gates.Keys)
      ensures boxes == Close(p.boxes, Ids(p.gates, p.gates.Keys))
    {
      var left := slots.Keys;
      ghost var closed: set<Slot> := {};
      NothingLost(p);
      assert drainingSlots == p.drains + Only(p.gates, {});
      hide Only, Close, Ids;
      while left != {}
        invariant closed + left == p.gates.Keys && closed !! left
        invariant drainingSlots == p.drains + Only(p.gates, closed)
        invariant boxes == Close(p.boxes, Ids(p.gates, closed))
        decreases left
      {
        var id :| id in left;
        var g := GateId(id, slots[id]);
        LoseMore(p, p.gates.Keys, closed, id);
        boxes := boxes[g := boxes[g].(draining := true)];
        drainingSlots := drainingSlots[id := slots[id]];
        closed := closed + {id};
        left := left - {id};
      }
      assert closed == p.gates.Keys;
    }

    /** One renewal's answer, anchored at its send time: arm the deadline and open what was waiting, or do nothing. */
    method AcceptRenewal(anchor: int, acknowledged: nat, active: bool, mono: int, ha: HA) returns (ok: bool)
      requires Valid() && pendingActive <= slots.Keys
      modifies `deadline, `boxes, `pendingActive
      ensures ok <==> acknowledged == revision && active && mono < anchor + ha.Deadline() && !stopping && !fenced
      ensures ok ==> deadline == anchor + ha.Deadline() && pendingActive == {}
      ensures ok ==> boxes.Keys == old(boxes.Keys) && forall g | g in boxes ::
        boxes[g] ==
          if g.slot in old(pendingActive) && slots[g.slot] == g.epoch then Gate(false, old(boxes)[g].inflight)
          else old(boxes)[g]
      ensures !ok ==> deadline == old(deadline) && boxes == old(boxes) && pendingActive == old(pendingActive)
    {
      if acknowledged != revision || !active || mono >= anchor + ha.Deadline() || stopping || fenced {
        return false;
      }
      deadline := anchor + ha.Deadline();
      var left := pendingActive;
      ghost var done: set<Slot> := {};
      NothingOpened(boxes, slots);
      while left != {}
        invariant left <= slots.Keys && done + left == pendingActive && done !! left
        invariant deadline == anchor + ha.Deadline() && pendingActive == old(pendingActive)
        invariant boxes == Opened(old(boxes), Ids(slots, done))
        decreases left
      {
        var id :| id in left;
        var g := GateId(id, slots[id]);
        OpenMore(old(boxes), slots, done, id);
        boxes := boxes[g := boxes[g].(draining := false)];
        done := done + {id};
        left := left - {id};
      }
      assert done == pendingActive;
      OpenedAre(old(boxes), slots, done);
      pendingActive := {};
      return true;
    }

    /** Slots that storage still holds for this instance although the serving path never saw them. */
    method IncludeHeldAuthority(view: map<Slot, Row>, ghost op: Op, ghost granted: int)
      modifies `phantoms
      ensures phantoms == old(phantoms) + Held(old(Proc(op, granted)), view)
      ensures forall g: GateId :: g in phantoms <==>
        g in old(phantoms) || (g.slot in view && view[g.slot] == Row(view[g.slot].owner, g.epoch, Owned)
                               && g.epoch > 0 && g.slot !in detached)
    {
      phantoms := phantoms + set s | s in view && view[s].state == Owned && view[s].epoch > 0 && s !in detached ::
        GateId(s, view[s].epoch);
    }

    // ----------------------------------------------------------------
    // Requests.

    /** Register in flight first, then read the drain flag: a drain sees the request or turns it away. */
    method EnterSlot(id: Slot) returns (ok: bool)
      requires Valid()
      modifies `boxes
      ensures ok <==> !stopping && !fenced && id in slots && !old(boxes)[GateId(id, slots[id])].draining
      ensures ok ==> var g := GateId(id, slots[id]);
        boxes == old(boxes)[g := old(boxes)[g].(inflight := old(boxes)[g].inflight + 1)]
      ensures !ok ==> boxes == old(boxes)
    {
      if stopping || fenced || id !in slots {
        return false;
      }
      var g := GateId(id, slots[id]);
      boxes := boxes[g := boxes[g].(inflight := boxes[g].inflight + 1)];
      if boxes[g].draining {
        boxes := boxes[g := boxes[g].(inflight := boxes[g].inflight - 1)];
        return false;
      }
      return true;
    }

    method Leave(g: GateId)
      requires g in boxes && boxes[g].inflight > 0
      modifies `boxes
      ensures boxes == old(boxes)[g := old(boxes)[g].(inflight := old(boxes)[g].inflight - 1)]
    {
      boxes := boxes[g := boxes[g].(inflight := boxes[g].inflight - 1)];
    }

    /** The gate first, the deadline last. */
    method CheckAllocationSlot(g: GateId, mono: int) returns (ok: bool)
      requires g in boxes
      ensures ok <==> !boxes[g].draining && !stopping && !fenced && 0 < deadline && mono < deadline
    {
      if boxes[g].draining || stopping || fenced {
        return false;
      }
      return deadline > 0 && mono < deadline;
    }

    /** A pause longer than its bound closes the gate and fences the process. */
    method CheckFastPathBound(g: GateId, started: int, mono: int, maxPause: int) returns (ok: bool)
      requires g in boxes
      modifies `boxes, `fenced
      ensures ok <==> mono - started <= maxPause
      ensures ok ==> boxes == old(boxes) && fenced == old(fenced)
      ensures !ok ==> fenced && boxes == old(boxes)[g := old(boxes)[g].(draining := true)]
    {
      if mono - started <= maxPause {
        return true;
      }
      boxes := boxes[g := boxes[g].(draining := true)];
      fenced := true;
      return false;
    }
  }

  function Opened(boxes: map<GateId, Gate>, ids: set<GateId>): map<GateId, Gate> {
    map g | g in boxes :: if g in ids then boxes[g].(draining := false) else boxes[g]
  }

  lemma OpenedAre(boxes: map<GateId, Gate>, gates: map<Slot, nat>, done: set<Slot>)
    requires done <= gates.Keys
    ensures Opened(boxes, Ids(gates, done)).Keys == boxes.Keys
    ensures forall g | g in boxes ::
      Opened(boxes, Ids(gates, done))[g] ==
        if g.slot in done && gates[g.slot] == g.epoch then Gate(false, boxes[g].inflight) else boxes[g]
  {
    forall g | g in boxes ensures g in Ids(gates, done) <==> g.slot in done && gates[g.slot] == g.epoch {
    }
  }

  lemma NothingOpened(boxes: map<GateId, Gate>, gates: map<Slot, nat>)
    ensures Opened(boxes, Ids(gates, {})) == boxes
  {
  }

  lemma OpenMore(boxes: map<GateId, Gate>, gates: map<Slot, nat>, done: set<Slot>, s: Slot)
    requires s in gates && GateId(s, gates[s]) in boxes
    ensures var g := GateId(s, gates[s]);
      Opened(boxes, Ids(gates, done + {s})) ==
        Opened(boxes, Ids(gates, done))[g := Opened(boxes, Ids(gates, done))[g].(draining := false)]
  {
    IdsMore(gates, done, s);
  }

  function Only(gates: map<Slot, nat>, some: set<Slot>): map<Slot, nat> {
    map s | s in gates && s in some :: gates[s]
  }

  /** Kept gates that have not done since they were installed. */
  function StillClosed(p: Local.Proc, kept: set<Slot>): set<Slot> {
    set s | s in kept && s in p.gates && GateId(s, p.gates[s]) in p.boxes && p.boxes[GateId(s, p.gates[s])].draining
  }

  function NewGates(view: map<Slot, Row>, gained: set<Slot>): map<GateId, Gate> {
    map g | g in Ids(Epochs(view, gained), gained) :: Gate(true, 0)
  }

  lemma NothingLost(p: Local.Proc)
    ensures Only(p.gates, p.gates.Keys) == p.gates && Only(p.gates, {}) == map[]
    ensures Close(p.boxes, Ids(p.gates, {})) == p.boxes
    ensures forall some: set<Slot> | {} + some == p.gates.Keys :: Only(p.gates, some) == p.gates
  {
  }

  lemma DetachIs(p: Local.Proc)
    ensures Local.Detach(p) ==
      p.(gates := map[], drains := p.drains + Only(p.gates, p.gates.Keys), pending := {}, detached := p.gates,
         boxes := Close(p.boxes, Ids(p.gates, p.gates.Keys)))
  {
    hide Close, Ids;
  }

  lemma OnlyAt(gates: map<Slot, nat>, some: set<Slot>, s: Slot)
    requires s in gates && s in some
    ensures s in Only(gates, some) && Only(gates, some)[s] == gates[s]
  {
  }

  lemma LoseMore(p: Local.Proc, rest: set<Slot>, lost: set<Slot>, s: Slot)
    requires s in p.gates && s in rest && s !in lost && forall k | k in p.gates :: GateId(k, p.gates[k]) in p.boxes
    ensures Only(p.gates, rest - {s}) == Only(p.gates, rest) - {s}
    ensures p.drains + Only(p.gates, lost + {s}) == (p.drains + Only(p.gates, lost))[s := p.gates[s]]
    ensures var g := GateId(s, p.gates[s]);
      && g in Close(p.boxes, Ids(p.gates, lost))
      && Close(p.boxes, Ids(p.gates, lost + {s})) ==
           Close(p.boxes, Ids(p.gates, lost))[g := Close(p.boxes, Ids(p.gates, lost))[g].(draining := true)]
  {
    IdsMore(p.gates, lost, s);
  }

  lemma KeptIs(p: Local.Proc, view: map<Slot, Row>, kept: set<Slot>, lost: set<Slot>)
    requires kept + lost == p.gates.Keys && kept !! lost
    requires forall s | s in kept :: Confirms(view, s, p.gates[s])
    requires forall s | s in lost :: !Confirms(view, s, p.gates[s])
    ensures kept == Kept(p, view) && lost == Lost(p, view)
  {
  }

  lemma NothingGained(p: Local.Proc, view: map<Slot, Row>, kept: set<Slot>, closed: map<GateId, Gate>)
    ensures Only(p.gates, kept) + Epochs(view, {}) == Only(p.gates, kept)
    ensures closed + NewGates(view, {}) == closed
  {
  }

  lemma SlotsAre(p: Local.Proc, view: map<Slot, Row>, kept: set<Slot>, gained: set<Slot>, s: Slot)
    requires kept == Kept(p, view) && gained <= view.Keys
    ensures s in Only(p.gates, kept) + Epochs(view, gained) <==> s in kept || s in gained
  {
  }

  lemma GainedIs(p: Local.Proc, view: map<Slot, Row>, kept: set<Slot>, gained: set<Slot>)
    requires kept == Kept(p, view) && gained !! kept
    requires forall s | s in gained :: s in view && view[s].state == Owned
    requires forall s | s in view && view[s].state == Owned :: s in gained || s in kept
    ensures gained == Gained(p, view)
    ensures Only(p.gates, kept) + Epochs(view, gained) == Epochs(view, kept + gained)
  {
  }

  /** Applying a snapshot, part by part. */
  lemma ApplyIs(p: Local.Proc, to: nat, view: map<Slot, Row>)
    ensures var kept, gained, lost := Kept(p, view), Gained(p, view), Lost(p, view);
      Local.ApplyAuthority(p, to, view) ==
        p.(gates := Epochs(view, kept + gained),
           drains := p.drains + Only(p.gates, lost),
           pending := StillClosed(p, kept) + gained,
           boxes := Close(p.boxes, Ids(p.gates, lost)) + NewGates(view, gained),
           revision := to)
  {
    hide Kept, Gained, Close, Epochs, Ids;
    var q := Local.ApplyAuthority(p, to, view);
    assert q.drains == p.drains + Only(p.gates, Lost(p, view));
    assert q.pending == StillClosed(p, Kept(p, view)) + Gained(p, view) by { KeptServed(p, view); }
    assert q.boxes == Close(p.boxes, Ids(p.gates, Lost(p, view))) + NewGates(view, Gained(p, view));
  }

  lemma KeptServed(p: Local.Proc, view: map<Slot, Row>)
    ensures Kept(p, view) <= p.gates.Keys
  {
  }

  /** A gate that is served already and confirmed by the view is one that was kept. */
  lemma KeptGate(
    p: Local.Proc, view: map<Slot, Row>, kept: set<Slot>, gained: set<Slot>, closed: map<GateId, Gate>, s: Slot)
    requires kept == Kept(p, view) && closed == Close(p.boxes, Ids(p.gates, Lost(p, view)))
    requires s in Only(p.gates, kept) + Epochs(view, gained) && s !in gained && gained !! kept
    requires forall k | k in p.gates :: GateId(k, p.gates[k]) in p.boxes
    ensures s in kept && (Only(p.gates, kept) + Epochs(view, gained))[s] == p.gates[s]
    ensures GateId(s, p.gates[s]) in closed
    ensures var boxes := closed + NewGates(view, gained);
      boxes[GateId(s, p.gates[s])].draining <==> s in StillClosed(p, kept)
  {
    assert GateId(s, p.gates[s]) !in Ids(p.gates, Lost(p, view));
  }

  lemma IdsMore(gates: map<Slot, nat>, some: set<Slot>, s: Slot)
    requires s in gates
    ensures Ids(gates, some + {s}) == Ids(gates, some) + {GateId(s, gates[s])}
  {
  }

  lemma GainMore(
    view: map<Slot, Row>, gained: set<Slot>, s: Slot, before: map<Slot, nat>, closed: map<GateId, Gate>)
    requires s in view
    ensures before + Epochs(view, gained + {s}) == (before + Epochs(view, gained))[s := view[s].epoch]
    ensures closed + NewGates(view, gained + {s}) ==
              (closed + NewGates(view, gained))[GateId(s, view[s].epoch) := Gate(true, 0)]
  {
    NewGatesMore(view, gained, s);
    assert Epochs(view, gained + {s}) == Epochs(view, gained)[s := view[s].epoch];
    hide NewGates, Epochs;
  }

  lemma NewGatesMore(view: map<Slot, Row>, gained: set<Slot>, s: Slot)
    requires s in view
    ensures NewGates(view, gained + {s}) == NewGates(view, gained)[GateId(s, view[s].epoch) := Gate(true, 0)]
  {
    assert Ids(Epochs(view, gained + {s}), gained + {s}) ==
        Ids(Epochs(view, gained), gained) + {GateId(s, view[s].epoch)};
  }

  // ------------------------------------------------------------------
  // The cache of key states in one gate.

  /** A cached state: which one, when it was last used, who refers to it, and whether a fetch is outstanding. */
  datatype Entry = Entry(id: nat, lastUsed: int, references: nat, fetching: bool)

  predicate Evictable(e: Entry, cutoff: int) {
    e.lastUsed <= cutoff && !e.fetching && e.references == 0
  }

  class KeyCache {
    var entries: map<Key, Entry>
    var inflight: nat

    constructor ()
      ensures entries == map[] && inflight == 0
    {
      entries, inflight := map[], 0;
    }

    /** Evict the listed states that are still the cached ones, idle and unreferenced; keep everything else. */
    method EvictIdleCandidates(candidates: seq<(Key, nat)>, cutoff: int)
      modifies this
      ensures forall k | k in entries :: k in old(entries) && entries[k] == old(entries)[k]
      ensures forall k | k in old(entries) ::
        k !in entries <==> Evictable(old(entries)[k], cutoff) && (k, old(entries)[k].id) in candidates
    {
      var i := 0;
      while i < |candidates|
        invariant 0 <= i <= |candidates|
        invariant forall k | k in entries :: k in old(entries) && entries[k] == old(entries)[k]
        invariant forall k | k in old(entries) ::
          k !in entries <==> Evictable(old(entries)[k], cutoff) && (k, old(entries)[k].id) in candidates[..i]
      {
        var key, id := candidates[i].0, candidates[i].1;
        if key in entries && entries[key].id == id && entries[key].lastUsed <= cutoff {
          if entries[key].fetching || entries[key].references != 0 {
            inflight := inflight + 1;
          } else {
            entries := entries - {key};
          }
        }
        i := i + 1;
      }
    }
  }
}
