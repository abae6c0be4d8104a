/** Moving surplus slots to members below their quota. */
module Migrations {
  import opened Tables
  import opened Route
  import opened Members
  import opened Placement

  /** A handoff and the slot it moves. */
  datatype Move = Move(slot: Slot, intent: Handoff)

  // ------------------------------------------------------------------
  // Projected loads.

  function Held(view: seq<OwnershipSegment>, p: Instance): int {
    if view == [] then 0
    else
      var s := view[|view| - 1];
      Held(view[..|view| - 1], p) + (if s.instance == p then Length(Plain(s)) else 0)
  }

  /** What a pending handoff will still change of one instance's load. */
  function Shift(h: Handoff, p: Instance): int {
    if !h.Live() || h.phase == Transferred then 0
    else (if h.target == Some(p) then 1 else 0) - (if h.source == p then 1 else 0)
  }

  function Shifts(moves: seq<Move>, p: Instance): int {
    if moves == [] then 0 else Shifts(moves[..|moves| - 1], p) + Shift(moves[|moves| - 1].intent, p)
  }

  /** The load an instance will have once every pending handoff is through. */
  function Projected(view: seq<OwnershipSegment>, moves: seq<Move>, p: Instance): int {
    Held(view, p) + Shifts(moves, p)
  }

  predicate Busy(moves: seq<Move>, slot: Slot) {
    exists i :: 0 <= i < |moves| && moves[i].slot == slot && moves[i].intent.Live()
  }

  function Total(view: seq<OwnershipSegment>, moves: seq<Move>, nodes: seq<Member>): int {
    if nodes == [] then 0
    else Total(view, moves, nodes[..|nodes| - 1]) + Projected(view, moves, nodes[|nodes| - 1].instance)
  }

  // ------------------------------------------------------------------
  // Who takes part.

  function Admit(view: seq<OwnershipSegment>, nodes: seq<Member>, stability: int): seq<Member> {
    if nodes == [] then []
    else
      var n := nodes[|nodes| - 1];
      Admit(view, nodes[..|nodes| - 1], stability)
      + (if Held(view, n.instance) > 0 || n.stableFor >= stability then [n] else [])
  }

  function Players(view: seq<OwnershipSegment>, nodes: seq<Member>, stability: int): seq<Member> {
    ById(Admit(view, nodes, stability))
  }

  predicate Listed(nodes: seq<Member>, p: Instance) {
    exists i :: 0 <= i < |nodes| && nodes[i].instance == p
  }

  /** No migrations are planned while some slot is unowned, overdue or owned by someone not listed. */
  predicate Calm(view: seq<OwnershipSegment>, nodes: seq<Member>) {
    forall i | 0 <= i < |view| :: view[i].state != Unowned && !view[i].overdue && Listed(nodes, view[i].instance)
  }

  predicate Ready(
    view: seq<OwnershipSegment>, nodes: seq<Member>, stability: int, limit: int, size: nat)
  {
    && ValidView(view, size) && limit > 0 && Calm(view, nodes)
    && |Players(view, nodes, stability)| >= 2
  }

  // ------------------------------------------------------------------
  // What one planned move is.

  /** Above its quota: the players' `i`-th. */
  predicate Over(view: seq<OwnershipSegment>, moves: seq<Move>, players: seq<Member>, size: nat, i: nat)
    requires i < |players|
  {
    Projected(view, moves, players[i].instance) > Quota(size, |players|, i)
  }

  predicate Under(view: seq<OwnershipSegment>, moves: seq<Move>, players: seq<Member>, size: nat, i: nat)
    requires i < |players|
  {
    Projected(view, moves, players[i].instance) < Quota(size, |players|, i)
  }

  /** The move takes an idle owned slot from a player above its quota to one below its own. */
  ghost predicate Fair(
    view: seq<OwnershipSegment>, moves: seq<Move>, players: seq<Member>, size: nat, m: Move)
  {
    && m.slot < |Spread(view)| && !Busy(moves, m.slot)
    && var s := Spread(view)[m.slot];
    && s.state == Owned
    && m.intent.kind == Transfer && m.intent.phase == Planned && !m.intent.drained
    && m.intent.source == s.instance && m.intent.sourceEpoch == s.epoch
    && (exists i :: 0 <= i < |players| && players[i].instance == s.instance && Over(view, moves, players, size, i))
    && (exists j :: 0 <= j < |players| && m.intent.target == Some(players[j].instance)
                    && Under(view, moves, players, size, j))
  }

  /** Nothing below `n` can be moved: its slot is busy or its owner is not above quota. */
  ghost predicate Spent(
    view: seq<OwnershipSegment>, moves: seq<Move>, players: seq<Member>, size: nat, n: nat)
  {
    forall slot, i | 0 <= slot < n && slot < |Spread(view)| && 0 <= i < |players| ::
      Spread(view)[slot].state == Owned && Spread(view)[slot].instance == players[i].instance ==>
        Busy(moves, slot) || !Over(view, moves, players, size, i)
  }

  /** There is nothing left to plan. */
  ghost predicate Settled(view: seq<OwnershipSegment>, moves: seq<Move>, players: seq<Member>, size: nat) {
    || (forall j | 0 <= j < |players| :: !Under(view, moves, players, size, j))
    || Spent(view, moves, players, size, size)
  }

  // ------------------------------------------------------------------

  lemma {:induction false} ShiftsMore(moves: seq<Move>, m: Move, p: Instance)
    ensures Shifts(moves + [m], p) == Shifts(moves, p) + Shift(m.intent, p)
  {
    assert (moves + [m])[..|moves|] == moves;
  }

  /** A fair move leaves its source at or above quota and its target at or below. */
  lemma {:induction false} FairKeepsQuotas(
    view: seq<OwnershipSegment>, moves: seq<Move>, players: seq<Member>, size: nat, m: Move, i: nat)
    requires Fair(view, moves, players, size, m) && DistinctInstances(players) && i < |players|
    ensures Some(players[i].instance) == m.intent.target ==> !Over(view, moves + [m], players, size, i)
    ensures players[i].instance == m.intent.source ==> !Under(view, moves + [m], players, size, i)
    ensures Over(view, moves + [m], players, size, i) ==> Over(view, moves, players, size, i)
  {
    ShiftsMore(moves, m, players[i].instance);
  }

  lemma {:induction false} SpentMore(
    view: seq<OwnershipSegment>, moves: seq<Move>, players: seq<Member>, size: nat, n: nat, m: Move)
    requires Spent(view, moves, players, size, n)
    requires Fair(view, moves, players, size, m) && DistinctInstances(players)
    ensures Spent(view, moves + [m], players, size, n)
  {
    forall slot, i | 0 <= slot < n && slot < |Spread(view)| && 0 <= i < |players|
                     && Spread(view)[slot].state == Owned && Spread(view)[slot].instance == players[i].instance
      ensures Busy(moves + [m], slot) || !Over(view, moves + [m], players, size, i)
    {
      if Busy(moves, slot) {
        var k :| 0 <= k < |moves| && moves[k].slot == slot && moves[k].intent.Live();
        assert (moves + [m])[k] == moves[k];
      } else {
        FairKeepsQuotas(view, moves, players, size, m, i);
      }
    }
  }

  /** Moves conserve the players' total. */
  lemma {:induction false} TotalKept(
    view: seq<OwnershipSegment>, moves: seq<Move>, m: Move, nodes: seq<Member>)
    requires DistinctInstances(nodes) && m.intent.Live() && m.intent.phase != Transferred
    requires m.intent.target.Some? && m.intent.target != Some(m.intent.source)
    ensures Total(view, moves + [m], nodes) == Total(view, moves, nodes)
              + (if Listed(nodes, m.intent.target.value) then 1 else 0)
              - (if Listed(nodes, m.intent.source) then 1 else 0)
  {
    if nodes != [] {
      var front, last := nodes[..|nodes| - 1], nodes[|nodes| - 1];
      TotalKept(view, moves, m, front);
      ShiftsMore(moves, m, last.instance);
      ListedMore(nodes, m.intent.target.value);
      ListedMore(nodes, m.intent.source);
    }
  }

  lemma ListedMore(nodes: seq<Member>, p: Instance)
    requires nodes != [] && DistinctInstances(nodes)
    ensures Listed(nodes, p) <==> Listed(nodes[..|nodes| - 1], p) || nodes[|nodes| - 1].instance == p
    ensures nodes[|nodes| - 1].instance == p ==> !Listed(nodes[..|nodes| - 1], p)
  {
    var front := nodes[..|nodes| - 1];
    if Listed(front, p) {
      var i :| 0 <= i < |front| && front[i].instance == p;
      assert nodes[i].instance == p;
    }
    if Listed(nodes, p) {
      var i :| 0 <= i < |nodes| && nodes[i].instance == p;
      assert i < |front| ==> front[i].instance == p;
    }
  }

  // ------------------------------------------------------------------
  // The planner's loops.

  function At(counts: map<Instance, int>, p: Instance): int {
    if p in counts then counts[p] else 0
  }

  function Add(counts: map<Instance, int>, p: Instance, n: int): map<Instance, int> {
    counts[p := At(counts, p) + n]
  }

  ghost predicate Tracks(counts: map<Instance, int>, view: seq<OwnershipSegment>, moves: seq<Move>) {
    forall p: Instance :: At(counts, p) == Projected(view, moves, p)
  }

  /** The listed member of an instance. */
  ghost predicate Indexed(byInstance: map<Instance, Member>, nodes: seq<Member>) {
    forall p: Instance ::
      && (p in byInstance <==> Listed(nodes, p))
      && (p in byInstance ==> byInstance[p] in nodes && byInstance[p].instance == p)
  }

  method ByInstance(nodes: seq<Member>) returns (byInstance: map<Instance, Member>)
    ensures Indexed(byInstance, nodes)
  {
    byInstance := map[];
    var n := 0;
    while n < |nodes|
      invariant 0 <= n <= |nodes|
      invariant Indexed(byInstance, nodes[..n])
    {
      assert nodes[..n + 1] == nodes[..n] + [nodes[n]];
      ListedAfter(nodes[..n], nodes[n]);
      byInstance := byInstance[nodes[n].instance := nodes[n]];
      n := n + 1;
    }
    assert nodes[..n] == nodes;
  }

  /** Count every instance's slots; refuse while the view is not calm. */
  method CountOwned(
    view: seq<OwnershipSegment>, byInstance: map<Instance, Member>, ghost nodes: seq<Member>, ghost size: nat)
    returns (calm: bool, counts: map<Instance, int>)
    requires ValidView(view, size) && Indexed(byInstance, nodes)
    ensures calm <==> Calm(view, nodes)
    ensures calm ==> Tracks(counts, view, [])
  {
    counts := map[];
    var i := 0;
    HeldNone(view[..0], counts);
    hide Listed, Held, Plains, At, Add;
    while i < |view|
      invariant 0 <= i <= |view|
      invariant forall k | 0 <= k < i :: view[k].state != Unowned && !view[k].overdue && Listed(nodes, view[k].instance)
      invariant forall p: Instance :: At(counts, p) == Held(view[..i], p)
    {
      var s := view[i];
      if s.state == Unowned || s.overdue || s.instance !in byInstance {
        return false, counts;
      }
      ghost var before := counts;
      counts := Add(counts, s.instance, s.end - s.start + 1);
      HeldMore(view, i, before, size, view[..i + 1], counts);
      i := i + 1;
    }
    assert view[..i] == view;
    return true, counts;
  }

  lemma {:induction false} HeldNone(front: seq<OwnershipSegment>, counts: map<Instance, int>)
    requires front == [] && counts == map[]
    ensures forall p: Instance :: At(counts, p) == Held(front, p)
  {
  }

  lemma {:induction false} HeldMore(
    view: seq<OwnershipSegment>, i: nat, counts: map<Instance, int>, size: nat, front: seq<OwnershipSegment>,
    counts': map<Instance, int>)
    requires ValidView(view, size) && i < |view| && forall p: Instance :: At(counts, p) == Held(view[..i], p)
    requires front == view[..i + 1]
    requires counts' == Add(counts, view[i].instance, view[i].end - view[i].start + 1)
    ensures forall p: Instance :: At(counts', p) == Held(front, p)
  {
    assert front[..i] == view[..i];
    assert Plains(view)[i].start <= Plains(view)[i].end;
  }

  lemma ListedAfter(nodes: seq<Member>, n: Member)
    ensures forall p: Instance :: Listed(nodes + [n], p) <==> Listed(nodes, p) || n.instance == p
  {
    forall p: Instance ensures Listed(nodes + [n], p) <==> Listed(nodes, p) || n.instance == p {
      if Listed(nodes, p) {
        var i :| 0 <= i < |nodes| && nodes[i].instance == p;
        assert (nodes + [n])[i].instance == p;
      }
      assert (nodes + [n])[|nodes|] == n;
    }
  }

  method AdmitMembers(
    view: seq<OwnershipSegment>, counts: map<Instance, int>, nodes: seq<Member>, stability: int)
    returns (admitted: seq<Member>)
    requires Tracks(counts, view, [])
    ensures admitted == Admit(view, nodes, stability)
  {
    admitted := [];
    var i := 0;
    while i < |nodes|
      invariant 0 <= i <= |nodes|
      invariant admitted == Admit(view, nodes[..i], stability)
    {
      assert nodes[..i + 1][..i] == nodes[..i];
      assert At(counts, nodes[i].instance) == Projected(view, [], nodes[i].instance);
      if At(counts, nodes[i].instance) > 0 || nodes[i].stableFor >= stability {
        admitted := admitted + [nodes[i]];
      }
      i := i + 1;
    }
    assert nodes[..i] == nodes;
  }

  /** Account for pending handoffs before moving anything. */
  method Account(view: seq<OwnershipSegment>, counts0: map<Instance, int>, pending: seq<Move>)
    returns (counts: map<Instance, int>, busy: set<Slot>)
    requires Tracks(counts0, view, [])
    ensures Tracks(counts, view, pending)
    ensures forall slot: Slot :: slot in busy <==> Busy(pending, slot)
  {
    counts, busy := counts0, {};
    var i := 0;
    assert pending[..0] == [];
    while i < |pending|
      invariant 0 <= i <= |pending|
      invariant Tracks(counts, view, pending[..i])
      invariant forall slot: Slot :: slot in busy <==> Busy(pending[..i], slot)
    {
      var h := pending[i].intent;
      assert pending[..i + 1] == pending[..i] + [pending[i]];
      BusyMore(pending[..i], pending[i]);
      TracksMore(counts, view, pending[..i], pending[i]);
      if h.Live() {
        busy := busy + {pending[i].slot};
        if h.phase != Transferred {
          counts := Add(counts, h.source, -1);
          if h.target.Some? {
            counts := Add(counts, h.target.value, 1);
          }
        }
      }
      i := i + 1;
    }
    assert pending[..i] == pending;
  }

  lemma BusyMore(moves: seq<Move>, m: Move)
    ensures forall slot: Slot :: Busy(moves + [m], slot) <==> Busy(moves, slot) || (m.slot == slot && m.intent.Live())
  {
    forall slot: Slot ensures Busy(moves + [m], slot) <==> Busy(moves, slot) || (m.slot == slot && m.intent.Live()) {
      if Busy(moves, slot) {
        var i :| 0 <= i < |moves| && moves[i].slot == slot && moves[i].intent.Live();
        assert (moves + [m])[i] == moves[i];
      }
      assert (moves + [m])[|moves|] == m;
    }
  }

  function Moved(counts: map<Instance, int>, h: Handoff): map<Instance, int> {
    if !h.Live() || h.phase == Transferred then counts
    else
      var less := Add(counts, h.source, -1);
      if h.target.Some? then Add(less, h.target.value, 1) else less
  }

  lemma TracksMore(counts: map<Instance, int>, view: seq<OwnershipSegment>, moves: seq<Move>, m: Move)
    requires Tracks(counts, view, moves)
    ensures Tracks(Moved(counts, m.intent), view, moves + [m])
  {
    forall p: Instance ensures At(Moved(counts, m.intent), p) == Projected(view, moves + [m], p) {
      assert At(counts, p) == Projected(view, moves, p);
      ShiftsMore(moves, m, p);
    }
  }

  /** The first player below its quota. */
  method FindTarget(
    counts: map<Instance, int>, quotas: map<Node, nat>, players: seq<Member>,
    ghost view: seq<OwnershipSegment>, ghost moves: seq<Move>, ghost size: nat) returns (target: Option<Instance>)
    requires Tracks(counts, view, moves) && Quotas(quotas, players, size)
    ensures target == None <==> forall j | 0 <= j < |players| :: !Under(view, moves, players, size, j)
    ensures target.Some? ==> exists j :: 0 <= j < |players| && target == Some(players[j].instance)
                                          && Under(view, moves, players, size, j)
  {
    var j := 0;
    while j < |players|
      invariant 0 <= j <= |players|
      invariant forall k | 0 <= k < j :: !Under(view, moves, players, size, k)
    {
      assert At(counts, players[j].instance) == Projected(view, moves, players[j].instance);
      if At(counts, players[j].instance) < quotas[players[j].id] {
        assert Under(view, moves, players, size, j);
        return Some(players[j].instance);
      }
      j := j + 1;
    }
    return None;
  }

  /** Every planned move was fair when it was added. */
  ghost predicate FairPlan(
    view: seq<OwnershipSegment>, pending: seq<Move>, plans: seq<Move>, players: seq<Member>, size: nat)
  {
    forall k | 0 <= k < |plans| :: Fair(view, pending + plans[..k], players, size, plans[k])
  }

  /** Where planning stands once every slot below `n` has been looked at. */
  ghost predicate Progress(
    view: seq<OwnershipSegment>, pending: seq<Move>, plans: seq<Move>, players: seq<Member>, size: nat, n: nat)
  {
    && FairPlan(view, pending, plans, players, size)
    && (forall k | 0 <= k < |plans| :: plans[k].slot < n)
    && Spent(view, pending + plans, players, size, n)
    && (Settled(view, pending, players, size) ==> plans == [])
  }

  lemma BusyPrefix(pending: seq<Move>, plans: seq<Move>, slot: Slot)
    ensures Busy(pending, slot) ==> Busy(pending + plans, slot)
    ensures Busy(pending + plans, slot) && (forall k | 0 <= k < |plans| :: plans[k].slot != slot) ==>
        Busy(pending, slot)
  {
    if Busy(pending, slot) {
      var i :| 0 <= i < |pending| && pending[i].slot == slot && pending[i].intent.Live();
      assert (pending + plans)[i] == pending[i];
    }
    if Busy(pending + plans, slot) {
      var i :| 0 <= i < |pending + plans| && (pending + plans)[i].slot == slot && (pending + plans)[i].intent.Live();
      if i >= |pending| {
        assert plans[i - |pending|].slot == slot;
      } else {
        assert pending[i].slot == slot && pending[i].intent.Live();
      }
    }
  }

  /** Slots that are not owned, are busy, or whose owner is within its quota need no move. */
  lemma {:induction false} PassOver(
    view: seq<OwnershipSegment>, pending: seq<Move>, plans: seq<Move>, players: seq<Member>, size: nat, n: nat, m: nat)
    requires Progress(view, pending, plans, players, size, n) && n <= m
    requires forall slot, i | n <= slot < m && slot < |Spread(view)| && 0 <= i < |players|
               && Spread(view)[slot].instance == players[i].instance ::
               || Spread(view)[slot].state != Owned || Busy(pending, slot)
               || !Over(view, pending + plans, players, size, i)
    ensures Progress(view, pending, plans, players, size, m)
  {
    hide Busy, Over, Fair, Spread, Settled;
    forall slot, i | 0 <= slot < m && slot < |Spread(view)| && 0 <= i < |players|
                     && Spread(view)[slot].state == Owned && Spread(view)[slot].instance == players[i].instance
      ensures Busy(pending + plans, slot) || !Over(view, pending + plans, players, size, i)
    {
      BusyPrefix(pending, plans, slot);
    }
  }

  lemma TakeSpent(
    view: seq<OwnershipSegment>, all: seq<Move>, players: seq<Member>, size: nat, m: Move)
    requires Spent(view, all, players, size, m.slot) && DistinctInstances(players)
    requires Fair(view, all, players, size, m)
    ensures Spent(view, all + [m], players, size, m.slot + 1)
  {
    SpentMore(view, all, players, size, m.slot, m);
    BusyMore(all, m);
    assert Busy(all + [m], m.slot);
    hide Busy, Fair, Over, Spread;
  }

  lemma TakeFair(
    view: seq<OwnershipSegment>, pending: seq<Move>, plans: seq<Move>, players: seq<Member>, size: nat, m: Move)
    requires FairPlan(view, pending, plans, players, size)
    requires Fair(view, pending + plans, players, size, m)
    ensures FairPlan(view, pending, plans + [m], players, size)
  {
    hide Fair;
    var plans' := plans + [m];
    forall k | 0 <= k < |plans'| ensures Fair(view, pending + plans'[..k], players, size, plans'[k]) {
      if k < |plans| {
        assert plans'[..k] == plans[..k] && plans'[k] == plans[k];
      } else {
        assert plans'[..k] == plans;
      }
    }
  }

  /** A fair move of the slot just reached. */
  lemma Take(
    view: seq<OwnershipSegment>, pending: seq<Move>, plans: seq<Move>, players: seq<Member>, size: nat, m: Move)
    requires Progress(view, pending, plans, players, size, m.slot) && DistinctInstances(players)
    requires Fair(view, pending + plans, players, size, m) && m.slot < size
    ensures Progress(view, pending, plans + [m], players, size, m.slot + 1)
  {
    hide Fair, FairPlan, Spent, Settled;
    assert pending + (plans + [m]) == (pending + plans) + [m];
    TakeSpent(view, pending + plans, players, size, m);
    TakeFair(view, pending, plans, players, size, m);
    if plans == [] {
      assert pending + plans == pending;
      FairUnsettled(view, pending, players, size, m);
    }
  }

  lemma FairUnsettled(view: seq<OwnershipSegment>, moves: seq<Move>, players: seq<Member>, size: nat, m: Move)
    requires Fair(view, moves, players, size, m) && m.slot < size
    ensures !Settled(view, moves, players, size)
  {
    var i :| 0 <= i < |players| && players[i].instance == m.intent.source && Over(view, moves, players, size, i);
    assert Spread(view)[m.slot].instance == players[i].instance;
  }

  // ------------------------------------------------------------------
  // One segment, and the whole pass.

  /** Everything the pass carries from slot to slot. */
  ghost predicate Running(
    view: seq<OwnershipSegment>, pending: seq<Move>, plans: seq<Move>, players: seq<Member>, size: nat, n: nat,
    counts: map<Instance, int>, limit: int)
  {
    && Progress(view, pending, plans, players, size, n)
    && Tracks(counts, view, pending + plans)
    && |plans| < limit
  }

  /** Fixed facts of one pass. */
  ghost predicate Setting(
    view: seq<OwnershipSegment>, pending: seq<Move>, players: seq<Member>, size: nat,
    quotas: map<Node, nat>, busy: set<Slot>)
  {
    && DistinctInstances(players) && DistinctIds(players)
    && Quotas(quotas, players, size)
    && (forall slot: Slot :: slot in busy <==> Busy(pending, slot))
    && |Spread(view)| == size
  }

  /** What makes the move about to be planned a fair one. */
  lemma {:induction false} MakeFair(
    view: seq<OwnershipSegment>, pending: seq<Move>, plans: seq<Move>, players: seq<Member>, size: nat,
    index: nat, m: Move)
    requires m.slot < |Spread(view)| && !Busy(pending, m.slot)
    requires forall k | 0 <= k < |plans| :: plans[k].slot < m.slot
    requires index < |players| && players[index].instance == Spread(view)[m.slot].instance
    requires Over(view, pending + plans, players, size, index)
    requires var s := Spread(view)[m.slot];
      && s.state == Owned
      && m.intent == Handoff(m.intent.id, Transfer, s.instance, s.epoch, m.intent.target, Planned, false, false, None)
    requires exists j :: 0 <= j < |players| && m.intent.target == Some(players[j].instance)
                          && Under(view, pending + plans, players, size, j)
    ensures Fair(view, pending + plans, players, size, m)
  {
    BusyPrefix(pending, plans, m.slot);
  }

  /** Plan moves out of one segment, while its owner is above quota. */
  method PlanRun(
    s: OwnershipSegment, owner: Member, ghost index: nat, ghost view: seq<OwnershipSegment>, ghost pending: seq<Move>,
    plans0: seq<Move>, players: seq<Member>, ghost size: nat, quotas: map<Node, nat>, busy: set<Slot>,
    counts0: map<Instance, int>, limit: int, mint: nat -> Id)
    returns (plans: seq<Move>, counts: map<Instance, int>, stop: bool)
    requires Setting(view, pending, players, size, quotas, busy)
    requires s.start <= s.end < size && s.state == Owned
    requires forall k | s.start <= k <= s.end :: Spread(view)[k] == s
    requires index < |players| && players[index] == owner && owner.instance == s.instance
    requires Running(view, pending, plans0, players, size, s.start, counts0, limit)
    ensures FairPlan(view, pending, plans, players, size) && |plans| <= limit
    ensures Settled(view, pending, players, size) ==> plans == []
    ensures !stop ==> Running(view, pending, plans, players, size, s.end + 1, counts, limit)
    ensures stop && |plans| < limit ==> Settled(view, pending + plans, players, size)
  {
    hide FairPlan, Spent, Fair, Spread, Busy, Quota, Under;
    plans, counts, stop := plans0, counts0, false;
    var slot := s.start;
    while slot <= s.end && At(counts, s.instance) > quotas[owner.id]
      invariant s.start <= slot <= s.end + 1
      invariant Running(view, pending, plans, players, size, slot, counts, limit)
    {
      if slot in busy {
        PassOver(view, pending, plans, players, size, slot, slot + 1);
      } else {
        var target := FindTarget(counts, quotas, players, view, pending + plans, size);
        if target == None {
          return plans, counts, true;
        }
        var h := Handoff(mint(slot), Transfer, s.instance, s.epoch, target, Planned, false, false, None);
        var m := Move(slot, h);
        MakeFair(view, pending, plans, players, size, index, m);
        TracksMore(counts, view, pending + plans, m);
        assert pending + (plans + [m]) == (pending + plans) + [m];
        Take(view, pending, plans, players, size, m);
        plans := plans + [m];
        counts := Moved(counts, h);
        if |plans| == limit {
          return plans, counts, true;
        }
      }
      slot := slot + 1;
    }
    PassOver(view, pending, plans, players, size, slot, s.end + 1);
  }

  lemma {:induction false} AdmitMember(view: seq<OwnershipSegment>, nodes: seq<Member>, stability: int, n: Member)
    ensures n in Admit(view, nodes, stability) <==>
      (n in nodes && (Held(view, n.instance) > 0 || n.stableFor >= stability))
  {
    if nodes != [] {
      AdmitMember(view, nodes[..|nodes| - 1], stability, n);
      assert nodes == nodes[..|nodes| - 1] + [nodes[|nodes| - 1]];
    }
  }

  lemma {:induction false} AdmitDistinct(view: seq<OwnershipSegment>, nodes: seq<Member>, stability: int)
    requires DistinctIds(nodes) && DistinctInstances(nodes)
    ensures DistinctIds(Admit(view, nodes, stability)) && DistinctInstances(Admit(view, nodes, stability))
  {
    if nodes != [] {
      var front, last := nodes[..|nodes| - 1], nodes[|nodes| - 1];
      AdmitDistinct(view, front, stability);
      var before := Admit(view, front, stability);
      forall i | 0 <= i < |before| ensures before[i].id != last.id && before[i].instance != last.instance {
        AdmitMember(view, front, stability, before[i]);
        var k :| 0 <= k < |front| && front[k] == before[i];
        assert nodes[k] == before[i];
      }
    }
  }

  lemma {:induction false} PlayersDistinct(view: seq<OwnershipSegment>, nodes: seq<Member>, stability: int)
    requires DistinctIds(nodes) && DistinctInstances(nodes)
    ensures DistinctIds(Players(view, nodes, stability)) && DistinctInstances(Players(view, nodes, stability))
  {
    var admitted := Admit(view, nodes, stability);
    var players := Players(view, nodes, stability);
    AdmitDistinct(view, nodes, stability);
    SortAscends(admitted);
    AscendingDistinct(players);
    SortMembers(admitted);
    hide Admit, ById, Players, Ascending;
    assert forall m :: m in players <==> m in admitted;
    forall i, j | 0 <= i < j < |players| ensures players[i].instance != players[j].instance {
      assert players[i] in admitted && players[j] in admitted;
      var p :| 0 <= p < |admitted| && admitted[p] == players[i];
      var q :| 0 <= q < |admitted| && admitted[q] == players[j];
      assert p != q;
    }
  }

  lemma {:induction false} HeldSome(view: seq<OwnershipSegment>, size: nat, i: nat)
    requires Contiguous(Plains(view), size) && i < |view|
    ensures Held(view, view[i].instance) > 0
  {
    var front := view[..|view| - 1];
    assert Plains(front) == Plains(view)[..|view| - 1];
    HeldNat(front, size, view[i].instance);
    assert Plains(view)[|view| - 1].start <= Plains(view)[|view| - 1].end;
    if i < |view| - 1 {
      HeldSome(front, size, i);
    }
  }

  lemma {:induction false} HeldNat(view: seq<OwnershipSegment>, size: nat, p: Instance)
    requires Contiguous(Plains(view), size)
    ensures Held(view, p) >= 0
  {
    if view != [] {
      assert Plains(view[..|view| - 1]) == Plains(view)[..|view| - 1];
      HeldNat(view[..|view| - 1], size, p);
    }
  }

  /** Every owner in a calm view takes part. */
  lemma {:induction false} OwnerPlays(
    view: seq<OwnershipSegment>, nodes: seq<Member>, stability: int, size: nat, i: nat, owner: Member)
    returns (index: nat)
    requires ValidView(view, size) && i < |view| && owner in nodes && owner.instance == view[i].instance
    ensures index < |Players(view, nodes, stability)| && Players(view, nodes, stability)[index] == owner
  {
    HeldSome(view, size, i);
    AdmitMember(view, nodes, stability, owner);
    SortMembers(Admit(view, nodes, stability));
    assert owner in Players(view, nodes, stability);
    index :| 0 <= index < |Players(view, nodes, stability)| && Players(view, nodes, stability)[index] == owner;
  }

  /** Account for pending transfers, then move only quota surpluses. */
  method PlanMigrations(
    view: seq<OwnershipSegment>, nodes: seq<Member>, pending: seq<Move>, stability: int, limit: int, size: nat,
    mint: nat -> Id) returns (plans: seq<Move>)
    requires DistinctIds(nodes) && DistinctInstances(nodes)
    ensures plans != [] ==> Ready(view, nodes, stability, limit, size)
    ensures |plans| <= Max(limit, 0)
    ensures FairPlan(view, pending, plans, Players(view, nodes, stability), size)
    ensures Settled(view, pending, Players(view, nodes, stability), size) ==> plans == []
    ensures Ready(view, nodes, stability, limit, size) && |plans| < limit ==>
      Settled(view, pending + plans, Players(view, nodes, stability), size)
  {
    var valid := ValidateOwnershipSegments(view, size);
    if !valid || limit <= 0 {
      return [];
    }
    var byInstance := ByInstance(nodes);
    var calm, counts := CountOwned(view, byInstance, nodes, size);
    if !calm {
      return [];
    }
    var admitted := AdmitMembers(view, counts, nodes, stability);
    var players := ById(admitted);
    if |players| < 2 {
      return [];
    }
    PlayersDistinct(view, nodes, stability);
    var quotas := SlotQuotas(players, size);
    var busy;
    counts, busy := Account(view, counts, pending);
    SpreadLength(view, size);
    plans := PlanSurplus(view, nodes, pending, stability, limit, size, mint, byInstance, players, quotas, busy, counts);
  }

  lemma {:induction false} RunningStart(
    view: seq<OwnershipSegment>, pending: seq<Move>, players: seq<Member>, size: nat, counts: map<Instance, int>,
        limit: int)
    requires Tracks(counts, view, pending) && 0 < limit
    ensures Running(view, pending, [], players, size, 0, counts, limit)
  {
    assert pending + [] == pending;
  }

  /** A segment that is not OWNED has nothing to move. */
  lemma {:induction false} RunningOver(
    view: seq<OwnershipSegment>, pending: seq<Move>, plans: seq<Move>, players: seq<Member>, size: nat,
    n: nat, m: nat, counts: map<Instance, int>, limit: int)
    requires Running(view, pending, plans, players, size, n, counts, limit) && n <= m
    requires forall slot | n <= slot < m :: slot < |Spread(view)| && Spread(view)[slot].state != Owned
    ensures Running(view, pending, plans, players, size, m, counts, limit)
  {
    hide Progress, Tracks, Spread;
    assert Progress(view, pending, plans, players, size, n);
    PassOver(view, pending, plans, players, size, n, m);
  }

  /** Where the pass ends short of its limit, no surplus is left. */
  lemma {:induction false} RunningEnds(
    view: seq<OwnershipSegment>, pending: seq<Move>, plans: seq<Move>, players: seq<Member>, size: nat,
    counts: map<Instance, int>, limit: int)
    requires Running(view, pending, plans, players, size, size, counts, limit)
    ensures FairPlan(view, pending, plans, players, size) && |plans| <= limit
    ensures Settled(view, pending, players, size) ==> plans == []
    ensures Settled(view, pending + plans, players, size)
  {
    hide FairPlan, Tracks, Spent;
  }

  /** The pass over the segments. */
  method PlanSurplus(
    view: seq<OwnershipSegment>, ghost nodes: seq<Member>, ghost pending: seq<Move>, ghost stability: int, limit: int,
    ghost size: nat, mint: nat -> Id, byInstance: map<Instance, Member>, players: seq<Member>,
    quotas: map<Node, nat>, busy: set<Slot>, counts0: map<Instance, int>) returns (plans: seq<Move>)
    requires Ready(view, nodes, stability, limit, size) && players == Players(view, nodes, stability)
    requires Indexed(byInstance, nodes) && Setting(view, pending, players, size, quotas, busy)
    requires Tracks(counts0, view, pending)
    ensures FairPlan(view, pending, plans, players, size) && |plans| <= limit
    ensures Settled(view, pending, players, size) ==> plans == []
    ensures |plans| < limit ==> Settled(view, pending + plans, players, size)
  {
    hide FairPlan, Settled, Running, Tracks, Spent, Fair, Setting, Spread;
    plans := [];
    var counts := counts0;
    RunningStart(view, pending, players, size, counts, limit);
    var i := 0;
    ghost var done := 0;
    while i < |view|
      invariant 0 <= i <= |view|
      invariant done == Next(Plains(view[..i]))
      invariant Running(view, pending, plans, players, size, done, counts, limit)
    {
      var s := view[i];
      SegmentSlots(view, i, size);
      if s.state == Owned {
        var owner := byInstance[s.instance];
        ghost var index := OwnerPlays(view, nodes, stability, size, i, owner);
        var stop;
        plans, counts, stop := PlanRun(
          s, owner, index, view, pending, plans, players, size, quotas, busy, counts, limit, mint);
        if stop {
          return;
        }
      } else {
        RunningOver(view, pending, plans, players, size, done, s.end + 1, counts, limit);
      }
      i := i + 1;
      done := s.end + 1;
    }
    assert view[..i] == view;
    RunningEnds(view, pending, plans, players, size, counts, limit);
  }

  // ------------------------------------------------------------------
  // What the plan as a whole means.

  /** No slot is planned twice, and none that was already moving. */
  lemma {:induction false} SlotsPlannedOnce(
    view: seq<OwnershipSegment>, pending: seq<Move>, plans: seq<Move>, players: seq<Member>, size: nat, j: nat, k: nat)
    requires FairPlan(view, pending, plans, players, size) && j < k < |plans|
    ensures plans[j].slot != plans[k].slot && !Busy(pending, plans[j].slot) && !Busy(pending, plans[k].slot)
  {
    assert Fair(view, pending + plans[..j], players, size, plans[j]);
    assert Fair(view, pending + plans[..k], players, size, plans[k]);
    BusyPrefix(pending, plans[..j], plans[j].slot);
    BusyPrefix(pending, plans[..k], plans[k].slot);
    assert (pending + plans[..k])[|pending| + j] == plans[j];
  }

  /** The players' total is conserved. */
  lemma {:induction false} TotalConserved(
    view: seq<OwnershipSegment>, pending: seq<Move>, plans: seq<Move>, players: seq<Member>, size: nat, k: nat)
    requires FairPlan(view, pending, plans, players, size) && DistinctInstances(players) && k <= |plans|
    ensures Total(view, pending + plans[..k], players) == Total(view, pending, players)
  {
    hide Total, Busy, Listed, Spread, Over, Under;
    if k == 0 {
      assert pending + plans[..0] == pending;
    } else {
      TotalConserved(view, pending, plans, players, size, k - 1);
      var before, m := pending + plans[..k - 1], plans[k - 1];
      assert pending + plans[..k] == before + [m];
      assert Fair(view, before, players, size, m);
      FairDiffers(view, before, players, size, m);
      TotalKept(view, before, m, players);
    }
  }

  lemma FairDiffers(view: seq<OwnershipSegment>, moves: seq<Move>, players: seq<Member>, size: nat, m: Move)
    requires Fair(view, moves, players, size, m) && DistinctInstances(players)
    ensures m.intent.target.Some? && m.intent.target != Some(m.intent.source)
    ensures Listed(players, m.intent.source) && Listed(players, m.intent.target.value)
  {
    var i :| 0 <= i < |players| && players[i].instance == m.intent.source && Over(view, moves, players, size, i);
    var j :| 0 <= j < |players| && m.intent.target == Some(players[j].instance) && Under(view, moves, players, size, j);
    assert i != j;
  }

  /** Every move of the plan leaves its source at or above quota and its target at or below. */
  lemma {:induction false} QuotasRespected(
    view: seq<OwnershipSegment>, pending: seq<Move>, plans: seq<Move>, players: seq<Member>, size: nat, k: nat, i: nat)
    requires FairPlan(view, pending, plans, players, size) && DistinctInstances(players)
    requires k < |plans| && i < |players|
    ensures var after := pending + plans[..k + 1];
      && (Some(players[i].instance) == plans[k].intent.target ==>
            Projected(view, after, players[i].instance) <= Quota(size, |players|, i))
      && (players[i].instance == plans[k].intent.source ==>
            Projected(view, after, players[i].instance) >= Quota(size, |players|, i))
  {
    assert Fair(view, pending + plans[..k], players, size, plans[k]);
    assert pending + plans[..k + 1] == (pending + plans[..k]) + [plans[k]];
    FairKeepsQuotas(view, pending + plans[..k], players, size, plans[k], i);
  }

  /** A plan that did not use up its limit is complete: planning again, with it pending, yields nothing. */
  method Replan(
    view: seq<OwnershipSegment>, nodes: seq<Member>, pending: seq<Move>, stability: int, limit: int, size: nat,
    mint: nat -> Id) returns (plans: seq<Move>, again: seq<Move>)
    requires DistinctIds(nodes) && DistinctInstances(nodes)
    ensures |plans| < limit ==> again == []
  {
    plans := PlanMigrations(view, nodes, pending, stability, limit, size, mint);
    again := PlanMigrations(view, nodes, pending + plans, stability, limit, size, mint);
  }

  // ------------------------------------------------------------------
  // What the projected loads and the players are, slot by slot.

  type Owners = seq<Option<Instance>>

  function Count(owners: Owners, p: Instance): nat {
    if owners == [] then 0 else Count(owners[..|owners| - 1], p) + (if owners[|owners| - 1] == Some(p) then 1 else 0)
  }

  /** Who owns each slot now. */
  function Present(view: seq<OwnershipSegment>): (r: Owners)
    ensures |r| == |Spread(view)| && forall k | 0 <= k < |r| :: r[k] == Some(Spread(view)[k].instance)
  {
    seq(|Spread(view)|, k requires 0 <= k < |Spread(view)| => Some(Spread(view)[k].instance))
  }

  /** Who owns each slot once every live handoff is through. */
  function Through(owners: Owners, moves: seq<Move>): (r: Owners)
    ensures |r| == |owners|
  {
    if moves == [] then owners
    else
      var before, m := Through(owners, moves[..|moves| - 1]), moves[|moves| - 1];
      if m.intent.Live() && m.slot < |owners| then before[m.slot := m.intent.target] else before
  }

  /** No two live handoffs share a slot, and each slot is its source's until the transfer and its target's after. */
  ghost predicate Matched(view: seq<OwnershipSegment>, moves: seq<Move>) {
    && (forall i, j | 0 <= i < j < |moves| && moves[i].intent.Live() && moves[j].intent.Live() ::
          moves[i].slot != moves[j].slot)
    && (forall i | 0 <= i < |moves| && moves[i].intent.Live() ::
          && moves[i].slot < |Spread(view)|
          && (if moves[i].intent.phase == Transferred
              then moves[i].intent.target == Some(Spread(view)[moves[i].slot].instance)
              else moves[i].intent.source == Spread(view)[moves[i].slot].instance))
  }

  lemma {:induction false} CountUpdate(owners: Owners, k: nat, o: Option<Instance>, p: Instance)
    requires k < |owners|
    ensures Count(owners[k := o], p) ==
      Count(owners, p) + (if o == Some(p) then 1 else 0) - (if owners[k] == Some(p) then 1 else 0)
  {
    var u := owners[k := o];
    if k == |owners| - 1 {
      assert u[..|u| - 1] == owners[..|owners| - 1];
    } else {
      CountUpdate(owners[..|owners| - 1], k, o, p);
      assert u[..|u| - 1] == owners[..|owners| - 1][k := o];
    }
  }

  lemma {:induction false} CountRun(owners: Owners, o: Option<Instance>, n: nat, p: Instance)
    ensures Count(owners + seq(n, _ => o), p) == Count(owners, p) + (if o == Some(p) then n else 0)
  {
    var longer: Owners := owners + seq(n, _ => o);
    if n == 0 {
      assert longer == owners;
    } else {
      CountRun(owners, o, n - 1, p);
      assert longer[..|longer| - 1] == owners + seq(n - 1, _ => o);
    }
  }

  lemma {:induction false} PresentMore(view: seq<OwnershipSegment>)
    requires view != []
    ensures var last := view[|view| - 1];
      Present(view) == Present(view[..|view| - 1]) + seq(Length(Plain(last)), _ => Some(last.instance))
  {
    hide Length, Plain;
  }

  /** The slots an instance holds are those of the view that name it. */
  lemma {:induction false} HeldCounts(view: seq<OwnershipSegment>, p: Instance)
    ensures Held(view, p) == Count(Present(view), p)
  {
    if view != [] {
      var front, last := view[..|view| - 1], view[|view| - 1];
      HeldCounts(front, p);
      CountRun(Present(front), Some(last.instance), Length(Plain(last)), p);
      PresentMore(view);
      hide Present, Length, Plain, Count;
    }
  }

  lemma {:induction false} ThroughElsewhere(owners: Owners, moves: seq<Move>, slot: Slot)
    requires slot < |owners| && forall i | 0 <= i < |moves| && moves[i].intent.Live() :: moves[i].slot != slot
    ensures Through(owners, moves)[slot] == owners[slot]
  {
    if moves != [] {
      ThroughElsewhere(owners, moves[..|moves| - 1], slot);
    }
  }

  /** The projected load of an instance is the number of slots it owns once every pending handoff is through. */
  lemma {:induction false} ProjectedCounts(view: seq<OwnershipSegment>, moves: seq<Move>, p: Instance)
    requires Matched(view, moves)
    ensures Projected(view, moves, p) == Count(Through(Present(view), moves), p)
  {
    if moves == [] {
      HeldCounts(view, p);
    } else {
      var front, m := moves[..|moves| - 1], moves[|moves| - 1];
      MatchedFront(view, moves);
      ProjectedCounts(view, front, p);
      if m.intent.Live() {
        ThroughElsewhere(Present(view), front, m.slot);
        CountUpdate(Through(Present(view), front), m.slot, m.intent.target, p);
      }
    }
  }

  lemma {:induction false} MatchedFront(view: seq<OwnershipSegment>, moves: seq<Move>)
    requires moves != [] && Matched(view, moves)
    ensures Matched(view, moves[..|moves| - 1])
    ensures var m := moves[|moves| - 1];
      m.intent.Live() ==>
        && m.slot < |Spread(view)|
        && (forall i | 0 <= i < |moves| - 1 && moves[i].intent.Live() :: moves[i].slot != m.slot)
        && (if m.intent.phase == Transferred then m.intent.target == Some(Spread(view)[m.slot].instance)
            else m.intent.source == Spread(view)[m.slot].instance)
  {
    hide Spread;
  }

  lemma {:induction false} CountSome(owners: Owners, p: Instance)
    ensures Count(owners, p) > 0 <==> Some(p) in owners
  {
    if owners != [] {
      CountSome(owners[..|owners| - 1], p);
      assert owners == owners[..|owners| - 1] + [owners[|owners| - 1]];
    }
  }

  /** The players are the members that own some slot or have been stable long enough. */
  lemma PlayersAre(view: seq<OwnershipSegment>, nodes: seq<Member>, stability: int, m: Member)
    ensures m in Players(view, nodes, stability) <==>
      m in nodes && (Some(m.instance) in Present(view) || m.stableFor >= stability)
  {
    SortMembers(Admit(view, nodes, stability));
    AdmitMember(view, nodes, stability, m);
    HeldCounts(view, m.instance);
    CountSome(Present(view), m.instance);
    hide Admit, ById, Held, Count, Present;
  }
}
