/** Recovery targets: who should own each slot when owners are gone. */
module Placement {
  import opened Tables
  import opened Route
  import opened Members

  type Targets = seq<Option<Node>>

  // ------------------------------------------------------------------
  // Quotas.

  function Quota(size: nat, n: nat, i: nat): nat
    requires n > 0
  {
    size / n + (if i < size % n then 1 else 0)
  }

  function QuotaSum(size: nat, n: nat, k: nat): nat
    requires n > 0
  {
    if k == 0 then 0 else QuotaSum(size, n, k - 1) + Quota(size, n, k - 1)
  }

  lemma {:induction false} QuotaSumTo(size: nat, n: nat, k: nat)
    requires n > 0
    ensures QuotaSum(size, n, k) == k * (size / n) + (if k < size % n then k else size % n)
  {
    if k > 0 {
      QuotaSumTo(size, n, k - 1);
      assert k * (size / n) == (k - 1) * (size / n) + size / n;
    }
  }

  /** The quotas add up to the slot space. */
  lemma {:induction false} QuotasCover(size: nat, n: nat)
    requires n > 0
    ensures QuotaSum(size, n, n) == size
  {
    QuotaSumTo(size, n, n);
    assert size == n * (size / n) + size % n;
  }

  /** And differ by at most one, the larger ones first. */
  lemma QuotasEven(size: nat, n: nat, i: nat, j: nat)
    requires i <= j < n
    ensures Quota(size, n, j) <= Quota(size, n, i) <= Quota(size, n, j) + 1
  {
  }

  method SlotQuotas(nodes: seq<Member>, size: nat) returns (quotas: map<Node, nat>)
    requires DistinctIds(nodes)
    ensures forall i | 0 <= i < |nodes| :: nodes[i].id in quotas && quotas[nodes[i].id] == Quota(size, |nodes|, i)
  {
    quotas := map[];
    if |nodes| == 0 {
      return;
    }
    var i := 0;
    while i < |nodes|
      invariant 0 <= i <= |nodes|
      invariant forall k | 0 <= k < i :: nodes[k].id in quotas && quotas[nodes[k].id] == Quota(size, |nodes|, k)
    {
      quotas := quotas[nodes[i].id := size / |nodes|];
      if i < size % |nodes| {
        quotas := quotas[nodes[i].id := quotas[nodes[i].id] + 1];
      }
      i := i + 1;
    }
  }

  // ------------------------------------------------------------------
  // Loads.

  function Load(t: Targets, n: Node): nat {
    if t == [] then 0 else Load(t[..|t| - 1], n) + (if t[|t| - 1] == Some(n) then 1 else 0)
  }

  function Assigned(t: Targets): nat {
    if t == [] then 0 else Assigned(t[..|t| - 1]) + (if t[|t| - 1].Some? then 1 else 0)
  }

  function Loads(t: Targets, nodes: seq<Member>): nat {
    if nodes == [] then 0 else Loads(t, nodes[..|nodes| - 1]) + Load(t, nodes[|nodes| - 1].id)
  }

  lemma {:induction false} LoadUpdate(t: Targets, k: nat, n: Node, m: Node)
    requires k < |t| && t[k] == None
    ensures Load(t[k := Some(n)], m) == Load(t, m) + (if m == n then 1 else 0)
  {
    var u := t[k := Some(n)];
    if k == |t| - 1 {
      assert u[..|u| - 1] == t[..|t| - 1];
    } else {
      LoadUpdate(t[..|t| - 1], k, n, m);
      assert u[..|u| - 1] == t[..|t| - 1][k := Some(n)];
    }
  }

  lemma {:induction false} LoadNone(size: nat, n: Node)
    ensures Load(seq(size, _ => None), n) == 0
  {
    var t: Targets := seq(size, _ => None);
    if size > 0 {
      LoadNone(size - 1, n);
      var u: Targets := seq(size - 1, _ => None);
      assert t[..size - 1] == u;
    }
  }

  lemma {:induction false} AssignedBelow(t: Targets, k: nat)
    requires k < |t| && t[k] == None
    ensures Assigned(t) < |t|
  {
    if k == |t| - 1 {
      AssignedAtMost(t[..|t| - 1]);
    } else {
      AssignedBelow(t[..|t| - 1], k);
    }
  }

  lemma {:induction false} AssignedAtMost(t: Targets)
    ensures Assigned(t) <= |t|
  {
    if t != [] {
      AssignedAtMost(t[..|t| - 1]);
    }
  }

  /** One slot counts for at most one member. */
  lemma {:induction false} LoadsMore(t: Targets, nodes: seq<Member>)
    requires t != [] && DistinctIds(nodes)
    ensures Loads(t, nodes) <= Loads(t[..|t| - 1], nodes) + (if t[|t| - 1].Some? then 1 else 0)
    ensures (forall i | 0 <= i < |nodes| :: t[|t| - 1] != Some(nodes[i].id)) ==>
        Loads(t, nodes) == Loads(t[..|t| - 1], nodes)
  {
    if nodes != [] {
      LoadsMore(t, nodes[..|nodes| - 1]);
    }
  }

  lemma {:induction false} LoadsAtMost(t: Targets, nodes: seq<Member>)
    requires DistinctIds(nodes)
    ensures Loads(t, nodes) <= Assigned(t)
  {
    if t == [] {
      LoadsNothing(nodes);
    } else {
      LoadsAtMost(t[..|t| - 1], nodes);
      LoadsMore(t, nodes);
    }
  }

  lemma {:induction false} LoadsNothing(nodes: seq<Member>)
    ensures Loads([], nodes) == 0
  {
    if nodes != [] {
      LoadsNothing(nodes[..|nodes| - 1]);
    }
  }

  lemma {:induction false} FullLoads(t: Targets, nodes: seq<Member>, size: nat, n: nat)
    requires |nodes| <= n && n > 0
    requires forall i | 0 <= i < |nodes| :: Load(t, nodes[i].id) >= Quota(size, n, i)
    ensures Loads(t, nodes) >= QuotaSum(size, n, |nodes|)
  {
    if nodes != [] {
      FullLoads(t, nodes[..|nodes| - 1], size, n);
    }
  }

  predicate Below(t: Targets, nodes: seq<Member>, size: nat, i: nat)
    requires i < |nodes|
  {
    Load(t, nodes[i].id) < Quota(size, |nodes|, i)
  }

  /** Pigeonhole: while some slot is unassigned, some member is below its quota. */
  lemma {:induction false} SomeoneBelow(t: Targets, nodes: seq<Member>, k: nat) returns (i: nat)
    requires DistinctIds(nodes) && nodes != [] && k < |t| && t[k] == None
    ensures i < |nodes| && Below(t, nodes, |t|, i)
  {
    if j :| 0 <= j < |nodes| && Below(t, nodes, |t|, j) {
      i := j;
    } else {
      forall j | 0 <= j < |nodes| ensures Load(t, nodes[j].id) >= Quota(|t|, |nodes|, j) {
        assert !Below(t, nodes, |t|, j);
      }
      FullLoads(t, nodes, |t|, |nodes|);
      QuotasCover(|t|, |nodes|);
      LoadsAtMost(t, nodes);
      AssignedBelow(t, k);
      assert false;
    }
  }

  // ------------------------------------------------------------------
  // The plan as a function.

  /** The run around every slot, in slot order. */
  function Spread(view: seq<OwnershipSegment>): seq<OwnershipSegment> {
    if view == [] then []
    else
      var last := view[|view| - 1];
      Spread(view[..|view| - 1]) + seq(Length(Plain(last)), _ => last)
  }

  function InstanceOf(nodes: seq<Member>, id: Node): Option<Instance> {
    if nodes == [] then None
    else if nodes[|nodes| - 1].id == id then Some(nodes[|nodes| - 1].instance)
    else InstanceOf(nodes[..|nodes| - 1], id)
  }

  /** Healthy ownership, and drains that are still under way, stay where they are. */
  predicate Stays(s: OwnershipSegment, nodes: seq<Member>) {
    || (s.state == Owned && InstanceOf(nodes, s.node) == Some(s.instance) && !s.overdue)
    || (s.state == Draining && !s.releaseReady)
  }

  function Kept(story: seq<OwnershipSegment>, nodes: seq<Member>): (t: Targets)
    ensures |t| == |story|
  {
    seq(|story|, k requires 0 <= k < |story| => if Stays(story[k], nodes) then Some(story[k].node) else None)
  }

  /** The first member below its quota, in order. */
  function FirstBelow(t: Targets, nodes: seq<Member>, size: nat, i: nat): (r: Option<nat>)
    requires i <= |nodes|
    ensures r.Some? ==> i <= r.value < |nodes| && Below(t, nodes, size, r.value)
    ensures r.Some? ==> forall j | i <= j < r.value :: !Below(t, nodes, size, j)
    ensures r == None ==> forall j | i <= j < |nodes| :: !Below(t, nodes, size, j)
    decreases |nodes| - i
  {
    if i == |nodes| then None
    else if Below(t, nodes, size, i) then Some(i)
    else FirstBelow(t, nodes, size, i + 1)
  }

  function Pick(t: Targets, nodes: seq<Member>, size: nat): Node
    requires nodes != []
  {
    match FirstBelow(t, nodes, size, 0)
    case Some(i) => nodes[i].id
    case None => nodes[Lightest(t, nodes, |nodes|)].id
  }

  /** The least loaded of the first `n` members: the fallback that pigeonhole makes dead. */
  function Lightest(t: Targets, nodes: seq<Member>, n: nat): (r: nat)
    requires 0 < n <= |nodes|
    ensures r < n
  {
    if n == 1 then 0
    else
      var r := Lightest(t, nodes, n - 1);
      if Load(t, nodes[n - 1].id) < Load(t, nodes[r].id) then n - 1 else r
  }

  /** Free slots from `k` on, each to the member picked for it. */
  function Fill(t: Targets, nodes: seq<Member>, k: nat): (r: Targets)
    requires nodes != [] && k <= |t|
    ensures |r| == |t|
    decreases |t| - k
  {
    if k == |t| then t
    else if t[k].Some? then Fill(t, nodes, k + 1)
    else Fill(t[k := Some(Pick(t, nodes, |t|))], nodes, k + 1)
  }

  function Plan(view: seq<OwnershipSegment>, nodes: seq<Member>): Targets {
    var sorted := ById(nodes);
    var kept := Kept(Spread(view), sorted);
    if sorted == [] then kept else Fill(kept, sorted, 0)
  }

  // ------------------------------------------------------------------
  // What the plan means.

  /** Every free slot goes to a member strictly below its quota at that moment. */
  lemma PickIsBelow(t: Targets, nodes: seq<Member>, k: nat) returns (i: nat)
    requires DistinctIds(nodes) && nodes != [] && k < |t| && t[k] == None
    ensures i < |nodes| && Pick(t, nodes, |t|) == nodes[i].id
    ensures Below(t, nodes, |t|, i) && FirstBelow(t, nodes, |t|, 0) == Some(i)
  {
    var j := SomeoneBelow(t, nodes, k);
    i := FirstBelow(t, nodes, |t|, 0).value;
  }

  lemma {:induction false} FillMeans(t: Targets, nodes: seq<Member>, k: nat)
    requires DistinctIds(nodes) && nodes != [] && k <= |t|
    ensures var r := Fill(t, nodes, k);
      && (forall j | 0 <= j < |t| && t[j].Some? :: r[j] == t[j])
      && (forall j | k <= j < |t| :: r[j].Some?)
      && (forall j | k <= j < |t| && t[j] == None :: exists i :: 0 <= i < |nodes| && r[j] == Some(nodes[i].id))
      && (forall i | 0 <= i < |nodes| ::
            Load(r, nodes[i].id) <= Max(Load(t, nodes[i].id), Quota(|t|, |nodes|, i)))
    decreases |t| - k
  {
    if k < |t| {
      if t[k].Some? {
        FillMeans(t, nodes, k + 1);
      } else {
        var i := PickIsBelow(t, nodes, k);
        var u := t[k := Some(nodes[i].id)];
        FillMeans(u, nodes, k + 1);
        forall j | 0 <= j < |nodes|
          ensures Load(Fill(t, nodes, k), nodes[j].id) <= Max(Load(t, nodes[j].id), Quota(|t|, |nodes|, j))
        {
          LoadUpdate(t, k, nodes[i].id, nodes[j].id);
        }
      }
    }
  }

  /** The slot's owner is a live member by node and instance and not overdue, or the slot drains and may not be freed
      yet. */
  ghost predicate Remains(s: OwnershipSegment, members: seq<Member>) {
    || (s.state == Owned && !s.overdue && exists m :: m in members && m.id == s.node && m.instance == s.instance)
    || (s.state == Draining && !s.releaseReady)
  }

  lemma {:induction false} InstanceListed(members: seq<Member>, id: Node, p: Instance)
    requires DistinctIds(members)
    ensures InstanceOf(members, id) == Some(p) <==> exists m :: m in members && m.id == id && m.instance == p
  {
    if members != [] {
      var front, last := members[..|members| - 1], members[|members| - 1];
      InstanceListed(front, id, p);
      assert members == front + [last];
      if last.id == id {
        assert last in members;
      } else if m :| m in members && m.id == id && m.instance == p {
        assert m in front;
      }
    }
  }

  lemma StaysIs(s: OwnershipSegment, members: seq<Member>)
    requires DistinctIds(members)
    ensures Stays(s, members) <==> Remains(s, members)
  {
    InstanceListed(members, s.node, s.instance);
    hide InstanceOf;
  }

  /** A plan for the slots' story: every healthy or still-draining slot stays in place, every other one goes to a
      live member if there is one, and every live member ends with at most the greater of what it already had and
      its quota. */
  ghost predicate PlansFor(story: seq<OwnershipSegment>, sorted: seq<Member>, plan: Targets) {
    && |plan| == |story|
    && (forall k | 0 <= k < |story| && Remains(story[k], sorted) :: plan[k] == Some(story[k].node))
    && (forall k | 0 <= k < |story| && !Remains(story[k], sorted) ::
          if sorted == [] then plan[k] == None
          else exists i :: 0 <= i < |sorted| && plan[k] == Some(sorted[i].id))
    && (forall i | 0 <= i < |sorted| ::
          Load(plan, sorted[i].id) <= Max(Load(Kept(story, sorted), sorted[i].id), Quota(|story|, |sorted|, i)))
  }

  lemma KeptAlone(story: seq<OwnershipSegment>)
    ensures PlansFor(story, [], Kept(story, []))
  {
    forall k | 0 <= k < |story| ensures Stays(story[k], []) <==> Remains(story[k], []) {
      StaysIs(story[k], []);
    }
    hide Stays, Remains;
  }

  lemma {:induction false} KeptFilled(story: seq<OwnershipSegment>, sorted: seq<Member>)
    requires DistinctIds(sorted) && sorted != []
    ensures PlansFor(story, sorted, Fill(Kept(story, sorted), sorted, 0))
  {
    FillMeans(Kept(story, sorted), sorted, 0);
    forall k | 0 <= k < |story| ensures Stays(story[k], sorted) <==> Remains(story[k], sorted) {
      StaysIs(story[k], sorted);
    }
    hide Stays, Remains, Load, Quota, DistinctIds;
  }

  lemma {:induction false} PlanMeans(view: seq<OwnershipSegment>, nodes: seq<Member>)
    requires DistinctIds(nodes)
    ensures PlansFor(Spread(view), ById(nodes), Plan(view, nodes))
  {
    SortAscends(nodes);
    AscendingDistinct(ById(nodes));
    hide PlansFor, Kept, DistinctIds, Ascending;
    if ById(nodes) == [] {
      KeptAlone(Spread(view));
    } else {
      KeptFilled(Spread(view), ById(nodes));
    }
  }

  lemma AscendingDistinct(ms: seq<Member>)
    requires Ascending(ms)
    ensures DistinctIds(ms)
  {
    forall i, j | 0 <= i < j < |ms| ensures ms[i].id != ms[j].id {
      BeforeIrreflexive(ms[i].id);
    }
  }

  /** The order in which members are listed does not change the plan. */
  lemma PlanForgetsOrder(view: seq<OwnershipSegment>, a: seq<Member>, b: seq<Member>)
    requires DistinctIds(a) && multiset(a) == multiset(b)
    ensures Plan(view, a) == Plan(view, b)
  {
    SortForgetsOrder(a, b);
  }

  // ------------------------------------------------------------------
  // The planner.

  function Get(counts: map<Node, nat>, n: Node): nat {
    if n in counts then counts[n] else 0
  }

  ghost predicate Counts(counts: map<Node, nat>, t: Targets) {
    forall n: Node :: Get(counts, n) == Load(t, n)
  }

  ghost predicate Quotas(quotas: map<Node, nat>, nodes: seq<Member>, size: nat) {
    forall i | 0 <= i < |nodes| :: nodes[i].id in quotas && quotas[nodes[i].id] == Quota(size, |nodes|, i)
  }

  function Increment(counts: map<Node, nat>, n: Node): map<Node, nat> {
    counts[n := Get(counts, n) + 1]
  }

  lemma CountMore(counts: map<Node, nat>, t: Targets, k: nat, n: Node)
    requires Counts(counts, t) && k < |t| && t[k] == None
    ensures Counts(Increment(counts, n), t[k := Some(n)])
  {
    var counts' := Increment(counts, n);
    forall m: Node ensures Get(counts', m) == Load(t[k := Some(n)], m) {
      LoadUpdate(t, k, n, m);
    }
  }

  /** Scan the members in order: the first below its quota, else the least loaded. */
  method Choose(counts: map<Node, nat>, quotas: map<Node, nat>, nodes: seq<Member>, ghost t: Targets)
    returns (chosen: Node)
    requires nodes != [] && Counts(counts, t) && Quotas(quotas, nodes, |t|)
    ensures chosen == Pick(t, nodes, |t|)
  {
    chosen := nodes[0].id;
    var i := 0;
    while i < |nodes|
      invariant 0 <= i <= |nodes|
      invariant FirstBelow(t, nodes, |t|, 0) == FirstBelow(t, nodes, |t|, i)
      invariant chosen == nodes[Lightest(t, nodes, if i == 0 then 1 else i)].id
    {
      var n := nodes[i].id;
      if Get(counts, n) < quotas[n] {
        return n;
      }
      if Get(counts, n) < Get(counts, chosen) {
        chosen := n;
      }
      i := i + 1;
    }
  }

  function Lookup(instances: map<Node, Instance>, id: Node): Option<Instance> {
    if id in instances then Some(instances[id]) else None
  }

  /** Members by node ID; with distinct IDs the last write is the only one. */
  method Instances(nodes: seq<Member>) returns (instances: map<Node, Instance>)
    ensures forall id: Node :: Lookup(instances, id) == InstanceOf(nodes, id)
  {
    instances := map[];
    var i := 0;
    while i < |nodes|
      invariant 0 <= i <= |nodes|
      invariant forall id: Node :: Lookup(instances, id) == InstanceOf(nodes[..i], id)
    {
      assert nodes[..i + 1][..i] == nodes[..i];
      instances := instances[nodes[i].id := nodes[i].instance];
      i := i + 1;
    }
    assert nodes[..i] == nodes;
  }

  lemma {:induction false} SpreadMore(view: seq<OwnershipSegment>, i: nat)
    requires i < |view|
    ensures Spread(view[..i + 1]) == Spread(view[..i]) + seq(Length(Plain(view[i])), _ => view[i])
  {
    assert view[..i + 1][..i] == view[..i];
  }

  lemma {:induction false} SpreadLength(view: seq<OwnershipSegment>, size: nat)
    requires Contiguous(Plains(view), size)
    ensures |Spread(view)| == Next(Plains(view))
  {
    if view != [] {
      var front := view[..|view| - 1];
      assert Plains(front) == Plains(view)[..|view| - 1];
      SpreadLength(front, size);
    }
  }

  /** The first `n` slots as kept, the rest untouched. */
  function KeptBefore(kept: Targets, n: nat): (t: Targets)
    ensures |t| == |kept|
  {
    seq(|kept|, k requires 0 <= k < |kept| => if k < n then kept[k] else None)
  }

  /** The free slots below `n`, in order. */
  ghost predicate Frees(free: seq<nat>, kept: Targets, n: nat) {
    && (forall f | 0 <= f < |free| :: free[f] < n && free[f] < |kept| && kept[free[f]] == None)
    && (forall f, g | 0 <= f < g < |free| :: free[f] < free[g])
    && (forall j | 0 <= j < n && j < |kept| && kept[j] == None :: j in free)
  }

  /** One segment of the first pass. */
  method KeepRun(
    s: OwnershipSegment, stays: bool, counts0: map<Node, nat>, free0: seq<nat>, result: array<Option<Node>>,
    ghost kept: Targets) returns (counts: map<Node, nat>, free: seq<nat>)
    requires s.start <= s.end < |kept| == result.Length
    requires forall k | s.start <= k <= s.end :: kept[k] == if stays then Some(s.node) else None
    requires result[..] == KeptBefore(kept, s.start)
    requires Counts(counts0, result[..]) && Frees(free0, kept, s.start)
    modifies result
    ensures result[..] == KeptBefore(kept, s.end + 1)
    ensures Counts(counts, result[..]) && Frees(free, kept, s.end + 1)
  {
    counts, free := counts0, free0;
    var slot := s.start;
    while slot <= s.end
      invariant s.start <= slot <= s.end + 1
      invariant result[..] == KeptBefore(kept, slot)
      invariant Counts(counts, result[..]) && Frees(free, kept, slot)
    {
      ghost var before := result[..];
      if stays {
        CountMore(counts, before, slot, s.node);
        result[slot] := Some(s.node);
        counts := Increment(counts, s.node);
        assert result[..] == before[slot := Some(s.node)];
      } else {
        free := free + [slot];
      }
      assert result[..] == KeptBefore(kept, slot + 1);
      slot := slot + 1;
    }
  }

  predicate Healthy(s: OwnershipSegment, instances: map<Node, Instance>) {
    s.state == Owned && Lookup(instances, s.node) == Some(s.instance) && !s.overdue
  }

  lemma {:induction false} KeptRun(
    view: seq<OwnershipSegment>, nodes: seq<Member>, instances: map<Node, Instance>, i: nat, size: nat)
    requires forall id: Node :: Lookup(instances, id) == InstanceOf(nodes, id)
    requires ValidView(view, size) && i < |view|
    ensures var s, kept := view[i], Kept(Spread(view), nodes);
      && s.start == Next(Plains(view[..i])) && s.start <= s.end < size == |kept|
      && Next(Plains(view[..i + 1])) == s.end + 1
      && forall k | s.start <= k <= s.end ::
           kept[k] == if Healthy(s, instances) || (s.state == Draining && !s.releaseReady) then Some(s.node) else None
  {
    SegmentSlots(view, i, size);
    hide Spread, Contiguous;
  }

  /** First pass: slots that stay are counted for their owner, the others are listed as free. */
  method KeepHealthy(
    view: seq<OwnershipSegment>, instances: map<Node, Instance>, ghost nodes: seq<Member>,
    result: array<Option<Node>>) returns (counts: map<Node, nat>, free: seq<nat>)
    requires forall id: Node :: Lookup(instances, id) == InstanceOf(nodes, id)
    requires ValidView(view, result.Length)
    requires forall k | 0 <= k < result.Length :: result[k] == None
    modifies result
    ensures result[..] == Kept(Spread(view), nodes)
    ensures Counts(counts, result[..]) && Frees(free, result[..], result.Length)
  {
    ghost var kept := Kept(Spread(view), nodes);
    SpreadLength(view, result.Length);
    counts, free := map[], [];
    NothingCounted(result[..]);
    KeptNone(kept, result[..]);
    var i := 0;
    ghost var done := 0;
    hide Counts, Frees, KeptBefore, Spread, Contiguous, Kept, Healthy, ValidView, Plains, InstanceOf, Lookup;
    while i < |view|
      invariant 0 <= i <= |view|
      invariant done == Next(Plains(view[..i]))
      invariant result[..] == KeptBefore(kept, done)
      invariant Counts(counts, result[..]) && Frees(free, kept, done)
    {
      var s := view[i];
      KeptRun(view, nodes, instances, i, result.Length);
      counts, free := KeepRun(
        s, Healthy(s, instances) || (s.state == Draining && !s.releaseReady), counts, free, result, kept);
      i := i + 1;
      done := s.end + 1;
    }
    assert view[..i] == view;
    KeptAll(kept);
  }

  lemma KeptNone(kept: Targets, t: Targets)
    requires |t| == |kept| && forall k | 0 <= k < |t| :: t[k] == None
    ensures t == KeptBefore(kept, 0) && Frees([], kept, 0)
  {
  }

  lemma KeptAll(kept: Targets)
    ensures KeptBefore(kept, |kept|) == kept
  {
  }

  lemma NothingCounted(t: Targets)
    requires forall k | 0 <= k < |t| :: t[k] == None
    ensures Counts(map[], t)
  {
    forall n: Node ensures Load(t, n) == 0 {
      LoadNone(|t|, n);
      var u: Targets := seq(|t|, _ => None);
      assert t == u;
    }
  }

  /** The slots of a segment, in the spread view and in the coverage. */
  lemma {:induction false} SegmentSlots(view: seq<OwnershipSegment>, i: nat, size: nat)
    requires ValidView(view, size) && i < |view|
    ensures view[i].start == Next(Plains(view[..i])) && view[i].start <= view[i].end < size
    ensures |Spread(view[..i])| == view[i].start
        && |Spread(view[..i + 1])| == view[i].end + 1 == Next(Plains(view[..i + 1]))
    ensures |Spread(view)| == size
    ensures forall k | view[i].start <= k <= view[i].end :: Spread(view)[k] == view[i]
  {
    assert Plains(view[..i]) == Plains(view)[..i];
    assert Plains(view[..i + 1]) == Plains(view)[..i + 1];
    ContiguousFront(Plains(view), size, i);
    SpreadLength(view, size);
    SpreadLength(view[..i], size);
    SpreadMore(view, i);
    SpreadPrefix(view, i + 1);
  }

  lemma {:induction false} SpreadPrefix(view: seq<OwnershipSegment>, i: nat)
    requires i <= |view|
    ensures Spread(view[..i]) <= Spread(view)
  {
    if i < |view| {
      SpreadPrefix(view[..|view| - 1], i);
      assert view[..|view| - 1][..i] == view[..i];
    } else {
      assert view[..i] == view;
    }
  }

  lemma {:induction false} FillSkips(t: Targets, nodes: seq<Member>, k: nat, k': nat)
    requires nodes != [] && k <= k' <= |t|
    requires forall j | k <= j < k' :: t[j].Some?
    ensures Fill(t, nodes, k) == Fill(t, nodes, k')
    decreases k' - k
  {
    if k < k' {
      FillSkips(t, nodes, k + 1, k');
    }
  }

  /** Second pass: every free slot, in order, to the member chosen for it. */
  method FillDeficits(
    counts0: map<Node, nat>, quotas: map<Node, nat>, nodes: seq<Member>, free: seq<nat>, result: array<Option<Node>>)
    requires nodes != [] && Quotas(quotas, nodes, result.Length)
    requires Counts(counts0, result[..]) && Frees(free, result[..], result.Length)
    modifies result
    ensures result[..] == Fill(old(result[..]), nodes, 0)
  {
    ghost var kept := result[..];
    var counts := counts0;
    var f := 0;
    ghost var k := 0;
    while f < |free|
      invariant 0 <= f <= |free|
      invariant k == if f == 0 then 0 else free[f - 1] + 1
      invariant Counts(counts, result[..])
      invariant forall j | k <= j < result.Length :: result[j] == kept[j]
      invariant Fill(kept, nodes, 0) == Fill(result[..], nodes, k)
    {
      var slot := free[f];
      FillSkips(result[..], nodes, k, slot);
      var chosen := Choose(counts, quotas, nodes, result[..]);
      CountMore(counts, result[..], slot, chosen);
      ghost var before := result[..];
      result[slot] := Some(chosen);
      assert result[..] == before[slot := Some(chosen)];
      counts := Increment(counts, chosen);
      f := f + 1;
      k := slot + 1;
    }
    FillSkips(result[..], nodes, k, result.Length);
  }

  /** Preserve healthy ownership and fill quota deficits first. */
  method PlanTargets(view: seq<OwnershipSegment>, nodes: seq<Member>, size: nat) returns (r: Result<Targets>)
    requires DistinctIds(nodes)
    ensures r.Ok? <==> ValidView(view, size)
    ensures r.Ok? ==> r.value == Plan(view, nodes)
  {
    var valid := ValidateOwnershipSegments(view, size);
    if !valid {
      return Err(InvalidRequest);
    }
    var sorted := ById(nodes);
    var instances := Instances(sorted);
    var result := new Option<Node>[size](_ => None);
    var counts, free := KeepHealthy(view, instances, sorted, result);
    if |sorted| == 0 {
      return Ok(result[..]);
    }
    SortAscends(nodes);
    AscendingDistinct(sorted);
    var quotas := SlotQuotas(sorted, size);
    FillDeficits(counts, quotas, sorted, free, result);
    return Ok(result[..]);
  }
}
