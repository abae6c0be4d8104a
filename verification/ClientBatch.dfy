/** The client's batch fetch: normalise, group by owner, decode, retry what is left. */
module ClientBatch {
  import opened Tables
  import opened Members

  const MAX_BATCH_KEYS: nat := 1000
  const MAX_IDS_PER_KEY: nat := 10000
  const MAX_IDS_PER_REQUEST: nat := 100000
  const MAX_KEY_LENGTH: nat := 256

  datatype KeyRequest = KeyRequest(key: Key, count: nat)

  datatype KeyAllocation = KeyAllocation(key: Key, firstId: int, count: nat)

  /** The keys one owner is asked for, as indexes into the pending requests. */
  datatype Group = Group(node: Node, anchor: Slot, indexes: seq<nat>)

  /** One entry of a server's response; an entry may be absent. */
  type Answer = Option<KeyAllocation>

  datatype Action = Never | Backoff | Refresh | Throttle

  datatype Reply = Failed(action: Action) | Replied(results: Option<seq<Answer>>)

  // ------------------------------------------------------------------
  // Normalising.

  function Normal(r: KeyRequest): KeyRequest {
    if r.count == 0 then r.(count := 1) else r
  }

  function IdTotal(requests: seq<KeyRequest>): nat {
    if requests == [] then 0 else IdTotal(requests[..|requests| - 1]) + Normal(requests[|requests| - 1]).count
  }

  predicate DistinctKeys(requests: seq<KeyRequest>) {
    forall i, j | 0 <= i < j < |requests| :: requests[i].key != requests[j].key
  }

  predicate Acceptable(requests: seq<KeyRequest>) {
    && 0 < |requests| <= MAX_BATCH_KEYS
    && DistinctKeys(requests)
    && (forall i | 0 <= i < |requests| :: WellSized(requests[i]))
    && IdTotal(requests) <= MAX_IDS_PER_REQUEST
  }

  lemma {:induction false} TotalRises(requests: seq<KeyRequest>, i: nat)
    requires i <= |requests|
    ensures IdTotal(requests[..i]) <= IdTotal(requests)
  {
    if i < |requests| {
      TotalRises(requests[..|requests| - 1], i);
      assert requests[..|requests| - 1][..i] == requests[..i];
    } else {
      assert requests[..i] == requests;
    }
  }

  predicate WellSized(r: KeyRequest) {
    0 < |r.key| <= MAX_KEY_LENGTH && Normal(r).count <= MAX_IDS_PER_KEY
  }

  ghost predicate Seen(seen: set<Key>, requests: seq<KeyRequest>, n: nat)
    requires n <= |requests|
  {
    && (forall k | 0 <= k < n :: requests[k].key in seen)
    && (forall key | key in seen :: exists k :: 0 <= k < n && requests[k].key == key)
    && DistinctKeys(requests[..n])
  }

  lemma SeeMore(seen: set<Key>, requests: seq<KeyRequest>, n: nat)
    requires n < |requests| && Seen(seen, requests, n)
    ensures requests[n].key !in seen ==> Seen(seen + {requests[n].key}, requests, n + 1)
    ensures requests[n].key in seen ==> !DistinctKeys(requests)
  {
    if requests[n].key in seen {
      var k :| 0 <= k < n && requests[k].key == requests[n].key;
    } else {
      forall key | key in seen + {requests[n].key} ensures exists k :: 0 <= k < n + 1 && requests[k].key == key {
        if key in seen {
          var k :| 0 <= k < n && requests[k].key == key;
        } else {
          assert requests[n].key == key;
        }
      }
    }
  }

  /** What the first `n` requests have been found to be. */
  ghost predicate Checked(requests: seq<KeyRequest>, seen: set<Key>, total: nat, n: nat)
    requires n <= |requests|
  {
    && Seen(seen, requests, n)
    && (forall k | 0 <= k < n :: WellSized(requests[k]))
    && total == IdTotal(requests[..n]) && total <= MAX_IDS_PER_REQUEST
  }

  lemma {:induction false} CheckMore(requests: seq<KeyRequest>, seen: set<Key>, total: nat, n: nat)
    requires n < |requests| && Checked(requests, seen, total, n)
    ensures var r := requests[n];
      if !WellSized(r) || r.key in seen || total + Normal(r).count > MAX_IDS_PER_REQUEST then !Acceptable(requests)
      else Checked(requests, seen + {r.key}, total + Normal(r).count, n + 1)
  {
    SeeMore(seen, requests, n);
    TotalRises(requests, n + 1);
    assert requests[..n + 1][..n] == requests[..n];
    hide Seen, DistinctKeys, WellSized;
  }

  lemma {:induction false} CheckAll(requests: seq<KeyRequest>, seen: set<Key>, total: nat)
    requires 0 < |requests| <= MAX_BATCH_KEYS && Checked(requests, seen, total, |requests|)
    ensures Acceptable(requests)
  {
    SeenAll(seen, requests);
    assert requests[..|requests|] == requests;
    hide Seen, DistinctKeys, WellSized;
  }

  method NormalizeKeyRequests(requests: seq<KeyRequest>) returns (r: Result<seq<KeyRequest>>)
    ensures if Acceptable(requests) then r.Ok? else r == Err(InvalidRequest)
    ensures r.Ok? ==> |r.value| == |requests| && forall i | 0 <= i < |requests| :: r.value[i] == Normal(requests[i])
  {
    if |requests| == 0 || |requests| > MAX_BATCH_KEYS {
      return Err(InvalidRequest);
    }
    var normalized: seq<KeyRequest> := [];
    var seen: set<Key> := {};
    var total: nat := 0;
    var i: nat := 0;
    SeenNone(requests);
    assert Checked(requests, seen, total, 0);
    hide Checked, Acceptable;
    while i < |requests|
      invariant 0 <= i <= |requests| && |normalized| == i
      invariant forall k | 0 <= k < i :: normalized[k] == Normal(requests[k])
      invariant Checked(requests, seen, total, i)
    {
      var request := requests[i];
      var count := if request.count == 0 then 1 else request.count;
      CheckMore(requests, seen, total, i);
      if request.key == "" || |request.key| > MAX_KEY_LENGTH || request.key in seen || count > MAX_IDS_PER_KEY {
        return Err(InvalidRequest);
      }
      seen := seen + {request.key};
      total := total + count;
      if total > MAX_IDS_PER_REQUEST {
        return Err(InvalidRequest);
      }
      normalized := normalized + [KeyRequest(request.key, count)];
      i := i + 1;
    }
    CheckAll(requests, seen, total);
    return Ok(normalized);
  }

  lemma SeenNone(requests: seq<KeyRequest>)
    ensures Seen({}, requests, 0)
  {
  }

  lemma SeenAll(seen: set<Key>, requests: seq<KeyRequest>)
    requires Seen(seen, requests, |requests|)
    ensures DistinctKeys(requests)
  {
    assert requests[..|requests|] == requests;
  }

  // ------------------------------------------------------------------
  // Grouping.

  function OwnerOf(owners: seq<Node>, slotOf: Key -> Slot, k: Key): Node
    requires slotOf(k) < |owners|
  {
    owners[slotOf(k)]
  }

  ghost predicate Hashes(slotOf: Key -> Slot, size: nat) {
    forall k: Key :: slotOf(k) < size
  }

  /** Requests of one owner, in request order. */
  ghost predicate GroupOk(g: Group, requests: seq<KeyRequest>, owners: seq<Node>, slotOf: Key -> Slot, n: nat)
    requires Hashes(slotOf, |owners|) && n <= |requests|
  {
    && g.indexes != []
    && (forall j | 0 <= j < |g.indexes| ::
          g.indexes[j] < n && OwnerOf(owners, slotOf, requests[g.indexes[j]].key) == g.node)
    && (forall i, j | 0 <= i < j < |g.indexes| :: g.indexes[i] < g.indexes[j])
    && (forall i | 0 <= i < n && OwnerOf(owners, slotOf, requests[i].key) == g.node :: i in g.indexes)
    && slotOf(requests[g.indexes[0]].key) == g.anchor
  }

  predicate AscendingGroups(gs: seq<Group>) {
    forall i, j | 0 <= i < j < |gs| :: Before(gs[i].node, gs[j].node)
  }

  predicate Reaches(gs: seq<Group>, node: Node) {
    exists g :: 0 <= g < |gs| && gs[g].node == node
  }

  /** One group per owner, in node order, and every request in its owner's group. */
  ghost predicate Partition(gs: seq<Group>, requests: seq<KeyRequest>, owners: seq<Node>, slotOf: Key -> Slot)
    requires Hashes(slotOf, |owners|)
  {
    && AscendingGroups(gs)
    && (forall g | 0 <= g < |gs| :: GroupOk(gs[g], requests, owners, slotOf, |requests|))
    && (forall i | 0 <= i < |requests| :: Reaches(gs, OwnerOf(owners, slotOf, requests[i].key)))
  }

  /** Every pending request is in exactly one group. */
  lemma PartitionExact(
    gs: seq<Group>, requests: seq<KeyRequest>, owners: seq<Node>, slotOf: Key -> Slot, i: nat) returns (g: nat)
    requires Hashes(slotOf, |owners|) && Partition(gs, requests, owners, slotOf) && i < |requests|
    ensures g < |gs| && i in gs[g].indexes
    ensures forall h | 0 <= h < |gs| && i in gs[h].indexes :: h == g
  {
    assert Reaches(gs, OwnerOf(owners, slotOf, requests[i].key));
    g :| 0 <= g < |gs| && gs[g].node == OwnerOf(owners, slotOf, requests[i].key);
    forall h | 0 <= h < |gs| && i in gs[h].indexes ensures h == g {
      assert gs[h].node == gs[g].node;
      BeforeIrreflexive(gs[g].node);
    }
  }

  function InsertGroup(g: Group, gs: seq<Group>): seq<Group> {
    if gs == [] || Before(g.node, gs[0].node) then [g] + gs else [gs[0]] + InsertGroup(g, gs[1..])
  }

  lemma {:induction false} InsertAscends(g: Group, gs: seq<Group>)
    requires AscendingGroups(gs) && forall i | 0 <= i < |gs| :: gs[i].node != g.node
    ensures AscendingGroups(InsertGroup(g, gs))
    ensures forall x :: x in InsertGroup(g, gs) <==> x == g || x in gs
  {
    if gs == [] {
    } else if Before(g.node, gs[0].node) {
      forall i | 0 < i < |gs| ensures Before(g.node, gs[i].node) {
        BeforeTransitive(g.node, gs[0].node, gs[i].node);
      }
    } else {
      BeforeTotal(g.node, gs[0].node);
      InsertAscends(g, gs[1..]);
      var rest := InsertGroup(g, gs[1..]);
      assert gs == [gs[0]] + gs[1..];
      forall i | 0 <= i < |rest| ensures Before(gs[0].node, rest[i].node) {
        assert rest[i] in rest;
        assert rest[i] == g || rest[i] in gs[1..];
      }
    }
  }

  ghost predicate ByNode(
    byNode: map<Node, Group>, requests: seq<KeyRequest>, owners: seq<Node>, slotOf: Key -> Slot, n: nat)
    requires Hashes(slotOf, |owners|) && n <= |requests|
  {
    && (forall node | node in byNode :: byNode[node].node == node && GroupOk(byNode[node], requests, owners, slotOf, n))
    && (forall i | 0 <= i < n :: OwnerOf(owners, slotOf, requests[i].key) in byNode)
  }

  /** Add one request to its owner's group. */
  function Joined(byNode: map<Node, Group>, node: Node, slot: Slot, i: nat): map<Node, Group> {
    if node in byNode then byNode[node := byNode[node].(indexes := byNode[node].indexes + [i])]
    else byNode[node := Group(node, slot, [i])]
  }

  lemma GroupStays(
    g: Group, requests: seq<KeyRequest>, owners: seq<Node>, slotOf: Key -> Slot, n: nat)
    requires Hashes(slotOf, |owners|) && n < |requests| && GroupOk(g, requests, owners, slotOf, n)
    requires OwnerOf(owners, slotOf, requests[n].key) != g.node
    ensures GroupOk(g, requests, owners, slotOf, n + 1)
  {
  }

  lemma GroupGains(
    g: Group, requests: seq<KeyRequest>, owners: seq<Node>, slotOf: Key -> Slot, n: nat)
    requires Hashes(slotOf, |owners|) && n < |requests| && GroupOk(g, requests, owners, slotOf, n)
    requires OwnerOf(owners, slotOf, requests[n].key) == g.node
    ensures GroupOk(g.(indexes := g.indexes + [n]), requests, owners, slotOf, n + 1)
  {
    assert (g.indexes + [n])[|g.indexes|] == n;
    assert forall i | i in g.indexes :: i in g.indexes + [n];
  }

  lemma GroupStarts(requests: seq<KeyRequest>, owners: seq<Node>, slotOf: Key -> Slot, n: nat, node: Node)
    requires Hashes(slotOf, |owners|) && n < |requests| && OwnerOf(owners, slotOf, requests[n].key) == node
    requires forall i | 0 <= i < n :: OwnerOf(owners, slotOf, requests[i].key) != node
    ensures GroupOk(Group(node, slotOf(requests[n].key), [n]), requests, owners, slotOf, n + 1)
  {
    assert [n][0] == n;
  }

  lemma JoinOk(
    byNode: map<Node, Group>, requests: seq<KeyRequest>, owners: seq<Node>, slotOf: Key -> Slot, n: nat)
    requires Hashes(slotOf, |owners|) && n < |requests| && ByNode(byNode, requests, owners, slotOf, n)
    ensures ByNode(Joined(byNode, OwnerOf(owners, slotOf, requests[n].key), slotOf(requests[n].key), n),
                   requests, owners, slotOf, n + 1)
  {
    hide GroupOk;
    var node := OwnerOf(owners, slotOf, requests[n].key);
    var joined := Joined(byNode, node, slotOf(requests[n].key), n);
    forall other | other in joined
      ensures joined[other].node == other && GroupOk(joined[other], requests, owners, slotOf, n + 1)
    {
      if other != node {
        GroupStays(byNode[other], requests, owners, slotOf, n);
      } else if node in byNode {
        GroupGains(byNode[node], requests, owners, slotOf, n);
      } else {
        GroupStarts(requests, owners, slotOf, n, node);
      }
    }
  }

  method GroupKeyRequests(requests: seq<KeyRequest>, owners: seq<Node>, slotOf: Key -> Slot)
    returns (r: Result<seq<Group>>)
    requires Hashes(slotOf, |owners|)
    ensures r.Err? <==> exists i :: 0 <= i < |requests| && OwnerOf(owners, slotOf, requests[i].key) == ""
    ensures r.Ok? ==> Partition(r.value, requests, owners, slotOf)
  {
    var byNode: map<Node, Group> := map[];
    var i := 0;
    while i < |requests|
      invariant 0 <= i <= |requests|
      invariant ByNode(byNode, requests, owners, slotOf, i)
      invariant forall k | 0 <= k < i :: OwnerOf(owners, slotOf, requests[k].key) != ""
    {
      var slot := slotOf(requests[i].key);
      var owner := owners[slot];
      if owner == "" {
        assert OwnerOf(owners, slotOf, requests[i].key) == "";
        return Err(AuthorityChanged);
      }
      JoinOk(byNode, requests, owners, slotOf, i);
      byNode := Joined(byNode, owner, slot, i);
      i := i + 1;
    }
    var groups := Sorted(byNode);
    forall k | 0 <= k < |requests|
      ensures Reaches(groups, OwnerOf(owners, slotOf, requests[k].key))
    {
      var node := OwnerOf(owners, slotOf, requests[k].key);
      assert byNode[node] in groups;
      var g :| 0 <= g < |groups| && groups[g] == byNode[node];
      assert groups[g].node == node;
    }
    forall g | 0 <= g < |groups| ensures GroupOk(groups[g], requests, owners, slotOf, |requests|) {
      assert groups[g] in groups;
    }
    return Ok(groups);
  }

  /** The groups of the map, in whatever order they are taken out, by node. */
  method Sorted(byNode: map<Node, Group>) returns (groups: seq<Group>)
    requires forall node | node in byNode :: byNode[node].node == node
    ensures AscendingGroups(groups)
    ensures forall g :: g in groups <==> g.node in byNode && byNode[g.node] == g
  {
    groups := [];
    var left := byNode.Keys;
    while left != {}
      invariant left <= byNode.Keys && AscendingGroups(groups)
      invariant forall g :: g in groups <==> g.node in byNode.Keys - left && byNode[g.node] == g
      decreases left
    {
      var node :| node in left;
      forall i | 0 <= i < |groups| ensures groups[i].node != node {
        assert groups[i] in groups;
      }
      InsertAscends(byNode[node], groups);
      groups := InsertGroup(byNode[node], groups);
      left := left - {node};
    }
  }

  // ------------------------------------------------------------------
  // One group's response.

  /** The allocation answers the request: same key, exactly the requested count, a positive first ID. */
  predicate Fulfils(a: KeyAllocation, r: KeyRequest) {
    a.key == r.key && a.count == r.count && a.firstId > 0
  }

  predicate Honours(requests: seq<KeyRequest>, g: Group, results: Option<seq<Answer>>) {
    && results.Some? && |results.value| == |g.indexes|
    && forall j | 0 <= j < |g.indexes| ::
         g.indexes[j] < |requests| && results.value[j].Some? && Fulfils(results.value[j].value, requests[g.indexes[j]])
  }

  predicate Indexes(g: Group, n: nat) {
    && (forall j | 0 <= j < |g.indexes| :: g.indexes[j] < n)
    && (forall i, j | 0 <= i < j < |g.indexes| :: g.indexes[i] < g.indexes[j])
  }

  method DecodeGroupResponse(
    requests: seq<KeyRequest>, g: Group, results: Option<seq<Answer>>, allocations: array<KeyAllocation>)
    returns (ok: bool)
    requires allocations.Length == |requests| && Indexes(g, |requests|)
    modifies allocations
    ensures ok <==> Honours(requests, g, results)
    ensures ok ==> forall j | 0 <= j < |g.indexes| :: allocations[g.indexes[j]] == results.value[j].value
    ensures forall i | 0 <= i < allocations.Length && i !in g.indexes :: allocations[i] == old(allocations[i])
  {
    if results == None || |results.value| != |g.indexes| {
      return false;
    }
    var j := 0;
    while j < |g.indexes|
      invariant 0 <= j <= |g.indexes|
      invariant forall k | 0 <= k < j ::
          results.value[k].Some? && Fulfils(results.value[k].value, requests[g.indexes[k]])
      invariant forall k | 0 <= k < j :: allocations[g.indexes[k]] == results.value[k].value
      invariant forall i | 0 <= i < allocations.Length && i !in g.indexes :: allocations[i] == old(allocations[i])
    {
      var request, result := requests[g.indexes[j]], results.value[j];
      if result == None || result.value.key != request.key {
        return false;
      }
      if result.value.count != request.count || result.value.firstId <= 0 {
        return false;
      }
      allocations[g.indexes[j]] := KeyAllocation(request.key, result.value.firstId, result.value.count);
      j := j + 1;
    }
    return true;
  }

  // ------------------------------------------------------------------
  // All groups, in whatever order their responses arrive.

  /** How a group's call ends: no error, or an error with the caller's move. A malformed success is final. */
  function Ending(requests: seq<KeyRequest>, g: Group, reply: Reply): Option<Action> {
    match reply
    case Failed(action) => Some(action)
    case Replied(results) => if Honours(requests, g, results) then None else Some(Never)
  }

  predicate Permutes(order: seq<nat>, n: nat) {
    && |order| == n
    && (forall i | 0 <= i < n :: order[i] < n)
    && (forall i, j | 0 <= i < j < n :: order[i] != order[j])
    && (forall g | 0 <= g < n :: g in order)
  }

  predicate Disjoint(gs: seq<Group>) {
    forall g, h, i | 0 <= g < h < |gs| && i in gs[g].indexes :: i !in gs[h].indexes
  }

  /** The group's part of the results is what its server answered. */
  predicate Delivered(requests: seq<KeyRequest>, g: Group, allocations: seq<KeyAllocation>) {
    forall i | i in g.indexes :: i < |requests| && i < |allocations| && Fulfils(allocations[i], requests[i])
  }

  lemma DeliveredKept(requests: seq<KeyRequest>, g: Group, before: seq<KeyAllocation>, after: seq<KeyAllocation>)
    requires Delivered(requests, g, before) && |before| == |after|
    requires forall i | i in g.indexes && i < |after| :: after[i] == before[i]
    ensures Delivered(requests, g, after)
  {
  }

  /** After `n` responses, in arrival order. */
  ghost predicate Received(
    requests: seq<KeyRequest>, groups: seq<Group>, replies: seq<Reply>, order: seq<nat>, n: nat,
    errors: seq<Option<Action>>, fatal: bool, allocations: seq<KeyAllocation>)
    requires Permutes(order, |groups|) && |replies| == |groups| && n <= |order|
  {
    && |errors| == |groups|
    && (forall k | 0 <= k < n :: errors[order[k]] == Ending(requests, groups[order[k]], replies[order[k]]))
    && (forall k | n <= k < |order| :: errors[order[k]] == None)
    && (fatal <==> exists g :: 0 <= g < |groups| && errors[g] == Some(Never))
    && (forall k | 0 <= k < n && errors[order[k]] == None :: Delivered(requests, groups[order[k]], allocations))
  }

  lemma ReceivedMore(
    requests: seq<KeyRequest>, groups: seq<Group>, replies: seq<Reply>, order: seq<nat>, n: nat,
    errors: seq<Option<Action>>, fatal: bool, before: seq<KeyAllocation>, after: seq<KeyAllocation>)
    requires Permutes(order, |groups|) && |replies| == |groups| && n < |order| && Disjoint(groups)
    requires Received(requests, groups, replies, order, n, errors, fatal, before)
    requires |before| == |after| && forall i | 0 <= i < |after| && i !in groups[order[n]].indexes ::
        after[i] == before[i]
    requires Ending(requests, groups[order[n]], replies[order[n]]) == None ==>
        Delivered(requests, groups[order[n]], after)
    ensures var error := Ending(requests, groups[order[n]], replies[order[n]]);
      Received(requests, groups, replies, order, n + 1, errors[order[n] := error], fatal || error == Some(Never), after)
  {
    hide Delivered;
    var g := order[n];
    var error := Ending(requests, groups[g], replies[g]);
    var errors' := errors[g := error];
    FatalMore(errors, errors', g, error);
    forall k | 0 <= k < n + 1 && errors'[order[k]] == None ensures Delivered(requests, groups[order[k]], after) {
      if k < n {
        assert order[k] != g;
        Apart(groups, order[k], g);
        DeliveredKept(requests, groups[order[k]], before, after);
      }
    }
  }

  lemma Apart(groups: seq<Group>, g: nat, h: nat)
    requires Disjoint(groups) && g < |groups| && h < |groups| && g != h
    ensures forall i | i in groups[g].indexes :: i !in groups[h].indexes
  {
    forall i | i in groups[g].indexes ensures i !in groups[h].indexes {
    }
  }

  method FetchGroups(
    requests: seq<KeyRequest>, groups: seq<Group>, replies: seq<Reply>, order: seq<nat>,
    allocations: array<KeyAllocation>) returns (errors: seq<Option<Action>>, fatal: bool)
    requires allocations.Length == |requests| && |replies| == |groups| && Permutes(order, |groups|)
    requires (forall g | 0 <= g < |groups| :: Indexes(groups[g], |requests|)) && Disjoint(groups)
    modifies allocations
    ensures |errors| == |groups| && forall g | 0 <= g < |groups| :: errors[g] == Ending(requests, groups[g], replies[g])
    ensures fatal <==> exists g :: 0 <= g < |groups| && errors[g] == Some(Never)
    ensures forall g | 0 <= g < |groups| && errors[g] == None :: Delivered(requests, groups[g], allocations[..])
  {
    errors := seq(|groups|, _ => None);
    fatal := false;
    var n := 0;
    hide Honours, Delivered, Disjoint;
    while n < |order|
      invariant 0 <= n <= |order|
      invariant Received(requests, groups, replies, order, n, errors, fatal, allocations[..])
    {
      var g := order[n];
      ghost var before := allocations[..];
      var error := Receive(requests, groups[g], replies[g], allocations);
      ReceivedMore(requests, groups, replies, order, n, errors, fatal, before, allocations[..]);
      errors := errors[g := error];
      fatal := fatal || error == Some(Never);
      n := n + 1;
    }
    forall g | 0 <= g < |groups|
      ensures errors[g] == Ending(requests, groups[g], replies[g])
      ensures errors[g] == None ==> Delivered(requests, groups[g], allocations[..])
    {
      assert g in order;
      var k :| 0 <= k < |order| && order[k] == g;
    }
  }

  /** Validate a response as soon as it arrives. */
  method Receive(requests: seq<KeyRequest>, g: Group, reply: Reply, allocations: array<KeyAllocation>)
    returns (error: Option<Action>)
    requires allocations.Length == |requests| && Indexes(g, |requests|)
    modifies allocations
    ensures error == Ending(requests, g, reply)
    ensures error == None ==> Delivered(requests, g, allocations[..])
    ensures forall i | 0 <= i < allocations.Length && i !in g.indexes :: allocations[i] == old(allocations[i])
  {
    if reply.Failed? {
      return Some(reply.action);
    }
    var ok := DecodeGroupResponse(requests, g, reply.results, allocations);
    return if ok then None else Some(Never);
  }

  lemma FatalMore(before: seq<Option<Action>>, after: seq<Option<Action>>, g: nat, error: Option<Action>)
    requires g < |before| && before[g] == None && after == before[g := error]
    ensures (exists h :: 0 <= h < |after| && after[h] == Some(Never))
            <==> ((exists h :: 0 <= h < |before| && before[h] == Some(Never)) || error == Some(Never))
  {
    if h :| 0 <= h < |before| && before[h] == Some(Never) {
      assert after[h] == Some(Never);
    }
    if error == Some(Never) {
      assert after[g] == Some(Never);
    }
  }

  // ------------------------------------------------------------------
  // One attempt.

  /** The requests not yet answered, in order. */
  ghost predicate Pending(indexes: seq<nat>, done: seq<bool>, n: nat)
    requires n <= |done|
  {
    && (forall k | 0 <= k < |indexes| :: indexes[k] < n && !done[indexes[k]])
    && (forall j, k | 0 <= j < k < |indexes| :: indexes[j] < indexes[k])
    && (forall i | 0 <= i < n && !done[i] :: i in indexes)
  }

  /** The members of `left` below `n`, in order. */
  function Kept(left: set<nat>, n: nat): seq<nat> {
    if n == 0 then [] else Kept(left, n - 1) + (if n - 1 in left then [n - 1] else [])
  }

  /** The requests at the given indexes. */
  function Picked(requests: seq<KeyRequest>, indexes: seq<nat>): (r: seq<KeyRequest>)
    requires forall k | 0 <= k < |indexes| :: indexes[k] < |requests|
    ensures |r| == |indexes|
  {
    seq(|indexes|, k requires 0 <= k < |indexes| => requests[indexes[k]])
  }

  lemma {:induction false} KeptBelow(left: set<nat>, n: nat)
    ensures forall k | 0 <= k < |Kept(left, n)| :: Kept(left, n)[k] < n && Kept(left, n)[k] in left
    ensures forall j, k | 0 <= j < k < |Kept(left, n)| :: Kept(left, n)[j] < Kept(left, n)[k]
    ensures forall i | 0 <= i < n && i in left :: i in Kept(left, n)
  {
    if n > 0 {
      KeptBelow(left, n - 1);
      assert forall i | 0 <= i < n - 1 && i in left :: i in Kept(left, n - 1);
      assert n - 1 in left ==> Kept(left, n)[|Kept(left, n - 1)|] == n - 1;
    }
  }

  method CollectPending(requests: seq<KeyRequest>, done: array<bool>)
      returns (pending: seq<KeyRequest>, indexes: seq<nat>)
    requires done.Length == |requests|
    ensures |pending| == |indexes| && Pending(indexes, done[..], done.Length)
    ensures forall k | 0 <= k < |indexes| :: pending[k] == requests[indexes[k]]
    ensures indexes == Kept(Undone(done[..]), |requests|)
  {
    pending, indexes := [], [];
    ghost var left := Undone(done[..]);
    var i := 0;
    hide Undone, Pending;
    while i < |requests|
      invariant 0 <= i <= |requests| && |pending| == |indexes|
      invariant forall k | 0 <= k < |indexes| :: indexes[k] < i && pending[k] == requests[indexes[k]]
      invariant indexes == Kept(left, i)
    {
      UndoneIs(done[..], i);
      if !done[i] {
        pending := pending + [requests[i]];
        indexes := indexes + [i];
      }
      i := i + 1;
    }
    KeptPending(done[..]);
  }

  lemma UndoneIs(done: seq<bool>, i: nat)
    requires i < |done|
    ensures i in Undone(done) <==> !done[i]
  {
  }

  lemma {:induction false} KeptPending(done: seq<bool>)
    ensures Pending(Kept(Undone(done), |done|), done, |done|)
  {
    KeptBelow(Undone(done), |done|);
    hide Kept;
  }

  function Undone(done: seq<bool>): set<nat> {
    set i | 0 <= i < |done| && !done[i]
  }

  /** Answered requests hold their own allocation. */
  predicate Settled(requests: seq<KeyRequest>, done: seq<bool>, allocations: seq<KeyAllocation>) {
    && |done| == |allocations| == |requests|
    && forall i | 0 <= i < |done| && done[i] :: Fulfils(allocations[i], requests[i])
  }

  /** What an attempt may change: `accepted` become answered, and nothing else moves. */
  ghost predicate Advances(
    requests: seq<KeyRequest>, done: seq<bool>, done': seq<bool>, allocations: seq<KeyAllocation>,
    allocations': seq<KeyAllocation>, accepted: set<nat>)
  {
    && |done'| == |done| && |allocations'| == |allocations|
    && (forall i | 0 <= i < |done| :: done'[i] <==> done[i] || i in accepted)
    && (forall i | 0 <= i < |allocations| && i !in accepted :: allocations'[i] == allocations[i])
    && Settled(requests, done', allocations')
  }

  /** The stronger call for a refresh wins; otherwise the later group's move does. */
  function Prefer(current: Action, next: Action): Action {
    if next == Refresh || current != Refresh then next else current
  }

  lemma PartitionShape(
    gs: seq<Group>, requests: seq<KeyRequest>, owners: seq<Node>, slotOf: Key -> Slot)
    requires Hashes(slotOf, |owners|) && Partition(gs, requests, owners, slotOf)
    ensures (forall g | 0 <= g < |gs| :: Indexes(gs[g], |requests|)) && Disjoint(gs)
  {
    forall g | 0 <= g < |gs| ensures Indexes(gs[g], |requests|) {
      assert GroupOk(gs[g], requests, owners, slotOf, |requests|);
    }
    forall g, h, i | 0 <= g < h < |gs| && i in gs[g].indexes ensures i !in gs[h].indexes {
      if i in gs[h].indexes {
        assert GroupOk(gs[g], requests, owners, slotOf, |requests|)
            && GroupOk(gs[h], requests, owners, slotOf, |requests|);
        BeforeIrreflexive(gs[g].node);
      }
    }
  }

  /** Keep one group's answers. */
  method Accept(
    requests: seq<KeyRequest>, pending: seq<KeyRequest>, indexes: seq<nat>, g: Group, decoded: array<KeyAllocation>,
    done: array<bool>, allocations: array<KeyAllocation>, ghost accepted0: set<nat>,
    ghost doneAtStart: seq<bool>, ghost allocationsAtStart: seq<KeyAllocation>) returns (ghost accepted: set<nat>)
    requires done.Length == allocations.Length == |requests| && |pending| == |indexes| == decoded.Length
    requires decoded != allocations
    requires forall k | 0 <= k < |indexes| :: indexes[k] < |requests| && pending[k] == requests[indexes[k]]
    requires Indexes(g, |pending|) && Delivered(pending, g, decoded[..])
    requires Advances(requests, doneAtStart, done[..], allocationsAtStart, allocations[..], accepted0)
    modifies done, allocations
    ensures Advances(requests, doneAtStart, done[..], allocationsAtStart, allocations[..], accepted)
    ensures accepted == accepted0 + set j | 0 <= j < |g.indexes| :: indexes[g.indexes[j]]
  {
    accepted := accepted0;
    var j := 0;
    while j < |g.indexes|
      invariant 0 <= j <= |g.indexes|
      invariant Advances(requests, doneAtStart, done[..], allocationsAtStart, allocations[..], accepted)
      invariant accepted == accepted0 + set k | 0 <= k < j :: indexes[g.indexes[k]]
      invariant decoded[..] == old(decoded[..])
    {
      var at := g.indexes[j];
      assert at in g.indexes && Fulfils(decoded[..][at], pending[at]);
      var original := indexes[at];
      allocations[original] := decoded[at];
      done[original] := true;
      accepted := accepted + {original};
      j := j + 1;
    }
  }

  /** What the network and the route do in one attempt: how the first load of the route fails, if it has to be made
      and does, who owns each slot, and what each owner answers. Responses may arrive in any order. */
  datatype World = World(load: Option<Action>, owners: seq<Node>, reply: Group -> Reply, order: nat -> seq<nat>)

  ghost predicate Sane(w: World, slotOf: Key -> Slot) {
    Hashes(slotOf, |w.owners|) && forall n: nat :: Permutes(w.order(n), n)
  }

  /** Some group that ended well carries request `i`. */
  predicate Carried(groups: seq<Group>, indexes: seq<nat>, errors: seq<Option<Action>>, n: nat, i: nat)
    requires n <= |groups| == |errors|
  {
    exists g | 0 <= g < n && errors[g] == None :: Carries(groups[g], indexes, i)
  }

  predicate Carries(g: Group, indexes: seq<nat>, i: nat) {
    exists j | 0 <= j < |g.indexes| && g.indexes[j] < |indexes| :: indexes[g.indexes[j]] == i
  }

  lemma CarriedMore(groups: seq<Group>, indexes: seq<nat>, errors: seq<Option<Action>>, n: nat, i: nat)
    requires n < |groups| == |errors|
    ensures Carried(groups, indexes, errors, n + 1, i) <==>
      Carried(groups, indexes, errors, n, i) || (errors[n] == None && Carries(groups[n], indexes, i))
  {
    hide Carries;
    if errors[n] == None && Carries(groups[n], indexes, i) {
      assert Carries(groups[n], indexes, i);
    }
  }

  /** What the first `n` groups' endings leave the caller to do: nothing if all ended well, a refresh if any asks for
      one, and otherwise what the last failure asks for. */
  predicate Asked(errors: seq<Option<Action>>, n: nat, verdict: Option<Action>)
    requires n <= |errors|
  {
    && (verdict == None <==> forall g | 0 <= g < n :: errors[g] == None)
    && (verdict == Some(Refresh) <==> exists g :: 0 <= g < n && errors[g] == Some(Refresh))
    && (verdict.Some? && verdict != Some(Refresh) ==>
          exists g :: 0 <= g < n && errors[g] == verdict && forall h | g < h < n :: errors[h] == None)
  }

  lemma AskedMore(errors: seq<Option<Action>>, n: nat, verdict: Option<Action>, current: Action)
    requires n < |errors| && Asked(errors, n, verdict) && (if verdict.Some? then verdict == Some(current)
                                                             else current == Backoff)
    ensures Asked(errors, n + 1, if errors[n].Some? then Some(Prefer(current, errors[n].value)) else verdict)
  {
    if errors[n] == Some(Refresh) {
      assert errors[n] == Some(Refresh);
    } else if errors[n].Some? && current != Refresh {
      assert Prefer(current, errors[n].value) == errors[n].value;
    }
  }

  /** Keep the answers of every group that succeeded. */
  method AcceptGroups(
    requests: seq<KeyRequest>, pending: seq<KeyRequest>, indexes: seq<nat>, groups: seq<Group>,
    errors: seq<Option<Action>>, decoded: array<KeyAllocation>, done: array<bool>, allocations: array<KeyAllocation>,
    ghost doneAtStart: seq<bool>)
    returns (verdict: Option<Action>, ghost accepted: set<nat>)
    requires done.Length == allocations.Length == |requests| && |pending| == |indexes| == decoded.Length
    requires decoded != allocations && |errors| == |groups|
    requires forall k | 0 <= k < |indexes| :: indexes[k] < |requests| && pending[k] == requests[indexes[k]]
    requires forall g | 0 <= g < |groups| :: Indexes(groups[g], |pending|)
    requires forall g | 0 <= g < |groups| && errors[g] == None :: Delivered(pending, groups[g], decoded[..])
    requires Settled(requests, done[..], allocations[..]) && doneAtStart == done[..]
    modifies done, allocations
    ensures Advances(requests, doneAtStart, done[..], old(allocations[..]), allocations[..], accepted)
    ensures forall i :: i in accepted <==> Carried(groups, indexes, errors, |groups|, i)
    ensures Asked(errors, |errors|, verdict)
  {
    ghost var start := allocations[..];
    accepted := {};
    verdict := None;
    var action := Backoff;
    var g := 0;
    hide Delivered, Advances, Asked, Carries;
    AdvancesNone(requests, done[..], allocations[..]);
    AskedNone(errors);
    while g < |groups|
      invariant 0 <= g <= |groups|
      invariant Advances(requests, doneAtStart, done[..], start, allocations[..], accepted)
      invariant decoded[..] == old(decoded[..])
      invariant forall i :: i in accepted <==> Carried(groups, indexes, errors, g, i)
      invariant Asked(errors, g, verdict)
      invariant if verdict.Some? then verdict == Some(action) else action == Backoff
    {
      AskedMore(errors, g, verdict, action);
      forall i: nat {
        CarriedMore(groups, indexes, errors, g, i);
      }
      if errors[g].Some? {
        action := Prefer(action, errors[g].value);
        verdict := Some(action);
      } else {
        ghost var before := accepted;
        accepted := Accept(
          requests, pending, indexes, groups[g], decoded, done, allocations, accepted, doneAtStart, start);
        CarriedBy(groups[g], indexes, before, accepted);
      }
      g := g + 1;
    }
  }

  lemma AskedNone(errors: seq<Option<Action>>)
    ensures Asked(errors, 0, None)
  {
  }

  lemma CarriedBy(g: Group, indexes: seq<nat>, before: set<nat>, after: set<nat>)
    requires Indexes(g, |indexes|)
    requires after == before + set j | 0 <= j < |g.indexes| :: indexes[g.indexes[j]]
    ensures forall i :: i in after <==> i in before || Carries(g, indexes, i)
  {
  }

  lemma AdvancesNone(requests: seq<KeyRequest>, done: seq<bool>, allocations: seq<KeyAllocation>)
    requires Settled(requests, done, allocations)
    ensures Advances(requests, done, done, allocations, allocations, {})
  {
  }

  /** The group's server answered every one of its requests as asked. */
  predicate Honoured(pending: seq<KeyRequest>, g: Group, reply: Reply) {
    reply.Replied? && Honours(pending, g, reply.results)
  }

  /** No other attempt is worth making: the server said so, or its answer is malformed. */
  predicate Final(pending: seq<KeyRequest>, g: Group, reply: Reply) {
    reply == Failed(Never) || (reply.Replied? && !Honours(pending, g, reply.results))
  }

  /** What an attempt that asked `groups` keeps and what it leaves the caller to do. One final reply voids the attempt;
      otherwise every honoured group is kept, and a refresh is asked for if any server asks for one, and what the last
      failing server asks for if none does. */
  ghost predicate JudgedOn(
    pending: seq<KeyRequest>, indexes: seq<nat>, groups: seq<Group>, reply: Group -> Reply, accepted: set<nat>,
    verdict: Option<Action>)
  {
    if exists g :: 0 <= g < |groups| && Final(pending, groups[g], reply(groups[g])) then
      accepted == {} && verdict == Some(Never)
    else
      && (forall i :: i in accepted <==>
            exists g :: 0 <= g < |groups| && Honoured(pending, groups[g], reply(groups[g]))
                        && Carries(groups[g], indexes, i))
      && (verdict == None <==> forall g | 0 <= g < |groups| :: Honoured(pending, groups[g], reply(groups[g])))
      && (verdict == Some(Refresh) <==> exists g :: 0 <= g < |groups| && reply(groups[g]) == Failed(Refresh))
      && (verdict.Some? && verdict != Some(Refresh) ==>
            exists g :: 0 <= g < |groups| && reply(groups[g]) == Failed(verdict.value)
                        && forall h | g < h < |groups| :: Honoured(pending, groups[h], reply(groups[h])))
  }

  /** What an attempt at the requests `left` comes to. Without a route, or with a slot nobody owns, nothing is sent;
      otherwise exactly what is left is, grouped by owner. */
  ghost predicate Judged(
    requests: seq<KeyRequest>, left: set<nat>, w: World, slotOf: Key -> Slot, sent: set<nat>, accepted: set<nat>,
    verdict: Option<Action>)
    requires Hashes(slotOf, |w.owners|) && forall k | 0 <= k < |Kept(left, |requests|)| ::
      Kept(left, |requests|)[k] < |requests|
  {
    var indexes := Kept(left, |requests|);
    var pending := Picked(requests, indexes);
    if w.load.Some? then sent == {} && accepted == {} && verdict == w.load
    else if exists k :: 0 <= k < |pending| && OwnerOf(w.owners, slotOf, pending[k].key) == "" then
      sent == {} && accepted == {} && verdict == Some(Refresh)
    else
      && sent == left
      && exists groups ::
           Partition(groups, pending, w.owners, slotOf)
           && JudgedOn(pending, indexes, groups, w.reply, accepted, verdict)
  }

  lemma EndingIs(pending: seq<KeyRequest>, g: Group, reply: Reply)
    ensures Ending(pending, g, reply) == Some(Never) <==> Final(pending, g, reply)
    ensures Ending(pending, g, reply) == None <==> Honoured(pending, g, reply)
    ensures forall action | action != Never :: Ending(pending, g, reply) == Some(action) <==> reply == Failed(action)
  {
    hide Honours;
  }

  lemma Judges(
    pending: seq<KeyRequest>, indexes: seq<nat>, groups: seq<Group>, reply: Group -> Reply,
    errors: seq<Option<Action>>, accepted: set<nat>, verdict: Option<Action>)
    requires |errors| == |groups|
    requires forall g | 0 <= g < |groups| :: errors[g] == Ending(pending, groups[g], reply(groups[g]))
    requires forall g | 0 <= g < |groups| :: errors[g] != Some(Never)
    requires forall i :: i in accepted <==> Carried(groups, indexes, errors, |groups|, i)
    requires Asked(errors, |errors|, verdict)
    ensures JudgedOn(pending, indexes, groups, reply, accepted, verdict)
  {
    hide Carries;
    forall g | 0 <= g < |groups|
      ensures errors[g] == None <==> Honoured(pending, groups[g], reply(groups[g]))
      ensures !Final(pending, groups[g], reply(groups[g]))
      ensures forall action | action != Never :: errors[g] == Some(action) <==> reply(groups[g]) == Failed(action)
    {
      EndingIs(pending, groups[g], reply(groups[g]));
    }
    hide Ending, Honoured, Final;
  }

  /** One round: group what is left by the current owners, ask each owner once, keep what came back. */
  method Attempt(
    requests: seq<KeyRequest>, done: array<bool>, allocations: array<KeyAllocation>, w: World, slotOf: Key -> Slot)
    returns (verdict: Option<Action>, sent: set<nat>, ghost accepted: set<nat>)
    requires done.Length == allocations.Length == |requests| && Sane(w, slotOf)
    requires Settled(requests, done[..], allocations[..])
    modifies done, allocations
    ensures Advances(requests, old(done[..]), done[..], old(allocations[..]), allocations[..], accepted)
    ensures forall k | 0 <= k < |Kept(Undone(old(done[..])), |requests|)| ::
      Kept(Undone(old(done[..])), |requests|)[k] < |requests|
    ensures Judged(requests, Undone(old(done[..])), w, slotOf, sent, accepted, verdict)
  {
    hide Advances, Settled, Asked, Carried, JudgedOn, Partition, Ending, Delivered, Disjoint, Indexes;
    ghost var start, left := done[..], Undone(done[..]);
    AdvancesNone(requests, done[..], allocations[..]);
    KeptBelow(left, |requests|);
    sent, accepted := {}, {};
    if w.load.Some? {
      return w.load, {}, {};
    }
    var pending, indexes := CollectPending(requests, done);
    assert pending == Picked(requests, indexes);
    var grouped := GroupKeyRequests(pending, w.owners, slotOf);
    if grouped.Err? {
      return Some(Refresh), {}, {};
    }
    var groups := grouped.value;
    PartitionShape(groups, pending, w.owners, slotOf);
    var replies := seq(|groups|, g requires 0 <= g < |groups| => w.reply(groups[g]));
    var decoded := new KeyAllocation[|pending|](_ => KeyAllocation("", 0, 0));
    var errors, fatal := FetchGroups(pending, groups, replies, w.order(|groups|), decoded);
    sent := set i | i in indexes;
    assert sent == left;
    if fatal {
      JudgedFatal(pending, indexes, groups, w.reply, errors);
      return Some(Never), sent, {};
    }
    verdict, accepted := AcceptGroups(
      requests, pending, indexes, groups, errors, decoded, done, allocations, start);
    Judges(pending, indexes, groups, w.reply, errors, accepted, verdict);
  }

  lemma JudgedFatal(
    pending: seq<KeyRequest>, indexes: seq<nat>, groups: seq<Group>, reply: Group -> Reply,
    errors: seq<Option<Action>>)
    requires |errors| == |groups| && exists g :: 0 <= g < |groups| && errors[g] == Some(Never)
    requires forall g | 0 <= g < |groups| :: errors[g] == Ending(pending, groups[g], reply(groups[g]))
    ensures JudgedOn(pending, indexes, groups, reply, {}, Some(Never))
  {
    var g :| 0 <= g < |groups| && errors[g] == Some(Never);
    EndingIs(pending, groups[g], reply(groups[g]));
    hide Ending, Final;
    assert Final(pending, groups[g], reply(groups[g]));
  }

  lemma JudgedKeeps(
    pending: seq<KeyRequest>, indexes: seq<nat>, groups: seq<Group>, reply: Group -> Reply, accepted: set<nat>,
    verdict: Option<Action>, left: set<nat>)
    requires JudgedOn(pending, indexes, groups, reply, accepted, verdict)
    requires forall k | 0 <= k < |indexes| :: indexes[k] in left
    ensures accepted <= left
  {
    hide Honoured, Final;
  }

  lemma JudgedAll(
    requests: seq<KeyRequest>, pending: seq<KeyRequest>, indexes: seq<nat>, groups: seq<Group>, w: World,
    slotOf: Key -> Slot, accepted: set<nat>, k: nat)
    requires Hashes(slotOf, |w.owners|) && Partition(groups, pending, w.owners, slotOf) && |pending| == |indexes|
    requires JudgedOn(pending, indexes, groups, w.reply, accepted, None) && k < |indexes|
    ensures indexes[k] in accepted
  {
    hide Honoured, Final;
    var g := PartitionExact(groups, pending, w.owners, slotOf, k);
    hide Partition;
    var j :| 0 <= j < |groups[g].indexes| && groups[g].indexes[j] == k;
    assert Carries(groups[g], indexes, indexes[k]);
  }

  /** An attempt keeps only what it sent, sends all that is left or nothing, and comes to no error only by keeping all
      that was left. */
  lemma {:induction false} JudgedFacts(
    requests: seq<KeyRequest>, left: set<nat>, w: World, slotOf: Key -> Slot, sent: set<nat>, accepted: set<nat>,
    verdict: Option<Action>)
    requires Hashes(slotOf, |w.owners|) && forall i | i in left :: i < |requests|
    requires forall k | 0 <= k < |Kept(left, |requests|)| :: Kept(left, |requests|)[k] < |requests|
    requires Judged(requests, left, w, slotOf, sent, accepted, verdict)
    ensures accepted <= sent && (sent == {} || sent == left)
    ensures verdict == None ==> accepted == left
  {
    KeptBelow(left, |requests|);
    var indexes := Kept(left, |requests|);
    var pending := Picked(requests, indexes);
    hide Kept, Partition, Picked, Carries, Hashes;
    if sent != {} || accepted != {} || verdict == None {
      var groups: seq<Group> :| Partition(groups, pending, w.owners, slotOf)
                    && JudgedOn(pending, indexes, groups, w.reply, accepted, verdict);
      hide JudgedOn;
      JudgedKeeps(pending, indexes, groups, w.reply, accepted, verdict, left);
      if verdict == None {
        forall i | i in left ensures i in accepted {
          var k :| 0 <= k < |indexes| && indexes[k] == i;
          JudgedAll(requests, pending, indexes, groups, w, slotOf, accepted, k);
        }
      }
    }
  }

  // ------------------------------------------------------------------
  // The retry budget.

  /** One round of the budget: the call was cancelled before it, or its refresh of the route failed, or an attempt was
      made, after which the call may also turn out to have been cancelled. */
  datatype Round =
    | Stopped
    | Unrefreshed(action: Action)
    | Tried(sent: set<nat>, accepted: set<nat>, verdict: Option<Action>, late: bool)
  {
    function Sent(): set<nat> {
      if Tried? then sent else {}
    }

    function Accepted(): set<nat> {
      if Tried? then accepted else {}
    }

    /** What the round's error asks for. */
    function Asks(): Option<Action> {
      match this
      case Stopped => None
      case Unrefreshed(action) => Some(action)
      case Tried(_, _, verdict, _) => verdict
    }

    predicate Succeeds() {
      Tried? && verdict == None && !late
    }

    /** The call ends here with an error: cancelled, or told that no other attempt is worth making. */
    predicate Fails() {
      Stopped? || (Tried? && late) || Asks() == Some(Never)
    }
  }

  function Answered(rounds: seq<Round>): set<nat> {
    if rounds == [] then {} else Answered(rounds[..|rounds| - 1]) + rounds[|rounds| - 1].Accepted()
  }

  /** The indexes, of `n`, that no round has answered. */
  function Left(rounds: seq<Round>, n: nat): set<nat> {
    set i | 0 <= i < n && i !in Answered(rounds)
  }

  /** What the world may do to a whole call: fail a refresh or cancel the call, before or during any attempt. */
  datatype Script = Script(
    world: nat -> World, cancelled: nat -> bool, late: nat -> bool, refresh: nat -> Option<Action>)

  ghost predicate Orderly(script: Script, slotOf: Key -> Slot) {
    forall a: nat :: Sane(script.world(a), slotOf)
  }

  lemma {:induction false} LeftKept(rounds: seq<Round>, n: nat)
    ensures forall k | 0 <= k < |Kept(Left(rounds, n), n)| :: Kept(Left(rounds, n), n)[k] < n
  {
    KeptBelow(Left(rounds, n), n);
  }

  /** Round `a` went as the script has it: it was cancelled, or a refresh that the round before had asked for failed, or
      what was left was tried. */
  ghost predicate Plays(requests: seq<KeyRequest>, script: Script, slotOf: Key -> Slot, rounds: seq<Round>, a: nat)
    requires Orderly(script, slotOf) && a < |rounds|
  {
    if script.cancelled(a) then rounds[a] == Stopped
    else if a > 0 && rounds[a - 1].Asks() == Some(Refresh) && script.refresh(a).Some? then
      rounds[a] == Unrefreshed(script.refresh(a).value)
    else
      && rounds[a].Tried? && rounds[a].late == script.late(a)
      && (LeftKept(rounds[..a], |requests|);
          Judged(requests, Left(rounds[..a], |requests|), script.world(a), slotOf, rounds[a].sent, rounds[a].accepted,
                 rounds[a].verdict))
  }

  /** The rounds are those of the script, up to the first that succeeds or fails and no more than the budget. */
  ghost predicate Played(
    requests: seq<KeyRequest>, script: Script, slotOf: Key -> Slot, maxAttempts: nat, rounds: seq<Round>)
    requires Orderly(script, slotOf)
  {
    && 0 < |rounds| <= maxAttempts
    && (forall a | 0 <= a < |rounds| :: Plays(requests, script, slotOf, rounds, a))
    && (forall a: nat | a + 1 < |rounds| :: !rounds[a].Succeeds() && !rounds[a].Fails())
    && (|rounds| == maxAttempts || rounds[|rounds| - 1].Succeeds() || rounds[|rounds| - 1].Fails())
  }

  lemma {:induction false} AnsweredGrows(rounds: seq<Round>, a: nat, b: nat)
    requires a < b <= |rounds|
    ensures rounds[a].Accepted() <= Answered(rounds[..b])
    decreases b
  {
    assert rounds[..b][..b - 1] == rounds[..b - 1];
    if a < b - 1 {
      AnsweredGrows(rounds, a, b - 1);
    }
  }

  /** A round sends nothing, or exactly what no earlier round has answered. */
  lemma {:induction false} SendsWhatIsLeft(
    requests: seq<KeyRequest>, script: Script, slotOf: Key -> Slot, rounds: seq<Round>, a: nat)
    requires Orderly(script, slotOf) && a < |rounds| && Plays(requests, script, slotOf, rounds, a)
    ensures rounds[a].Accepted() <= rounds[a].Sent()
    ensures rounds[a].Sent() == {} || rounds[a].Sent() == Left(rounds[..a], |requests|)
    ensures rounds[a].Tried? && rounds[a].verdict == None ==>
      rounds[a].accepted == Left(rounds[..a], |requests|)
  {
    hide Judged, Kept, Permutes;
    if rounds[a].Tried? {
      LeftKept(rounds[..a], |requests|);
      JudgedFacts(requests, Left(rounds[..a], |requests|), script.world(a), slotOf, rounds[a].sent,
                  rounds[a].accepted, rounds[a].verdict);
    }
  }

  /** A key accepted in one round is never sent in a later one. */
  lemma {:induction false} NeverSentAgain(
    requests: seq<KeyRequest>, script: Script, slotOf: Key -> Slot, maxAttempts: nat, rounds: seq<Round>,
    a: nat, b: nat)
    requires Orderly(script, slotOf) && Played(requests, script, slotOf, maxAttempts, rounds) && a < b < |rounds|
    ensures rounds[a].Accepted() !! rounds[b].Sent()
  {
    hide Plays;
    AnsweredGrows(rounds, a, b);
    SendsWhatIsLeft(requests, script, slotOf, rounds, b);
  }

  /** The attempt finds a route, an owner for every request that is left, and every owner answering as asked. */
  ghost predicate Favourable(requests: seq<KeyRequest>, left: set<nat>, w: World, slotOf: Key -> Slot)
    requires Hashes(slotOf, |w.owners|) && forall k | 0 <= k < |Kept(left, |requests|)| ::
      Kept(left, |requests|)[k] < |requests|
  {
    var pending := Picked(requests, Kept(left, |requests|));
    && w.load == None
    && (forall k | 0 <= k < |pending| :: OwnerOf(w.owners, slotOf, pending[k].key) != "")
    && (forall groups, g | Partition(groups, pending, w.owners, slotOf) && 0 <= g < |groups| ::
          Honoured(pending, groups[g], w.reply(groups[g])))
  }

  /** The call does not give up early: if round `a` is within the budget and no round before it fails, and round `a` is
      neither cancelled nor without its route and finds every owner answering, the call succeeds. */
  lemma {:induction false} FavourableRoundSucceeds(
    requests: seq<KeyRequest>, script: Script, slotOf: Key -> Slot, maxAttempts: nat, rounds: seq<Round>, a: nat)
    requires Orderly(script, slotOf) && Played(requests, script, slotOf, maxAttempts, rounds) && a < maxAttempts
    requires forall b | 0 <= b < |rounds| && b < a :: !rounds[b].Fails()
    requires !script.cancelled(a) && !script.late(a) && script.refresh(a) == None
    requires a < |rounds| ==>
      (LeftKept(rounds[..a], |requests|);
       Favourable(requests, Left(rounds[..a], |requests|), script.world(a), slotOf))
    ensures rounds[|rounds| - 1].Succeeds()
  {
    hide Judged, Kept, Permutes, Favourable, Left;
    if a < |rounds| {
      assert Plays(requests, script, slotOf, rounds, a);
      LeftKept(rounds[..a], |requests|);
      var left := Left(rounds[..a], |requests|);
      FavourableVerdict(requests, left, script.world(a), slotOf, rounds[a].sent, rounds[a].accepted, rounds[a].verdict);
    }
  }

  lemma {:induction false} FavourableVerdict(
    requests: seq<KeyRequest>, left: set<nat>, w: World, slotOf: Key -> Slot, sent: set<nat>, accepted: set<nat>,
    verdict: Option<Action>)
    requires Hashes(slotOf, |w.owners|)
    requires forall k | 0 <= k < |Kept(left, |requests|)| :: Kept(left, |requests|)[k] < |requests|
    requires Favourable(requests, left, w, slotOf) && Judged(requests, left, w, slotOf, sent, accepted, verdict)
    ensures verdict == None
  {
    var indexes := Kept(left, |requests|);
    var pending := Picked(requests, indexes);
    hide Kept, Picked, Partition, Honours, Carries;
    var groups: seq<Group> :| Partition(groups, pending, w.owners, slotOf)
                  && JudgedOn(pending, indexes, groups, w.reply, accepted, verdict);
    forall g | 0 <= g < |groups|
      ensures Honoured(pending, groups[g], w.reply(groups[g])) && !Final(pending, groups[g], w.reply(groups[g]))
    {
    }
  }

  lemma PlaysLonger(
    requests: seq<KeyRequest>, script: Script, slotOf: Key -> Slot, rounds: seq<Round>, round: Round, a: nat)
    requires Orderly(script, slotOf) && a < |rounds| && Plays(requests, script, slotOf, rounds, a)
    ensures Plays(requests, script, slotOf, rounds + [round], a)
  {
    hide Judged, Kept, Sane, Left;
    assert (rounds + [round])[..a] == rounds[..a];
  }

  /** The rounds so far, none of which ended the call. */
  ghost predicate Playing(requests: seq<KeyRequest>, script: Script, slotOf: Key -> Slot, rounds: seq<Round>)
    requires Orderly(script, slotOf)
  {
    forall a | 0 <= a < |rounds| ::
      Plays(requests, script, slotOf, rounds, a) && !rounds[a].Succeeds() && !rounds[a].Fails()
  }

  lemma PlayingMore(
    requests: seq<KeyRequest>, script: Script, slotOf: Key -> Slot, rounds: seq<Round>, round: Round, maxAttempts: nat)
    requires Orderly(script, slotOf) && Playing(requests, script, slotOf, rounds) && |rounds| < maxAttempts
    requires Plays(requests, script, slotOf, rounds + [round], |rounds|)
    ensures if round.Succeeds() || round.Fails() then Played(requests, script, slotOf, maxAttempts, rounds + [round])
            else Playing(requests, script, slotOf, rounds + [round])
  {
    hide Plays;
    forall a | 0 <= a < |rounds| ensures Plays(requests, script, slotOf, rounds + [round], a) {
      PlaysLonger(requests, script, slotOf, rounds, round, a);
    }
  }

  lemma PlayedOut(requests: seq<KeyRequest>, script: Script, slotOf: Key -> Slot, rounds: seq<Round>)
    requires Orderly(script, slotOf) && |rounds| > 0 && Playing(requests, script, slotOf, rounds)
    ensures Played(requests, script, slotOf, |rounds|, rounds) && !rounds[|rounds| - 1].Succeeds()
  {
    hide Plays;
  }

  function Normals(requests: seq<KeyRequest>): seq<KeyRequest> {
    seq(|requests|, i requires 0 <= i < |requests| => Normal(requests[i]))
  }

  /** Every requested block or a whole-batch error, within the attempt budget. The rounds are those that the script
      prescribes, and the call succeeds exactly when the last of them does. */
  method FetchNextBatch(requests: seq<KeyRequest>, script: Script, slotOf: Key -> Slot, maxAttempts: nat)
    returns (r: Result<seq<KeyAllocation>>, ghost rounds: seq<Round>)
    requires maxAttempts >= 1 && Orderly(script, slotOf)
    ensures !Acceptable(requests) ==> r == Err(InvalidRequest) && rounds == []
    ensures Acceptable(requests) ==>
      && Played(Normals(requests), script, slotOf, maxAttempts, rounds)
      && (r.Ok? <==> rounds[|rounds| - 1].Succeeds())
    ensures r.Ok? ==> |r.value| == |requests| && forall i | 0 <= i < |requests| ::
      && r.value[i].key == requests[i].key && r.value[i].firstId > 0
      && r.value[i].count == (if requests[i].count == 0 then 1 else requests[i].count)
  {
    hide Undone, Sane, Kept, Plays, Judged, Played;
    rounds := [];
    var checked := NormalizeKeyRequests(requests);
    if checked.Err? {
      return Err(checked.error), rounds;
    }
    var normalized := checked.value;
    assert normalized == Normals(requests);
    var n := |normalized|;
    var allocations := new KeyAllocation[n](_ => KeyAllocation("", 0, 0));
    var done := new bool[n](_ => false);
    NoneDone(done[..]);
    var last: Option<Action> := None;
    var attempt := 0;
    while attempt < maxAttempts
      invariant 0 <= attempt <= maxAttempts && |rounds| == attempt
      invariant Settled(normalized, done[..], allocations[..]) && Undone(done[..]) == Left(rounds, n)
      invariant Playing(normalized, script, slotOf, rounds)
      invariant attempt > 0 ==> last == rounds[attempt - 1].Asks()
    {
      ghost var before := rounds;
      if script.cancelled(attempt) {
        rounds := rounds + [Stopped];
        PlaysStopped(normalized, script, slotOf, before);
        PlayingMore(normalized, script, slotOf, before, Stopped, maxAttempts);
        return Err(StorageFailure), rounds;
      }
      var refresh := if attempt > 0 && last == Some(Refresh) then script.refresh(attempt) else None;
      if refresh.Some? {
        rounds := rounds + [Unrefreshed(refresh.value)];
        PlaysUnrefreshed(normalized, script, slotOf, before, refresh.value);
        PlayingMore(normalized, script, slotOf, before, Unrefreshed(refresh.value), maxAttempts);
        if refresh == Some(Never) {
          return Err(StorageFailure), rounds;
        }
        last := refresh;
      } else {
        var verdict, sent;
        ghost var accepted, start := {}, done[..];
        verdict, sent, accepted := Attempt(normalized, done, allocations, script.world(attempt), slotOf);
        ghost var round := Tried(sent, accepted, verdict, script.late(attempt));
        rounds := rounds + [round];
        PlaysTried(normalized, script, slotOf, before, round);
        PlayingMore(normalized, script, slotOf, before, round, maxAttempts);
        UndoneAfter(start, done[..], accepted);
        if script.late(attempt) {
          return Err(StorageFailure), rounds;
        }
        last := verdict;
        if verdict == None {
          SendsWhatIsLeft(normalized, script, slotOf, rounds, attempt);
          NoneUndone(done[..]);
          return Ok(allocations[..]), rounds;
        }
        if verdict == Some(Never) {
          return Err(StorageFailure), rounds;
        }
      }
      attempt := attempt + 1;
    }
    PlayedOut(normalized, script, slotOf, rounds);
    return Err(StorageFailure), rounds;
  }

  lemma NoneDone(done: seq<bool>)
    requires forall i | 0 <= i < |done| :: !done[i]
    ensures Undone(done) == Left([], |done|)
  {
  }

  lemma PlaysStopped(requests: seq<KeyRequest>, script: Script, slotOf: Key -> Slot, rounds: seq<Round>)
    requires Orderly(script, slotOf) && script.cancelled(|rounds|)
    ensures Plays(requests, script, slotOf, rounds + [Stopped], |rounds|)
  {
  }

  lemma PlaysUnrefreshed(
    requests: seq<KeyRequest>, script: Script, slotOf: Key -> Slot, rounds: seq<Round>, action: Action)
    requires Orderly(script, slotOf) && !script.cancelled(|rounds|)
    requires |rounds| > 0 && rounds[|rounds| - 1].Asks() == Some(Refresh) && script.refresh(|rounds|) == Some(action)
    ensures Plays(requests, script, slotOf, rounds + [Unrefreshed(action)], |rounds|)
  {
  }

  lemma {:induction false} PlaysTried(
    requests: seq<KeyRequest>, script: Script, slotOf: Key -> Slot, rounds: seq<Round>, round: Round)
    requires Orderly(script, slotOf) && !script.cancelled(|rounds|) && round.Tried?
    requires round.late == script.late(|rounds|)
    requires |rounds| > 0 && rounds[|rounds| - 1].Asks() == Some(Refresh) ==> script.refresh(|rounds|) == None
    requires forall k | 0 <= k < |Kept(Left(rounds, |requests|), |requests|)| ::
      Kept(Left(rounds, |requests|), |requests|)[k] < |requests|
    requires Judged(requests, Left(rounds, |requests|), script.world(|rounds|), slotOf, round.sent, round.accepted,
                    round.verdict)
    ensures Plays(requests, script, slotOf, rounds + [round], |rounds|)
  {
    hide Judged, Kept, Sane, Left;
    assert (rounds + [round])[..|rounds|] == rounds;
  }

  lemma NoneUndone(done: seq<bool>)
    requires Undone(done) == {}
    ensures forall i | 0 <= i < |done| :: done[i]
  {
    assert forall i | 0 <= i < |done| && !done[i] :: i in Undone(done);
  }

  lemma UndoneAfter(before: seq<bool>, after: seq<bool>, accepted: set<nat>)
    requires |after| == |before| && forall i | 0 <= i < |before| :: after[i] <==> before[i] || i in accepted
    ensures Undone(after) == Undone(before) - accepted
  {
  }

  // ------------------------------------------------------------------
  // Backoff.

  function Doubled(initial: nat, n: nat): nat {
    if n == 0 then initial else 2 * Doubled(initial, n - 1)
  }

  function Min(a: nat, b: nat): nat {
    if a <= b then a else b
  }

  lemma {:induction false} DoubledRises(initial: nat, m: nat, n: nat)
    requires m <= n
    ensures Doubled(initial, m) <= Doubled(initial, n)
    decreases n
  {
    if m < n {
      DoubledRises(initial, m, n - 1);
    }
  }

  /** The delay before an attempt: initial backoff doubled per attempt and capped, less at most half of it, and never
      under the minimum asked for. `jitter(n)` is a random share of `n`. */
  method RetryDelay(initial: nat, cap: nat, attempt: nat, minimum: nat, jitter: nat -> nat) returns (delay: nat)
    requires 0 < initial <= cap && attempt >= 1 && forall n: nat :: jitter(n) <= n
    ensures var base := Min(cap, Doubled(initial, attempt - 1));
      && delay == Max(base / 2 + jitter(base - base / 2), minimum)
      && Max(base / 2, minimum) <= delay <= Max(base, minimum)
  {
    delay := initial;
    var index := 1;
    while index < attempt && delay < cap
      invariant 1 <= index <= attempt
      invariant delay == Min(cap, Doubled(initial, index - 1))
    {
      if delay > cap / 2 {
        delay := cap;
      } else {
        delay := delay * 2;
      }
      index := index + 1;
    }
    DoubledRises(initial, index - 1, attempt - 1);
    var half := delay / 2;
    delay := half + jitter(delay - half);
    delay := Max(delay, minimum);
  }
}
