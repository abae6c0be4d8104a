/** The published directory: encoding, decoding, lookup and the client's compiled tables. */
module Route {
  import opened Tables

  /** One run of the ownership view. Slots are 0..size-1; both ends are included. */
  datatype OwnershipSegment = OwnershipSegment(
    start: nat,
    end: nat,
    node: Node,
    instance: Instance,
    epoch: nat,
    state: SlotState,
    grantAgeKnown: bool,
    overdue: bool,
    releaseReady: bool)

  datatype Segment = Segment(start: nat, end: nat, node: Node, instance: Instance, epoch: nat)

  /** The stored payload; its serialised form is taken to round-trip. */
  datatype Payload = Payload(layout: int, segments: seq<Segment>)

  datatype Directory = Directory(version: int, layout: int, segments: seq<Segment>)

  /** What a directory says of one slot. */
  datatype Owner = Owner(node: Node, instance: Instance, epoch: nat)

  function OwnerOf(s: Segment): Owner {
    Owner(s.node, s.instance, s.epoch)
  }

  function Plain(s: OwnershipSegment): Segment {
    Segment(s.start, s.end, s.node, s.instance, s.epoch)
  }

  // ------------------------------------------------------------------
  // Meaning.

  function Repeat(o: Owner, n: nat): (r: seq<Owner>)
    ensures |r| == n && forall i | 0 <= i < n :: r[i] == o
  {
    seq(n, _ => o)
  }

  function Length(s: Segment): nat {
    if s.end < s.start then 0 else s.end - s.start + 1
  }

  /** The owner of every slot, in slot order. */
  function Expand(segments: seq<Segment>): seq<Owner> {
    if segments == [] then []
    else
      var last := segments[|segments| - 1];
      Expand(segments[..|segments| - 1]) + Repeat(OwnerOf(last), Length(last))
  }

  function Plains(view: seq<OwnershipSegment>): (r: seq<Segment>)
    ensures |r| == |view| && forall i | 0 <= i < |view| :: r[i] == Plain(view[i])
  {
    seq(|view|, i requires 0 <= i < |view| => Plain(view[i]))
  }

  /** Runs are non-empty, contiguous from slot 0, and inside the space. */
  predicate Contiguous(segments: seq<Segment>, size: nat) {
    && (forall i | 0 <= i < |segments| :: segments[i].start <= segments[i].end < size)
    && (segments != [] ==> segments[0].start == 0)
    && (forall i | 0 < i < |segments| :: segments[i].start == segments[i - 1].end + 1)
  }

  /** The first slot the list does not reach. */
  function Next(segments: seq<Segment>): nat {
    if segments == [] then 0 else segments[|segments| - 1].end + 1
  }

  predicate Covers(segments: seq<Segment>, size: nat) {
    Contiguous(segments, size) && Next(segments) == size
  }

  /** No two neighbours tell the same story. */
  predicate Maximal(segments: seq<Segment>) {
    forall i | 0 < i < |segments| :: OwnerOf(segments[i]) != OwnerOf(segments[i - 1])
  }

  predicate Authority(s: Segment) {
    && (s.node == "" <==> s.instance == "")
    && (s.node != "" ==> s.epoch != 0)
  }

  predicate ValidSegment(s: OwnershipSegment) {
    match s.state
    case Unowned => s.node == "" && s.instance == ""
    case _ => s.node != "" && s.instance != "" && s.epoch != 0 && s.grantAgeKnown
  }

  /** A complete view, as ValidateOwnershipSegments accepts it. */
  predicate ValidView(view: seq<OwnershipSegment>, size: nat) {
    Covers(Plains(view), size) && forall i | 0 <= i < |view| :: ValidSegment(view[i])
  }

  // ------------------------------------------------------------------
  // Expansion.

  lemma {:induction false} ExpandLength(segments: seq<Segment>, size: nat)
    requires Contiguous(segments, size)
    ensures |Expand(segments)| == Next(segments)
  {
    if segments != [] {
      ExpandLength(segments[..|segments| - 1], size);
    }
  }

  /** A contiguous list says of each slot what the run around it says. */
  lemma {:induction false} ExpandAt(segments: seq<Segment>, size: nat, i: nat, slot: nat)
    requires Contiguous(segments, size) && i < |segments|
    requires segments[i].start <= slot <= segments[i].end
    ensures slot < |Expand(segments)| && Expand(segments)[slot] == OwnerOf(segments[i])
  {
    var front := segments[..|segments| - 1];
    ExpandLength(segments, size);
    ExpandLength(front, size);
    if i < |segments| - 1 {
      ExpandAt(front, size, i, slot);
    }
  }

  lemma {:induction false} StartsRise(segments: seq<Segment>, size: nat, i: nat, j: nat)
    requires Contiguous(segments, size) && i < j < |segments|
    ensures segments[i].end < segments[j].start
    decreases j
  {
    if i < j - 1 {
      StartsRise(segments, size, i, j - 1);
    }
  }

  lemma {:induction false} ExpandFront(segments: seq<Segment>, size: nat)
    requires Contiguous(segments, size) && segments != []
    ensures segments[|segments| - 1].start <= |Expand(segments)|
    ensures Expand(segments[..|segments| - 1]) == Expand(segments)[..segments[|segments| - 1].start]
  {
    ExpandLength(segments[..|segments| - 1], size);
  }

  /** The last run of one list cannot start before that of another maximal list saying the same. */
  lemma {:induction false} LastStart(a: seq<Segment>, b: seq<Segment>, size: nat)
    requires Contiguous(a, size) && Contiguous(b, size) && Maximal(b)
    requires Expand(a) == Expand(b) && a != [] && b != []
    ensures a[|a| - 1].end == b[|b| - 1].end
    ensures OwnerOf(a[|a| - 1]) == OwnerOf(b[|b| - 1])
    ensures a[|a| - 1].start >= b[|b| - 1].start
  {
    var p, q := a[|a| - 1], b[|b| - 1];
    ExpandLength(a, size);
    ExpandLength(b, size);
    ExpandAt(a, size, |a| - 1, p.end);
    ExpandAt(b, size, |b| - 1, q.end);
    if p.start < q.start {
      ExpandAt(a, size, |a| - 1, q.start - 1);
      ExpandAt(b, size, |b| - 2, q.start - 1);
    }
  }

  /** The last runs of two canonical lists saying the same are the same run. */
  lemma {:induction false} SameLast(a: seq<Segment>, b: seq<Segment>, size: nat)
    requires Contiguous(a, size) && Contiguous(b, size) && Maximal(a) && Maximal(b)
    requires Expand(a) == Expand(b) && a != [] && b != []
    ensures a[|a| - 1] == b[|b| - 1]
    ensures Expand(a[..|a| - 1]) == Expand(b[..|b| - 1])
  {
    LastStart(a, b, size);
    LastStart(b, a, size);
    ExpandFront(a, size);
    ExpandFront(b, size);
    hide Expand, Contiguous, Maximal;
  }

  lemma {:induction false} SameEmptiness(a: seq<Segment>, b: seq<Segment>, size: nat)
    requires Contiguous(a, size) && Contiguous(b, size) && Expand(a) == Expand(b)
    ensures a == [] <==> b == []
  {
    ExpandLength(a, size);
    ExpandLength(b, size);
    hide Expand;
  }

  lemma SameParts(a: seq<Segment>, b: seq<Segment>)
    requires a != [] && b != [] && a[|a| - 1] == b[|b| - 1] && a[..|a| - 1] == b[..|b| - 1]
    ensures a == b
  {
    assert a == a[..|a| - 1] + [a[|a| - 1]] && b == b[..|b| - 1] + [b[|b| - 1]];
  }

  /** Two canonical lists that say the same of every slot are the same list. */
  lemma {:induction false} CanonicalUnique(a: seq<Segment>, b: seq<Segment>, size: nat)
    requires Contiguous(a, size) && Contiguous(b, size) && Maximal(a) && Maximal(b)
    requires Expand(a) == Expand(b)
    ensures a == b
    decreases |a|
  {
    hide Contiguous, Maximal, Repeat;
    SameEmptiness(a, b, size);
    if a != [] {
      SameLast(a, b, size);
      Fronts(a, b, size);
      CanonicalUnique(a[..|a| - 1], b[..|b| - 1], size);
      SameParts(a, b);
    }
  }

  lemma {:induction false} Fronts(a: seq<Segment>, b: seq<Segment>, size: nat)
    requires Contiguous(a, size) && Contiguous(b, size) && Maximal(a) && Maximal(b) && a != [] && b != []
    ensures Contiguous(a[..|a| - 1], size) && Contiguous(b[..|b| - 1], size)
    ensures Maximal(a[..|a| - 1]) && Maximal(b[..|b| - 1])
  {
  }

  // ------------------------------------------------------------------
  // One more run.

  lemma {:induction false} EmptyRuns(plain: seq<Segment>, size: nat)
    ensures Contiguous([], size) && Maximal([]) && plain[..0] == [] && Next([]) == 0
  {
  }

  lemma {:induction false} BrokenAt(segments: seq<Segment>, size: nat, i: nat)
    requires i < |segments|
    requires segments[i].start != Next(segments[..i]) || segments[i].end < segments[i].start || segments[i].end >= size
    ensures !Contiguous(segments, size)
  {
    if i > 0 {
      assert segments[..i][i - 1] == segments[i - 1];
    }
  }

  lemma {:induction false} ContiguousFront(segments: seq<Segment>, size: nat, i: nat)
    requires Contiguous(segments, size) && i < |segments|
    ensures Contiguous(segments[..i], size) && segments[i].start == Next(segments[..i])
    ensures segments[i].start <= segments[i].end < size
  {
    if i > 0 {
      assert segments[..i][i - 1] == segments[i - 1];
    }
  }

  /** Listing one more run of a new story. */
  lemma {:induction false} AppendRun(segments: seq<Segment>, s: Segment, size: nat)
    requires Contiguous(segments, size)
    requires s.start == Next(segments) && s.start <= s.end < size
    ensures var longer := segments + [s];
      && Contiguous(longer, size) && Next(longer) == s.end + 1
      && Expand(longer) == Expand(segments) + Repeat(OwnerOf(s), Length(s))
      && (Maximal(segments) && (segments != [] ==> OwnerOf(segments[|segments| - 1]) != OwnerOf(s)) ==> Maximal(longer))
  {
    assert (segments + [s])[..|segments|] == segments;
  }

  /** Extending the last run by a neighbour of the same story says the same as listing the neighbour. */
  lemma {:induction false} MergeRun(segments: seq<Segment>, s: Segment, size: nat)
    requires Contiguous(segments, size) && segments != []
    requires s.start == Next(segments) && s.start <= s.end < size
    requires OwnerOf(segments[|segments| - 1]) == OwnerOf(s)
    ensures var merged := segments[|segments| - 1 := segments[|segments| - 1].(end := s.end)];
      && Contiguous(merged, size) && Next(merged) == s.end + 1
      && Expand(merged) == Expand(segments) + Repeat(OwnerOf(s), Length(s))
      && (Maximal(segments) ==> Maximal(merged))
  {
    var n := |segments|;
    var last := segments[n - 1];
    var merged := segments[n - 1 := last.(end := s.end)];
    assert merged[..n - 1] == segments[..n - 1];
    assert Repeat(OwnerOf(s), Length(last)) + Repeat(OwnerOf(s), Length(s)) ==
        Repeat(OwnerOf(s), Length(merged[n - 1]));
  }

  // ------------------------------------------------------------------
  // Encoding.

  method ValidateOwnershipSegments(view: seq<OwnershipSegment>, size: nat) returns (ok: bool)
    ensures ok <==> ValidView(view, size)
  {
    hide Expand, Contiguous, Maximal, Repeat;
    var next := 0;
    var i := 0;
    ghost var plain := Plains(view);
    EmptyRuns(plain, size);
    while i < |view|
      invariant 0 <= i <= |view|
      invariant Contiguous(plain[..i], size) && next == Next(plain[..i])
      invariant forall k | 0 <= k < i :: ValidSegment(view[k])
    {
      var s := view[i];
      if s.start != next || s.end < s.start || s.end >= size {
        BrokenAt(plain, size, i);
        return false;
      }
      if !ValidSegment(s) {
        return false;
      }
      AppendRun(plain[..i], plain[i], size);
      assert plain[..i + 1] == plain[..i] + [plain[i]];
      next := s.end + 1;
      i := i + 1;
    }
    assert plain[..i] == plain;
    return next == size;
  }

  /** Walk the view, extending the last run while the story does not change. */
  method MergeRuns(view: seq<OwnershipSegment>, ghost size: nat) returns (segments: seq<Segment>)
    requires ValidView(view, size)
    ensures Covers(segments, size) && Maximal(segments)
    ensures Expand(segments) == Expand(Plains(view))
    ensures forall k | 0 <= k < |segments| :: Authority(segments[k])
  {
    ghost var plain := Plains(view);
    hide Expand, Contiguous, Maximal, Repeat;
    segments := [];
    var i := 0;
    EmptyRuns(plain, size);
    while i < |view|
      invariant 0 <= i <= |view|
      invariant Contiguous(segments, size) && Maximal(segments)
      invariant Next(segments) == Next(plain[..i])
      invariant Expand(segments) == Expand(plain[..i])
      invariant forall k | 0 <= k < |segments| :: Authority(segments[k])
    {
      var current := Plain(view[i]);
      PlainMore(view, size, i);
      var n := |segments|;
      if n > 0 && OwnerOf(segments[n - 1]) == OwnerOf(current) {
        MergeRun(segments, current, size);
        segments := segments[n - 1 := segments[n - 1].(end := current.end)];
      } else {
        AppendRun(segments, current, size);
        segments := segments + [current];
      }
      i := i + 1;
    }
    assert plain[..i] == plain;
  }

  lemma {:induction false} PlainMore(view: seq<OwnershipSegment>, size: nat, i: nat)
    requires ValidView(view, size) && i < |view|
    ensures var plain, current := Plains(view), Plain(view[i]);
      && current.start == Next(plain[..i]) && current.start <= current.end < size && Authority(current)
      && Next(plain[..i + 1]) == current.end + 1
      && Expand(plain[..i + 1]) == Expand(plain[..i]) + Repeat(OwnerOf(current), Length(current))
  {
    var plain := Plains(view);
    ContiguousFront(plain, size, i);
    assert plain[..i + 1] == plain[..i] + [plain[i]];
    AppendRun(plain[..i], plain[i], size);
    assert ValidSegment(view[i]);
    hide Expand, Contiguous;
  }

  method EncodeOwnershipSegments(view: seq<OwnershipSegment>, layout: int, size: nat) returns (r: Result<Payload>)
    ensures r.Ok? <==> layout > 0 && ValidView(view, size)
    ensures r.Ok? ==> Encodes(view, layout, size, r.value)
  {
    hide Expand, Contiguous, Maximal;
    if layout <= 0 {
      return Err(InvalidRequest);
    }
    var valid := ValidateOwnershipSegments(view, size);
    if !valid {
      return Err(InvalidRequest);
    }
    var segments := MergeRuns(view, size);
    return Ok(Payload(layout, segments));
  }

  /** What encoding a view of the space yields: its own story, in as few runs as can tell it. */
  predicate Encodes(view: seq<OwnershipSegment>, layout: int, size: nat, p: Payload) {
    && p.layout == layout && Complete(p.segments, size) && Maximal(p.segments)
    && Expand(p.segments) == Expand(Plains(view))
  }

  // ------------------------------------------------------------------
  // Decoding and lookup.

  method DecodeRoute(version: int, payload: Payload, size: nat) returns (r: Result<Directory>)
    ensures r.Ok? <==>
      version > 0 && payload.layout > 0 && Complete(payload.segments, size)
    ensures r.Ok? ==> r.value == Directory(version, payload.layout, payload.segments)
  {
    if version <= 0 || payload.layout <= 0 {
      return Err(InvalidRequest);
    }
    var complete := CheckCoverage(payload.segments, size);
    if !complete {
      return Err(InvalidRequest);
    }
    return Ok(Directory(version, payload.layout, payload.segments));
  }

  /** The list covers the space in order, every run with all or nothing of an owner. */
  predicate Complete(segments: seq<Segment>, size: nat) {
    Covers(segments, size) && forall i | 0 <= i < |segments| :: Authority(segments[i])
  }

  /** The first `i` runs have been accepted and the next slot to cover is `next`. */
  predicate Accepted(segments: seq<Segment>, size: nat, i: nat, next: nat) {
    && i <= |segments|
    && Contiguous(segments[..i], size) && next == Next(segments[..i]) && next <= size
    && (forall k | 0 <= k < i :: Authority(segments[k]))
    && |Expand(segments[..i])| == next
  }

  /** What the next run must satisfy. */
  predicate Fits(s: Segment, next: nat, size: nat) {
    s.start == next && s.start <= s.end < size && Authority(s)
  }

  lemma {:induction false} AcceptNone(segments: seq<Segment>, size: nat)
    ensures Accepted(segments, size, 0, 0) && segments[..0] == []
  {
    assert Expand(segments[..0]) == [];
  }

  lemma {:induction false} AcceptRun(segments: seq<Segment>, size: nat, i: nat, next: nat)
    requires Accepted(segments, size, i, next) && i < |segments|
    ensures !Fits(segments[i], next, size) ==> !Complete(segments, size)
    ensures Fits(segments[i], next, size) ==>
              && Accepted(segments, size, i + 1, segments[i].end + 1)
              && Expand(segments[..i + 1]) == Expand(segments[..i]) + Repeat(OwnerOf(segments[i]), Length(segments[i]))
  {
    hide Expand, Contiguous, Maximal, Next, Authority;
    if Fits(segments[i], next, size) {
      AppendRun(segments[..i], segments[i], size);
      assert segments[..i + 1] == segments[..i] + [segments[i]];
    } else if Authority(segments[i]) {
      BrokenAt(segments, size, i);
    }
  }

  lemma {:induction false} AcceptAll(segments: seq<Segment>, size: nat, next: nat)
    requires Accepted(segments, size, |segments|, next)
    ensures Complete(segments, size) <==> next == size
    ensures |Expand(segments)| == next
  {
    assert segments[..|segments|] == segments;
  }

  /** Complete coverage in order, every run with all or nothing of an owner. */
  method CheckCoverage(segments: seq<Segment>, size: nat) returns (ok: bool)
    ensures ok <==> Complete(segments, size)
  {
    hide Accepted, Complete;
    var next: nat, i: nat := 0, 0;
    AcceptNone(segments, size);
    while i < |segments|
      invariant i <= |segments| && Accepted(segments, size, i, next)
    {
      var s := segments[i];
      AcceptRun(segments, size, i, next);
      if s.start != next || s.end < s.start || s.end >= size {
        return false;
      }
      if (s.node == "") != (s.instance == "") || (s.node != "" && s.epoch == 0) {
        return false;
      }
      next := s.end + 1;
      i := i + 1;
    }
    AcceptAll(segments, size, next);
    return next == size;
  }

  /** Runs in order, perhaps with gaps. */
  predicate Rising(segments: seq<Segment>) {
    && (forall i | 0 <= i < |segments| :: segments[i].start <= segments[i].end)
    && (forall i, j | 0 <= i < j < |segments| :: segments[i].end < segments[j].start)
  }

  /** The first run that ends at or after the slot, by bisection. */
  method SegmentFor(route: Directory, slot: nat, size: nat) returns (r: Option<Segment>)
    requires Rising(route.segments)
    ensures r.Some? ==> slot < size && r.value in route.segments && r.value.start <= slot <= r.value.end
    ensures r == None && slot < size ==>
      forall i | 0 <= i < |route.segments| :: !(route.segments[i].start <= slot <= route.segments[i].end)
  {
    var segments := route.segments;
    if slot >= size {
      return None;
    }
    var lo, hi := 0, |segments|;
    while lo < hi
      invariant 0 <= lo <= hi <= |segments|
      invariant forall k | 0 <= k < lo :: segments[k].end < slot
      invariant forall k | hi <= k < |segments| :: segments[k].end >= slot
    {
      var mid := (lo + hi) / 2;
      if segments[mid].end >= slot {
        hi := mid;
      } else {
        lo := mid + 1;
      }
    }
    if lo == |segments| || segments[lo].start > slot {
      return None;
    }
    return Some(segments[lo]);
  }

  lemma {:induction false} CoversRises(segments: seq<Segment>, size: nat)
    requires Contiguous(segments, size)
    ensures Rising(segments)
  {
    forall i, j | 0 <= i < j < |segments| ensures segments[i].end < segments[j].start {
      StartsRise(segments, size, i, j);
    }
  }

  /** In a complete directory every slot has one run, and it tells that slot's story. */
  lemma {:induction false} Covered(segments: seq<Segment>, size: nat, slot: nat) returns (i: nat)
    requires Contiguous(segments, size) && slot < Next(segments)
    ensures i < |segments| && segments[i].start <= slot <= segments[i].end
  {
    i := |segments| - 1;
    if slot < segments[i].start {
      i := Covered(segments[..i], size, slot);
    }
  }

  // ------------------------------------------------------------------
  // The client's tables.

  /** The tables tell the story of the first `n` slots. */
  predicate Tells(owners: array<Node>, epochs: array<nat>, story: seq<Owner>, n: nat)
    requires n <= owners.Length == epochs.Length && n <= |story|
    reads owners, epochs
  {
    forall slot | 0 <= slot < n :: owners[slot] == story[slot].node && epochs[slot] == story[slot].epoch
  }

  /** Check one run against the coverage so far, then fill its slots. */
  method CompileRun(s: Segment, next: nat, owners: array<Node>, epochs: array<nat>, ghost before: seq<Owner>)
    returns (ok: bool)
    requires owners.Length == epochs.Length && owners as object != epochs as object
    requires |before| == next <= owners.Length && Tells(owners, epochs, before, next)
    modifies owners, epochs
    ensures ok <==> Fits(s, next, owners.Length)
    ensures ok ==> Tells(owners, epochs, before + Repeat(OwnerOf(s), Length(s)), s.end + 1)
  {
    if s.end >= owners.Length || s.end < s.start || s.start != next {
      return false;
    }
    if (s.node == "" && s.instance != "") || (s.node != "" && s.instance == "") || (s.node != "" && s.epoch == 0) {
      return false;
    }
    ghost var story := before + Repeat(OwnerOf(s), Length(s));
    assert forall k | 0 <= k < next :: story[k] == before[k];
    var slot := s.start;
    while slot <= s.end
      invariant s.start <= slot <= s.end + 1
      invariant Tells(owners, epochs, story, slot)
    {
      owners[slot] := s.node;
      epochs[slot] := s.epoch;
      slot := slot + 1;
    }
    return true;
  }

  /** Compile run by run; refuse anything but complete coverage in order. */
  method CompileSegments(segments: seq<Segment>, owners: array<Node>, epochs: array<nat>) returns (ok: bool)
    requires owners.Length == epochs.Length && owners.Length > 0
    requires owners as object != epochs as object
    modifies owners, epochs
    ensures ok <==> Complete(segments, owners.Length)
    ensures ok ==> |Expand(segments)| == owners.Length
    ensures ok ==> Tells(owners, epochs, Expand(segments), owners.Length)
  {
    var size := owners.Length;
    AcceptNone(segments, size);
    if |segments| == 0 {
      return false;
    }
    var next: nat, i: nat := 0, 0;
    ghost var story: seq<Owner> := [];
    assert Expand([]) == story;
    hide Expand, Accepted, Complete, Tells, Authority, Repeat;
    assert Tells(owners, epochs, story, 0);
    while i < |segments|
      invariant i <= |segments| && next <= size && Accepted(segments, size, i, next)
      invariant story == Expand(segments[..i]) && |story| == next
      invariant Tells(owners, epochs, story, next)
    {
      var s := segments[i];
      AcceptRun(segments, size, i, next);
      var fits := CompileRun(s, next, owners, epochs, story);
      if !fits {
        return false;
      }
      story := story + Repeat(OwnerOf(s), Length(s));
      next := s.end + 1;
      i := i + 1;
    }
    AcceptAll(segments, size, next);
    assert segments[..i] == segments;
    return next == size;
  }

  // ------------------------------------------------------------------
  // The pipeline.

  /** Encoding is canonical: two views encode alike exactly when they name the same node, instance and epoch
      for every slot, under the same layout. */
  lemma {:induction false} CanonicalEncoding(
    v: seq<OwnershipSegment>, w: seq<OwnershipSegment>, layout: int, layout': int, size: nat, p: Payload, q: Payload)
    requires Encodes(v, layout, size, p) && Encodes(w, layout', size, q)
    ensures p == q <==> layout == layout' && Expand(Plains(v)) == Expand(Plains(w))
  {
    hide Expand;
    if layout == layout' && Expand(Plains(v)) == Expand(Plains(w)) {
      CanonicalUnique(p.segments, q.segments, size);
    }
  }

  /** From the coordinator's view to the server's lookup and the client's tables, every slot keeps its owner. */
  method PublishAndCompile(
    view: seq<OwnershipSegment>, layout: int, version: int, owners: array<Node>, epochs: array<nat>, slot: nat)
    returns (found: Segment)
    requires owners.Length == epochs.Length && owners as object != epochs as object
    requires layout > 0 && version > 0 && ValidView(view, owners.Length) && slot < owners.Length
    modifies owners, epochs
    ensures |Expand(Plains(view))| == owners.Length
    ensures OwnerOf(found) == Expand(Plains(view))[slot]
    ensures Tells(owners, epochs, Expand(Plains(view)), owners.Length)
  {
    hide Expand;
    var size := owners.Length;
    var encoded := EncodeOwnershipSegments(view, layout, size);
    ExpandLength(Plains(view), size);
    var decoded := DecodeRoute(version, encoded.value, size);
    var segments := decoded.value.segments;
    CoversRises(segments, size);
    var served := SegmentFor(decoded.value, slot, size);
    ghost var i := Covered(segments, size, slot);
    var compiled := CompileSegments(segments, owners, epochs);
    found := served.value;
    ghost var k :| 0 <= k < |segments| && segments[k] == found;
    ExpandAt(segments, size, k, slot);
  }
}
