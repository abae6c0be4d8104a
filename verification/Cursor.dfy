/** One key state: the lock-free cursor, its standby range and its single fetch.

Shared fields are read and written one atomic access at a time by any number of
request threads. Accesses made under the mutex that no lock-free thread can
disturb are taken together; the five stores that activate a range are not,
because lock-free readers see them one by one.
*/
module Cursor {
  import opened Tables

  type Tid = nat

  /** One advance of `next`: the block it moved over, the generation it happened
      in (an activation's advance belongs to the generation it is opening), and by whom. */
  datatype Advance = Advance(lo: int, hi: int, generation: nat, tid: Tid)

  /** The candidate a request brings to the slow path. */
  datatype Candidate = Nothing | Candidate(generation: nat, at: nat)

  /** What a request does once the range it asked for has arrived. */
  datatype Purpose = Refill | Allocate(had: Candidate)

  /** The configured range sizes: what a key starts with, and the bound on growing. */
  datatype Sizes = Sizes(least: int, most: int) {
    predicate Valid() {
      1 <= least <= most
    }
  }

  /** How the measured rate compares with the configured thresholds; estimating it is not modelled. */
  datatype Pace = Unmeasured | Hot | Steady | Cold

  datatype Pc =
    | Resting
    // single ID, lock-free
    | Reading(g: nat)
    | Taken(g: nat, at: nat)
    | SawStart(g: nat, at: nat, start: int)
    | SawBounds(g: nat, at: nat, start: int, end: int)
    | InRange(g: nat, at: nat)
    | Missed(g: nat, at: nat)
    // block, lock-free or under the mutex
    | BlockReading(g: nat, count: nat, locked: bool)
    | BlockNext(g: nat, count: nat, locked: bool, current: int)
    | BlockStart(g: nat, count: nat, locked: bool, current: int, start: int)
    | BlockArmed(g: nat, count: nat, locked: bool, current: int)
    | BlockSwapped(g: nat, count: nat, locked: bool, at: nat)
    // under the mutex
    | Waiting(had: Candidate, count: nat)
    | Holding(had: Candidate, count: nat)
    | Stalled(had: Candidate, count: nat)
    | Opening(count: nat, range: Range)
    | NextStored(at: nat, range: Range)
    | StartStored(at: nat, range: Range)
    | EndStored(at: nat, range: Range)
    // refills
    | Fetching(id: nat, purpose: Purpose, count: nat, size: int)
    | Awaiting(id: nat, had: Candidate, count: nat)
    // validated, awaiting the post-check
    | Validated(at: nat)

  datatype State = State(
    sizes: Sizes,
    active: int,
    next: int,
    start: int,
    end: int,
    generation: nat,
    initialized: bool,
    lock: Option<Tid>,
    standby: Option<Range>,
    fetch: Option<nat>,
    threads: map<Tid, Pc>,
    // history
    advances: seq<Advance>,
    served: set<nat>,
    ranges: map<nat, Range>,
    top: int,
    brought: set<Range>,
    fetches: nat,
    closed: set<nat>)

  function Unused(sizes: Sizes): State {
    State(sizes, 0, 0, 0, 0, 0, false, None, None, None, map[], [], {}, map[], 0, {}, 0, {})
  }

  datatype Step =
    | LoadGeneration
    | Take
    | LoadStart
    | LoadEnd
    | ReloadStart
    | ReloadGeneration
    | BlockBegin(count: nat)
    | BlockLoadNext
    | BlockLoadStart
    | BlockLoadEnd
    | Swap
    | BlockValidate
    | GoSlow(count: nat)
    | Lock
    | TakeBack
    | TakeLocked
    | SkipTake
    | OpenRange
    | DropStandby
    | StoreNext
    | StoreStart
    | StoreEnd
    | Publish
    | Await
    | StartFetch(pace: Pace)
    | Prefetch(pace: Pace)
    | Prepare(count: nat, pace: Pace)
    | Complete(range: Option<Range>)
    | Resume(failed: bool)
    | Drop
    | Serve

  function PcOf(c: State, t: Tid): Pc {
    if t in c.threads then c.threads[t] else Resting
  }

  function Size(r: Range): int {
    r.end - r.start + 1
  }

  predicate Even(n: nat) {
    n % 2 == 0
  }

  predicate Within(c: State, lo: int, hi: int) {
    c.start <= lo && hi <= c.end
  }

  predicate Usable(r: Range, top: int) {
    0 < r.start <= r.end && top < r.start
  }

  /** Whether the step advances the cursor, and so needs an armed guard. */
  predicate Advances(c: State, t: Tid, step: Step) {
    || step == Take || step == TakeLocked || step == StoreNext
    || (step == Swap && PcOf(c, t).BlockArmed? && c.next == PcOf(c, t).current)
  }

  /** The thread holds the mutex. */
  predicate Owns(pc: Pc) {
    || pc.Holding? || pc.Stalled? || pc.Opening? || pc.NextStored? || pc.StartStored? || pc.EndStored?
    || (pc.BlockReading? && pc.locked) || (pc.BlockNext? && pc.locked) || (pc.BlockStart? && pc.locked)
    || (pc.BlockArmed? && pc.locked) || (pc.BlockSwapped? && pc.locked)
  }

  predicate Activating(pc: Pc) {
    pc.Opening? || pc.NextStored? || pc.StartStored? || pc.EndStored?
  }

  predicate Enabled(c: State, t: Tid, step: Step) {
    var pc := PcOf(c, t);
    match step
    case LoadGeneration => pc == Resting && c.initialized
    case Take => pc.Reading?
    case LoadStart => pc.Taken? && Even(pc.g)
    case LoadEnd => pc.SawStart?
    case ReloadStart => pc.SawBounds?
    case ReloadGeneration => pc.InRange?
    case BlockBegin(count) =>
      c.initialized && ((pc == Resting && count >= 1) || (pc.Holding? && pc.count == count))
    case BlockLoadNext => pc.BlockReading? && Even(pc.g)
    case BlockLoadStart => pc.BlockNext?
    case BlockLoadEnd => pc.BlockStart?
    case Swap => pc.BlockArmed?
    case BlockValidate => pc.BlockSwapped?
    case GoSlow(count) =>
      || (pc == Resting && count >= 1)
      || (pc.Missed? && count == 1)
      || (pc.Taken? && !Even(pc.g) && count == 1)
      || (pc.BlockReading? && !Even(pc.g) && !pc.locked && count == pc.count)
    case Lock => pc.Waiting? && c.lock == None
    case TakeBack =>
      && pc.Holding? && pc.had.Candidate? && c.initialized && pc.had.generation == c.generation
      && pc.had.at < |c.advances| && Within(c, c.advances[pc.had.at].lo, c.advances[pc.had.at].hi)
    case TakeLocked => pc.Holding? && pc.count == 1 && c.initialized
    case SkipTake => (pc.Holding? && !c.initialized) || (pc.BlockReading? && !Even(pc.g) && pc.locked)
    case OpenRange => pc.Stalled? && c.standby.Some? && Size(c.standby.value) >= pc.count && pc.count >= 1
    case DropStandby => pc.Stalled? && c.standby.Some? && Size(c.standby.value) < pc.count
    case StoreNext => pc.Opening?
    case StoreStart => pc.NextStored?
    case StoreEnd => pc.StartStored?
    case Publish => pc.EndStored?
    case Await => pc.Stalled? && c.standby == None && c.fetch.Some?
    case StartFetch(_) => pc.Stalled? && c.standby == None && c.fetch == None
    case Prefetch(_) => pc == Resting && c.lock == None && c.standby == None && c.fetch == None && c.initialized
    case Prepare(count, _) => pc == Resting && c.lock == None && c.fetch == None && count >= 1
    case Complete(range) =>
      pc.Fetching? && c.lock == None && (range.Some? ==> Usable(range.value, c.top) && Size(range.value) == pc.size)
    case Resume(_) => pc.Awaiting? && pc.id in c.closed
    case Drop => !Activating(pc) && !pc.Fetching?
    case Serve => pc.Validated?
  }

  function At(c: State, t: Tid, pc: Pc): State {
    c.(threads := c.threads[t := pc])
  }

  function Unlock(c: State, t: Tid, pc: Pc): State {
    c.(threads := c.threads[t := pc], lock := None)
  }

  function Push(c: State, t: Tid, lo: int, hi: int, generation: nat): State {
    c.(advances := c.advances + [Advance(lo, hi, generation, t)])
  }

  function Retry(c: State, t: Tid, locked: bool, count: nat): State {
    At(c, t, if locked then Stalled(Nothing, count) else Waiting(Nothing, count))
  }

  /** The next range's size, from the size last activated. */
  function NextStep(sizes: Sizes, active: int, pace: Pace): int {
    var step := if active < sizes.least then sizes.least else active;
    match pace
    case Unmeasured | Steady => step
    case Hot => if step >= sizes.most / 2 then sizes.most else step * 2
    case Cold => if step / 2 < sizes.least then sizes.least else step / 2
  }

  function RefillSize(c: State, count: nat, pace: Pace): int {
    var step := if c.initialized then NextStep(c.sizes, c.active, pace) else c.sizes.least;
    if step < count then count else step
  }

  function Begin(c: State, t: Tid, purpose: Purpose, count: nat, pace: Pace): State {
    c.(fetch := Some(c.fetches), fetches := c.fetches + 1,
       threads := c.threads[t := Fetching(c.fetches, purpose, count, RefillSize(c, count, pace))])
  }

  function Had(pc: Pc): Candidate {
    match pc
    case Missed(g, at) => Candidate(g, at)
    case Taken(g, at) => Candidate(g, at)
    case _ => Nothing
  }

  function Do(c: State, t: Tid, step: Step): State
    requires Enabled(c, t, step)
  {
    var pc := PcOf(c, t);
    var n := |c.advances|;
    match step
    case LoadGeneration => At(c, t, Reading(c.generation))
    case Take => At(Push(c, t, c.next + 1, c.next + 1, c.generation), t, Taken(pc.g, n)).(next := c.next + 1)
    case LoadStart => At(c, t, SawStart(pc.g, pc.at, c.start))
    case LoadEnd => At(c, t, SawBounds(pc.g, pc.at, pc.start, c.end))
    case ReloadStart =>
      var ok := pc.at < n && pc.start <= c.advances[pc.at].lo <= pc.end && pc.start == c.start;
      At(c, t, if ok then InRange(pc.g, pc.at) else Missed(pc.g, pc.at))
    case ReloadGeneration => At(c, t, if pc.g == c.generation then Validated(pc.at) else Missed(pc.g, pc.at))
    case BlockBegin(count) => At(c, t, BlockReading(c.generation, count, pc.Holding?))
    case BlockLoadNext => At(c, t, BlockNext(pc.g, pc.count, pc.locked, c.next))
    case BlockLoadStart => At(c, t, BlockStart(pc.g, pc.count, pc.locked, pc.current, c.start))
    case BlockLoadEnd =>
      if pc.current < pc.start || pc.current + pc.count > c.end then Retry(c, t, pc.locked, pc.count)
      else At(c, t, BlockArmed(pc.g, pc.count, pc.locked, pc.current))
    case Swap =>
      if c.next != pc.current then Retry(c, t, pc.locked, pc.count)
      else
        At(Push(c, t, pc.current + 1, pc.current + pc.count, c.generation), t,
           BlockSwapped(pc.g, pc.count, pc.locked, n)).(next := pc.current + pc.count)
    case BlockValidate =>
      if pc.g != c.generation then Retry(c, t, pc.locked, pc.count)
      else if pc.locked then Unlock(c, t, Validated(pc.at))
      else At(c, t, Validated(pc.at))
    case GoSlow(count) => At(c, t, Waiting(Had(pc), count))
    case Lock => At(c, t, Holding(pc.had, pc.count)).(lock := Some(t))
    case TakeBack => Unlock(c, t, Validated(pc.had.at))
    case TakeLocked =>
      var c1 := Push(c, t, c.next + 1, c.next + 1, c.generation).(next := c.next + 1);
      if Within(c, c.next + 1, c.next + 1) then Unlock(c1, t, Validated(n))
      else At(c1, t, Stalled(if pc.had.Candidate? then Candidate(pc.had.generation, n) else Nothing, 1))
    case SkipTake => At(c, t, Stalled(if pc.Holding? then pc.had else Nothing, pc.count))
    case OpenRange =>
      At(c, t, Opening(pc.count, c.standby.value)).(standby := None, generation := c.generation + 1)
    case DropStandby => c.(standby := None)
    case StoreNext =>
      At(Push(c, t, pc.range.start, pc.range.start + pc.count - 1, c.generation + 1), t, NextStored(n, pc.range))
      .(next := pc.range.start + pc.count - 1, active := Size(pc.range),
        ranges := c.ranges[c.generation + 1 := pc.range])
    case StoreStart => At(c, t, StartStored(pc.at, pc.range)).(start := pc.range.start)
    case StoreEnd => At(c, t, EndStored(pc.at, pc.range)).(end := pc.range.end)
    case Publish => Unlock(c, t, Validated(pc.at)).(generation := c.generation + 1, initialized := true)
    case Await => Unlock(c, t, Awaiting(c.fetch.value, pc.had, pc.count))
    case StartFetch(pace) => Begin(c, t, Allocate(pc.had), pc.count, pace).(lock := None)
    case Prefetch(pace) => Begin(c, t, Refill, 1, pace)
    case Prepare(count, pace) => Begin(c, t, Refill, count, pace).(standby := None)
    case Complete(range) =>
      var after := if range.Some? && pc.purpose.Allocate? then Waiting(pc.purpose.had, pc.count) else Resting;
      var c1 := At(c, t, after);
      if c.fetch != Some(pc.id) then c1
      else
        c1.(standby := if range.Some? then range else c.standby,
            top := if range.Some? then range.value.end else c.top,
            brought := if range.Some? then c.brought + {range.value} else c.brought,
            fetch := None,
            closed := c.closed + {pc.id})
    case Resume(failed) => At(c, t, if failed then Resting else Waiting(pc.had, pc.count))
    case Drop => if Owns(pc) then Unlock(c, t, Resting) else At(c, t, Resting)
    case Serve => At(c, t, Resting).(served := c.served + {pc.at})
  }

  // ------------------------------------------------------------------
  // The invariant.

  /** The even generation in force, or about to be. */
  function Current(c: State): nat {
    if Even(c.generation) then c.generation else c.generation + 1
  }

  /** An advance that may be served: made in an even generation, inside that generation's range. */
  predicate Valid(c: State, at: nat) {
    && at < |c.advances|
    && var a := c.advances[at];
    && Even(a.generation) && a.generation in c.ranges
    && c.ranges[a.generation].start <= a.lo <= a.hi <= c.ranges[a.generation].end
  }

  predicate OwnAdvance(c: State, t: Tid, at: nat, g: nat) {
    && at < |c.advances| && c.advances[at].tid == t && at !in c.served
    && g <= c.advances[at].generation && g <= c.generation
  }

  /** A candidate brought to the slow path can no longer be taken. */
  predicate Spent(c: State, had: Candidate) {
    had.Candidate? ==>
      && had.at < |c.advances|
      && had.generation <= c.generation
      && (had.generation == c.generation && Even(c.generation) ==>
            !Within(c, c.advances[had.at].lo, c.advances[had.at].hi))
  }

  predicate Settled(c: State, g: nat) {
    g == c.generation && Even(g)
  }

  predicate PcOk(c: State, t: Tid, pc: Pc) {
    match pc
    case Resting => true
    case Reading(g) => g <= c.generation && c.initialized
    case Taken(g, at) => OwnAdvance(c, t, at, g) && Single(c, at)
    case SawStart(g, at, start) =>
      OwnAdvance(c, t, at, g) && Single(c, at) && Even(g) && (Settled(c, g) ==> start == c.start)
    case SawBounds(g, at, start, end) =>
      OwnAdvance(c, t, at, g) && Single(c, at) && Even(g) && (Settled(c, g) ==> start == c.start && end == c.end)
    case InRange(g, at) =>
      && OwnAdvance(c, t, at, g) && Even(g)
      && (Settled(c, g) ==> Within(c, c.advances[at].lo, c.advances[at].hi))
    case Missed(g, at) => OwnAdvance(c, t, at, g) && Spent(c, Candidate(g, at))
    case BlockReading(g, count, _) => g <= c.generation && count >= 1 && c.initialized
    case BlockNext(g, count, _, _) => g <= c.generation && Even(g) && count >= 1 && c.initialized
    case BlockStart(g, count, _, _, start) =>
      g <= c.generation && Even(g) && count >= 1 && c.initialized && (Settled(c, g) ==> start == c.start)
    case BlockArmed(g, count, _, current) =>
      && g <= c.generation && Even(g) && count >= 1 && c.initialized
      && (Settled(c, g) ==> c.start <= current && current + count <= c.end)
    case BlockSwapped(g, count, _, at) =>
      && OwnAdvance(c, t, at, g) && Even(g) && count >= 1
      && (Settled(c, g) ==> Within(c, c.advances[at].lo, c.advances[at].hi))
    case Waiting(had, count) => Spent(c, had) && count >= 1
    case Holding(had, count) => Spent(c, had) && count >= 1
    case Stalled(had, count) => Spent(c, had) && count >= 1
    case Opening(count, range) =>
      && 1 <= count <= Size(range) && !Even(c.generation) && Current(c) !in c.ranges && Above(c, range)
      && c.standby == None && c.fetch == None
    case NextStored(at, range) => Installing(c, t, at, range)
    case StartStored(at, range) => Installing(c, t, at, range) && c.start == range.start
    case EndStored(at, range) => Installing(c, t, at, range) && c.start == range.start && c.end == range.end
    case Fetching(id, purpose, count, size) =>
      && c.fetch == Some(id) && Sized(c, count, size)
      && (purpose.Allocate? ==> Spent(c, purpose.had))
    case Awaiting(id, had, count) => Spent(c, had) && count >= 1 && (c.fetch == Some(id) || id in c.closed)
    case Validated(at) => Valid(c, at) && c.advances[at].tid == t && at !in c.served
  }

  predicate Single(c: State, at: nat) {
    at < |c.advances| ==> c.advances[at].lo == c.advances[at].hi
  }

  /** A requested size: enough for its caller, at least the least, and no more than the greatest of
      the configured bound, the active range and what the caller needs. */
  predicate Sized(c: State, count: nat, size: int) {
    && 1 <= count <= size && c.sizes.least <= size
    && (size <= c.sizes.most || size <= c.active || size == count)
  }

  /** The range lies above everything already installed, and within what was reserved. */
  predicate Above(c: State, r: Range) {
    && 0 < r.start <= r.end <= c.top && r in c.brought
    && forall g | g in c.ranges :: c.ranges[g].end < r.start
  }

  predicate Installing(c: State, t: Tid, at: nat, range: Range) {
    && !Even(c.generation)
    && Current(c) in c.ranges && c.ranges[Current(c)] == range
    && Valid(c, at) && c.advances[at].tid == t && at !in c.served
    && c.standby == None && c.fetch == None
  }

  ghost predicate LockOk(c: State) {
    && (forall t | t in c.threads && Owns(c.threads[t]) :: c.lock == Some(t))
    && (c.lock.Some? ==> c.lock.value in c.threads && Owns(c.threads[c.lock.value]))
    && (!Even(c.generation) ==> c.lock.Some? && Activating(c.threads[c.lock.value]))
    && (Even(c.generation) ==> forall t | t in c.threads :: !Activating(c.threads[t]))
  }

  ghost predicate RangesOk(c: State) {
    && (forall g | g in c.ranges :: Even(g) && 0 < g <= Current(c)
          && 0 < c.ranges[g].start <= c.ranges[g].end <= c.top
          && c.ranges[g] in c.brought)
    && (forall r | r in c.brought :: r.end <= c.top)
    && (forall g, g' | g in c.ranges && g' in c.ranges && g < g' :: c.ranges[g].end < c.ranges[g'].start)
    && (c.initialized <==> c.generation >= 2)
    && (Even(c.generation) && c.initialized ==>
          c.generation in c.ranges && c.ranges[c.generation] == Range(c.start, c.end))
    && (Current(c) in c.ranges ==> c.active == Size(c.ranges[Current(c)]))
    && (Even(c.generation) && !c.initialized ==> c.active == 0)
    && c.sizes.Valid()
    && (Current(c) in c.ranges ==> c.ranges[Current(c)].start <= c.next)
    && c.top >= 0
  }

  ghost predicate AdvancesOk(c: State) {
    && (forall i | 0 <= i < |c.advances| ::
          && c.advances[i].lo <= c.advances[i].hi
          && 0 < c.advances[i].generation <= Current(c)
          && (c.advances[i].generation == Current(c) ==> c.advances[i].hi <= c.next)
          && (Even(c.advances[i].generation) ==>
                c.advances[i].generation in c.ranges
                && c.ranges[c.advances[i].generation].start <= c.advances[i].lo))
    && (forall i, j | 0 <= i < j < |c.advances| && Even(c.advances[i].generation) && Even(c.advances[j].generation) ::
          && c.advances[i].generation <= c.advances[j].generation
          && (c.advances[i].generation == c.advances[j].generation ==> c.advances[i].hi < c.advances[j].lo))
  }

  ghost predicate FetchOk(c: State) {
    && (c.standby.Some? ==> c.fetch == None && Above(c, c.standby.value))
    && (c.fetch.Some? ==> c.fetch.value < c.fetches && c.fetch.value !in c.closed)
    && (forall id | id in c.closed :: id < c.fetches)
    && (forall t, t' | t in c.threads && t' in c.threads && c.threads[t].Fetching? && c.threads[t'].Fetching? ::
        t == t')
  }

  ghost predicate Inv(c: State) {
    && LockOk(c) && RangesOk(c) && AdvancesOk(c) && FetchOk(c)
    && (forall t | t in c.threads :: PcOk(c, t, c.threads[t]))
    && (forall i | i in c.served :: Valid(c, i))
  }

  // ------------------------------------------------------------------
  // Preservation.

  /** What another thread's facts rely on: the past is kept, and a settled generation is undisturbed. */
  ghost predicate Preserves(c: State, c': State, t: Tid) {
    && c.generation <= c'.generation
    && (c.initialized ==> c'.initialized)
    && c.advances <= c'.advances
    && (forall i | i in c'.served :: i in c.served || (i < |c.advances| && c.advances[i].tid == t))
    && (forall g | g in c.ranges :: g in c'.ranges && c'.ranges[g] == c.ranges[g])
    && (c'.generation == c.generation && Even(c.generation) ==> c'.start == c.start && c'.end == c.end)
    && (forall u, pc | u != t && u in c.threads && c.threads[u] == pc && pc.Fetching? :: c'.fetch == c.fetch)
    && c.closed <= c'.closed
    && (c.fetch.Some? ==> c'.fetch == c.fetch || c.fetch.value in c'.closed)
    && (c.fetch.Some? && c'.fetch == c.fetch ==> c'.active == c.active)
    && c'.sizes == c.sizes
    && c.top <= c'.top
    && c.brought <= c'.brought
  }

  lemma OwnKept(c: State, c': State, t: Tid, u: Tid, at: nat, g: nat)
    requires Preserves(c, c', t) && u != t
    requires OwnAdvance(c, u, at, g)
    ensures OwnAdvance(c', u, at, g) && c'.advances[at] == c.advances[at]
    ensures Settled(c', g) ==> Settled(c, g) && c'.start == c.start && c'.end == c.end
  {
    assert c'.advances[at] == c.advances[at];
  }

  lemma SpentKept(c: State, c': State, t: Tid, had: Candidate)
    requires Preserves(c, c', t)
    requires Spent(c, had)
    ensures Spent(c', had)
  {
    if had.Candidate? {
      assert c'.advances[had.at] == c.advances[had.at];
    }
  }

  lemma ValidKept(c: State, c': State, t: Tid, at: nat)
    requires Preserves(c, c', t) && Valid(c, at)
    ensures Valid(c', at) && c'.advances[at] == c.advances[at]
  {
    assert c'.advances[at] == c.advances[at];
  }

  predicate OffLock(pc: Pc) {
    pc.Waiting? || pc.Holding? || pc.Stalled? || pc.Fetching? || pc.Awaiting? || pc.Validated?
  }

  /** Other threads' facts survive a step, unless they are activating (and then no one else steps under the mutex). */
  lemma OtherPc(c: State, c': State, t: Tid, u: Tid)
    requires Preserves(c, c', t)
    requires u != t && u in c.threads && PcOk(c, u, c.threads[u]) && !Activating(c.threads[u])
    ensures PcOk(c', u, c.threads[u])
  {
    var pc := c.threads[u];
    if OffLock(pc) {
      OtherQueued(c, c', t, u);
    } else {
      OtherFast(c, c', t, u);
    }
  }

  lemma OtherQueued(c: State, c': State, t: Tid, u: Tid)
    requires Preserves(c, c', t)
    requires u != t && u in c.threads && PcOk(c, u, c.threads[u]) && OffLock(c.threads[u])
    ensures PcOk(c', u, c.threads[u])
  {
    match c.threads[u]
    case Waiting(had, _) => SpentKept(c, c', t, had);
    case Holding(had, _) => SpentKept(c, c', t, had);
    case Stalled(had, _) => SpentKept(c, c', t, had);
    case Fetching(_, purpose, _, _) => if purpose.Allocate? { SpentKept(c, c', t, purpose.had); }
    case Awaiting(_, had, _) => SpentKept(c, c', t, had);
    case Validated(at) => ValidKept(c, c', t, at);
  }

  lemma OtherFast(c: State, c': State, t: Tid, u: Tid)
    requires Preserves(c, c', t)
    requires u != t && u in c.threads && PcOk(c, u, c.threads[u])
    requires !Activating(c.threads[u]) && !OffLock(c.threads[u])
    ensures PcOk(c', u, c.threads[u])
  {
    match c.threads[u]
    case Taken(g, at) => OwnKept(c, c', t, u, at, g);
    case SawStart(g, at, _) => OwnKept(c, c', t, u, at, g);
    case SawBounds(g, at, _, _) => OwnKept(c, c', t, u, at, g);
    case InRange(g, at) => OwnKept(c, c', t, u, at, g);
    case Missed(g, at) =>
      OwnKept(c, c', t, u, at, g);
      SpentKept(c, c', t, Candidate(g, at));
    case BlockSwapped(g, _, _, at) => OwnKept(c, c', t, u, at, g);
    case _ =>
  }
}
