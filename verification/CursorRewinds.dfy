/** The raw cursor can move backwards.

One request alone is enough: it overshoots an exhausted range twice, and the range
it then activates begins where the first one ended, below where `next` had got to.
The IDs it hands out rise all the same (CursorRuns).
*/
module CursorRewinds {
  import opened Tables
  import opened Cursor
  import opened CursorRuns

  const UNIT: Sizes := Sizes(1, 1)

  ghost predicate Reached(c: State) {
    exists states, steps :: IsRun(UNIT, states, steps) && states[|steps|] == c
  }

  lemma Begins()
    ensures Reached(Unused(UNIT))
  {
    assert IsRun(UNIT, [Unused(UNIT)], []);
  }

  function Alone(pc: Pc): map<Tid, Pc> {
    map[0 := pc]
  }

  /** The only request takes a step. */
  lemma On(c: State, step: Step, c': State)
    requires Reached(c) && c.threads.Keys <= {0} && c'.threads.Keys == {0}
    requires Enabled(c, 0, step)
    requires Do(c, 0, step).(threads := c'.threads) == c' && PcOf(Do(c, 0, step), 0) == PcOf(c', 0)
    requires Do(c, 0, step).threads.Keys == {0}
    ensures Reached(c')
  {
    hide Do, Enabled, Unused;
    assert Do(c, 0, step).threads == c'.threads;
    var states, steps :| IsRun(UNIT, states, steps) && states[|steps|] == c;
    Longer(states, steps, step);
    assert IsRun(UNIT, states + [Do(c, 0, step)], steps + [(0, step)]);
  }

  lemma Longer(states: seq<State>, steps: seq<(Tid, Step)>, step: Step)
    requires IsRun(UNIT, states, steps) && Enabled(states[|steps|], 0, step)
    ensures IsRun(UNIT, states + [Do(states[|steps|], 0, step)], steps + [(0, step)])
  {
    hide Do, Enabled, Unused;
    var longer, more := states + [Do(states[|steps|], 0, step)], steps + [(0, step)];
    forall i | 0 <= i < |more|
      ensures Enabled(longer[i], more[i].0, more[i].1) && longer[i + 1] == Do(longer[i], more[i].0, more[i].1)
    {
      if i < |steps| {
        assert longer[i] == states[i] && longer[i + 1] == states[i + 1] && more[i] == steps[i];
      }
    }
  }

  // ------------------------------------------------------------------
  // Each step, from any state with one request.

  lemma GoesSlow(c: State)
    requires Reached(c) && c.threads.Keys <= {0} && PcOf(c, 0) == Resting
    ensures Reached(c.(threads := Alone(Waiting(Nothing, 1))))
  {
    hide Reached;
    On(c, GoSlow(1), c.(threads := Alone(Waiting(Nothing, 1))));
  }

  lemma Locks(c: State)
    requires Reached(c) && c.threads == Alone(Waiting(Nothing, 1)) && c.lock == None
    ensures Reached(c.(threads := Alone(Holding(Nothing, 1)), lock := Some(0)))
  {
    hide Reached;
    On(c, Lock, c.(threads := Alone(Holding(Nothing, 1)), lock := Some(0)));
  }

  lemma Skips(c: State)
    requires Reached(c) && c.threads == Alone(Holding(Nothing, 1)) && !c.initialized
    ensures Reached(c.(threads := Alone(Stalled(Nothing, 1))))
  {
    hide Reached;
    On(c, SkipTake, c.(threads := Alone(Stalled(Nothing, 1))));
  }

  /** The mutex's own attempt finds the range exhausted. */
  lemma Overshoots(c: State)
    requires Reached(c) && c.threads == Alone(Holding(Nothing, 1)) && c.initialized && c.end <= c.next
    ensures Reached(c.(threads := Alone(Stalled(Nothing, 1)), next := c.next + 1,
                       advances := c.advances + [Advance(c.next + 1, c.next + 1, c.generation, 0)]))
  {
    hide Reached;
    On(c, TakeLocked, c.(threads := Alone(Stalled(Nothing, 1)), next := c.next + 1,
                         advances := c.advances + [Advance(c.next + 1, c.next + 1, c.generation, 0)]));
  }

  lemma Asks(c: State)
    requires Reached(c) && c.threads == Alone(Stalled(Nothing, 1)) && c.standby == None && c.fetch == None
    requires c.sizes == UNIT && c.active <= 1
    ensures Reached(c.(threads := Alone(Fetching(c.fetches, Allocate(Nothing), 1, 1)), lock := None,
                       fetch := Some(c.fetches), fetches := c.fetches + 1))
  {
    hide Reached;
    On(c, StartFetch(Unmeasured),
       c.(threads := Alone(Fetching(c.fetches, Allocate(Nothing), 1, 1)), lock := None,
          fetch := Some(c.fetches), fetches := c.fetches + 1));
  }

  lemma Receives(c: State, id: nat, r: Range)
    requires Reached(c) && c.threads == Alone(Fetching(id, Allocate(Nothing), 1, 1)) && c.fetch == Some(id)
    requires c.lock == None && Usable(r, c.top) && Size(r) == 1
    ensures Reached(c.(threads := Alone(Waiting(Nothing, 1)), standby := Some(r), top := r.end,
                       brought := c.brought + {r}, fetch := None, closed := c.closed + {id}))
  {
    hide Reached;
    On(c, Complete(Some(r)), c.(threads := Alone(Waiting(Nothing, 1)), standby := Some(r), top := r.end,
                                brought := c.brought + {r}, fetch := None, closed := c.closed + {id}));
  }

  /** The state while a range of one ID is being opened. */
  function Opened(c: State, r: Range): State {
    c.(threads := Alone(Opening(1, r)), standby := None, generation := c.generation + 1)
  }

  lemma Opens(c: State, r: Range)
    requires Reached(c) && c.threads == Alone(Stalled(Nothing, 1)) && c.standby == Some(r) && Size(r) == 1
    ensures Reached(Opened(c, r))
  {
    hide Reached;
    On(c, OpenRange, Opened(c, r));
  }

  /** The stores of an activation, while the generation is odd. */
  function Stored(c: State, r: Range): State {
    c.(threads := Alone(EndStored(|c.advances|, r)), next := r.start, active := 1, start := r.start, end := r.end,
       ranges := c.ranges[c.generation + 1 := r],
       advances := c.advances + [Advance(r.start, r.start, c.generation + 1, 0)])
  }

  function StoredNext(c: State, r: Range): State {
    c.(threads := Alone(NextStored(|c.advances|, r)), next := r.start, active := 1,
       ranges := c.ranges[c.generation + 1 := r],
       advances := c.advances + [Advance(r.start, r.start, c.generation + 1, 0)])
  }

  lemma StoresNext(c: State, r: Range)
    requires Reached(c) && c.threads == Alone(Opening(1, r)) && r.start == r.end
    ensures Reached(StoredNext(c, r))
  {
    hide Reached;
    On(c, StoreNext, StoredNext(c, r));
  }

  lemma StoresStart(c: State, r: Range, at: nat)
    requires Reached(c) && c.threads == Alone(NextStored(at, r))
    ensures Reached(c.(threads := Alone(StartStored(at, r)), start := r.start))
  {
    hide Reached;
    On(c, StoreStart, c.(threads := Alone(StartStored(at, r)), start := r.start));
  }

  lemma StoresEnd(c: State, r: Range, at: nat)
    requires Reached(c) && c.threads == Alone(StartStored(at, r))
    ensures Reached(c.(threads := Alone(EndStored(at, r)), end := r.end))
  {
    hide Reached;
    On(c, StoreEnd, c.(threads := Alone(EndStored(at, r)), end := r.end));
  }

  lemma Publishes(c: State, r: Range, at: nat)
    requires Reached(c) && c.threads == Alone(EndStored(at, r))
    ensures Reached(c.(threads := Alone(Validated(at)), generation := c.generation + 1, initialized := true,
                       lock := None))
  {
    hide Reached;
    On(c, Publish, c.(threads := Alone(Validated(at)), generation := c.generation + 1, initialized := true,
                      lock := None));
  }

  lemma Serves(c: State, at: nat)
    requires Reached(c) && c.threads == Alone(Validated(at))
    ensures Reached(c.(threads := Alone(Resting), served := c.served + {at}))
  {
    hide Reached;
    On(c, Serve, c.(threads := Alone(Resting), served := c.served + {at}));
  }

  /** The five stores of an activation, and the ID served. */
  lemma Installs(c: State, r: Range)
    requires Reached(c) && c.threads == Alone(Opening(1, r)) && r.start == r.end
    ensures Reached(Stored(c, r).(threads := Alone(Resting), generation := c.generation + 1, initialized := true,
                                  lock := None, served := c.served + {|c.advances|}))
  {
    StoresNext(c, r);
    var stored, next := Stored(c, r), StoredNext(c, r);
    assert stored == next.(threads := Alone(EndStored(|c.advances|, r)), start := r.start, end := r.end);
    hide Reached, Stored, StoredNext;
    StoresStart(next, r, |c.advances|);
    StoresEnd(next.(threads := Alone(StartStored(|c.advances|, r)), start := r.start), r, |c.advances|);
    Publishes(stored, r, |c.advances|);
    Serves(stored.(threads := Alone(Validated(|c.advances|)), generation := c.generation + 1, initialized := true,
                   lock := None), |c.advances|);
  }

  // ------------------------------------------------------------------

  const ONE: Range := Range(1, 1)
  const TWO: Range := Range(2, 2)

  /** The state once the first range has arrived. */
  function Stocked(pc: Pc, lock: Option<Tid>): State {
    Unused(UNIT).(threads := Alone(pc), lock := lock, standby := Some(ONE), top := 1, brought := {ONE}, fetches := 1,
                  closed := {0})
  }

  lemma AsksFirst()
    ensures Reached(Unused(UNIT).(threads := Alone(Fetching(0, Allocate(Nothing), 1, 1)), fetch := Some(0),
                                  fetches := 1))
  {
    var c := Unused(UNIT);
    Begins();
    hide Reached;
    GoesSlow(c);
    Locks(c.(threads := Alone(Waiting(Nothing, 1))));
    Skips(c.(threads := Alone(Holding(Nothing, 1)), lock := Some(0)));
    Asks(c.(threads := Alone(Stalled(Nothing, 1)), lock := Some(0)));
  }

  lemma Fetches()
    ensures Reached(Stocked(Stalled(Nothing, 1), Some(0)))
  {
    var c := Unused(UNIT).(threads := Alone(Fetching(0, Allocate(Nothing), 1, 1)), fetch := Some(0), fetches := 1);
    AsksFirst();
    assert c.brought + {ONE} == {ONE} && c.closed + {0} == {0};
    hide Reached;
    Receives(c, 0, ONE);
    Locks(Stocked(Waiting(Nothing, 1), None));
    Skips(Stocked(Holding(Nothing, 1), Some(0)));
  }

  /** The state once the first range is in force and its ID served. */
  function Exhausted(): State {
    State(UNIT, 1, 1, 1, 1, 2, true, None, None, None, Alone(Resting), [Advance(1, 1, 2, 0)], {0}, map[2 := ONE], 1,
          {ONE}, 1, {0})
  }

  /** What installing the first range leaves behind. */
  lemma ExhaustedIs(c: State)
    requires c == Opened(Stocked(Stalled(Nothing, 1), Some(0)), ONE)
    ensures c.threads == Alone(Opening(1, ONE)) && ONE.start == ONE.end
    ensures Stored(c, ONE).(threads := Alone(Resting), generation := c.generation + 1, initialized := true,
                            lock := None, served := c.served + {|c.advances|}) == Exhausted()
  {
    assert c.served + {0} == {0};
    assert c.advances + [Advance(1, 1, 2, 0)] == [Advance(1, 1, 2, 0)];
    assert c.ranges[2 := ONE] == map[2 := ONE];
  }

  lemma Activates()
    ensures Reached(Exhausted())
  {
    var stalled := Stocked(Stalled(Nothing, 1), Some(0));
    Fetches();
    ExhaustedIs(Opened(stalled, ONE));
    Opens(stalled, ONE);
    hide *;
    Installs(Opened(stalled, ONE), ONE);
  }

  /** Two overshoots, one on each visit to the mutex. */
  function Overshot(): State {
    State(UNIT, 1, 3, 1, 1, 2, true, Some(0), Some(TWO), None, Alone(Stalled(Nothing, 1)),
          [Advance(1, 1, 2, 0), Advance(2, 2, 2, 0), Advance(3, 3, 2, 0)], {0}, map[2 := ONE], 2, {ONE, TWO}, 2, {0, 1})
  }

  lemma OvershootsTwice()
    ensures Reached(Overshot())
  {
    var c := Exhausted();
    var waiting := c.(threads := Alone(Waiting(Nothing, 1)));
    var holding := c.(threads := Alone(Holding(Nothing, 1)), lock := Some(0));
    var stalled := holding.(threads := Alone(Stalled(Nothing, 1)), next := 2,
                            advances := [Advance(1, 1, 2, 0), Advance(2, 2, 2, 0)]);
    var fetching := stalled.(threads := Alone(Fetching(1, Allocate(Nothing), 1, 1)), lock := None, fetch := Some(1),
                             fetches := 2);
    var supplied := fetching.(threads := Alone(Waiting(Nothing, 1)), fetch := None, standby := Some(TWO), top := 2,
                              brought := {ONE, TWO}, closed := {0, 1});
    Activates();
    hide Reached;
    GoesSlow(c);
    Locks(waiting);
    Overshoots(holding);
    Asks(stalled);
    Receives(fetching, 1, TWO);
    assert {ONE} + {TWO} == {ONE, TWO} && fetching.closed + {1} == {0, 1};
    Locks(supplied);
    Overshoots(supplied.(threads := Alone(Holding(Nothing, 1)), lock := Some(0)));
  }

  lemma Rewind()
    ensures var c := Opened(Overshot(), TWO);
            && c.next == 3 && Enabled(c, 0, StoreNext)
            && var c' := Do(c, 0, StoreNext);
               c'.next == 2 && |c'.advances| == 4 && c'.advances[1].lo == c'.advances[3].lo == 2
  {
  }

  /** A run in which `next` falls from 3 to 2, over an ID it had moved over before. */
  lemma CursorCanRewind() returns (states: seq<State>, steps: seq<(Tid, Step)>, k: nat)
    ensures IsRun(UNIT, states, steps) && k < |steps|
    ensures states[k].next == 3 && states[k + 1].next == 2
    ensures |states[k + 1].advances| == 4 && states[k + 1].advances[1].lo == states[k + 1].advances[3].lo == 2
  {
    var c := Opened(Overshot(), TWO);
    OvershootsTwice();
    Opens(Overshot(), TWO);
    Rewind();
    hide Do, Enabled, Unused, Overshot, Opened;
    states, steps :| IsRun(UNIT, states, steps) && states[|steps|] == c;
    Longer(states, steps, StoreNext);
    k := |steps|;
    states, steps := states + [Do(c, 0, StoreNext)], steps + [(0, StoreNext)];
    assert states[k] == c && states[k + 1] == Do(c, 0, StoreNext);
  }
}
