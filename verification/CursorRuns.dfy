/** Whole runs of one key state: uniqueness, order, and the single fetch. */
module CursorRuns {
  import opened Tables
  import opened Cursor
  import opened CursorSafety

  ghost predicate IsRun(sizes: Sizes, states: seq<State>, steps: seq<(Tid, Step)>) {
    && |states| == |steps| + 1
    && states[0] == Unused(sizes)
    && forall i | 0 <= i < |steps| ::
         && Enabled(states[i], steps[i].0, steps[i].1)
         && states[i + 1] == Do(states[i], steps[i].0, steps[i].1)
  }

  lemma UnusedInv(sizes: Sizes)
    requires sizes.Valid()
    ensures Inv(Unused(sizes))
  {
  }

  lemma {:induction false} RunInv(sizes: Sizes, states: seq<State>, steps: seq<(Tid, Step)>, i: nat)
    requires sizes.Valid() && IsRun(sizes, states, steps) && i < |states|
    ensures Inv(states[i])
  {
    hide Inv, Do, Enabled, Unused;
    if i == 0 {
      UnusedInv(sizes);
    } else {
      RunInv(sizes, states, steps, i - 1);
      StepInv(states[i - 1], steps[i - 1].0, steps[i - 1].1);
    }
  }

  // ------------------------------------------------------------------
  // Order and uniqueness.

  lemma ServedAscend(c: State, i: nat, j: nat)
    requires Inv(c) && i in c.served && j in c.served && i < j
    ensures j < |c.advances| && c.advances[i].lo <= c.advances[i].hi < c.advances[j].lo
  {
    assert Valid(c, i) && Valid(c, j);
  }

  /** Blocks served from one key state rise in the order in which the cursor advanced. */
  lemma ServedInCursorOrder(sizes: Sizes, states: seq<State>, steps: seq<(Tid, Step)>, k: nat, i: nat, j: nat)
    requires sizes.Valid() && IsRun(sizes, states, steps) && k < |states|
    requires i in states[k].served && j in states[k].served && i < j
    ensures j < |states[k].advances|
    ensures states[k].advances[i].lo <= states[k].advances[i].hi < states[k].advances[j].lo
  {
    RunInv(sizes, states, steps, k);
    ServedAscend(states[k], i, j);
  }

  /** No ID belongs to two served advances. */
  lemma ServedOnce(sizes: Sizes, states: seq<State>, steps: seq<(Tid, Step)>, k: nat, i: nat, j: nat, id: int)
    requires sizes.Valid() && IsRun(sizes, states, steps) && k < |states|
    requires i in states[k].served && j in states[k].served && i < |states[k].advances| && j < |states[k].advances|
    requires states[k].advances[i].lo <= id <= states[k].advances[i].hi
    requires states[k].advances[j].lo <= id <= states[k].advances[j].hi
    ensures i == j
  {
    if i < j {
      ServedInCursorOrder(sizes, states, steps, k, i, j);
    } else if j < i {
      ServedInCursorOrder(sizes, states, steps, k, j, i);
    }
  }

  /** Serving hands out an advance of the serving thread that nobody handed out before. */
  lemma ServesItsOwn(sizes: Sizes, states: seq<State>, steps: seq<(Tid, Step)>, k: nat)
    requires sizes.Valid() && IsRun(sizes, states, steps) && k < |steps| && steps[k].1 == Serve
    ensures var at := PcOf(states[k], steps[k].0).at;
      && at !in states[k].served && states[k + 1].served == states[k].served + {at}
      && at < |states[k].advances| && states[k].advances[at].tid == steps[k].0
  {
    RunInv(sizes, states, steps, k);
    assert PcOk(states[k], steps[k].0, PcOf(states[k], steps[k].0));
  }

  /** A candidate taken under one generation is never validated under another. */
  lemma ValidatedUnderItsGeneration(sizes: Sizes, states: seq<State>, steps: seq<(Tid, Step)>, k: nat)
    requires sizes.Valid() && IsRun(sizes, states, steps) && k < |steps|
    requires steps[k].1 == ReloadGeneration || steps[k].1 == BlockValidate || steps[k].1 == TakeLocked
    requires PcOf(states[k + 1], steps[k].0).Validated?
    ensures var at := PcOf(states[k + 1], steps[k].0).at; var c := states[k + 1];
      && at < |c.advances| && c.advances[at].generation == c.generation && Even(c.generation)
      && c.start <= c.advances[at].lo <= c.advances[at].hi <= c.end
  {
    RunInv(sizes, states, steps, k);
    ValidatedHere(states[k], steps[k].0, steps[k].1);
  }

  lemma ValidatedHere(c: State, t: Tid, step: Step)
    requires Inv(c) && Enabled(c, t, step)
    requires step == ReloadGeneration || step == BlockValidate || step == TakeLocked
    requires PcOf(Do(c, t, step), t).Validated?
    ensures var at := PcOf(Do(c, t, step), t).at; var c' := Do(c, t, step);
      && at < |c'.advances| && c'.advances[at].generation == c'.generation && Even(c'.generation)
      && c'.start <= c'.advances[at].lo <= c'.advances[at].hi <= c'.end
  {
    ActorOk(c, t);
    hide LockOk, FetchOk;
  }

  /** The slow path never takes a carried candidate back. */
  lemma TakingBackIsDead(sizes: Sizes, states: seq<State>, steps: seq<(Tid, Step)>, k: nat)
    requires sizes.Valid() && IsRun(sizes, states, steps) && k < |steps|
    ensures steps[k].1 != TakeBack
  {
    RunInv(sizes, states, steps, k);
    NeverTakenBack(states[k], steps[k].0);
  }

  // ------------------------------------------------------------------
  // The single fetch.

  /** A fetch in flight and a standby never coexist, at most one request is fetching, and the standby lies
      wholly above everything activated before it. */
  lemma SingleFlight(sizes: Sizes, states: seq<State>, steps: seq<(Tid, Step)>, k: nat)
    requires sizes.Valid() && IsRun(sizes, states, steps) && k < |states|
    ensures var c := states[k];
      && (c.standby.Some? ==> c.fetch == None)
      && (forall t, u | t in c.threads && u in c.threads && c.threads[t].Fetching? && c.threads[u].Fetching? :: t == u)
      && (forall t | t in c.threads && c.threads[t].Fetching? :: c.fetch == Some(c.threads[t].id))
      && (forall g | c.standby.Some? && g in c.ranges :: c.ranges[g].end < c.standby.value.start)
  {
    RunInv(sizes, states, steps, k);
    forall t | t in states[k].threads && states[k].threads[t].Fetching?
      ensures states[k].fetch == Some(states[k].threads[t].id)
    {
      assert PcOk(states[k], t, states[k].threads[t]);
    }
  }

  /** Every completion is of the recorded fetch, which it closes for the first and only time. */
  lemma ClosedOnce(sizes: Sizes, states: seq<State>, steps: seq<(Tid, Step)>, k: nat)
    requires sizes.Valid() && IsRun(sizes, states, steps) && k < |steps| && steps[k].1.Complete?
    ensures var id := PcOf(states[k], steps[k].0).id;
      && states[k].fetch == Some(id) && states[k + 1].fetch == None
      && id !in states[k].closed && states[k + 1].closed == states[k].closed + {id}
  {
    RunInv(sizes, states, steps, k);
    CompleteIsCurrent(states[k], steps[k].0, steps[k].1.range);
  }

  /** On every path the size asked for covers the caller, and stays between the floor and the
      greatest of the ceiling, the active range and the caller's count. */
  lemma FetchSizes(sizes: Sizes, states: seq<State>, steps: seq<(Tid, Step)>, k: nat, t: Tid)
    requires sizes.Valid() && IsRun(sizes, states, steps) && k < |states|
    requires t in states[k].threads && states[k].threads[t].Fetching?
    ensures var c := states[k]; var pc := c.threads[t];
      && pc.count <= pc.size && sizes.least <= pc.size
      && (pc.size <= sizes.most || pc.size == pc.count
          || (Current(c) in c.ranges && pc.size <= Size(c.ranges[Current(c)])))
  {
    RunInv(sizes, states, steps, k);
    SizesKept(sizes, states, steps, k);
    NoFetchWhileActivating(states[k], t);
  }

  lemma NoFetchWhileActivating(c: State, t: Tid)
    requires Inv(c) && t in c.threads && c.threads[t].Fetching?
    ensures Even(c.generation) && Sized(c, c.threads[t].count, c.threads[t].size)
  {
    assert PcOk(c, t, c.threads[t]);
    assert !Even(c.generation) ==> c.lock.value in c.threads && PcOk(c, c.lock.value, c.threads[c.lock.value]);
  }

  lemma {:induction false} SizesKept(sizes: Sizes, states: seq<State>, steps: seq<(Tid, Step)>, k: nat)
    requires IsRun(sizes, states, steps) && k < |states| == |steps| + 1
    ensures states[k].sizes == sizes
  {
    hide Do, Enabled;
    if k > 0 {
      SizesKept(sizes, states, steps, k - 1);
      assert Enabled(states[k - 1], steps[k - 1].0, steps[k - 1].1);
      SizesStay(states[k - 1], steps[k - 1].0, steps[k - 1].1);
    }
  }

  lemma SizesStay(c: State, t: Tid, step: Step)
    requires Enabled(c, t, step)
    ensures Do(c, t, step).sizes == c.sizes
  {
    hide RefillSize, NextStep, Usable, Size, Within, Had;
  }
}
