/** Every interleaving of the key-state steps keeps the cursor's invariant. */
module CursorSafety {
  import opened Tables
  import opened Cursor

  /** An activation in progress is undisturbed. */
  predicate Quiet(c: State, c': State) {
    && c'.generation == c.generation && c'.ranges == c.ranges
    && c'.start == c.start && c'.end == c.end && c'.standby == c.standby && c'.fetch == c.fetch
  }

  lemma OtherActivating(c: State, c': State, t: Tid, u: Tid)
    requires Preserves(c, c', t) && Quiet(c, c')
    requires u != t && u in c.threads && PcOk(c, u, c.threads[u]) && Activating(c.threads[u])
    ensures PcOk(c', u, c.threads[u])
  {
    match c.threads[u]
    case Opening(_, _) =>
    case NextStored(at, _) => ValidKept(c, c', t, at);
    case StartStored(at, _) => ValidKept(c, c', t, at);
    case EndStored(at, _) => ValidKept(c, c', t, at);
  }

  ghost predicate ThreadsOk(c: State) {
    forall u | u in c.threads :: PcOk(c, u, c.threads[u])
  }

  /** All facts about threads survive a step once the acting thread's own fact is established. */
  lemma ThreadsKept(c: State, c': State, t: Tid, pc': Pc)
    requires ThreadsOk(c) && Preserves(c, c', t)
    requires c'.threads == c.threads[t := pc']
    requires (forall u | u in c.threads && u != t :: !Activating(c.threads[u])) || Quiet(c, c')
    requires PcOk(c', t, pc')
    ensures ThreadsOk(c')
  {
    forall u | u in c'.threads ensures PcOk(c', u, c'.threads[u]) {
      if u != t {
        if Activating(c.threads[u]) {
          OtherActivating(c, c', t, u);
        } else {
          OtherPc(c, c', t, u);
        }
      }
    }
  }

  ghost predicate ServedOk(c: State) {
    forall i | i in c.served :: Valid(c, i)
  }

  lemma ServedKept(c: State, c': State, t: Tid)
    requires ServedOk(c) && Preserves(c, c', t) && c'.served == c.served
    ensures ServedOk(c')
  {
    forall i | i in c'.served ensures Valid(c', i) {
      ValidKept(c, c', t, i);
    }
  }

  // ------------------------------------------------------------------
  // Steps that only move the acting thread on.

  predicate Moves(c: State, t: Tid, pc': Pc) {
    && Owns(PcOf(c, t)) == Owns(pc')
    && !Activating(PcOf(c, t)) && !Activating(pc')
    && !PcOf(c, t).Fetching? && !pc'.Fetching?
  }

  lemma MoveLock(c: State, t: Tid, pc': Pc)
    requires LockOk(c) && Moves(c, t, pc')
    ensures LockOk(At(c, t, pc'))
  {
  }

  lemma MoveFetch(c: State, t: Tid, pc': Pc)
    requires FetchOk(c) && Moves(c, t, pc')
    ensures FetchOk(At(c, t, pc'))
  {
  }

  lemma MovePreserves(c: State, t: Tid, pc': Pc)
    ensures Preserves(c, At(c, t, pc'), t)
  {
  }

  lemma MoveRest(c: State, c': State)
    requires RangesOk(c) && AdvancesOk(c)
    requires c'.(threads := c.threads, lock := c.lock, served := c.served) == c
    ensures RangesOk(c') && AdvancesOk(c')
  {
  }

  lemma MovePc(c: State, t: Tid, pc': Pc, lock: Option<Tid>)
    requires PcOk(c, t, pc')
    ensures PcOk(c.(threads := c.threads[t := pc'], lock := lock), t, pc')
  {
  }

  lemma MoveInv(c: State, t: Tid, pc': Pc)
    requires Inv(c) && Moves(c, t, pc')
    requires PcOk(c, t, pc')
    ensures Inv(At(c, t, pc'))
  {
    var c' := At(c, t, pc');
    MoveLock(c, t, pc');
    MoveFetch(c, t, pc');
    MoveRest(c, c');
    MovePreserves(c, t, pc');
    MovePc(c, t, pc', c.lock);
    ThreadsKept(c, c', t, pc');
    ServedKept(c, c', t);
  }

  /** A validated generation check: the cursor has not moved on, so the advance lies in its range. */
  lemma SettledIsValid(c: State, t: Tid, at: nat, g: nat)
    requires RangesOk(c) && AdvancesOk(c)
    requires OwnAdvance(c, t, at, g) && Settled(c, g) && g > 0
    requires Within(c, c.advances[at].lo, c.advances[at].hi)
    ensures Valid(c, at)
  {
  }

  predicate FastOn(step: Step) {
    step == LoadGeneration || step == LoadStart || step == LoadEnd || step == ReloadStart || step == ReloadGeneration
  }

  predicate BlockOn(c: State, t: Tid, step: Step) {
    || step.BlockBegin? || step == BlockLoadNext || step == BlockLoadStart || step == BlockLoadEnd
    || (step == Swap && !Advances(c, t, step))
  }

  predicate QueueOn(c: State, t: Tid, step: Step) {
    step.GoSlow? || step == SkipTake || step.Resume? || (step == Drop && !Owns(PcOf(c, t)))
  }

  /** The step does nothing but move its thread on. */
  predicate MovesOn(c: State, t: Tid, step: Step) {
    FastOn(step) || BlockOn(c, t, step) || QueueOn(c, t, step)
  }

  /** The step only moved its thread, and the thread's new standing is sound. */
  ghost predicate Onward(c: State, t: Tid, c': State) {
    && c' == At(c, t, PcOf(c', t))
    && Moves(c, t, PcOf(c', t))
    && PcOk(c, t, PcOf(c', t))
  }

  lemma FastStep(c: State, t: Tid, step: Step)
    requires RangesOk(c) && AdvancesOk(c) && PcOk(c, t, PcOf(c, t)) && Enabled(c, t, step) && FastOn(step)
    ensures Onward(c, t, Do(c, t, step))
  {
    hide RangesOk, AdvancesOk, PcOk, Enabled, Do, PcOf, Onward;
    match step
    case LoadGeneration => LoadsGeneration(c, t);
    case LoadStart => LoadsStart(c, t);
    case LoadEnd => LoadsEnd(c, t);
    case ReloadStart => ReloadsStart(c, t);
    case ReloadGeneration => FastValidated(c, t);
  }

  lemma LoadsGeneration(c: State, t: Tid)
    requires PcOk(c, t, PcOf(c, t)) && Enabled(c, t, LoadGeneration)
    ensures Onward(c, t, Do(c, t, LoadGeneration))
  {
    hide RefillSize, Above, Sized, Installing, Usable, Size;
  }

  lemma LoadsStart(c: State, t: Tid)
    requires PcOk(c, t, PcOf(c, t)) && Enabled(c, t, LoadStart)
    ensures Onward(c, t, Do(c, t, LoadStart))
  {
    hide RefillSize, Above, Sized, Installing, Usable, Size;
  }

  lemma LoadsEnd(c: State, t: Tid)
    requires PcOk(c, t, PcOf(c, t)) && Enabled(c, t, LoadEnd)
    ensures Onward(c, t, Do(c, t, LoadEnd))
  {
    hide RefillSize, Above, Sized, Installing, Usable, Size;
  }

  lemma ReloadsStart(c: State, t: Tid)
    requires PcOk(c, t, PcOf(c, t)) && Enabled(c, t, ReloadStart)
    ensures Onward(c, t, Do(c, t, ReloadStart))
  {
    hide RefillSize, Above, Sized, Installing, Usable, Size;
  }

  /** A candidate that passed the generation check is valid; one that failed it is spent. */
  lemma FastValidated(c: State, t: Tid)
    requires RangesOk(c) && AdvancesOk(c) && PcOk(c, t, PcOf(c, t)) && Enabled(c, t, ReloadGeneration)
    ensures Onward(c, t, Do(c, t, ReloadGeneration))
  {
    var pc := PcOf(c, t);
    if pc.g == c.generation {
      SettledIsValid(c, t, pc.at, pc.g);
    }
    hide RangesOk, AdvancesOk, RefillSize, Above, Sized, Installing, Usable, Size;
  }

  lemma BlockStep(c: State, t: Tid, step: Step)
    requires PcOk(c, t, PcOf(c, t)) && Enabled(c, t, step) && BlockOn(c, t, step)
    ensures Onward(c, t, Do(c, t, step))
  {
    hide PcOk, Enabled, Do, PcOf, Onward, Advances;
    match step
    case BlockBegin(count) => BeginsBlock(c, t, count);
    case BlockLoadNext => LoadsNext(c, t);
    case BlockLoadStart => LoadsBlockStart(c, t);
    case BlockLoadEnd => LoadsBlockEnd(c, t);
    case Swap => SwapFails(c, t);
  }

  lemma BeginsBlock(c: State, t: Tid, count: nat)
    requires PcOk(c, t, PcOf(c, t)) && Enabled(c, t, BlockBegin(count))
    ensures Onward(c, t, Do(c, t, BlockBegin(count)))
  {
    hide RefillSize, Above, Sized, Installing, Usable, Size;
  }

  lemma LoadsNext(c: State, t: Tid)
    requires PcOk(c, t, PcOf(c, t)) && Enabled(c, t, BlockLoadNext)
    ensures Onward(c, t, Do(c, t, BlockLoadNext))
  {
    hide RefillSize, Above, Sized, Installing, Usable, Size;
  }

  lemma LoadsBlockStart(c: State, t: Tid)
    requires PcOk(c, t, PcOf(c, t)) && Enabled(c, t, BlockLoadStart)
    ensures Onward(c, t, Do(c, t, BlockLoadStart))
  {
    hide RefillSize, Above, Sized, Installing, Usable, Size;
  }

  lemma LoadsBlockEnd(c: State, t: Tid)
    requires PcOk(c, t, PcOf(c, t)) && Enabled(c, t, BlockLoadEnd)
    ensures Onward(c, t, Do(c, t, BlockLoadEnd))
  {
    hide RefillSize, Above, Sized, Installing, Usable, Size;
  }

  lemma SwapFails(c: State, t: Tid)
    requires PcOk(c, t, PcOf(c, t)) && Enabled(c, t, Swap) && !Advances(c, t, Swap)
    ensures Onward(c, t, Do(c, t, Swap))
  {
    hide RefillSize, Above, Sized, Installing, Usable, Size;
  }

  /** A block that passed the generation check is valid; one that failed it goes back for another. */
  lemma BlockValidated(c: State, t: Tid)
    requires RangesOk(c) && AdvancesOk(c) && PcOk(c, t, PcOf(c, t)) && Enabled(c, t, BlockValidate)
    ensures PcOk(c, t, PcOf(Do(c, t, BlockValidate), t))
    ensures PcOf(c, t).g != c.generation || !PcOf(c, t).locked ==>
              Moves(c, t, PcOf(Do(c, t, BlockValidate), t))
              && Do(c, t, BlockValidate) == At(c, t, PcOf(Do(c, t, BlockValidate), t))
    ensures PcOf(c, t).g == c.generation && PcOf(c, t).locked ==>
              Do(c, t, BlockValidate) == Unlock(c, t, Validated(PcOf(c, t).at))
  {
    var pc := PcOf(c, t);
    if pc.g == c.generation {
      SettledIsValid(c, t, pc.at, pc.g);
    }
  }

  lemma QueueStep(c: State, t: Tid, step: Step)
    requires PcOk(c, t, PcOf(c, t)) && Enabled(c, t, step) && QueueOn(c, t, step)
    ensures Onward(c, t, Do(c, t, step))
  {
    hide RefillSize, Above, Sized, Installing, Usable, Size, Within, Even;
  }

  // ------------------------------------------------------------------
  // Taking and leaving the mutex.

  /** Holding the mutex, a thread's optimistic checks cannot be overtaken. */
  lemma UnlockInv(c: State, t: Tid, pc': Pc)
    requires Inv(c) && t in c.threads && Owns(c.threads[t]) && !Activating(c.threads[t])
    requires !Owns(pc') && !pc'.Fetching?
    requires PcOk(c, t, pc')
    ensures Inv(Unlock(c, t, pc'))
  {
    var c' := Unlock(c, t, pc');
    UnlockLock(c, t, pc');
    UnlockFetch(c, t, pc');
    MoveRest(c, c');
    MovePreserves(c, t, pc');
    MovePc(c, t, pc', None);
    ThreadsKept(c, c', t, pc');
    ServedKept(c, c', t);
  }

  lemma UnlockLock(c: State, t: Tid, pc': Pc)
    requires LockOk(c) && t in c.threads && Owns(c.threads[t]) && !Activating(c.threads[t])
    requires !Owns(pc')
    ensures LockOk(Unlock(c, t, pc')) && Even(c.generation)
  {
  }

  lemma UnlockFetch(c: State, t: Tid, pc': Pc)
    requires FetchOk(c) && !pc'.Fetching?
    ensures FetchOk(Unlock(c, t, pc'))
  {
  }

  lemma LockInv(c: State, t: Tid)
    requires Inv(c) && Enabled(c, t, Lock)
    ensures Inv(Do(c, t, Lock))
  {
    var pc := PcOf(c, t);
    var pc' := Holding(pc.had, pc.count);
    var c' := Do(c, t, Lock);
    LockShape(c, t);
    hide LockOk, RangesOk, AdvancesOk, FetchOk, PcOk, Preserves, Enabled, Do, ThreadsOk, ServedOk, Inv, PcOf;
    LockLock(c, t);
    LockFetch(c, t);
    MoveRest(c, c');
    MovePreserves(c, t, pc');
    MovePc(c, t, pc', Some(t));
    Assembled(c, c', t, pc');
  }

  lemma LockShape(c: State, t: Tid)
    requires Inv(c) && Enabled(c, t, Lock)
    ensures var pc := PcOf(c, t);
            && pc.Waiting?
            && Do(c, t, Lock) == c.(threads := c.threads[t := Holding(pc.had, pc.count)], lock := Some(t))
            && PcOk(c, t, Holding(pc.had, pc.count))
    ensures LockOk(c) && RangesOk(c) && AdvancesOk(c) && FetchOk(c)
    ensures forall u | u in c.threads && u != t :: !Activating(c.threads[u])
    ensures Preserves(c, Do(c, t, Lock), t)
  {
    ActorOk(c, t);
    hide RangesOk, AdvancesOk, FetchOk;
  }

  /** The invariant, put together from its parts. */
  lemma Assembled(c: State, c': State, t: Tid, pc': Pc)
    requires Inv(c) && Preserves(c, c', t) && c'.served == c.served
    requires c'.threads == c.threads[t := pc'] && PcOk(c', t, pc')
    requires (forall u | u in c.threads && u != t :: !Activating(c.threads[u])) || Quiet(c, c')
    requires LockOk(c') && RangesOk(c') && AdvancesOk(c') && FetchOk(c')
    ensures Inv(c')
  {
    hide LockOk, RangesOk, AdvancesOk, FetchOk, PcOk, Preserves, Activating, Quiet, Valid;
    ThreadsKept(c, c', t, pc');
    ServedKept(c, c', t);
  }

  lemma LockFetch(c: State, t: Tid)
    requires FetchOk(c) && Enabled(c, t, Lock)
    ensures FetchOk(Do(c, t, Lock))
  {
  }

  lemma LockLock(c: State, t: Tid)
    requires LockOk(c) && Enabled(c, t, Lock)
    ensures LockOk(Do(c, t, Lock))
  {
  }

  // ------------------------------------------------------------------
  // Advancing inside the installed range, or past its end.

  function Pushed(c: State, t: Tid, count: nat): State {
    Push(c, t, c.next + 1, c.next + count, c.generation).(next := c.next + count)
  }

  lemma PushRanges(c: State, c': State)
    requires RangesOk(c) && c.next <= c'.next
    requires c'.(threads := c.threads, lock := c.lock, next := c.next, advances := c.advances) == c
    ensures RangesOk(c')
  {
  }

  lemma PushAdvances(c: State, c': State, t: Tid, count: nat)
    requires RangesOk(c) && AdvancesOk(c) && c.initialized && count >= 1
    requires c'.(threads := c.threads, lock := c.lock) == Pushed(c, t, count).(threads := c.threads, lock := c.lock)
    ensures AdvancesOk(c')
  {
    var n := |c.advances|;
    assert forall i | 0 <= i < n :: c'.advances[i] == c.advances[i];
    forall i | 0 <= i < n && Even(c.advances[i].generation) && Even(c.generation)
      ensures c.advances[i].generation <= c.generation
      ensures c.advances[i].generation == c.generation ==> c.advances[i].hi < c'.advances[n].lo
    {
    }
  }

  lemma PushPreserves(c: State, c': State, t: Tid, count: nat)
    requires c'.(threads := c.threads, lock := c.lock) == Pushed(c, t, count).(threads := c.threads, lock := c.lock)
    ensures Preserves(c, c', t)
  {
  }

  lemma PushInv(c: State, c': State, t: Tid, count: nat, pc': Pc)
    requires Inv(c) && c.initialized && count >= 1
    requires c' == Pushed(c, t, count).(threads := c.threads[t := pc'], lock := c'.lock)
    requires PcOk(c', t, pc') && LockOk(c') && FetchOk(c')
    ensures Inv(c')
  {
    PushRanges(c, c');
    PushAdvances(c, c', t, count);
    PushPreserves(c, c', t, count);
    ThreadsKept(c, c', t, pc');
    ServedKept(c, c', t);
  }

  lemma TakePc(c: State, t: Tid)
    requires ServedOk(c) && PcOk(c, t, PcOf(c, t)) && Enabled(c, t, Take)
    ensures PcOk(Do(c, t, Take), t, PcOf(Do(c, t, Take), t))
  {
  }

  lemma SwapPc(c: State, t: Tid)
    requires ServedOk(c) && PcOk(c, t, PcOf(c, t)) && Enabled(c, t, Swap) && Advances(c, t, Swap)
    ensures PcOk(Do(c, t, Swap), t, PcOf(Do(c, t, Swap), t))
  {
  }

  lemma TakeLockedPc(c: State, t: Tid)
    requires ServedOk(c) && RangesOk(c) && Even(c.generation)
    requires PcOk(c, t, PcOf(c, t)) && Enabled(c, t, TakeLocked)
    ensures PcOk(Do(c, t, TakeLocked), t, PcOf(Do(c, t, TakeLocked), t))
  {
  }

  /** Lock and fetch facts do not look at the cursor. */
  lemma SameLock(c: State, c': State)
    requires LockOk(c) && c'.threads == c.threads && c'.lock == c.lock && c'.generation == c.generation
    ensures LockOk(c')
  {
  }

  lemma SameFetch(c: State, c': State)
    requires FetchOk(c) && c'.threads == c.threads && c'.fetch == c.fetch && c'.fetches == c.fetches
    requires c'.closed == c.closed && c'.standby == c.standby && c'.fetch == c.fetch && c'.ranges == c.ranges
        && c'.top == c.top && c'.brought == c.brought
    ensures FetchOk(c')
  {
  }

  lemma TakeInv(c: State, t: Tid)
    requires Inv(c) && Enabled(c, t, Take)
    ensures Inv(Do(c, t, Take))
  {
    hide LockOk, RangesOk, AdvancesOk, FetchOk;
    var c' := Do(c, t, Take);
    var pc' := Taken(c.threads[t].g, |c.advances|);
    MoveLock(c, t, pc');
    SameLock(At(c, t, pc'), c');
    MoveFetch(c, t, pc');
    SameFetch(At(c, t, pc'), c');
    TakePc(c, t);
    PushInv(c, c', t, 1, pc');
  }

  lemma SwapInv(c: State, t: Tid)
    requires Inv(c) && Enabled(c, t, Swap) && Advances(c, t, Swap)
    ensures Inv(Do(c, t, Swap))
  {
    var c' := Do(c, t, Swap);
    var pc := c.threads[t];
    var pc' := BlockSwapped(pc.g, pc.count, pc.locked, |c.advances|);
    SwapShape(c, t);
    SwapPc(c, t);
    hide Inv, LockOk, RangesOk, AdvancesOk, FetchOk, PcOk, Enabled, Do, Advances, PcOf, Pushed;
    MoveLock(c, t, pc');
    SameLock(At(c, t, pc'), c');
    MoveFetch(c, t, pc');
    SameFetch(At(c, t, pc'), c');
    PushInv(c, c', t, pc.count, pc');
  }

  lemma SwapShape(c: State, t: Tid)
    requires Inv(c) && Enabled(c, t, Swap) && Advances(c, t, Swap)
    ensures t in c.threads && c.threads[t].BlockArmed? && c.threads[t].count >= 1 && c.initialized
    ensures var pc := c.threads[t];
            var pc' := BlockSwapped(pc.g, pc.count, pc.locked, |c.advances|);
            && Do(c, t, Swap) == Pushed(c, t, pc.count).(threads := c.threads[t := pc'])
            && Do(c, t, Swap).lock == c.lock && Moves(c, t, pc')
    ensures LockOk(c) && FetchOk(c)
  {
    hide LockOk, RangesOk, AdvancesOk, FetchOk, RefillSize, Within, Had, Spent;
  }

  lemma ActorOk(c: State, t: Tid)
    requires Inv(c)
    ensures RangesOk(c) && AdvancesOk(c) && PcOk(c, t, PcOf(c, t))
    ensures Owns(PcOf(c, t)) ==> (Even(c.generation) <==> !Activating(PcOf(c, t)))
  {
  }

  lemma TakeLockedRest(c: State, t: Tid)
    requires LockOk(c) && FetchOk(c) && Even(c.generation) && t in c.threads && Enabled(c, t, TakeLocked)
    ensures LockOk(Do(c, t, TakeLocked)) && FetchOk(Do(c, t, TakeLocked))
  {
    hide LockOk, FetchOk, RefillSize;
    var c' := Do(c, t, TakeLocked);
    var pc' := PcOf(c', t);
    if Owns(pc') {
      MoveLock(c, t, pc');
      SameLock(At(c, t, pc'), c');
      MoveFetch(c, t, pc');
      SameFetch(At(c, t, pc'), c');
    } else {
      UnlockLock(c, t, pc');
      SameLock(Unlock(c, t, pc'), c');
      UnlockFetch(c, t, pc');
      SameFetch(Unlock(c, t, pc'), c');
    }
  }

  lemma TakeLockedInv(c: State, t: Tid)
    requires Inv(c) && Enabled(c, t, TakeLocked)
    ensures Inv(Do(c, t, TakeLocked))
  {
    hide LockOk, RangesOk, AdvancesOk, FetchOk, PcOk;
    ActorOk(c, t);
    var c' := Do(c, t, TakeLocked);
    TakeLockedRest(c, t);
    TakeLockedPc(c, t);
    PushInv(c, c', t, 1, PcOf(c', t));
  }

  // ------------------------------------------------------------------
  // Activating the standby.

  /** The mutex serialises activations: the acting thread is the only owner. */
  lemma SoleOwner(c: State, t: Tid)
    requires LockOk(c) && t in c.threads && Owns(c.threads[t])
    ensures forall u | u in c.threads && u != t :: !Owns(c.threads[u]) && !Activating(c.threads[u])
    ensures Even(c.generation) <==> !Activating(c.threads[t])
  {
  }

  lemma OwnerLock(c: State, c': State, t: Tid, pc': Pc)
    requires LockOk(c) && t in c.threads && Owns(c.threads[t])
    requires c'.threads == c.threads[t := pc']
    requires if Owns(pc') then c'.lock == c.lock else c'.lock == None
    requires Even(c'.generation) <==> !Activating(pc')
    ensures LockOk(c')
  {
    SoleOwner(c, t);
  }

  lemma OpenRangeInv(c: State, t: Tid)
    requires Inv(c) && Enabled(c, t, OpenRange)
    ensures Inv(Do(c, t, OpenRange))
  {
    hide LockOk, RangesOk, AdvancesOk, FetchOk;
    var c' := Do(c, t, OpenRange);
    SoleOwner(c, t);
    OpenRangeRest(c, t);
    OwnerLock(c, c', t, c'.threads[t]);
    OpenRangeFetch(c, t);
    assert Preserves(c, c', t);
    ThreadsKept(c, c', t, c'.threads[t]);
    ServedKept(c, c', t);
  }

  lemma OpenRangeRest(c: State, t: Tid)
    requires RangesOk(c) && AdvancesOk(c) && Even(c.generation) && Enabled(c, t, OpenRange)
    ensures RangesOk(Do(c, t, OpenRange)) && AdvancesOk(Do(c, t, OpenRange))
  {
  }

  lemma OpenRangeFetch(c: State, t: Tid)
    requires RangesOk(c) && FetchOk(c) && Even(c.generation) && Enabled(c, t, OpenRange)
    ensures FetchOk(Do(c, t, OpenRange))
    ensures PcOk(Do(c, t, OpenRange), t, Do(c, t, OpenRange).threads[t])
  {
  }

  lemma StoreNextRanges(c: State, t: Tid)
    requires RangesOk(c) && PcOk(c, t, PcOf(c, t)) && Enabled(c, t, StoreNext)
    ensures RangesOk(Do(c, t, StoreNext))
  {
    var c' := Do(c, t, StoreNext);
    var pc := c.threads[t];
    NewRange(c, c', pc.range);
  }

  lemma NewRange(c: State, c': State, r: Range)
    requires RangesOk(c) && !Even(c.generation) && Current(c) !in c.ranges && Above(c, r)
    requires c'.ranges == c.ranges[Current(c) := r] && c'.generation == c.generation && c'.top == c.top
    requires c'.initialized == c.initialized && c'.active == Size(r) && r.start <= c'.next && c'.sizes == c.sizes
    requires c'.brought == c.brought
    ensures RangesOk(c')
  {
    assert Current(c') == Current(c) && Even(Current(c));
    assert forall g | g in c'.ranges && g != Current(c) :: g in c.ranges && g < Current(c);
    assert forall g | g in c.ranges :: c'.ranges[g] == c.ranges[g] && c.ranges[g].end < r.start;
    assert c'.ranges[Current(c)] == r && r.end <= c.top;
  }

  lemma StoreNextAdvances(c: State, t: Tid)
    requires RangesOk(c) && AdvancesOk(c) && PcOk(c, t, PcOf(c, t)) && Enabled(c, t, StoreNext)
    ensures AdvancesOk(Do(c, t, StoreNext))
  {
    var c' := Do(c, t, StoreNext);
    var pc := c.threads[t];
    assert c'.ranges == c.ranges[Current(c) := pc.range];
    assert c'.advances == c.advances + [Advance(pc.range.start, c'.next, Current(c), t)];
    FirstOfRange(c, c', pc.range, t);
  }

  lemma FirstOfRange(c: State, c': State, r: Range, t: Tid)
    requires AdvancesOk(c) && Current(c) !in c.ranges && Current(c) > 0 && Current(c') == Current(c)
    requires c'.ranges == c.ranges[Current(c) := r] && r.start <= c'.next
    requires c'.advances == c.advances + [Advance(r.start, c'.next, Current(c), t)]
    ensures AdvancesOk(c')
  {
    var n := |c.advances|;
    assert forall i | 0 <= i < n :: c'.advances[i] == c.advances[i];
    assert forall i | 0 <= i < n :: c.advances[i].generation != Current(c);
  }

  lemma StoreNextPc(c: State, t: Tid)
    requires ServedOk(c) && FetchOk(c) && PcOk(c, t, PcOf(c, t)) && Enabled(c, t, StoreNext)
    ensures FetchOk(Do(c, t, StoreNext))
    ensures PcOk(Do(c, t, StoreNext), t, Do(c, t, StoreNext).threads[t])
    ensures Preserves(c, Do(c, t, StoreNext), t)
  {
  }

  lemma StoreNextInv(c: State, t: Tid)
    requires Inv(c) && Enabled(c, t, StoreNext)
    ensures Inv(Do(c, t, StoreNext))
  {
    hide LockOk, RangesOk, AdvancesOk, FetchOk;
    var c' := Do(c, t, StoreNext);
    SoleOwner(c, t);
    StoreNextRanges(c, t);
    StoreNextAdvances(c, t);
    StoreNextPc(c, t);
    OwnerLock(c, c', t, c'.threads[t]);
    ThreadsKept(c, c', t, c'.threads[t]);
    ServedKept(c, c', t);
  }

  /** The advance log, its ranges and the cursor are as they were. */
  lemma SameAdvances(c: State, c': State)
    requires AdvancesOk(c) && c'.advances == c.advances && c'.ranges == c.ranges && c'.next == c.next
    requires Current(c') == Current(c)
    ensures AdvancesOk(c')
  {
  }

  lemma OddRanges(c: State, c': State)
    requires RangesOk(c) && !Even(c.generation)
    requires c'.(threads := c.threads, start := c.start, end := c.end) == c
    ensures RangesOk(c')
  {
  }

  lemma MovedFetch(c: State, c': State, t: Tid, pc': Pc)
    requires FetchOk(c) && !pc'.Fetching? && c'.threads == c.threads[t := pc']
    requires c'.fetch == c.fetch && c'.fetches == c.fetches
    requires c'.closed == c.closed && c'.standby == c.standby && c'.fetch == c.fetch && c'.ranges == c.ranges
        && c'.top == c.top && c'.brought == c.brought
    ensures FetchOk(c')
  {
  }

  lemma StoreBoundRest(c: State, t: Tid, step: Step)
    requires RangesOk(c) && AdvancesOk(c) && FetchOk(c) && Enabled(c, t, step)
    requires (step == StoreStart || step == StoreEnd) && PcOk(c, t, PcOf(c, t))
    ensures RangesOk(Do(c, t, step)) && AdvancesOk(Do(c, t, step)) && FetchOk(Do(c, t, step))
  {
    hide LockOk, RangesOk, AdvancesOk, FetchOk;
    var c' := Do(c, t, step);
    OddRanges(c, c');
    SameAdvances(c, c');
    MovedFetch(c, c', t, c'.threads[t]);
  }

  lemma StoreBoundPc(c: State, t: Tid, step: Step)
    requires Enabled(c, t, step)
    requires (step == StoreStart || step == StoreEnd) && PcOk(c, t, PcOf(c, t))
    ensures PcOk(Do(c, t, step), t, Do(c, t, step).threads[t])
    ensures Preserves(c, Do(c, t, step), t)
  {
  }

  lemma StoreBoundInv(c: State, t: Tid, step: Step)
    requires Inv(c) && Enabled(c, t, step) && (step == StoreStart || step == StoreEnd)
    ensures Inv(Do(c, t, step))
  {
    hide LockOk, RangesOk, AdvancesOk, FetchOk;
    var c' := Do(c, t, step);
    SoleOwner(c, t);
    StoreBoundRest(c, t, step);
    StoreBoundPc(c, t, step);
    OwnerLock(c, c', t, c'.threads[t]);
    ThreadsKept(c, c', t, c'.threads[t]);
    ServedKept(c, c', t);
  }

  lemma PublishRanges(c: State, t: Tid)
    requires RangesOk(c) && PcOk(c, t, PcOf(c, t)) && Enabled(c, t, Publish)
    ensures RangesOk(Do(c, t, Publish)) && Current(Do(c, t, Publish)) == Current(c)
  {
    hide Within, RefillSize, Had;
  }

  lemma PublishRest(c: State, t: Tid)
    requires RangesOk(c) && AdvancesOk(c) && FetchOk(c) && PcOk(c, t, PcOf(c, t)) && Enabled(c, t, Publish)
    ensures RangesOk(Do(c, t, Publish)) && AdvancesOk(Do(c, t, Publish)) && FetchOk(Do(c, t, Publish))
  {
    PublishRanges(c, t);
    hide RangesOk, AdvancesOk, FetchOk, PcOk;
    var c' := Do(c, t, Publish);
    SameAdvances(c, c');
    MovedFetch(c, c', t, c'.threads[t]);
  }

  lemma PublishPc(c: State, t: Tid)
    requires PcOk(c, t, PcOf(c, t)) && Enabled(c, t, Publish)
    ensures PcOk(Do(c, t, Publish), t, Do(c, t, Publish).threads[t])
    ensures Preserves(c, Do(c, t, Publish), t)
  {
  }

  lemma PublishInv(c: State, t: Tid)
    requires Inv(c) && Enabled(c, t, Publish)
    ensures Inv(Do(c, t, Publish))
  {
    hide LockOk, RangesOk, AdvancesOk, FetchOk;
    var c' := Do(c, t, Publish);
    SoleOwner(c, t);
    PublishRest(c, t);
    PublishPc(c, t);
    OwnerLock(c, c', t, c'.threads[t]);
    ThreadsKept(c, c', t, c'.threads[t]);
    ServedKept(c, c', t);
  }

  // ------------------------------------------------------------------
  // The single fetch.

  lemma FetchUnique(c: State)
    requires ThreadsOk(c) && c.fetch == None
    ensures forall u | u in c.threads :: !c.threads[u].Fetching?
  {
    forall u | u in c.threads ensures !c.threads[u].Fetching? {
      assert PcOk(c, u, c.threads[u]);
    }
  }

  /** Starting a fetch: nothing was outstanding, so the new one is the only one. */
  lemma BeginInv(c: State, t: Tid, step: Step)
    requires Inv(c) && Enabled(c, t, step)
    requires step.StartFetch? || step.Prefetch? || step.Prepare?
    ensures Inv(Do(c, t, step))
  {
    hide LockOk, RangesOk, AdvancesOk, FetchOk, PcOk, RefillSize, Preserves;
    var c' := Do(c, t, step);
    ActorOk(c, t);
    FetchUnique(c);
    BeginLock(c, t, step);
    BeginRest(c, t, step);
    BeginPc(c, t, step);
    BeginPreserves(c, t, step);
    EvenIdle(c);
    ThreadsKept(c, c', t, c'.threads[t]);
    ServedKept(c, c', t);
  }

  lemma EvenIdle(c: State)
    requires LockOk(c) && Even(c.generation)
    ensures forall u | u in c.threads :: !Activating(c.threads[u])
  {
  }

  lemma BeginLock(c: State, t: Tid, step: Step)
    requires LockOk(c) && Enabled(c, t, step)
    requires step.StartFetch? || step.Prefetch? || step.Prepare?
    ensures LockOk(Do(c, t, step)) && Even(c.generation)
  {
    if step.StartFetch? {
      SoleOwner(c, t);
    }
  }

  lemma BeginRest(c: State, t: Tid, step: Step)
    requires RangesOk(c) && AdvancesOk(c) && FetchOk(c) && Enabled(c, t, step)
    requires step.StartFetch? || step.Prefetch? || step.Prepare?
    requires forall u | u in c.threads :: !c.threads[u].Fetching?
    ensures RangesOk(Do(c, t, step)) && AdvancesOk(Do(c, t, step)) && FetchOk(Do(c, t, step))
  {
    hide RangesOk, AdvancesOk, FetchOk, RefillSize;
    var c' := Do(c, t, step);
    SameAdvances(c, c');
    SameRanges(c, c');
    BeginFetch(c, c', t);
  }

  lemma BeginPc(c: State, t: Tid, step: Step)
    requires RangesOk(c) && PcOk(c, t, PcOf(c, t)) && Enabled(c, t, step)
    requires step.StartFetch? || step.Prefetch? || step.Prepare?
    ensures PcOk(Do(c, t, step), t, Do(c, t, step).threads[t])
  {
    hide PcOk, RangesOk, Enabled, Do;
    match step
    case StartFetch(pace) => StartFetchPc(c, t, pace);
    case Prefetch(pace) => PrefetchPc(c, t, pace);
    case Prepare(count, pace) => PreparePc(c, t, count, pace);
  }

  lemma StartFetchPc(c: State, t: Tid, pace: Pace)
    requires RangesOk(c) && PcOk(c, t, PcOf(c, t)) && Enabled(c, t, StartFetch(pace))
    ensures PcOk(Do(c, t, StartFetch(pace)), t, Do(c, t, StartFetch(pace)).threads[t])
  {
    RefillSized(c, PcOf(c, t).count, pace);
    hide RangesOk, RefillSize, Within, Had;
  }

  lemma PrefetchPc(c: State, t: Tid, pace: Pace)
    requires RangesOk(c) && Enabled(c, t, Prefetch(pace))
    ensures PcOk(Do(c, t, Prefetch(pace)), t, Do(c, t, Prefetch(pace)).threads[t])
  {
    RefillSized(c, 1, pace);
    hide RangesOk, RefillSize, Within, Had;
  }

  lemma PreparePc(c: State, t: Tid, count: nat, pace: Pace)
    requires RangesOk(c) && Enabled(c, t, Prepare(count, pace))
    ensures PcOk(Do(c, t, Prepare(count, pace)), t, Do(c, t, Prepare(count, pace)).threads[t])
  {
    RefillSized(c, count, pace);
    hide RangesOk, RefillSize, Within, Had;
  }

  lemma BeginPreserves(c: State, t: Tid, step: Step)
    requires Enabled(c, t, step)
    requires step.StartFetch? || step.Prefetch? || step.Prepare?
    requires forall u | u in c.threads :: !c.threads[u].Fetching?
    ensures Preserves(c, Do(c, t, step), t)
  {
    hide RefillSize, Within, Had;
  }

  lemma BeginFetch(c: State, c': State, t: Tid)
    requires FetchOk(c) && c.fetch == None && forall u | u in c.threads :: !c.threads[u].Fetching?
    requires c'.fetch == Some(c.fetches) && c'.fetches == c.fetches + 1 && c'.closed == c.closed
    requires c'.standby == None && forall u | u in c'.threads && u != t ::
        u in c.threads && c'.threads[u] == c.threads[u]
    ensures FetchOk(c')
  {
  }

  /** The adaptive step never falls below its floor, and exceeds its ceiling only by keeping the active size. */
  lemma NextStepBounds(sizes: Sizes, active: int, pace: Pace)
    requires sizes.Valid()
    ensures sizes.least <= NextStep(sizes, active, pace)
    ensures NextStep(sizes, active, pace) <= sizes.most || NextStep(sizes, active, pace) <= active
  {
  }

  /** The step in force: the size last activated, or the configured least when that is more. */
  function InForce(sizes: Sizes, active: int): (r: int)
    ensures r == sizes.least || r == active
    ensures r >= sizes.least && r >= active
  {
    if active >= sizes.least then active else sizes.least
  }

  /** A hot pace doubles the step in force while twice that stays clear of the ceiling, and else goes to the ceiling;
      so it shrinks the step exactly when the active range is larger than the ceiling. */
  lemma HotGrows(sizes: Sizes, active: int)
    requires sizes.Valid()
    ensures var step, next := InForce(sizes, active), NextStep(sizes, active, Hot);
      && next == (if 2 * step + 1 < sizes.most then 2 * step else sizes.most)
      && (next < step <==> active > sizes.most)
  {
  }

  /** A cold pace never grows the step: it halves it, rounding down, but not below the least. */
  lemma ColdShrinks(sizes: Sizes, active: int)
    requires sizes.Valid()
    ensures var step, next := InForce(sizes, active), NextStep(sizes, active, Cold);
      && next <= step && (next == step <==> step == sizes.least)
      && (next == sizes.least || 2 * next <= step)
      && step <= 2 * next + 1
  {
  }

  /** Any other pace keeps the step. */
  lemma SteadyKeeps(sizes: Sizes, active: int)
    ensures NextStep(sizes, active, Steady) == NextStep(sizes, active, Unmeasured) == InForce(sizes, active)
  {
  }

  /** Every fetch asks for its step or for what its caller needs, whichever is more. Before the first activation the
      step is the least. */
  lemma FetchesStep(c: State, t: Tid, step: Step)
    requires Enabled(c, t, step) && (step.StartFetch? || step.Prefetch? || step.Prepare?)
    ensures var pc := Do(c, t, step).threads[t];
      && pc.Fetching? && pc.count <= pc.size
      && pc.count == (if step.StartFetch? then PcOf(c, t).count else if step.Prepare? then step.count else 1)
      && pc.size >= (if c.initialized then NextStep(c.sizes, c.active, step.pace) else c.sizes.least)
      && (pc.size == pc.count
          || pc.size == (if c.initialized then NextStep(c.sizes, c.active, step.pace) else c.sizes.least))
  {
    hide NextStep;
  }

  lemma RefillSized(c: State, count: nat, pace: Pace)
    requires c.sizes.Valid() && count >= 1
    ensures Sized(c, count, RefillSize(c, count, pace))
  {
    NextStepBounds(c.sizes, c.active, pace);
  }

  lemma SameRanges(c: State, c': State)
    requires RangesOk(c) && c'.ranges == c.ranges && c'.next == c.next && c'.generation == c.generation
    requires c'.start == c.start && c'.end == c.end && c'.initialized == c.initialized && c.top <= c'.top
    requires c'.active == c.active && c'.sizes == c.sizes && c'.brought == c.brought
    ensures RangesOk(c')
  {
  }

  /** A completed fetch is always the one recorded: the stale-completion branch is dead. */
  lemma CompleteIsCurrent(c: State, t: Tid, range: Option<Range>)
    requires Inv(c) && Enabled(c, t, Complete(range))
    ensures c.fetch == Some(PcOf(c, t).id) && c.standby == None && PcOf(c, t).id !in c.closed
  {
    assert PcOk(c, t, c.threads[t]);
  }

  lemma CompleteRest(c: State, t: Tid, range: Option<Range>)
    requires RangesOk(c) && AdvancesOk(c) && FetchOk(c) && Enabled(c, t, Complete(range))
    requires PcOk(c, t, PcOf(c, t)) && c.standby == None
    ensures RangesOk(Do(c, t, Complete(range))) && AdvancesOk(Do(c, t, Complete(range)))
    ensures FetchOk(Do(c, t, Complete(range)))
  {
    hide RangesOk, AdvancesOk, FetchOk;
    var c' := Do(c, t, Complete(range));
    SameAdvances(c, c');
    CompleteRanges(c, c', range);
    CompleteFetch(c, t, range);
  }

  lemma CompleteRanges(c: State, c': State, range: Option<Range>)
    requires RangesOk(c) && (range.Some? ==> Usable(range.value, c.top))
    requires c'.(threads := c.threads, standby := c.standby, top := c.top, brought := c.brought,
                 fetch := c.fetch, closed := c.closed) == c
    requires range == None ==> c'.top == c.top && c'.brought == c.brought
    requires range.Some? ==> c'.top == range.value.end && c'.brought == c.brought + {range.value}
    ensures RangesOk(c')
  {
  }

  lemma CompleteFetch(c: State, t: Tid, range: Option<Range>)
    requires RangesOk(c) && FetchOk(c) && Enabled(c, t, Complete(range))
    requires PcOk(c, t, PcOf(c, t)) && c.standby == None
    ensures FetchOk(Do(c, t, Complete(range)))
  {
  }

  lemma CompletePc(c: State, t: Tid, range: Option<Range>)
    requires FetchOk(c) && Enabled(c, t, Complete(range)) && PcOk(c, t, PcOf(c, t))
    ensures PcOk(Do(c, t, Complete(range)), t, Do(c, t, Complete(range)).threads[t])
    ensures var c' := Do(c, t, Complete(range));
      t in c'.threads && c'.threads == c.threads[t := c'.threads[t]] && c'.served == c.served
  {
    hide RefillSize, Had;
  }

  lemma CompletePreserves(c: State, t: Tid, range: Option<Range>)
    requires FetchOk(c) && Enabled(c, t, Complete(range)) && PcOk(c, t, PcOf(c, t))
    ensures Preserves(c, Do(c, t, Complete(range)), t)
  {
    hide RefillSize, Within, Had, Spent;
  }

  lemma CompleteLock(c: State, t: Tid, range: Option<Range>)
    requires LockOk(c) && Enabled(c, t, Complete(range))
    ensures LockOk(Do(c, t, Complete(range)))
    ensures forall u | u in c.threads && u != t :: !Activating(c.threads[u])
  {
    hide RefillSize, Within, Had;
  }

  lemma CompleteInv(c: State, t: Tid, range: Option<Range>)
    requires Inv(c) && Enabled(c, t, Complete(range))
    ensures Inv(Do(c, t, Complete(range)))
  {
    hide LockOk, RangesOk, AdvancesOk, FetchOk, PcOk, Preserves, Enabled, Do, PcOf, Activating;
    var c' := Do(c, t, Complete(range));
    ActorOk(c, t);
    CompleteIsCurrent(c, t, range);
    CompleteRest(c, t, range);
    CompletePc(c, t, range);
    CompletePreserves(c, t, range);
    CompleteLock(c, t, range);
    ThreadsKept(c, c', t, c'.threads[t]);
    ServedKept(c, c', t);
  }

  lemma DropStandbyInv(c: State, t: Tid)
    requires Inv(c) && Enabled(c, t, DropStandby)
    ensures Inv(Do(c, t, DropStandby))
  {
    var c' := Do(c, t, DropStandby);
    SoleOwner(c, t);
    SameLock(c, c');
    DropStandbyRest(c, t);
    assert c'.threads == c.threads[t := c.threads[t]];
    ThreadsKept(c, c', t, c.threads[t]);
    ServedKept(c, c', t);
  }

  lemma DropStandbyRest(c: State, t: Tid)
    requires RangesOk(c) && AdvancesOk(c) && FetchOk(c) && PcOk(c, t, PcOf(c, t)) && Enabled(c, t, DropStandby)
    ensures RangesOk(Do(c, t, DropStandby)) && AdvancesOk(Do(c, t, DropStandby)) && FetchOk(Do(c, t, DropStandby))
    ensures Preserves(c, Do(c, t, DropStandby), t)
    ensures PcOk(Do(c, t, DropStandby), t, c.threads[t])
  {
    hide RangesOk, AdvancesOk;
    var c' := Do(c, t, DropStandby);
    SameAdvances(c, c');
    SameRanges(c, c');
  }

  lemma ServeInv(c: State, t: Tid)
    requires Inv(c) && Enabled(c, t, Serve)
    ensures Inv(Do(c, t, Serve))
  {
    var c' := Do(c, t, Serve);
    var at := c.threads[t].at;
    ServeShape(c, t);
    hide Inv, LockOk, RangesOk, AdvancesOk, FetchOk, PcOk, Enabled, Do, Preserves, PcOf, Valid, ThreadsOk, Moves;
    hide ServedOk, Quiet;
    MoveLock(c, t, Resting);
    SameLock(At(c, t, Resting), c');
    MoveFetch(c, t, Resting);
    SameFetch(At(c, t, Resting), c');
    MoveRest(c, c');
    ThreadsKept(c, c', t, Resting);
    OneMoreServed(c, c', t, at);
    Whole(c');
  }

  lemma OneMoreServed(c: State, c': State, t: Tid, at: nat)
    requires ServedOk(c) && Preserves(c, c', t) && Valid(c, at) && c'.served == c.served + {at}
    ensures ServedOk(c')
  {
    hide Valid, Preserves;
    forall i | i in c'.served ensures Valid(c', i) {
      ValidKept(c, c', t, i);
    }
  }

  lemma ServeShape(c: State, t: Tid)
    requires Inv(c) && Enabled(c, t, Serve)
    ensures t in c.threads && c.threads[t].Validated? && Moves(c, t, Resting)
    ensures var at := c.threads[t].at;
            && Do(c, t, Serve) == c.(threads := c.threads[t := Resting], served := c.served + {at})
            && Valid(c, at) && ServedOk(c)
    ensures Preserves(c, Do(c, t, Serve), t) && PcOk(Do(c, t, Serve), t, Resting) && Quiet(c, Do(c, t, Serve))
    ensures LockOk(c) && RangesOk(c) && AdvancesOk(c) && FetchOk(c) && ThreadsOk(c)
  {
    ActorOk(c, t);
    hide LockOk, RangesOk, AdvancesOk, FetchOk, Valid;
  }

  lemma Whole(c: State)
    requires LockOk(c) && RangesOk(c) && AdvancesOk(c) && FetchOk(c) && ThreadsOk(c) && ServedOk(c)
    ensures Inv(c)
  {
    hide LockOk, RangesOk, AdvancesOk, FetchOk, PcOk, Valid;
  }

  // ------------------------------------------------------------------
  // All steps.

  /** The candidate a request carries to the slow path never becomes current again: taking it back is dead. */
  lemma NeverTakenBack(c: State, t: Tid)
    requires Inv(c)
    ensures !Enabled(c, t, TakeBack)
  {
    if Enabled(c, t, TakeBack) {
      assert PcOk(c, t, c.threads[t]);
      SoleOwner(c, t);
    }
  }

  lemma MovingStep(c: State, t: Tid, step: Step)
    requires RangesOk(c) && AdvancesOk(c) && PcOk(c, t, PcOf(c, t)) && Enabled(c, t, step)
    requires MovesOn(c, t, step)
    ensures Onward(c, t, Do(c, t, step))
  {
    hide RangesOk, AdvancesOk, PcOk, Enabled, Do, PcOf, FastOn, BlockOn, QueueOn, Onward;
    if FastOn(step) {
      FastStep(c, t, step);
    } else if BlockOn(c, t, step) {
      BlockStep(c, t, step);
    } else {
      QueueStep(c, t, step);
    }
  }

  lemma OnwardInv(c: State, t: Tid, c': State)
    requires Inv(c) && Onward(c, t, c')
    ensures Inv(c')
  {
    hide Inv, PcOk, Moves, At, PcOf;
    MoveInv(c, t, PcOf(c', t));
  }

  lemma MovingStepInv(c: State, t: Tid, step: Step)
    requires Inv(c) && Enabled(c, t, step) && MovesOn(c, t, step)
    ensures Inv(Do(c, t, step))
  {
    ActorOk(c, t);
    hide *;
    MovingStep(c, t, step);
    OnwardInv(c, t, Do(c, t, step));
  }

  lemma BlockValidateInv(c: State, t: Tid)
    requires Inv(c) && Enabled(c, t, BlockValidate)
    ensures Inv(Do(c, t, BlockValidate))
  {
    ActorOk(c, t);
    hide Inv, PcOk, Do;
    var pc := c.threads[t];
    BlockValidated(c, t);
    if pc.g == c.generation && pc.locked {
      UnlockInv(c, t, Validated(pc.at));
    } else {
      MoveInv(c, t, PcOf(Do(c, t, BlockValidate), t));
    }
  }

  lemma AwaitInv(c: State, t: Tid)
    requires Inv(c) && Enabled(c, t, Await)
    ensures Inv(Do(c, t, Await))
  {
    ActorOk(c, t);
    hide Inv;
    var pc := c.threads[t];
    UnlockInv(c, t, Awaiting(c.fetch.value, pc.had, pc.count));
  }

  lemma LeavingStepInv(c: State, t: Tid, step: Step)
    requires Inv(c) && Enabled(c, t, step)
    requires step == BlockValidate || step == Await || (step == Drop && Owns(PcOf(c, t)))
    ensures Inv(Do(c, t, step))
  {
    ActorOk(c, t);
    hide Inv;
    match step
    case BlockValidate => BlockValidateInv(c, t);
    case Await => AwaitInv(c, t);
    case Drop => UnlockInv(c, t, Resting);
  }

  lemma StepInv(c: State, t: Tid, step: Step)
    requires Inv(c) && Enabled(c, t, step)
    ensures Inv(Do(c, t, step))
  {
    hide Inv, Enabled, Do, Advances, Owns, PcOf;
    match step
    case Take => TakeInv(c, t);
    case Swap => if Advances(c, t, Swap) { SwapInv(c, t); } else { MovingStepInv(c, t, step); }
    case BlockValidate => LeavingStepInv(c, t, step);
    case Lock => LockInv(c, t);
    case TakeBack => NeverTakenBack(c, t);
    case TakeLocked => TakeLockedInv(c, t);
    case OpenRange => OpenRangeInv(c, t);
    case DropStandby => DropStandbyInv(c, t);
    case StoreNext => StoreNextInv(c, t);
    case StoreStart => StoreBoundInv(c, t, step);
    case StoreEnd => StoreBoundInv(c, t, step);
    case Publish => PublishInv(c, t);
    case Await => LeavingStepInv(c, t, step);
    case StartFetch(_) => BeginInv(c, t, step);
    case Prefetch(_) => BeginInv(c, t, step);
    case Prepare(_, _) => BeginInv(c, t, step);
    case Complete(range) => CompleteInv(c, t, range);
    case Drop => if Owns(PcOf(c, t)) { LeavingStepInv(c, t, step); } else { MovingStepInv(c, t, step); }
    case Serve => ServeInv(c, t);
    case _ => MovingStepInv(c, t, step);
  }
}
