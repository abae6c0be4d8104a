/** What range reservation does to one key, over whole histories of the store.

No clock appears here: the order of epochs and ranges is the store's alone, and a
commit counts whether or not its caller was told of it.
*/
module RangeOrder {
  import opened Tables
  import opened Transactions
  import opened Automaton
  import opened Local
  import opened FleetInvariant

  /** A committed reservation of one key: who asked, under which epoch, and what was cut. */
  datatype Grant = Grant(instance: Instance, epoch: nat, range: Range)

  function Find(rs: seq<Reservation>, k: Key): (r: Option<nat>)
    ensures r.Some? ==> r.value < |rs| && rs[r.value].key == k
    ensures r == None ==> forall i | 0 <= i < |rs| :: rs[i].key != k
  {
    if rs == [] then None
    else if rs[|rs| - 1].key == k then Some(|rs| - 1)
    else Find(rs[..|rs| - 1], k)
  }

  /** Reservations name the slot their key hashes to. */
  predicate Routed(t: Txn, k: Key, slot: Slot) {
    t.ReserveTxn? ==> forall r | r in t.reservations && r.key == k :: r.slot == slot
  }

  /** The range that a transaction cuts for a key, if it commits one. */
  function Granting(st: Store, t: Txn, now: int, k: Key): Option<Grant> {
    if !t.ReserveTxn? then None
    else
      match Reserve(st, t.authority, t.reservations, now)
      case Err(_) => None
      case Ok((_, ranges)) =>
        match Find(t.reservations, k)
        case None => None
        case Some(i) =>
          if |ranges| == |t.reservations| && t.reservations[i].slot in t.authority.epochs
          then Some(Grant(t.authority.instance, t.authority.epochs[t.reservations[i].slot], ranges[i]))
          else None
  }

  // ------------------------------------------------------------------
  // One transaction.

  predicate PositiveSteps(rs: seq<Reservation>) {
    forall i | 0 <= i < |rs| :: rs[i].step > 0
  }

  predicate DistinctKeys(rs: seq<Reservation>) {
    forall i, j | 0 <= i < j < |rs| :: rs[i].key != rs[j].key
  }

  lemma {:induction false} AdvanceMarks(marks: map<Key, nat>, rs: seq<Reservation>, k: Key)
    requires PositiveSteps(rs) && DistinctKeys(rs)
    ensures match Find(rs, k)
            case None => Mark(Advance(marks, rs), k) == Mark(marks, k)
            case Some(i) => Mark(Advance(marks, rs), k) == Mark(marks, k) + rs[i].step
  {
    if rs != [] {
      AdvanceMarks(marks, rs[..|rs| - 1], k);
    }
  }

  /** Only a reservation moves a watermark, and it moves it by exactly the range it cuts. */
  lemma GrantCuts(st: Store, t: Txn, now: int, k: Key)
    ensures match Granting(st, t, now, k)
            case None => Mark(After(st, t, now).marks, k) == Mark(st.marks, k)
            case Some(g) =>
              && g.range.start == Mark(st.marks, k) + 1 <= g.range.end
              && g.range.end == Mark(After(st, t, now).marks, k)
  {
    if t.ReserveTxn? {
      var rs := t.reservations;
      match Reserve(st, t.authority, rs, now)
      case Err(_) =>
      case Ok((st', ranges)) =>
        assert PositiveSteps(rs) && DistinctKeys(rs);
        AdvanceMarks(st.marks, rs, k);
        if Find(rs, k).Some? {
          assert Holds(st.slots, t.authority, rs[Find(rs, k).value].slot);
        }
    } else {
      OtherMarks(st, t, now);
    }
  }

  lemma OtherMarks(st: Store, t: Txn, now: int)
    requires !t.ReserveTxn?
    ensures After(st, t, now).marks == st.marks
  {
  }

  /** A range is cut only for the instance and epoch that own the key's slot at that moment. */
  lemma GrantHeld(st: Store, t: Txn, now: int, k: Key, slot: Slot)
    requires Routed(t, k, slot) && Granting(st, t, now, k).Some?
    ensures var g := Granting(st, t, now, k).value;
      && slot in st.slots && st.slots[slot] == Row(Some(g.instance), g.epoch, Owned)
      && After(st, t, now).slots == st.slots
  {
    var i := Find(t.reservations, k).value;
    assert t.reservations[i] in t.reservations;
    assert Holds(st.slots, t.authority, t.reservations[i].slot);
  }

  // ------------------------------------------------------------------
  // Histories.

  /** Ranges cut for one key tile 1..mark in commit order. */
  predicate Tiled(grants: seq<Grant>, mark: nat) {
    && (forall i | 0 <= i < |grants| :: grants[i].range.start <= grants[i].range.end)
    && (forall i | 0 < i < |grants| :: grants[i].range.start == grants[i - 1].range.end + 1)
    && (if grants == [] then mark == 0
        else grants[0].range.start == 1 && grants[|grants| - 1].range.end == mark)
  }

  /** Epochs never go back, an epoch is one instance's, and none is ahead of the slot's row. */
  predicate Ordered(grants: seq<Grant>, slots: map<Slot, Row>, slot: Slot) {
    && (forall i | 0 <= i < |grants| :: Past(slots, grants[i].instance, GateId(slot, grants[i].epoch)))
    && (forall i, j | 0 <= i < j < |grants| ::
          && grants[i].epoch <= grants[j].epoch
          && (grants[i].epoch == grants[j].epoch ==> grants[i].instance == grants[j].instance))
  }

  function Extend(grants: seq<Grant>, g: Option<Grant>): seq<Grant> {
    if g.Some? then grants + [g.value] else grants
  }

  lemma TiledStep(st: Store, t: Txn, now: int, k: Key, grants: seq<Grant>)
    requires Tiled(grants, Mark(st.marks, k))
    ensures Tiled(Extend(grants, Granting(st, t, now, k)), Mark(After(st, t, now).marks, k))
  {
    GrantCuts(st, t, now, k);
  }

  lemma OrderedStep(st: Store, t: Txn, quiet: int, now: int, k: Key, slot: Slot, grants: seq<Grant>)
    requires Coupled(st) && WellFormed(t, quiet) && Routed(t, k, slot)
    requires Ordered(grants, st.slots, slot)
    ensures Ordered(Extend(grants, Granting(st, t, now, k)), After(st, t, now).slots, slot)
  {
    EveryTransaction(st, t, quiet, now);
    var st' := After(st, t, now);
    forall i | 0 <= i < |grants| ensures Past(st'.slots, grants[i].instance, GateId(slot, grants[i].epoch)) {
      PastStep(st, t, quiet, now, st', grants[i].instance, GateId(slot, grants[i].epoch));
    }
    if Granting(st, t, now, k).Some? {
      GrantHeld(st, t, now, k, slot);
      var g := Granting(st, t, now, k).value;
      forall i | 0 <= i < |grants|
        ensures grants[i].epoch <= g.epoch && (grants[i].epoch == g.epoch ==> grants[i].instance == g.instance)
      {
        assert Past(st.slots, grants[i].instance, GateId(slot, grants[i].epoch));
      }
    }
  }

  /** Tiles rise with their position. */
  lemma {:induction false} TilesRise(grants: seq<Grant>, mark: nat, i: nat, j: nat)
    requires Tiled(grants, mark) && i <= j < |grants|
    ensures i < j ==> grants[i].range.end < grants[j].range.start
    ensures 0 < grants[i].range.start && grants[i].range.end <= mark
    decreases |grants| - i
  {
    if i < j {
      TilesRise(grants, mark, i + 1, j);
      assert grants[i + 1].range.start == grants[i].range.end + 1;
      if i > 0 { TilesStart(grants, mark, i); }
    } else if i + 1 < |grants| {
      TilesRise(grants, mark, i + 1, i + 1);
      TilesStart(grants, mark, i);
    } else {
      TilesStart(grants, mark, i);
    }
  }

  lemma {:induction false} TilesStart(grants: seq<Grant>, mark: nat, i: nat)
    requires Tiled(grants, mark) && i < |grants|
    ensures 0 < grants[i].range.start
  {
    if i > 0 {
      TilesStart(grants, mark, i - 1);
      assert grants[i].range.start == grants[i - 1].range.end + 1;
    }
  }

  /** A later epoch's ranges lie wholly above an earlier one's. */
  lemma EpochsSeparate(grants: seq<Grant>, mark: nat, slots: map<Slot, Row>, slot: Slot, i: nat, j: nat)
    requires Tiled(grants, mark) && Ordered(grants, slots, slot)
    requires i < |grants| && j < |grants| && grants[i].epoch < grants[j].epoch
    ensures grants[i].range.end < grants[j].range.start
  {
    assert i < j;
    TilesRise(grants, mark, i, j);
  }
}
