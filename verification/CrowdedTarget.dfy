/** A history in which recovery leaves a target with more than its share.

One instance migrates two slots, one to each of two others, each with a share of one.
Both drains have begun when the second target disappears from the live nodes, and
recovery points its slot at the first.
*/
module CrowdedTarget {
  import opened Tables
  import opened Transactions
  import opened Automaton
  import opened StoreRuns
  import opened Retargets
  import Budgets

  const SOURCE: Instance := "a"
  const FIRST: Instance := "b"
  const SECOND: Instance := "c"
  const CONFIG: HA := HA(50, 60, 1, 0, 0, 1)
  const SHARES: Limits := Limits(10, 10, 10, 1, 10)
  const TENURE: Token := Token(true, "k", 1)

  function Rows(state: SlotState, other: SlotState): map<Slot, Row> {
    map[0 := Row(Some(SOURCE), 1, state), 1 := Row(Some(SOURCE), 1, other)]
  }

  function Leases(revision: nat): map<Instance, Lease> {
    map[SOURCE := Lease("n", revision, 0, Active), FIRST := Lease("m", 0, 0, Active),
        SECOND := Lease("o", 0, 0, Active)]
  }

  function Moving(id: Id, target: Instance): Handoff {
    Handoff(id, Transfer, SOURCE, 1, Some(target), Planned, false, false, None)
  }

  function Prepared(h: Handoff): Handoff {
    h.(targetReady := true, phase := Ready)
  }

  function Begun(h: Handoff): Handoff {
    Prepared(h).(phase := Drain, notBefore := Some(60))
  }

  function Intents(h: Handoff, other: Handoff): map<Slot, Handoff> {
    map[0 := h, 1 := other]
  }

  const HELD: Tenure := Tenure(Some("k"), 1, Some(100))

  function X(): Handoff { Moving("x", FIRST) }

  function Y(): Handoff { Moving("y", SECOND) }

  function Empty(): map<Slot, Row> {
    map[0 := Row(None, 0, Unowned), 1 := Row(None, 0, Unowned)]
  }

  function Told(id: Instance, slot: Slot, h: Handoff, action: Action): Txn {
    ApplyTxn(Transactions.Request(id, 0, [Command(slot, h, action)], CONFIG, SHARES))
  }

  function Recovery(): Txn {
    RecoverTxn(TENURE, [FIRST], CONFIG, (s: Slot) => "z", [Candidate(1, "y", 1, Some(SECOND))])
  }

  /** The transactions, in order. */
  function TxnAt(k: nat): Txn
    requires k < 10
  {
    if k == 0 then RegisterTxn("n", SOURCE)
    else if k == 1 then RegisterTxn("m", FIRST)
    else if k == 2 then RegisterTxn("o", SECOND)
    else if k == 3 then ClaimTxn(ClaimRequest([0, 1], "n", SOURCE, 0, 50, 60), {SOURCE})
    else if k == 4 then AcquireTxn("k", 100)
    else if k == 5 then PlanTxn([Plan(0, X()), Plan(1, Y())], TENURE, SHARES, 50)
    else if k == 6 then Told(FIRST, 0, X(), PrepareCmd)
    else if k == 7 then Told(SECOND, 1, Y(), PrepareCmd)
    else if k == 8 then Told(FIRST, 0, X(), BeginCmd)
    else Told(SECOND, 1, Y(), BeginCmd)
  }

  function Stage(revision: nat, rows: map<Slot, Row>, intents: map<Slot, Handoff>): Store {
    Store(Leases(revision), rows, intents, map[], HELD)
  }

  const NONE: Tenure := Tenure(None, 0, None)

  /** The tables before each of them, and after the last. */
  function StageAt(k: nat): Store
    requires k <= 10
  {
    if k == 0 then Store(map[], Empty(), map[], map[], NONE)
    else if k == 1 then Store(map[SOURCE := Lease("n", 0, 0, Active)], Empty(), map[], map[], NONE)
    else if k == 2 then
      Store(map[SOURCE := Lease("n", 0, 0, Active), FIRST := Lease("m", 0, 0, Active)], Empty(), map[], map[], NONE)
    else if k == 3 then Store(Leases(0), Empty(), map[], map[], NONE)
    else if k == 4 then Store(Leases(1), Rows(Owned, Owned), map[], map[], NONE)
    else if k == 5 then Stage(1, Rows(Owned, Owned), map[])
    else if k == 6 then Stage(1, Rows(Owned, Owned), Intents(X(), Y()))
    else if k == 7 then Stage(1, Rows(Owned, Owned), Intents(Prepared(X()), Y()))
    else if k == 8 then Stage(1, Rows(Owned, Owned), Intents(Prepared(X()), Prepared(Y())))
    else if k == 9 then Stage(2, Rows(Draining, Owned), Intents(Begun(X()), Prepared(Y())))
    else Stage(3, Rows(Draining, Draining), Intents(Begun(X()), Begun(Y())))
  }

  lemma Joins()
    ensures After(StageAt(0), TxnAt(0), 0) == StageAt(1)
    ensures After(StageAt(1), TxnAt(1), 0) == StageAt(2)
    ensures After(StageAt(2), TxnAt(2), 0) == StageAt(3)
  {
    assert StageAt(2).leases[SECOND := Lease("o", 0, 0, Active)] == Leases(0);
  }

  lemma Claims()
    ensures After(StageAt(3), TxnAt(3), 0) == StageAt(4)
  {
    var st, req := Store(Leases(0), Empty(), map[], map[], NONE), ClaimRequest([0, 1], "n", SOURCE, 0, 50, 60);
    assert Granted(st, req, req.slots, 0) == {0, 1};
    ClaimGrants(st, req);
    Grants();
  }

  lemma ClaimGrants(st: Store, req: ClaimRequest)
    requires st == Store(Leases(0), Empty(), map[], map[], NONE)
    requires req == ClaimRequest([0, 1], "n", SOURCE, 0, 50, 60) && Granted(st, req, req.slots, 0) == {0, 1}
    ensures Claim(st, req, {SOURCE}, 0) == Ok(Grant(st, SOURCE, {0, 1}))
  {
    hide Granted, Grant;
  }

  lemma Grants()
    ensures Grant(Store(Leases(0), Empty(), map[], map[], NONE), SOURCE, {0, 1}) == StageAt(4)
  {
    var st := Store(Leases(0), Empty(), map[], map[], NONE);
    assert Owners(st, {0, 1}) == {};
    assert Bump(st.leases, {SOURCE} + {}) == Leases(1);
    assert Grant(st, SOURCE, {0, 1}).slots == Rows(Owned, Owned);
    assert Cancel(st.handoffs, {0, 1}) == map[];
  }

  lemma Acquires()
    ensures After(StageAt(4), TxnAt(4), 0) == StageAt(5)
  {
  }

  lemma {:induction false} Plans()
    ensures After(StageAt(5), TxnAt(5), 0) == StageAt(6)
  {
    var st, plans := Stage(1, Rows(Owned, Owned), map[]), [Plan(0, X()), Plan(1, Y())];
    assert plans[..1] == [Plan(0, X())] && plans[..1][..0] == [];
    assert Admitted(st, [], 50, 0) == map[];
    assert Admitted(st, plans[..1], 50, 0) == map[0 := X()];
    assert Admitted(st, plans, 50, 0) == Intents(X(), Y());
    assert LiveSlots(st.handoffs) == {};
    assert st.handoffs + Intents(X(), Y()) == Intents(X(), Y());
  }

  lemma {:induction false} OneCommand(st: Store, req: Transactions.Request, c: Command, o: Outcome)
    requires req.instance != "" && req.commands == [c] && req.limits == SHARES && o.Write?
    requires Decide(st, req, Counted(st.handoffs).(seen := {c.slot}), c, 0) == o
    ensures ApplyHandoffs(st, req, 0) == Ok(Commit(st, Record(Counted(st.handoffs).(seen := {c.slot}), c.slot, o)))
  {
    var w := Counted(st.handoffs);
    assert req.commands[..0] == [] && Steps(st, req, w, [], 0) == Ok(w);
    assert w.(seen := w.seen + {c.slot}) == w.(seen := {c.slot}) && c.slot !in w.seen;
    hide Decide, Counted, Commit, Record;
  }

  /** What a command's outcome writes to the tables. */
  function Written(st: Store, s: Slot, o: Outcome): Store
    requires o.Write?
  {
    st.(slots := if o.row.Some? then st.slots[s := o.row.value] else st.slots,
        handoffs := st.handoffs[s := o.intent],
        leases := Bump(st.leases, o.bumps))
  }

  lemma CommitWrites(st: Store, w: Work, s: Slot, o: Outcome)
    requires o.Write? && w.rows == map[] && w.intents == map[] && w.bumped == {}
    ensures Commit(st, Record(w, s, o)) == Written(st, s, o)
  {
    var w' := Record(w, s, o);
    assert st.slots + w'.rows == Written(st, s, o).slots;
    assert st.handoffs + w'.intents == st.handoffs[s := o.intent];
    assert w'.bumped == o.bumps;
    hide Bump;
  }

  lemma CountedIsBlank(hs: map<Slot, Handoff>)
    ensures Counted(hs).rows == map[] && Counted(hs).intents == map[] && Counted(hs).bumped == {}
  {
  }

  lemma {:induction false} AfterApply(st: Store, req: Transactions.Request)
    requires ApplyHandoffs(st, req, 0).Ok?
    ensures After(st, ApplyTxn(req), 0) == ApplyHandoffs(st, req, 0).value
  {
    hide ApplyHandoffs;
  }

  /** One command's transaction, when the command is carried out. */
  lemma Carries(st: Store, id: Instance, c: Command, o: Outcome)
    requires id != "" && o.Write?
    requires var req := Transactions.Request(id, 0, [c], CONFIG, SHARES);
             Decide(st, req, Counted(st.handoffs).(seen := {c.slot}), c, 0) == o
    ensures After(st, ApplyTxn(Transactions.Request(id, 0, [c], CONFIG, SHARES)), 0) == Written(st, c.slot, o)
  {
    var req := Transactions.Request(id, 0, [c], CONFIG, SHARES);
    OneCommand(st, req, c, o);
    CountedIsBlank(st.handoffs);
    CommitWrites(st, Counted(st.handoffs).(seen := {c.slot}), c.slot, o);
    hide *;
    AfterApply(st, req);
  }

  lemma NoBump(revision: nat)
    ensures Bump(Leases(revision), {}) == Leases(revision)
    ensures Bump(Leases(revision), {SOURCE}) == Leases(revision + 1)
  {
  }

  lemma PreparesFirst()
    ensures After(StageAt(6), TxnAt(6), 0) == StageAt(7)
  {
    NoBump(1);
    Carries(Stage(1, Rows(Owned, Owned), Intents(X(), Y())), FIRST, Command(0, X(), PrepareCmd),
            Write(Prepared(X()), None, {}, false));
    assert Intents(X(), Y())[0 := Prepared(X())] == Intents(Prepared(X()), Y());
  }

  lemma PreparesSecond()
    ensures After(StageAt(7), TxnAt(7), 0) == StageAt(8)
  {
    NoBump(1);
    Carries(Stage(1, Rows(Owned, Owned), Intents(Prepared(X()), Y())), SECOND, Command(1, Y(), PrepareCmd),
            Write(Prepared(Y()), None, {}, false));
    assert Intents(Prepared(X()), Y())[1 := Prepared(Y())] == Intents(Prepared(X()), Prepared(Y()));
  }

  /** What BEGIN writes. */
  function Drained(h: Handoff): Outcome {
    Write(Begun(h), Some(Row(Some(SOURCE), 1, Draining)), {SOURCE}, true)
  }

  lemma DecidesFirst(st: Store)
    requires st == Stage(1, Rows(Owned, Owned), Intents(Prepared(X()), Prepared(Y())))
    ensures Decide(st, Transactions.Request(FIRST, 0, [Command(0, X(), BeginCmd)], CONFIG, SHARES),
                   Counted(st.handoffs).(seen := {0}), Command(0, X(), BeginCmd), 0)
            == Drained(X())
  {
    assert Inflight(st.handoffs) == {};
  }

  lemma BeginsFirstWrites(st: Store, o: Outcome)
    requires st == Stage(1, Rows(Owned, Owned), Intents(Prepared(X()), Prepared(Y()))) && o == Drained(X())
    ensures Written(st, 0, o) == Stage(2, Rows(Draining, Owned), Intents(Begun(X()), Prepared(Y())))
  {
    NoBump(1);
    assert st.slots[0 := Row(Some(SOURCE), 1, Draining)] == Rows(Draining, Owned);
    assert st.handoffs[0 := Begun(X())] == Intents(Begun(X()), Prepared(Y()));
    hide Bump;
  }

  lemma BeginsFirstTold()
    ensures TxnAt(8) == ApplyTxn(Transactions.Request(FIRST, 0, [Command(0, X(), BeginCmd)], CONFIG, SHARES))
    ensures StageAt(8) == Stage(1, Rows(Owned, Owned), Intents(Prepared(X()), Prepared(Y())))
    ensures StageAt(9) == Stage(2, Rows(Draining, Owned), Intents(Begun(X()), Prepared(Y())))
    ensures FIRST != ""
  {
  }

  lemma BeginsFirst()
    ensures After(StageAt(8), TxnAt(8), 0) == StageAt(9)
  {
    BeginsFirstTold();
    DecidesFirst(StageAt(8));
    BeginsFirstWrites(StageAt(8), Drained(X()));
    hide *;
    Carries(StageAt(8), FIRST, Command(0, X(), BeginCmd), Drained(X()));
  }

  lemma DecidesSecond(st: Store)
    requires st == Stage(2, Rows(Draining, Owned), Intents(Begun(X()), Prepared(Y())))
    ensures Decide(st, Transactions.Request(SECOND, 0, [Command(1, Y(), BeginCmd)], CONFIG, SHARES),
                   Counted(st.handoffs).(seen := {1}), Command(1, Y(), BeginCmd), 0)
            == Drained(Y())
  {
    assert Inflight(st.handoffs) == {0} && From(st.handoffs, SOURCE) == {0};
  }

  lemma BeginsSecondWrites(st: Store, o: Outcome)
    requires st == Stage(2, Rows(Draining, Owned), Intents(Begun(X()), Prepared(Y()))) && o == Drained(Y())
    ensures Written(st, 1, o) == Stage(3, Rows(Draining, Draining), Intents(Begun(X()), Begun(Y())))
  {
    NoBump(2);
    assert st.slots[1 := Row(Some(SOURCE), 1, Draining)] == Rows(Draining, Draining);
    assert st.handoffs[1 := Begun(Y())] == Intents(Begun(X()), Begun(Y()));
    hide Bump;
  }

  lemma BeginsSecondTold()
    ensures TxnAt(9) == ApplyTxn(Transactions.Request(SECOND, 0, [Command(1, Y(), BeginCmd)], CONFIG, SHARES))
    ensures StageAt(9) == Stage(2, Rows(Draining, Owned), Intents(Begun(X()), Prepared(Y())))
    ensures StageAt(10) == Stage(3, Rows(Draining, Draining), Intents(Begun(X()), Begun(Y())))
    ensures SECOND != ""
  {
  }

  lemma BeginsSecond()
    ensures After(StageAt(9), TxnAt(9), 0) == StageAt(10)
  {
    BeginsSecondTold();
    DecidesSecond(StageAt(9));
    BeginsSecondWrites(StageAt(9), Drained(Y()));
    hide *;
    Carries(StageAt(9), SECOND, Command(1, Y(), BeginCmd), Drained(Y()));
  }

  // ------------------------------------------------------------------

  lemma StoryStep(k: nat)
    requires k < 10
    ensures After(StageAt(k), TxnAt(k), 0) == StageAt(k + 1)
  {
    Joins();
    Claims();
    Acquires();
    Plans();
    PreparesFirst();
    PreparesSecond();
    BeginsFirst();
    BeginsSecond();
    hide *;
  }

  lemma StoryIssued(k: nat)
    requires k < 10
    ensures WellFormed(TxnAt(k), CONFIG.quiet)
    ensures TxnAt(k).ApplyTxn? ==> TxnAt(k).request.limits == SHARES
  {
  }

  lemma StoryIsHistory() returns (states: seq<Store>, events: seq<Event>)
    ensures |states| == 11 && |events| == 10
    ensures IsHistory(CONFIG.quiet, states, events) && Budgets.Governed(events, SHARES)
    ensures states[10] == StageAt(10)
  {
    states := seq(11, k requires 0 <= k < 11 => StageAt(k));
    events := seq(10, k requires 0 <= k < 10 => Event(TxnAt(k), 0));
    assert Baseline(states[0]);
    hide After, StageAt, TxnAt, Baseline, WellFormed;
    forall k | 0 <= k < 10
      ensures WellFormed(events[k].txn, CONFIG.quiet) && states[k + 1] == After(states[k], events[k].txn, 0)
      ensures events[k].txn.ApplyTxn? ==> events[k].txn.request.limits == SHARES
    {
      StoryStep(k);
      StoryIssued(k);
    }
  }

  lemma {:induction false} RecoveryCrowds()
    ensures var st := StageAt(10);
            && To(st.handoffs, Some(FIRST)) == {0} && To(st.handoffs, Some(SECOND)) == {1}
            && Effective(st, Recovery(), 0)
            && Gone(st, Recovery().candidates) == {1}
            && Sent(st, [FIRST], CONFIG, Recovery().candidates, 0, FIRST) == {1}
  {
    var st := Stage(3, Rows(Draining, Draining), Intents(Begun(X()), Begun(Y())));
    assert Replacement(st.leases, [FIRST], SOURCE, CONFIG.lease, 0) == Some(FIRST);
    assert Candidate(1, "y", 1, Some(SECOND)) in Recovery().candidates;
  }

  /** Every share is one and was kept until then; recovery leaves the first target with two. */
  lemma {:induction false} RecoveryPassesTheShare() returns (states: seq<Store>, events: seq<Event>, t: Txn)
    ensures IsHistory(CONFIG.quiet, states, events) && CONFIG.ValidAuthority() && WellFormed(t, CONFIG.quiet)
    ensures |states| == |events| + 1
    ensures Budgets.Governed(events, SHARES) && SHARES.maxPerTarget == 1 && t.RecoverTxn?
    ensures |To(states[|events|].handoffs, Some(FIRST))| == 1
    ensures |To(After(states[|events|], t, 0).handoffs, Some(FIRST))| == 2
  {
    t := Recovery();
    states, events := StoryIsHistory();
    RecoveryCrowds();
    hide IsHistory, StageAt, After, Effective, Gone, Sent, Coupled;
    CouplingHolds(CONFIG.quiet, states, events, 10);
    RecoveryLeaves(states[10], t, 0, FIRST);
    assert {0} - {1} == {0};
  }
}
