/** The per-target budget, and the one transaction that may pass it.

Executing commands never pushes a target past its share. Recovery points a draining
transfer at another live target without looking at that share; what it leaves with a
target is counted here exactly, so that a caller can tell beforehand.
*/
module Retargets {
  import opened Tables
  import opened Transactions
  import opened Automaton
  import opened StoreRuns
  import opened Budgets

  // ------------------------------------------------------------------
  // What recovery does to a target's share.

  /** A transfer still draining, as recovery read it. */
  predicate Adrift(st: Store, c: Candidate) {
    && c.slot in st.handoffs && st.handoffs[c.slot].id == c.id
    && st.handoffs[c.slot].kind == Transfer && st.handoffs[c.slot].phase == Drain
  }

  /** A transfer made, whose slot is not where recovery read it to be going. */
  predicate Stray(st: Store, c: Candidate) {
    && c.slot in st.handoffs && st.handoffs[c.slot].id == c.id && st.handoffs[c.slot].phase == Transferred
    && (c.slot !in st.slots || st.slots[c.slot].owner == None || st.slots[c.slot].owner != c.target
        || st.slots[c.slot].epoch != c.sourceEpoch + 1)
  }

  /** The slots recovery takes from whatever targets they had. */
  function Gone(st: Store, cs: seq<Candidate>): set<Slot> {
    set c | c in cs && (Adrift(st, c) || Stray(st, c)) :: c.slot
  }

  /** The slots recovery sends to `i`: the first live node for each of them that is not its source. */
  function Sent(
    st: Store, nodes: seq<Instance>, ha: HA, cs: seq<Candidate>, now: int, i: Instance): set<Slot>
  {
    set c | c in cs && Adrift(st, c)
            && Replacement(st.leases, nodes, st.handoffs[c.slot].source, ha.lease, now) == Some(i) :: c.slot
  }

  /** The slots left with `i` once the candidates have been mended. */
  function Left(
    st: Store, nodes: seq<Instance>, ha: HA, cs: seq<Candidate>, now: int, i: Instance): set<Slot>
  {
    (To(st.handoffs, Some(i)) - Gone(st, cs)) + Sent(st, nodes, ha, cs, now, i)
  }

  /** Whether the intent for `s` counts against `i`. */
  predicate Counts1(hs: map<Slot, Handoff>, s: Slot, i: Instance) {
    s in hs && hs[s].Inflight() && hs[s].target == Some(i)
  }

  lemma {:induction false} MendCounts(
    st: Store, nodes: seq<Instance>, ha: HA, mint: Slot -> Id, c: Candidate, now: int, i: Instance)
    requires Coupled(st)
    ensures var mended := match Mend(st, nodes, ha, mint, c, now)
                          case Untouched => Counts1(st.handoffs, c.slot, i)
                          case Rewrite(h) => h.Inflight() && h.target == Some(i)
                          case Free(h) => h.Inflight() && h.target == Some(i);
            mended <==>
              (Counts1(st.handoffs, c.slot, i) && !Adrift(st, c) && !Stray(st, c))
              || (Adrift(st, c)
                  && Replacement(st.leases, nodes, st.handoffs[c.slot].source, ha.lease, now) == Some(i))
  {
    assert c.slot in st.handoffs ==> PairOk(st.slots[c.slot], IntentOf(st.handoffs, c.slot));
  }

  predicate Named(cs: seq<Candidate>, s: Slot) {
    exists k :: 0 <= k < |cs| && cs[k].slot == s
  }

  /** A slot no candidate names stays as it was; a named one goes as its candidate says. */
  lemma {:induction false} LeftOf(
    st: Store, nodes: seq<Instance>, ha: HA, cs: seq<Candidate>, now: int, i: Instance, s: Slot)
    requires DistinctCandidates(cs)
    ensures !Named(cs, s) ==> (s in Left(st, nodes, ha, cs, now, i) <==> Counts1(st.handoffs, s, i))
    ensures forall c | c in cs && c.slot == s ::
      s in Left(st, nodes, ha, cs, now, i) <==>
        (Counts1(st.handoffs, s, i) && !Adrift(st, c) && !Stray(st, c))
        || (Adrift(st, c) && Replacement(st.leases, nodes, st.handoffs[c.slot].source, ha.lease, now) == Some(i))
  {
    hide Adrift, Stray;
    forall c, d | c in cs && d in cs && c.slot == d.slot ensures c == d {
      var j :| 0 <= j < |cs| && cs[j] == c;
      var k :| 0 <= k < |cs| && cs[k] == d;
    }
  }

  lemma {:induction false} MendsNamed(
    st: Store, nodes: seq<Instance>, ha: HA, mint: Slot -> Id, cs: seq<Candidate>, now: int, s: Slot)
    ensures s in Mends(st, nodes, ha, mint, cs, now).intents ==> Named(cs, s)
  {
    if cs != [] {
      var front := cs[..|cs| - 1];
      MendsNamed(st, nodes, ha, mint, front, now, s);
      hide Mend;
      if Named(front, s) {
        var k :| 0 <= k < |front| && front[k].slot == s;
        assert cs[k].slot == s;
      }
    }
  }

  lemma {:induction false} MendsLeave(
    st: Store, nodes: seq<Instance>, ha: HA, mint: Slot -> Id, cs: seq<Candidate>, now: int, i: Instance, s: Slot)
    requires Coupled(st) && DistinctCandidates(cs)
    ensures Counts1(st.handoffs + Mends(st, nodes, ha, mint, cs, now).intents, s, i) <==>
      s in Left(st, nodes, ha, cs, now, i)
  {
    LeftOf(st, nodes, ha, cs, now, i, s);
    if cs == [] {
      assert !Named(cs, s);
    } else {
      var front, c := cs[..|cs| - 1], cs[|cs| - 1];
      MendsLeave(st, nodes, ha, mint, front, now, i, s);
      LeftOf(st, nodes, ha, front, now, i, s);
      MendsNamed(st, nodes, ha, mint, front, now, s);
      MendCounts(st, nodes, ha, mint, c, now, i);
      hide Mend, Adrift, Stray, Left, Coupled;
      if c.slot == s {
        assert !Named(front, s);
      } else {
        SameNaming(cs, s);
      }
    }
  }

  lemma SameNaming(cs: seq<Candidate>, s: Slot)
    requires cs != [] && cs[|cs| - 1].slot != s
    ensures Named(cs, s) <==> Named(cs[..|cs| - 1], s)
    ensures forall c: Candidate | c.slot == s :: c in cs <==> c in cs[..|cs| - 1]
  {
    var front := cs[..|cs| - 1];
    assert cs == front + [cs[|cs| - 1]];
    forall k | 0 <= k < |front| && front[k].slot == s ensures Named(cs, s) {
      assert cs[k].slot == s;
    }
    forall k | 0 <= k < |cs| && cs[k].slot == s ensures Named(front, s) {
      assert front[k].slot == s;
    }
  }

  /** The candidates are read before the transaction, so a lost tenure leaves everything as it was. */
  predicate Effective(st: Store, t: Txn, now: int) {
    t.RecoverTxn? && t.candidates != [] && Guarded(st.tenure, t.token, now)
  }

  /** What a committed recovery leaves counted against a target, slot by slot and in number. */
  lemma {:induction false} RecoveryLeaves(st: Store, t: Txn, now: int, i: Instance)
    requires Coupled(st) && Effective(st, t, now) && DistinctCandidates(t.candidates)
    ensures To(After(st, t, now).handoffs, Some(i)) == Left(st, t.nodes, t.ha, t.candidates, now, i)
    ensures |To(After(st, t, now).handoffs, Some(i))|
            == |To(st.handoffs, Some(i)) - Gone(st, t.candidates)| + |Sent(st, t.nodes, t.ha, t.candidates, now, i)|
  {
    var left := Left(st, t.nodes, t.ha, t.candidates, now, i);
    var hs := st.handoffs + Mends(st, t.nodes, t.ha, t.mint, t.candidates, now).intents;
    assert After(st, t, now).handoffs == hs;
    forall s ensures s in To(hs, Some(i)) <==> s in left {
      MendsLeave(st, t.nodes, t.ha, t.mint, t.candidates, now, i, s);
    }
    hide Mends, After, Coupled;
    assert Sent(st, t.nodes, t.ha, t.candidates, now, i) <= Gone(st, t.candidates);
  }

  // ------------------------------------------------------------------
  // Every other transaction.

  /** Nothing comes to count against `i` that did not already. */
  ghost predicate GainsNothing(hs: map<Slot, Handoff>, hs': map<Slot, Handoff>, i: Instance) {
    To(hs', Some(i)) <= To(hs, Some(i))
  }

  lemma {:induction false} OtherGainsNothing(st: Store, t: Txn, now: int, i: Instance)
    requires !t.ApplyTxn? && !Effective(st, t, now)
    ensures GainsNothing(st.handoffs, After(st, t, now).handoffs, i)
  {
    match t
    case PlanTxn(plans, token, limits, lease) =>
      if After(st, t, now) != st {
        forall k | 0 <= k < |plans| ensures PlanValid(plans[k].intent) {
        }
        AdmittedSettles(st, plans, lease, now);
      }
    case _ =>
  }

  // ------------------------------------------------------------------
  // Whole histories.

  /** Each recovery leaves the target within its share: a check on the rows and nodes it is about to act on. */
  ghost predicate RecoveriesFit(states: seq<Store>, events: seq<Event>, n: nat, i: Instance, cap: nat)
    requires n <= |events| < |states|
  {
    forall k | 0 <= k < n && Effective(states[k], events[k].txn, events[k].now) ::
      var t := events[k].txn;
      |To(states[k].handoffs, Some(i)) - Gone(states[k], t.candidates)|
        + |Sent(states[k], t.nodes, t.ha, t.candidates, events[k].now, i)| <= cap
  }

  ghost predicate SharesFit(states: seq<Store>, n: nat, i: Instance, cap: nat)
    requires n < |states|
  {
    forall k | 0 <= k <= n :: |To(states[k].handoffs, Some(i))| <= cap
  }

  lemma {:induction false} ShareStep(
    quiet: int, limits: Limits, states: seq<Store>, events: seq<Event>, k: nat, i: Instance)
    requires IsHistory(quiet, states, events) && Governed(events, limits) && k < |events|
    ensures var t, now := events[k].txn, events[k].now;
      if Effective(states[k], t, now) then
        |To(states[k + 1].handoffs, Some(i))|
          == |To(states[k].handoffs, Some(i)) - Gone(states[k], t.candidates)|
             + |Sent(states[k], t.nodes, t.ha, t.candidates, now, i)|
      else
        |To(states[k + 1].handoffs, Some(i))| <= Max(|To(states[k].handoffs, Some(i))|, limits.maxPerTarget)
  {
    var t, now := events[k].txn, events[k].now;
    CouplingHolds(quiet, states, events, k);
    assert WellFormed(t, quiet) && states[k + 1] == After(states[k], t, now);
    hide After, Coupled, Effective, Gone, Sent, To;
    if Effective(states[k], t, now) {
      assert t.RecoverTxn? by { EffectiveRecovers(states[k], t, now); }
      RecoveryLeaves(states[k], t, now, i);
    } else if t.ApplyTxn? {
      ApplyKeepsTargets(quiet, limits, states, events, k, i);
    } else {
      OtherGainsNothing(states[k], t, now, i);
      SubsetCount(To(states[k + 1].handoffs, Some(i)), To(states[k].handoffs, Some(i)));
    }
  }

  lemma EffectiveRecovers(st: Store, t: Txn, now: int)
    requires Effective(st, t, now)
    ensures t.RecoverTxn?
  {
  }

  /** A target stays within its share throughout a history exactly when every recovery leaves it so. */
  lemma {:induction false} SharesFitExactly(
    quiet: int, limits: Limits, states: seq<Store>, events: seq<Event>, n: nat, i: Instance)
    requires IsHistory(quiet, states, events) && Governed(events, limits) && n <= |events|
    ensures SharesFit(states, n, i, limits.maxPerTarget) <==>
            RecoveriesFit(states, events, n, i, limits.maxPerTarget)
  {
    hide After, WellFormed, Effective, Gone, Sent;
    if n == 0 {
      assert To(states[0].handoffs, Some(i)) == {};
    } else {
      SharesFitExactly(quiet, limits, states, events, n - 1, i);
      ShareStep(quiet, limits, states, events, n - 1, i);
      hide IsHistory, Governed, To;
    }
  }
}
