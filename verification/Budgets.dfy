/** Admission budgets of handoffs, over whole histories. */
module Budgets {
  import opened Tables
  import opened Transactions
  import opened Automaton
  import opened StoreRuns

  /** The in-flight handoffs, in total and per source, fit the limits. */
  ghost predicate Within(hs: map<Slot, Handoff>, limits: Limits) {
    && |Inflight(hs)| <= limits.maxInflight
    && forall i: Instance :: |From(hs, i)| <= limits.maxPerSource
  }

  lemma {:induction false} SubsetCount<T>(a: set<T>, b: set<T>)
    requires a <= b
    ensures |a| <= |b|
  {
    if a != {} {
      var x :| x in a;
      SubsetCount(a - {x}, b - {x});
    }
  }

  // ------------------------------------------------------------------
  // One command.

  /** A write that is not an admission puts nothing new in flight, and moves nothing in flight elsewhere. */
  predicate Carried(hs: map<Slot, Handoff>, s: Slot, h: Handoff) {
    h.Inflight() ==> s in hs && hs[s].Inflight() && hs[s].source == h.source && hs[s].target == h.target
  }

  lemma DecideBudget(st: Store, req: Request, w: Work, c: Command, now: int)
    requires Decide(st, req, w, c, now).Write?
    requires c.slot in st.slots ==> PairOk(st.slots[c.slot], IntentOf(st.handoffs, c.slot))
    ensures var o := Decide(st, req, w, c, now);
      if o.admitted then
        && w.total < req.limits.maxInflight
        && Tally(w.outgoing, o.intent.source) < req.limits.maxPerSource
        && (o.intent.target.Some? ==> Tally(w.incoming, o.intent.target) < req.limits.maxPerTarget)
      else
        Carried(st.handoffs, c.slot, o.intent)
  {
  }

  /** The counters the loop keeps are upper bounds of what its writes leave in flight. */
  ghost predicate Counts(hs: map<Slot, Handoff>, w: Work) {
    && |Inflight(hs + w.intents)| <= w.total
    && (forall i: Instance :: |From(hs + w.intents, i)| <= Tally(w.outgoing, i))
    && (forall i: Instance :: |To(hs + w.intents, Some(i))| <= Tally(w.incoming, Some(i)))
  }

  lemma CountedCounts(hs: map<Slot, Handoff>)
    ensures Counts(hs, Counted(hs))
  {
    var w := Counted(hs);
    assert hs + w.intents == hs;
    forall i: Instance ensures |From(hs, i)| <= Tally(w.outgoing, i) {
      if From(hs, i) != {} {
        var s :| s in From(hs, i);
        assert s in Inflight(hs);
      }
    }
    forall i: Instance ensures |To(hs, Some(i))| <= Tally(w.incoming, Some(i)) {
      if To(hs, Some(i)) != {} {
        var s :| s in To(hs, Some(i));
        assert s in Inflight(hs);
      }
    }
  }

  lemma AddOne<T>(a: set<T>, b: set<T>, x: T)
    requires a <= b + {x}
    ensures |a| <= |b| + 1
  {
    SubsetCount(a, b + {x});
  }

  lemma CarriedCounts(m: map<Slot, Handoff>, s: Slot, h: Handoff)
    requires Carried(m, s, h)
    ensures |Inflight(m[s := h])| <= |Inflight(m)|
    ensures forall i: Instance :: |From(m[s := h], i)| <= |From(m, i)|
    ensures forall i: Instance :: |To(m[s := h], Some(i))| <= |To(m, Some(i))|
  {
    SubsetCount(Inflight(m[s := h]), Inflight(m));
    forall i: Instance ensures |From(m[s := h], i)| <= |From(m, i)| {
      SubsetCount(From(m[s := h], i), From(m, i));
    }
    forall i: Instance ensures |To(m[s := h], Some(i))| <= |To(m, Some(i))| {
      SubsetCount(To(m[s := h], Some(i)), To(m, Some(i)));
    }
  }

  lemma AdmittedCounts(m: map<Slot, Handoff>, s: Slot, h: Handoff)
    ensures |Inflight(m[s := h])| <= |Inflight(m)| + 1
    ensures forall i: Instance :: |From(m[s := h], i)| <= |From(m, i)| + (if i == h.source then 1 else 0)
    ensures forall i: Instance :: |To(m[s := h], Some(i))| <= |To(m, Some(i))| + (if Some(i) == h.target then 1 else 0)
  {
    AddOne(Inflight(m[s := h]), Inflight(m), s);
    forall i: Instance ensures |From(m[s := h], i)| <= |From(m, i)| + (if i == h.source then 1 else 0) {
      if i == h.source {
        AddOne(From(m[s := h], i), From(m, i), s);
      } else {
        SubsetCount(From(m[s := h], i), From(m, i));
      }
    }
    forall i: Instance ensures |To(m[s := h], Some(i))| <= |To(m, Some(i))| + (if Some(i) == h.target then 1 else 0) {
      if Some(i) == h.target {
        AddOne(To(m[s := h], Some(i)), To(m, Some(i)), s);
      } else {
        SubsetCount(To(m[s := h], Some(i)), To(m, Some(i)));
      }
    }
  }

  /** The loop's counters never pass the limits, except where a target was over its own before. */
  ghost predicate Bounded(hs: map<Slot, Handoff>, limits: Limits, w: Work) {
    && w.total <= limits.maxInflight
    && (forall i: Instance :: Tally(w.outgoing, i) <= limits.maxPerSource)
    && (forall i: Instance :: Tally(w.incoming, Some(i)) <= Max(|To(hs, Some(i))|, limits.maxPerTarget))
  }

  ghost predicate Tracked(hs: map<Slot, Handoff>, limits: Limits, w: Work) {
    Counts(hs, w) && Bounded(hs, limits, w) && w.intents.Keys <= w.seen
  }

  lemma IncrementTally<K>(m: map<K, nat>, k: K, j: K)
    ensures Tally(Increment(m, k), j) == Tally(m, j) + (if j == k then 1 else 0)
  {
  }

  predicate Admissible(limits: Limits, w: Work, h: Handoff) {
    && w.total < limits.maxInflight && Tally(w.outgoing, h.source) < limits.maxPerSource
    && (h.target.Some? ==> Tally(w.incoming, h.target) < limits.maxPerTarget)
  }

  lemma RecordAdmitted(hs: map<Slot, Handoff>, limits: Limits, w: Work, s: Slot, o: Outcome)
    requires o.Write? && Tracked(hs, limits, w) && o.admitted && Admissible(limits, w, o.intent)
    ensures Tracked(hs, limits, Record(w.(seen := w.seen + {s}), s, o))
  {
    var w' := Record(w.(seen := w.seen + {s}), s, o);
    var m := hs + w.intents;
    assert hs + w'.intents == m[s := o.intent];
    AdmittedCounts(m, s, o.intent);
    forall i: Instance
      ensures |From(hs + w'.intents, i)| <= Tally(w'.outgoing, i) <= limits.maxPerSource
      ensures |To(hs + w'.intents, Some(i))| <= Tally(w'.incoming, Some(i))
          <= Max(|To(hs, Some(i))|, limits.maxPerTarget)
    {
      IncrementTally(w.outgoing, o.intent.source, i);
      IncrementTally(w.incoming, o.intent.target, Some(i));
    }
  }

  lemma RecordCarried(hs: map<Slot, Handoff>, limits: Limits, w: Work, s: Slot, o: Outcome)
    requires o.Write? && s !in w.seen && Tracked(hs, limits, w) && !o.admitted && Carried(hs, s, o.intent)
    ensures Tracked(hs, limits, Record(w.(seen := w.seen + {s}), s, o))
  {
    var w' := Record(w.(seen := w.seen + {s}), s, o);
    var m := hs + w.intents;
    assert hs + w'.intents == m[s := o.intent];
    assert Carried(m, s, o.intent);
    CarriedCounts(m, s, o.intent);
  }

  lemma StepTracked(st: Store, req: Request, w: Work, c: Command, now: int)
    requires Coupled(st) && Tracked(st.handoffs, req.limits, w) && Step(st, req, w, c, now).Ok?
    ensures Tracked(st.handoffs, req.limits, Step(st, req, w, c, now).value)
  {
    var w1 := w.(seen := w.seen + {c.slot});
    assert c.slot in st.slots ==> PairOk(st.slots[c.slot], IntentOf(st.handoffs, c.slot));
    if Decide(st, req, w1, c, now).Write? {
      DecideBudget(st, req, w1, c, now);
      hide Decide, Tracked, Carried, Coupled, PairOk;
      var o := Decide(st, req, w1, c, now);
      if o.admitted {
        RecordAdmitted(st.handoffs, req.limits, w, c.slot, o);
      } else {
        RecordCarried(st.handoffs, req.limits, w, c.slot, o);
      }
    } else {
      hide Decide, Coupled;
    }
  }

  lemma {:induction false} StepsTracked(st: Store, req: Request, commands: seq<Command>, now: int)
    requires Coupled(st) && Tracked(st.handoffs, req.limits, Counted(st.handoffs))
    requires Steps(st, req, Counted(st.handoffs), commands, now).Ok?
    ensures Tracked(st.handoffs, req.limits, Steps(st, req, Counted(st.handoffs), commands, now).value)
  {
    hide Coupled, Tracked, Step;
    if commands != [] {
      StepsTracked(st, req, commands[..|commands| - 1], now);
      var w := Steps(st, req, Counted(st.handoffs), commands[..|commands| - 1], now).value;
      StepTracked(st, req, w, commands[|commands| - 1], now);
    }
  }

  lemma ApplyWithin(st: Store, req: Request, now: int)
    requires Coupled(st) && Within(st.handoffs, req.limits)
    ensures var st' := After(st, ApplyTxn(req), now);
      && Within(st'.handoffs, req.limits)
      && forall i: Instance :: |To(st'.handoffs, Some(i))| <= Max(|To(st.handoffs, Some(i))|, req.limits.maxPerTarget)
  {
    hide Coupled;
    var w0 := Counted(st.handoffs);
    CountedCounts(st.handoffs);
    CountedBounded(st.handoffs, req.limits);
    if Steps(st, req, w0, req.commands, now).Ok? {
      StepsTracked(st, req, req.commands, now);
    }
    hide Steps;
  }

  lemma CountedBounded(hs: map<Slot, Handoff>, limits: Limits)
    requires Within(hs, limits)
    ensures Bounded(hs, limits, Counted(hs))
  {
  }

  // ------------------------------------------------------------------
  // Every other transaction puts nothing new in flight.

  ghost predicate Settles(hs: map<Slot, Handoff>, hs': map<Slot, Handoff>) {
    forall s | s in hs' && hs'[s].Inflight() :: s in hs && hs[s].Inflight() && hs[s].source == hs'[s].source
  }

  lemma SettlesWithin(hs: map<Slot, Handoff>, hs': map<Slot, Handoff>, limits: Limits)
    requires Settles(hs, hs') && Within(hs, limits)
    ensures Within(hs', limits)
  {
    SubsetCount(Inflight(hs'), Inflight(hs));
    forall i: Instance ensures |From(hs', i)| <= limits.maxPerSource {
      SubsetCount(From(hs', i), From(hs, i));
    }
  }

  lemma {:induction false} AdmittedSettles(st: Store, plans: seq<Plan>, lease: int, now: int)
    requires forall i | 0 <= i < |plans| :: PlanValid(plans[i].intent)
    ensures forall s | s in Admitted(st, plans, lease, now) :: !Admitted(st, plans, lease, now)[s].Inflight()
  {
    if plans != [] {
      AdmittedSettles(st, plans[..|plans| - 1], lease, now);
    }
  }

  lemma MendSettles(st: Store, nodes: seq<Instance>, ha: HA, mint: Slot -> Id, c: Candidate, now: int)
    ensures match Mend(st, nodes, ha, mint, c, now)
            case Untouched => true
            case Rewrite(h) =>
              h.Inflight() ==>
                (c.slot in st.handoffs && st.handoffs[c.slot].Inflight() && st.handoffs[c.slot].source == h.source)
            case Free(h) => !h.Inflight()
  {
  }

  lemma {:induction false} MendsSettles(
    st: Store, nodes: seq<Instance>, ha: HA, mint: Slot -> Id, cs: seq<Candidate>, now: int)
    ensures Settles(st.handoffs, Mends(st, nodes, ha, mint, cs, now).intents)
  {
    if cs != [] {
      MendsSettles(st, nodes, ha, mint, cs[..|cs| - 1], now);
      MendSettles(st, nodes, ha, mint, cs[|cs| - 1], now);
      hide Mend;
    }
  }

  lemma OtherSettles(st: Store, t: Txn, now: int)
    requires !t.ApplyTxn?
    ensures Settles(st.handoffs, After(st, t, now).handoffs)
  {
    match t
    case PlanTxn(plans, token, limits, lease) =>
      if After(st, t, now) != st {
        forall i | 0 <= i < |plans| ensures PlanValid(plans[i].intent) {
        }
        AdmittedSettles(st, plans, lease, now);
      }
    case RecoverTxn(_, _, _, _, _) => RecoverSettles(st, t, now);
    case _ =>
  }

  lemma RecoverSettles(st: Store, t: Txn, now: int)
    requires t.RecoverTxn?
    ensures Settles(st.handoffs, After(st, t, now).handoffs)
  {
    MendsSettles(st, t.nodes, t.ha, t.mint, t.candidates, now);
    var m := Mends(st, t.nodes, t.ha, t.mint, t.candidates, now);
    assert After(st, t, now) == st || After(st, t, now).handoffs == st.handoffs + m.intents;
    hide Mends, After;
  }

  // ------------------------------------------------------------------

  /** One configuration governs every execution transaction. */
  ghost predicate Governed(events: seq<Event>, limits: Limits) {
    forall i | 0 <= i < |events| && events[i].txn.ApplyTxn? :: events[i].txn.request.limits == limits
  }

  /** DRAINING and TRANSFERRED handoffs never exceed the budget in total, nor any source's share. */
  lemma {:induction false} BudgetsHold(
    quiet: int, limits: Limits, states: seq<Store>, events: seq<Event>, i: nat)
    requires IsHistory(quiet, states, events) && Governed(events, limits) && i < |states|
    ensures Within(states[i].handoffs, limits)
  {
    hide After, WellFormed, Coupled, Within, Settles;
    if i == 0 {
      NoneWithin(states[0].handoffs, limits);
    } else {
      BudgetsHold(quiet, limits, states, events, i - 1);
      var e := events[i - 1];
      if e.txn.ApplyTxn? {
        CouplingHolds(quiet, states, events, i - 1);
        ApplyWithin(states[i - 1], e.txn.request, e.now);
        assert e.txn == ApplyTxn(e.txn.request);
      } else {
        OtherSettles(states[i - 1], e.txn, e.now);
        SettlesWithin(states[i - 1].handoffs, states[i].handoffs, limits);
      }
    }
  }

  lemma NoneWithin(hs: map<Slot, Handoff>, limits: Limits)
    requires hs == map[]
    ensures Within(hs, limits)
  {
  }

  /** Executing commands never pushes a target past its share; one already past it gains nothing. */
  lemma ApplyKeepsTargets(
    quiet: int, limits: Limits, states: seq<Store>, events: seq<Event>, i: nat, target: Instance)
    requires IsHistory(quiet, states, events) && Governed(events, limits) && i < |events|
    requires events[i].txn.ApplyTxn?
    ensures |To(states[i + 1].handoffs, Some(target))|
            <= Max(|To(states[i].handoffs, Some(target))|, limits.maxPerTarget)
  {
    hide After, WellFormed, Coupled, Within;
    BudgetsHold(quiet, limits, states, events, i);
    CouplingHolds(quiet, states, events, i);
    ApplyWithin(states[i], events[i].txn.request, events[i].now);
    assert events[i].txn == ApplyTxn(events[i].txn.request);
  }
}
