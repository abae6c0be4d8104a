/** Handoff IDs name one source, epoch and target for good, so recovery's mismatch branches are dead. */
module HandoffIdentity {
  import opened Tables
  import opened Transactions
  import opened Automaton
  import opened StoreRuns

  /** The transaction introduces the ID: a planned intent, a withdrawal's release, or a retarget. */
  predicate Mints(t: Txn, id: Id) {
    match t
    case PlanTxn(plans, _, _, _) => exists i :: 0 <= i < |plans| && plans[i].intent.id == id
    case ApplyTxn(request) => exists c :: c in request.commands && c.action == WithdrawCmd && c.intent.id == id
    case RecoverTxn(_, _, _, mint, candidates) => exists i :: 0 <= i < |candidates| && mint(candidates[i].slot) == id
    case _ => false
  }

  predicate SameIntent(h: Handoff, h': Handoff) {
    && h'.id == h.id && h'.source == h.source && h'.sourceEpoch == h.sourceEpoch && h'.target == h.target
  }

  predicate Continues(hs: map<Slot, Handoff>, t: Txn, s: Slot, h': Handoff) {
    (s in hs && SameIntent(hs[s], h')) || Mints(t, h'.id)
  }

  ghost predicate IdStep(st: Store, t: Txn, st': Store) {
    forall s | s in st'.handoffs :: Continues(st.handoffs, t, s, st'.handoffs[s])
  }

  ghost predicate AllContinue(hs: map<Slot, Handoff>, t: Txn, intents: map<Slot, Handoff>) {
    forall s | s in intents :: Continues(hs, t, s, intents[s])
  }

  lemma OneMore(hs: map<Slot, Handoff>, t: Txn, intents: map<Slot, Handoff>, s: Slot, h: Handoff)
    requires AllContinue(hs, t, intents) && Continues(hs, t, s, h)
    ensures AllContinue(hs, t, intents[s := h])
  {
    hide Continues;
  }

  lemma {:induction false} AdmittedFrom(st: Store, plans: seq<Plan>, lease: int, now: int)
    ensures forall s | s in Admitted(st, plans, lease, now) ::
              exists i :: 0 <= i < |plans| && plans[i].intent == Admitted(st, plans, lease, now)[s]
  {
    if plans != [] {
      var front := plans[..|plans| - 1];
      AdmittedFrom(st, front, lease, now);
      forall s | s in Admitted(st, plans, lease, now)
        ensures exists i :: 0 <= i < |plans| && plans[i].intent == Admitted(st, plans, lease, now)[s]
      {
        if s in Admitted(st, front, lease, now)
            && Admitted(st, front, lease, now)[s] == Admitted(st, plans, lease, now)[s] {
          var i :| 0 <= i < |front| && front[i].intent == Admitted(st, front, lease, now)[s];
          assert plans[i] == front[i];
        } else {
          assert plans[|plans| - 1].intent == Admitted(st, plans, lease, now)[s];
        }
      }
    }
  }

  lemma PlanIds(st: Store, t: Txn, now: int)
    requires t.PlanTxn?
    ensures IdStep(st, t, After(st, t, now))
  {
    AdmittedFrom(st, t.plans, t.lease, now);
  }

  lemma DecideIds(st: Store, t: Txn, w: Work, c: Command, now: int)
    requires t.ApplyTxn? && c in t.request.commands && Decide(st, t.request, w, c, now).Write?
    ensures Continues(st.handoffs, t, c.slot, Decide(st, t.request, w, c, now).intent)
  {
    assert c.action == WithdrawCmd ==> Mints(t, c.intent.id);
  }

  lemma {:induction false} StepsIds(st: Store, t: Txn, w0: Work, commands: seq<Command>, now: int)
    requires t.ApplyTxn? && (forall c | c in commands :: c in t.request.commands) && w0.intents == map[]
    requires Steps(st, t.request, w0, commands, now).Ok?
    ensures var w := Steps(st, t.request, w0, commands, now).value;
      forall s | s in w.intents :: Continues(st.handoffs, t, s, w.intents[s])
  {
    hide Decide, Continues;
    if commands != [] {
      var front, c := commands[..|commands| - 1], commands[|commands| - 1];
      StepsIds(st, t, w0, front, now);
      var w := Steps(st, t.request, w0, front, now).value;
      var w1 := w.(seen := w.seen + {c.slot});
      if Decide(st, t.request, w1, c, now).Write? {
        DecideIds(st, t, w1, c, now);
      }
    }
  }

  lemma ApplyIds(st: Store, t: Txn, now: int)
    requires t.ApplyTxn?
    ensures IdStep(st, t, After(st, t, now))
  {
    hide Steps, Mints;
    if Steps(st, t.request, Counted(st.handoffs), t.request.commands, now).Ok? {
      StepsIds(st, t, Counted(st.handoffs), t.request.commands, now);
    }
  }

  lemma MendIds(st: Store, t: Txn, c: Candidate, now: int)
    requires t.RecoverTxn? && c in t.candidates
    ensures match Mend(st, t.nodes, t.ha, t.mint, c, now)
            case Untouched => true
            case Rewrite(h) => Continues(st.handoffs, t, c.slot, h)
            case Free(h) => Continues(st.handoffs, t, c.slot, h)
  {
    var i :| 0 <= i < |t.candidates| && t.candidates[i] == c;
    assert t.mint(t.candidates[i].slot) == t.mint(c.slot);
    assert Mints(t, t.mint(c.slot));
  }

  lemma {:induction false} MendsIds(st: Store, t: Txn, cs: seq<Candidate>, now: int)
    requires t.RecoverTxn? && forall c | c in cs :: c in t.candidates
    ensures AllContinue(st.handoffs, t, Mends(st, t.nodes, t.ha, t.mint, cs, now).intents)
  {
    if cs != [] {
      var front, c := cs[..|cs| - 1], cs[|cs| - 1];
      MendsIds(st, t, front, now);
      MendIds(st, t, c, now);
      hide Mend, AllContinue, Continues;
      var m := Mends(st, t.nodes, t.ha, t.mint, front, now);
      match Mend(st, t.nodes, t.ha, t.mint, c, now)
      case Untouched =>
      case Rewrite(h) => OneMore(st.handoffs, t, m.intents, c.slot, h);
      case Free(h) => OneMore(st.handoffs, t, m.intents, c.slot, h);
    }
  }

  lemma RecoverIds(st: Store, t: Txn, now: int)
    requires t.RecoverTxn?
    ensures IdStep(st, t, After(st, t, now))
  {
    MendsIds(st, t, t.candidates, now);
    var m := Mends(st, t.nodes, t.ha, t.mint, t.candidates, now);
    var st' := After(st, t, now);
    assert st' == st || st'.handoffs == st.handoffs + m.intents;
    hide Mends, Mints, After, Continues;
    assert AllContinue(st.handoffs, t, m.intents);
    forall s | s in st'.handoffs ensures Continues(st.handoffs, t, s, st'.handoffs[s]) {
      if s !in m.intents {
        SameContinues(st.handoffs, t, s);
      }
    }
  }

  lemma SameContinues(hs: map<Slot, Handoff>, t: Txn, s: Slot)
    requires s in hs
    ensures Continues(hs, t, s, hs[s])
  {
  }

  lemma ClaimIds(st: Store, t: Txn, now: int)
    requires t.ClaimTxn?
    ensures IdStep(st, t, After(st, t, now))
  {
  }

  lemma SameIds(st: Store, t: Txn, now: int)
    requires !t.PlanTxn? && !t.ApplyTxn? && !t.RecoverTxn? && !t.ClaimTxn?
    ensures IdStep(st, t, After(st, t, now))
  {
    assert After(st, t, now).handoffs == st.handoffs;
  }

  lemma EveryIdStep(st: Store, t: Txn, now: int)
    ensures IdStep(st, t, After(st, t, now))
  {
    match t
    case PlanTxn(_, _, _, _) => PlanIds(st, t, now);
    case ApplyTxn(_) => ApplyIds(st, t, now);
    case RecoverTxn(_, _, _, _, _) => RecoverIds(st, t, now);
    case ClaimTxn(_, _) => ClaimIds(st, t, now);
    case _ => SameIds(st, t, now);
  }

  // ------------------------------------------------------------------

  /** Generated IDs are new: none occurred in any store before. */
  ghost predicate FreshIds(states: seq<Store>, events: seq<Event>)
    requires |states| == |events| + 1
  {
    forall i, k, s | 0 <= i <= k < |events| && s in states[i].handoffs ::
      !Mints(events[k].txn, states[i].handoffs[s].id)
  }

  /** Two rows of one slot with one ID are one intent. */
  lemma {:induction false} IdNamesIntent(
    quiet: int, states: seq<Store>, events: seq<Event>, i: nat, j: nat, s: Slot)
    requires IsHistory(quiet, states, events) && FreshIds(states, events)
    requires i <= j < |states| && s in states[i].handoffs && s in states[j].handoffs
    requires states[i].handoffs[s].id == states[j].handoffs[s].id
    ensures SameIntent(states[i].handoffs[s], states[j].handoffs[s])
    decreases j
  {
    hide After, Mints;
    if i < j {
      EveryIdStep(states[j - 1], events[j - 1].txn, events[j - 1].now);
      assert Continues(states[j - 1].handoffs, events[j - 1].txn, s, states[j].handoffs[s]);
      IdNamesIntent(quiet, states, events, i, j - 1, s);
    }
  }

  /** What recovery's unlocked read saw of a live handoff in some earlier store. */
  ghost predicate ReadAt(st: Store, c: Candidate) {
    && c.slot in st.handoffs
    && var h := st.handoffs[c.slot];
    && h.id == c.id && h.sourceEpoch == c.sourceEpoch && h.target == c.target
  }

  /** Recovery cancels only intents that had not begun to drain: its mismatch branches for DRAINING and
      TRANSFERRED intents are never taken. */
  lemma RecoveryCancelsOnlyUndrained(
    quiet: int, states: seq<Store>, events: seq<Event>, i: nat, j: nat, c: Candidate,
    nodes: seq<Instance>, ha: HA, mint: Slot -> Id, now: int)
    requires IsHistory(quiet, states, events) && FreshIds(states, events)
    requires i <= j < |states| && ReadAt(states[i], c)
    requires Mend(states[j], nodes, ha, mint, c, now).Rewrite?
    requires Mend(states[j], nodes, ha, mint, c, now).intent.phase == Cancelled
    ensures c.slot in states[j].handoffs
    ensures states[j].handoffs[c.slot].phase == Planned || states[j].handoffs[c.slot].phase == Ready
  {
    CouplingHolds(quiet, states, events, j);
    IdNamesIntent(quiet, states, events, i, j, c.slot);
    assert PairOk(states[j].slots[c.slot], IntentOf(states[j].handoffs, c.slot));
    hide IsHistory, FreshIds;
  }

  /** A live intent addressed by its ID always still matches its source row: the source checks of PREPARE,
      ACK_DRAIN and TRANSFER never fail on a phase they accept. */
  lemma LiveIntentsMatch(quiet: int, states: seq<Store>, events: seq<Event>, j: nat, s: Slot)
    requires IsHistory(quiet, states, events) && j < |states| && s in states[j].handoffs
    ensures s in states[j].slots
    ensures var h, r := states[j].handoffs[s], states[j].slots[s];
      match h.phase
      case Planned => SourceMatches(r, h) && r.state == Owned
      case Ready => SourceMatches(r, h) && r.state == Owned
      case Drain => SourceMatches(r, h) && r.state == Draining && h.notBefore.Some?
      case Transferred => r == Row(h.target, h.sourceEpoch + 1, Owned)
      case Completed => r.state != Draining
      case Cancelled => r.state != Draining
  {
    CouplingHolds(quiet, states, events, j);
    assert PairOk(states[j].slots[s], IntentOf(states[j].handoffs, s));
    hide IsHistory;
  }
}
