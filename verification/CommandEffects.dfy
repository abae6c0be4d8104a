/** What each handoff command does, told from the tables before and after an accepted batch.

Nothing here mentions how the batch is executed. The budgets a command finds left are
those of the rows in flight before the batch and of the drains the batch has begun by
then, which show in the tables as slots gone from OWNED to DRAINING.
*/
module CommandEffects {
  import opened Tables
  import opened Transactions
  import opened Automaton

  // ------------------------------------------------------------------
  // The guards, over rows and intents alone.

  /** The command names the intent on record. */
  predicate OnRecord(st: Store, c: Command) {
    && c.slot in st.slots && c.slot in st.handoffs
    && st.handoffs[c.slot].id == c.intent.id
    && st.handoffs[c.slot].source == c.intent.source
    && st.handoffs[c.slot].sourceEpoch == c.intent.sourceEpoch
    && st.handoffs[c.slot].target == c.intent.target
  }

  /** An ACTIVE lease granted less than the lease duration ago. */
  predicate Current(leases: map<Instance, Lease>, id: Instance, lease: int, now: int) {
    && id != "" && id in leases && leases[id].state == Active
    && lease > 0 && now < leases[id].grantedAt + lease
  }

  predicate TargetCurrentFor(st: Store, req: Request, h: Handoff, now: int) {
    h.target.Some? && Current(st.leases, h.target.value, req.ha.lease, now)
  }

  /** The request comes from the intent's target, current and at its current revision. */
  predicate FromTarget(st: Store, req: Request, h: Handoff, now: int) {
    && Some(req.instance) == h.target && TargetCurrentFor(st, req, h, now)
    && st.leases[req.instance].revision == req.revision
  }

  /** The drain may end: it was acknowledged, or its boundary has passed. */
  predicate Over(h: Handoff, now: int) {
    h.drained || (h.notBefore.Some? && now >= h.notBefore.value)
  }

  /** Neither the slot's row nor its intent changed. */
  predicate Unmoved(st: Store, st': Store, s: Slot) {
    && (s in st.slots <==> s in st'.slots) && (s in st.slots ==> st'.slots[s] == st.slots[s])
    && (s in st.handoffs <==> s in st'.handoffs) && (s in st.handoffs ==> st'.handoffs[s] == st.handoffs[s])
  }

  predicate Becomes(st': Store, s: Slot, h: Handoff, r: Row) {
    && s in st'.slots && st'.slots[s] == r
    && s in st'.handoffs && st'.handoffs[s] == h
  }

  // ------------------------------------------------------------------
  // Budgets.

  function Flying(hs: map<Slot, Handoff>): set<Slot> {
    set s | s in hs && (hs[s].phase == Drain || hs[s].phase == Transferred)
  }

  function FlyingFrom(hs: map<Slot, Handoff>, p: Instance): set<Slot> {
    set s | s in hs && (hs[s].phase == Drain || hs[s].phase == Transferred) && hs[s].source == p
  }

  function FlyingTo(hs: map<Slot, Handoff>, t: Option<Instance>): set<Slot> {
    set s | s in hs && (hs[s].phase == Drain || hs[s].phase == Transferred) && hs[s].target == t
  }

  /** The `j`-th command began a drain. */
  predicate Began(st: Store, st': Store, cs: seq<Command>, j: nat) {
    && j < |cs| && cs[j].slot in st.slots && cs[j].slot in st'.slots && cs[j].slot in st'.handoffs
    && st.slots[cs[j].slot].state == Owned && st'.slots[cs[j].slot].state == Draining
  }

  function Beginnings(st: Store, st': Store, cs: seq<Command>, k: nat): set<nat> {
    set j | 0 <= j < k && Began(st, st', cs, j)
  }

  function BeginningsFrom(st: Store, st': Store, cs: seq<Command>, k: nat, p: Instance): set<nat> {
    set j | 0 <= j < k && Began(st, st', cs, j) && st'.handoffs[cs[j].slot].source == p
  }

  function BeginningsTo(st: Store, st': Store, cs: seq<Command>, k: nat, t: Option<Instance>): set<nat> {
    set j | 0 <= j < k && Began(st, st', cs, j) && st'.handoffs[cs[j].slot].target == t
  }

  /** The `k`-th command finds room for one more drain of this kind, source and target. */
  predicate Room(st: Store, st': Store, req: Request, k: nat, h: Handoff) {
    && |Flying(st.handoffs)| + |Beginnings(st, st', req.commands, k)| < req.limits.maxInflight
    && |FlyingFrom(st.handoffs, h.source)| + |BeginningsFrom(st, st', req.commands, k, h.source)|
         < req.limits.maxPerSource
    && (h.kind == Transfer ==>
          |FlyingTo(st.handoffs, h.target)| + |BeginningsTo(st, st', req.commands, k, h.target)|
            < req.limits.maxPerTarget)
  }

  // ------------------------------------------------------------------
  // The run of the batch.

  function WorkAt(st: Store, req: Request, now: int, k: nat): Result<Work>
    requires k <= |req.commands|
  {
    Steps(st, req, Counted(st.handoffs), req.commands[..k], now)
  }

  function OutcomeAt(st: Store, req: Request, now: int, k: nat): Outcome
    requires k < |req.commands|
  {
    var c := req.commands[k];
    match WorkAt(st, req, now, k)
    case Ok(w) => Decide(st, req, w.(seen := w.seen + {c.slot}), c, now)
    case Err(e) => Fail(e)
  }

  predicate Admits(st: Store, req: Request, now: int, j: nat) {
    j < |req.commands| && OutcomeAt(st, req, now, j).Write? && OutcomeAt(st, req, now, j).admitted
  }

  function Admissions(st: Store, req: Request, now: int, k: nat): set<nat> {
    set j | 0 <= j < k && Admits(st, req, now, j)
  }

  function AdmissionsFrom(st: Store, req: Request, now: int, k: nat, p: Instance): set<nat> {
    set j | 0 <= j < k && Admits(st, req, now, j) && OutcomeAt(st, req, now, j).intent.source == p
  }

  function AdmissionsTo(st: Store, req: Request, now: int, k: nat, t: Option<Instance>): set<nat> {
    set j | 0 <= j < k && Admits(st, req, now, j) && OutcomeAt(st, req, now, j).intent.target == t
  }

  ghost predicate Tallied(st: Store, req: Request, now: int, k: nat, w: Work) {
    && w.total == |Inflight(st.handoffs)| + |Admissions(st, req, now, k)|
    && (forall p: Instance ::
          Tally(w.outgoing, p) == |From(st.handoffs, p)| + |AdmissionsFrom(st, req, now, k, p)|)
    && (forall t: Option<Instance> ::
          Tally(w.incoming, t) == |To(st.handoffs, t)| + |AdmissionsTo(st, req, now, k, t)|)
  }

  /** What one outcome left in the work at its slot. */
  predicate Left(w: Work, s: Slot, o: Outcome) {
    match o
    case Skip => s !in w.rows && s !in w.intents
    case Fail(_) => false
    case Write(h, row, _, _) =>
      && s in w.intents && w.intents[s] == h
      && (if row.Some? then s in w.rows && w.rows[s] == row.value else s !in w.rows)
  }

  ghost predicate Noted(st: Store, req: Request, now: int, k: nat, w: Work)
    requires k <= |req.commands|
  {
    && (forall j | 0 <= j < k :: req.commands[j].slot in w.seen)
    && (forall s | s in w.seen :: exists j :: 0 <= j < k && req.commands[j].slot == s)
    && w.rows.Keys <= w.seen && w.intents.Keys <= w.seen
    && (forall j | 0 <= j < k :: Left(w, req.commands[j].slot, OutcomeAt(st, req, now, j)))
    && (forall p: Instance :: p in w.bumped <==>
          exists j :: 0 <= j < k && OutcomeAt(st, req, now, j).Write? && p in OutcomeAt(st, req, now, j).bumps)
  }

  lemma {:induction false} OneMoreStep(st: Store, req: Request, now: int, k: nat)
    requires k < |req.commands|
    ensures WorkAt(st, req, now, k + 1) ==
      match WorkAt(st, req, now, k)
      case Err(e) => Err(e)
      case Ok(w) => Step(st, req, w, req.commands[k], now)
  {
    var cs := req.commands[..k + 1];
    assert cs[..|cs| - 1] == req.commands[..k] && cs[|cs| - 1] == req.commands[k];
    hide Step, Counted;
  }

  lemma TalliedStart(st: Store, req: Request, now: int)
    ensures Tallied(st, req, now, 0, Counted(st.handoffs))
  {
    var hs, w := st.handoffs, Counted(st.handoffs);
    forall p: Instance ensures Tally(w.outgoing, p) == |From(hs, p)| {
      if s :| s in From(hs, p) {
        assert s in Inflight(hs);
      } else {
        assert From(hs, p) == {};
      }
    }
    forall t: Option<Instance> ensures Tally(w.incoming, t) == |To(hs, t)| {
      if s :| s in To(hs, t) {
        assert s in Inflight(hs);
      } else {
        assert To(hs, t) == {};
      }
    }
  }

  lemma GrowByOne(a: set<nat>, b: set<nat>, k: nat, grows: bool)
    requires k !in a && b == if grows then a + {k} else a
    ensures |b| == |a| + (if grows then 1 else 0)
  {
  }

  lemma AdmissionsFromMore(st: Store, req: Request, now: int, k: nat, p: Instance)
    requires k < |req.commands|
    ensures |AdmissionsFrom(st, req, now, k + 1, p)| == |AdmissionsFrom(st, req, now, k, p)|
      + (if Admits(st, req, now, k) && OutcomeAt(st, req, now, k).intent.source == p then 1 else 0)
  {
    hide OutcomeAt;
    GrowByOne(AdmissionsFrom(st, req, now, k, p), AdmissionsFrom(st, req, now, k + 1, p), k,
              Admits(st, req, now, k) && OutcomeAt(st, req, now, k).intent.source == p);
  }

  lemma AdmissionsToMore(st: Store, req: Request, now: int, k: nat, t: Option<Instance>)
    requires k < |req.commands|
    ensures |AdmissionsTo(st, req, now, k + 1, t)| == |AdmissionsTo(st, req, now, k, t)|
      + (if Admits(st, req, now, k) && OutcomeAt(st, req, now, k).intent.target == t then 1 else 0)
  {
    hide OutcomeAt;
    GrowByOne(AdmissionsTo(st, req, now, k, t), AdmissionsTo(st, req, now, k + 1, t), k,
              Admits(st, req, now, k) && OutcomeAt(st, req, now, k).intent.target == t);
  }

  lemma AdmissionsAllMore(st: Store, req: Request, now: int, k: nat)
    requires k < |req.commands|
    ensures |Admissions(st, req, now, k + 1)| == |Admissions(st, req, now, k)|
      + (if Admits(st, req, now, k) then 1 else 0)
  {
    hide OutcomeAt;
    GrowByOne(Admissions(st, req, now, k), Admissions(st, req, now, k + 1), k, Admits(st, req, now, k));
  }

  lemma AdmissionsMore(st: Store, req: Request, now: int, k: nat)
    requires k < |req.commands|
    ensures |Admissions(st, req, now, k + 1)| == |Admissions(st, req, now, k)|
      + (if Admits(st, req, now, k) then 1 else 0)
    ensures forall p: Instance ::
      |AdmissionsFrom(st, req, now, k + 1, p)| == |AdmissionsFrom(st, req, now, k, p)|
        + (if Admits(st, req, now, k) && OutcomeAt(st, req, now, k).intent.source == p then 1 else 0)
    ensures forall t: Option<Instance> ::
      |AdmissionsTo(st, req, now, k + 1, t)| == |AdmissionsTo(st, req, now, k, t)|
        + (if Admits(st, req, now, k) && OutcomeAt(st, req, now, k).intent.target == t then 1 else 0)
  {
    hide OutcomeAt, Admissions, AdmissionsFrom, AdmissionsTo;
    AdmissionsAllMore(st, req, now, k);
    forall p: Instance
      ensures |AdmissionsFrom(st, req, now, k + 1, p)| == |AdmissionsFrom(st, req, now, k, p)|
        + (if Admits(st, req, now, k) && OutcomeAt(st, req, now, k).intent.source == p then 1 else 0)
    {
      AdmissionsFromMore(st, req, now, k, p);
    }
    forall t: Option<Instance>
      ensures |AdmissionsTo(st, req, now, k + 1, t)| == |AdmissionsTo(st, req, now, k, t)|
        + (if Admits(st, req, now, k) && OutcomeAt(st, req, now, k).intent.target == t then 1 else 0)
    {
      AdmissionsToMore(st, req, now, k, t);
    }
  }

  lemma Recorded(w: Work, s: Slot, o: Outcome)
    requires o.Write?
    ensures var w' := Record(w, s, o);
      && w'.total == w.total + (if o.admitted then 1 else 0)
      && (forall p: Instance ::
            Tally(w'.outgoing, p) == Tally(w.outgoing, p) + (if o.admitted && o.intent.source == p then 1 else 0))
      && (forall t: Option<Instance> ::
            Tally(w'.incoming, t) == Tally(w.incoming, t) + (if o.admitted && o.intent.target == t then 1 else 0))
      && w'.seen == w.seen && w'.bumped == w.bumped + o.bumps
      && w'.intents == w.intents[s := o.intent]
      && w'.rows == (if o.row.Some? then w.rows[s := o.row.value] else w.rows)
  {
  }

  /** The step's work, told by its outcome. */
  lemma StepTold(st: Store, req: Request, w: Work, c: Command, now: int)
    ensures var o := Decide(st, req, w.(seen := w.seen + {c.slot}), c, now);
      match Step(st, req, w, c, now)
      case Err(_) => c.slot in w.seen || o.Fail?
      case Ok(w') =>
        && c.slot !in w.seen && !o.Fail?
        && w' == (if o.Write? then Record(w.(seen := w.seen + {c.slot}), c.slot, o)
                  else w.(seen := w.seen + {c.slot}))
  {
    hide Decide, Record;
  }

  lemma TalliedMore(st: Store, req: Request, now: int, k: nat, w: Work, w': Work)
    requires k < |req.commands| && WorkAt(st, req, now, k) == Ok(w) && WorkAt(st, req, now, k + 1) == Ok(w')
    requires Tallied(st, req, now, k, w)
    ensures Tallied(st, req, now, k + 1, w')
  {
    hide WorkAt, Step, Decide, Record, Admissions, AdmissionsFrom, AdmissionsTo, Inflight, From, To, Tally;
    var c, o := req.commands[k], OutcomeAt(st, req, now, k);
    OneMoreStep(st, req, now, k);
    StepTold(st, req, w, c, now);
    AdmissionsMore(st, req, now, k);
    if o.Write? {
      Recorded(w.(seen := w.seen + {c.slot}), c.slot, o);
    }
  }

  lemma NotedMore(st: Store, req: Request, now: int, k: nat, w: Work, w': Work)
    requires k < |req.commands| && WorkAt(st, req, now, k) == Ok(w) && WorkAt(st, req, now, k + 1) == Ok(w')
    requires Noted(st, req, now, k, w)
    ensures Noted(st, req, now, k + 1, w')
  {
    var c, o := req.commands[k], OutcomeAt(st, req, now, k);
    OneMoreStep(st, req, now, k);
    StepTold(st, req, w, c, now);
    if o.Write? {
      Recorded(w.(seen := w.seen + {c.slot}), c.slot, o);
    }
    assert o == Decide(st, req, w.(seen := w.seen + {c.slot}), c, now);
    hide WorkAt, Step, Decide, Record, OutcomeAt;
    NotedWith(st, req, now, k, w, w', o);
  }

  lemma LeftWith(st: Store, req: Request, now: int, k: nat, w: Work, w': Work, o: Outcome)
    requires k < |req.commands| && o == OutcomeAt(st, req, now, k) && !o.Fail?
    requires req.commands[k].slot !in w.seen && Noted(st, req, now, k, w)
    requires w'.intents == (if o.Write? then w.intents[req.commands[k].slot := o.intent] else w.intents)
    requires w'.rows == (if o.Write? && o.row.Some? then w.rows[req.commands[k].slot := o.row.value] else w.rows)
    ensures forall j | 0 <= j < k + 1 :: Left(w', req.commands[j].slot, OutcomeAt(st, req, now, j))
  {
    hide OutcomeAt;
  }

  lemma NotedWith(st: Store, req: Request, now: int, k: nat, w: Work, w': Work, o: Outcome)
    requires k < |req.commands| && o == OutcomeAt(st, req, now, k) && !o.Fail?
    requires req.commands[k].slot !in w.seen && Noted(st, req, now, k, w)
    requires w'.seen == w.seen + {req.commands[k].slot}
    requires w'.bumped == (if o.Write? then w.bumped + o.bumps else w.bumped)
    requires w'.intents == (if o.Write? then w.intents[req.commands[k].slot := o.intent] else w.intents)
    requires w'.rows == (if o.Write? && o.row.Some? then w.rows[req.commands[k].slot := o.row.value] else w.rows)
    ensures Noted(st, req, now, k + 1, w')
  {
    hide OutcomeAt, Left;
    LeftWith(st, req, now, k, w, w', o);
    forall s | s in w'.seen ensures exists j :: 0 <= j < k + 1 && req.commands[j].slot == s {
      if s == req.commands[k].slot {
        assert req.commands[k].slot == s;
      }
    }
    forall p: Instance
      ensures p in w'.bumped <==>
        exists j :: 0 <= j < k + 1 && OutcomeAt(st, req, now, j).Write? && p in OutcomeAt(st, req, now, j).bumps
    {
      if p in w'.bumped && p !in w.bumped {
        assert OutcomeAt(st, req, now, k).Write? && p in OutcomeAt(st, req, now, k).bumps;
      }
    }
  }

  lemma {:induction false} Prefix(st: Store, req: Request, now: int, n: nat, k: nat)
    requires k <= n <= |req.commands| && WorkAt(st, req, now, n).Ok?
    ensures WorkAt(st, req, now, k).Ok?
    ensures Tallied(st, req, now, k, WorkAt(st, req, now, k).value)
    ensures Noted(st, req, now, k, WorkAt(st, req, now, k).value)
    decreases k, n - k
  {
    hide Tallied, Noted, Step, Counted;
    PrefixOk(st, req, now, n, k);
    if k == 0 {
      assert req.commands[..0] == [];
      TalliedStart(st, req, now);
      NotedStart(st, req, now);
    } else {
      Prefix(st, req, now, n, k - 1);
      hide WorkAt;
      TalliedMore(st, req, now, k - 1, WorkAt(st, req, now, k - 1).value, WorkAt(st, req, now, k).value);
      NotedMore(st, req, now, k - 1, WorkAt(st, req, now, k - 1).value, WorkAt(st, req, now, k).value);
    }
  }

  lemma NotedStart(st: Store, req: Request, now: int)
    ensures Noted(st, req, now, 0, Counted(st.handoffs))
  {
  }

  lemma {:induction false} PrefixOk(st: Store, req: Request, now: int, n: nat, k: nat)
    requires k <= n <= |req.commands| && WorkAt(st, req, now, n).Ok?
    ensures WorkAt(st, req, now, k).Ok?
    decreases n
  {
    hide WorkAt;
    if k < n {
      OneMoreStep(st, req, now, n - 1);
      PrefixOk(st, req, now, n - 1, k);
    }
  }

  // ------------------------------------------------------------------
  // What an accepted batch leaves in the tables.

  /** The outcome of the command on `s`, as the tables show it. */
  predicate Landed(st: Store, st': Store, s: Slot, o: Outcome) {
    match o
    case Skip => Unmoved(st, st', s)
    case Fail(_) => false
    case Write(h, row, _, _) =>
      && s in st'.handoffs && st'.handoffs[s] == h
      && (if row.Some? then s in st'.slots && st'.slots[s] == row.value
          else (s in st.slots <==> s in st'.slots) && (s in st.slots ==> st'.slots[s] == st.slots[s]))
  }

  lemma {:induction false} AcceptedWork(st: Store, req: Request, now: int, st': Store)
    requires ApplyHandoffs(st, req, now) == Ok(st') && |req.commands| > 0
    ensures WorkAt(st, req, now, |req.commands|).Ok?
    ensures st' == Commit(st, WorkAt(st, req, now, |req.commands|).value)
  {
    assert req.commands[..|req.commands|] == req.commands;
    hide Steps, Counted, Commit;
  }

  lemma LeftLands(st: Store, w: Work, s: Slot, o: Outcome)
    requires Left(w, s, o)
    ensures Landed(st, Commit(st, w), s, o)
  {
    hide Bump;
  }

  lemma {:induction false} Lands(st: Store, req: Request, now: int, st': Store, k: nat)
    requires ApplyHandoffs(st, req, now) == Ok(st') && k < |req.commands|
    ensures WorkAt(st, req, now, k).Ok?
    ensures Landed(st, st', req.commands[k].slot, OutcomeAt(st, req, now, k))
  {
    hide WorkAt, OutcomeAt, Tallied, ApplyHandoffs, Left, Landed, Commit;
    var n := |req.commands|;
    AcceptedWork(st, req, now, st');
    PrefixOk(st, req, now, n, k);
    Prefix(st, req, now, n, n);
    LeftLands(st, WorkAt(st, req, now, n).value, req.commands[k].slot, OutcomeAt(st, req, now, k));
  }

  lemma UntouchedStays(st: Store, w: Work, s: Slot)
    requires s !in w.rows && s !in w.intents
    ensures Unmoved(st, Commit(st, w), s)
  {
    hide Bump;
  }

  /** Only the slots that commands name move. */
  lemma {:induction false} NamedOnly(st: Store, req: Request, now: int, st': Store, s: Slot)
    requires ApplyHandoffs(st, req, now) == Ok(st')
    requires forall c | c in req.commands :: c.slot != s
    ensures Unmoved(st, st', s)
  {
    if |req.commands| > 0 {
      NotNamed(st, req, now, st', s);
    }
  }

  lemma {:induction false} NotNamed(st: Store, req: Request, now: int, st': Store, s: Slot)
    requires ApplyHandoffs(st, req, now) == Ok(st') && |req.commands| > 0
    requires forall c | c in req.commands :: c.slot != s
    ensures Unmoved(st, st', s)
  {
    hide WorkAt, OutcomeAt, Tallied, ApplyHandoffs, Left, Unmoved, Commit;
    var n := |req.commands|;
    AcceptedWork(st, req, now, st');
    Prefix(st, req, now, n, n);
    var w := WorkAt(st, req, now, n).value;
    forall j | 0 <= j < n ensures req.commands[j].slot != s {
      assert req.commands[j] in req.commands;
    }
    UntouchedStays(st, w, s);
  }

  /** Only a command that begins a drain turns an OWNED row DRAINING. */
  lemma OnlyAdmissionsDrain(st: Store, req: Request, w: Work, c: Command, now: int)
    ensures var o := Decide(st, req, w, c, now);
      && (o.Write? ==> c.slot in st.slots && (o.row.Some? ==> o.row.value != st.slots[c.slot]))
      && (o.Write? && o.admitted ==> st.slots[c.slot].state == Owned && o.row.Some? && o.row.value.state == Draining)
      && (o.Write? && o.row.Some? && o.row.value.state == Draining ==> o.admitted)
  {
  }

  lemma {:induction false} BeganMeans(st: Store, req: Request, now: int, st': Store, j: nat)
    requires ApplyHandoffs(st, req, now) == Ok(st') && j < |req.commands|
    ensures Began(st, st', req.commands, j) <==> Admits(st, req, now, j)
    ensures Admits(st, req, now, j) ==>
      st'.handoffs[req.commands[j].slot] == OutcomeAt(st, req, now, j).intent
  {
    Lands(st, req, now, st', j);
    var c, w := req.commands[j], WorkAt(st, req, now, j).value;
    OnlyAdmissionsDrain(st, req, w.(seen := w.seen + {c.slot}), c, now);
    hide WorkAt, Decide, ApplyHandoffs;
  }

  lemma {:induction false} BeginningsAre(st: Store, req: Request, now: int, st': Store, k: nat)
    requires ApplyHandoffs(st, req, now) == Ok(st') && k <= |req.commands|
    ensures Beginnings(st, st', req.commands, k) == Admissions(st, req, now, k)
    ensures forall p: Instance :: BeginningsFrom(st, st', req.commands, k, p) == AdmissionsFrom(st, req, now, k, p)
    ensures forall t: Option<Instance> ::
      BeginningsTo(st, st', req.commands, k, t) == AdmissionsTo(st, req, now, k, t)
  {
    forall j: nat | j < k
      ensures Began(st, st', req.commands, j) <==> Admits(st, req, now, j)
      ensures Admits(st, req, now, j) ==>
        st'.handoffs[req.commands[j].slot] == OutcomeAt(st, req, now, j).intent
    {
      BeganMeans(st, req, now, st', j);
    }
    hide ApplyHandoffs, OutcomeAt;
  }

  lemma FlyingIs(hs: map<Slot, Handoff>)
    ensures Flying(hs) == Inflight(hs)
    ensures forall p: Instance :: FlyingFrom(hs, p) == From(hs, p)
    ensures forall t: Option<Instance> :: FlyingTo(hs, t) == To(hs, t)
  {
  }

  /** The counters at a command are what the tables show of the drains begun before it. */
  lemma {:induction false} RoomTold(st: Store, req: Request, now: int, st': Store, k: nat, h: Handoff)
    requires ApplyHandoffs(st, req, now) == Ok(st') && k < |req.commands|
    ensures WorkAt(st, req, now, k).Ok?
    ensures var w := WorkAt(st, req, now, k).value;
      Room(st, st', req, k, h) <==>
        && w.total < req.limits.maxInflight
        && Tally(w.outgoing, h.source) < req.limits.maxPerSource
        && (h.kind == Transfer ==> Tally(w.incoming, h.target) < req.limits.maxPerTarget)
  {
    AcceptedWork(st, req, now, st');
    Prefix(st, req, now, |req.commands|, k);
    BeginningsAre(st, req, now, st', k);
    FlyingIs(st.handoffs);
    hide WorkAt, ApplyHandoffs, Noted, Beginnings, BeginningsFrom, BeginningsTo, Admissions, AdmissionsFrom,
      AdmissionsTo, Flying, FlyingFrom, FlyingTo, Inflight, From, To;
  }

  // ------------------------------------------------------------------
  // The effects, command by command.

  lemma CoupledRow(st: Store, c: Command)
    requires Coupled(st) && OnRecord(st, c)
    ensures PairOk(st.slots[c.slot], Some(st.handoffs[c.slot]))
    ensures st.slots[c.slot].owner.Some? ==> st.slots[c.slot].owner.value in st.leases
  {
    assert PairOk(st.slots[c.slot], IntentOf(st.handoffs, c.slot));
  }

  lemma FreshIs(leases: map<Instance, Lease>, id: Option<Instance>, now: int, lease: int)
    ensures Fresh(leases, id, now, lease) <==> id.Some? && Current(leases, id.value, lease, now)
  {
  }

  lemma DecidePrepare(st: Store, req: Request, w: Work, c: Command, now: int)
    requires Coupled(st) && c.action == PrepareCmd
    ensures var o := Decide(st, req, w, c, now);
      if
        && OnRecord(st, c)
        && (st.handoffs[c.slot].phase == Planned || st.handoffs[c.slot].phase == Drain)
        && FromTarget(st, req, st.handoffs[c.slot], now)
      then
        && o.Write? && o.row == None
        && o.intent == st.handoffs[c.slot].(
             targetReady := true,
             phase := if st.handoffs[c.slot].phase == Planned then Ready else Drain)
      else o == Skip
  {
    if OnRecord(st, c) {
      CoupledRow(st, c);
      FreshIs(st.leases, st.handoffs[c.slot].target, now, req.ha.lease);
    }
    hide Coupled, Fresh, Current;
  }

  /** PREPARE: the target, current and at its current revision, declares itself ready. A PLANNED intent becomes
      READY, a draining one keeps draining; under any other condition nothing moves. */
  lemma PrepareEffect(st: Store, req: Request, now: int, st': Store, k: nat)
    requires Coupled(st) && ApplyHandoffs(st, req, now) == Ok(st')
    requires k < |req.commands| && req.commands[k].action == PrepareCmd
    ensures var c, s := req.commands[k], req.commands[k].slot;
      if
        && OnRecord(st, c)
        && (st.handoffs[s].phase == Planned || st.handoffs[s].phase == Drain)
        && FromTarget(st, req, st.handoffs[s], now)
      then
        var phase := if st.handoffs[s].phase == Planned then Ready else Drain;
        Becomes(st', s, st.handoffs[s].(targetReady := true, phase := phase), st.slots[s])
      else Unmoved(st, st', s)
  {
    var c := req.commands[k];
    Lands(st, req, now, st', k);
    var w := WorkAt(st, req, now, k).value;
    DecidePrepare(st, req, w.(seen := w.seen + {c.slot}), c, now);
    hide Coupled, ApplyHandoffs, WorkAt, Decide, FromTarget;
  }

  lemma DecideAckDrain(st: Store, req: Request, w: Work, c: Command, now: int)
    requires Coupled(st) && c.action == AckDrainCmd
    ensures var o := Decide(st, req, w, c, now);
      if OnRecord(st, c) && st.handoffs[c.slot].phase == Drain && req.instance == st.handoffs[c.slot].source
      then o.Write? && o.row == None && o.intent == st.handoffs[c.slot].(drained := true)
      else o == Skip
  {
    if OnRecord(st, c) {
      CoupledRow(st, c);
    }
    hide Coupled, Fresh;
  }

  /** ACK_DRAIN: the source of a draining intent puts its acknowledgement on record, and nobody else does. */
  lemma AckDrainEffect(st: Store, req: Request, now: int, st': Store, k: nat)
    requires Coupled(st) && ApplyHandoffs(st, req, now) == Ok(st')
    requires k < |req.commands| && req.commands[k].action == AckDrainCmd
    ensures var c, s := req.commands[k], req.commands[k].slot;
      if OnRecord(st, c) && st.handoffs[s].phase == Drain && req.instance == st.handoffs[s].source
      then Becomes(st', s, st.handoffs[s].(drained := true), st.slots[s])
      else Unmoved(st, st', s)
  {
    hide Coupled, ApplyHandoffs, WorkAt, Decide;
    var c := req.commands[k];
    Lands(st, req, now, st', k);
    var w := WorkAt(st, req, now, k).value;
    DecideAckDrain(st, req, w.(seen := w.seen + {c.slot}), c, now);
  }

  /** Whether the counters of a work leave room for the intent. */
  predicate Spare(req: Request, w: Work, h: Handoff) {
    && w.total < req.limits.maxInflight
    && Tally(w.outgoing, h.source) < req.limits.maxPerSource
    && (h.kind == Transfer ==> Tally(w.incoming, h.target) < req.limits.maxPerTarget)
  }

  function DrainBoundary(st: Store, req: Request, source: Instance, now: int): int {
    if source in st.leases && st.leases[source].grantedAt > now then st.leases[source].grantedAt + req.ha.quiet
    else now + req.ha.quiet
  }

  lemma DecideBegin(st: Store, req: Request, w: Work, c: Command, now: int)
    requires Coupled(st) && c.action == BeginCmd
    ensures var o := Decide(st, req, w, c, now);
      if
        && OnRecord(st, c)
        && st.handoffs[c.slot].phase == Ready
        && (req.instance == st.handoffs[c.slot].source || Some(req.instance) == st.handoffs[c.slot].target)
        && (st.handoffs[c.slot].kind == Transfer ==>
              st.handoffs[c.slot].targetReady && TargetCurrentFor(st, req, st.handoffs[c.slot], now))
        && Spare(req, w, st.handoffs[c.slot])
      then
        && o.Write? && o.row == Some(Row(Some(st.handoffs[c.slot].source), st.handoffs[c.slot].sourceEpoch, Draining))
        && o.intent == st.handoffs[c.slot].(
             phase := Drain, notBefore := Some(DrainBoundary(st, req, st.handoffs[c.slot].source, now)))
      else o == Skip
  {
    if OnRecord(st, c) {
      CoupledRow(st, c);
      FreshIs(st.leases, st.handoffs[c.slot].target, now, req.ha.lease);
    }
    hide Coupled, Fresh, Current, Tally;
  }

  /** BEGIN: the source or the target of a READY intent starts the drain while the budgets leave room, a transfer
      only towards a ready and current target. The boundary is a quiet window after the later of now and the
      source's last grant. */
  lemma BeginEffect(st: Store, req: Request, now: int, st': Store, k: nat)
    requires Coupled(st) && ApplyHandoffs(st, req, now) == Ok(st')
    requires k < |req.commands| && req.commands[k].action == BeginCmd
    ensures var c, s := req.commands[k], req.commands[k].slot;
      if
        && OnRecord(st, c)
        && st.handoffs[s].phase == Ready
        && (req.instance == st.handoffs[s].source || Some(req.instance) == st.handoffs[s].target)
        && (st.handoffs[s].kind == Transfer ==>
              st.handoffs[s].targetReady && TargetCurrentFor(st, req, st.handoffs[s], now))
        && Room(st, st', req, k, st.handoffs[s])
      then
        var boundary := DrainBoundary(st, req, st.handoffs[s].source, now);
        Becomes(st', s, st.handoffs[s].(phase := Drain, notBefore := Some(boundary)),
                Row(Some(st.handoffs[s].source), st.handoffs[s].sourceEpoch, Draining))
      else Unmoved(st, st', s)
  {
    hide Coupled, ApplyHandoffs, WorkAt, Decide, Room, Tally, TargetCurrentFor, DrainBoundary;
    var c := req.commands[k];
    Lands(st, req, now, st', k);
    var w := WorkAt(st, req, now, k).value;
    DecideBegin(st, req, w.(seen := w.seen + {c.slot}), c, now);
    if OnRecord(st, c) {
      RoomTold(st, req, now, st', k, st.handoffs[c.slot]);
    }
  }

  /** The source still owns the slot at the named epoch, and no live intent stands in the way. */
  predicate Withdrawable(st: Store, req: Request, c: Command) {
    && c.slot in st.slots && req.instance == c.intent.source
    && st.slots[c.slot] == Row(Some(c.intent.source), c.intent.sourceEpoch, Owned)
    && (c.slot in st.handoffs ==>
          st.handoffs[c.slot].phase == Completed || st.handoffs[c.slot].phase == Cancelled)
  }

  lemma DecideWithdraw(st: Store, req: Request, w: Work, c: Command, now: int)
    requires Coupled(st) && c.action == WithdrawCmd
    ensures var o := Decide(st, req, w, c, now);
      if Withdrawable(st, req, c) && Spare(req, w, c.intent.(kind := Release, target := None))
      then
        && o.Write? && o.row == Some(Row(Some(c.intent.source), c.intent.sourceEpoch, Draining))
        && o.intent == c.intent.(
             kind := Release, target := None, phase := Drain,
             notBefore := Some(DrainBoundary(st, req, c.intent.source, now)))
      else o == Skip
  {
    if c.slot in st.slots {
      assert PairOk(st.slots[c.slot], IntentOf(st.handoffs, c.slot));
      assert st.slots[c.slot].owner.Some? ==> st.slots[c.slot].owner.value in st.leases;
    }
    hide Coupled, Fresh, Current, Tally;
  }

  /** WITHDRAW: a source gives up a slot it owns by starting the drain of a RELEASE of its own. */
  lemma WithdrawEffect(st: Store, req: Request, now: int, st': Store, k: nat)
    requires Coupled(st) && ApplyHandoffs(st, req, now) == Ok(st')
    requires k < |req.commands| && req.commands[k].action == WithdrawCmd
    ensures var c, s := req.commands[k], req.commands[k].slot;
      var h := c.intent.(kind := Release, target := None);
      if Withdrawable(st, req, c) && Room(st, st', req, k, h)
      then
        Becomes(st', s, h.(phase := Drain, notBefore := Some(DrainBoundary(st, req, h.source, now))),
                Row(Some(h.source), h.sourceEpoch, Draining))
      else Unmoved(st, st', s)
  {
    hide Coupled, ApplyHandoffs, WorkAt, Decide, Room, Tally, DrainBoundary;
    var c := req.commands[k];
    Lands(st, req, now, st', k);
    var w := WorkAt(st, req, now, k).value;
    DecideWithdraw(st, req, w.(seen := w.seen + {c.slot}), c, now);
    RoomTold(st, req, now, st', k, c.intent.(kind := Release, target := None));
  }

  lemma DecideTransfer(st: Store, req: Request, w: Work, c: Command, now: int)
    requires Coupled(st) && c.action == TransferCmd
    ensures var o := Decide(st, req, w, c, now);
      if OnRecord(st, c) && st.handoffs[c.slot].phase == Drain && Over(st.handoffs[c.slot], now) then
        var h := st.handoffs[c.slot];
        if h.kind == Release && req.instance == h.source then
          o.Write? && o.intent == h.(phase := Completed) && o.row == Some(Row(None, h.sourceEpoch, Unowned))
        else if
          && h.kind == Transfer && h.target == Some(req.instance) && h.targetReady
          && Current(st.leases, req.instance, req.ha.lease, now)
        then
          && o.Write? && o.intent == h.(phase := Transferred)
          && o.row == Some(Row(Some(req.instance), h.sourceEpoch + 1, Owned))
        else o == Skip
      else o == Skip
  {
    if OnRecord(st, c) {
      CoupledRow(st, c);
      FreshIs(st.leases, st.handoffs[c.slot].target, now, req.ha.lease);
    }
    hide Coupled, Fresh, Current;
  }

  /** TRANSFER: once the drain is acknowledged or its boundary has passed, a ready and current target takes the slot
      one epoch on, and the source of a RELEASE frees it at its epoch. */
  lemma TransferEffect(st: Store, req: Request, now: int, st': Store, k: nat)
    requires Coupled(st) && ApplyHandoffs(st, req, now) == Ok(st')
    requires k < |req.commands| && req.commands[k].action == TransferCmd
    ensures var c, s := req.commands[k], req.commands[k].slot;
      if OnRecord(st, c) && st.handoffs[s].phase == Drain && Over(st.handoffs[s], now) then
        var h := st.handoffs[s];
        if h.kind == Release && req.instance == h.source then
          Becomes(st', s, h.(phase := Completed), Row(None, h.sourceEpoch, Unowned))
        else if
          && h.kind == Transfer && h.target == Some(req.instance) && h.targetReady
          && Current(st.leases, req.instance, req.ha.lease, now)
        then Becomes(st', s, h.(phase := Transferred), Row(Some(req.instance), h.sourceEpoch + 1, Owned))
        else Unmoved(st, st', s)
      else Unmoved(st, st', s)
  {
    hide Coupled, ApplyHandoffs, WorkAt, Decide, Current, Over;
    var c := req.commands[k];
    Lands(st, req, now, st', k);
    var w := WorkAt(st, req, now, k).value;
    DecideTransfer(st, req, w.(seen := w.seen + {c.slot}), c, now);
  }

  lemma DecideAckActive(st: Store, req: Request, w: Work, c: Command, now: int)
    requires Coupled(st) && c.action == AckActiveCmd
    ensures var o := Decide(st, req, w, c, now);
      if
        && OnRecord(st, c) && st.handoffs[c.slot].phase == Transferred
        && FromTarget(st, req, st.handoffs[c.slot], now)
      then o.Write? && o.row == None && o.intent == st.handoffs[c.slot].(phase := Completed)
      else o == Skip
  {
    if OnRecord(st, c) {
      CoupledRow(st, c);
      FreshIs(st.leases, st.handoffs[c.slot].target, now, req.ha.lease);
    }
    hide Coupled, Fresh, Current;
  }

  /** ACK_ACTIVE: the target, current and at its current revision, ends a transfer it has taken. */
  lemma AckActiveEffect(st: Store, req: Request, now: int, st': Store, k: nat)
    requires Coupled(st) && ApplyHandoffs(st, req, now) == Ok(st')
    requires k < |req.commands| && req.commands[k].action == AckActiveCmd
    ensures var c, s := req.commands[k], req.commands[k].slot;
      if OnRecord(st, c) && st.handoffs[s].phase == Transferred && FromTarget(st, req, st.handoffs[s], now)
      then Becomes(st', s, st.handoffs[s].(phase := Completed), st.slots[s])
      else Unmoved(st, st', s)
  {
    hide Coupled, ApplyHandoffs, WorkAt, Decide, FromTarget;
    var c := req.commands[k];
    Lands(st, req, now, st', k);
    var w := WorkAt(st, req, now, k).value;
    DecideAckActive(st, req, w.(seen := w.seen + {c.slot}), c, now);
  }

  // ------------------------------------------------------------------
  // The batch as a whole.

  lemma DecideFails(st: Store, req: Request, w: Work, c: Command, now: int)
    requires Coupled(st)
    ensures var o := Decide(st, req, w, c, now);
      && (o.Fail? <==> c.action == UnknownCmd && OnRecord(st, c))
      && (o.Fail? ==> o.error == InvalidRequest)
  {
    if c.slot in st.slots {
      assert st.slots[c.slot].owner.Some? ==> st.slots[c.slot].owner.value in st.leases;
    }
    hide Coupled, Fresh, Tally, Boundary;
  }

  /** No two of the commands name one slot, and none of an unknown kind names an intent on record. */
  predicate Executable(st: Store, cs: seq<Command>) {
    && (forall i, j | 0 <= i < j < |cs| :: cs[i].slot != cs[j].slot)
    && (forall i | 0 <= i < |cs| :: !(cs[i].action == UnknownCmd && OnRecord(st, cs[i])))
  }

  lemma {:induction false} RunsThrough(st: Store, req: Request, now: int, k: nat)
    requires Coupled(st) && k <= |req.commands|
    ensures WorkAt(st, req, now, k).Ok? <==> Executable(st, req.commands[..k])
    ensures WorkAt(st, req, now, k).Err? ==> WorkAt(st, req, now, k).error == InvalidRequest
    decreases k
  {
    hide Coupled, OnRecord, Step, Decide, Counted;
    if k == 0 {
      assert req.commands[..0] == [];
    } else {
      RunsThrough(st, req, now, k - 1);
      OneMoreStep(st, req, now, k - 1);
      var c := req.commands[k - 1];
      assert req.commands[..k][..k - 1] == req.commands[..k - 1] && req.commands[..k][k - 1] == c;
      hide WorkAt;
      match WorkAt(st, req, now, k - 1)
      case Err(_) => ExecutableLess(st, req.commands[..k]);
      case Ok(w) =>
        StepFails(st, req, w, c, now);
        SeenSlots(st, req, now, k - 1, w);
        ExecutableMore(st, req.commands[..k]);
    }
  }

  lemma StepFails(st: Store, req: Request, w: Work, c: Command, now: int)
    requires Coupled(st)
    ensures Step(st, req, w, c, now).Ok? <==> c.slot !in w.seen && !(c.action == UnknownCmd && OnRecord(st, c))
    ensures Step(st, req, w, c, now).Err? ==> Step(st, req, w, c, now).error == InvalidRequest
  {
    DecideFails(st, req, w.(seen := w.seen + {c.slot}), c, now);
    hide Coupled, Decide, OnRecord, Record;
  }

  lemma {:induction false} SeenSlots(st: Store, req: Request, now: int, k: nat, w: Work)
    requires k <= |req.commands| && WorkAt(st, req, now, k) == Ok(w)
    ensures forall s :: s in w.seen <==> exists j :: 0 <= j < k && req.commands[j].slot == s
  {
    Prefix(st, req, now, k, k);
    hide WorkAt, OutcomeAt, Tallied;
  }

  lemma ExecutableLess(st: Store, cs: seq<Command>)
    requires |cs| > 0 && !Executable(st, cs[..|cs| - 1])
    ensures !Executable(st, cs)
  {
    hide OnRecord;
  }

  lemma ExecutableMore(st: Store, cs: seq<Command>)
    requires |cs| > 0 && Executable(st, cs[..|cs| - 1])
    ensures var c := cs[|cs| - 1];
      Executable(st, cs) <==>
        && !(c.action == UnknownCmd && OnRecord(st, c))
        && forall j | 0 <= j < |cs| - 1 :: cs[j].slot != c.slot
  {
    hide OnRecord;
  }

  /** A batch is refused exactly when it is too long, anonymous, names a slot twice or addresses an intent on record
      with an unknown command; the error is always the same, and a refused batch writes nothing. */
  lemma {:induction false} AcceptedExactly(st: Store, req: Request, now: int)
    requires Coupled(st)
    ensures ApplyHandoffs(st, req, now).Ok? <==>
      || req.commands == []
      || (&& |req.commands| <= req.limits.batchSlots && req.instance != "" && Executable(st, req.commands))
    ensures ApplyHandoffs(st, req, now).Err? ==> ApplyHandoffs(st, req, now) == Err(InvalidRequest)
  {
    assert req.commands[..|req.commands|] == req.commands;
    RunsThrough(st, req, now, |req.commands|);
    hide Coupled, Executable, Counted, Steps, Commit;
  }

  /** The instance owned, or comes to own, a slot whose row changed. */
  predicate Concerned(st: Store, st': Store, p: Instance) {
    exists s ::
      && s in st.slots && s in st'.slots && st'.slots[s] != st.slots[s]
      && (st.slots[s].owner == Some(p) || st'.slots[s].owner == Some(p))
  }

  lemma BumpsAre(st: Store, req: Request, w: Work, c: Command, now: int, p: Instance)
    ensures var o := Decide(st, req, w, c, now);
      o.Write? ==>
        && c.slot in st.slots
        && (p in o.bumps <==>
              o.row.Some? && (st.slots[c.slot].owner == Some(p) || o.row.value.owner == Some(p)))
  {
    hide Fresh, Tally, Boundary;
  }

  lemma {:induction false} BumpShows(st: Store, req: Request, now: int, st': Store, j: nat, p: Instance)
    requires ApplyHandoffs(st, req, now) == Ok(st') && j < |req.commands|
    requires OutcomeAt(st, req, now, j).Write? && p in OutcomeAt(st, req, now, j).bumps
    ensures Concerned(st, st', p)
  {
    hide WorkAt, Decide, ApplyHandoffs, Concerned;
    Lands(st, req, now, st', j);
    var c, w := req.commands[j], WorkAt(st, req, now, j).value;
    BumpsAre(st, req, w.(seen := w.seen + {c.slot}), c, now, p);
    OnlyAdmissionsDrain(st, req, w.(seen := w.seen + {c.slot}), c, now);
    ConcernedBy(st, st', p, c.slot);
  }

  lemma ConcernedBy(st: Store, st': Store, p: Instance, s: Slot)
    requires s in st.slots && s in st'.slots && st'.slots[s] != st.slots[s]
    requires st.slots[s].owner == Some(p) || st'.slots[s].owner == Some(p)
    ensures Concerned(st, st', p)
  {
  }

  lemma {:induction false} ChangeBumps(st: Store, req: Request, now: int, st': Store, s: Slot, p: Instance)
    returns (j: nat)
    requires ApplyHandoffs(st, req, now) == Ok(st')
    requires s in st.slots && s in st'.slots && st'.slots[s] != st.slots[s]
    requires st.slots[s].owner == Some(p) || st'.slots[s].owner == Some(p)
    ensures j < |req.commands| && OutcomeAt(st, req, now, j).Write? && p in OutcomeAt(st, req, now, j).bumps
  {
    hide WorkAt, Decide, ApplyHandoffs;
    if forall c | c in req.commands :: c.slot != s {
      NamedOnly(st, req, now, st', s);
    }
    j :| 0 <= j < |req.commands| && req.commands[j].slot == s;
    Lands(st, req, now, st', j);
    var c, w := req.commands[j], WorkAt(st, req, now, j).value;
    BumpsAre(st, req, w.(seen := w.seen + {c.slot}), c, now, p);
  }

  /** An accepted batch moves nothing but intents, rows and revisions; a revision moves, by one, exactly when its
      instance owned or comes to own a slot whose row changed. */
  lemma {:induction false} RevisionsFollowRows(st: Store, req: Request, now: int, st': Store)
    requires ApplyHandoffs(st, req, now) == Ok(st')
    ensures st'.marks == st.marks && st'.tenure == st.tenure && st'.leases.Keys == st.leases.Keys
    ensures forall p | p in st.leases ::
      st'.leases[p] ==
        if Concerned(st, st', p) then st.leases[p].(revision := st.leases[p].revision + 1) else st.leases[p]
  {
    if |req.commands| > 0 {
      var n := |req.commands|;
      AcceptedWork(st, req, now, st');
      Prefix(st, req, now, n, n);
      var w := WorkAt(st, req, now, n).value;
      BumpedAre(st, req, now, st', w);
      hide WorkAt, OutcomeAt, ApplyHandoffs, Steps, Tallied, Noted, Concerned;
    }
  }

  lemma {:induction false} BumpedAre(st: Store, req: Request, now: int, st': Store, w: Work)
    requires ApplyHandoffs(st, req, now) == Ok(st') && Noted(st, req, now, |req.commands|, w)
    ensures forall p: Instance :: p in w.bumped <==> Concerned(st, st', p)
  {
    hide WorkAt, OutcomeAt, ApplyHandoffs, Left;
    forall p: Instance ensures p in w.bumped <==> Concerned(st, st', p) {
      if p in w.bumped {
        var j: nat :| j < |req.commands| && OutcomeAt(st, req, now, j).Write? && p in OutcomeAt(st, req, now, j).bumps;
        BumpShows(st, req, now, st', j, p);
      }
      if Concerned(st, st', p) {
        var s :| && s in st.slots && s in st'.slots && st'.slots[s] != st.slots[s]
                 && (st.slots[s].owner == Some(p) || st'.slots[s].owner == Some(p));
        var j := ChangeBumps(st, req, now, st', s, p);
      }
    }
  }
}
