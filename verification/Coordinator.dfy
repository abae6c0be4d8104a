/** The control plane's tenure and the published directory, over whole histories. */
module Coordinator {
  import opened Tables
  import opened Transactions
  import opened Automaton
  import opened Route

  /** The single route row, absent before the first publication. */
  type Snapshot = Option<Published<Payload>>

  function Version(p: Snapshot): nat {
    if p.Some? then p.value.version else 0
  }

  /** Publish the encoded view, counting a version only when the decoded directory differs. */
  function MaterialiseRoute(tenure: Tenure, p: Snapshot, payload: Payload, token: Token, now: int): Result<Snapshot> {
    if !Guarded(tenure, token, now) then Err(CoordinatorLost)
    else if p.Some? && p.value.payload == payload then Ok(p)
    else Ok(Some(Published(Version(p) + 1, payload)))
  }

  datatype Event =
    | Store(txn: Txn, now: int)
    | Publish(payload: Payload, token: Token, now: int)

  datatype State = State(store: Tables.Store, route: Snapshot)

  function Do(s: State, e: Event): State {
    match e
    case Store(t, now) => s.(store := After(s.store, t, now))
    case Publish(payload, token, now) =>
      (match MaterialiseRoute(s.store.tenure, s.route, payload, token, now)
       case Ok(route) => s.(route := route)
       case Err(_) => s)
  }

  ghost predicate IsHistory(states: seq<State>, events: seq<Event>) {
    && |states| == |events| + 1
    && states[0].store.tenure == Tenure(None, 0, None) && states[0].route == None
    && forall i | 0 <= i < |events| :: states[i + 1] == Do(states[i], events[i])
  }

  /** The token a caller came away with, if the event was an acquisition that held. */
  function TokenOf(s: State, e: Event): Option<Token> {
    if e.Store? && e.txn.AcquireTxn? then
      match Acquire(s.store.tenure, e.txn.id, e.txn.duration, e.now)
      case Ok((_, token)) => if token.held then Some(token) else None
      case Err(_) => None
    else None
  }

  /** The token a control-plane write presents. */
  function Presented(e: Event): Option<Token> {
    match e
    case Publish(_, token, _) => Some(token)
    case Store(PlanTxn(_, token, _, _), _) => Some(token)
    case Store(RecoverTxn(token, _, _, _, _), _) => Some(token)
    case _ => None
  }

  predicate Onward(t: Tenure, t': Tenure) {
    t'.epoch > t.epoch || (t'.epoch == t.epoch && t'.owner == t.owner)
  }

  lemma TenureStep(s: State, e: Event)
    ensures Onward(s.store.tenure, Do(s, e).store.tenure)
    ensures TokenOf(s, e).Some? ==>
      Do(s, e).store.tenure.epoch == TokenOf(s, e).value.epoch
      && Do(s, e).store.tenure.owner == Some(TokenOf(s, e).value.instance)
  {
    if e.Store? && !e.txn.AcquireTxn? {
      SameTenure(s.store, e.txn, e.now);
    }
  }

  lemma SameTenure(st: Tables.Store, t: Txn, now: int)
    requires !t.AcquireTxn?
    ensures After(st, t, now).tenure == st.tenure
  {
  }

  lemma {:induction false} TenureOnward(states: seq<State>, events: seq<Event>, i: nat, j: nat)
    requires IsHistory(states, events) && i <= j < |states|
    ensures Onward(states[i].store.tenure, states[j].store.tenure)
    decreases j
  {
    hide Do;
    if i < j {
      TenureOnward(states, events, i, j - 1);
      TenureStep(states[j - 1], events[j - 1]);
    }
  }

  /** Two acquisitions under one epoch are one instance's, and epochs never fall. */
  lemma EpochNamesOneHolder(states: seq<State>, events: seq<Event>, i: nat, j: nat)
    requires IsHistory(states, events) && i <= j < |events|
    requires TokenOf(states[i], events[i]).Some? && TokenOf(states[j], events[j]).Some?
    ensures var t, u := TokenOf(states[i], events[i]).value, TokenOf(states[j], events[j]).value;
      t.epoch <= u.epoch && (t.epoch == u.epoch ==> t.instance == u.instance)
  {
    hide Do, TokenOf;
    TenureStep(states[i], events[i]);
    TenureStep(states[j], events[j]);
    if i < j {
      TenureOnward(states, events, i + 1, j + 1);
    }
  }

  /** Once a higher epoch has been acquired, no write presenting a lower one changes anything. */
  lemma StaleWritesFail(states: seq<State>, events: seq<Event>, i: nat, j: nat)
    requires IsHistory(states, events) && i < j < |events|
    requires TokenOf(states[i], events[i]).Some? && Presented(events[j]).Some?
    requires Presented(events[j]).value.epoch < TokenOf(states[i], events[i]).value.epoch
    ensures states[j + 1] == states[j]
  {
    TenureStep(states[i], events[i]);
    TenureOnward(states, events, i + 1, j);
    Unguarded(states[j], events[j]);
    hide Do, TokenOf;
  }

  lemma Unguarded(s: State, e: Event)
    requires Presented(e).Some? && Presented(e).value.epoch != s.store.tenure.epoch
    ensures Do(s, e) == s
  {
  }

  // ------------------------------------------------------------------
  // Who may take the tenure, and when.

  /** The tenure has not run out. */
  predicate Running(t: Tenure, now: int) {
    t.expiresAt.Some? && now < t.expiresAt.value
  }

  predicate Acquires(e: Event) {
    e.Store? && e.txn.AcquireTxn?
  }

  /** What the caller of an acquisition is told. */
  function Answer(s: State, e: Event): Result<Token>
    requires Acquires(e)
  {
    match Acquire(s.store.tenure, e.txn.id, e.txn.duration, e.now)
    case Ok((_, token)) => Ok(token)
    case Err(error) => Err(error)
  }

  /** In every history a well-formed acquisition during another instance's tenure changes nothing and is told so; any
      other takes or extends the tenure until its duration from now, and moves the epoch by one unless the caller's own
      tenure was still running. */
  lemma AcquiredExactly(states: seq<State>, events: seq<Event>, i: nat)
    requires IsHistory(states, events) && i < |events| && Acquires(events[i])
    ensures var id, t, t' := events[i].txn.id, states[i].store.tenure, states[i + 1].store.tenure;
      if id == "" || events[i].txn.duration <= 0 then
        states[i + 1] == states[i] && Answer(states[i], events[i]) == Err(InvalidRequest)
      else if Running(t, events[i].now) && t.owner != Some(id) then
        states[i + 1] == states[i] && Answer(states[i], events[i]) == Ok(Token(false, id, 0))
      else
        && t'.owner == Some(id) && t'.expiresAt == Some(events[i].now + events[i].txn.duration)
        && t'.epoch == t.epoch + (if Running(t, events[i].now) then 0 else 1)
        && Answer(states[i], events[i]) == Ok(Token(true, id, t'.epoch))
  {
  }

  /** Nothing but an acquisition moves the tenure, and nothing moves its holder or epoch while it is running. */
  lemma TenureMoves(states: seq<State>, events: seq<Event>, i: nat)
    requires IsHistory(states, events) && i < |events|
    requires states[i + 1].store.tenure != states[i].store.tenure
    ensures Acquires(events[i])
    ensures var t, t' := states[i].store.tenure, states[i + 1].store.tenure;
      (t'.epoch != t.epoch || t'.owner != t.owner) ==> !Running(t, events[i].now)
  {
    if events[i].Store? && !events[i].txn.AcquireTxn? {
      SameTenure(states[i].store, events[i].txn, events[i].now);
    } else if Acquires(events[i]) {
      AcquiredExactly(states, events, i);
    }
  }

  /** A tenure lasts: once acquired, its epoch is left only by a transaction made no earlier than its holder's last
      acquisition promised. */
  lemma {:induction false} TenureLasts(states: seq<State>, events: seq<Event>, i: nat, j: nat) returns (k: nat)
    requires IsHistory(states, events) && i < j < |events| && TokenOf(states[i], events[i]).Some?
    requires states[j].store.tenure.epoch == TokenOf(states[i], events[i]).value.epoch
    requires states[j + 1].store.tenure.epoch != states[j].store.tenure.epoch
    ensures i <= k < j && TokenOf(states[k], events[k]) == TokenOf(states[i], events[i])
    ensures forall m | k < m < j :: TokenOf(states[m], events[m]) == None
    ensures events[j].now >= events[k].now + events[k].txn.duration
  {
    hide TokenOf, Running, Acquires, Do;
    TenureMoves(states, events, j);
    k := LastAcquired(states, events, i, j);
    NotRunning(states[j].store.tenure, events[j].now, events[k].now + events[k].txn.duration);
  }

  lemma NotRunning(t: Tenure, now: int, end: int)
    requires t.expiresAt == Some(end) && !Running(t, now)
    ensures now >= end
  {
  }

  /** The holder's last acquisition, which the recorded expiry is that of. */
  lemma {:induction false} LastAcquired(states: seq<State>, events: seq<Event>, i: nat, j: nat) returns (k: nat)
    requires IsHistory(states, events) && i < j < |states| && TokenOf(states[i], events[i]).Some?
    requires states[j].store.tenure.epoch == TokenOf(states[i], events[i]).value.epoch
    ensures i <= k < j && TokenOf(states[k], events[k]) == TokenOf(states[i], events[i])
    ensures forall m | k < m < j :: TokenOf(states[m], events[m]) == None
    ensures events[k].Store? && events[k].txn.AcquireTxn?
    ensures states[j].store.tenure.expiresAt == Some(events[k].now + events[k].txn.duration)
    decreases j
  {
    hide Do, TokenOf;
    TenureStep(states[i], events[i]);
    if TokenOf(states[j - 1], events[j - 1]).Some? {
      k := j - 1;
      HeldToken(states[i], events[i]);
      HeldToken(states[k], events[k]);
      TenureStep(states[k], events[k]);
      TenureOnward(states, events, i + 1, j);
    } else {
      TenureOnward(states, events, i + 1, j - 1);
      TenureOnward(states, events, j - 1, j);
      k := LastAcquired(states, events, i, j - 1);
      Unacquired(states[j - 1], events[j - 1]);
    }
  }

  lemma HeldToken(s: State, e: Event)
    requires TokenOf(s, e).Some?
    ensures e.Store? && e.txn.AcquireTxn?
    ensures Do(s, e).store.tenure.expiresAt == Some(e.now + e.txn.duration)
    ensures TokenOf(s, e).value.held
  {
  }

  lemma Unacquired(s: State, e: Event)
    requires TokenOf(s, e) == None
    ensures Do(s, e).store.tenure == s.store.tenure
  {
    if e.Store? && !e.txn.AcquireTxn? {
      SameTenure(s.store, e.txn, e.now);
    }
  }

  /** A write that takes effect presents the tenure in force, unexpired at the time of the write. */
  lemma WritesAreHeld(states: seq<State>, events: seq<Event>, j: nat)
    requires IsHistory(states, events) && j < |events|
    requires Presented(events[j]).Some? && states[j + 1] != states[j]
    ensures Guarded(states[j].store.tenure, Presented(events[j]).value, events[j].now)
  {
  }

  // ------------------------------------------------------------------

  /** The version grows by exactly one when the published directory changes, and only then. */
  lemma VersionCountsChanges(s: State, e: Event)
    ensures var s' := Do(s, e);
      && Version(s'.route) == Version(s.route) + (if s'.route != s.route then 1 else 0)
      && (s'.route != s.route ==>
            && e.Publish? && s'.route.Some? && s'.route.value.payload == e.payload
            && (s.route.Some? ==> s.route.value.payload != e.payload))
      && (e.Publish? && Guarded(s.store.tenure, e.token, e.now) ==>
            s'.route.Some? && s'.route.value.payload == e.payload)
  {
  }

  /** Equal versions are equal directories, and versions never fall: a reader may go by the version alone. */
  lemma {:induction false} VersionNamesDirectory(states: seq<State>, events: seq<Event>, i: nat, j: nat)
    requires IsHistory(states, events) && i <= j < |states|
    ensures Version(states[i].route) <= Version(states[j].route)
    ensures Version(states[i].route) == Version(states[j].route) ==> states[i].route == states[j].route
    decreases j
  {
    hide Do;
    if i < j {
      VersionNamesDirectory(states, events, i, j - 1);
      VersionCountsChanges(states[j - 1], events[j - 1]);
    }
  }
}
