/** Every step of the one-key machine keeps its invariant. */
module OrderSafety {
  import opened Tables
  import opened Transactions
  import opened Automaton
  import opened Local
  import opened RangeOrder
  import opened Order
  import opened OrderInvariant
  import C = Cursor
  import CS = CursorSafety
  import F = Fleet
  import FI = FleetInvariant
  import FR = FleetRuns

  // ------------------------------------------------------------------
  // What a fleet step does to the parts this machine looks at.

  /** The one thread a step moves, the entry it may add and the entry it may serve. */
  ghost predicate Moved(f: F.State, f': F.State, tid: Tid, advance: bool, serve: bool) {
    && f'.store == f.store
    && (forall u | u != tid :: u in f'.threads <==> u in f.threads)
    && (forall u | u != tid && u in f.threads :: f'.threads[u] == f.threads[u])
    && (tid in f'.threads ==>
          var p := Pending(f'.threads[tid].guard);
          || p == None
          || (tid in f.threads && p == Pending(f.threads[tid].guard))
          || (advance && p == Some(|f.log|)))
    && (if advance then tid in f.threads && tid in f'.threads
                        && f'.log == f.log + [F.Entry(f.threads[tid].proc, f.threads[tid].gate,
                                                      F.Names(f.store.slots, f.threads[tid].proc, f.threads[tid].gate))]
        else f'.log == f.log)
    && (if serve then tid in f.threads && f.threads[tid].guard.Cleared?
                      && f'.served == f.served + {f.threads[tid].guard.at}
        else f'.served == f.served)
  }

  lemma RequestMoves(w: F.World, f: F.State, tid: Tid, access: F.Access)
    requires F.Enabled(w, f, F.Request(tid, access))
    ensures var f' := F.Do(w, f, F.Request(tid, access));
      && Moved(f, f', tid, access == F.Advance, access == F.Serve)
      && tid in f'.threads && f'.threads[tid].proc == f.threads[tid].proc && f'.threads[tid].gate == f.threads[tid].gate
      && (access == F.Advance ==> Pending(f'.threads[tid].guard) == Some(|f.log|))
      && (access == F.Serve ==> f'.threads[tid].guard == F.Inside)
      && (access != F.Leave && f.threads[tid].guard != F.Entering && f.threads[tid].guard != F.Outside ==>
            f'.threads[tid].guard != F.Outside && f'.threads[tid].guard != F.Entering)
  {
    hide F.Names, F.GuardAfter;
    GuardMoves(w, f, tid, access);
  }

  /** Where a request's advance is remembered from step to step. */
  lemma GuardMoves(w: F.World, f: F.State, tid: Tid, access: F.Access)
    requires F.Well(f, tid) && F.ThreadEnabled(w, f, access, tid)
    ensures var g, g' := f.threads[tid].guard, F.GuardAfter(w, f, access, tid);
      && (access == F.Advance ==> Pending(g') == Some(|f.log|))
      && (access == F.Serve ==> g' == F.Inside && Pending(g) == Some(g.at))
      && (access != F.Advance ==> Pending(g') == Pending(g) || Pending(g') == None)
      && (access != F.Leave && g != F.Entering && g != F.Outside ==> g' != F.Outside && g' != F.Entering)
  {
  }

  lemma OtherMoves(w: F.World, f: F.State, fs: F.Step) returns (tid: Tid)
    requires F.Enabled(w, f, fs) && !fs.Commit? && !fs.Request?
    ensures Moved(f, F.Do(w, f, fs), tid, false, false)
    ensures tid in f.threads ==> f.threads[tid].guard == F.Outside || F.Do(w, f, fs).threads == f.threads
  {
    if fs.Enter? {
      tid := fs.tid;
    } else {
      tid := 0;
    }
  }

  // ------------------------------------------------------------------
  // Requests that do not touch the key.

  lemma FleetHold(f: F.State, f': F.State, tid: Tid, cells: seq<Cell>, holding: map<Tid, nat>)
    requires HoldOk(f.threads, cells, holding)
    requires forall u | u != tid && u in f.threads :: u in f'.threads && f'.threads[u] == f.threads[u]
    requires tid in holding ==>
               && tid in f'.threads
               && f'.threads[tid].proc == f.threads[tid].proc && f'.threads[tid].gate == f.threads[tid].gate
               && f'.threads[tid].guard != F.Outside && f'.threads[tid].guard != F.Entering
    ensures HoldOk(f'.threads, cells, holding)
  {
  }

  lemma FleetLinks(
    f: F.State, f': F.State, tid: Tid, advance: bool, serve: bool,
    cells: seq<Cell>, holding: map<Tid, nat>, origin: seq<Origin>)
    requires Moved(f, f', tid, advance, serve) && (advance ==> tid !in holding)
    requires |origin| == |f.log|
    requires LinksOk(f.threads, cells, holding, origin)
    ensures LinksOk(f'.threads, cells, holding, if advance then origin + [Elsewhere] else origin)
  {
    var origin' := if advance then origin + [Elsewhere] else origin;
    forall u | u in f'.threads && Pending(f'.threads[u].guard).Some?
      ensures LinkOk(Pending(f'.threads[u].guard).value, u, cells, holding, origin')
    {
      if u in f.threads && Pending(f'.threads[u].guard) == Pending(f.threads[u].guard) {
        assert LinkOk(Pending(f.threads[u].guard).value, u, cells, holding, origin);
      }
    }
  }

  lemma FleetOrigin(
    f: F.State, f': F.State, tid: Tid, advance: bool, serve: bool,
    cells: seq<Cell>, holding: map<Tid, nat>, origin: seq<Origin>)
    requires Moved(f, f', tid, advance, serve) && (serve ==> tid !in holding)
    requires LinksOk(f.threads, cells, holding, origin)
    requires OriginOk(f.log, f.served, cells, origin)
    ensures OriginOk(f'.log, f'.served, cells, if advance then origin + [Elsewhere] else origin)
  {
    assert serve ==> origin[f.threads[tid].guard.at] == Elsewhere by {
      assert serve ==> LinkOk(f.threads[tid].guard.at, tid, cells, holding, origin);
    }
    hide LinksOk, LinkOk;
  }

  lemma FleetStepInv(m: Model, s: State, fs: F.Step)
    requires F.Monotone(m.world)
    requires Inv(m, s) && Enabled(m, s, FleetStep(fs))
    ensures Inv(m, Do(m, s, FleetStep(fs)))
  {
    hide FI.Inv, HoldOk, LinksOk, OriginOk, RefsOk, RestOk, BroughtOk, AnswersOk, GrantsOk, TableOk, CellsOk, F.Do,
        F.Enabled;
    var f' := F.Do(m.world, s.fleet, fs);
    FR.StepInv(m.world, s.fleet, fs);
    assert |s.origin| == |s.fleet.log| by { OriginLength(s); }
    if fs.Request? {
      RequestMoves(m.world, s.fleet, fs.tid, fs.access);
      HeldGuard(s, fs.tid);
      FleetHold(s.fleet, f', fs.tid, s.cells, s.holding);
      FleetLinks(s.fleet, f', fs.tid, fs.access == F.Advance, fs.access == F.Serve, s.cells, s.holding, s.origin);
      FleetOrigin(s.fleet, f', fs.tid, fs.access == F.Advance, fs.access == F.Serve, s.cells, s.holding, s.origin);
    } else {
      var tid := OtherMoves(m.world, s.fleet, fs);
      HeldGuard(s, tid);
      FleetHold(s.fleet, f', tid, s.cells, s.holding);
      FleetLinks(s.fleet, f', tid, false, false, s.cells, s.holding, s.origin);
      FleetOrigin(s.fleet, f', tid, false, false, s.cells, s.holding, s.origin);
    }
  }

  lemma OriginLength(s: State)
    requires OriginOk(s.fleet.log, s.fleet.served, s.cells, s.origin)
    ensures |s.origin| == |s.fleet.log|
  {
  }

  lemma HeldGuard(s: State, tid: Tid)
    requires HoldOk(s.fleet.threads, s.cells, s.holding)
    ensures tid in s.holding ==>
              && tid in s.fleet.threads
              && s.fleet.threads[tid].guard != F.Outside && s.fleet.threads[tid].guard != F.Entering
  {
  }

  // ------------------------------------------------------------------
  // Transactions.

  lemma CommitFrame(w: F.World, f: F.State, t: Txn)
    requires F.Enabled(w, f, F.Commit(t))
    ensures var f' := F.Do(w, f, F.Commit(t));
      && f'.threads == f.threads && f'.log == f.log && f'.served == f.served
      && f'.store == After(f.store, t, w.clock(f.now))
      && WellFormed(t, w.ha.quiet)
  {
  }

  lemma CommitAnswers(
    m: Model, s: State, t: Txn, x: Option<nat>, grants': seq<Grant>, g: Option<Grant>)
    requires g == Granting(s.fleet.store, t, m.world.clock(s.fleet.now), m.key)
    requires grants' == Extend(s.grants, g) && (x.Some? ==> Answers(m, s, t, x.value))
    requires AnswersOk(s.cells, s.grants, s.answers)
    requires BroughtOk(s.cells, s.grants, Mark(s.fleet.store.marks, m.key))
    ensures AnswersOk(s.cells, grants', if x.Some? then s.answers[x.value := g.value.range] else s.answers)
    ensures BroughtOk(s.cells, grants', Mark(After(s.fleet.store, t, m.world.clock(s.fleet.now)).marks, m.key))
  {
    GrantCuts(s.fleet.store, t, m.world.clock(s.fleet.now), m.key);
    forall y, r | 0 <= y < |s.cells| && Cut(s.cells[y], s.grants, r) ensures Cut(s.cells[y], grants', r) {
    }
    if x.Some? {
      assert g.value == grants'[|s.grants|];
    }
  }

  lemma CommitInv(m: Model, s: State, t: Txn, x: Option<nat>)
    requires F.Monotone(m.world)
    requires Inv(m, s) && Enabled(m, s, Commit(t, x))
    ensures Inv(m, Do(m, s, Commit(t, x)))
  {
    hide FI.Inv, HoldOk, LinksOk, OriginOk, RefsOk, RestOk, BroughtOk, AnswersOk, TableOk, CellsOk, F.Do, F.Enabled;
    hide Granting, Tiled, Ordered, Coupled, WellFormed, Routed, Answers, After;
    FleetCoupled(m, s);
    var now := m.world.clock(s.fleet.now);
    var g := Granting(s.fleet.store, t, now, m.key);
    FR.StepInv(m.world, s.fleet, F.Commit(t));
    CommitFrame(m.world, s.fleet, t);
    TiledStep(s.fleet.store, t, now, m.key, s.grants);
    OrderedStep(s.fleet.store, t, m.world.ha.quiet, now, m.key, m.slot, s.grants);
    CommitAnswers(m, s, t, x, Extend(s.grants, g), g);
  }

  lemma FleetCoupled(m: Model, s: State)
    requires FI.Inv(m.world, s.fleet)
    ensures Coupled(s.fleet.store)
  {
  }

  // ------------------------------------------------------------------
  // References.

  /** The same key states, up to their reference words, and perhaps one more. */
  ghost predicate Alike(cells: seq<Cell>, cells': seq<Cell>) {
    && |cells| <= |cells'|
    && forall x | 0 <= x < |cells| :: cells'[x].(references := cells[x].references) == cells[x]
  }

  lemma AlikeOrigin(cells: seq<Cell>, cells': seq<Cell>, log: seq<F.Entry>, served: set<nat>, origin: seq<Origin>)
    requires Alike(cells, cells') && OriginOk(log, served, cells, origin)
    ensures OriginOk(log, served, cells', origin)
  {
    assert forall i | 0 <= i < |origin| && origin[i].Here? ::
      Home(cells'[origin[i].cell]) == Home(cells[origin[i].cell]);
  }

  lemma AlikeAnswers(cells: seq<Cell>, cells': seq<Cell>, grants: seq<Grant>, answers: map<nat, Range>)
    requires Alike(cells, cells') && AnswersOk(cells, grants, answers)
    ensures AnswersOk(cells', grants, answers)
  {
  }

  lemma AlikeLinks(
    threads: map<Tid, F.Thread>, tid: Tid, cells: seq<Cell>, cells': seq<Cell>,
    holding: map<Tid, nat>, holding': map<Tid, nat>, origin: seq<Origin>)
    requires Alike(cells, cells') && LinksOk(threads, cells, holding, origin)
    requires tid in threads ==> Pending(threads[tid].guard) == None
    requires forall u | u != tid :: u in holding' <==> u in holding
    requires forall u | u != tid && u in holding :: holding'[u] == holding[u]
    ensures LinksOk(threads, cells', holding', origin)
  {
    forall u | u in threads && Pending(threads[u].guard).Some?
      ensures LinkOk(Pending(threads[u].guard).value, u, cells', holding', origin)
    {
      assert LinkOk(Pending(threads[u].guard).value, u, cells, holding, origin);
    }
  }

  /** Facts that do not look at references survive taking or dropping one. */
  lemma AlikeRest(cells: seq<Cell>, cells': seq<Cell>, grants: seq<Grant>, mark: nat)
    requires Alike(cells, cells') && CellsOk(cells) && BroughtOk(cells, grants, mark)
    requires |cells'| == |cells|
    ensures CellsOk(cells') && BroughtOk(cells', grants, mark)
  {
    hide C.Inv;
    forall x | 0 <= x < |cells'| ensures C.Inv(cells'[x].cursor) {
      assert cells'[x].cursor == cells[x].cursor;
    }
  }

  lemma AlikeTable(cells: seq<Cell>, cells': seq<Cell>, table: map<(Instance, GateId), nat>, slot: Slot)
    requires Alike(cells, cells') && |cells'| == |cells| && TableOk(cells, table, slot)
    requires forall x | 0 <= x < |cells| :: cells'[x].Retired() <==> cells[x].Retired()
    ensures TableOk(cells', table, slot)
  {
    assert forall x | 0 <= x < |cells| :: Home(cells'[x]) == Home(cells[x]) && cells'[x].cursor == cells[x].cursor;
  }

  /** The table's entry is usable: taking a reference to it never fails. */
  lemma TableEntry(cells: seq<Cell>, table: map<(Instance, GateId), nat>, slot: Slot, h: (Instance, GateId))
    requires TableOk(cells, table, slot) && h in table
    ensures table[h] < |cells| && Home(cells[table[h]]) == h && !cells[table[h]].Retired()
  {
  }

  lemma JoinRefs(cells: seq<Cell>, holding: map<Tid, nat>, tid: Tid, x: nat)
    requires RefsOk(cells, holding) && tid !in holding && x < |cells| && !cells[x].Retired()
    ensures RefsOk(cells[x := cells[x].(references := cells[x].references + 1)], holding[tid := x])
  {
    var cells' := cells[x := cells[x].(references := cells[x].references + 1)];
    forall y | 0 <= y < |cells'|
      ensures if cells'[y].Retired() then Holders(holding[tid := x], y) == {} && cells'[y].cursor.fetch == None
              else cells'[y].references == |Holders(holding[tid := x], y)|
    {
      if y == x {
        assert Holders(holding[tid := x], x) == Holders(holding, x) + {tid};
      } else {
        assert Holders(holding[tid := x], y) == Holders(holding, y);
      }
    }
  }

  lemma LeaveRefs(cells: seq<Cell>, holding: map<Tid, nat>, tid: Tid)
    requires RefsOk(cells, holding) && tid in holding && holding[tid] < |cells|
    ensures var x := holding[tid];
      && !cells[x].Retired() && cells[x].references > 0
      && RefsOk(cells[x := cells[x].(references := cells[x].references - 1)], holding - {tid})
  {
    var x := holding[tid];
    var cells' := cells[x := cells[x].(references := cells[x].references - 1)];
    assert tid in Holders(holding, x);
    forall y | 0 <= y < |cells'|
      ensures if cells'[y].Retired() then Holders(holding - {tid}, y) == {} && cells'[y].cursor.fetch == None
              else cells'[y].references == |Holders(holding - {tid}, y)|
    {
      if y == x {
        assert Holders(holding - {tid}, x) == Holders(holding, x) - {tid};
      } else {
        assert Holders(holding - {tid}, y) == Holders(holding, y);
      }
    }
  }

  lemma JoinRest(cells: seq<Cell>, cells': seq<Cell>, holding: map<Tid, nat>, tid: Tid, x: nat)
    requires Alike(cells, cells') && |cells'| == |cells| && RestOk(cells, holding) && tid !in holding
    ensures RestOk(cells', holding[tid := x])
  {
    forall y, t | 0 <= y < |cells'| && t in cells'[y].cursor.threads
      ensures Placed(cells'[y].cursor.threads[t], t in holding[tid := x] && holding[tid := x][t] == y)
    {
      assert cells'[y].cursor == cells[y].cursor;
      assert Placed(cells[y].cursor.threads[t], t in holding && holding[t] == y);
    }
  }

  lemma LeaveRest(cells: seq<Cell>, cells': seq<Cell>, holding: map<Tid, nat>, tid: Tid)
    requires Alike(cells, cells') && |cells'| == |cells| && RestOk(cells, holding)
    requires tid in holding && holding[tid] < |cells| && C.PcOf(cells[holding[tid]].cursor, tid) == C.Resting
    ensures RestOk(cells', holding - {tid})
  {
    forall y, t | 0 <= y < |cells'| && t in cells'[y].cursor.threads
      ensures Placed(cells'[y].cursor.threads[t], t in holding - {tid} && (holding - {tid})[t] == y)
    {
      assert cells'[y].cursor == cells[y].cursor;
      assert Placed(cells[y].cursor.threads[t], t in holding && holding[t] == y);
    }
  }

  /** Taking or dropping a reference keeps everything that does not count references. */
  lemma Recounted(m: Model, s: State, tid: Tid, cells': seq<Cell>, holding': map<Tid, nat>)
    requires Inv(m, s) && Alike(s.cells, cells') && |cells'| == |s.cells|
    requires forall x | 0 <= x < |cells'| :: cells'[x].Retired() <==> s.cells[x].Retired()
    requires tid in s.fleet.threads ==> Pending(s.fleet.threads[tid].guard) == None
    requires forall u | u != tid :: u in holding' <==> u in s.holding
    requires forall u | u != tid && u in s.holding :: holding'[u] == s.holding[u]
    requires HoldOk(s.fleet.threads, cells', holding') && RefsOk(cells', holding') && RestOk(cells', holding')
    ensures Inv(m, s.(cells := cells', holding := holding'))
  {
    hide FI.Inv, CellsOk, LinksOk, OriginOk, RefsOk, RestOk, HoldOk, BroughtOk, AnswersOk, GrantsOk, TableOk, Alike;
    AlikeTable(s.cells, cells', s.table, m.slot);
    AlikeOrigin(s.cells, cells', s.fleet.log, s.fleet.served, s.origin);
    AlikeAnswers(s.cells, cells', s.grants, s.answers);
    AlikeLinks(s.fleet.threads, tid, s.cells, cells', s.holding, holding', s.origin);
    AlikeRest(s.cells, cells', s.grants, Mark(s.fleet.store.marks, m.key));
  }

  lemma JoinHold(
    threads: map<Tid, F.Thread>, cells: seq<Cell>, cells': seq<Cell>, holding: map<Tid, nat>, tid: Tid, x: nat)
    requires Alike(cells, cells') && HoldOk(threads, cells, holding) && x < |cells|
    requires tid in threads && threads[tid].guard == F.Inside
    requires (threads[tid].proc, threads[tid].gate) == Home(cells[x])
    ensures HoldOk(threads, cells', holding[tid := x])
  {
    assert forall y | 0 <= y < |cells| :: Home(cells'[y]) == Home(cells[y]);
  }

  lemma LeaveHold(threads: map<Tid, F.Thread>, cells: seq<Cell>, cells': seq<Cell>, holding: map<Tid, nat>, tid: Tid)
    requires Alike(cells, cells') && HoldOk(threads, cells, holding)
    ensures HoldOk(threads, cells', holding - {tid})
  {
    assert forall y | 0 <= y < |cells| :: Home(cells'[y]) == Home(cells[y]);
  }

  lemma JoinInv(m: Model, s: State, tid: Tid)
    requires Inv(m, s) && Enabled(m, s, Acquire(tid)) && HomeOf(s, tid) in s.table
    ensures Inv(m, Do(m, s, Acquire(tid)))
  {
    hide FI.Inv, F.Enabled, CellsOk, LinksOk, OriginOk, HoldOk, RefsOk, RestOk, BroughtOk, AnswersOk, GrantsOk, TableOk;
    TableEntry(s.cells, s.table, m.slot, HomeOf(s, tid));
    var x := s.table[HomeOf(s, tid)];
    var cells' := s.cells[x := s.cells[x].(references := s.cells[x].references + 1)];
    var holding' := s.holding[tid := x];
    assert Do(m, s, Acquire(tid)) == s.(cells := cells', holding := holding');
    hide Do, Enabled;
    JoinRefs(s.cells, s.holding, tid, x);
    JoinRest(s.cells, cells', s.holding, tid, x);
    JoinHold(s.fleet.threads, s.cells, cells', s.holding, tid, x);
    Recounted(m, s, tid, cells', holding');
  }

  lemma ReleaseInv(m: Model, s: State, tid: Tid)
    requires Inv(m, s) && Enabled(m, s, LetGo(tid))
    ensures Inv(m, Do(m, s, LetGo(tid)))
  {
    hide FI.Inv, F.Enabled, CellsOk, LinksOk, OriginOk, HoldOk, RefsOk, RestOk, BroughtOk, AnswersOk, GrantsOk, TableOk;
    var x := s.holding[tid];
    var cells' := s.cells[x := s.cells[x].(references := s.cells[x].references - 1)];
    var holding' := s.holding - {tid};
    assert Do(m, s, LetGo(tid)) == s.(cells := cells', holding := holding');
    hide Do;
    LeaveRefs(s.cells, s.holding, tid);
    LeaveRest(s.cells, cells', s.holding, tid);
    LeaveHold(s.fleet.threads, s.cells, cells', s.holding, tid);
    Recounted(m, s, tid, cells', holding');
  }

  lemma EvictRefs(cells: seq<Cell>, holding: map<Tid, nat>, x: nat)
    requires RefsOk(cells, holding) && x < |cells| && cells[x].references == 0 && cells[x].cursor.fetch == None
    ensures RefsOk(cells[x := cells[x].(references := -1)], holding)
    ensures forall tid | tid in holding :: holding[tid] != x
  {
    forall tid | tid in holding ensures holding[tid] != x {
      assert holding[tid] == x ==> tid in Holders(holding, x);
    }
  }

  lemma SameRest(cells: seq<Cell>, cells': seq<Cell>, holding: map<Tid, nat>)
    requires Alike(cells, cells') && |cells'| == |cells| && RestOk(cells, holding)
    ensures RestOk(cells', holding)
  {
    forall y, t | 0 <= y < |cells'| && t in cells'[y].cursor.threads
      ensures Placed(cells'[y].cursor.threads[t], t in holding && holding[t] == y)
    {
      assert cells'[y].cursor == cells[y].cursor;
    }
  }

  lemma SameLinks(threads: map<Tid, F.Thread>, cells: seq<Cell>, cells': seq<Cell>, holding: map<Tid, nat>,
      origin: seq<Origin>)
    requires Alike(cells, cells') && LinksOk(threads, cells, holding, origin)
    ensures LinksOk(threads, cells', holding, origin)
  {
    forall u | u in threads && Pending(threads[u].guard).Some?
      ensures LinkOk(Pending(threads[u].guard).value, u, cells', holding, origin)
    {
      assert LinkOk(Pending(threads[u].guard).value, u, cells, holding, origin);
    }
  }

  lemma EvictTable(cells: seq<Cell>, table: map<(Instance, GateId), nat>, slot: Slot, x: nat)
    requires TableOk(cells, table, slot) && x < |cells| && Home(cells[x]) in table && table[Home(cells[x])] == x
    ensures TableOk(cells[x := cells[x].(references := -1)], table - {Home(cells[x])}, slot)
  {
    var cells' := cells[x := cells[x].(references := -1)];
    assert forall y | 0 <= y < |cells| :: Home(cells'[y]) == Home(cells[y]) && cells'[y].cursor == cells[y].cursor;
  }

  lemma EvictInv(m: Model, s: State, x: nat)
    requires Inv(m, s) && Enabled(m, s, Evict(x))
    ensures Inv(m, Do(m, s, Evict(x)))
  {
    hide FI.Inv, F.Enabled, C.Inv, CellsOk, LinksOk, OriginOk, RefsOk, RestOk, BroughtOk, AnswersOk, GrantsOk, TableOk;
    var cells' := s.cells[x := s.cells[x].(references := -1)];
    EvictTable(s.cells, s.table, m.slot, x);
    EvictRefs(s.cells, s.holding, x);
    SameRest(s.cells, cells', s.holding);
    AlikeOrigin(s.cells, cells', s.fleet.log, s.fleet.served, s.origin);
    AlikeAnswers(s.cells, cells', s.grants, s.answers);
    SameLinks(s.fleet.threads, s.cells, cells', s.holding, s.origin);
    AlikeRest(s.cells, cells', s.grants, Mark(s.fleet.store.marks, m.key));
  }

  // ------------------------------------------------------------------
  // A state for a key the gate does not have yet.

  lemma UnusedInv(sizes: C.Sizes)
    requires sizes.Valid()
    ensures C.Inv(C.Unused(sizes))
  {
  }

  lemma CreateTable(cells: seq<Cell>, table: map<(Instance, GateId), nat>, slot: Slot, grants: seq<Grant>, mark: nat,
      c: Cell)
    requires TableOk(cells, table, slot) && BroughtOk(cells, grants, mark)
    requires Home(c) !in table && c.gate.slot == slot && !c.Retired() && c.born == mark
    ensures TableOk(cells + [c], table[Home(c) := |cells|], slot)
  {
  }

  lemma CreateRefs(cells: seq<Cell>, holding: map<Tid, nat>, tid: Tid, c: Cell, threads: map<Tid, F.Thread>)
    requires RefsOk(cells, holding) && HoldOk(threads, cells, holding) && tid !in holding && c.references == 1
    ensures RefsOk(cells + [c], holding[tid := |cells|])
  {
    var holding' := holding[tid := |cells|];
    forall y | 0 <= y < |cells| ensures Holders(holding', y) == Holders(holding, y) {
    }
    assert Holders(holding', |cells|) == {tid};
  }

  lemma CreateRest(cells: seq<Cell>, holding: map<Tid, nat>, tid: Tid, c: Cell)
    requires RestOk(cells, holding) && tid !in holding && c.cursor.threads == map[]
    ensures RestOk(cells + [c], holding[tid := |cells|])
  {
    var holding' := holding[tid := |cells|];
    forall y, t | 0 <= y < |cells| + 1 && t in (cells + [c])[y].cursor.threads
      ensures Placed((cells + [c])[y].cursor.threads[t], t in holding' && holding'[t] == y)
    {
      assert Placed(cells[y].cursor.threads[t], t in holding && holding[t] == y);
    }
  }

  lemma CreateBrought(cells: seq<Cell>, grants: seq<Grant>, mark: nat, c: Cell)
    requires CellsOk(cells) && BroughtOk(cells, grants, mark)
    requires C.Inv(c.cursor) && c.born == mark && c.cursor.top == 0 && c.cursor.brought == {}
    ensures CellsOk(cells + [c]) && BroughtOk(cells + [c], grants, mark)
  {
    hide C.Inv;
    forall x | 0 <= x < |cells + [c]| ensures C.Inv((cells + [c])[x].cursor) {
      assert x < |cells| ==> (cells + [c])[x] == cells[x];
    }
  }

  lemma CreateInv(m: Model, s: State, tid: Tid)
    requires m.sizes.Valid()
    requires Inv(m, s) && Enabled(m, s, Acquire(tid)) && HomeOf(s, tid) !in s.table
    ensures Inv(m, Do(m, s, Acquire(tid)))
  {
    hide FI.Inv, F.Enabled, C.Inv, CellsOk, LinksOk, OriginOk, RefsOk, RestOk, BroughtOk, AnswersOk, GrantsOk, TableOk;
    hide C.Unused;
    var mark := Mark(s.fleet.store.marks, m.key);
    var home := HomeOf(s, tid);
    var c := NewCell(m, s, home);
    var holding' := s.holding[tid := |s.cells|];
    UnusedInv(m.sizes);
    UnusedEmpty(m.sizes);
    CreateTable(s.cells, s.table, m.slot, s.grants, mark, c);
    CreateRefs(s.cells, s.holding, tid, c, s.fleet.threads);
    CreateRest(s.cells, s.holding, tid, c);
    CreateBrought(s.cells, s.grants, mark, c);
    AlikeOrigin(s.cells, s.cells + [c], s.fleet.log, s.fleet.served, s.origin);
    AlikeAnswers(s.cells, s.cells + [c], s.grants, s.answers);
    AlikeLinks(s.fleet.threads, tid, s.cells, s.cells + [c], s.holding, holding', s.origin);
  }

  lemma UnusedEmpty(sizes: C.Sizes)
    ensures C.Unused(sizes).threads == map[] && C.Unused(sizes).top == 0 && C.Unused(sizes).brought == {}
  {
  }

  lemma AcquireInv(m: Model, s: State, tid: Tid)
    requires m.sizes.Valid()
    requires Inv(m, s) && Enabled(m, s, Acquire(tid))
    ensures Inv(m, Do(m, s, Acquire(tid)))
  {
    hide Inv, Enabled, Do;
    assert tid in s.fleet.threads by { InsideThread(m, s, tid); }
    if HomeOf(s, tid) in s.table {
      JoinInv(m, s, tid);
    } else {
      CreateInv(m, s, tid);
    }
  }

  lemma InsideThread(m: Model, s: State, tid: Tid)
    requires Enabled(m, s, Acquire(tid))
    ensures tid in s.fleet.threads
  {
  }

  // ------------------------------------------------------------------
  // Cursor steps.

  ghost predicate OthersStay(c: C.State, c': C.State, t: Tid) {
    && (forall u | u != t :: u in c'.threads <==> u in c.threads)
    && (forall u | u != t && u in c.threads :: c'.threads[u] == c.threads[u])
  }

  /** The advance a request carries is its last one. */
  predicate Carries(c: C.State, c': C.State, t: Tid, advance: bool) {
    var p, p' := Carried(C.PcOf(c, t)), Carried(C.PcOf(c', t));
    p'.Some? ==> if advance then p'.value == |c.advances| else p' == p
  }

  predicate Lengthens(c: C.State, c': C.State, advance: bool) {
    c.advances <= c'.advances && |c'.advances| == |c.advances| + (if advance then 1 else 0)
  }

  predicate Serves(c: C.State, c': C.State, t: Tid, serve: bool) {
    var p := Carried(C.PcOf(c, t));
    if serve then p.Some? && c'.served == c.served + {p.value} else c'.served == c.served
  }

  predicate Brings(c: C.State, c': C.State, cs: C.Step) {
    if cs.Complete? && cs.range.Some? then
      c'.brought == c.brought + {cs.range.value} && c'.top == cs.range.value.end
    else
      c'.brought == c.brought && c'.top == c.top
  }

  /** How fetches start and end. */
  predicate Fetches(c: C.State, c': C.State, t: Tid, cs: C.Step) {
    var p, p' := C.PcOf(c, t), C.PcOf(c', t);
    if cs.Complete? then p.Fetching? && (p.purpose.Refill? ==> p' == C.Resting) && c.fetch.Some?
    else
      && (cs.Prefetch? ==> p'.Fetching? && p'.purpose.Refill?)
      && (c.fetch.Some? ==> c'.fetch == c.fetch && !p'.Fetching?)
  }

  predicate Fast(cs: C.Step) {
    cs.LoadGeneration? || cs.Take? || cs.LoadStart? || cs.LoadEnd? || cs.ReloadStart? || cs.ReloadGeneration?
  }

  predicate Blocks(cs: C.Step) {
    cs.BlockBegin? || cs.BlockLoadNext? || cs.BlockLoadStart? || cs.BlockLoadEnd? || cs.Swap? || cs.BlockValidate?
  }

  predicate Locked(cs: C.Step) {
    cs.GoSlow? || cs.Lock? || cs.TakeBack? || cs.TakeLocked? || cs.SkipTake?
  }

  predicate Leaves(cs: C.Step) {
    cs.Await? || cs.Resume? || cs.Drop?
  }

  predicate Installs(cs: C.Step) {
    cs.OpenRange? || cs.DropStandby? || cs.StoreNext? || cs.StoreStart? || cs.StoreEnd? || cs.Publish?
  }

  predicate Fetching(cs: C.Step) {
    cs.StartFetch? || cs.Prefetch? || cs.Prepare? || cs.Complete?
  }

  /** What any cursor step does to the parts of a key state this machine looks at. */
  ghost predicate Stepped(c: C.State, c': C.State, t: Tid, cs: C.Step, advance: bool) {
    && c'.threads == c.threads[t := C.PcOf(c', t)]
    && Carries(c, c', t, advance)
    && Lengthens(c, c', advance)
    && Serves(c, c', t, cs == C.Serve)
    && Brings(c, c', cs)
    && Fetches(c, c', t, cs)
  }

  /** A fetching request's fetch is the recorded one, and a carried candidate is not taken back. */
  predicate Sane(c: C.State, t: Tid, cs: C.Step) {
    && cs != C.TakeBack
    && (C.PcOf(c, t).Fetching? ==> c.fetch == Some(C.PcOf(c, t).id))
  }

  lemma FastSteps(c: C.State, t: Tid, cs: C.Step)
    requires C.Enabled(c, t, cs) && Fast(cs) && Sane(c, t, cs)
    ensures Stepped(c, C.Do(c, t, cs), t, cs, C.Advances(c, t, cs))
  {
    hide C.RefillSize, C.NextStep, C.Usable, C.Size, C.Within, C.Had;
  }

  lemma BlocksSteps(c: C.State, t: Tid, cs: C.Step)
    requires C.Enabled(c, t, cs) && Blocks(cs) && Sane(c, t, cs)
    ensures Stepped(c, C.Do(c, t, cs), t, cs, C.Advances(c, t, cs))
  {
    hide C.RefillSize, C.NextStep, C.Usable, C.Size, C.Within, C.Had;
  }

  lemma LockedSteps(c: C.State, t: Tid, cs: C.Step)
    requires C.Enabled(c, t, cs) && Locked(cs) && Sane(c, t, cs)
    ensures Stepped(c, C.Do(c, t, cs), t, cs, C.Advances(c, t, cs))
  {
    hide C.RefillSize, C.NextStep, C.Usable, C.Size, C.Within, C.Had;
  }

  lemma LeavesSteps(c: C.State, t: Tid, cs: C.Step)
    requires C.Enabled(c, t, cs) && Leaves(cs) && Sane(c, t, cs)
    ensures Stepped(c, C.Do(c, t, cs), t, cs, C.Advances(c, t, cs))
  {
    hide C.RefillSize, C.NextStep, C.Usable, C.Size, C.Within, C.Had;
  }

  lemma ServeSteps(c: C.State, t: Tid, cs: C.Step)
    requires C.Enabled(c, t, cs) && cs.Serve? && Sane(c, t, cs)
    ensures Stepped(c, C.Do(c, t, cs), t, cs, C.Advances(c, t, cs))
  {
    hide C.RefillSize, C.NextStep, C.Usable, C.Size, C.Within, C.Had;
  }

  lemma InstallsSteps(c: C.State, t: Tid, cs: C.Step)
    requires C.Enabled(c, t, cs) && Installs(cs) && Sane(c, t, cs)
    ensures Stepped(c, C.Do(c, t, cs), t, cs, C.Advances(c, t, cs))
  {
    hide C.RefillSize, C.NextStep, C.Usable, C.Size, C.Within, C.Had;
  }

  lemma FetchingSteps(c: C.State, t: Tid, cs: C.Step)
    requires C.Enabled(c, t, cs) && Fetching(cs) && Sane(c, t, cs)
    ensures Stepped(c, C.Do(c, t, cs), t, cs, C.Advances(c, t, cs))
  {
    hide C.RefillSize, C.NextStep, C.Usable, C.Size, C.Within, C.Had;
  }

  lemma EveryStep(c: C.State, t: Tid, cs: C.Step)
    requires C.Enabled(c, t, cs) && Sane(c, t, cs)
    ensures Stepped(c, C.Do(c, t, cs), t, cs, C.Advances(c, t, cs))
  {
    hide C.Do, C.Enabled, C.Advances, Stepped, Sane;
    if Fast(cs) {
      FastSteps(c, t, cs);
    } else if Blocks(cs) {
      BlocksSteps(c, t, cs);
    } else if Locked(cs) {
      LockedSteps(c, t, cs);
    } else if Leaves(cs) {
      LeavesSteps(c, t, cs);
    } else if cs.Serve? {
      ServeSteps(c, t, cs);
    } else if Installs(cs) {
      InstallsSteps(c, t, cs);
    } else {
      FetchingSteps(c, t, cs);
    }
  }

  /** A retired state is beyond reach. */
  lemma SteppedIsUsable(s: State, tid: Tid, x: nat, cs: C.Step)
    requires RefsOk(s.cells, s.holding) && RestOk(s.cells, s.holding)
    requires x < |s.cells| && Entitled(s, tid, x, cs)
    requires cs.Complete? ==> C.PcOf(s.cells[x].cursor, tid).Fetching? && s.cells[x].cursor.fetch.Some?
    ensures !s.cells[x].Retired()
  {
    if !cs.Complete? && !cs.Prefetch? {
      assert tid in Holders(s.holding, x);
    }
  }

  function With(cells: seq<Cell>, x: nat, c: C.State): seq<Cell>
    requires x < |cells|
  {
    cells[x := cells[x].(cursor := c)]
  }

  lemma StepTable(cells: seq<Cell>, table: map<(Instance, GateId), nat>, slot: Slot, x: nat, c': C.State)
    requires TableOk(cells, table, slot) && x < |cells| && !cells[x].Retired()
    ensures TableOk(With(cells, x, c'), table, slot)
  {
    var cells' := With(cells, x, c');
    assert forall y | 0 <= y < |cells| :: Home(cells'[y]) == Home(cells[y]);
  }

  lemma StepHold(threads: map<Tid, F.Thread>, cells: seq<Cell>, holding: map<Tid, nat>, x: nat, c': C.State)
    requires HoldOk(threads, cells, holding) && x < |cells|
    ensures HoldOk(threads, With(cells, x, c'), holding)
  {
  }

  lemma StepRefs(cells: seq<Cell>, holding: map<Tid, nat>, x: nat, c': C.State)
    requires RefsOk(cells, holding) && x < |cells| && !cells[x].Retired()
    ensures RefsOk(With(cells, x, c'), holding)
  {
  }

  lemma StepRest(s: State, tid: Tid, x: nat, cs: C.Step, c': C.State)
    requires RestOk(s.cells, s.holding) && x < |s.cells| && Entitled(s, tid, x, cs)
    requires OthersStay(s.cells[x].cursor, c', tid) && Fetches(s.cells[x].cursor, c', tid, cs)
    ensures RestOk(With(s.cells, x, c'), s.holding)
  {
    var cells' := With(s.cells, x, c');
    forall y, t | 0 <= y < |cells'| && t in cells'[y].cursor.threads
      ensures Placed(cells'[y].cursor.threads[t], t in s.holding && s.holding[t] == y)
    {
      if y != x {
        assert cells'[y] == s.cells[y];
      } else if t == tid && cs.Complete? {
        var pc := C.PcOf(s.cells[x].cursor, tid);
        assert Placed(pc, t in s.holding && s.holding[t] == x);
      } else if t == tid && !cs.Prefetch? {
        assert Attends(s, tid, x);
      }
    }
  }

  /** Links of everyone but the acting request, and of the acting request when it neither advances nor holds. */
  lemma StepLinks(
    s: State, threads': map<Tid, F.Thread>, tid: Tid, x: nat, c': C.State, advance: bool)
    requires LinksOk(s.fleet.threads, s.cells, s.holding, s.origin) && x < |s.cells| && |s.origin| == |s.fleet.log|
    requires OthersStay(s.cells[x].cursor, c', tid) && Carries(s.cells[x].cursor, c', tid, advance)
    requires forall u | u != tid && u in threads' :: u in s.fleet.threads && threads'[u] == s.fleet.threads[u]
    requires advance ==> Attends(s, tid, x) && tid in threads' && Pending(threads'[tid].guard) == Some(|s.fleet.log|)
    requires !advance && tid in threads' ==>
      tid in s.fleet.threads && (threads'[tid] == s.fleet.threads[tid] || Pending(threads'[tid].guard) == None)
    ensures LinksOk(threads', With(s.cells, x, c'), s.holding,
                    if advance then s.origin + [Here(x, |s.cells[x].cursor.advances|)] else s.origin)
  {
    var cells' := With(s.cells, x, c');
    var origin' := if advance then s.origin + [Here(x, |s.cells[x].cursor.advances|)] else s.origin;
    forall u | u in threads' && Pending(threads'[u].guard).Some?
      ensures LinkOk(Pending(threads'[u].guard).value, u, cells', s.holding, origin')
    {
      if u != tid || !advance {
        assert LinkOk(Pending(s.fleet.threads[u].guard).value, u, s.cells, s.holding, s.origin);
      }
    }
  }

  lemma OriginAdvances(
    cells: seq<Cell>, table: map<(Instance, GateId), nat>, x: nat, c': C.State,
    log: seq<F.Entry>, served: set<nat>, origin: seq<Origin>, entry: F.Entry)
    requires OriginOk(log, served, cells, origin) && |log| !in served
    requires x < |cells| && TableOk(cells, table, cells[x].gate.slot) && !cells[x].Retired()
    requires (entry.proc, entry.gate) == Home(cells[x])
    requires Lengthens(cells[x].cursor, c', true) && c'.served == cells[x].cursor.served
    ensures OriginOk(log + [entry], served, With(cells, x, c'), origin + [Here(x, |cells[x].cursor.advances|)])
  {
    var cells' := With(cells, x, c');
    var log', origin' := log + [entry], origin + [Here(x, |cells[x].cursor.advances|)];
    assert forall y | 0 <= y < |cells'| :: Home(cells'[y]) == Home(cells[y]);
    forall y | 0 <= y < |cells| && Home(cells[y]) == Home(cells[x]) ensures y <= x {
    }
    forall i, j | 0 <= i < j < |origin'| && origin'[i].Here? && origin'[j].Here?
      ensures origin'[i].cell == origin'[j].cell ==> origin'[i].at < origin'[j].at
      ensures Home(cells'[origin'[i].cell]) == Home(cells'[origin'[j].cell]) ==> origin'[i].cell <= origin'[j].cell
    {
      assert origin'[i] == origin[i];
      assert j < |origin| ==> origin'[j] == origin[j];
    }
  }

  lemma OriginServes(
    cells: seq<Cell>, x: nat, c': C.State, log: seq<F.Entry>, served: set<nat>, origin: seq<Origin>, i: nat, a: nat)
    requires OriginOk(log, served, cells, origin) && x < |cells|
    requires i < |origin| && origin[i] == Here(x, a)
    requires Lengthens(cells[x].cursor, c', false) && c'.served == cells[x].cursor.served + {a}
    ensures OriginOk(log, served + {i}, With(cells, x, c'), origin)
  {
    var cells' := With(cells, x, c');
    assert forall y | 0 <= y < |cells'| :: Home(cells'[y]) == Home(cells[y]);
  }

  lemma OriginStays(
    cells: seq<Cell>, x: nat, c': C.State, log: seq<F.Entry>, served: set<nat>, origin: seq<Origin>)
    requires OriginOk(log, served, cells, origin) && x < |cells|
    requires Lengthens(cells[x].cursor, c', false) && c'.served == cells[x].cursor.served
    ensures OriginOk(log, served, With(cells, x, c'), origin)
  {
    var cells' := With(cells, x, c');
    assert forall y | 0 <= y < |cells'| :: Home(cells'[y]) == Home(cells[y]);
  }

  lemma StepOrigin(s: State, f': F.State, tid: Tid, x: nat, c': C.State, advance: bool, serve: bool)
    requires OriginOk(s.fleet.log, s.fleet.served, s.cells, s.origin) && x < |s.cells|
    requires LinksOk(s.fleet.threads, s.cells, s.holding, s.origin)
    requires TableOk(s.cells, s.table, s.cells[x].gate.slot) && HoldOk(s.fleet.threads, s.cells, s.holding)
    requires Moved(s.fleet, f', tid, advance, serve) && |s.fleet.log| !in s.fleet.served
    requires Lengthens(s.cells[x].cursor, c', advance) && Serves(s.cells[x].cursor, c', tid, serve)
    requires advance || serve ==> Attends(s, tid, x)
    requires !s.cells[x].Retired() && !(advance && serve)
    ensures OriginOk(f'.log, f'.served, With(s.cells, x, c'),
                     if advance then s.origin + [Here(x, |s.cells[x].cursor.advances|)] else s.origin)
  {
    hide OriginOk, TableOk, Lengthens;
    if advance {
      OriginAdvances(s.cells, s.table, x, c', s.fleet.log, s.fleet.served, s.origin, f'.log[|s.fleet.log|]);
    } else if serve {
      var i := s.fleet.threads[tid].guard.at;
      assert LinkOk(i, tid, s.cells, s.holding, s.origin);
      OriginServes(s.cells, x, c', s.fleet.log, s.fleet.served, s.origin, i, s.origin[i].at);
    } else {
      OriginStays(s.cells, x, c', s.fleet.log, s.fleet.served, s.origin);
    }
  }

  lemma CutBelowMark(c: Cell, grants: seq<Grant>, mark: nat, r: Range)
    requires Tiled(grants, mark) && Cut(c, grants, r)
    ensures r.end <= mark
  {
    var i :| 0 <= i < |grants| && grants[i] == Grant(c.proc, c.gate.epoch, r);
    TilesRise(grants, mark, i, i);
  }

  lemma StepBrought(cells: seq<Cell>, grants: seq<Grant>, mark: nat, x: nat, c': C.State, cs: C.Step)
    requires BroughtOk(cells, grants, mark) && x < |cells| && Tiled(grants, mark)
    requires Brings(cells[x].cursor, c', cs)
    requires cs.Complete? && cs.range.Some? ==> Cut(cells[x], grants, cs.range.value)
    ensures BroughtOk(With(cells, x, c'), grants, mark)
  {
    hide Tiled;
    if cs.Complete? && cs.range.Some? {
      CutBelowMark(cells[x], grants, mark, cs.range.value);
    }
  }

  lemma StepAnswers(
    cells: seq<Cell>, grants: seq<Grant>, answers: map<nat, Range>, tid: Tid, x: nat, c': C.State, cs: C.Step)
    requires AnswersOk(cells, grants, answers) && x < |cells|
    requires Brings(cells[x].cursor, c', cs) && Fetches(cells[x].cursor, c', tid, cs)
    requires OthersStay(cells[x].cursor, c', tid)
    ensures AnswersOk(With(cells, x, c'), grants, if cs.Complete? then answers - {x} else answers)
  {
    var cells' := With(cells, x, c');
    var answers' := if cs.Complete? then answers - {x} else answers;
    forall y | y in answers' ensures y < |cells'| && AnswerOk(cells'[y], grants, answers'[y]) {
      assert AnswerOk(cells[y], grants, answers[y]);
      if y == x {
        forall t | t in c'.threads && c'.threads[t].Fetching? ensures c'.threads[t].size == C.Size(answers[x]) {
          assert t != tid;
        }
      }
    }
  }

  lemma StepCells(cells: seq<Cell>, tid: Tid, x: nat, cs: C.Step)
    requires CellsOk(cells) && x < |cells| && C.Enabled(cells[x].cursor, tid, cs)
    ensures CellsOk(With(cells, x, C.Do(cells[x].cursor, tid, cs)))
    ensures cs != C.TakeBack
    ensures C.PcOf(cells[x].cursor, tid).Fetching? ==>
      cells[x].cursor.fetch == Some(C.PcOf(cells[x].cursor, tid).id)
  {
    CS.NeverTakenBack(cells[x].cursor, tid);
    CS.StepInv(cells[x].cursor, tid, cs);
    CS.ActorOk(cells[x].cursor, tid);
    hide C.Inv, C.Do, C.Enabled;
  }

  lemma CompletesFetching(c: C.State, t: Tid, cs: C.Step)
    requires C.Enabled(c, t, cs)
    ensures cs.Complete? ==> C.PcOf(c, t).Fetching?
    ensures C.Advances(c, t, cs) ==> !cs.Complete? && !cs.Prefetch? && cs != C.Serve
  {
  }

  /** The fleet's side of a cursor step. */
  ghost predicate Synced(m: Model, s: State, f': F.State, tid: Tid, x: nat, advance: bool, serve: bool) {
    && FI.Inv(m.world, f')
    && Moved(s.fleet, f', tid, advance, serve)
    && HoldOk(f'.threads, s.cells, s.holding)
    && (advance || serve ==> Attends(s, tid, x))
    && (advance ==> tid in f'.threads && Pending(f'.threads[tid].guard) == Some(|s.fleet.log|))
    && (!advance && tid in f'.threads ==>
          tid in s.fleet.threads && (f'.threads[tid] == s.fleet.threads[tid] || Pending(f'.threads[tid].guard) == None))
  }

  lemma SyncedAccess(m: Model, s: State, tid: Tid, x: nat, access: F.Access)
    requires F.Monotone(m.world)
    requires FI.Inv(m.world, s.fleet) && Access(m, s, tid, access) && Attends(s, tid, x)
    requires access == F.Advance || access == F.Serve
    requires HoldOk(s.fleet.threads, s.cells, s.holding)
    ensures Synced(m, s, F.Do(m.world, s.fleet, F.Request(tid, access)), tid, x, access == F.Advance, access == F.Serve)
  {
    hide FI.Inv, F.Enabled, F.Do;
    var f' := F.Do(m.world, s.fleet, F.Request(tid, access));
    RequestMoves(m.world, s.fleet, tid, access);
    FR.StepInv(m.world, s.fleet, F.Request(tid, access));
    FleetHold(s.fleet, f', tid, s.cells, s.holding);
  }

  lemma SyncedStill(m: Model, s: State, tid: Tid, x: nat)
    requires FI.Inv(m.world, s.fleet) && HoldOk(s.fleet.threads, s.cells, s.holding)
    ensures Synced(m, s, s.fleet, tid, x, false, false)
  {
    hide FI.Inv;
  }

  /** A step that advances or serves is its own request's, and the fleet lets it. */
  lemma Rights(m: Model, s: State, tid: Tid, x: nat, cs: C.Step)
    requires Enabled(m, s, Cursor(tid, x, cs))
    ensures x < |s.cells|
    ensures C.Advances(s.cells[x].cursor, tid, cs) ==> Access(m, s, tid, F.Advance) && Attends(s, tid, x)
    ensures C.Advances(s.cells[x].cursor, tid, cs) ==> cs != C.Serve
    ensures cs == C.Serve ==> Access(m, s, tid, F.Serve) && Attends(s, tid, x)
  {
    CompletesFetching(s.cells[x].cursor, tid, cs);
    hide C.Enabled, C.Advances, Access, Attends;
  }

  lemma FleetPart(m: Model, s: State, tid: Tid, x: nat, cs: C.Step)
    requires F.Monotone(m.world)
    requires FI.Inv(m.world, s.fleet) && Enabled(m, s, Cursor(tid, x, cs))
    requires HoldOk(s.fleet.threads, s.cells, s.holding)
    ensures Synced(m, s, CursorFleet(m, s, tid, x, cs), tid, x, C.Advances(s.cells[x].cursor, tid, cs), cs == C.Serve)
  {
    hide FI.Inv, C.Enabled, F.Enabled, F.Do, C.Advances, HoldOk, Synced, Enabled, Access, Attends, F.Monotone;
    Rights(m, s, tid, x, cs);
    var c := s.cells[x].cursor;
    if C.Advances(c, tid, cs) {
      SyncedAccess(m, s, tid, x, F.Advance);
    } else if cs == C.Serve {
      SyncedAccess(m, s, tid, x, F.Serve);
    } else {
      SyncedStill(m, s, tid, x);
    }
  }

  lemma CursorPart(cells: seq<Cell>, tid: Tid, x: nat, cs: C.Step)
    requires CellsOk(cells) && x < |cells| && C.Enabled(cells[x].cursor, tid, cs)
    ensures CellsOk(With(cells, x, C.Do(cells[x].cursor, tid, cs)))
    ensures Stepped(cells[x].cursor, C.Do(cells[x].cursor, tid, cs), tid, cs, C.Advances(cells[x].cursor, tid, cs))
  {
    hide C.Do, C.Enabled, C.Advances, C.Inv, CellsOk, Stepped;
    StepCells(cells, tid, x, cs);
    EveryStep(cells[x].cursor, tid, cs);
  }

  lemma LogBound(m: Model, s: State)
    requires FI.Inv(m.world, s.fleet)
    ensures |s.fleet.log| !in s.fleet.served
  {
    hide FI.ProcOk, FI.ThreadOk, FI.CountsOk, Coupled;
  }

  lemma OnlyOneMoves(c: C.State, c': C.State, t: Tid)
    requires c'.threads == c.threads[t := C.PcOf(c', t)]
    ensures OthersStay(c, c', t)
  {
  }

  lemma SeatsKept(m: Model, s: State, f': F.State, c': C.State, tid: Tid, x: nat, cs: C.Step)
    requires TableOk(s.cells, s.table, m.slot) && RefsOk(s.cells, s.holding) && RestOk(s.cells, s.holding)
    requires HoldOk(f'.threads, s.cells, s.holding)
    requires x < |s.cells| && Entitled(s, tid, x, cs) && !s.cells[x].Retired()
    requires OthersStay(s.cells[x].cursor, c', tid) && Fetches(s.cells[x].cursor, c', tid, cs)
    ensures TableOk(With(s.cells, x, c'), s.table, m.slot)
    ensures HoldOk(f'.threads, With(s.cells, x, c'), s.holding)
    ensures RefsOk(With(s.cells, x, c'), s.holding)
    ensures RestOk(With(s.cells, x, c'), s.holding)
  {
    hide *;
    StepTable(s.cells, s.table, m.slot, x, c');
    StepHold(f'.threads, s.cells, s.holding, x, c');
    StepRefs(s.cells, s.holding, x, c');
    StepRest(s, tid, x, cs, c');
  }

  lemma StockKept(m: Model, s: State, c': C.State, tid: Tid, x: nat, cs: C.Step)
    requires Tiled(s.grants, Mark(s.fleet.store.marks, m.key))
    requires BroughtOk(s.cells, s.grants, Mark(s.fleet.store.marks, m.key)) && AnswersOk(s.cells, s.grants, s.answers)
    requires x < |s.cells| && Brings(s.cells[x].cursor, c', cs)
    requires OthersStay(s.cells[x].cursor, c', tid) && Fetches(s.cells[x].cursor, c', tid, cs)
    requires cs.Complete? && cs.range.Some? ==> Cut(s.cells[x], s.grants, cs.range.value)
    ensures BroughtOk(With(s.cells, x, c'), s.grants, Mark(s.fleet.store.marks, m.key))
    ensures AnswersOk(With(s.cells, x, c'), s.grants, if cs.Complete? then s.answers - {x} else s.answers)
  {
    hide *;
    StepBrought(s.cells, s.grants, Mark(s.fleet.store.marks, m.key), x, c', cs);
    StepAnswers(s.cells, s.grants, s.answers, tid, x, c', cs);
  }

  lemma AnswerCut(m: Model, s: State, tid: Tid, x: nat, cs: C.Step)
    requires Inv(m, s) && x < |s.cells| && Entitled(s, tid, x, cs)
    ensures cs.Complete? && cs.range.Some? ==> Cut(s.cells[x], s.grants, cs.range.value)
    ensures Tiled(s.grants, Mark(s.fleet.store.marks, m.key))
  {
    hide FI.Inv, C.Inv, CellsOk, LinksOk, OriginOk, HoldOk, RefsOk, RestOk, BroughtOk, TableOk, Ordered;
  }

  lemma PlacesKept(
    m: Model, s: State, f': F.State, c': C.State, tid: Tid, x: nat, cs: C.Step, advance: bool)
    requires Inv(m, s) && x < |s.cells| && Entitled(s, tid, x, cs)
    requires Synced(m, s, f', tid, x, advance, cs == C.Serve) && Stepped(s.cells[x].cursor, c', tid, cs, advance)
    ensures !s.cells[x].Retired() && OthersStay(s.cells[x].cursor, c', tid)
    ensures TableOk(With(s.cells, x, c'), s.table, m.slot)
    ensures HoldOk(f'.threads, With(s.cells, x, c'), s.holding)
    ensures RefsOk(With(s.cells, x, c'), s.holding)
    ensures RestOk(With(s.cells, x, c'), s.holding)
    ensures BroughtOk(With(s.cells, x, c'), s.grants, Mark(s.fleet.store.marks, m.key))
    ensures AnswersOk(With(s.cells, x, c'), s.grants, if cs.Complete? then s.answers - {x} else s.answers)
  {
    OnlyOneMoves(s.cells[x].cursor, c', tid);
    AnswerCut(m, s, tid, x, cs);
    hide FI.Inv, C.Inv, CellsOk, LinksOk, OriginOk, HoldOk, RefsOk, RestOk, BroughtOk, TableOk, AnswersOk, GrantsOk;
    hide OthersStay, Carries, Lengthens, Serves, Brings, Moved, Tiled, Cut, With;
    SteppedIsUsable(s, tid, x, cs);
    hide Entitled;
    SeatsKept(m, s, f', c', tid, x, cs);
    StockKept(m, s, c', tid, x, cs);
  }

  lemma LinksKept(
    m: Model, s: State, f': F.State, c': C.State, tid: Tid, x: nat, cs: C.Step, advance: bool)
    requires Inv(m, s) && x < |s.cells| && !s.cells[x].Retired() && !(advance && cs == C.Serve)
    requires OthersStay(s.cells[x].cursor, c', tid)
    requires Synced(m, s, f', tid, x, advance, cs == C.Serve) && Stepped(s.cells[x].cursor, c', tid, cs, advance)
    ensures var origin' := if advance then s.origin + [Here(x, |s.cells[x].cursor.advances|)] else s.origin;
      && LinksOk(f'.threads, With(s.cells, x, c'), s.holding, origin')
      && OriginOk(f'.log, f'.served, With(s.cells, x, c'), origin')
  {
    LogBound(m, s);
    hide FI.Inv, C.Inv, CellsOk, LinksOk, OriginOk, HoldOk, RefsOk, RestOk, BroughtOk, AnswersOk, GrantsOk, TableOk;
    hide OthersStay, Carries, Lengthens, Serves, Brings, Fetches;
    TableSlot(s.cells, s.table, m.slot, x);
    OriginLength(s);
    StepOrigin(s, f', tid, x, c', advance, cs == C.Serve);
    StepLinks(s, f'.threads, tid, x, c', advance);
  }

  /** The parts of the machine a cursor step changes, each kept. */
  lemma CursorStepParts(
    m: Model, s: State, f': F.State, c': C.State, tid: Tid, x: nat, cs: C.Step, advance: bool)
    requires Inv(m, s) && x < |s.cells| && Entitled(s, tid, x, cs) && !(advance && cs == C.Serve)
    requires Synced(m, s, f', tid, x, advance, cs == C.Serve)
    requires Stepped(s.cells[x].cursor, c', tid, cs, advance) && CellsOk(With(s.cells, x, c'))
    ensures Inv(m, s.(fleet := f',
                      origin := if advance then s.origin + [Here(x, |s.cells[x].cursor.advances|)] else s.origin,
                      cells := With(s.cells, x, c'),
                      answers := if cs.Complete? then s.answers - {x} else s.answers))
  {
    hide FI.Inv, CellsOk, LinksOk, OriginOk, HoldOk, RefsOk, RestOk, BroughtOk, AnswersOk, GrantsOk, TableOk;
    hide Stepped, Entitled, OthersStay, With;
    PlacesKept(m, s, f', c', tid, x, cs, advance);
    LinksKept(m, s, f', c', tid, x, cs, advance);
    SyncedStore(m, s, f', tid, x, advance, cs == C.Serve);
    hide Synced;
  }

  lemma SyncedStore(m: Model, s: State, f': F.State, tid: Tid, x: nat, advance: bool, serve: bool)
    requires Synced(m, s, f', tid, x, advance, serve)
    ensures FI.Inv(m.world, f') && f'.store == s.fleet.store
  {
    hide FI.Inv;
  }

  lemma TableSlot(cells: seq<Cell>, table: map<(Instance, GateId), nat>, slot: Slot, x: nat)
    requires TableOk(cells, table, slot) && x < |cells|
    ensures cells[x].gate.slot == slot
  {
  }

  lemma CursorStepInv(m: Model, s: State, tid: Tid, x: nat, cs: C.Step)
    requires F.Monotone(m.world)
    requires Inv(m, s) && Enabled(m, s, Cursor(tid, x, cs))
    ensures Inv(m, Do(m, s, Cursor(tid, x, cs)))
  {
    hide FI.Inv, C.Inv, CellsOk, LinksOk, OriginOk, HoldOk, RefsOk, RestOk, BroughtOk, TableOk, GrantsOk, AnswersOk;
    hide C.Do, C.Enabled, C.Advances, F.Enabled, F.Do, CursorFleet, Stepped, Synced, Entitled, Access;
    var c := s.cells[x].cursor;
    var c', f' := C.Do(c, tid, cs), CursorFleet(m, s, tid, x, cs);
    var advance := C.Advances(c, tid, cs);
    CompletesFetching(c, tid, cs);
    CursorPart(s.cells, tid, x, cs);
    FleetPart(m, s, tid, x, cs);
    SyncedLog(m, s, f', tid, x, advance, cs == C.Serve);
    CursorStepParts(m, s, f', c', tid, x, cs, advance);
  }

  lemma SyncedLog(m: Model, s: State, f': F.State, tid: Tid, x: nat, advance: bool, serve: bool)
    requires Synced(m, s, f', tid, x, advance, serve)
    ensures |f'.log| > |s.fleet.log| <==> advance
  {
    hide FI.Inv;
  }
}
