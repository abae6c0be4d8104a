/** Live members in the planner's order. */
module Members {
  import opened Tables

  datatype Member = Member(id: Node, instance: Instance, stableFor: int)

  /** Strings in byte order. */
  predicate Before(a: string, b: string) {
    b != "" && (a == "" || a[0] < b[0] || (a[0] == b[0] && Before(a[1..], b[1..])))
  }

  predicate DistinctIds(ms: seq<Member>) {
    forall i, j | 0 <= i < j < |ms| :: ms[i].id != ms[j].id
  }

  predicate DistinctInstances(ms: seq<Member>) {
    forall i, j | 0 <= i < j < |ms| :: ms[i].instance != ms[j].instance
  }

  predicate Ascending(ms: seq<Member>) {
    forall i, j | 0 <= i < j < |ms| :: Before(ms[i].id, ms[j].id)
  }

  function Insert(m: Member, ms: seq<Member>): seq<Member> {
    if ms == [] || Before(m.id, ms[0].id) then [m] + ms else [ms[0]] + Insert(m, ms[1..])
  }

  /** The members by ID: what sorting them yields, whatever order they came in. */
  function ById(ms: seq<Member>): seq<Member> {
    if ms == [] then [] else Insert(ms[|ms| - 1], ById(ms[..|ms| - 1]))
  }

  // ------------------------------------------------------------------
  // The order is strict and total.

  lemma {:induction false} BeforeIrreflexive(a: string)
    ensures !Before(a, a)
  {
    if a != "" {
      BeforeIrreflexive(a[1..]);
    }
  }

  lemma {:induction false} BeforeTransitive(a: string, b: string, c: string)
    requires Before(a, b) && Before(b, c)
    ensures Before(a, c)
  {
    if a != "" && a[0] == b[0] && b[0] == c[0] {
      BeforeTransitive(a[1..], b[1..], c[1..]);
    }
  }

  lemma {:induction false} BeforeTotal(a: string, b: string)
    ensures a == b || Before(a, b) || Before(b, a)
  {
    if a != "" && b != "" && a[0] == b[0] {
      BeforeTotal(a[1..], b[1..]);
      if a[1..] == b[1..] {
        assert a == [a[0]] + a[1..] && b == [b[0]] + b[1..];
      }
    }
  }

  // ------------------------------------------------------------------
  // Sorting.

  lemma {:induction false} InsertKeeps(m: Member, ms: seq<Member>)
    ensures multiset(Insert(m, ms)) == multiset(ms) + multiset{m}
  {
    if ms == [] || Before(m.id, ms[0].id) {
      assert multiset([m] + ms) == multiset{m} + multiset(ms);
    } else {
      InsertKeeps(m, ms[1..]);
      assert ms == [ms[0]] + ms[1..];
    }
  }

  lemma {:induction false} SortKeeps(ms: seq<Member>)
    ensures multiset(ById(ms)) == multiset(ms)
  {
    if ms != [] {
      SortKeeps(ms[..|ms| - 1]);
      InsertKeeps(ms[|ms| - 1], ById(ms[..|ms| - 1]));
      assert ms == ms[..|ms| - 1] + [ms[|ms| - 1]];
    }
  }

  lemma {:induction false} InsertAscends(m: Member, ms: seq<Member>)
    requires Ascending(ms) && forall i | 0 <= i < |ms| :: ms[i].id != m.id
    ensures Ascending(Insert(m, ms))
    ensures forall x | x in Insert(m, ms) :: x == m || x in ms
  {
    if ms == [] {
    } else if Before(m.id, ms[0].id) {
      forall i | 0 < i < |ms| ensures Before(m.id, ms[i].id) {
        BeforeTransitive(m.id, ms[0].id, ms[i].id);
      }
    } else {
      BeforeTotal(m.id, ms[0].id);
      InsertAscends(m, ms[1..]);
      var rest := Insert(m, ms[1..]);
      forall i | 0 <= i < |rest| ensures Before(ms[0].id, rest[i].id) {
        assert rest[i] in rest;
        assert rest[i] == m || rest[i] in ms[1..];
      }
    }
  }

  lemma {:induction false} SortAscends(ms: seq<Member>)
    requires DistinctIds(ms)
    ensures Ascending(ById(ms))
  {
    if ms != [] {
      var front := ms[..|ms| - 1];
      SortAscends(front);
      SortKeeps(front);
      forall i | 0 <= i < |ById(front)| ensures ById(front)[i].id != ms[|ms| - 1].id {
        assert ById(front)[i] in multiset(front);
        var k :| 0 <= k < |front| && front[k] == ById(front)[i];
        assert ms[k] == front[k];
      }
      InsertAscends(ms[|ms| - 1], ById(front));
    }
  }

  lemma {:induction false} HeadsAgree(a: seq<Member>, b: seq<Member>)
    requires Ascending(a) && Ascending(b) && multiset(a) == multiset(b) && a != [] && b != []
    ensures a[0] == b[0]
  {
    assert a[0] in multiset(b) && b[0] in multiset(a);
    var i :| 0 <= i < |b| && b[i] == a[0];
    var j :| 0 <= j < |a| && a[j] == b[0];
    if i > 0 && j > 0 {
      BeforeTransitive(a[0].id, b[0].id, a[0].id);
      BeforeIrreflexive(a[0].id);
    }
  }

  lemma {:induction false} TailsAgree(a: seq<Member>, b: seq<Member>)
    requires multiset(a) == multiset(b) && a != [] && b != [] && a[0] == b[0]
    ensures multiset(a[1..]) == multiset(b[1..])
  {
    assert a == [a[0]] + a[1..] && b == [b[0]] + b[1..];
    assert multiset(a) == multiset{a[0]} + multiset(a[1..]);
    assert multiset(b) == multiset{b[0]} + multiset(b[1..]);
    assert multiset(a[1..]) == multiset(a) - multiset{a[0]};
    assert multiset(b[1..]) == multiset(b) - multiset{b[0]};
  }

  /** Two ascending lists of the same members are the same list. */
  lemma {:induction false} AscendingUnique(a: seq<Member>, b: seq<Member>)
    requires Ascending(a) && Ascending(b) && multiset(a) == multiset(b)
    ensures a == b
  {
    assert |multiset(a)| == |multiset(b)|;
    if a != [] {
      HeadsAgree(a, b);
      TailsAgree(a, b);
      AscendingUnique(a[1..], b[1..]);
      assert a == [a[0]] + a[1..] && b == [b[0]] + b[1..];
    }
  }

  /** The order in which members are listed does not matter. */
  lemma {:induction false} SortForgetsOrder(a: seq<Member>, b: seq<Member>)
    requires DistinctIds(a) && multiset(a) == multiset(b)
    ensures ById(a) == ById(b)
  {
    SortKeeps(a);
    SortKeeps(b);
    SortAscends(a);
    DistinctShared(a, b);
    SortAscends(b);
    AscendingUnique(ById(a), ById(b));
  }

  lemma {:induction false} DistinctShared(a: seq<Member>, b: seq<Member>)
    requires DistinctIds(a) && multiset(a) == multiset(b)
    ensures DistinctIds(b)
  {
    SortAscends(a);
    SortKeeps(a);
    forall i, j | 0 <= i < j < |b| ensures b[i].id != b[j].id {
      PairAscends(ById(a), b, i, j);
    }
  }

  lemma PairAscends(s: seq<Member>, b: seq<Member>, i: nat, j: nat)
    requires Ascending(s) && multiset(s) == multiset(b) && i < j < |b|
    ensures b[i].id != b[j].id
  {
    if b[i].id == b[j].id {
      assert b[i] in multiset(s) && b[j] in multiset(s);
      var p :| 0 <= p < |s| && s[p] == b[i];
      var q :| 0 <= q < |s| && s[q] == b[j];
      BeforeIrreflexive(b[i].id);
      assert p == q && b[i] == b[j];
      TwiceIn(b, i, j);
      OnceIn(s, p);
      assert false;
    }
  }

  lemma {:induction false} TwiceIn(b: seq<Member>, i: nat, j: nat)
    requires i < j < |b| && b[i] == b[j]
    ensures multiset(b)[b[i]] >= 2
  {
    assert b == b[..j] + [b[j]] + b[j + 1..];
    assert b[i] in b[..j];
  }

  lemma {:induction false} OnceIn(s: seq<Member>, p: nat)
    requires Ascending(s) && p < |s|
    ensures multiset(s)[s[p]] == 1
  {
    assert s == s[..p] + [s[p]] + s[p + 1..];
    BeforeIrreflexive(s[p].id);
    assert s[p] !in s[..p] && s[p] !in s[p + 1..];
  }

  /** Sorting keeps who is a member, and how many. */
  lemma {:induction false} SortMembers(ms: seq<Member>)
    ensures |ById(ms)| == |ms| && forall m :: m in ById(ms) <==> m in ms
  {
    SortKeeps(ms);
    assert |multiset(ById(ms))| == |multiset(ms)|;
    forall m ensures m in ById(ms) <==> m in ms {
      assert m in multiset(ById(ms)) <==> m in multiset(ms);
    }
  }
}
