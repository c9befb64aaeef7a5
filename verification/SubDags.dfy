/** `order_dag` is exact: it returns the uncommitted sub-dag of a leader, each vertex once, sorted. */
module SubDags {
  import opened Config
  import opened Dag
  import opened Ordering
  import opened Invariants

  /** Everything on the stack has been marked seen, and nothing is on it twice. */
  ghost predicate Marked(s: Stack) {
    NoDup(s.buffer) && forall b :: b in s.buffer ==> b.Digest() in s.seen
  }

  lemma NoDupCons<T>(x: T, s: seq<T>)
    requires NoDup(s) && x !in s
    ensures NoDup([x] + s)
  {}

  // ---------- what one expansion pushes ----------

  lemma {:induction false} PushAdds(open: Dag, x: Vertex, parents: seq<Digest>, s: Stack)
    requires WellKeyed(open)
    ensures var t := Push(open, x, parents, s);
      && (forall b :: b in t.buffer && b !in s.buffer ==>
            Has(open, b) && x.round == b.round + 1 && b.Digest() in parents && b.Digest() !in s.seen)
      && (forall b :: b in t.buffer ==> b in s.buffer || b.Digest() in t.seen)
      && (forall y :: Has(open, y) && x.round == y.round + 1 && y.Digest() in parents ==>
            y.Digest() in t.seen)
      && (forall y :: Has(open, y) && y.Digest() in t.seen ==> y.Digest() in s.seen || y in t.buffer)
    decreases |parents|
  {
    if parents != [] {
      var rest := parents[1..];
      match Parent(open, x, parents[0])
      case Some(p) =>
        if parents[0] in s.seen {
          PushAdds(open, x, rest, s);
        } else {
          PushAdds(open, x, rest, Stack(s.buffer + [p], s.seen + {parents[0]}));
          assert p in s.buffer + [p];
          assert forall y :: Has(open, y) && y.Digest() == parents[0] ==> y == p;
        }
      case None =>
        PushAdds(open, x, rest, s);
    }
  }

  lemma {:induction false} PushMarks(open: Dag, x: Vertex, parents: seq<Digest>, s: Stack)
    requires WellKeyed(open)
    requires Marked(s)
    ensures Marked(Push(open, x, parents, s))
    decreases |parents|
  {
    if parents != [] {
      var rest := parents[1..];
      match Parent(open, x, parents[0])
      case Some(p) =>
        if parents[0] in s.seen {
          PushMarks(open, x, rest, s);
        } else {
          PushMarks(open, x, rest, Stack(s.buffer + [p], s.seen + {parents[0]}));
        }
      case None =>
        PushMarks(open, x, rest, s);
    }
  }

  // ---------- the traversal ----------

  lemma {:induction false} DfsHoldsStack(open: Dag, s: Stack, b: Vertex)
    requires b in s.buffer
    ensures b in Dfs(open, s)
    decreases |Digests(open) - s.seen|, |s.buffer|
  {
    var init := s.buffer[..|s.buffer| - 1];
    assert s.buffer == init + [s.buffer[|s.buffer| - 1]];
    if b != s.buffer[|s.buffer| - 1] {
      var t := Advance(open, s);
      assert b in init && init <= t.buffer;
      DfsHoldsStack(open, t, b);
    }
  }

  /** Everything found was on the stack or is an open vertex not seen before. */
  lemma {:induction false} DfsOnlyOpen(open: Dag, s: Stack, y: Vertex)
    requires WellKeyed(open)
    requires y in Dfs(open, s)
    ensures y in s.buffer || (Has(open, y) && y.Digest() !in s.seen)
    decreases |Digests(open) - s.seen|, |s.buffer|
  {
    var x := s.buffer[|s.buffer| - 1];
    if y != x {
      PushAdds(open, x, x.parents, Stack(s.buffer[..|s.buffer| - 1], s.seen));
      DfsOnlyOpen(open, Advance(open, s), y);
    }
  }

  /** The result is closed under open parents that were not seen before. */
  lemma {:induction false} DfsCloses(open: Dag, s: Stack, x: Vertex, y: Vertex)
    requires WellKeyed(open)
    requires x in Dfs(open, s) && Has(open, y) && Steps(x, y)
    ensures y.Digest() in s.seen || y in Dfs(open, s)
    decreases |Digests(open) - s.seen|, |s.buffer|
  {
    var top := s.buffer[|s.buffer| - 1];
    var t := Advance(open, s);
    PushAdds(open, top, top.parents, Stack(s.buffer[..|s.buffer| - 1], s.seen));
    if x in Dfs(open, t) {
      DfsCloses(open, t, x, y);
    }
    if y.Digest() in t.seen && y.Digest() !in s.seen {
      DfsHoldsStack(open, t, y);
    }
  }

  lemma {:induction false} DfsReached(open: Dag, s: Stack, y: Vertex) returns (b: Vertex)
    requires WellKeyed(open)
    requires y in Dfs(open, s)
    ensures b in s.buffer && Reaches(open, b, y)
    decreases |Digests(open) - s.seen|, |s.buffer|
  {
    var x := s.buffer[|s.buffer| - 1];
    if y == x {
      b := x;
    } else {
      var init := Stack(s.buffer[..|s.buffer| - 1], s.seen);
      b := DfsReached(open, Advance(open, s), y);
      PushAdds(open, x, x.parents, init);
      if b !in init.buffer {
        assert Steps(x, b) && Reaches(open, x, x);
        ReachesTransitive(open, x, b, y);
        b := x;
      }
    }
  }

  lemma {:induction false} DfsNoDup(open: Dag, s: Stack)
    requires WellKeyed(open)
    requires Marked(s)
    ensures NoDup(Dfs(open, s))
    decreases |Digests(open) - s.seen|, |s.buffer|
  {
    if s.buffer != [] {
      var x := s.buffer[|s.buffer| - 1];
      var init := Stack(s.buffer[..|s.buffer| - 1], s.seen);
      var t := Advance(open, s);
      PushAdds(open, x, x.parents, init);
      assert x !in init.buffer;
      assert Marked(init);
      PushMarks(open, x, x.parents, init);
      DfsNoDup(open, t);
      if x in Dfs(open, t) {
        DfsOnlyOpen(open, t, x);
      }
      NoDupCons(x, Dfs(open, t));
    }
  }

  lemma {:induction false} ClosedHoldsReached(open: Dag, found: seq<Vertex>, leader: Vertex, y: Vertex)
    requires leader in found
    requires forall x, y :: x in found && Has(open, y) && Steps(x, y) ==> y in found
    requires Reaches(open, leader, y)
    ensures y in found
    decreases leader.round - y.round
  {
    if y != leader {
      var p: Vertex :| Steps(p, y) && Reaches(open, leader, p);
      ClosedHoldsReached(open, found, leader, p);
    }
  }

  /** The traversal from a leader finds exactly what the leader reaches through open vertices, once each. */
  lemma DfsExact(open: Dag, leader: Vertex)
    requires WellKeyed(open)
    ensures var found := Dfs(open, Stack([leader], {}));
      NoDup(found) && forall y :: y in found <==> Reaches(open, leader, y)
  {
    var s := Stack([leader], {});
    var found := Dfs(open, s);
    var init := Stack(s.buffer[..|s.buffer| - 1], {});
    var t := Advance(open, s);
    DfsHoldsStack(open, s, leader);
    forall x, y | x in found && Has(open, y) && Steps(x, y) ensures y in found {
      DfsCloses(open, s, x, y);
    }
    forall y | Reaches(open, leader, y) ensures y in found {
      ClosedHoldsReached(open, found, leader, y);
    }
    forall y | y in found ensures Reaches(open, leader, y) {
      var b := DfsReached(open, s, y);
    }
    PushAdds(open, leader, leader.parents, init);
    PushMarks(open, leader, leader.parents, init);
    DfsNoDup(open, t);
    forall y | y in Dfs(open, t) ensures y.round < leader.round {
      var b := DfsReached(open, t, y);
      ReachesDescends(open, b, y);
    }
    assert found == [leader] + Dfs(open, t);
  }

  // ---------- filtering and sorting ----------

  lemma {:induction false} WindowKeeps(s: seq<Vertex>, lastRound: Round, gc: nat)
    ensures forall y :: y in Window(s, lastRound, gc) <==> y in s && y.round + gc >= lastRound
    ensures NoDup(s) ==> NoDup(Window(s, lastRound, gc))
  {
    if s != [] {
      WindowKeeps(s[1..], lastRound, gc);
    }
  }

  lemma {:induction false} PlaceAdds(v: Vertex, s: seq<Vertex>)
    ensures multiset(Place(v, s)) == multiset(s) + multiset{v}
    ensures forall y :: y in Place(v, s) <==> y == v || y in s
  {
    if s != [] && v.round > s[0].round {
      PlaceAdds(v, s[1..]);
      assert s == [s[0]] + s[1..];
    }
  }

  lemma {:induction false} PlaceSorts(v: Vertex, s: seq<Vertex>)
    requires Sorted(s)
    ensures Sorted(Place(v, s))
  {
    if s != [] && v.round > s[0].round {
      PlaceSorts(v, s[1..]);
      PlaceAdds(v, s[1..]);
      var rest := Place(v, s[1..]);
      forall i | 0 <= i < |rest| ensures s[0].round <= rest[i].round {
        assert rest[i] in rest;
      }
    }
  }

  lemma {:induction false} PlaceNoDup(v: Vertex, s: seq<Vertex>)
    requires NoDup(s) && v !in s
    ensures NoDup(Place(v, s))
  {
    if s == [] || v.round <= s[0].round {
      NoDupCons(v, s);
    } else {
      assert s[0] !in s[1..];
      PlaceNoDup(v, s[1..]);
      PlaceAdds(v, s[1..]);
      NoDupCons(s[0], Place(v, s[1..]));
    }
  }

  lemma {:induction false} SortSorts(s: seq<Vertex>)
    ensures Sorted(SortByRound(s))
    ensures forall y :: y in SortByRound(s) <==> y in s
    ensures NoDup(s) ==> NoDup(SortByRound(s))
    ensures multiset(SortByRound(s)) == multiset(s)
  {
    if s != [] {
      var rest := SortByRound(s[1..]);
      SortSorts(s[1..]);
      PlaceSorts(s[0], rest);
      PlaceAdds(s[0], rest);
      assert s == [s[0]] + s[1..];
      if NoDup(s) {
        PlaceNoDup(s[0], rest);
      }
    }
  }

  /** The vertices of one round, in order. */
  function OfRound(s: seq<Vertex>, r: Round): seq<Vertex> {
    if s == [] then [] else (if s[0].round == r then [s[0]] else []) + OfRound(s[1..], r)
  }

  lemma {:induction false} PlaceIsStable(v: Vertex, s: seq<Vertex>, r: Round)
    ensures OfRound(Place(v, s), r) == (if v.round == r then [v] else []) + OfRound(s, r)
  {
    if s != [] && v.round > s[0].round {
      PlaceIsStable(v, s[1..], r);
    }
  }

  /** Sorting by round is stable: vertices of one round stay in traversal order. */
  lemma {:induction false} SortIsStable(s: seq<Vertex>, r: Round)
    ensures OfRound(SortByRound(s), r) == OfRound(s, r)
  {
    if s != [] {
      SortIsStable(s[1..], r);
      PlaceIsStable(s[0], SortByRound(s[1..]), r);
    }
  }

  // ---------- order_dag ----------

  lemma OpenHas(view: View, v: Vertex)
    requires WellKeyed(view.dag)
    ensures WellKeyed(Open(view))
    ensures Has(Open(view), v) <==> Has(view.dag, v) && !Committed(view.last, v)
  {}

  ghost predicate Selects(batch: seq<Vertex>, view: View, leader: Vertex, gc: nat) {
    forall y :: y in batch <==> Reaches(Open(view), leader, y) && y.round + gc >= view.lastRound
  }

  /** `order_dag` returns, without duplicates and sorted by round, exactly the vertices the leader
      reaches along uncommitted vertices of the dag and that are inside the garbage-collection window. */
  lemma OrderDagExact(view: View, leader: Vertex, gc: nat)
    requires WellKeyed(view.dag)
    ensures var batch := OrderDag(view, leader, gc);
      NoDup(batch) && Sorted(batch) && Selects(batch, view, leader, gc)
  {
    OpenHas(view, leader);
    var found := Dfs(Open(view), Stack([leader], {}));
    DfsExact(Open(view), leader);
    WindowKeeps(found, view.lastRound, gc);
    SortSorts(Window(found, view.lastRound, gc));
  }

  /** A leader inside the window comes last in its batch, the only one of its round. */
  lemma LeaderComesLast(view: View, leader: Vertex, gc: nat)
    requires WellKeyed(view.dag)
    requires leader.round + gc >= view.lastRound
    ensures var batch := OrderDag(view, leader, gc);
      && batch != [] && batch[|batch| - 1] == leader
      && forall y :: y in batch && y != leader ==> y.round < leader.round
  {
    var batch := OrderDag(view, leader, gc);
    OrderDagExact(view, leader, gc);
    assert leader in batch;
    forall y | y in batch ensures y == leader || y.round < leader.round {
      ReachesDescends(Open(view), leader, y);
    }
    var i :| 0 <= i < |batch| && batch[i] == leader;
    var top := batch[|batch| - 1];
    assert top in batch && batch[i].round <= top.round;
  }
}
