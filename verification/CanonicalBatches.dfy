/** The batch of a leader as the whole dag determines it, and exactly when a node's own batch is that one. */
module CanonicalBatches {
  import opened Config
  import opened Dag
  import opened Ordering
  import opened Invariants
  import opened SubDags
  import opened Runs
  import opened Once
  import opened Agreement

  /** `v` belongs to the history of one of the leaders. */
  ghost predicate Covered(w: World, leaders: seq<Vertex>, v: Vertex) {
    exists l :: l in leaders && Reaches(w.dag, l, v)
  }

  /** The whole dag without genesis and without the histories of the leaders. */
  ghost function Fresh(w: World, leaders: seq<Vertex>): Dag {
    map r | r in w.dag && r > 0 :: map a | a in w.dag[r] && !Covered(w, leaders, w.dag[r][a]) :: w.dag[r][a]
  }

  ghost function Floor(leaders: seq<Vertex>): Round {
    if leaders == [] then 0 else leaders[|leaders| - 1].round
  }

  /** The batch of `leader` as the whole dag determines it: its history minus the earlier leaders'
      histories, cut at the garbage-collection window, in traversal order stably sorted by round. */
  ghost function CanonicalBatch(w: World, leaders: seq<Vertex>, leader: Vertex): seq<Vertex> {
    SortByRound(Window(Dfs(Fresh(w, leaders), Stack([leader], {})), Floor(leaders), w.setup.gcDepth))
  }

  ghost function CanonicalOutput(w: World, leaders: seq<Vertex>): seq<Vertex> {
    if leaders == [] then []
    else
      var before := leaders[..|leaders| - 1];
      CanonicalOutput(w, before) + CanonicalBatch(w, before, leaders[|leaders| - 1])
  }

  // ---------- a traversal and its part inside the window ----------

  function Cut(dag: Dag, lastRound: Round, gc: nat): Dag {
    map r | r in dag && r + gc >= lastRound :: dag[r]
  }

  predicate Inside(r: Round, lastRound: Round, gc: nat) {
    r + gc >= lastRound
  }

  /** `t` is what is left of `s` inside the window. */
  ghost predicate CutTo(s: Stack, t: Stack, lastRound: Round, gc: nat) {
    && t.buffer == Window(s.buffer, lastRound, gc)
    && forall d: Digest :: Inside(d.round, lastRound, gc) ==> (d in s.seen <==> d in t.seen)
  }

  lemma {:induction false} WindowAppend(s: seq<Vertex>, v: Vertex, lastRound: Round, gc: nat)
    ensures Window(s + [v], lastRound, gc) ==
      Window(s, lastRound, gc) + (if Inside(v.round, lastRound, gc) then [v] else [])
  {
    if s != [] {
      assert (s + [v])[1..] == s[1..] + [v];
      WindowAppend(s[1..], v, lastRound, gc);
    }
  }

  lemma ParentHas(dag: Dag, x: Vertex, d: Digest, p: Vertex)
    requires WellKeyed(dag)
    ensures Parent(dag, x, d) == Some(p) <==> Has(dag, p) && p.round + 1 == x.round && p.Digest() == d
  {}

  lemma CutParent(dag: Dag, x: Vertex, d: Digest, lastRound: Round, gc: nat)
    requires WellKeyed(dag)
    ensures Parent(Cut(dag, lastRound, gc), x, d) ==
      (if Inside(d.round, lastRound, gc) then Parent(dag, x, d) else None)
  {}

  /** Expanding a vertex and cutting commute. */
  lemma {:induction false} PushCut(open: Dag, x: Vertex, parents: seq<Digest>, s: Stack, t: Stack, lastRound: Round,
          gc: nat)
    requires WellKeyed(open)
    requires CutTo(s, t, lastRound, gc)
    ensures CutTo(Push(open, x, parents, s), Push(Cut(open, lastRound, gc), x, parents, t), lastRound, gc)
    decreases |parents|
  {
    if parents != [] {
      var d := parents[0];
      CutParent(open, x, d, lastRound, gc);
      match Parent(open, x, d)
      case Some(p) =>
        ParentHas(open, x, d, p);
        if d in s.seen {
          PushCut(open, x, parents[1..], s, t, lastRound, gc);
        } else {
          WindowAppend(s.buffer, p, lastRound, gc);
          var s' := Stack(s.buffer + [p], s.seen + {d});
          if Inside(d.round, lastRound, gc) {
            PushCut(open, x, parents[1..], s', Stack(t.buffer + [p], t.seen + {d}), lastRound, gc);
          } else {
            PushCut(open, x, parents[1..], s', t, lastRound, gc);
          }
        }
      case None =>
        PushCut(open, x, parents[1..], s, t, lastRound, gc);
    }
  }

  /** Nothing below the window has a parent inside it. */
  lemma {:induction false} PushBelow(open: Dag, x: Vertex, parents: seq<Digest>, s: Stack, t: Stack, lastRound: Round,
          gc: nat)
    requires WellKeyed(open)
    requires CutTo(s, t, lastRound, gc)
    requires !Inside(x.round, lastRound, gc)
    ensures CutTo(Push(open, x, parents, s), t, lastRound, gc)
    decreases |parents|
  {
    if parents != [] {
      var d := parents[0];
      match Parent(open, x, d)
      case Some(p) =>
        ParentHas(open, x, d, p);
        if d in s.seen {
          PushBelow(open, x, parents[1..], s, t, lastRound, gc);
        } else {
          WindowAppend(s.buffer, p, lastRound, gc);
          PushBelow(open, x, parents[1..], Stack(s.buffer + [p], s.seen + {d}), t, lastRound, gc);
        }
      case None =>
        PushBelow(open, x, parents[1..], s, t, lastRound, gc);
    }
  }

  /** The part of a traversal inside the window is the traversal of the part inside the window. */
  lemma {:induction false} DfsCut(open: Dag, s: Stack, t: Stack, lastRound: Round, gc: nat)
    requires WellKeyed(open)
    requires CutTo(s, t, lastRound, gc)
    ensures Window(Dfs(open, s), lastRound, gc) == Dfs(Cut(open, lastRound, gc), t)
    decreases |Digests(open) - s.seen|, |s.buffer|
  {
    if s.buffer != [] {
      var x := s.buffer[|s.buffer| - 1];
      var init := Stack(s.buffer[..|s.buffer| - 1], s.seen);
      assert s.buffer == init.buffer + [x];
      WindowAppend(init.buffer, x, lastRound, gc);
      assert Dfs(open, s) == [x] + Dfs(open, Advance(open, s));
      if Inside(x.round, lastRound, gc) {
        var rest := Stack(Window(init.buffer, lastRound, gc), t.seen);
        assert t.buffer == rest.buffer + [x];
        assert rest.buffer == t.buffer[..|t.buffer| - 1];
        PushCut(open, x, x.parents, init, rest, lastRound, gc);
        DfsCut(open, Advance(open, s), Advance(Cut(open, lastRound, gc), t), lastRound, gc);
      } else {
        assert t.buffer == Window(init.buffer, lastRound, gc);
        PushBelow(open, x, x.parents, init, t, lastRound, gc);
        DfsCut(open, Advance(open, s), t, lastRound, gc);
      }
    }
  }

  // ---------- traversals of dags that agree on what the leader reaches ----------

  /** The two dags hold the same vertices of the leader's history. */
  ghost predicate SameBelow(dag: Dag, leader: Vertex, one: Dag, two: Dag) {
    && WellKeyed(one) && WellKeyed(two) && SubDag(one, dag) && SubDag(two, dag)
    && forall v :: v != leader && Reaches(dag, leader, v) ==> (Has(one, v) <==> Has(two, v))
  }

  lemma SameParent(dag: Dag, leader: Vertex, one: Dag, two: Dag, x: Vertex, d: Digest)
    requires SameBelow(dag, leader, one, two)
    requires Reaches(dag, leader, x) && d in x.parents
    ensures Parent(one, x, d) == Parent(two, x, d)
    ensures Parent(one, x, d).Some? ==> Reaches(dag, leader, Parent(one, x, d).value)
  {
    ReachesDescends(dag, leader, x);
    match Parent(one, x, d) {
      case Some(p) =>
        ParentHas(one, x, d, p);
        ReachesParent(dag, leader, x, p);
        ParentHas(two, x, d, p);
      case None =>
    }
    match Parent(two, x, d) {
      case Some(p) =>
        ParentHas(two, x, d, p);
        ReachesParent(dag, leader, x, p);
        ParentHas(one, x, d, p);
      case None =>
    }
  }

  lemma {:induction false} SamePush(dag: Dag, leader: Vertex, one: Dag, two: Dag, x: Vertex, parents: seq<Digest>,
          s: Stack)
    requires SameBelow(dag, leader, one, two)
    requires Reaches(dag, leader, x) && forall d :: d in parents ==> d in x.parents
    requires forall b :: b in s.buffer ==> Reaches(dag, leader, b)
    ensures Push(one, x, parents, s) == Push(two, x, parents, s)
    ensures forall b :: b in Push(one, x, parents, s).buffer ==> Reaches(dag, leader, b)
    decreases |parents|
  {
    if parents != [] {
      var d := parents[0];
      SameParent(dag, leader, one, two, x, d);
      match Parent(one, x, d)
      case Some(p) =>
        if d in s.seen {
          SamePush(dag, leader, one, two, x, parents[1..], s);
        } else {
          SamePush(dag, leader, one, two, x, parents[1..], Stack(s.buffer + [p], s.seen + {d}));
        }
      case None =>
        SamePush(dag, leader, one, two, x, parents[1..], s);
    }
  }

  lemma {:induction false} SameDfs(dag: Dag, leader: Vertex, one: Dag, two: Dag, s: Stack)
    requires SameBelow(dag, leader, one, two)
    requires forall b :: b in s.buffer ==> Reaches(dag, leader, b)
    ensures Dfs(one, s) == Dfs(two, s)
    decreases |Digests(one) - s.seen|, |s.buffer|
  {
    if s.buffer != [] {
      var x := s.buffer[|s.buffer| - 1];
      SamePush(dag, leader, one, two, x, x.parents, Stack(s.buffer[..|s.buffer| - 1], s.seen));
      SameDfs(dag, leader, one, two, Advance(one, s));
    }
  }

  // ---------- what a node has output, in terms of the whole dag ----------

  /** Inside the window, exactly the covered certificates are output. */
  ghost predicate OutputCovers(w: World, view: View, delivered: set<Vertex>, output: seq<Vertex>,
          leaders: seq<Vertex>) {
    && (forall p :: p in delivered && p.round > 0 && Inside(p.round, view.lastRound, w.setup.gcDepth) ==>
          (Covered(w, leaders, p) <==> p in output))
    && (forall p :: p in output ==> Covered(w, leaders, p))
  }

  /** The certificate belongs to the leader's history and the window, and has not been output. */
  ghost predicate Wanted(w: World, view: View, output: seq<Vertex>, leader: Vertex, p: Vertex) {
    Reaches(w.dag, leader, p) && p.round > 0 && p !in output && Inside(p.round, view.lastRound, w.setup.gcDepth)
  }

  /** None of the leader's history that the commit should output has been dropped from the dag. */
  ghost predicate NothingDropped(w: World, view: View, output: seq<Vertex>, leader: Vertex) {
    forall p :: Wanted(w, view, output, leader, p) && p != leader ==> Has(view.dag, p)
  }

  ghost predicate Canonical(w: World, view: View, delivered: set<Vertex>, output: seq<Vertex>, leaders: seq<Vertex>) {
    && Ledger(w, view, delivered, output)
    && OutputCovers(w, view, delivered, output, leaders)
    && view.lastRound == Floor(leaders)
    && (forall l :: l in leaders ==> l in delivered)
    && output == CanonicalOutput(w, leaders)
  }

  lemma {:induction false} HistoryDelivered(w: World, delivered: set<Vertex>, x: Vertex, y: Vertex)
    requires Closed(w, delivered) && x in delivered
    requires Reaches(w.dag, x, y)
    ensures y in delivered
    decreases x.round - y.round
  {
    if x != y {
      var p: Vertex :| Steps(p, y) && Reaches(w.dag, x, p);
      HistoryDelivered(w, delivered, x, p);
    }
  }

  lemma CoveredDown(w: World, leaders: seq<Vertex>, x: Vertex, y: Vertex)
    requires Covered(w, leaders, x) && Reaches(w.dag, x, y)
    ensures Covered(w, leaders, y)
  {
    var l :| l in leaders && Reaches(w.dag, l, x);
    ReachesTransitive(w.dag, l, x, y);
  }

  lemma CoveredAppend(w: World, leaders: seq<Vertex>, leader: Vertex, v: Vertex)
    ensures Covered(w, leaders + [leader], v) <==> Covered(w, leaders, v) || Reaches(w.dag, leader, v)
  {
    if Covered(w, leaders, v) {
      var l :| l in leaders && Reaches(w.dag, l, v);
      assert l in leaders + [leader];
    }
    if Reaches(w.dag, leader, v) {
      assert leader in leaders + [leader];
    }
  }

  lemma FreshHas(w: World, leaders: seq<Vertex>, v: Vertex)
    requires WellKeyed(w.dag)
    ensures WellKeyed(Fresh(w, leaders))
    ensures Has(Fresh(w, leaders), v) <==> Has(w.dag, v) && v.round > 0 && !Covered(w, leaders, v)
  {}

  /** Inside the window the node's traversal may step on a certificate exactly when no earlier leader covers
      it, unless the dag has dropped it. */
  lemma OpenIsFresh(w: World, view: View, delivered: set<Vertex>, output: seq<Vertex>, leaders: seq<Vertex>, v: Vertex)
    requires WellFormed(w) && Canonical(w, view, delivered, output, leaders)
    requires v in delivered && Inside(v.round, view.lastRound, w.setup.gcDepth)
    requires v.round > 0 && v !in output ==> Has(view.dag, v)
    ensures Has(Open(view), v) <==> Has(Fresh(w, leaders), v)
  {
    OpenHas(view, v);
    FreshHas(w, leaders, v);
    if Has(view.dag, v) {
      SkipTestExact(w, view, delivered, output, v);
    }
  }

  lemma CutHas(dag: Dag, lastRound: Round, gc: nat, v: Vertex)
    requires WellKeyed(dag)
    ensures WellKeyed(Cut(dag, lastRound, gc))
    ensures Has(Cut(dag, lastRound, gc), v) <==> Has(dag, v) && Inside(v.round, lastRound, gc)
  {}

  lemma OpenInWorld(w: World, view: View, delivered: set<Vertex>, leaders: seq<Vertex>, v: Vertex)
    requires WellFormed(w) && Sound(w, view, delivered)
    ensures var gc := w.setup.gcDepth;
      && (Has(Cut(Open(view), view.lastRound, gc), v) ==> Has(w.dag, v))
      && (Has(Cut(Fresh(w, leaders), view.lastRound, gc), v) ==> Has(w.dag, v))
      && WellKeyed(Cut(Open(view), view.lastRound, gc)) && WellKeyed(Cut(Fresh(w, leaders), view.lastRound, gc))
  {
    OpenHas(view, v);
    FreshHas(w, leaders, v);
    CutHas(Open(view), view.lastRound, w.setup.gcDepth, v);
    CutHas(Fresh(w, leaders), view.lastRound, w.setup.gcDepth, v);
  }

  lemma CutsAgree(w: World, view: View, delivered: set<Vertex>, output: seq<Vertex>, leaders: seq<Vertex>,
          leader: Vertex)
    requires WellFormed(w) && Canonical(w, view, delivered, output, leaders)
    requires leader in delivered && NothingDropped(w, view, output, leader)
    ensures var gc := w.setup.gcDepth;
      SameBelow(w.dag, leader, Cut(Open(view), view.lastRound, gc), Cut(Fresh(w, leaders), view.lastRound, gc))
  {
    var gc := w.setup.gcDepth;
    var one, two := Cut(Open(view), view.lastRound, gc), Cut(Fresh(w, leaders), view.lastRound, gc);
    forall v ensures Has(one, v) || Has(two, v) ==> Has(w.dag, v) {
      OpenInWorld(w, view, delivered, leaders, v);
    }
    OpenInWorld(w, view, delivered, leaders, leader);
    forall v | v != leader && Reaches(w.dag, leader, v) ensures Has(one, v) <==> Has(two, v) {
      HistoryDelivered(w, delivered, leader, v);
      OpenHas(view, v);
      FreshHas(w, leaders, v);
      CutHas(Open(view), view.lastRound, gc, v);
      CutHas(Fresh(w, leaders), view.lastRound, gc, v);
      if Inside(v.round, view.lastRound, gc) {
        assert v.round > 0 && v !in output ==> Wanted(w, view, output, leader, v);
        OpenIsFresh(w, view, delivered, output, leaders, v);
      }
    }
  }

  /** Dags that agree inside the window on what the leader reaches give the same batch. */
  lemma SameBatch(dag: Dag, leader: Vertex, one: Dag, two: Dag, lastRound: Round, gc: nat)
    requires WellKeyed(one) && WellKeyed(two) && Inside(leader.round, lastRound, gc)
    requires SameBelow(dag, leader, Cut(one, lastRound, gc), Cut(two, lastRound, gc))
    ensures Window(Dfs(one, Stack([leader], {})), lastRound, gc) == Window(Dfs(two, Stack([leader], {})), lastRound, gc)
  {
    var s := Stack([leader], {});
    assert CutTo(s, s, lastRound, gc);
    DfsCut(one, s, s, lastRound, gc);
    DfsCut(two, s, s, lastRound, gc);
    assert Reaches(dag, leader, leader);
    SameDfs(dag, leader, Cut(one, lastRound, gc), Cut(two, lastRound, gc), s);
  }

  /** If nothing wanted was dropped, the node's batch for a leader is the canonical one. */
  lemma BatchCanonical(w: World, view: View, delivered: set<Vertex>, output: seq<Vertex>, leaders: seq<Vertex>,
          leader: Vertex)
    requires WellFormed(w) && Canonical(w, view, delivered, output, leaders)
    requires leader in delivered && leader.round > view.lastRound && NothingDropped(w, view, output, leader)
    ensures OrderDag(view, leader, w.setup.gcDepth) == CanonicalBatch(w, leaders, leader)
  {
    OpenHas(view, leader);
    FreshHas(w, leaders, leader);
    CutsAgree(w, view, delivered, output, leaders, leader);
    hide Dfs, Fresh, Open, Cut, NothingDropped, SameBelow;
    SameBatch(w.dag, leader, Open(view), Fresh(w, leaders), view.lastRound, w.setup.gcDepth);
  }

  /** A canonical batch is the leader's history minus the earlier leaders' histories, cut at the window:
      each certificate once, sorted by round. */
  lemma CanonicalBatchExact(w: World, leaders: seq<Vertex>, leader: Vertex, p: Vertex)
    requires WellFormed(w)
    requires Has(w.dag, leader) && !Covered(w, leaders, leader) && p.round > 0
    ensures NoDup(CanonicalBatch(w, leaders, leader)) && Sorted(CanonicalBatch(w, leaders, leader))
    ensures p in CanonicalBatch(w, leaders, leader) <==>
      Reaches(w.dag, leader, p) && !Covered(w, leaders, p) && Inside(p.round, Floor(leaders), w.setup.gcDepth)
  {
    var rest := Fresh(w, leaders);
    FreshHas(w, leaders, leader);
    DfsExact(rest, leader);
    var found := Dfs(rest, Stack([leader], {}));
    WindowKeeps(found, Floor(leaders), w.setup.gcDepth);
    SortSorts(Window(found, Floor(leaders), w.setup.gcDepth));
    if Reaches(rest, leader, p) {
      forall v | Has(rest, v) ensures Has(w.dag, v) {
        FreshHas(w, leaders, v);
      }
      ReachesMonotone(rest, w.dag, leader, p);
      FreshHas(w, leaders, p);
    }
    if Reaches(w.dag, leader, p) && !Covered(w, leaders, p) {
      FreshReached(w, leaders, leader, p);
    }
  }

  lemma {:induction false} FreshReached(w: World, leaders: seq<Vertex>, leader: Vertex, p: Vertex)
    requires WellKeyed(w.dag)
    requires Reaches(w.dag, leader, p) && !Covered(w, leaders, p) && p.round > 0
    ensures Reaches(Fresh(w, leaders), leader, p)
    decreases leader.round - p.round
  {
    if p != leader {
      var x: Vertex :| Steps(x, p) && Reaches(w.dag, leader, x);
      if Covered(w, leaders, x) {
        StepsReach(w.dag, x, p);
        CoveredDown(w, leaders, x, p);
      }
      FreshReached(w, leaders, leader, x);
      FreshHas(w, leaders, p);
    }
  }

  // ---------- one batch ----------

  /** A canonical batch holds what a node that has been canonical so far wants. */
  lemma CanonicalIsWanted(w: World, view: View, delivered: set<Vertex>, output: seq<Vertex>, leaders: seq<Vertex>,
          leader: Vertex, p: Vertex)
    requires WellFormed(w) && Canonical(w, view, delivered, output, leaders)
    requires leader in delivered && leader.round > view.lastRound
    ensures Has(w.dag, leader) && !Covered(w, leaders, leader)
    ensures p.round > 0 ==> (p in CanonicalBatch(w, leaders, leader) <==> Wanted(w, view, output, leader, p))
  {
    assert forall x :: x in output ==> x.author in view.last && x.round <= view.last[x.author];
    assert leader !in output;
    if p.round > 0 {
      CanonicalBatchExact(w, leaders, leader, p);
      if Reaches(w.dag, leader, p) {
        HistoryDelivered(w, delivered, leader, p);
      }
    }
  }

  /** Exactly when the canonical batch is the node's: none of it has been dropped from the dag. */
  lemma BatchExact(w: World, view: View, delivered: set<Vertex>, output: seq<Vertex>, leaders: seq<Vertex>,
          leader: Vertex)
    requires WellFormed(w) && Canonical(w, view, delivered, output, leaders)
    requires leader in delivered && leader.round > view.lastRound
    ensures OrderDag(view, leader, w.setup.gcDepth) == CanonicalBatch(w, leaders, leader)
      <==> NothingDropped(w, view, output, leader)
  {
    if NothingDropped(w, view, output, leader) {
      BatchCanonical(w, view, delivered, output, leaders, leader);
    } else {
      var p :| Wanted(w, view, output, leader, p) && p != leader && !Has(view.dag, p);
      CanonicalIsWanted(w, view, delivered, output, leaders, leader, p);
      OrderDagExact(view, leader, w.setup.gcDepth);
      OpenHas(view, p);
      assert p !in OrderDag(view, leader, w.setup.gcDepth);
    }
  }

  /** The sequences differ at some place both have. */
  ghost predicate Diverge(s: seq<Vertex>, t: seq<Vertex>) {
    exists i :: 0 <= i < |s| && i < |t| && s[i] != t[i]
  }

  lemma DivergeOn(s: seq<Vertex>, t: seq<Vertex>, s': seq<Vertex>, t': seq<Vertex>)
    requires Diverge(s, t) && s <= s' && t <= t'
    ensures Diverge(s', t') && !(s' <= t') && !(t' <= s')
  {
    var i :| 0 <= i < |s| && i < |t| && s[i] != t[i];
    assert s'[i] != t'[i];
  }

  lemma DivergeAfter(s: seq<Vertex>, x: seq<Vertex>, y: seq<Vertex>)
    requires Diverge(x, y)
    ensures Diverge(s + x, s + y)
  {
    var i :| 0 <= i < |x| && i < |y| && x[i] != y[i];
    assert (s + x)[|s| + i] == x[i] && (s + y)[|s| + i] == y[i];
  }

  /** Two different sequences that end in the same element, which neither has twice, differ in between. */
  lemma SameEndDiverge(x: seq<Vertex>, y: seq<Vertex>)
    requires x != [] && y != [] && x[|x| - 1] == y[|y| - 1]
    requires NoDup(x) && NoDup(y) && x != y
    ensures Diverge(x, y)
  {
    if |x| < |y| {
      assert x[|x| - 1] != y[|x| - 1];
    } else if |y| < |x| {
      assert x[|y| - 1] != y[|y| - 1];
    } else {
      var i :| 0 <= i < |x| && x[i] != y[i];
    }
  }

  lemma LeaderEndsCanonical(w: World, view: View, delivered: set<Vertex>, output: seq<Vertex>, leaders: seq<Vertex>,
          leader: Vertex)
    requires WellFormed(w) && Canonical(w, view, delivered, output, leaders)
    requires leader in delivered && leader.round > view.lastRound
    ensures var batch := CanonicalBatch(w, leaders, leader);
      NoDup(batch) && batch != [] && batch[|batch| - 1] == leader
  {
    var batch := CanonicalBatch(w, leaders, leader);
    assert Reaches(w.dag, leader, leader);
    CanonicalIsWanted(w, view, delivered, output, leaders, leader, leader);
    CanonicalBatchExact(w, leaders, leader, leader);
    assert leader in batch;
    var i :| 0 <= i < |batch| && batch[i] == leader;
    var last := batch[|batch| - 1];
    assert last in batch && last.round >= leader.round;
    CanonicalBatchExact(w, leaders, leader, last);
    ReachesDescends(w.dag, leader, last);
  }

  lemma CoversAppend(w: World, view: View, u: View, delivered: set<Vertex>, output: seq<Vertex>, batch: seq<Vertex>,
          leaders: seq<Vertex>, leader: Vertex)
    requires OutputCovers(w, view, delivered, output, leaders) && view.lastRound <= u.lastRound
    requires forall p :: p in batch ==> p in delivered && p.round > 0
    requires forall p :: p in delivered && p.round > 0 ==> (p in batch <==> Wanted(w, view, output, leader, p))
    ensures OutputCovers(w, u, delivered, output + batch, leaders + [leader])
  {
    forall p ensures Covered(w, leaders + [leader], p) <==> Covered(w, leaders, p) || Reaches(w.dag, leader, p) {
      CoveredAppend(w, leaders, leader, p);
    }
    hide Covered, Reaches;
  }

  lemma BatchOutputCovers(w: World, view: View, delivered: set<Vertex>, output: seq<Vertex>, leaders: seq<Vertex>,
          leader: Vertex)
    requires WellFormed(w) && Canonical(w, view, delivered, output, leaders)
    requires leader in delivered && leader.round > view.lastRound && NothingDropped(w, view, output, leader)
    ensures var batch := OrderDag(view, leader, w.setup.gcDepth);
      OutputCovers(w, UpdateAll(view, batch, w.setup.gcDepth), delivered, output + batch, leaders + [leader])
  {
    hide OutputCovers, OrderDag, UpdateAll, NothingDropped, Wanted, CanonicalBatch;
    var gc := w.setup.gcDepth;
    var batch := OrderDag(view, leader, gc);
    var u := UpdateAll(view, batch, gc);
    BatchIsNew(w, view, delivered, output, leader, gc);
    BatchSound(w, view, delivered, leader, gc);
    BatchCanonical(w, view, delivered, output, leaders, leader);
    forall p | p in delivered && p.round > 0 ensures p in batch <==> Wanted(w, view, output, leader, p) {
      CanonicalIsWanted(w, view, delivered, output, leaders, leader, p);
    }
    CoversAppend(w, view, u, delivered, output, batch, leaders, leader);
  }

  /** What a canonical batch leaves behind. */
  lemma BatchKeepsCanonical(w: World, view: View, delivered: set<Vertex>, output: seq<Vertex>, leaders: seq<Vertex>,
          leader: Vertex)
    requires WellFormed(w) && Canonical(w, view, delivered, output, leaders)
    requires leader in delivered && leader.round > view.lastRound && NothingDropped(w, view, output, leader)
    ensures var batch := OrderDag(view, leader, w.setup.gcDepth);
      Canonical(w, UpdateAll(view, batch, w.setup.gcDepth), delivered, output + batch, leaders + [leader])
  {
    hide OutputCovers, OrderDag, UpdateAll, NothingDropped;
    var gc := w.setup.gcDepth;
    var batch := OrderDag(view, leader, gc);
    BatchIsNew(w, view, delivered, output, leader, gc);
    UpdateAllLedger(w, view, delivered, output, batch, gc);
    BatchSound(w, view, delivered, leader, gc);
    BatchOutputCovers(w, view, delivered, output, leaders, leader);
    BatchCanonical(w, view, delivered, output, leaders, leader);
    assert (leaders + [leader])[..|leaders + [leader]| - 1] == leaders;
  }

  /** A batch that is not canonical shows in the output for good. */
  lemma BatchDiverges(w: World, view: View, delivered: set<Vertex>, output: seq<Vertex>, leaders: seq<Vertex>,
          leader: Vertex)
    requires WellFormed(w) && Canonical(w, view, delivered, output, leaders)
    requires leader in delivered && leader.round > view.lastRound && !NothingDropped(w, view, output, leader)
    ensures Diverge(output + OrderDag(view, leader, w.setup.gcDepth), CanonicalOutput(w, leaders + [leader]))
  {
    var gc := w.setup.gcDepth;
    BatchExact(w, view, delivered, output, leaders, leader);
    OrderDagExact(view, leader, gc);
    LeaderComesLast(view, leader, gc);
    LeaderEndsCanonical(w, view, delivered, output, leaders, leader);
    SameEndDiverge(OrderDag(view, leader, gc), CanonicalBatch(w, leaders, leader));
    DivergeAfter(output, OrderDag(view, leader, gc), CanonicalBatch(w, leaders, leader));
    assert (leaders + [leader])[..|leaders + [leader]| - 1] == leaders;
  }
}
