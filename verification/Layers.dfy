/** The order of a batch: `order_dag`'s depth-first traversal followed by its sort visits the sub-dag round by
    round, taking in each round the vertices of the round above one after the other and, for each, the parents
    it is the first to list, the last listed first. */
module Layers {
  import opened Config
  import opened Dag
  import opened Ordering
  import opened Invariants
  import opened SubDags

  // ---------- the reference ----------

  /** The open parents among the first `k` that `x` lists, in that order, each once and none of those in `seen`. */
  function Listed(open: Dag, x: Vertex, k: nat, seen: set<Digest>): seq<Vertex>
    requires k <= |x.parents|
  {
    if k == 0 then []
    else
      var d := x.parents[k - 1];
      Listed(open, x, k - 1, seen) +
      match Parent(open, x, d)
      case Some(p) => if d in seen || d in x.parents[..k - 1] then [] else [p]
      case None => []
  }

  function DigestsOf(s: seq<Vertex>): set<Digest> {
    set p | p in s :: p.Digest()
  }

  /** The layer below `layer`: what its vertices list, first come first served, each vertex's parents in reverse. */
  function Below(open: Dag, layer: seq<Vertex>, seen: set<Digest>): seq<Vertex> {
    if layer == [] then []
    else
      var found := Listed(open, layer[0], |layer[0].parents|, seen);
      Reverse(found) + Below(open, layer[1..], seen + DigestsOf(found))
  }

  /** The layer of round `r` under a leader. */
  function Layer(open: Dag, leader: Vertex, r: Round): seq<Vertex>
    requires r <= leader.round
    decreases leader.round - r
  {
    if r == leader.round then [leader] else Below(open, Layer(open, leader, r + 1), {})
  }

  /** All layers from round `r` up to the leader's. */
  function LayersFrom(open: Dag, leader: Vertex, r: Round): seq<Vertex>
    decreases leader.round + 1 - r
  {
    if r > leader.round then [] else Layer(open, leader, r) + LayersFrom(open, leader, r + 1)
  }

  // ---------- one expansion ----------

  /** Expanding a vertex pushes what it is the first to list. */
  lemma {:induction false} PushLists(open: Dag, x: Vertex, k: nat, s: Stack)
    requires WellKeyed(open) && k <= |x.parents|
    ensures var t := Push(open, x, x.parents[..k], s);
      var found := Listed(open, x, k, s.seen);
      t.buffer == s.buffer + found && t.seen == s.seen + DigestsOf(found)
  {
    hide Push, Listed, Parent, WellKeyed;
    if k == 0 {
      PushNone(open, x, s);
    } else {
      PushLists(open, x, k - 1, s);
      assert x.parents[..k] == x.parents[..k - 1] + [x.parents[k - 1]];
      PushAppend(open, x, x.parents[..k - 1], x.parents[k - 1], s);
      PushLast(open, x, k, s, Push(open, x, x.parents[..k - 1], s));
    }
  }

  lemma PushNone(open: Dag, x: Vertex, s: Stack)
    ensures Push(open, x, x.parents[..0], s) == s && Listed(open, x, 0, s.seen) == []
    ensures s.buffer + [] == s.buffer && s.seen + DigestsOf([]) == s.seen
  {
    assert x.parents[..0] == [];
    assert DigestsOf([]) == {};
  }

  lemma PushLast(open: Dag, x: Vertex, k: nat, s: Stack, t: Stack)
    requires WellKeyed(open) && 0 < k <= |x.parents|
    requires var found := Listed(open, x, k - 1, s.seen);
      t.buffer == s.buffer + found && t.seen == s.seen + DigestsOf(found)
    ensures var u := Push(open, x, [x.parents[k - 1]], t);
      var all := Listed(open, x, k, s.seen);
      u.buffer == s.buffer + all && u.seen == s.seen + DigestsOf(all)
  {
    hide Listed, Push, WellKeyed, DigestsOf;
    var d := x.parents[k - 1];
    var found := Listed(open, x, k - 1, s.seen);
    SeenSoFar(open, x, k, s.seen);
    PushOne(open, x, d, t);
    ListedOne(open, x, k, s.seen);
    match Parent(open, x, d)
    case Some(p) =>
      DigestsAdd(found, p);
      assert s.buffer + found + [p] == s.buffer + (found + [p]);
    case None =>
  }

  lemma SeenSoFar(open: Dag, x: Vertex, k: nat, seen: set<Digest>)
    requires WellKeyed(open) && 0 < k <= |x.parents|
    ensures var d := x.parents[k - 1];
      Parent(open, x, d).Some? ==>
        (d in seen + DigestsOf(Listed(open, x, k - 1, seen)) <==> d in seen || d in x.parents[..k - 1])
  {
    ListedDigests(open, x, k - 1, seen);
  }

  lemma PushOne(open: Dag, x: Vertex, d: Digest, t: Stack)
    requires WellKeyed(open)
    ensures Push(open, x, [d], t) ==
      match Parent(open, x, d)
      case Some(p) => if d in t.seen then t else Stack(t.buffer + [p], t.seen + {p.Digest()})
      case None => t
  {
    assert [d][1..] == [];
  }

  lemma ListedOne(open: Dag, x: Vertex, k: nat, seen: set<Digest>)
    requires WellKeyed(open) && 0 < k <= |x.parents|
    ensures var d := x.parents[k - 1];
      var found := Listed(open, x, k - 1, seen);
      Listed(open, x, k, seen) ==
        match Parent(open, x, d)
        case Some(p) => if d in seen || d in x.parents[..k - 1] then found else found + [p]
        case None => found
  {
    assert Listed(open, x, k - 1, seen) + [] == Listed(open, x, k - 1, seen);
  }

  lemma DigestsAdd(s: seq<Vertex>, p: Vertex)
    ensures DigestsOf(s + [p]) == DigestsOf(s) + {p.Digest()}
  {
    forall d ensures d in DigestsOf(s + [p]) <==> d in DigestsOf(s) + {p.Digest()} {
      assert forall q :: q in s + [p] <==> q in s || q == p;
    }
  }

  /** One more parent at the end of the list. */
  lemma {:induction false} PushAppend(open: Dag, x: Vertex, parents: seq<Digest>, d: Digest, s: Stack)
    ensures Push(open, x, parents + [d], s) == Push(open, x, [d], Push(open, x, parents, s))
    decreases |parents|
  {
    if parents == [] {
      assert parents + [d] == [d];
    } else {
      assert (parents + [d])[1..] == parents[1..] + [d];
      match Parent(open, x, parents[0])
      case Some(p) =>
        if parents[0] in s.seen {
          PushAppend(open, x, parents[1..], d, s);
        } else {
          PushAppend(open, x, parents[1..], d, Stack(s.buffer + [p], s.seen + {parents[0]}));
        }
      case None =>
        PushAppend(open, x, parents[1..], d, s);
    }
  }

  /** What is listed are the open parents not seen before. */
  lemma {:induction false} ListedDigests(open: Dag, x: Vertex, k: nat, seen: set<Digest>)
    requires WellKeyed(open) && k <= |x.parents|
    ensures forall d :: d in DigestsOf(Listed(open, x, k, seen)) <==>
      d in x.parents[..k] && d !in seen && Parent(open, x, d).Some?
    ensures forall p :: p in Listed(open, x, k, seen) ==> Has(open, p) && p.round + 1 == x.round
  {
    if k > 0 {
      ListedDigests(open, x, k - 1, seen);
      var d := x.parents[k - 1];
      assert x.parents[..k] == x.parents[..k - 1] + [d];
      var found := Listed(open, x, k - 1, seen);
      match Parent(open, x, d) {
        case Some(p) =>
          assert p.Digest() == d;
          DigestsAdd(found, p);
        case None =>
      }
    } else {
      assert x.parents[..0] == [];
    }
  }

  lemma AdvanceLists(open: Dag, s: Stack)
    requires WellKeyed(open) && s.buffer != []
    ensures var x := s.buffer[|s.buffer| - 1];
      var found := Listed(open, x, |x.parents|, s.seen);
      var t := Advance(open, s);
      t.buffer == s.buffer[..|s.buffer| - 1] + found && t.seen == s.seen + DigestsOf(found)
  {
    var x := s.buffer[|s.buffer| - 1];
    assert x.parents[..|x.parents|] == x.parents;
    PushLists(open, x, |x.parents|, Stack(s.buffer[..|s.buffer| - 1], s.seen));
  }

  // ---------- the traversal, round by round ----------

  lemma {:induction false} OfRoundConcat(s: seq<Vertex>, t: seq<Vertex>, r: Round)
    ensures OfRound(s + t, r) == OfRound(s, r) + OfRound(t, r)
  {
    if s == [] {
      assert s + t == t;
    } else {
      assert (s + t)[1..] == s[1..] + t && (s + t)[0] == s[0];
      OfRoundConcat(s[1..], t, r);
      var head := if s[0].round == r then [s[0]] else [];
      assert head + (OfRound(s[1..], r) + OfRound(t, r)) == head + OfRound(s[1..], r) + OfRound(t, r);
    }
  }

  lemma {:induction false} OfRoundAll(s: seq<Vertex>, r: Round)
    ensures (forall x :: x in s ==> x.round == r) ==> OfRound(s, r) == s
    ensures (forall x :: x in s ==> x.round != r) ==> OfRound(s, r) == []
    ensures forall x :: x in OfRound(s, r) <==> x in s && x.round == r
  {
    if s != [] {
      OfRoundAll(s[1..], r);
      assert s == [s[0]] + s[1..];
    }
  }

  /** Of the digests seen, only those of the layer's own round matter. */
  lemma {:induction false} BelowSame(open: Dag, layer: seq<Vertex>, r: Round, seen: set<Digest>, other: set<Digest>)
    requires WellKeyed(open) && forall x :: x in layer ==> x.round == r + 1
    requires forall d: Digest :: d.round == r ==> (d in seen <==> d in other)
    ensures Below(open, layer, seen) == Below(open, layer, other)
  {
    if layer != [] {
      var x := layer[0];
      ListedSame(open, x, |x.parents|, seen, other);
      var found := Listed(open, x, |x.parents|, seen);
      BelowSame(open, layer[1..], r, seen + DigestsOf(found), other + DigestsOf(found));
    }
  }

  lemma {:induction false} ListedSame(open: Dag, x: Vertex, k: nat, seen: set<Digest>, other: set<Digest>)
    requires WellKeyed(open) && k <= |x.parents|
    requires forall d: Digest :: d.round + 1 == x.round ==> (d in seen <==> d in other)
    ensures Listed(open, x, k, seen) == Listed(open, x, k, other)
  {
    if k > 0 {
      ListedSame(open, x, k - 1, seen, other);
      match Parent(open, x, x.parents[k - 1])
      case Some(p) => assert p.Digest() == x.parents[k - 1];
      case None =>
    }
  }

  /** Towards the top of the stack the rounds never rise. */
  ghost predicate Piled(s: Stack) {
    forall i, j :: 0 <= i < j < |s.buffer| ==> s.buffer[i].round >= s.buffer[j].round
  }

  lemma AdvancePiles(open: Dag, s: Stack)
    requires WellKeyed(open) && Piled(s) && s.buffer != []
    ensures Piled(Advance(open, s))
  {
    var x := s.buffer[|s.buffer| - 1];
    AdvanceLists(open, s);
    ListedDigests(open, x, |x.parents|, s.seen);
    var t := Advance(open, s);
    var low := |s.buffer| - 1;
    forall i, j | 0 <= i < j < |t.buffer| ensures t.buffer[i].round >= t.buffer[j].round {
      if j >= low {
        assert t.buffer[j] in Listed(open, x, |x.parents|, s.seen);
        if i >= low {
          assert t.buffer[i] in Listed(open, x, |x.parents|, s.seen);
        }
      }
    }
  }

  lemma DfsStep(open: Dag, s: Stack, r: Round)
    requires s.buffer != []
    ensures var x := s.buffer[|s.buffer| - 1];
      OfRound(Dfs(open, s), r) == (if x.round == r then [x] else []) + OfRound(Dfs(open, Advance(open, s)), r)
  {
    var x := s.buffer[|s.buffer| - 1];
    assert Dfs(open, s) == [x] + Dfs(open, Advance(open, s));
  }

  lemma {:induction false} ReverseLast(s: seq<Vertex>, x: Vertex)
    ensures Reverse(s + [x]) == [x] + Reverse(s)
  {
    if s == [] {
      assert s + [x] == [x] && [x][1..] == [];
    } else {
      assert (s + [x])[1..] == s[1..] + [x];
      ReverseLast(s[1..], x);
    }
  }

  lemma NothingLeft(open: Dag, s: Stack, r: Round)
    requires s.buffer == []
    ensures OfRound(Dfs(open, s), r) ==
      Reverse(OfRound(s.buffer, r)) + Below(open, OfRound(Dfs(open, s), r + 1), s.seen)
  {}

  /** What the traversal finds of round r: what is on the stack of that round, from the top; then what the
      vertices it finds of the round above list. */
  lemma {:induction false} DfsLayer(open: Dag, s: Stack, r: Round)
    requires WellKeyed(open) && Piled(s)
    ensures OfRound(Dfs(open, s), r) ==
      Reverse(OfRound(s.buffer, r)) + Below(open, OfRound(Dfs(open, s), r + 1), s.seen)
    decreases |Digests(open) - s.seen|, |s.buffer|
  {
    hide Dfs, Below, Listed, OfRound, Piled, WellKeyed, Reverse;
    if s.buffer == [] {
      NothingLeft(open, s, r);
    } else {
      var x := s.buffer[|s.buffer| - 1];
      var t := Advance(open, s);
      hide Advance;
      AdvancePiles(open, s);
      DfsLayer(open, t, r);
      DfsStep(open, s, r);
      DfsStep(open, s, r + 1);
      AdvanceLists(open, s);
      var upper, lower := OfRound(Dfs(open, t), r + 1), OfRound(Dfs(open, t), r);
      OfRoundAll(Dfs(open, t), r + 1);
      if x.round == r + 1 {
        StepAbove(open, s, x, t, upper, lower);
      } else {
        StepBeside(open, s, x, t, r, upper, lower);
      }
    }
  }

  /** Nothing on the stack is of the round below its top. */
  lemma TopLowest(s: Stack, x: Vertex, r: Round)
    requires Piled(s) && s.buffer != [] && x == s.buffer[|s.buffer| - 1] && x.round == r + 1
    ensures OfRound(s.buffer, r) == [] && OfRound(s.buffer[..|s.buffer| - 1], r) == []
  {
    OfRoundAll(s.buffer, r);
    OfRoundAll(s.buffer[..|s.buffer| - 1], r);
  }

  /** The top of the stack is of the round above. */
  lemma StepAbove(open: Dag, s: Stack, x: Vertex, t: Stack, upper: seq<Vertex>, lower: seq<Vertex>)
    requires WellKeyed(open) && Piled(s) && s.buffer != [] && x == s.buffer[|s.buffer| - 1] && x.round > 0
    requires var found := Listed(open, x, |x.parents|, s.seen);
      t.buffer == s.buffer[..|s.buffer| - 1] + found && t.seen == s.seen + DigestsOf(found)
    requires lower == Reverse(OfRound(t.buffer, x.round - 1)) + Below(open, upper, t.seen)
    ensures [] + lower == Reverse(OfRound(s.buffer, x.round - 1)) + Below(open, [x] + upper, s.seen)
  {
    var r := x.round - 1;
    var found := Listed(open, x, |x.parents|, s.seen);
    ListedDigests(open, x, |x.parents|, s.seen);
    TopLowest(s, x, r);
    OfRoundAll(found, r);
    hide Below, Listed, OfRound, Piled, WellKeyed;
    OfRoundConcat(s.buffer[..|s.buffer| - 1], found, r);
    assert [] + found == found;
    BelowCons(open, x, upper, s.seen);
    assert Reverse<Vertex>([]) == [];
  }

  /** It is of another round. */
  lemma StepBeside(open: Dag, s: Stack, x: Vertex, t: Stack, r: Round, upper: seq<Vertex>, lower: seq<Vertex>)
    requires WellKeyed(open) && s.buffer != [] && x == s.buffer[|s.buffer| - 1] && x.round != r + 1
    requires forall y :: y in upper ==> y.round == r + 1
    requires var found := Listed(open, x, |x.parents|, s.seen);
      t.buffer == s.buffer[..|s.buffer| - 1] + found && t.seen == s.seen + DigestsOf(found)
    requires lower == Reverse(OfRound(t.buffer, r)) + Below(open, upper, t.seen)
    ensures (if x.round == r then [x] else []) + lower ==
      Reverse(OfRound(s.buffer, r)) + Below(open, [] + upper, s.seen)
  {
    hide Below, Listed, OfRound, WellKeyed, Reverse;
    BesideStack(open, s, x, t, r);
    BelowSame(open, upper, r, t.seen, s.seen);
    assert [] + upper == upper;
    var rest := OfRound(s.buffer[..|s.buffer| - 1], r);
    if x.round == r {
      ReverseLast(rest, x);
    } else {
      assert [] + lower == lower && rest + [] == rest;
    }
  }

  lemma BesideStack(open: Dag, s: Stack, x: Vertex, t: Stack, r: Round)
    requires WellKeyed(open) && s.buffer != [] && x == s.buffer[|s.buffer| - 1] && x.round != r + 1
    requires var found := Listed(open, x, |x.parents|, s.seen);
      t.buffer == s.buffer[..|s.buffer| - 1] + found && t.seen == s.seen + DigestsOf(found)
    ensures var rest := OfRound(s.buffer[..|s.buffer| - 1], r);
      && OfRound(t.buffer, r) == rest
      && OfRound(s.buffer, r) == rest + if x.round == r then [x] else []
    ensures forall d: Digest :: d.round == r ==> (d in t.seen <==> d in s.seen)
  {
    var init := s.buffer[..|s.buffer| - 1];
    assert s.buffer == init + [x];
    var found := Listed(open, x, |x.parents|, s.seen);
    ListedDigests(open, x, |x.parents|, s.seen);
    hide Listed;
    OfRoundConcat(init, found, r);
    OfRoundConcat(init, [x], r);
    OfRoundAll(found, r);
    OfRoundAll([x], r);
    assert OfRound(init, r) + [] == OfRound(init, r);
  }

  lemma BelowCons(open: Dag, x: Vertex, layer: seq<Vertex>, seen: set<Digest>)
    ensures var found := Listed(open, x, |x.parents|, seen);
      Below(open, [x] + layer, seen) == Reverse(found) + Below(open, layer, seen + DigestsOf(found))
  {
    assert ([x] + layer)[1..] == layer;
  }

  // ---------- the batch ----------

  lemma {:induction false} DfsIsLayered(open: Dag, leader: Vertex, r: Round)
    requires WellKeyed(open) && r <= leader.round
    ensures OfRound(Dfs(open, Stack([leader], {})), r) == Layer(open, leader, r)
    decreases leader.round - r
  {
    var s := Stack([leader], {});
    DfsLayer(open, s, r);
    hide Dfs, Below;
    assert OfRound([leader], r) == if leader.round == r then [leader] else [];
    if r == leader.round {
      DfsExact(open, leader);
      forall y | y in Dfs(open, s) ensures y.round <= leader.round {
        ReachesDescends(open, leader, y);
      }
      OfRoundAll(Dfs(open, s), r + 1);
      NoneBelow(open, {});
      assert Reverse([leader]) == [leader];
    } else {
      DfsIsLayered(open, leader, r + 1);
      assert Reverse<Vertex>([]) == [];
    }
  }

  lemma NoneBelow(open: Dag, seen: set<Digest>)
    ensures Below(open, [], seen) == []
  {}

  lemma {:induction false} WindowOfRound(s: seq<Vertex>, lastRound: Round, gc: nat, r: Round)
    ensures OfRound(Window(s, lastRound, gc), r) == if r + gc >= lastRound then OfRound(s, r) else []
  {
    if s != [] {
      WindowOfRound(s[1..], lastRound, gc, r);
      assert ([s[0]] + Window(s[1..], lastRound, gc))[1..] == Window(s[1..], lastRound, gc);
      assert [] + Window(s[1..], lastRound, gc) == Window(s[1..], lastRound, gc);
    }
  }

  lemma {:induction false} SortedSplit(s: seq<Vertex>, r: Round) returns (rest: seq<Vertex>)
    requires Sorted(s) && forall x :: x in s ==> x.round >= r
    ensures s == OfRound(s, r) + rest && Sorted(rest) && forall x :: x in rest ==> x.round > r
    ensures forall q: Round :: q > r ==> OfRound(rest, q) == OfRound(s, q)
  {
    hide Sorted, OfRound;
    if s == [] || s[0].round > r {
      rest := s;
      HigherOnly(s, r);
      assert [] + s == s;
    } else {
      TailSorted(s, r);
      rest := SortedSplit(s[1..], r);
      OfRoundHead(s, r);
      assert s == [s[0]] + s[1..];
      assert [s[0]] + (OfRound(s[1..], r) + rest) == [s[0]] + OfRound(s[1..], r) + rest;
      forall q: Round | q > r ensures OfRound(rest, q) == OfRound(s, q) {
        OfRoundHead(s, q);
      }
    }
  }

  lemma OfRoundHead(s: seq<Vertex>, r: Round)
    requires s != []
    ensures OfRound(s, r) == if s[0].round == r then [s[0]] + OfRound(s[1..], r) else OfRound(s[1..], r)
  {
    assert [] + OfRound(s[1..], r) == OfRound(s[1..], r);
  }

  lemma HigherOnly(s: seq<Vertex>, r: Round)
    requires Sorted(s) && (s == [] || s[0].round > r)
    ensures OfRound(s, r) == [] && forall x :: x in s ==> x.round > r
  {
    OfRoundAll(s, r);
  }

  lemma TailSorted(s: seq<Vertex>, r: Round)
    requires Sorted(s) && s != [] && forall x :: x in s ==> x.round >= r
    ensures Sorted(s[1..]) && (forall x :: x in s[1..] ==> x.round >= r) && s[0].round >= r
  {
    assert s[0] in s;
  }

  lemma FirstIn(s: seq<Vertex>)
    ensures s != [] ==> s[0] in s
  {}

  /** The batch from a round up, layer by layer. */
  lemma {:induction false} SortedIsLayered(open: Dag, leader: Vertex, s: seq<Vertex>, r: Round)
    requires Sorted(s) && forall x :: x in s ==> r <= x.round <= leader.round
    requires forall q: Round :: r <= q <= leader.round ==> OfRound(s, q) == Layer(open, leader, q)
    ensures s == LayersFrom(open, leader, r)
    decreases leader.round + 1 - r
  {
    hide Layer;
    if r > leader.round {
      FirstIn(s);
    } else {
      var rest := SortedSplit(s, r);
      forall x | x in rest ensures r + 1 <= x.round <= leader.round {
        assert x in s;
      }
      SortedIsLayered(open, leader, rest, r + 1);
    }
  }

  function WindowStart(lastRound: Round, gc: nat): Round {
    if lastRound <= gc then 0 else lastRound - gc
  }

  /** `order_dag` is the layered visit of the open sub-dag inside the window. */
  lemma OrderDagIsLayered(view: View, leader: Vertex, gc: nat)
    requires WellKeyed(view.dag)
    ensures OrderDag(view, leader, gc) == LayersFrom(Open(view), leader, WindowStart(view.lastRound, gc))
  {
    var open, first := Open(view), WindowStart(view.lastRound, gc);
    var found := Dfs(open, Stack([leader], {}));
    var batch := OrderDag(view, leader, gc);
    OpenHas(view, leader);
    OrderDagExact(view, leader, gc);
    forall x | x in batch ensures first <= x.round <= leader.round {
      ReachesDescends(open, leader, x);
    }
    forall r: Round | first <= r <= leader.round ensures OfRound(batch, r) == Layer(open, leader, r) {
      SortIsStable(Window(found, view.lastRound, gc), r);
      WindowOfRound(found, view.lastRound, gc, r);
      DfsIsLayered(open, leader, r);
    }
    SortedIsLayered(open, leader, batch, first);
  }

  // ---------- siblings ----------

  lemma {:induction false} ReverseAt(s: seq<Vertex>, i: nat)
    requires i < |s|
    ensures |Reverse(s)| == |s| && Reverse(s)[|s| - 1 - i] == s[i]
  {
    if i > 0 {
      ReverseAt(s[1..], i - 1);
    } else if |s| > 1 {
      ReverseAt(s[1..], 0);
    }
  }

  /** A parent listed at `i` for the first time and open stands in `Listed` before those first listed later. */
  lemma {:induction false} ListedInOrder(open: Dag, x: Vertex, k: nat, seen: set<Digest>, i: nat, j: nat)
    returns (a: nat, b: nat)
    requires WellKeyed(open) && i < j < k <= |x.parents|
    requires Parent(open, x, x.parents[i]).Some? && x.parents[i] !in seen && x.parents[i] !in x.parents[..i]
    requires Parent(open, x, x.parents[j]).Some? && x.parents[j] !in seen && x.parents[j] !in x.parents[..j]
    ensures var found := Listed(open, x, k, seen);
      && a < b < |found|
      && found[a] == Parent(open, x, x.parents[i]).value && found[b] == Parent(open, x, x.parents[j]).value
  {
    ListedOne(open, x, k, seen);
    if j == k - 1 {
      a := ListedAt(open, x, k - 1, seen, i);
      b := |Listed(open, x, k - 1, seen)|;
    } else {
      a, b := ListedInOrder(open, x, k - 1, seen, i, j);
    }
  }

  lemma {:induction false} ListedAt(open: Dag, x: Vertex, k: nat, seen: set<Digest>, i: nat) returns (a: nat)
    requires WellKeyed(open) && i < k <= |x.parents|
    requires Parent(open, x, x.parents[i]).Some? && x.parents[i] !in seen && x.parents[i] !in x.parents[..i]
    ensures a < |Listed(open, x, k, seen)| && Listed(open, x, k, seen)[a] == Parent(open, x, x.parents[i]).value
  {
    ListedOne(open, x, k, seen);
    if i == k - 1 {
      a := |Listed(open, x, k - 1, seen)|;
    } else {
      a := ListedAt(open, x, k - 1, seen, i);
    }
  }

  /** The parent is open, listed by `x` at `i` for the first time, and not seen nor listed by those before `x`. */
  ghost predicate FirstLists(open: Dag, layer: seq<Vertex>, k: nat, seen: set<Digest>, i: nat, p: Vertex)
    requires k < |layer| && i < |layer[k].parents|
  {
    var x := layer[k];
    && x.parents[i] == p.Digest() && x.parents[i] !in x.parents[..i] && Parent(open, x, p.Digest()) == Some(p)
    && p.Digest() !in seen && forall m :: 0 <= m < k ==> p.Digest() !in layer[m].parents
  }

  lemma {:induction false} BelowInOrder(open: Dag, layer: seq<Vertex>, seen: set<Digest>, k: nat,
          i: nat, j: nat, p: Vertex, q: Vertex)
    returns (a: nat, b: nat)
    requires WellKeyed(open) && k < |layer| && i < j < |layer[k].parents|
    requires FirstLists(open, layer, k, seen, i, p) && FirstLists(open, layer, k, seen, j, q)
    ensures var below := Below(open, layer, seen);
      a < b < |below| && below[a] == q && below[b] == p
    decreases |layer|
  {
    hide Below, Listed, FirstLists, WellKeyed, Parent;
    if k == 0 {
      a, b := HeadInOrder(open, layer, seen, i, j, p, q);
    } else {
      var found := Listed(open, layer[0], |layer[0].parents|, seen);
      StillFirst(open, layer, k, seen, i, p);
      StillFirst(open, layer, k, seen, j, q);
      a, b := BelowInOrder(open, layer[1..], seen + DigestsOf(found), k - 1, i, j, p, q);
      ReverseLength(found);
      BelowHead(open, layer, seen);
      a, b := |found| + a, |found| + b;
    }
  }

  lemma BelowHead(open: Dag, layer: seq<Vertex>, seen: set<Digest>)
    requires layer != []
    ensures var found := Listed(open, layer[0], |layer[0].parents|, seen);
      Below(open, layer, seen) == Reverse(found) + Below(open, layer[1..], seen + DigestsOf(found))
  {}

  lemma HeadInOrder(open: Dag, layer: seq<Vertex>, seen: set<Digest>, i: nat, j: nat, p: Vertex, q: Vertex)
    returns (a: nat, b: nat)
    requires WellKeyed(open) && layer != [] && i < j < |layer[0].parents|
    requires FirstLists(open, layer, 0, seen, i, p) && FirstLists(open, layer, 0, seen, j, q)
    ensures var below := Below(open, layer, seen);
      a < b < |below| && below[a] == q && below[b] == p
  {
    hide Below, Listed, Parent, WellKeyed, FirstLists;
    var x := layer[0];
    var found := Listed(open, x, |x.parents|, seen);
    FirstParts(open, layer, seen, i, p);
    FirstParts(open, layer, seen, j, q);
    var c, d := ListedInOrder(open, x, |x.parents|, seen, i, j);
    a, b := |found| - 1 - d, |found| - 1 - c;
    ReversedPair(found, Below(open, layer[1..], seen + DigestsOf(found)), c, d);
    BelowHead(open, layer, seen);
  }

  lemma FirstParts(open: Dag, layer: seq<Vertex>, seen: set<Digest>, i: nat, p: Vertex)
    requires layer != [] && i < |layer[0].parents| && FirstLists(open, layer, 0, seen, i, p)
    ensures var x := layer[0];
      Parent(open, x, x.parents[i]) == Some(p) && x.parents[i] !in seen && x.parents[i] !in x.parents[..i]
  {}

  lemma ReversedPair(s: seq<Vertex>, t: seq<Vertex>, c: nat, d: nat)
    requires c < d < |s|
    ensures var r := Reverse(s) + t;
      |r| >= |s| && r[|s| - 1 - d] == s[d] && r[|s| - 1 - c] == s[c]
  {
    ReverseAt(s, c);
    ReverseAt(s, d);
  }

  lemma StillFirst(open: Dag, layer: seq<Vertex>, k: nat, seen: set<Digest>, i: nat, p: Vertex)
    requires WellKeyed(open) && 0 < k < |layer| && i < |layer[k].parents| && FirstLists(open, layer, k, seen, i, p)
    ensures layer[1..][k - 1] == layer[k]
    ensures var found := Listed(open, layer[0], |layer[0].parents|, seen);
      FirstLists(open, layer[1..], k - 1, seen + DigestsOf(found), i, p)
  {
    var x := layer[0];
    ListedDigests(open, x, |x.parents|, seen);
    assert x.parents[..|x.parents|] == x.parents;
    hide Listed;
  }

  lemma {:induction false} ReverseLength(s: seq<Vertex>)
    ensures |Reverse(s)| == |s|
  {
    if s != [] {
      ReverseLength(s[1..]);
    }
  }

  /** A layer is a part of the whole. */
  lemma {:induction false} LayerAt(open: Dag, leader: Vertex, first: Round, r: Round) returns (o: nat)
    requires first <= r <= leader.round
    ensures o + |Layer(open, leader, r)| <= |LayersFrom(open, leader, first)|
    ensures LayersFrom(open, leader, first)[o..o + |Layer(open, leader, r)|] == Layer(open, leader, r)
    decreases r - first
  {
    hide Layer;
    var rest := LayersFrom(open, leader, first + 1);
    if first == r {
      o := 0;
      assert (Layer(open, leader, r) + rest)[..|Layer(open, leader, r)|] == Layer(open, leader, r);
    } else {
      var p := LayerAt(open, leader, first + 1, r);
      o := p + |Layer(open, leader, first)|;
      SliceAfter(Layer(open, leader, first), rest, p, |Layer(open, leader, r)|);
    }
  }

  lemma SliceAfter(s: seq<Vertex>, t: seq<Vertex>, p: nat, n: nat)
    requires p + n <= |t|
    ensures (s + t)[|s| + p..|s| + p + n] == t[p..p + n]
  {}

  ghost predicate Precedes(s: seq<Vertex>, x: Vertex, y: Vertex) {
    exists i, j :: 0 <= i < j < |s| && s[i] == x && s[j] == y
  }

  lemma PartPrecedes(s: seq<Vertex>, o: nat, part: seq<Vertex>, i: nat, j: nat)
    requires o + |part| <= |s| && s[o..o + |part|] == part && i < j < |part|
    ensures Precedes(s, part[i], part[j])
  {
    assert s[o..o + |part|][i] == s[o + i] && s[o..o + |part|][j] == s[o + j];
  }

  /** The batch's own layers. */
  lemma LayerPrecedes(view: View, leader: Vertex, gc: nat, r: Round, i: nat, j: nat)
    requires WellKeyed(view.dag) && r <= leader.round && r + gc >= view.lastRound
    requires i < j < |Layer(Open(view), leader, r)|
    ensures var layer := Layer(Open(view), leader, r);
      Precedes(OrderDag(view, leader, gc), layer[i], layer[j])
  {
    hide OrderDag, Layer, Precedes;
    var first := WindowStart(view.lastRound, gc);
    OrderDagIsLayered(view, leader, gc);
    var o := LayerAt(Open(view), leader, first, r);
    PartPrecedes(OrderDag(view, leader, gc), o, Layer(Open(view), leader, r), i, j);
  }

  /** In a batch, of two open parents that a vertex is the first to list, the one listed later comes first. */
  lemma LaterParentFirst(view: View, leader: Vertex, gc: nat, x: Vertex, i: nat, j: nat, p: Vertex, q: Vertex)
    requires WellKeyed(view.dag) && x in OrderDag(view, leader, gc) && i < j < |x.parents|
    requires Has(Open(view), p) && x.parents[i] == p.Digest() && x.parents[i] !in x.parents[..i]
    requires Has(Open(view), q) && x.parents[j] == q.Digest() && x.parents[j] !in x.parents[..j]
    requires x.round == p.round + 1 == q.round + 1 && p.round + gc >= view.lastRound
    requires forall y :: Precedes(OrderDag(view, leader, gc), y, x) ==> !Steps(y, p) && !Steps(y, q)
    ensures Precedes(OrderDag(view, leader, gc), q, p)
  {
    var open := Open(view);
    hide OrderDag, Layer, Precedes, Below;
    InLayer(view, leader, gc, x);
    OpenHas(view, x);
    var layer := Layer(open, leader, x.round);
    var k :| 0 <= k < |layer| && layer[k] == x;
    forall m | 0 <= m < k ensures p.Digest() !in layer[m].parents && q.Digest() !in layer[m].parents {
      LayerPrecedes(view, leader, gc, x.round, m, k);
      LayerRound(view, leader, layer[m], x.round);
    }
    var a, b := BelowInOrder(open, layer, {}, k, i, j, p, q);
    LayerBelow(open, leader, p.round);
    LayerPrecedes(view, leader, gc, p.round, a, b);
  }

  lemma LayerBelow(open: Dag, leader: Vertex, r: Round)
    requires r < leader.round
    ensures Layer(open, leader, r) == Below(open, Layer(open, leader, r + 1), {})
  {}

  lemma LayerRound(view: View, leader: Vertex, y: Vertex, r: Round)
    requires WellKeyed(view.dag) && r <= leader.round && y in Layer(Open(view), leader, r)
    ensures y.round == r
  {
    OpenHas(view, leader);
    DfsIsLayered(Open(view), leader, r);
    OfRoundAll(Dfs(Open(view), Stack([leader], {})), r);
  }

  lemma InLayer(view: View, leader: Vertex, gc: nat, x: Vertex)
    requires WellKeyed(view.dag) && x in OrderDag(view, leader, gc)
    ensures x.round <= leader.round && x in Layer(Open(view), leader, x.round)
  {
    OpenHas(view, leader);
    OrderDagExact(view, leader, gc);
    ReachesDescends(Open(view), leader, x);
    DfsExact(Open(view), leader);
    DfsIsLayered(Open(view), leader, x.round);
    OfRoundAll(Dfs(Open(view), Stack([leader], {})), x.round);
  }
}
