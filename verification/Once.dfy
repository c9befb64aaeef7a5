/** No certificate is output twice, and parents are output before their children, over whole runs. */
module Once {
  import opened Config
  import opened Dag
  import opened Ordering
  import opened Invariants
  import opened SubDags
  import opened Runs

  /** The equality-only skip test of `order_dag` is exact: a certificate in the dag is committed exactly
      when its round is the last committed round of its author. */
  lemma SkipTestExact(w: World, view: View, delivered: set<Vertex>, output: seq<Vertex>, v: Vertex)
    requires WellFormed(w)
    requires Ledger(w, view, delivered, output)
    requires Has(view.dag, v)
    ensures Done(output, v) <==> Committed(view.last, v)
  {
    if Committed(view.last, v) && v.round > 0 {
      var x :| x in output && x.author == v.author && x.round == view.last[v.author];
      assert Has(w.dag, x) && Has(w.dag, v);
    }
  }

  // ---------- commits ----------

  lemma TouchRecords(last: map<Author, Round>, output: seq<Vertex>, v: Vertex)
    requires Records(last, output)
    ensures Records(Touch(last, v), output + [v])
  {
    var last' := Touch(last, v);
    forall a | a in last'
      ensures last'[a] == 0 || exists x :: x in output + [v] && x.author == a && x.round == last'[a]
    {
      if a in last && last'[a] == last[a] && last[a] != 0 {
        var x :| x in output && x.author == a && x.round == last[a];
        assert x in output + [v];
      } else if last'[a] != 0 {
        assert v in output + [v] && v.author == a && v.round == last'[a];
      }
    }
  }

  /** An update only drops entries, among them all that are below the window or their author's entry. */
  lemma UpdateDrops(view: View, v: Vertex, gc: nat, x: Vertex)
    requires WellKeyed(view.dag)
    requires Has(UpdateView(view, v, gc).dag, x)
    ensures var u := UpdateView(view, v, gc);
      Has(view.dag, x) && (x.author in u.last ==> x.round >= u.last[x.author]) && x.round + gc >= u.lastRound
  {
    var u := UpdateView(view, v, gc);
    PruneHas(view.dag, u.last, u.lastRound, gc, x);
  }

  lemma UpdateNoneBelow(view: View, output: seq<Vertex>, v: Vertex, gc: nat)
    requires WellKeyed(view.dag)
    requires NoneBelow(view, output)
    ensures NoneBelow(UpdateView(view, v, gc), output + [v])
  {
    var u := UpdateView(view, v, gc);
    assert forall a :: a in view.last || a == v.author ==> a in u.last;
    hide UpdateView, Prune;
    forall x | Has(u.dag, x) && Done(output + [v], x)
      ensures x.author in u.last && x.round >= u.last[x.author]
    {
      UpdateDrops(view, v, gc, x);
      assert x == v || Done(output, x);
    }
  }

  lemma UpdateLedger(w: World, view: View, delivered: set<Vertex>, output: seq<Vertex>, v: Vertex, gc: nat)
    requires Ledger(w, view, delivered, output)
    requires v in delivered && v.round > 0
    ensures Ledger(w, UpdateView(view, v, gc), delivered, output + [v])
  {
    hide Sound, NoneBelow, Records;
    UpdateSound(w, view, delivered, v, gc);
    TouchRecords(view.last, output, v);
    SoundKeyed(w, view, delivered);
    UpdateNoneBelow(view, output, v, gc);
  }

  lemma {:induction false} UpdateAllLedger(w: World, view: View, delivered: set<Vertex>, output: seq<Vertex>,
          batch: seq<Vertex>, gc: nat)
    requires Ledger(w, view, delivered, output)
    requires forall v :: v in batch ==> v in delivered && v.round > 0
    ensures Ledger(w, UpdateAll(view, batch, gc), delivered, output + batch)
    decreases |batch|
  {
    hide Ledger, UpdateView;
    if batch == [] {
      assert output + batch == output;
    } else {
      UpdateLedger(w, view, delivered, output, batch[0], gc);
      UpdateAllLedger(w, UpdateView(view, batch[0], gc), delivered, output + [batch[0]], batch[1..], gc);
      assert output + [batch[0]] + batch[1..] == output + batch;
    }
  }

  lemma {:induction false} UpdateAllDrops(view: View, batch: seq<Vertex>, gc: nat, x: Vertex)
    requires WellKeyed(view.dag)
    requires Has(UpdateAll(view, batch, gc).dag, x)
    ensures Has(view.dag, x)
    ensures var u := UpdateAll(view, batch, gc);
      batch != [] ==> x.round + gc >= u.lastRound && (x.author in u.last ==> x.round >= u.last[x.author])
    decreases |batch|
  {
    if batch != [] {
      var u := UpdateView(view, batch[0], gc);
      PruneHas(view.dag, u.last, u.lastRound, gc, x);
      UpdateAllDrops(u, batch[1..], gc, x);
      UpdateDrops(view, batch[0], gc, x);
      assert batch[1..] == [] ==> UpdateAll(view, batch, gc) == u;
    }
  }

  /** What `order_dag` hands out is delivered, never genesis and never output before. */
  lemma BatchIsNew(w: World, view: View, delivered: set<Vertex>, output: seq<Vertex>, leader: Vertex, gc: nat)
    requires WellFormed(w)
    requires Ledger(w, view, delivered, output)
    requires leader in delivered && leader.round > view.lastRound
    ensures forall v :: v in OrderDag(view, leader, gc) ==> v in delivered && v.round > 0 && v !in output
  {
    OrderDagExact(view, leader, gc);
    forall v | v in OrderDag(view, leader, gc) ensures v in delivered && v.round > 0 && v !in output {
      if v == leader {
        assert forall x :: x in output ==> x.author in view.last && x.round <= view.last[x.author];
      } else {
        assert Reaches(Open(view), leader, v);
        OpenHas(view, v);
        SkipTestExact(w, view, delivered, output, v);
      }
    }
  }

  // ---------- order of the output ----------

  lemma NoDupAppend<T>(s: seq<T>, t: seq<T>)
    requires NoDup(s) && NoDup(t) && forall x :: x in t ==> x !in s
    ensures NoDup(s + t)
  {
    var u := s + t;
    forall i, j | 0 <= i < j < |u| ensures u[i] != u[j] {
      if i < |s| <= j {
        assert u[i] in s && u[j] in t;
      }
    }
  }

  /** A parent in the batch of its child comes before it, because batches are sorted by round. */
  lemma SortedIsCausal(batch: seq<Vertex>)
    requires Sorted(batch)
    ensures Causal(batch)
  {}

  lemma ParentNotLate(w: World, view: View, output: seq<Vertex>, batch: seq<Vertex>, i: nat, j: nat)
    requires PassedOverGone(w, view, output)
    requires forall p :: p in batch ==> Has(w.dag, p) && Has(view.dag, p) && !Done(output, p)
    requires i < |output| && j < |batch|
    ensures !Steps(output[i], batch[j])
  {
    assert output[i] in output && batch[j] in batch;
  }

  lemma CausalAppend(w: World, view: View, output: seq<Vertex>, batch: seq<Vertex>)
    requires Causal(output) && Causal(batch)
    requires PassedOverGone(w, view, output)
    requires forall p :: p in batch ==> Has(w.dag, p) && Has(view.dag, p) && !Done(output, p)
    ensures Causal(output + batch)
  {
    var all := output + batch;
    forall i, j | 0 <= i < |all| && 0 <= j < |all| && Steps(all[i], all[j]) ensures j < i {
      if i < |output| && j >= |output| {
        ParentNotLate(w, view, output, batch, i, j - |output|);
      } else if i >= |output| && j >= |output| {
        assert all[i] == batch[i - |output|] && all[j] == batch[j - |output|];
      }
    }
  }

  /** A parent that the traversal meets and does not output lies outside the window, or was output before. */
  lemma SkippedParent(w: World, view: View, delivered: set<Vertex>, output: seq<Vertex>, leader: Vertex, gc: nat,
          v: Vertex, p: Vertex)
    requires WellFormed(w)
    requires Ledger(w, view, delivered, output)
    requires v in OrderDag(view, leader, gc) && Has(view.dag, p) && Steps(v, p)
    ensures Done(output, p) || p in OrderDag(view, leader, gc) || p.round + gc < view.lastRound
  {
    OrderDagExact(view, leader, gc);
    SkipTestExact(w, view, delivered, output, p);
    OpenHas(view, p);
    if !Done(output, p) {
      ReachesParent(Open(view), leader, v, p);
    }
  }

  lemma BatchHas(w: World, view: View, delivered: set<Vertex>, leader: Vertex, gc: nat)
    requires Sound(w, view, delivered)
    requires leader in delivered && leader.round > view.lastRound
    ensures forall v :: v in OrderDag(view, leader, gc) ==> Has(view.dag, v)
  {
    OrderDagExact(view, leader, gc);
    forall v | v in OrderDag(view, leader, gc) ensures Has(view.dag, v) {
      assert Reaches(Open(view), leader, v);
      OpenHas(view, v);
    }
  }

  lemma BatchPassesOver(w: World, view: View, delivered: set<Vertex>, output: seq<Vertex>, leader: Vertex, gc: nat)
    requires WellFormed(w)
    requires Ledger(w, view, delivered, output) && PassedOverGone(w, view, output)
    requires leader in delivered && leader.round > view.lastRound
    ensures var batch := OrderDag(view, leader, gc);
      PassedOverGone(w, UpdateAll(view, batch, gc), output + batch)
  {
    var batch := OrderDag(view, leader, gc);
    var u := UpdateAll(view, batch, gc);
    BatchIsNew(w, view, delivered, output, leader, gc);
    BatchSound(w, view, delivered, leader, gc);
    LeaderComesLast(view, leader, gc);
    forall v, p | v in output + batch && Has(w.dag, p) && Steps(v, p) && !Done(output + batch, p)
      ensures !Has(u.dag, p)
    {
      if Has(u.dag, p) {
        UpdateAllDrops(view, batch, gc, p);
        assert !Done(output, p) && p !in batch;
        assert v !in output;
        SkippedParent(w, view, delivered, output, leader, gc, v, p);
        assert false;
      }
    }
  }

  lemma BatchCounted(w: World, view: View, delivered: set<Vertex>, output: seq<Vertex>, leader: Vertex, gc: nat)
    requires WellFormed(w)
    requires Counted(w, view, delivered, output)
    requires leader in delivered && leader.round > view.lastRound
    ensures var batch := OrderDag(view, leader, gc);
      && Counted(w, UpdateAll(view, batch, gc), delivered, output + batch)
      && UpdateAll(view, batch, gc).lastRound == leader.round
  {
    var batch := OrderDag(view, leader, gc);
    OrderDagExact(view, leader, gc);
    BatchIsNew(w, view, delivered, output, leader, gc);
    BatchSound(w, view, delivered, leader, gc);
    UpdateAllLedger(w, view, delivered, output, batch, gc);
    NoDupAppend(output, batch);
  }

  lemma BatchTimely(w: World, view: View, delivered: set<Vertex>, output: seq<Vertex>, leader: Vertex, gc: nat)
    requires WellFormed(w)
    requires Counted(w, view, delivered, output) && Timely(w, view, output)
    requires leader in delivered && leader.round > view.lastRound
    ensures var batch := OrderDag(view, leader, gc);
      Timely(w, UpdateAll(view, batch, gc), output + batch)
  {
    var batch := OrderDag(view, leader, gc);
    OrderDagExact(view, leader, gc);
    BatchIsNew(w, view, delivered, output, leader, gc);
    BatchHas(w, view, delivered, leader, gc);
    BatchPassesOver(w, view, delivered, output, leader, gc);
    SortedIsCausal(batch);
    CausalAppend(w, view, output, batch);
  }

  /** A whole commit keeps the ledger without duplicates, and the causal order if it held. */
  lemma {:induction false} CommitAllKeeps(w: World, view: View, delivered: set<Vertex>, output: seq<Vertex>,
          leaders: seq<Vertex>, gc: nat)
    requires WellFormed(w)
    requires Counted(w, view, delivered, output)
    requires Ascending(leaders, view.lastRound) && forall p :: p in leaders ==> p in delivered
    ensures var done := CommitAll(view, leaders, gc);
      && Counted(w, done.view, delivered, output + done.sequence)
      && (Timely(w, view, output) ==> Timely(w, done.view, output + done.sequence))
    decreases |leaders|
  {
    hide Counted, Timely, UpdateAll, OrderDag;
    if leaders == [] {
      assert output + [] == output;
    } else {
      var batch := OrderDag(view, leaders[0], gc);
      var u := UpdateAll(view, batch, gc);
      BatchCounted(w, view, delivered, output, leaders[0], gc);
      if Timely(w, view, output) {
        BatchTimely(w, view, delivered, output, leaders[0], gc);
      }
      CommitAllKeeps(w, u, delivered, output + batch, leaders[1..], gc);
      var rest := CommitAll(u, leaders[1..], gc);
      assert output + batch + rest.sequence == output + (batch + rest.sequence);
    }
  }

  // ---------- events ----------

  lemma DeliverNoneBelow(view: View, output: seq<Vertex>, v: Vertex)
    requires NoneBelow(view, output) && v.round > 0
    requires v in output ==> v.author in view.last && v.round >= view.last[v.author]
    ensures NoneBelow(view.(dag := Insert(view.dag, v)), output)
  {
    forall x | Has(Insert(view.dag, v), x) && Done(output, x)
      ensures x.author in view.last && x.round >= view.last[x.author]
    {
      InsertHas(view.dag, v, x);
    }
  }

  /** Delivering a certificate keeps the ledger, unless it is stale. */
  lemma DeliverCounted(w: World, n: Node, v: Vertex)
    requires WellFormed(w) && CountedNode(w, n)
    requires Admissible(w, n, NewCertificate(v)) && !Stale(n, v)
    ensures CountedNode(w, Received(n, v))
  {
    hide Reaches, Insert, NoneBelow, NoDup;
    DeliverSound(w, n.view, n.delivered, v);
    assert v in n.output ==> v.author in n.view.last && v.round >= n.view.last[v.author];
    DeliverNoneBelow(n.view, n.output, v);
  }

  /** A certificate the dag has not dropped is not stale. */
  lemma HeldNotStale(w: World, n: Node, v: Vertex)
    requires CountedNode(w, n) && NotReplayed(n, NewCertificate(v))
    ensures !Stale(n, v)
  {
    assert v in n.output ==> v in n.delivered && Done(n.output, v);
  }

  /** Delivering a certificate keeps the order safe just when none of its children was output before it. */
  lemma OvertakenExact(w: World, n: Node, v: Vertex)
    requires TimelyNode(w, n) && Has(w.dag, v)
    ensures TimelyNode(w, Received(n, v)) <==> !Overtaken(n, v)
  {
    var m := Received(n, v);
    assert m.output == n.output;
    forall p
      ensures Has(m.view.dag, p) <==> p == v || (Has(n.view.dag, p) && !(p.round == v.round && p.author == v.author))
    {
      InsertHas(n.view.dag, v, p);
    }
  }

  ghost predicate Keeps(w: World, n: Node, m: Node) {
    CountedNode(w, m) && (TimelyNode(w, n) ==> TimelyNode(w, m))
  }

  lemma CommitKeeps(w: World, n: Node, leader: Vertex)
    requires WellFormed(w) && Inv(w, n) && CountedNode(w, n)
    requires Has(n.view.dag, leader) && leader.round > n.view.lastRound
    requires leader.author == w.setup.committee.Leader(leader.round)
    ensures Keeps(w, n, Commit(w.setup, n, leader))
  {
    hide Counted, Timely, Reaches;
    var s := Reverse(OrderLeaders(w.setup.committee, n.view, leader));
    CommitLeadersAscend(w.setup.committee, n.view, leader);
    CommitAllKeeps(w, n.view, n.delivered, n.output, s, w.setup.gcDepth);
  }

  lemma KeepsFrame(w: World, n: Node, m: Node)
    requires CountedNode(w, n)
    requires m.view == n.view && m.delivered == n.delivered && m.output == n.output
    ensures Keeps(w, n, m)
  {}

  lemma CertificateCommitKeeps(w: World, n: Node, v: Vertex, leader: Vertex)
    requires WellFormed(w) && Inv(w, n) && CountedNode(w, Received(n, v))
    requires Admissible(w, n, NewCertificate(v))
    requires v.round > 0 && v.round - 1 > n.view.lastRound
    requires LeaderAt(w.setup.committee, Received(n, v).view.dag, v.round - 1) == Some(leader)
    ensures Keeps(w, Received(n, v), Commit(w.setup, Received(n, v), leader))
  {
    hide Commit, Received, Admissible, Inv, WellFormed, CountedNode, TimelyNode, Keeps, LeaderAt;
    WorldKeyed(w);
    DeliverInv(w, n, v);
    LeaderIn(w, Received(n, v), v.round - 1, leader);
    CommitKeeps(w, Received(n, v), leader);
  }

  lemma CertificateKeeps(w: World, n: Node, v: Vertex)
    requires WellFormed(w) && Inv(w, n) && CountedNode(w, n)
    requires Admissible(w, n, NewCertificate(v)) && !Stale(n, v)
    ensures CountedNode(w, OnCertificate(w.setup, n, v))
    ensures TimelyNode(w, n) && !Overtaken(n, v) ==> TimelyNode(w, OnCertificate(w.setup, n, v))
  {
    hide Commit, Received, Overtaken, CountedNode, TimelyNode;
    var leader := OnCertificateCases(w.setup, n, v);
    DeliverCounted(w, n, v);
    if TimelyNode(w, n) && !Overtaken(n, v) {
      OvertakenExact(w, n, v);
    }
    if leader.Some? {
      CertificateCommitKeeps(w, n, v, leader.value);
    }
  }

  lemma CountedKeeps(w: World, n: Node, h: Header, leader: Vertex)
    requires CountedNode(w, n)
    ensures Keeps(w, n, AfterHeader(w.setup, n, h, leader))
  {
    hide Commit;
    AfterHeaderFrame(w.setup, n, h, leader);
    KeepsFrame(w, n, AfterHeader(w.setup, n, h, leader));
  }

  lemma HeaderCommitKeeps(w: World, n: Node, h: Header, leader: Vertex)
    requires WellFormed(w) && Inv(w, n) && CountedNode(w, n)
    requires h.round > 0 && h.round - 1 > n.view.lastRound
    requires LeaderAt(w.setup.committee, n.view.dag, h.round - 1) == Some(leader)
    ensures Keeps(w, n, Commit(w.setup, AfterHeader(w.setup, n, h, leader), leader))
  {
    hide Commit, AfterHeader, Inv, WellFormed, CountedNode, TimelyNode, LeaderAt;
    WorldKeyed(w);
    AfterHeaderFrame(w.setup, n, h, leader);
    CountedInv(w, n, h, leader);
    CountedKeeps(w, n, h, leader);
    LeaderIn(w, n, h.round - 1, leader);
    CommitKeeps(w, AfterHeader(w.setup, n, h, leader), leader);
  }

  lemma HeaderKeeps(w: World, n: Node, h: Header)
    requires WellFormed(w) && Inv(w, n) && CountedNode(w, n)
    ensures Keeps(w, n, OnHeader(w.setup, n, h))
  {
    hide Commit, AfterHeader;
    var leader, commits := OnHeaderCases(w.setup, n, h);
    if leader == None {
      KeepsFrame(w, n, n.(heard := n.heard + {(h.author, h.round)}));
    } else if commits {
      HeaderCommitKeeps(w, n, h, leader.value);
    } else {
      CountedKeeps(w, n, h, leader.value);
    }
  }

  lemma InitCounted(w: World)
    requires WellFormed(w)
    ensures CountedNode(w, InitNode(w.setup)) && TimelyNode(w, InitNode(w.setup))
  {
    InitInv(w);
  }

  // ---------- runs ----------

  lemma {:induction false} ExecCounted(w: World, events: seq<Event>)
    requires WellFormed(w) && CausalRun(w, events) && NoneStale(w, events)
    ensures CountedNode(w, Exec(w.setup, events))
    decreases |events|
  {
    if events == [] {
      InitCounted(w);
    } else {
      var before := events[..|events| - 1];
      var n := Exec(w.setup, before);
      ExecCounted(w, before);
      ExecInv(w, before);
      match events[|events| - 1]
      case NewCertificate(v) => CertificateKeeps(w, n, v);
      case NewHeader(h) => HeaderKeeps(w, n, h);
    }
  }

  lemma {:induction false} ExecOrdered(w: World, events: seq<Event>)
    requires WellFormed(w) && CausalRun(w, events) && NoneStale(w, events) && NoneOvertaken(w, events)
    ensures CountedNode(w, Exec(w.setup, events)) && TimelyNode(w, Exec(w.setup, events))
    decreases |events|
  {
    ExecCounted(w, events);
    if events == [] {
      InitCounted(w);
    } else {
      var before := events[..|events| - 1];
      var n := Exec(w.setup, before);
      ExecOrdered(w, before);
      ExecInv(w, before);
      match events[|events| - 1]
      case NewCertificate(v) => CertificateKeeps(w, n, v);
      case NewHeader(h) => HeaderKeeps(w, n, h);
    }
  }

  lemma HeldNotOvertaken(w: World, n: Node, v: Vertex)
    requires CountedNode(w, n) && TimelyNode(w, n) && Has(w.dag, v) && NotReplayed(n, NewCertificate(v))
    ensures !Overtaken(n, v)
  {}

  /** A run on which no certificate comes back once the dag has dropped it delivers none that is stale or
      overtaken. */
  lemma {:induction false} NoReplaysSuffice(w: World, events: seq<Event>)
    requires WellFormed(w) && CausalRun(w, events) && NoReplays(w, events)
    ensures NoneStale(w, events) && NoneOvertaken(w, events)
    decreases |events|
  {
    if events != [] {
      var before := events[..|events| - 1];
      var n := Exec(w.setup, before);
      NoReplaysSuffice(w, before);
      ExecOrdered(w, before);
      var e := events[|events| - 1];
      if e.NewCertificate? {
        HeldNotStale(w, n, e.vertex);
        HeldNotOvertaken(w, n, e.vertex);
      }
    }
  }

  /** No double commit: over any run in which no stale certificate is redelivered, none is output twice. */
  lemma NoDoubleCommit(w: World, events: seq<Event>)
    requires WellFormed(w) && CausalRun(w, events) && NoneStale(w, events)
    ensures NoDup(Exec(w.setup, events).output)
  {
    ExecCounted(w, events);
  }

  /** A parent listed by a certificate is of the round below it. */
  lemma ListedIsStep(w: World, v: Vertex, p: Vertex)
    requires WellFormed(w) && Has(w.dag, v) && v.round > 0 && p.Digest() in v.parents
    ensures Steps(v, p)
  {
    assert ParentsChecked(w, v);
  }

  lemma OutputKnown(w: World, n: Node, v: Vertex)
    requires CountedNode(w, n) && v in n.output
    ensures Has(w.dag, v) && v.round > 0
  {}

  lemma OutputCausal(w: World, n: Node)
    requires TimelyNode(w, n)
    ensures Causal(n.output)
  {}

  /** Whole-run causal order: if a certificate and one of its parents are both output, the parent is
      output first, whichever commits they belong to. */
  lemma ParentsFirst(w: World, events: seq<Event>, i: nat, j: nat)
    requires WellFormed(w) && CausalRun(w, events) && NoneStale(w, events) && NoneOvertaken(w, events)
    requires var output := Exec(w.setup, events).output;
      i < |output| && j < |output| && output[j].Digest() in output[i].parents
    ensures j < i
  {
    hide WellFormed, CausalRun, NoneStale, NoneOvertaken, Exec, CountedNode, TimelyNode;
    ExecOrdered(w, events);
    WorldKeyed(w);
    var n := Exec(w.setup, events);
    OutputKnown(w, n, n.output[i]);
    ListedIsStep(w, n.output[i], n.output[j]);
    OutputCausal(w, n);
  }

  // ---------- redelivery ----------

  /** In the whole dag, the skip test tells output certificates from the others. */
  ghost predicate SkipTestHolds(n: Node) {
    forall x :: Has(n.view.dag, x) ==> (Committed(n.view.last, x) <==> Done(n.output, x))
  }

  /** What a redelivery breaks: the skip test stays exact just when the certificate is not stale. */
  lemma RedeliveryExact(w: World, n: Node, v: Vertex)
    requires WellFormed(w) && CountedNode(w, n) && Admissible(w, n, NewCertificate(v))
    ensures SkipTestHolds(Received(n, v)) <==> !Stale(n, v)
  {
    var m := Received(n, v);
    assert Has(m.view.dag, v);
    if !Stale(n, v) {
      DeliverCounted(w, n, v);
      forall x | Has(m.view.dag, x) ensures Committed(m.view.last, x) <==> Done(m.output, x) {
        SkipTestExact(w, m.view, m.delivered, m.output, x);
      }
    }
  }
}
