/** Whole output sequences of any two nodes are prefixes of one another when neither has dropped, before a
    commit, a certificate that the commit should have output; and just then are they the canonical ones. */
module OutputAgreement {
  import opened Dag
  import opened Ordering
  import opened Invariants
  import opened Runs
  import opened Once
  import opened Agreement
  import opened CanonicalBatches

  // ---------- one commit ----------

  /** Nothing that one of the leaders' batches should output has been dropped when its turn comes. */
  ghost predicate AllHeld(w: World, view: View, output: seq<Vertex>, leaders: seq<Vertex>)
    decreases |leaders|
  {
    leaders == [] ||
    (var batch := OrderDag(view, leaders[0], w.setup.gcDepth);
     NothingDropped(w, view, output, leaders[0]) &&
     AllHeld(w, UpdateAll(view, batch, w.setup.gcDepth), output + batch, leaders[1..]))
  }

  lemma {:induction false} CanonicalOutputMonotone(w: World, s: seq<Vertex>, t: seq<Vertex>)
    requires s <= t
    ensures CanonicalOutput(w, s) <= CanonicalOutput(w, t)
    decreases |t|
  {
    if s != t {
      CanonicalOutputMonotone(w, s, t[..|t| - 1]);
    }
  }

  lemma {:induction false} CommitAllExact(w: World, view: View, delivered: set<Vertex>, output: seq<Vertex>,
          leaders: seq<Vertex>, more: seq<Vertex>)
    requires WellFormed(w) && Canonical(w, view, delivered, output, leaders)
    requires Ascending(more, view.lastRound) && forall l :: l in more ==> l in delivered
    ensures var done := CommitAll(view, more, w.setup.gcDepth);
      && (AllHeld(w, view, output, more) ==> Canonical(w, done.view, delivered, output + done.sequence, leaders + more))
      && (!AllHeld(w, view, output, more) ==> Diverge(output + done.sequence, CanonicalOutput(w, leaders + more)))
    decreases |more|
  {
    hide Canonical, OrderDag, UpdateAll, NothingDropped, Diverge, CanonicalOutput;
    var gc := w.setup.gcDepth;
    if more == [] {
      assert output + [] == output && leaders + more == leaders;
    } else {
      var batch := OrderDag(view, more[0], gc);
      var u := UpdateAll(view, batch, gc);
      var rest := CommitAll(u, more[1..], gc);
      ConcatAssociates(output, batch, rest.sequence);
      assert leaders + [more[0]] + more[1..] == leaders + more;
      if NothingDropped(w, view, output, more[0]) {
        BatchKeepsCanonical(w, view, delivered, output, leaders, more[0]);
        BatchTop(w, view, delivered, output, leaders, more[0]);
        CommitAllExact(w, u, delivered, output + batch, leaders + [more[0]], more[1..]);
      } else {
        BatchDiverges(w, view, delivered, output, leaders, more[0]);
        CanonicalOutputMonotone(w, leaders + [more[0]], leaders + more);
        DivergeOn(output + batch, CanonicalOutput(w, leaders + [more[0]]),
                  output + batch + rest.sequence, CanonicalOutput(w, leaders + more));
      }
    }
  }

  lemma BatchTop(w: World, view: View, delivered: set<Vertex>, output: seq<Vertex>, leaders: seq<Vertex>,
          leader: Vertex)
    requires Canonical(w, view, delivered, output, leaders) && leader.round > view.lastRound
    ensures UpdateAll(view, OrderDag(view, leader, w.setup.gcDepth), w.setup.gcDepth).lastRound == leader.round
  {
    BatchSound(w, view, delivered, leader, w.setup.gcDepth);
  }

  // ---------- events ----------

  ghost predicate CanonicalNode(w: World, n: Node) {
    Canonical(w, n.view, n.delivered, n.output, n.leaders)
  }

  /** The state a commit caused by the event starts from. */
  function AtCommit(n: Node, e: Event): View {
    if e.NewCertificate? then Received(n, e.vertex).view else n.view
  }

  /** Whatever the event commits finds its certificates in the dag. */
  ghost predicate MissesNothing(w: World, n: Node, e: Event)
    requires w.setup.committee.Valid()
  {
    var leaders := Step(w.setup, n, e).leaders;
    |n.leaders| <= |leaders| ==> AllHeld(w, AtCommit(n, e), n.output, leaders[|n.leaders|..])
  }

  /** The same for every event of a run. */
  ghost predicate NothingMissed(w: World, events: seq<Event>)
    requires w.setup.committee.Valid()
  {
    events == [] ||
    (var before := events[..|events| - 1];
     NothingMissed(w, before) && MissesNothing(w, Exec(w.setup, before), events[|events| - 1]))
  }

  /** `m` is canonical if `held`, and otherwise has diverged from the canonical output. */
  ghost predicate Decided(w: World, m: Node, held: bool) {
    if held then CanonicalNode(w, m) else Diverge(m.output, CanonicalOutput(w, m.leaders))
  }

  lemma CommitExact(w: World, n: Node, leader: Vertex)
    requires WellFormed(w) && Inv(w, n) && CanonicalNode(w, n)
    requires Has(n.view.dag, leader) && leader.round > n.view.lastRound
    requires leader.author == w.setup.committee.Leader(leader.round)
    ensures var m := Commit(w.setup, n, leader);
      |n.leaders| <= |m.leaders| && Decided(w, m, AllHeld(w, n.view, n.output, m.leaders[|n.leaders|..]))
  {
    hide Canonical, Reaches, Diverge, AllHeld;
    var s := Reverse(OrderLeaders(w.setup.committee, n.view, leader));
    CommitLeadersAscend(w.setup.committee, n.view, leader);
    CommitAllExact(w, n.view, n.delivered, n.output, n.leaders, s);
    assert (n.leaders + s)[|n.leaders|..] == s;
  }

  lemma DeliverCovers(w: World, view: View, delivered: set<Vertex>, output: seq<Vertex>, leaders: seq<Vertex>,
          v: Vertex)
    requires OutputCovers(w, view, delivered, output, leaders)
    requires Closed(w, delivered) && forall l :: l in leaders ==> l in delivered
    requires forall x :: x in output ==> x in delivered
    ensures OutputCovers(w, view.(dag := Insert(view.dag, v)), delivered + {v}, output, leaders)
  {
    if v !in delivered && Covered(w, leaders, v) {
      var l :| l in leaders && Reaches(w.dag, l, v);
      HistoryDelivered(w, delivered, l, v);
    }
  }

  lemma DeliverKeepsCanonical(w: World, n: Node, v: Vertex)
    requires WellFormed(w) && CanonicalNode(w, n) && CountedNode(w, n)
    requires Admissible(w, n, NewCertificate(v)) && !Stale(n, v)
    ensures CanonicalNode(w, Received(n, v))
  {
    DeliverCounted(w, n, v);
    DeliverCovers(w, n.view, n.delivered, n.output, n.leaders, v);
  }

  lemma CanonicalFrame(w: World, n: Node, m: Node)
    requires CanonicalNode(w, n)
    requires m.view == n.view && m.delivered == n.delivered && m.output == n.output && m.leaders == n.leaders
    ensures CanonicalNode(w, m)
  {}

  lemma CertificateCommitExact(w: World, n: Node, v: Vertex, leader: Vertex)
    requires WellFormed(w) && Inv(w, n) && CountedNode(w, n) && CanonicalNode(w, n)
    requires Admissible(w, n, NewCertificate(v)) && !Stale(n, v)
    requires v.round > 0 && v.round - 1 > n.view.lastRound
    requires LeaderAt(w.setup.committee, Received(n, v).view.dag, v.round - 1) == Some(leader)
    ensures var m := Commit(w.setup, Received(n, v), leader);
      |n.leaders| <= |m.leaders| && Decided(w, m, AllHeld(w, Received(n, v).view, n.output, m.leaders[|n.leaders|..]))
  {
    hide Commit, Received, Admissible, Inv, WellFormed, CountedNode, CanonicalNode, LeaderAt, Decided, AllHeld;
    WorldKeyed(w);
    StepParts(w, n, v);
    DeliverInv(w, n, v);
    DeliverKeepsCanonical(w, n, v);
    LeaderIn(w, Received(n, v), v.round - 1, leader);
    CommitExact(w, Received(n, v), leader);
  }

  lemma StepParts(w: World, n: Node, v: Vertex)
    requires w.setup.committee.Valid()
    ensures Step(w.setup, n, NewCertificate(v)) == OnCertificate(w.setup, n, v)
    ensures AtCommit(n, NewCertificate(v)) == Received(n, v).view
    ensures Received(n, v).leaders == n.leaders && Received(n, v).output == n.output
  {
    hide OnCertificate;
  }

  lemma HeaderParts(w: World, n: Node, h: Header)
    requires w.setup.committee.Valid()
    ensures Step(w.setup, n, NewHeader(h)) == OnHeader(w.setup, n, h) && AtCommit(n, NewHeader(h)) == n.view
  {
    hide OnHeader;
  }

  /** Whether the event misses something, told from its effect. */
  lemma DecidedBy(w: World, n: Node, e: Event, m: Node)
    requires w.setup.committee.Valid() && m == Step(w.setup, n, e) && |n.leaders| <= |m.leaders|
    requires Decided(w, m, AllHeld(w, AtCommit(n, e), n.output, m.leaders[|n.leaders|..]))
    ensures Decided(w, m, MissesNothing(w, n, e))
  {
    hide Step, AllHeld, Decided;
  }

  lemma NoCommitDecided(w: World, n: Node, e: Event, m: Node)
    requires w.setup.committee.Valid() && m == Step(w.setup, n, e) && m.leaders == n.leaders
    requires CanonicalNode(w, m)
    ensures Decided(w, m, MissesNothing(w, n, e))
  {
    hide Step, Canonical;
    assert n.leaders[|n.leaders|..] == [];
  }

  lemma CertificateExact(w: World, n: Node, v: Vertex)
    requires WellFormed(w) && Inv(w, n) && CountedNode(w, n) && CanonicalNode(w, n)
    requires Admissible(w, n, NewCertificate(v)) && !Stale(n, v)
    ensures Decided(w, Step(w.setup, n, NewCertificate(v)), MissesNothing(w, n, NewCertificate(v)))
  {
    hide Commit, OnCertificate, Decided, AllHeld, Received, Admissible, Step, AtCommit, Inv, CountedNode, CanonicalNode;
    hide WellFormed, MissesNothing, LeaderAt;
    WorldKeyed(w);
    StepParts(w, n, v);
    var m := Step(w.setup, n, NewCertificate(v));
    var leader := OnCertificateCases(w.setup, n, v);
    if leader == None {
      DeliverKeepsCanonical(w, n, v);
      NoCommitDecided(w, n, NewCertificate(v), m);
    } else {
      CertificateCommitExact(w, n, v, leader.value);
      DecidedBy(w, n, NewCertificate(v), m);
    }
  }

  lemma CountedCanonical(w: World, n: Node, h: Header, leader: Vertex)
    requires CanonicalNode(w, n)
    ensures CanonicalNode(w, AfterHeader(w.setup, n, h, leader))
  {
    hide Commit;
    AfterHeaderFrame(w.setup, n, h, leader);
    CanonicalFrame(w, n, AfterHeader(w.setup, n, h, leader));
  }

  lemma HeaderCommitExact(w: World, n: Node, h: Header, leader: Vertex)
    requires WellFormed(w) && Inv(w, n) && CanonicalNode(w, n)
    requires h.round > 0 && h.round - 1 > n.view.lastRound
    requires LeaderAt(w.setup.committee, n.view.dag, h.round - 1) == Some(leader)
    ensures var m := Commit(w.setup, AfterHeader(w.setup, n, h, leader), leader);
      |n.leaders| <= |m.leaders| && Decided(w, m, AllHeld(w, n.view, n.output, m.leaders[|n.leaders|..]))
  {
    hide Commit, AfterHeader, Inv, WellFormed, CanonicalNode, LeaderAt, Decided, AllHeld;
    WorldKeyed(w);
    AfterHeaderFrame(w.setup, n, h, leader);
    CountedInv(w, n, h, leader);
    CountedCanonical(w, n, h, leader);
    LeaderIn(w, n, h.round - 1, leader);
    CommitExact(w, AfterHeader(w.setup, n, h, leader), leader);
  }

  lemma HeaderExact(w: World, n: Node, h: Header)
    requires WellFormed(w) && Inv(w, n) && CanonicalNode(w, n)
    ensures Decided(w, Step(w.setup, n, NewHeader(h)), MissesNothing(w, n, NewHeader(h)))
  {
    var e := NewHeader(h);
    hide Commit, AfterHeader, OnHeader, Decided, AllHeld, Step, AtCommit, Inv, CanonicalNode, WellFormed, MissesNothing;
    hide LeaderAt;
    WorldKeyed(w);
    HeaderParts(w, n, h);
    var m := Step(w.setup, n, e);
    var leader, commits := OnHeaderCases(w.setup, n, h);
    if leader == None {
      CanonicalFrame(w, n, m);
      NoCommitDecided(w, n, e, m);
    } else if commits {
      HeaderCommitExact(w, n, h, leader.value);
      DecidedBy(w, n, e, m);
    } else {
      CountedCanonical(w, n, h, leader.value);
      AfterHeaderFrame(w.setup, n, h, leader.value);
      NoCommitDecided(w, n, e, m);
    }
  }

  // ---------- runs ----------

  lemma InitCanonical(w: World)
    requires WellFormed(w)
    ensures CanonicalNode(w, InitNode(w.setup))
  {
    InitCounted(w);
  }

  /** Nothing output or committed is taken back. */
  lemma StepAppends(cfg: Setup, n: Node, e: Event)
    requires cfg.committee.Valid()
    ensures n.output <= Step(cfg, n, e).output && n.leaders <= Step(cfg, n, e).leaders
  {
    hide CommitAll, OrderLeaders;
    match e
    case NewCertificate(v) => var leader := OnCertificateCases(cfg, n, v);
    case NewHeader(h) => var leader, commits := OnHeaderCases(cfg, n, h);
  }

  lemma StepStaysDiverged(w: World, n: Node, e: Event)
    requires w.setup.committee.Valid() && Diverge(n.output, CanonicalOutput(w, n.leaders))
    ensures Diverge(Step(w.setup, n, e).output, CanonicalOutput(w, Step(w.setup, n, e).leaders))
  {
    hide Step, Diverge, CanonicalOutput;
    var m := Step(w.setup, n, e);
    StepAppends(w.setup, n, e);
    CanonicalOutputMonotone(w, n.leaders, m.leaders);
    DivergeOn(n.output, CanonicalOutput(w, n.leaders), m.output, CanonicalOutput(w, m.leaders));
  }

  lemma {:induction false} ExecDecided(w: World, events: seq<Event>)
    requires WellFormed(w) && CausalRun(w, events) && NoneStale(w, events)
    ensures Decided(w, Exec(w.setup, events), NothingMissed(w, events))
    decreases |events|
  {
    hide Step, CanonicalNode, Diverge, MissesNothing, WellFormed, Inv, CountedNode;
    WorldKeyed(w);
    if events == [] {
      InitCanonical(w);
    } else {
      var before := events[..|events| - 1];
      var e := events[|events| - 1];
      var n := Exec(w.setup, before);
      ExecDecided(w, before);
      ExecCounted(w, before);
      ExecInv(w, before);
      if !NothingMissed(w, before) {
        StepStaysDiverged(w, n, e);
      } else {
        StepDecided(w, n, e);
      }
    }
  }

  lemma StepDecided(w: World, n: Node, e: Event)
    requires WellFormed(w) && Inv(w, n) && CountedNode(w, n) && CanonicalNode(w, n)
    requires e.NewCertificate? ==> Admissible(w, n, e) && !Stale(n, e.vertex)
    ensures Decided(w, Step(w.setup, n, e), MissesNothing(w, n, e))
  {
    hide Step, Decided, MissesNothing, Admissible, Inv, CountedNode, CanonicalNode;
    match e
    case NewCertificate(v) => CertificateExact(w, n, v);
    case NewHeader(h) => HeaderExact(w, n, h);
  }

  /** Over any run the output is the canonical output of the committed leaders (per leader, its history minus
      the earlier leaders' histories inside the window, in traversal order sorted by round) if and only if no
      commit found one of its certificates dropped from the dag. */
  lemma OutputIsCanonical(w: World, events: seq<Event>)
    requires WellFormed(w) && CausalRun(w, events) && NoneStale(w, events)
    ensures var n := Exec(w.setup, events);
      n.output == CanonicalOutput(w, n.leaders) <==> NothingMissed(w, events)
  {
    ExecDecided(w, events);
  }

  /** Full-output agreement: if neither of two nodes found a certificate dropped, their whole outputs are
      prefixes of one another. */
  lemma FullOutputAgreement(w: World, events1: seq<Event>, events2: seq<Event>)
    requires Voting(w)
    requires ValidRun(w, events1) && NoneStale(w, events1) && NothingMissed(w, events1)
    requires ValidRun(w, events2) && NoneStale(w, events2) && NothingMissed(w, events2)
    ensures var output1 := Exec(w.setup, events1).output;
      var output2 := Exec(w.setup, events2).output;
      output1 <= output2 || output2 <= output1
  {
    var n1, n2 := Exec(w.setup, events1), Exec(w.setup, events2);
    LeaderAgreement(w, events1, events2);
    OutputIsCanonical(w, events1);
    OutputIsCanonical(w, events2);
    if n1.leaders <= n2.leaders {
      CanonicalOutputMonotone(w, n1.leaders, n2.leaders);
    } else {
      CanonicalOutputMonotone(w, n2.leaders, n1.leaders);
    }
  }

  /** And just then: a node agrees with one that is not behind it and found nothing dropped if and only if it
      found nothing dropped either. */
  lemma AgreementExact(w: World, events1: seq<Event>, events2: seq<Event>)
    requires Voting(w)
    requires ValidRun(w, events1) && NoneStale(w, events1)
    requires ValidRun(w, events2) && NoneStale(w, events2) && NothingMissed(w, events2)
    requires |Exec(w.setup, events1).leaders| <= |Exec(w.setup, events2).leaders|
    ensures var output1 := Exec(w.setup, events1).output;
      var output2 := Exec(w.setup, events2).output;
      output1 <= output2 || output2 <= output1 <==> NothingMissed(w, events1)
  {
    var n1, n2 := Exec(w.setup, events1), Exec(w.setup, events2);
    LeaderAgreement(w, events1, events2);
    assert n1.leaders <= n2.leaders;
    OutputIsCanonical(w, events2);
    ExecDecided(w, events1);
    hide Diverge, CanonicalOutput, Canonical;
    CanonicalOutputMonotone(w, n1.leaders, n2.leaders);
    if NothingMissed(w, events1) {
      FullOutputAgreement(w, events1, events2);
    } else {
      DivergeOn(n1.output, CanonicalOutput(w, n1.leaders), n1.output, n2.output);
    }
  }

  // ---------- histories that hold their authors' earlier certificates ----------

  /** Every certificate's history contains the earlier certificates of its author. */
  ghost predicate SelfChained(w: World) {
    forall v, x :: Has(w.dag, v) && Has(w.dag, x) && v.author == x.author && 0 < x.round < v.round ==>
      Reaches(w.dag, v, x)
  }

  /** Inside the window, whatever has not been output is in the dag. */
  ghost predicate Retains(w: World, view: View, delivered: set<Vertex>, output: seq<Vertex>) {
    forall p :: p in delivered && p.round > 0 && p !in output && Inside(p.round, view.lastRound, w.setup.gcDepth) ==>
      Has(view.dag, p)
  }

  lemma RetainsHolds(w: World, view: View, delivered: set<Vertex>, output: seq<Vertex>, leader: Vertex)
    requires Closed(w, delivered) && Retains(w, view, delivered, output) && leader in delivered
    ensures NothingDropped(w, view, output, leader)
  {
    forall p | Wanted(w, view, output, leader, p) ensures Has(view.dag, p) {
      HistoryDelivered(w, delivered, leader, p);
    }
  }

  /** No author's entry passes over a certificate that is not output: a later output one would cover it. */
  lemma UncoveredNotBelow(w: World, view: View, delivered: set<Vertex>, output: seq<Vertex>, leaders: seq<Vertex>,
          p: Vertex)
    requires WellFormed(w) && SelfChained(w)
    requires Ledger(w, view, delivered, output) && OutputCovers(w, view, delivered, output, leaders)
    requires p in delivered && p.round > 0 && p !in output && Inside(p.round, view.lastRound, w.setup.gcDepth)
    ensures p.author in view.last ==> p.round >= view.last[p.author]
  {
    if p.author in view.last && view.last[p.author] > p.round {
      var v :| v in output && v.author == p.author && v.round == view.last[p.author];
      assert Has(w.dag, v) && Has(w.dag, p);
      CoveredDown(w, leaders, v, p);
    }
  }

  lemma BatchRetains(w: World, view: View, delivered: set<Vertex>, output: seq<Vertex>, leaders: seq<Vertex>,
          leader: Vertex)
    requires WellFormed(w) && SelfChained(w) && Canonical(w, view, delivered, output, leaders)
    requires Retains(w, view, delivered, output)
    requires leader in delivered && leader.round > view.lastRound
    ensures NothingDropped(w, view, output, leader)
    ensures var batch := OrderDag(view, leader, w.setup.gcDepth);
      Retains(w, UpdateAll(view, batch, w.setup.gcDepth), delivered, output + batch)
  {
    var gc := w.setup.gcDepth;
    var batch := OrderDag(view, leader, gc);
    var u := UpdateAll(view, batch, gc);
    RetainsHolds(w, view, delivered, output, leader);
    BatchKeepsCanonical(w, view, delivered, output, leaders, leader);
    BatchTop(w, view, delivered, output, leaders, leader);
    forall p | p in delivered && p.round > 0 && p !in output + batch && Inside(p.round, u.lastRound, gc)
      ensures Has(u.dag, p)
    {
      UncoveredNotBelow(w, u, delivered, output + batch, leaders + [leader], p);
      UpdateAllKeeps(w, view, delivered, batch, gc, p);
    }
  }

  lemma {:induction false} CommitAllRetains(w: World, view: View, delivered: set<Vertex>, output: seq<Vertex>,
          leaders: seq<Vertex>, more: seq<Vertex>)
    requires WellFormed(w) && SelfChained(w) && Canonical(w, view, delivered, output, leaders)
    requires Retains(w, view, delivered, output)
    requires Ascending(more, view.lastRound) && forall l :: l in more ==> l in delivered
    ensures AllHeld(w, view, output, more)
    ensures var done := CommitAll(view, more, w.setup.gcDepth);
      Retains(w, done.view, delivered, output + done.sequence)
    decreases |more|
  {
    hide Canonical, OrderDag, UpdateAll, NothingDropped, Retains;
    var gc := w.setup.gcDepth;
    if more == [] {
      assert output + [] == output;
    } else {
      var batch := OrderDag(view, more[0], gc);
      var u := UpdateAll(view, batch, gc);
      BatchRetains(w, view, delivered, output, leaders, more[0]);
      BatchKeepsCanonical(w, view, delivered, output, leaders, more[0]);
      BatchTop(w, view, delivered, output, leaders, more[0]);
      CommitAllRetains(w, u, delivered, output + batch, leaders + [more[0]], more[1..]);
      ConcatAssociates(output, batch, CommitAll(u, more[1..], gc).sequence);
    }
  }

  ghost predicate RetainsNode(w: World, n: Node) {
    Retains(w, n.view, n.delivered, n.output)
  }

  lemma CommitRetains(w: World, n: Node, leader: Vertex)
    requires WellFormed(w) && SelfChained(w) && Inv(w, n) && CanonicalNode(w, n) && RetainsNode(w, n)
    requires Has(n.view.dag, leader) && leader.round > n.view.lastRound
    requires leader.author == w.setup.committee.Leader(leader.round)
    ensures var m := Commit(w.setup, n, leader);
      RetainsNode(w, m) && |n.leaders| <= |m.leaders| && AllHeld(w, n.view, n.output, m.leaders[|n.leaders|..])
  {
    hide Canonical, Reaches, AllHeld, Retains;
    var s := Reverse(OrderLeaders(w.setup.committee, n.view, leader));
    CommitLeadersAscend(w.setup.committee, n.view, leader);
    CommitAllRetains(w, n.view, n.delivered, n.output, n.leaders, s);
    assert (n.leaders + s)[|n.leaders|..] == s;
  }

  lemma DeliverRetains(w: World, n: Node, v: Vertex)
    requires WellFormed(w) && CountedNode(w, n) && RetainsNode(w, n) && Admissible(w, n, NewCertificate(v))
    ensures RetainsNode(w, Received(n, v))
  {
    var m := Received(n, v);
    forall p | p in m.delivered && p.round > 0 && p !in m.output && Inside(p.round, m.view.lastRound, w.setup.gcDepth)
      ensures Has(m.view.dag, p)
    {
      InsertHas(n.view.dag, v, p);
    }
  }

  lemma HeldBy(w: World, n: Node, e: Event, m: Node)
    requires w.setup.committee.Valid() && m == Step(w.setup, n, e) && |n.leaders| <= |m.leaders|
    requires m.leaders == n.leaders || AllHeld(w, AtCommit(n, e), n.output, m.leaders[|n.leaders|..])
    ensures MissesNothing(w, n, e)
  {
    hide Step;
    assert n.leaders[|n.leaders|..] == [];
  }

  lemma CertificateRetains(w: World, n: Node, v: Vertex)
    requires WellFormed(w) && SelfChained(w) && Inv(w, n) && CountedNode(w, n) && CanonicalNode(w, n) &&
      RetainsNode(w, n)
    requires Admissible(w, n, NewCertificate(v)) && !Stale(n, v)
    ensures RetainsNode(w, Step(w.setup, n, NewCertificate(v))) && MissesNothing(w, n, NewCertificate(v))
  {
    var e := NewCertificate(v);
    hide Commit, OnCertificate, AllHeld, Received, Inv, CountedNode, CanonicalNode, RetainsNode, LeaderAt, WellFormed;
    hide Admissible, Step, AtCommit, MissesNothing, SelfChained;
    WorldKeyed(w);
    StepParts(w, n, v);
    var m := Step(w.setup, n, e);
    var leader := OnCertificateCases(w.setup, n, v);
    DeliverRetains(w, n, v);
    if leader.Some? {
      DeliverInv(w, n, v);
      DeliverKeepsCanonical(w, n, v);
      LeaderIn(w, Received(n, v), v.round - 1, leader.value);
      CommitRetains(w, Received(n, v), leader.value);
    }
    HeldBy(w, n, e, m);
  }

  lemma RetainsFrame(w: World, n: Node, m: Node)
    requires RetainsNode(w, n) && m.view == n.view && m.delivered == n.delivered && m.output == n.output
    ensures RetainsNode(w, m)
  {}

  lemma HeaderRetains(w: World, n: Node, h: Header)
    requires WellFormed(w) && SelfChained(w) && Inv(w, n) && CanonicalNode(w, n) && RetainsNode(w, n)
    ensures RetainsNode(w, Step(w.setup, n, NewHeader(h))) && MissesNothing(w, n, NewHeader(h))
  {
    var e := NewHeader(h);
    hide Commit, AfterHeader, OnHeader, AllHeld, Step, AtCommit, Inv, CanonicalNode, RetainsNode, LeaderAt, WellFormed;
    hide MissesNothing, SelfChained;
    WorldKeyed(w);
    HeaderParts(w, n, h);
    var m := Step(w.setup, n, e);
    var leader, commits := OnHeaderCases(w.setup, n, h);
    if leader == None {
      RetainsFrame(w, n, m);
    } else {
      var counted := AfterHeader(w.setup, n, h, leader.value);
      AfterHeaderFrame(w.setup, n, h, leader.value);
      RetainsFrame(w, n, counted);
      if commits {
        CountedInv(w, n, h, leader.value);
        CountedCanonical(w, n, h, leader.value);
        LeaderIn(w, n, h.round - 1, leader.value);
        CommitRetains(w, counted, leader.value);
      }
    }
    HeldBy(w, n, e, m);
  }

  lemma InitRetains(w: World)
    requires WellFormed(w)
    ensures RetainsNode(w, InitNode(w.setup))
  {}

  lemma {:induction false} ExecRetains(w: World, events: seq<Event>)
    requires WellFormed(w) && SelfChained(w) && CausalRun(w, events) && NoneStale(w, events)
    ensures NothingMissed(w, events) && RetainsNode(w, Exec(w.setup, events))
    decreases |events|
  {
    hide MissesNothing, Inv, CountedNode, CanonicalNode, RetainsNode, SelfChained, Step;
    if events == [] {
      InitRetains(w);
    } else {
      var before := events[..|events| - 1];
      var n := Exec(w.setup, before);
      ExecRetains(w, before);
      ExecDecided(w, before);
      ExecCounted(w, before);
      ExecInv(w, before);
      match events[|events| - 1]
      case NewCertificate(v) => CertificateRetains(w, n, v);
      case NewHeader(h) => HeaderRetains(w, n, h);
    }
  }

  /** If every certificate's history holds its author's earlier certificates, no run misses anything. */
  lemma SelfChainedMissesNothing(w: World, events: seq<Event>)
    requires WellFormed(w) && SelfChained(w) && CausalRun(w, events) && NoneStale(w, events)
    ensures NothingMissed(w, events)
  {
    ExecRetains(w, events);
  }
}
