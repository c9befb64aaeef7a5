/** No run leaves a leader uncommitted that either rule supports: what commits on top of what is safe. */
module Progress {
  import opened Config
  import opened Dag
  import opened Ordering
  import opened Invariants
  import opened Runs
  import opened Agreement

  // ---------- rule 1: certificates ----------

  /** The leader of the round, if it is there, has less than f+1 stake of certificates above it. */
  ghost predicate RowWaits(c: Committee, dag: Dag, r: Round)
    requires c.Valid()
  {
    forall l :: LeaderAt(c, dag, r) == Some(l) && r + 1 in dag ==>
      c.Weight(Supporters(dag[r + 1], l.Digest())) < c.ValidityThreshold()
  }

  ghost predicate NoneReady(c: Committee, view: View)
    requires c.Valid()
  {
    forall r: Round :: r > view.lastRound ==> RowWaits(c, view.dag, r)
  }

  lemma NoSupport(w: World, v: Vertex, row: map<Author, Vertex>, d: Digest)
    requires WellFormed(w) && Has(w.dag, v) && v.round > 0 && Supporters(row, d) == {}
    ensures w.setup.committee.Weight(Supporters(row, d)) < w.setup.committee.ValidityThreshold()
  {
    var c := w.setup.committee;
    assert ParentsChecked(w, v);
    WeightMonotone(c, ParentAuthors(v), ParentAuthors(v));
    EmptyWeight(c);
  }

  lemma InsertRow(dag: Dag, v: Vertex, r: Round)
    requires r != v.round
    ensures r in Insert(dag, v) <==> r in dag
    ensures r in dag ==> Insert(dag, v)[r] == dag[r]
  {}

  /** A leader that arrives has no certificates above it yet. */
  lemma NewLeaderWaits(w: World, n: Node, v: Vertex)
    requires WellFormed(w) && Inv(w, n) && Admissible(w, n, NewCertificate(v)) && v !in n.delivered
    ensures v.round + 1 in n.view.dag ==>
      w.setup.committee.Weight(Supporters(n.view.dag[v.round + 1], v.Digest())) < w.setup.committee.ValidityThreshold()
  {
    if v.round + 1 in n.view.dag {
      var row := n.view.dag[v.round + 1];
      forall a | a in row ensures v.Digest() !in row[a].parents {
        assert Has(n.view.dag, row[a]) && row[a] in n.delivered;
        assert !Steps(row[a], v);
      }
      NoSupport(w, v, row, v.Digest());
    }
  }

  /** A certificate that arrives can make only the leader of the round below it ready. */
  lemma DeliverWaits(w: World, n: Node, v: Vertex, r: Round)
    requires WellFormed(w) && Inv(w, n) && Admissible(w, n, NewCertificate(v))
    requires r > n.view.lastRound && r + 1 != v.round && RowWaits(w.setup.committee, n.view.dag, r)
    ensures RowWaits(w.setup.committee, Received(n, v).view.dag, r)
  {
    var c := w.setup.committee;
    var dag := Insert(n.view.dag, v);
    assert Received(n, v).view.dag == dag;
    InsertRow(n.view.dag, v, r + 1);
    forall l | LeaderAt(c, dag, r) == Some(l) && r + 1 in dag
      ensures c.Weight(Supporters(dag[r + 1], l.Digest())) < c.ValidityThreshold()
    {
      if LeaderAt(c, n.view.dag, r) != Some(l) {
        LeaderIsNew(c, n.view.dag, v, r, l);
        assert v !in n.delivered by {
          if v in n.delivered {
            HeldLeader(w, n, v);
          }
        }
        NewLeaderWaits(w, n, v);
      }
    }
  }

  lemma LeaderIsNew(c: Committee, dag: Dag, v: Vertex, r: Round, l: Vertex)
    requires c.Valid() && LeaderAt(c, Insert(dag, v), r) == Some(l) && LeaderAt(c, dag, r) != Some(l)
    ensures l == v && r == v.round && v.author == c.Leader(r)
  {}

  lemma HeldLeader(w: World, n: Node, v: Vertex)
    requires w.setup.committee.Valid() && Inv(w, n) && v in n.delivered && v.round > n.view.lastRound
    ensures Has(n.view.dag, v)
    ensures v.author == w.setup.committee.Leader(v.round) ==>
      LeaderAt(w.setup.committee, n.view.dag, v.round) == Some(v)
  {}

  /** A commit makes nothing ready above it. */
  lemma CommitWaits(w: World, n: Node, m: Node, r: Round)
    requires WellFormed(w) && Inv(w, n) && Inv(w, m) && m.delivered == n.delivered
    requires n.view.lastRound <= m.view.lastRound < r && RowWaits(w.setup.committee, n.view.dag, r)
    ensures RowWaits(w.setup.committee, m.view.dag, r)
  {
    var c := w.setup.committee;
    forall l | LeaderAt(c, m.view.dag, r) == Some(l) && r + 1 in m.view.dag
      ensures c.Weight(Supporters(m.view.dag[r + 1], l.Digest())) < c.ValidityThreshold()
    {
      LocalLeads(w, m, r, l);
      HeldLeader(w, n, l);
      var d := l.Digest();
      var mine := Supporters(m.view.dag[r + 1], d);
      if mine == {} {
        NoSupport(w, l, m.view.dag[r + 1], d);
      } else {
        forall a | a in mine ensures r + 1 in n.view.dag && a in Supporters(n.view.dag[r + 1], d) {
          var x := m.view.dag[r + 1][a];
          assert Has(m.view.dag, x) && x in n.delivered && x.round == r + 1;
          assert Has(n.view.dag, x);
        }
        assert r + 1 in n.view.dag by {
          var a :| a in mine;
        }
        WeightMonotone(c, mine, Supporters(n.view.dag[r + 1], d));
      }
    }
  }

  lemma CertificateWaits(w: World, n: Node, v: Vertex)
    requires WellFormed(w) && Inv(w, n) && Admissible(w, n, NewCertificate(v)) && NoneReady(w.setup.committee, n.view)
    ensures NoneReady(w.setup.committee, OnCertificate(w.setup, n, v).view)
  {
    hide Commit, OnCertificate, Received, Admissible, Inv, WellFormed, RowWaits, LeaderAt;
    WorldKeyed(w);
    var leader := OnCertificateCases(w.setup, n, v);
    DeliverInv(w, n, v);
    var t := Received(n, v);
    var m := OnCertificate(w.setup, n, v);
    if leader.Some? {
      LeaderIn(w, t, v.round - 1, leader.value);
      CommitInv(w, t, leader.value);
      CommitFrame(w.setup, t, leader.value);
    }
    forall r: Round | r > m.view.lastRound ensures RowWaits(w.setup.committee, m.view.dag, r) {
      if r + 1 == v.round {
        NotReady(w.setup, n, v, r);
      } else {
        DeliverWaits(w, n, v, r);
        if leader.Some? {
          CommitWaits(w, t, m, r);
        }
      }
    }
  }

  /** If the certificate commits nothing, the leader below it is not ready. */
  lemma NotReady(cfg: Setup, n: Node, v: Vertex, r: Round)
    requires cfg.committee.Valid() && r + 1 == v.round && r > OnCertificate(cfg, n, v).view.lastRound
    requires OnCertificate(cfg, n, v) == Received(n, v)
    requires r <= n.view.lastRound || LeaderAt(cfg.committee, Received(n, v).view.dag, r) == None ||
      cfg.committee.Weight(Supporters(Received(n, v).view.dag[v.round],
        LeaderAt(cfg.committee, Received(n, v).view.dag, r).value.Digest())) < cfg.committee.ValidityThreshold()
    ensures RowWaits(cfg.committee, OnCertificate(cfg, n, v).view.dag, r)
  {
    hide OnCertificate, LeaderAt;
    assert Received(n, v).view.lastRound == n.view.lastRound;
  }

  lemma HeaderWaits(w: World, n: Node, h: Header)
    requires WellFormed(w) && Inv(w, n) && NoneReady(w.setup.committee, n.view)
    ensures NoneReady(w.setup.committee, OnHeader(w.setup, n, h).view)
  {
    hide Commit, OnHeader, AfterHeader, Inv, WellFormed, RowWaits, LeaderAt;
    WorldKeyed(w);
    var leader, commits := OnHeaderCases(w.setup, n, h);
    if leader.Some? {
      var t := AfterHeader(w.setup, n, h, leader.value);
      AfterHeaderFrame(w.setup, n, h, leader.value);
      if commits {
        CountedInv(w, n, h, leader.value);
        LeaderIn(w, n, h.round - 1, leader.value);
        CommitInv(w, t, leader.value);
        CommitFrame(w.setup, t, leader.value);
        var m := Commit(w.setup, t, leader.value);
        forall r: Round | r > m.view.lastRound ensures RowWaits(w.setup.committee, m.view.dag, r) {
          CommitWaits(w, t, m, r);
        }
      }
    }
  }

  lemma InitWaits(w: World)
    requires WellFormed(w)
    ensures NoneReady(w.setup.committee, InitNode(w.setup).view)
  {}

  /** No run leaves a leader above the last committed round with f+1 stake of certificates above it. */
  lemma {:induction false} NoneLeftByCertificates(w: World, events: seq<Event>)
    requires WellFormed(w) && CausalRun(w, events)
    ensures NoneReady(w.setup.committee, Exec(w.setup, events).view)
    decreases |events|
  {
    hide NoneReady, OnCertificate, OnHeader, Inv, Admissible;
    if events == [] {
      InitWaits(w);
    } else {
      var before := events[..|events| - 1];
      NoneLeftByCertificates(w, before);
      ExecInv(w, before);
      match events[|events| - 1]
      case NewCertificate(v) => CertificateWaits(w, Exec(w.setup, before), v);
      case NewHeader(h) => HeaderWaits(w, Exec(w.setup, before), h);
    }
  }

  // ---------- rule 2: headers ----------

  /** The tallies above the last committed round are below a quorum, and count every author at least once. */
  ghost predicate TalliesWait(c: Committee, n: Node) {
    && (forall r: Round :: r > n.view.lastRound + 1 ==> Tally(n.votes, r) < c.QuorumThreshold())
    && (forall r: Round :: c.Weight(Backers(n.backers, r)) <= Tally(n.votes, r))
  }

  lemma CountAtMost(cfg: Setup, n: Node, h: Header, leader: Vertex)
    requires cfg.committee.Valid() && TalliesWait(cfg.committee, n)
    ensures var m := AfterHeader(cfg, n, h, leader);
      && (forall r: Round :: cfg.committee.Weight(Backers(m.backers, r)) <= Tally(m.votes, r))
      && (forall r: Round :: r != h.round ==> Tally(m.votes, r) == Tally(n.votes, r))
      && (leader.Digest() in h.parents ==> h.author in Backers(m.backers, h.round))
      && (forall r: Round :: Backers(n.backers, r) <= Backers(m.backers, r))
  {
    var c := cfg.committee;
    var m := AfterHeader(cfg, n, h, leader);
    var counted := Backers(n.backers, h.round);
    if leader.Digest() in h.parents {
      if h.author in counted {
        assert counted + {h.author} == counted;
      } else {
        WeightAdd(c, counted, h.author);
      }
      forall r: Round ensures c.Weight(Backers(m.backers, r)) <= Tally(m.votes, r) {
        assert c.Weight(Backers(n.backers, r)) <= Tally(n.votes, r);
      }
    }
  }

  lemma HeaderTalliesWait(w: World, n: Node, h: Header)
    requires WellFormed(w) && Inv(w, n) && TalliesWait(w.setup.committee, n)
    ensures TalliesWait(w.setup.committee, OnHeader(w.setup, n, h))
  {
    hide Commit, OnHeader, AfterHeader, Inv, WellFormed, LeaderAt;
    WorldKeyed(w);
    var leader, commits := OnHeaderCases(w.setup, n, h);
    if leader.Some? {
      var t := AfterHeader(w.setup, n, h, leader.value);
      AfterHeaderFrame(w.setup, n, h, leader.value);
      CountAtMost(w.setup, n, h, leader.value);
      if commits {
        CountedInv(w, n, h, leader.value);
        LeaderIn(w, n, h.round - 1, leader.value);
        CommitInv(w, t, leader.value);
        CommitFrame(w.setup, t, leader.value);
      }
    }
  }

  lemma CertificateTalliesWait(w: World, n: Node, v: Vertex)
    requires WellFormed(w) && Inv(w, n) && Admissible(w, n, NewCertificate(v)) && TalliesWait(w.setup.committee, n)
    ensures TalliesWait(w.setup.committee, OnCertificate(w.setup, n, v))
    ensures OnCertificate(w.setup, n, v).backers == n.backers
  {
    hide Commit, OnCertificate, Received, Admissible, Inv, WellFormed, LeaderAt;
    WorldKeyed(w);
    var leader := OnCertificateCases(w.setup, n, v);
    DeliverInv(w, n, v);
    ReceivedFrame(n, v);
    if leader.Some? {
      LeaderIn(w, Received(n, v), v.round - 1, leader.value);
      CommitInv(w, Received(n, v), leader.value);
      CommitFrame(w.setup, Received(n, v), leader.value);
    }
  }

  lemma InitTalliesWait(w: World)
    requires WellFormed(w)
    ensures TalliesWait(w.setup.committee, InitNode(w.setup))
  {
    EmptyWeight(w.setup.committee);
  }

  lemma {:induction false} ExecTalliesWait(w: World, events: seq<Event>)
    requires WellFormed(w) && CausalRun(w, events)
    ensures TalliesWait(w.setup.committee, Exec(w.setup, events))
    decreases |events|
  {
    hide TalliesWait, OnCertificate, OnHeader, Inv, Admissible;
    if events == [] {
      InitTalliesWait(w);
    } else {
      var before := events[..|events| - 1];
      ExecTalliesWait(w, before);
      ExecInv(w, before);
      match events[|events| - 1]
      case NewCertificate(v) => CertificateTalliesWait(w, Exec(w.setup, before), v);
      case NewHeader(h) => HeaderTalliesWait(w, Exec(w.setup, before), h);
    }
  }

  // ---------- in terms of what was received ----------

  /** The authors of certificates received that list `l`. */
  function CertifiedBy(events: seq<Event>, l: Vertex): set<Author> {
    set i | 0 <= i < |events| && events[i].NewCertificate? && Steps(events[i].vertex, l) :: events[i].vertex.author
  }

  predicate ListsIt(e: Event, l: Vertex) {
    e.NewHeader? && e.header.round == l.round + 1 && l.Digest() in e.header.parents
  }

  /** The authors of headers received after `l` that list it. */
  function ProposedBy(events: seq<Event>, l: Vertex): set<Author> {
    set i | 0 <= i < |events| && ListsIt(events[i], l) && NewCertificate(l) in events[..i] :: events[i].header.author
  }

  lemma {:induction false} ReceivedDelivered(w: World, events: seq<Event>, i: nat)
    requires WellFormed(w) && CausalRun(w, events) && i < |events| && events[i].NewCertificate?
    ensures events[i].vertex in Exec(w.setup, events).delivered && Has(w.dag, events[i].vertex)
    decreases |events|
  {
    hide OnCertificate, OnHeader;
    var before := events[..|events| - 1];
    StepDelivers(w.setup, Exec(w.setup, before), events[|events| - 1]);
    if i < |before| {
      ReceivedDelivered(w, before, i);
    }
  }

  lemma StepDelivers(cfg: Setup, n: Node, e: Event)
    requires cfg.committee.Valid()
    ensures n.delivered <= Step(cfg, n, e).delivered
    ensures e.NewCertificate? ==> e.vertex in Step(cfg, n, e).delivered
  {
    hide Commit, AfterHeader;
    match e
    case NewCertificate(v) =>
      var leader := OnCertificateCases(cfg, n, v);
      if leader.Some? {
        CommitFrame(cfg, Received(n, v), leader.value);
      }
    case NewHeader(h) =>
      var leader, commits := OnHeaderCases(cfg, n, h);
      if leader.Some? {
        AfterHeaderFrame(cfg, n, h, leader.value);
        CommitFrame(cfg, AfterHeader(cfg, n, h, leader.value), leader.value);
      }
  }

  /** A leader certificate of the world, after genesis. */
  ghost predicate LeaderOf(w: World, l: Vertex)
    requires w.setup.committee.Valid()
  {
    Has(w.dag, l) && l.round > 0 && l.author == w.setup.committee.Leader(l.round)
  }

  lemma SomeStake(w: World, l: Vertex)
    requires WellFormed(w) && Has(w.dag, l) && l.round > 0
    ensures w.setup.committee.ValidityThreshold() > 0 && w.setup.committee.Weight({}) == 0
  {
    assert ParentsChecked(w, l);
    WeightMonotone(w.setup.committee, ParentAuthors(l), ParentAuthors(l));
    EmptyWeight(w.setup.committee);
  }

  /** A certificate received above the last committed round supports the leader it lists. */
  lemma CertifierCounts(w: World, events: seq<Event>, l: Vertex, a: Author)
    requires WellFormed(w) && CausalRun(w, events) && LeaderOf(w, l) && a in CertifiedBy(events, l)
    requires Exec(w.setup, events).view.lastRound < l.round
    ensures var dag := Exec(w.setup, events).view.dag;
      && LeaderAt(w.setup.committee, dag, l.round) == Some(l)
      && l.round + 1 in dag && a in Supporters(dag[l.round + 1], l.Digest())
  {
    hide Exec, CausalRun, WellFormed, Inv, LeaderOf, Supporters, LeaderAt;
    WorldKeyed(w);
    ExecInv(w, events);
    var i :| 0 <= i < |events| && events[i].NewCertificate? && Steps(events[i].vertex, l) &&
      events[i].vertex.author == a;
    ReceivedDelivered(w, events, i);
    ListerHeld(w, Exec(w.setup, events), events[i].vertex, l);
  }

  lemma ListerHeld(w: World, n: Node, v: Vertex, l: Vertex)
    requires w.setup.committee.Valid() && Inv(w, n) && LeaderOf(w, l) && v in n.delivered && Steps(v, l)
    requires n.view.lastRound < l.round
    ensures var dag := n.view.dag;
      && LeaderAt(w.setup.committee, dag, l.round) == Some(l)
      && l.round + 1 in dag && v.author in Supporters(dag[l.round + 1], l.Digest())
  {
    assert l in n.delivered;
    HeldLeader(w, n, l);
    HeldLeader(w, n, v);
  }

  lemma CertifiersCount(w: World, events: seq<Event>, l: Vertex)
    requires WellFormed(w) && CausalRun(w, events) && LeaderOf(w, l) && CertifiedBy(events, l) != {}
    requires Exec(w.setup, events).view.lastRound < l.round
    ensures w.setup.committee.Weight(CertifiedBy(events, l)) < w.setup.committee.ValidityThreshold()
  {
    var c, dag := w.setup.committee, Exec(w.setup, events).view.dag;
    NoneLeftByCertificates(w, events);
    assert RowWaits(c, dag, l.round);
    var b :| b in CertifiedBy(events, l);
    CertifierCounts(w, events, l, b);
    var row := dag[l.round + 1];
    hide Exec, CausalRun, WellFormed, CertifiedBy, Supporters, LeaderAt;
    forall a | a in CertifiedBy(events, l) ensures a in Supporters(row, l.Digest()) {
      CertifierCounts(w, events, l, a);
    }
    WeightMonotone(c, CertifiedBy(events, l), Supporters(row, l.Digest()));
  }

  /** Rule 1 is complete: once certificates with f+1 stake that list a leader have been received, the last
      committed round is no longer below it. */
  lemma RuleOneComplete(w: World, events: seq<Event>, l: Vertex)
    requires WellFormed(w) && CausalRun(w, events) && LeaderOf(w, l)
    requires w.setup.committee.Weight(CertifiedBy(events, l)) >= w.setup.committee.ValidityThreshold()
    ensures Exec(w.setup, events).view.lastRound >= l.round
  {
    hide Exec, CausalRun, CertifiedBy;
    SomeStake(w, l);
    assert CertifiedBy(events, l) != {};
    if Exec(w.setup, events).view.lastRound < l.round {
      CertifiersCount(w, events, l);
    }
  }

  lemma HeldAtPrefix(w: World, events: seq<Event>, l: Vertex)
    requires WellFormed(w) && CausalRun(w, events) && LeaderOf(w, l) && NewCertificate(l) in events
    requires Exec(w.setup, events).view.lastRound < l.round
    ensures LeaderAt(w.setup.committee, Exec(w.setup, events).view.dag, l.round) == Some(l)
  {
    var i :| 0 <= i < |events| && events[i] == NewCertificate(l);
    ReceivedDelivered(w, events, i);
    ExecInv(w, events);
    HeldLeader(w, Exec(w.setup, events), l);
  }

  lemma ProposedByMore(events: seq<Event>, e: Event, l: Vertex, a: Author)
    requires a in ProposedBy(events + [e], l)
    ensures a in ProposedBy(events, l) || (ListsIt(e, l) && e.header.author == a && NewCertificate(l) in events)
  {
    var all := events + [e];
    var i :| 0 <= i < |all| && ListsIt(all[i], l) && NewCertificate(l) in all[..i] && all[i].header.author == a;
    if i < |events| {
      assert all[..i] == events[..i] && all[i] == events[i];
    } else {
      assert all[..i] == events;
    }
  }

  /** A header that lists a leader held above the last committed round is counted. */
  lemma HeaderCounted(cfg: Setup, n: Node, h: Header, l: Vertex)
    requires cfg.committee.Valid() && TalliesWait(cfg.committee, n)
    requires ListsIt(NewHeader(h), l) && l.round > n.view.lastRound &&
      LeaderAt(cfg.committee, n.view.dag, l.round) == Some(l)
    ensures h.author in Backers(OnHeader(cfg, n, h).backers, h.round)
  {
    hide Commit, OnHeader, AfterHeader, LeaderAt;
    var leader, commits := OnHeaderCases(cfg, n, h);
    CountAtMost(cfg, n, h, l);
    CommitFrame(cfg, AfterHeader(cfg, n, h, l), l);
  }

  lemma BackersStay(w: World, n: Node, e: Event, r: Round)
    requires WellFormed(w) && Inv(w, n) && TalliesWait(w.setup.committee, n) &&
      (e.NewCertificate? ==> Admissible(w, n, e))
    ensures Backers(n.backers, r) <= Backers(Step(w.setup, n, e).backers, r)
  {
    WorldKeyed(w);
    hide Commit, OnHeader, AfterHeader, LeaderAt, OnCertificate, Inv, WellFormed, Admissible;
    match e
    case NewCertificate(v) => CertificateTalliesWait(w, n, v);
    case NewHeader(h) =>
      var leader, commits := OnHeaderCases(w.setup, n, h);
      if leader.Some? {
        CountAtMost(w.setup, n, h, leader.value);
        CommitFrame(w.setup, AfterHeader(w.setup, n, h, leader.value), leader.value);
      }
  }

  /** Every author that proposed on top of the leader is counted while the leader is not committed. */
  lemma {:induction false} ProposersCounted(w: World, events: seq<Event>, l: Vertex, a: Author)
    requires WellFormed(w) && CausalRun(w, events) && LeaderOf(w, l) && a in ProposedBy(events, l)
    requires Exec(w.setup, events).view.lastRound < l.round
    ensures a in Backers(Exec(w.setup, events).backers, l.round + 1)
    decreases |events|
  {
    hide Inv, TalliesWait, Step, WellFormed, LeaderOf, ProposedBy;
    WorldKeyed(w);
    if events == [] {
      NoneProposed(l);
    } else {
      var before, e := events[..|events| - 1], events[|events| - 1];
      var n := Exec(w.setup, before);
      ExecInv(w, before);
      ExecTalliesWait(w, before);
      InvHighest(w, n);
      StepGrows(w.setup, n, e);
      assert events == before + [e];
      ProposedByMore(before, e, l, a);
      BackersStay(w, n, e, l.round + 1);
      if a in ProposedBy(before, l) {
        ProposersCounted(w, before, l, a);
      } else {
        HeldAtPrefix(w, before, l);
        StepHeader(w.setup, n, e.header);
        HeaderCounted(w.setup, n, e.header, l);
      }
    }
  }

  lemma NoneProposed(l: Vertex)
    ensures ProposedBy([], l) == {}
  {}

  lemma StepHeader(cfg: Setup, n: Node, h: Header)
    requires cfg.committee.Valid()
    ensures Step(cfg, n, NewHeader(h)) == OnHeader(cfg, n, h)
  {
    hide OnHeader;
  }

  lemma InvHighest(w: World, n: Node)
    requires w.setup.committee.Valid() && Inv(w, n)
    ensures IsHighest(n.view.last, n.view.lastRound)
  {}

  /** Rule 2 is complete: once headers with a quorum of stake that list a leader have been received after it, the
      last committed round is no longer below it. */
  lemma RuleTwoComplete(w: World, events: seq<Event>, l: Vertex)
    requires WellFormed(w) && CausalRun(w, events) && LeaderOf(w, l)
    requires w.setup.committee.Weight(ProposedBy(events, l)) >= w.setup.committee.QuorumThreshold()
    ensures Exec(w.setup, events).view.lastRound >= l.round
  {
    var c, n := w.setup.committee, Exec(w.setup, events);
    if n.view.lastRound < l.round {
      ExecTalliesWait(w, events);
      hide Exec, CausalRun, WellFormed, ProposedBy;
      forall a | a in ProposedBy(events, l) ensures a in Backers(n.backers, l.round + 1) {
        ProposersCounted(w, events, l, a);
      }
      WeightMonotone(c, ProposedBy(events, l), Backers(n.backers, l.round + 1));
    }
  }

  // ---------- supported leaders are committed ----------

  /** One of the rules has all it needs. */
  ghost predicate Ready(w: World, events: seq<Event>, l: Vertex) {
    var c := w.setup.committee;
    || c.Weight(CertifiedBy(events, l)) >= c.ValidityThreshold()
    || c.Weight(ProposedBy(events, l)) >= c.QuorumThreshold()
  }

  lemma ReadyIsSupported(w: World, events: seq<Event>, l: Vertex)
    requires Voting(w) && ValidRun(w, events) && LeaderOf(w, l) && Ready(w, events, l)
    ensures Supported(w, l)
  {
    var c := w.setup.committee;
    if c.Weight(CertifiedBy(events, l)) >= c.ValidityThreshold() {
      forall a | a in CertifiedBy(events, l) ensures exists v :: Has(w.dag, v) && v.author == a && Steps(v, l) {
        var i :| 0 <= i < |events| && events[i].NewCertificate? && Steps(events[i].vertex, l) &&
          events[i].vertex.author == a;
        ReceivedDelivered(w, events, i);
      }
      assert Backed(w, CertifiedBy(events, l), l);
    } else {
      forall a | a in ProposedBy(events, l) ensures Lists(w, a, l) {
        var i :| 0 <= i < |events| && ListsIt(events[i], l) && NewCertificate(l) in events[..i] &&
          events[i].header.author == a;
        HeaderIsReal(w, events, i);
      }
      assert Backed(w, ProposedBy(events, l), l);
    }
  }

  lemma {:induction false} HeaderIsReal(w: World, events: seq<Event>, i: nat)
    requires WellFormed(w) && HeadersOnce(w, events) && i < |events| && events[i].NewHeader?
    ensures var h := events[i].header;
      Proposed(w, h.author, h.round) == Some(h.parents)
    decreases |events|
  {
    if i < |events| - 1 {
      HeaderIsReal(w, events[..|events| - 1], i);
    }
  }

  lemma InReverse(s: seq<Vertex>, x: Vertex)
    requires x in s
    ensures x in Reverse(s)
  {
    ReverseFacts(s);
  }

  /** Every leader that either rule supports at a node is among the leaders the node has committed. */
  lemma SupportedIsCommitted(w: World, events: seq<Event>, l: Vertex)
    requires Voting(w) && ValidRun(w, events) && LeaderOf(w, l) && Ready(w, events, l)
    ensures l in Exec(w.setup, events).leaders
  {
    hide Exec, CausalRun, HeadersOnce, ProposedBy, CertifiedBy, Supported, Chain;
    var n := Exec(w.setup, events);
    if w.setup.committee.Weight(CertifiedBy(events, l)) >= w.setup.committee.ValidityThreshold() {
      RuleOneComplete(w, events, l);
    } else {
      RuleTwoComplete(w, events, l);
    }
    ReadyIsSupported(w, events, l);
    ExecInv(w, events);
    ExecCanonical(w, events);
    CommittedBelow(w, n, l);
  }

  lemma CommittedBelow(w: World, n: Node, l: Vertex)
    requires Voting(w) && Inv(w, n) && LeadersCanonical(w, n.leaders)
    requires LeaderOf(w, l) && Supported(w, l) && n.view.lastRound >= l.round
    ensures l in n.leaders
  {
    hide Supported, NoVotesSound, HeadersMatch, PastLeaders;
    var last := n.leaders[|n.leaders| - 1];
    assert Leads(w, l) && Leads(w, last);
    assert l in Chain(w, l);
    if last.round > l.round {
      var walk := ChainThrough(w, l, last);
    } else {
      assert last == l;
    }
    InReverse(Chain(w, last), l);
  }
}
