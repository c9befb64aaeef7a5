/** Any two nodes commit the same leaders in the same order. */
module Agreement {
  import opened Config
  import opened Dag
  import opened Ordering
  import opened Invariants
  import opened Runs

  // ---------- what the voting layer contributes ----------

  /** Each author proposed one header per round, and its certificate is for that header. */
  ghost predicate HeadersMatch(w: World) {
    forall v :: Has(w.dag, v) && v.round > 0 ==> Proposed(w, v.author, v.round) == Some(v.parents)
  }

  /** The header of `a` one round above `d` exists and lists `d`. */
  predicate Lists(w: World, a: Author, d: Vertex) {
    match Proposed(w, a, d.round + 1)
    case Some(parents) => d.Digest() in parents
    case None => false
  }

  /** `v` is the certificate of its round's leader. */
  ghost predicate Leads(w: World, v: Vertex)
    requires w.setup.committee.Valid()
  {
    LeaderAt(w.setup.committee, w.dag, v.round) == Some(v)
  }

  ghost predicate AbstainFrom(w: World, q: set<Author>, d: Vertex) {
    forall a :: a in q ==> !Lists(w, a, d)
  }

  /** A quorum of authors whose own headers of the next round do not list `d`. */
  ghost predicate QuorumAbstains(w: World, d: Vertex) {
    exists q: set<Author> ::
      w.setup.committee.Weight(q) >= w.setup.committee.QuorumThreshold() && AbstainFrom(w, q, d)
  }

  /** `d` and `l` are the certificates of the leaders of two successive rounds after genesis. */
  ghost predicate Successive(w: World, d: Vertex, l: Vertex)
    requires w.setup.committee.Valid()
  {
    Leads(w, d) && Leads(w, l) && d.round > 0 && l.round == d.round + 1
  }

  /** A certified leader that does not list the previous leader comes with a quorum of abstentions. */
  ghost predicate NoVotesSound(w: World)
    requires w.setup.committee.Valid()
  {
    forall d, l :: Successive(w, d, l) && d.Digest() !in l.parents ==> QuorumAbstains(w, d)
  }

  ghost predicate Voting(w: World) {
    WellFormed(w) && HeadersMatch(w) && NoVotesSound(w)
  }

  /** `s` certified, one round above, vertices listing `d`. */
  ghost predicate Certify(w: World, s: set<Author>, d: Vertex) {
    forall a :: a in s ==> exists v :: Has(w.dag, v) && v.author == a && Steps(v, d)
  }

  /** `s` proposed, one round above, headers listing `d`. */
  ghost predicate Propose(w: World, s: set<Author>, d: Vertex) {
    forall a :: a in s ==> Lists(w, a, d)
  }

  /** What either commit rule has seen of a leader. */
  ghost predicate Backed(w: World, s: set<Author>, d: Vertex) {
    var c := w.setup.committee;
    || (c.Weight(s) >= c.ValidityThreshold() && Certify(w, s, d))
    || (c.Weight(s) >= c.QuorumThreshold() && Propose(w, s, d))
  }

  ghost predicate Supported(w: World, d: Vertex) {
    exists s: set<Author> :: Backed(w, s, d)
  }

  // ---------- support persists ----------

  /** Under either rule, f+1 stake of authors proposed headers listing the leader. */
  lemma SupportersPropose(w: World, d: Vertex) returns (s: set<Author>)
    requires Voting(w) && Supported(w, d)
    ensures w.setup.committee.Weight(s) >= w.setup.committee.ValidityThreshold() && Propose(w, s, d)
  {
    ThresholdArithmetic(w.setup.committee);
    s :| Backed(w, s, d);
    if Certify(w, s, d) {
      forall a | a in s ensures Lists(w, a, d) {
        var v :| Has(w.dag, v) && v.author == a && Steps(v, d);
      }
    }
  }

  lemma AbstainersDoNotPropose(w: World, q: set<Author>, s: set<Author>, d: Vertex)
    requires AbstainFrom(w, q, d) && Propose(w, s, d)
    ensures q !! s
  {
    forall a | a in s ensures a !in q {
      assert Lists(w, a, d);
    }
  }

  /** The certificate of an author whose header lists `d` lists `d`. */
  lemma ProposerCertifies(w: World, d: Vertex, p: Vertex)
    requires HeadersMatch(w) && Has(w.dag, p) && p.round == d.round + 1 && Lists(w, p.author, d)
    ensures Steps(p, d)
  {}

  /** A quorum of parents one round above a supported leader holds a certificate listing it. */
  lemma QuorumMeetsSupport(w: World, d: Vertex, v: Vertex) returns (p: Vertex)
    requires Voting(w) && Supported(w, d)
    requires Has(w.dag, v) && v.round == d.round + 2
    ensures Has(w.dag, p) && Steps(v, p) && Steps(p, d)
  {
    var s := SupportersPropose(w, d);
    assert ParentsChecked(w, v) && w.setup.committee.Valid();
    ThresholdArithmetic(w.setup.committee);
    hide Supported, WellFormed, NoVotesSound, HeadersMatch, Lists;
    var a := Intersect(w.setup.committee, ParentAuthors(v), s);
    p := ParentOf(w, v, a);
    ProposerCertifies(w, d, p);
  }

  /** Every certificate two or more rounds above a supported leader reaches it. */
  lemma {:induction false} SupportReached(w: World, d: Vertex, v: Vertex)
    requires Voting(w) && Supported(w, d) && Has(w.dag, d)
    requires Has(w.dag, v) && v.round >= d.round + 2
    ensures Reaches(w.dag, v, d)
    decreases v.round
  {
    if v.round == d.round + 2 {
      var p := QuorumMeetsSupport(w, d, v);
      StepsReach(w.dag, v, p);
      ReachesParent(w.dag, v, p, d);
    } else {
      assert ParentsChecked(w, v);
      var a := Member(w.setup.committee, ParentAuthors(v));
      var p := ParentOf(w, v, a);
      SupportReached(w, d, p);
      StepsReach(w.dag, v, p);
      ReachesTransitive(w.dag, v, p, d);
    }
  }

  lemma StepsReach(dag: Dag, v: Vertex, p: Vertex)
    requires Has(dag, p) && Steps(v, p)
    ensures Reaches(dag, v, p)
  {
    assert Reaches(dag, v, v);
  }

  /** The next certified leader lists a supported leader as a parent: leaving it out takes a quorum of
      abstentions, and a quorum meets every set of supporters. */
  lemma NextLeaderLists(w: World, d: Vertex, l: Vertex)
    requires Voting(w) && Supported(w, d) && d.round > 0
    requires Leads(w, d)
    requires Leads(w, l) && l.round == d.round + 1
    ensures Steps(l, d)
  {
    var c := w.setup.committee;
    assert Successive(w, d, l);
    if d.Digest() !in l.parents {
      var q: set<Author> :| c.Weight(q) >= c.QuorumThreshold() && AbstainFrom(w, q, d);
      var s := SupportersPropose(w, d);
      ThresholdArithmetic(c);
      AbstainersDoNotPropose(w, q, s, d);
      var a := Intersect(c, q, s);
    }
  }

  /** Every later leader reaches a supported leader. */
  lemma LeaderReaches(w: World, d: Vertex, l: Vertex)
    requires Voting(w) && Supported(w, d) && d.round > 0
    requires Leads(w, d)
    requires l.round > d.round && Leads(w, l)
    ensures Reaches(w.dag, l, d)
  {
    if l.round == d.round + 1 {
      NextLeaderLists(w, d, l);
      StepsReach(w.dag, l, d);
    } else {
      SupportReached(w, d, l);
    }
  }

  // ---------- the canonical chain ----------

  /** The chain of a leader in the whole dag, newest first. */
  ghost function Chain(w: World, leader: Vertex): seq<Vertex>
    requires w.setup.committee.Valid()
  {
    [leader] + if leader.round == 0 then [] else PastLeaders(w.setup.committee, w.dag, 0, leader, leader.round - 1)
  }

  lemma LeadsAt(w: World, r: Round, p: Vertex)
    requires WellFormed(w) && LeaderAt(w.setup.committee, w.dag, r) == Some(p)
    ensures p.round == r && Leads(w, p) && Has(w.dag, p)
  {}

  /** A walk over leaders passes through every supported leader below it and continues with its chain. */
  lemma {:induction false} WalkPassesSupported(w: World, d: Vertex, from: Vertex, r: Round)
    requires Voting(w) && Supported(w, d) && d.round > 0
    requires Leads(w, d)
    requires Leads(w, from)
    requires d.round <= r < from.round
    ensures PastLeaders(w.setup.committee, w.dag, 0, from, r)
         == PastLeaders(w.setup.committee, w.dag, d.round, from, r) + Chain(w, d)
    decreases r
  {
    var c := w.setup.committee;
    assert c.Valid() && WellFormed(w);
    WalkStep(c, w.dag, 0, from, r);
    if r == d.round {
      LeaderReaches(w, d, from);
      assert PastLeaders(c, w.dag, d.round, from, r) + Chain(w, d) == Chain(w, d);
    } else {
      WalkStep(c, w.dag, d.round, from, r);
      var next := WalkTo(c, w.dag, from, r);
      if next != from {
        LeadsAt(w, r, next);
      }
      WalkPassesSupported(w, d, next, r - 1);
      ConcatAssociates(if next == from then [] else [next], PastLeaders(c, w.dag, d.round, next, r - 1), Chain(w, d));
    }
  }

  /** A node's own dag decides reachability above its last committed round exactly as the whole dag does. */
  lemma {:induction false} LocalReach(w: World, view: View, delivered: set<Vertex>, x: Vertex, y: Vertex)
    requires Sound(w, view, delivered)
    requires x in delivered && y.round > view.lastRound
    ensures Reaches(w.dag, x, y) <==> Reaches(view.dag, x, y)
    ensures Reaches(w.dag, x, y) ==> y in delivered
    decreases x.round - y.round
  {
    if Reaches(view.dag, x, y) {
      ReachesMonotone(view.dag, w.dag, x, y);
    }
    if Reaches(w.dag, x, y) && x != y {
      var p: Vertex :| Steps(p, y) && Reaches(w.dag, x, p);
      LocalReach(w, view, delivered, x, p);
    }
  }

  /** A leader the node lacks is not reached from anything the node has. */
  lemma LocalLeader(w: World, view: View, delivered: set<Vertex>, from: Vertex, r: Round)
    requires WellFormed(w) && Sound(w, view, delivered)
    requires from in delivered && r > view.lastRound
    ensures var c := w.setup.committee;
      var here := LeaderAt(c, view.dag, r);
      var there := LeaderAt(c, w.dag, r);
      && (here.Some? ==> here == there && (Reaches(view.dag, from, here.value) <==> Reaches(w.dag, from, here.value)))
      && (here.None? && there.Some? ==> !Reaches(w.dag, from, there.value))
      && (there.Some? && Reaches(w.dag, from, there.value) ==> there.value in delivered)
  {
    var c := w.setup.committee;
    match LeaderAt(c, w.dag, r) {
      case Some(p) => LocalReach(w, view, delivered, from, p);
      case None =>
    }
    match LeaderAt(c, view.dag, r) {
      case Some(p) => assert Has(view.dag, p) && Has(w.dag, p);
      case None =>
    }
  }

  /** One step of the walk is the same over both dags. */
  lemma LocalStep(w: World, view: View, delivered: set<Vertex>, from: Vertex, r: Round)
    requires WellFormed(w) && Sound(w, view, delivered)
    requires from in delivered && view.lastRound < r < from.round
    ensures var next := WalkTo(w.setup.committee, w.dag, from, r);
      && WalkTo(w.setup.committee, view.dag, from, r) == next
      && next in delivered && (next == from || next.round == r)
  {
    hide Sound, WellFormed, Reaches;
    WorldKeyed(w);
    LocalLeader(w, view, delivered, from, r);
  }

  lemma NothingBelow(c: Committee, dag: Dag, floor: Round, from: Vertex, r: Round)
    requires c.Valid() && r <= floor
    ensures PastLeaders(c, dag, floor, from, r) == []
  {}

  /** Walking back over the node's dag lists the same leaders as walking back over the whole dag. */
  lemma {:induction false} LocalWalk(w: World, view: View, delivered: set<Vertex>, from: Vertex, r: Round)
    requires WellFormed(w) && Sound(w, view, delivered)
    requires from in delivered && r < from.round
    ensures PastLeaders(w.setup.committee, view.dag, view.lastRound, from, r)
         == PastLeaders(w.setup.committee, w.dag, view.lastRound, from, r)
    decreases r
  {
    var c := w.setup.committee;
    hide WellFormed, Sound, Reaches, LeaderAt, PastLeaders, WalkTo, WellKeyed;
    WorldKeyed(w);
    SoundKeyed(w, view, delivered);
    if r <= view.lastRound {
      NothingBelow(c, view.dag, view.lastRound, from, r);
      NothingBelow(c, w.dag, view.lastRound, from, r);
    } else {
      LocalStep(w, view, delivered, from, r);
      WalkStep(c, view.dag, view.lastRound, from, r);
      WalkStep(c, w.dag, view.lastRound, from, r);
      LocalWalk(w, view, delivered, WalkTo(c, w.dag, from, r), r - 1);
    }
  }

  // ---------- what a node knows of support ----------

  predicate Follows(r: Round, d: Vertex) {
    r == d.round + 1
  }

  /** A round's tally is the joint stake of the authors counted for it. */
  ghost predicate TallySums(c: Committee, votes: map<Round, nat>, backers: map<Round, set<Author>>) {
    forall r: Round :: Tally(votes, r) == c.Weight(Backers(backers, r))
  }

  ghost predicate BackersHeard(backers: map<Round, set<Author>>, heard: set<(Author, Round)>) {
    forall r: Round, a: Author :: a in Backers(backers, r) ==> (a, r) in heard
  }

  /** The authors counted for a round did propose headers listing the leader below it. */
  ghost predicate BackersList(w: World, backers: map<Round, set<Author>>)
    requires w.setup.committee.Valid()
  {
    forall r: Round, a: Author, d: Vertex ::
      a in Backers(backers, r) && Follows(r, d) && Leads(w, d) ==> Lists(w, a, d)
  }

  ghost predicate TalliesSound(w: World, n: Node)
    requires w.setup.committee.Valid()
  {
    TallySums(w.setup.committee, n.votes, n.backers) && BackersHeard(n.backers, n.heard) && BackersList(w, n.backers)
  }

  /** The committed leaders are the canonical chain of the last one, oldest first, and that one has support. */
  ghost predicate LeadersCanonical(w: World, leaders: seq<Vertex>)
    requires w.setup.committee.Valid()
  {
    leaders == [] ||
    (var last := leaders[|leaders| - 1];
     Leads(w, last) && last.round > 0 && Supported(w, last) && leaders == Reverse(Chain(w, last)))
  }

  lemma EmptyTallies(w: World)
    requires WellFormed(w)
    ensures TalliesSound(w, InitNode(w.setup))
  {
    EmptyWeight(w.setup.committee);
  }

  lemma CountSums(c: Committee, votes: map<Round, nat>, backers: map<Round, set<Author>>, r: Round, a: Author)
    requires c.Valid() && TallySums(c, votes, backers)
    requires a !in Backers(backers, r)
    ensures TallySums(c, votes[r := Tally(votes, r) + c.Stake(a)], backers[r := Backers(backers, r) + {a}])
  {
    WeightAdd(c, Backers(backers, r), a);
    var votes', backers' := votes[r := Tally(votes, r) + c.Stake(a)], backers[r := Backers(backers, r) + {a}];
    forall q: Round ensures Tally(votes', q) == c.Weight(Backers(backers', q)) {
      assert Tally(votes, q) == c.Weight(Backers(backers, q));
    }
  }

  lemma CountLists(w: World, backers: map<Round, set<Author>>, h: Header, leader: Vertex)
    requires w.setup.committee.Valid() && BackersList(w, backers)
    requires Leads(w, leader) && Follows(h.round, leader)
    requires Proposed(w, h.author, h.round) == Some(h.parents) && leader.Digest() in h.parents
    ensures BackersList(w, backers[h.round := Backers(backers, h.round) + {h.author}])
  {
    var counted := backers[h.round := Backers(backers, h.round) + {h.author}];
    forall r: Round, a: Author, d: Vertex | a in Backers(counted, r) && Follows(r, d) && Leads(w, d)
      ensures Lists(w, a, d)
    {
      if r == h.round && a == h.author {
        assert d == leader;
      } else {
        assert a in Backers(backers, r);
      }
    }
  }

  /** Counting a header not heard before keeps the tallies sound. */
  lemma CountHeader(w: World, n: Node, h: Header, leader: Vertex)
    requires w.setup.committee.Valid() && TalliesSound(w, n)
    requires Proposed(w, h.author, h.round) == Some(h.parents) && (h.author, h.round) !in n.heard
    requires Leads(w, leader) && Follows(h.round, leader)
    ensures TalliesSound(w, AfterHeader(w.setup, n, h, leader))
  {
    if leader.Digest() in h.parents {
      CountSums(w.setup.committee, n.votes, n.backers, h.round, h.author);
      CountLists(w, n.backers, h, leader);
    }
  }

  lemma LocalLeads(w: World, n: Node, r: Round, leader: Vertex)
    requires WellFormed(w) && Inv(w, n)
    requires LeaderAt(w.setup.committee, n.view.dag, r) == Some(leader)
    ensures leader.round == r && Leads(w, leader) && Has(n.view.dag, leader) && leader in n.delivered
  {
    assert Has(n.view.dag, leader);
  }

  /** Rule 1 only commits supported leaders. */
  lemma RuleOneSupported(w: World, n: Node, v: Vertex, leader: Vertex)
    requires WellFormed(w) && Inv(w, n)
    requires Has(n.view.dag, v) && v.round > 0
    requires LeaderAt(w.setup.committee, n.view.dag, v.round - 1) == Some(leader)
    requires w.setup.committee.Weight(Supporters(n.view.dag[v.round], leader.Digest())) >=
      w.setup.committee.ValidityThreshold()
    ensures Supported(w, leader)
  {
    var s := Supporters(n.view.dag[v.round], leader.Digest());
    LocalLeads(w, n, v.round - 1, leader);
    forall a | a in s ensures exists x :: Has(w.dag, x) && x.author == a && Steps(x, leader) {
      var x := n.view.dag[v.round][a];
      assert Has(n.view.dag, x) && Has(w.dag, x) && x.author == a && Steps(x, leader);
    }
    assert Backed(w, s, leader);
  }

  /** Rule 2 only commits supported leaders. */
  lemma RuleTwoSupported(w: World, votes: map<Round, nat>, backers: map<Round, set<Author>>, r: Round, leader: Vertex)
    requires w.setup.committee.Valid()
    requires TallySums(w.setup.committee, votes, backers) && BackersList(w, backers)
    requires Leads(w, leader) && Follows(r, leader)
    requires Tally(votes, r) >= w.setup.committee.QuorumThreshold()
    ensures Supported(w, leader)
  {
    assert Backed(w, Backers(backers, r), leader);
  }

  /** The chain of a leader passes through every supported leader below it. */
  lemma ChainThrough(w: World, d: Vertex, e: Vertex) returns (walk: seq<Vertex>)
    requires Voting(w) && Supported(w, d) && d.round > 0
    requires Leads(w, d) && Leads(w, e) && d.round < e.round
    ensures walk == PastLeaders(w.setup.committee, w.dag, d.round, e, e.round - 1)
    ensures Chain(w, e) == ([e] + walk) + Chain(w, d)
  {
    walk := PastLeaders(w.setup.committee, w.dag, d.round, e, e.round - 1);
    WalkPassesSupported(w, d, e, e.round - 1);
    ConcatAssociates([e], walk, Chain(w, d));
  }

  /** `order_leaders` over the node's dag is the walk over the whole dag, cut at the last committed round. */
  lemma OrderLeadersGlobal(w: World, view: View, delivered: set<Vertex>, leader: Vertex)
    requires WellFormed(w) && Sound(w, view, delivered)
    requires leader in delivered && leader.round > view.lastRound
    ensures OrderLeaders(w.setup.committee, view, leader)
         == [leader] + PastLeaders(w.setup.committee, w.dag, view.lastRound, leader, leader.round - 1)
  {
    hide WellFormed, Sound, PastLeaders;
    WorldKeyed(w);
    LocalWalk(w, view, delivered, leader, leader.round - 1);
  }

  /** A commit lists the part of the leader's chain above the last committed leader. */
  lemma ChainSplits(w: World, leaders: seq<Vertex>, lastRound: Round, leader: Vertex)
    requires Voting(w) && LeadersCanonical(w, leaders)
    requires lastRound == if leaders == [] then 0 else leaders[|leaders| - 1].round
    requires Leads(w, leader) && leader.round > lastRound
    ensures var part := [leader] + PastLeaders(w.setup.committee, w.dag, lastRound, leader, leader.round - 1);
      Chain(w, leader) == if leaders == [] then part else part + Chain(w, leaders[|leaders| - 1])
  {
    if leaders != [] {
      var walk := ChainThrough(w, leaders[|leaders| - 1], leader);
    }
  }

  /** Committing a supported leader extends the canonical sequence to the chain of that leader. */
  lemma CommitCanonical(w: World, n: Node, leader: Vertex)
    requires Voting(w) && Inv(w, n) && LeadersCanonical(w, n.leaders)
    requires Leads(w, leader) && Supported(w, leader)
    requires leader in n.delivered && leader.round > n.view.lastRound
    ensures LeadersCanonical(w, n.leaders + Reverse(OrderLeaders(w.setup.committee, n.view, leader)))
  {
    var added := OrderLeaders(w.setup.committee, n.view, leader);
    OrderLeadersGlobal(w, n.view, n.delivered, leader);
    ChainSplits(w, n.leaders, n.view.lastRound, leader);
    ReverseFacts(added);
    var all := n.leaders + Reverse(added);
    assert all[|all| - 1] == leader;
    if n.leaders != [] {
      ReverseAppend(added, Chain(w, n.leaders[|n.leaders| - 1]));
    }
  }

  // ---------- runs ----------

  lemma CommitFrame(cfg: Setup, n: Node, leader: Vertex)
    requires cfg.committee.Valid()
    ensures var m := Commit(cfg, n, leader);
      && m.leaders == n.leaders + Reverse(OrderLeaders(cfg.committee, n.view, leader))
      && m.votes == n.votes && m.backers == n.backers && m.heard == n.heard && m.delivered == n.delivered
  {}

  lemma ReceivedFrame(n: Node, v: Vertex)
    ensures var m := Received(n, v);
      && m.leaders == n.leaders && m.votes == n.votes && m.backers == n.backers && m.heard == n.heard
      && m.view.lastRound == n.view.lastRound && Has(m.view.dag, v)
  {}

  lemma TalliesFrame(w: World, n: Node, m: Node)
    requires w.setup.committee.Valid() && TalliesSound(w, n)
    requires m.votes == n.votes && m.backers == n.backers && n.heard <= m.heard
    ensures TalliesSound(w, m)
  {}

  lemma CountedTallies(w: World, n: Node, h: Header, leader: Vertex)
    requires WellFormed(w) && Inv(w, n) && TalliesSound(w, n)
    requires Proposed(w, h.author, h.round) == Some(h.parents) && (h.author, h.round) !in n.heard
    requires h.round > 0 && LeaderAt(w.setup.committee, n.view.dag, h.round - 1) == Some(leader)
    ensures TalliesSound(w, AfterHeader(w.setup, n, h, leader))
  {
    LocalLeads(w, n, h.round - 1, leader);
    CountHeader(w, n, h, leader);
  }

  lemma HeaderTallies(w: World, n: Node, h: Header)
    requires WellFormed(w) && Inv(w, n) && TalliesSound(w, n)
    requires Proposed(w, h.author, h.round) == Some(h.parents) && (h.author, h.round) !in n.heard
    ensures TalliesSound(w, OnHeader(w.setup, n, h))
  {
    hide Commit, AfterHeader;
    var leader, commits := OnHeaderCases(w.setup, n, h);
    if leader == None {
      TalliesFrame(w, n, OnHeader(w.setup, n, h));
    } else {
      var m := AfterHeader(w.setup, n, h, leader.value);
      CountedTallies(w, n, h, leader.value);
      CommitFrame(w.setup, m, leader.value);
      TalliesFrame(w, m, OnHeader(w.setup, n, h));
    }
  }

  lemma CertificateTallies(w: World, n: Node, v: Vertex)
    requires w.setup.committee.Valid() && TalliesSound(w, n)
    ensures TalliesSound(w, OnCertificate(w.setup, n, v))
  {
    hide Commit, Received;
    var leader := OnCertificateCases(w.setup, n, v);
    ReceivedFrame(n, v);
    if leader.Some? {
      CommitFrame(w.setup, Received(n, v), leader.value);
    }
    TalliesFrame(w, n, OnCertificate(w.setup, n, v));
  }

  lemma {:induction false} ExecTallies(w: World, events: seq<Event>)
    requires WellFormed(w) && ValidRun(w, events)
    ensures TalliesSound(w, Exec(w.setup, events))
    decreases |events|
  {
    if events == [] {
      EmptyTallies(w);
    } else {
      var before := events[..|events| - 1];
      ExecTallies(w, before);
      ExecInv(w, before);
      match events[|events| - 1]
      case NewCertificate(v) => CertificateTallies(w, Exec(w.setup, before), v);
      case NewHeader(h) => HeaderTallies(w, Exec(w.setup, before), h);
    }
  }

  /** What a node commits in one step: nothing, or a supported leader and its uncommitted chain. */
  ghost predicate Commits(w: World, n: Node, m: Node, leader: Vertex)
    requires w.setup.committee.Valid()
  {
    && Inv(w, m) && m.leaders == n.leaders
    && Leads(w, leader) && leader in m.delivered && leader.round > m.view.lastRound
    && Supported(w, leader)
  }

  lemma CertificateCommits(w: World, n: Node, v: Vertex) returns (leader: Option<Vertex>)
    requires WellFormed(w) && Inv(w, n) && Admissible(w, n, NewCertificate(v))
    ensures leader.None? ==> OnCertificate(w.setup, n, v).leaders == n.leaders
    ensures leader.Some? ==> Commits(w, n, Received(n, v), leader.value)
    ensures leader.Some? ==> OnCertificate(w.setup, n, v) == Commit(w.setup, Received(n, v), leader.value)
  {
    hide Commit, Received, Admissible, Inv, WellFormed, Supported, Leads, LeaderAt, Supporters;
    WorldKeyed(w);
    leader := OnCertificateCases(w.setup, n, v);
    ReceivedFrame(n, v);
    if leader.Some? {
      var m := Received(n, v);
      DeliverInv(w, n, v);
      LocalLeads(w, m, v.round - 1, leader.value);
      RuleOneSupported(w, m, v, leader.value);
    }
  }

  lemma HeaderCommits(w: World, n: Node, h: Header) returns (leader: Option<Vertex>, m: Node)
    requires WellFormed(w) && Inv(w, n) && TalliesSound(w, n) && Admissible(w, n, NewHeader(h))
    ensures leader.None? ==> OnHeader(w.setup, n, h).leaders == n.leaders
    ensures leader.Some? ==> Commits(w, n, m, leader.value)
    ensures leader.Some? ==> OnHeader(w.setup, n, h) == Commit(w.setup, m, leader.value)
  {
    hide Commit, AfterHeader, Inv, WellFormed, Supported, Leads, LeaderAt;
    WorldKeyed(w);
    var commits;
    leader, commits := OnHeaderCases(w.setup, n, h);
    m := n;
    if leader.Some? {
      m := AfterHeader(w.setup, n, h, leader.value);
      AfterHeaderFrame(w.setup, n, h, leader.value);
      LocalLeads(w, n, h.round - 1, leader.value);
      CountedTallies(w, n, h, leader.value);
      if commits {
        CountedInv(w, n, h, leader.value);
        RuleTwoSupported(w, m.votes, m.backers, h.round, leader.value);
      } else {
        leader := None;
      }
    }
  }

  lemma {:induction false} ExecCanonical(w: World, events: seq<Event>)
    requires Voting(w) && ValidRun(w, events)
    ensures LeadersCanonical(w, Exec(w.setup, events).leaders)
    decreases |events|
  {
    if events != [] {
      var before := events[..|events| - 1];
      var n := Exec(w.setup, before);
      ExecCanonical(w, before);
      ExecInv(w, before);
      ExecTallies(w, before);
      match events[|events| - 1]
      case NewCertificate(v) =>
        var leader := CertificateCommits(w, n, v);
        if leader.Some? {
          CommitCanonical(w, Received(n, v), leader.value);
          CommitFrame(w.setup, Received(n, v), leader.value);
        }
      case NewHeader(h) =>
        var leader, m := HeaderCommits(w, n, h);
        if leader.Some? {
          CommitCanonical(w, m, leader.value);
          CommitFrame(w.setup, m, leader.value);
        }
    }
  }

  /** After a commit every node's leader sequence is the canonical chain of the last committed leader. */
  lemma LeadersAreChain(w: World, events: seq<Event>)
    requires Voting(w) && ValidRun(w, events)
    requires Exec(w.setup, events).leaders != []
    ensures var leaders := Exec(w.setup, events).leaders;
      leaders == Reverse(Chain(w, leaders[|leaders| - 1]))
  {
    ExecCanonical(w, events);
  }

  lemma ChainsNest(w: World, s: seq<Vertex>, t: seq<Vertex>)
    requires Voting(w) && LeadersCanonical(w, s) && LeadersCanonical(w, t)
    requires s != [] && t != [] && s[|s| - 1].round <= t[|t| - 1].round
    ensures s <= t
  {
    var d, e := s[|s| - 1], t[|t| - 1];
    if d.round < e.round {
      var walk := ChainThrough(w, d, e);
      ReverseAppend([e] + walk, Chain(w, d));
    }
  }

  /** Leader agreement: the committed leaders of any two nodes are prefixes of one another. */
  lemma LeaderAgreement(w: World, events1: seq<Event>, events2: seq<Event>)
    requires Voting(w) && ValidRun(w, events1) && ValidRun(w, events2)
    ensures var leaders1 := Exec(w.setup, events1).leaders;
      var leaders2 := Exec(w.setup, events2).leaders;
      leaders1 <= leaders2 || leaders2 <= leaders1
  {
    ExecCanonical(w, events1);
    ExecCanonical(w, events2);
    var s, t := Exec(w.setup, events1).leaders, Exec(w.setup, events2).leaders;
    if s != [] && t != [] {
      if s[|s| - 1].round <= t[|t| - 1].round {
        ChainsNest(w, s, t);
      } else {
        ChainsNest(w, t, s);
      }
    }
  }
}
