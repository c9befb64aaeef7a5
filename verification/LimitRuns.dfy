/** Four authorities, a world of their certificates, and runs over it that differ in when one certificate
    arrives. */
module LimitRuns {
  import opened Config
  import opened Dag
  import opened Ordering
  import opened Invariants
  import opened SubDags
  import opened Runs
  import opened Once
  import opened Agreement

  // ---------- the world ----------

  /** Authority 0 is a quorum by itself; authority `r % 4` leads round r. */
  function Quartet(): Setup {
    Setup(Committee([Authority(0, 7), Authority(1, 1), Authority(2, 1), Authority(3, 1)]), 50)
  }

  function At(r: Round, a: Author): Digest {
    DigestOf(if r == 0 then 0 else 1, r, a)
  }

  /** What a certificate lists besides authority 0's of the round below. */
  function More(r: Round, a: Author): seq<Digest> {
    if r == 2 && (a == 1 || a == 3) then [At(1, 2)]
    else if r == 3 && a == 0 then [At(2, 2)]
    else if r == 3 && a == 1 then [At(2, 1)]
    else if r == 3 && a == 3 then [At(2, 2), At(2, 3)]
    else if r == 4 && a == 0 then [At(3, 3), At(3, 1)]
    else []
  }

  function V(r: Round, a: Author): Vertex {
    if r == 0 then GenesisVertex(a) else Vertex(1, r, a, [At(r - 1, 0)] + More(r, a))
  }

  /** The whole world, or the part of it below the first leader. */
  datatype Scope = Full | Light

  /** Authority 0 certifies every round; 2 the first two; 1 and 3 the second and third. */
  predicate Present(scope: Scope, r: Round, a: Author) {
    match scope
    case Full => (a == 0 && r <= 5) || (a == 2 && r <= 2) || ((a == 1 || a == 3) && (r == 0 || r == 2 || r == 3))
    case Light => (a < 4 && r == 0) || (a == 0 && r <= 2) || (a == 2 && r == 2)
  }

  function Row(scope: Scope, r: Round): map<Author, Vertex> {
    map a: Author | a < 4 && Present(scope, r, a) :: V(r, a)
  }

  function DagOf(scope: Scope): Dag {
    map r: Round | r <= 5 :: Row(scope, r)
  }

  function HeadersOf(scope: Scope): map<(Author, Round), seq<Digest>> {
    map a: Author, r: Round | a < 4 && 0 < r <= 5 && Present(scope, r, a) :: (a, r) := V(r, a).parents
  }

  function FullWorld(): World {
    World(Quartet(), DagOf(Full), HeadersOf(Full))
  }

  lemma DagOfHas(scope: Scope, v: Vertex)
    ensures Has(DagOf(scope), v) <==> Present(scope, v.round, v.author) && v == V(v.round, v.author)
    ensures WellKeyed(DagOf(scope))
  {}

  /** Who lists whom. */
  lemma Links(r: Round, a: Author, q: Round, b: Author)
    ensures V(r, a).round == r && V(r, a).author == a && V(r, a).Digest() == At(r, a)
    ensures Steps(V(r, a), V(q, b)) <==> r == q + 1 && (b == 0 || At(q, b) in More(r, a))
  {}

  lemma Stakes(s: set<Author>)
    ensures var c := Quartet().committee;
      && c.Valid() && c.Names() == {0, 1, 2, 3}
      && c.Weight(s) ==
        (if 0 in s then 7 else 0) + (if 1 in s then 1 else 0) + (if 2 in s then 1 else 0) + (if 3 in s then 1 else 0)
      && c.QuorumThreshold() == 7 && c.ValidityThreshold() == 4
  {
    var c := Quartet().committee;
    var tail := [Authority(2, 1), Authority(3, 1)];
    assert c.authorities[1..] == [Authority(1, 1)] + tail;
    assert c.authorities[1..][1..] == tail;
    TwoLight(s);
    assert WeightIn(c.authorities[1..], s) == (if 1 in s then 1 else 0) + WeightIn(tail, s);
    assert TotalIn(c.authorities[1..]) == 3;
    assert c.Total() == 10;
    assert c.authorities[0].name in c.Names() && c.authorities[1].name in c.Names();
    assert c.authorities[2].name in c.Names() && c.authorities[3].name in c.Names();
  }

  lemma TwoLight(s: set<Author>)
    ensures var tail := [Authority(2, 1), Authority(3, 1)];
      WeightIn(tail, s) == (if 2 in s then 1 else 0) + (if 3 in s then 1 else 0) && TotalIn(tail) == 2
  {
    var tail := [Authority(2, 1), Authority(3, 1)];
    assert tail[1..] == [Authority(3, 1)] && tail[1..][1..] == [];
    assert WeightIn(tail[1..], s) == if 3 in s then 1 else 0;
    assert TotalIn(tail[1..]) == 1;
  }

  lemma LeadersAre(r: Round)
    ensures Quartet().committee.Valid() && Quartet().committee.Leader(r) == r % 4
  {
    Stakes({});
  }

  /** What is listed is present. */
  lemma Rooted(scope: Scope, r: Round, a: Author, d: Digest)
    requires Present(scope, r, a) && r > 0
    ensures Present(scope, r - 1, 0)
    ensures d in More(r, a) ==> Present(scope, d.round, d.origin)
  {}

  lemma MoreBelow(r: Round, a: Author, d: Digest)
    requires d in More(r, a)
    ensures r > 1 && d == At(r - 1, d.origin) && d.round == r - 1
  {}

  lemma RootedChecked(w: World, scope: Scope, v: Vertex)
    requires w.setup == Quartet() && w.dag == DagOf(scope)
    requires Has(w.dag, v) && v.round > 0
    ensures ParentsChecked(w, v)
  {
    DagOfHas(scope, v);
    var r, a := v.round, v.author;
    forall d | d in v.parents ensures v.round == d.round + 1 && Find(w.dag, d.round, d).Some? {
      Rooted(scope, r, a, d);
      if d in More(r, a) {
        MoreBelow(r, a, d);
        DagOfHas(scope, V(r - 1, d.origin));
      } else {
        assert d == At(r - 1, 0);
        DagOfHas(scope, V(r - 1, 0));
      }
    }
    assert v.parents[0] == At(r - 1, 0);
    assert At(r - 1, 0).origin in ParentAuthors(v);
    Stakes(ParentAuthors(v));
  }

  lemma WorldFits(w: World, scope: Scope)
    requires w.setup == Quartet() && w.dag == DagOf(scope)
    ensures WellFormed(w)
  {
    Stakes({});
    DagOfHas(scope, V(0, 0));
    forall v ensures Has(w.dag, v) && v.round > 0 ==> ParentsChecked(w, v)
      ensures Has(w.dag, v) && v.round == 0 ==> v == GenesisVertex(v.author)
    {
      DagOfHas(scope, v);
      if Has(w.dag, v) && v.round > 0 {
        RootedChecked(w, scope, v);
      }
    }
    forall a: Author | a < 4 ensures Has(w.dag, GenesisVertex(a)) {
      DagOfHas(scope, V(0, a));
    }
  }

  lemma HeadersFit(w: World, scope: Scope)
    requires w.dag == DagOf(scope)
    requires forall k :: k in HeadersOf(scope) ==> k in w.headers && w.headers[k] == HeadersOf(scope)[k]
    ensures HeadersMatch(w)
  {
    forall v | Has(w.dag, v) && v.round > 0 ensures Proposed(w, v.author, v.round) == Some(v.parents) {
      DagOfHas(scope, v);
      assert (v.author, v.round) in HeadersOf(scope);
    }
  }

  /** The world is one the agreement theorems are about. */
  lemma FullVotes()
    ensures Voting(FullWorld()) && FullWorld().setup == Quartet()
  {
    var w := FullWorld();
    WorldFits(w, Full);
    HeadersFit(w, Full);
    forall d, l | Successive(w, d, l) ensures d.Digest() in l.parents {
      LeadersAre(d.round);
      LeadersAre(l.round);
      DagOfHas(Full, d);
      DagOfHas(Full, l);
      LeadersLinked(d.round);
    }
  }

  lemma LeadersLinked(r: Round)
    requires r > 0 && Present(Full, r, r % 4) && Present(Full, r + 1, (r + 1) % 4)
    ensures V(r, r % 4).Digest() in V(r + 1, (r + 1) % 4).parents
  {
    assert r == 2 || r == 3;
    Links(r + 1, (r + 1) % 4, r, r % 4);
  }

  // ---------- runs ----------

  function Deliver(s: seq<Vertex>): seq<Event> {
    seq(|s|, i requires 0 <= i < |s| => NewCertificate(s[i]))
  }

  /** The run delivered `s` and ended in `n`. */
  ghost predicate Went(w: World, s: seq<Vertex>, n: Node) {
    WellFormed(w) && w.setup == Quartet() && n == Exec(Quartet(), Deliver(s)) && ValidRun(w, Deliver(s))
  }

  /** Nothing stale was delivered. */
  ghost predicate Clean(w: World, s: seq<Vertex>) {
    w.setup.committee.Valid() && NoneStale(w, Deliver(s))
  }

  /** Nothing dropped was delivered again. */
  ghost predicate Unrepeated(w: World, s: seq<Vertex>) {
    w.setup.committee.Valid() && NoReplays(w, Deliver(s))
  }

  /** The certificate exists and its parents are in `s`. */
  ghost predicate Fits(w: World, v: Vertex, s: set<Vertex>) {
    Has(w.dag, v) && v.round > 0 && ParentsDelivered(w, v, s)
  }

  lemma FitsWith(w: World, scope: Scope, r: Round, a: Author, s: set<Vertex>)
    requires w.dag == DagOf(scope) && Present(scope, r, a) && r > 0
    requires V(r - 1, 0) in s && forall d :: d in More(r, a) ==> V(r - 1, d.origin) in s
    ensures Fits(w, V(r, a), s)
  {
    DagOfHas(scope, V(r, a));
    forall p | Has(w.dag, p) && Steps(V(r, a), p) ensures p in s {
      DagOfHas(scope, p);
      Links(r, a, p.round, p.author);
    }
  }

  /** One more certificate. */
  lemma RunOne(w: World, s: seq<Vertex>, n: Node, v: Vertex) returns (m: Node)
    requires Went(w, s, n) && Fits(w, v, n.delivered)
    ensures Quartet().committee.Valid()
    ensures Went(w, s + [v], m) && m == OnCertificate(Quartet(), n, v)
    ensures Clean(w, s) && !Stale(n, v) ==> Clean(w, s + [v])
    ensures Unrepeated(w, s) && v !in n.delivered ==> Unrepeated(w, s + [v])
  {
    Stakes({});
    hide OnCertificate, V, Quartet, WellFormed, Has;
    var all := Deliver(s + [v]);
    assert all[..|all| - 1] == Deliver(s) && all[|all| - 1] == NewCertificate(v);
    m := OnCertificate(Quartet(), n, v);
  }

  lemma Start(w: World) returns (n: Node)
    requires WellFormed(w) && w.setup == Quartet()
    ensures Went(w, [], n) && Clean(w, []) && Unrepeated(w, []) && Idle(n)
    ensures n.delivered == Four() && Holds(n.view.dag, Four())
  {
    Stakes({});
    n := InitNode(Quartet());
    assert Deliver([]) == [];
    assert Genesis(Quartet().committee) == Four();
  }

  function Four(): set<Vertex> {
    {V(0, 0), V(0, 1), V(0, 2), V(0, 3)}
  }

  /** Nothing has been committed yet. */
  ghost predicate Idle(n: Node) {
    && n.view.lastRound == 0 && (forall a :: a in n.view.last ==> n.view.last[a] == 0)
    && n.votes == map[] && n.output == [] && n.leaders == []
  }

  /** The dag holds exactly these vertices. */
  ghost predicate Holds(dag: Dag, s: set<Vertex>) {
    WellKeyed(dag) && forall v :: Has(dag, v) <==> v in s
  }

  lemma HoldsInsert(dag: Dag, s: set<Vertex>, v: Vertex)
    requires Holds(dag, s)
    requires forall x :: x in s && x.round == v.round && x.author == v.author ==> x == v
    ensures Holds(Insert(dag, v), s + {v})
  {
    forall x ensures Has(Insert(dag, v), x) <==> x in s + {v} {
      InsertHas(dag, v, x);
    }
  }

  lemma LeaderHeld(c: Committee, dag: Dag, v: Vertex)
    requires c.Valid() && Has(dag, v) && v.author == c.Leader(v.round)
    ensures LeaderAt(c, dag, v.round) == Some(v)
  {}

  lemma LeaderMissing(c: Committee, dag: Dag, s: set<Vertex>, r: Round)
    requires c.Valid() && Holds(dag, s)
    requires forall v :: v in s && v.round == r ==> v.author != c.Leader(r)
    ensures LeaderAt(c, dag, r) == None
  {
    match LeaderAt(c, dag, r)
    case Some(p) => assert Has(dag, p);
    case None =>
  }

  lemma ReceivedParts(n: Node, v: Vertex)
    ensures var m := Received(n, v);
      && m.view == View(n.view.lastRound, n.view.last, Insert(n.view.dag, v))
      && m.delivered == n.delivered + {v} && m.output == n.output && m.leaders == n.leaders
      && m.votes == n.votes
  {}

  /** A certificate is only recorded if its previous round is not above the last committed one, or has no
      leader. */
  lemma RecordOne(w: World, s: seq<Vertex>, n: Node, v: Vertex) returns (m: Node)
    requires Went(w, s, n) && Fits(w, v, n.delivered)
    requires Quartet().committee.Valid()
    requires v.round - 1 <= n.view.lastRound ||
      LeaderAt(Quartet().committee, Insert(n.view.dag, v), v.round - 1) == None
    ensures Went(w, s + [v], m) && m == Received(n, v)
    ensures Clean(w, s) && v !in n.output ==> Clean(w, s + [v])
    ensures Unrepeated(w, s) && v !in n.delivered ==> Unrepeated(w, s + [v])
  {
    assert v.round > 0;
    hide Went, OnCertificate, V, Quartet, Fits;
    m := RunOne(w, s, n, v);
    var leader := OnCertificateCases(Quartet(), n, v);
  }

  /** A certificate recorded before anything is committed. */
  lemma RecordIdle(w: World, s: seq<Vertex>, n: Node, v: Vertex) returns (m: Node)
    requires Went(w, s, n) && Clean(w, s) && Unrepeated(w, s) && Idle(n) && Holds(n.view.dag, n.delivered)
    requires Fits(w, v, n.delivered) && v !in n.delivered
    requires Quartet().committee.Valid()
    requires forall x :: x in n.delivered && x.round == v.round && x.author == v.author ==> x == v
    requires v.round == 1 ||
      forall x :: x in n.delivered && x.round + 1 == v.round ==> x.author != Quartet().committee.Leader(x.round)
    ensures Went(w, s + [v], m) && Clean(w, s + [v]) && Unrepeated(w, s + [v]) && Idle(m)
    ensures m.delivered == n.delivered + {v} && Holds(m.view.dag, m.delivered)
  {
    assert v.round > 0;
    HoldsInsert(n.view.dag, n.delivered, v);
    if v.round > 1 {
      LeaderMissing(Quartet().committee, Insert(n.view.dag, v), n.delivered + {v}, v.round - 1);
    }
    ReceivedParts(n, v);
    hide Went, Clean, Unrepeated, V, Quartet, Fits, Received;
    m := RecordOne(w, s, n, v);
  }

  lemma NoPastLeaders(c: Committee, view: View, leader: Vertex)
    requires c.Valid()
    requires leader.round == view.lastRound + 1 ||
      (leader.round == view.lastRound + 2 && LeaderAt(c, view.dag, leader.round - 1) == None)
    ensures OrderLeaders(c, view, leader) == [leader]
  {
    assert PastLeaders(c, view.dag, view.lastRound, leader, view.lastRound) == [];
  }

  /** A commit of a single leader. */
  lemma CommitOne(cfg: Setup, n: Node, leader: Vertex)
    requires cfg.committee.Valid()
    requires OrderLeaders(cfg.committee, n.view, leader) == [leader]
    ensures var batch := OrderDag(n.view, leader, cfg.gcDepth);
      var m := Commit(cfg, n, leader);
      && m.output == n.output + batch && m.view == UpdateAll(n.view, batch, cfg.gcDepth)
      && m.leaders == n.leaders + [leader] && m.delivered == n.delivered
  {
    hide OrderDag, UpdateAll, OrderLeaders;
    assert Reverse([leader]) == [leader];
    var batch := OrderDag(n.view, leader, cfg.gcDepth);
    assert [leader][1..] == [];
    var u := UpdateAll(n.view, batch, cfg.gcDepth);
    assert CommitAll(u, [], cfg.gcDepth) == Batch(u, []);
    assert batch + [] == batch;
  }

  /** The leader of the round below is committed as soon as the certificate gives it enough support. */
  lemma CommitsBelow(cfg: Setup, n: Node, v: Vertex, leader: Vertex)
    requires cfg.committee.Valid() && v.round > 0 && v.round - 1 > n.view.lastRound
    requires LeaderAt(cfg.committee, Insert(n.view.dag, v), v.round - 1) == Some(leader)
    requires leader.Digest() in v.parents
    requires cfg.committee.Weight({v.author}) >= cfg.committee.ValidityThreshold()
    ensures OnCertificate(cfg, n, v) == Commit(cfg, Received(n, v), leader)
  {
    hide Commit;
    var row := Insert(n.view.dag, v)[v.round];
    assert v.author in Supporters(row, leader.Digest());
    WeightMonotone(cfg.committee, {v.author}, Supporters(row, leader.Digest()));
  }

  /** `m` comes from `n` by recording `v` and committing `leader` alone. */
  ghost predicate CommitsOnly(n: Node, v: Vertex, leader: Vertex, m: Node) {
    var view := View(n.view.lastRound, n.view.last, Insert(n.view.dag, v));
    var batch := OrderDag(view, leader, 50);
    && m.output == n.output + batch && m.view == UpdateAll(view, batch, 50)
    && m.leaders == n.leaders + [leader] && m.delivered == n.delivered + {v}
  }

  lemma CommitStep(n: Node, v: Vertex, leader: Vertex)
    requires Quartet().committee.Valid() && WellKeyed(n.view.dag)
    requires v.author == 0 && v.round == leader.round + 1 && leader.Digest() in v.parents
    requires leader.author == leader.round % 4 && Has(n.view.dag, leader)
    requires leader.round == n.view.lastRound + 1 ||
      (leader.round == n.view.lastRound + 2 && LeaderAt(Quartet().committee, n.view.dag, leader.round - 1) == None)
    ensures CommitsOnly(n, v, leader, OnCertificate(Quartet(), n, v))
  {
    LeadersAre(leader.round);
    Stakes({0});
    InsertHas(n.view.dag, v, leader);
    InsertKeeps(n.view.dag, v, leader.round - 1);
    assert Quartet().gcDepth == 50;
    hide Commit, OnCertificate, Received, OrderDag, UpdateAll, Quartet, Insert;
    LeaderHeld(Quartet().committee, Insert(n.view.dag, v), leader);
    ReceivedParts(n, v);
    CommitsBelow(Quartet(), n, v, leader);
    NoPastLeaders(Quartet().committee, Received(n, v).view, leader);
    CommitOne(Quartet(), Received(n, v), leader);
  }

  lemma InsertKeeps(dag: Dag, v: Vertex, r: int)
    requires v.round != r
    ensures r in Insert(dag, v) <==> r in dag
    ensures r in dag ==> Insert(dag, v)[r] == dag[r]
  {}

  // ---------- what a run has fixed ----------

  /** What the invariants say of a clean run, part by part. */
  ghost predicate Settled(n: Node) {
    && WellKeyed(n.view.dag)
    && (forall x :: x in n.output ==> x in n.delivered && x.author in n.view.last && x.round <= n.view.last[x.author])
    && (forall a :: a in n.view.last ==>
          && n.view.last[a] <= n.view.lastRound
          && (n.view.last[a] == 0 || exists x :: x in n.output && x.author == a && x.round == n.view.last[a]))
    && n.view.lastRound == (if n.leaders == [] then 0 else n.leaders[|n.leaders| - 1].round)
    && (forall x :: x in n.delivered && x.round > n.view.lastRound ==> Has(n.view.dag, x))
  }

  lemma Settles(w: World, s: seq<Vertex>, n: Node)
    requires Went(w, s, n) && Clean(w, s)
    ensures Settled(n)
  {
    ExecCounted(w, Deliver(s));
    ExecInv(w, Deliver(s));
  }

  /** The author has had nothing after genesis output. */
  ghost predicate Untouched(n: Node, a: Author) {
    forall x :: x in n.output && x.author == a ==> x.round == 0
  }

  lemma UntouchedOpen(n: Node, x: Vertex)
    requires Settled(n) && Untouched(n, x.author) && x.round > 0
    ensures !Committed(n.view.last, x)
  {}

  lemma OutputClosed(n: Node, x: Vertex, y: Vertex)
    requires Settled(n) && x in n.output && x.author == y.author && y.round < x.round
    ensures !Committed(n.view.last, y)
  {}

  // ---------- what a batch holds ----------

  lemma PickedNext(view: View, leader: Vertex, x: Vertex, y: Vertex)
    requires WellKeyed(view.dag) && Reaches(Open(view), leader, x)
    requires Steps(x, y) && Has(view.dag, y) && !Committed(view.last, y)
    ensures Reaches(Open(view), leader, y)
  {
    OpenHas(view, y);
    ReachesParent(Open(view), leader, x, y);
  }

  lemma Picked(view: View, leader: Vertex, y: Vertex)
    requires WellKeyed(view.dag) && Reaches(Open(view), leader, y) && y.round + 50 >= view.lastRound
    ensures y in OrderDag(view, leader, 50)
  {
    OrderDagExact(view, leader, 50);
  }

  /** A certificate one round below the leader is in the batch only if the leader lists it; one further below
      only if it is in the dag. */
  lemma NotPicked(view: View, leader: Vertex, y: Vertex)
    requires WellKeyed(view.dag) && y != leader
    requires y.round >= leader.round || (y.round + 1 == leader.round && !Steps(leader, y)) || !Has(view.dag, y)
    ensures y !in OrderDag(view, leader, 50)
  {
    OrderDagExact(view, leader, 50);
    OpenHas(view, y);
    if Reaches(Open(view), leader, y) {
      ReachesDescends(Open(view), leader, y);
      var p: Vertex :| Steps(p, y) && Reaches(Open(view), leader, p);
      ReachesDescends(Open(view), leader, p);
      assert p.round == leader.round;
    }
  }

  // ---------- the runs ----------

  /** Authority 2's first certificate arrives before anything is committed, or late. */
  function Early(early: bool): set<Vertex> {
    var first := Four() + {V(1, 0)};
    (if early then first + {V(1, 2)} else first) + {V(2, 0)} + {V(2, 2)}
  }

  lemma Parts(r: Round, a: Author)
    ensures V(r, a).round == r && V(r, a).author == a
  {}

  lemma FourIs()
    ensures forall x :: x in Four() ==> x.round == 0 && x.author < 4
    ensures forall a :: 0 <= a < 4 ==> V(0, a) in Four()
  {}

  /** A run of the whole world that has committed nothing and has no leader of round 1. */
  ghost predicate Begun(s: seq<Vertex>, n: Node) {
    && Went(FullWorld(), s, n) && Clean(FullWorld(), s) && Unrepeated(FullWorld(), s)
    && Idle(n) && Holds(n.view.dag, n.delivered)
    && forall x :: x in n.delivered ==> x == V(x.round, x.author) && !(x.round == 1 && x.author == 1)
  }

  lemma FitsFull(r: Round, a: Author, s: set<Vertex>)
    requires Present(Full, r, a) && r > 0
    requires V(r - 1, 0) in s && forall d :: d in More(r, a) ==> V(r - 1, d.origin) in s
    ensures Fits(FullWorld(), V(r, a), s)
  {
    hide V, More;
    FitsWith(FullWorld(), Full, r, a, s);
  }

  lemma BeginOne(s: seq<Vertex>, n: Node, r: Round, a: Author) returns (m: Node)
    requires Begun(s, n) && (r == 1 || r == 2) && (a == 0 || a == 2) && V(r - 1, 0) in n.delivered &&
      V(r, a) !in n.delivered
    ensures Begun(s + [V(r, a)], m) && m.delivered == n.delivered + {V(r, a)}
  {
    hide Went, Clean, Unrepeated, Idle, Holds, Fits, V, FullWorld, Quartet;
    LeadersAre(1);
    Parts(r, a);
    FitsFull(r, a, n.delivered);
    m := RecordIdle(FullWorld(), s, n, V(r, a));
  }

  lemma Opening(early: bool) returns (s: seq<Vertex>, n: Node)
    ensures Begun(s, n) && n.delivered == Early(early)
  {
    hide Begun, V, FullWorld, Four;
    FullVotes();
    FourIs();
    Parts(1, 0);
    Parts(1, 2);
    Parts(2, 0);
    Parts(2, 2);
    n := Start(FullWorld());
    assert Begun([], n) by { BegunStart(n); }
    n := BeginOne([], n, 1, 0);
    s := [] + [V(1, 0)];
    if early {
      n := BeginOne(s, n, 1, 2);
      s := s + [V(1, 2)];
    }
    n := BeginOne(s, n, 2, 0);
    s := s + [V(2, 0)];
    n := BeginOne(s, n, 2, 2);
    s := s + [V(2, 2)];
  }

  lemma BegunStart(n: Node)
    requires Went(FullWorld(), [], n) && Clean(FullWorld(), []) && Unrepeated(FullWorld(), [])
    requires Idle(n) && n.delivered == Four() && Holds(n.view.dag, Four())
    ensures Begun([], n)
  {
    hide Went, Clean, Unrepeated, Idle, Holds;
  }

  // ---------- the first commit ----------

  /** The leader of round 2 has been committed; authority 2's first certificate is not in the dag. */
  ghost predicate First(early: bool, s: seq<Vertex>, n: Node) {
    && Went(FullWorld(), s, n) && Clean(FullWorld(), s) && Unrepeated(FullWorld(), s) && Settled(n)
    && n.delivered == Early(early) + {V(3, 0)} && n.leaders == [V(2, 2)]
    && V(2, 2) in n.output && V(1, 2) !in n.output && !Has(n.view.dag, V(1, 2))
    && Untouched(n, 1) && Untouched(n, 3)
  }

  lemma EarlyIs(early: bool, x: Vertex)
    requires x in Early(early) + {V(3, 0)}
    ensures x.author == 1 || x.author == 3 ==> x.round == 0
  {}

  lemma EarlyHolds(early: bool)
    ensures V(2, 0) in Early(early) && V(2, 2) in Early(early) && V(3, 0) !in Early(early)
  {}

  lemma MoreOfThree()
    ensures More(3, 0) == [At(2, 2)] && At(2, 2).origin == 2
  {}

  /** What the commit leaves of the two certificates of authority 2. */
  lemma FirstBatch(n: Node, m: Node)
    requires Idle(n) && WellKeyed(n.view.dag) && Has(n.view.dag, V(2, 2))
    requires CommitsOnly(n, V(3, 0), V(2, 2), m) && Settled(m)
    ensures V(2, 2) in m.output && V(1, 2) !in m.output && !Has(m.view.dag, V(1, 2))
  {
    var view := View(n.view.lastRound, n.view.last, Insert(n.view.dag, V(3, 0)));
    var batch := OrderDag(view, V(2, 2), 50);
    Links(2, 2, 1, 2);
    Parts(1, 2);
    Parts(3, 0);
    InsertHas(n.view.dag, V(3, 0), V(2, 2));
    InsertKeyed(n.view.dag, V(3, 0));
    assert More(2, 2) == [];
    hide V, Insert, OrderDag, UpdateAll, More;
    LeaderComesLast(view, V(2, 2), 50);
    NotPicked(view, V(2, 2), V(1, 2));
    assert V(2, 2) in batch;
    GonePast(view, batch, V(2, 2), V(1, 2), m);
  }

  lemma InsertKeyed(dag: Dag, v: Vertex)
    requires WellKeyed(dag)
    ensures WellKeyed(Insert(dag, v))
  {}

  /** A certificate below one of its author's in the batch is gone afterwards. */
  lemma GonePast(view: View, batch: seq<Vertex>, x: Vertex, y: Vertex, m: Node)
    requires WellKeyed(view.dag) && x in batch && x.author == y.author && y.round < x.round
    requires m.view == UpdateAll(view, batch, 50) && Settled(m) && x in m.output
    ensures !Has(m.view.dag, y)
  {
    if Has(m.view.dag, y) {
      UpdateAllDrops(view, batch, 50, y);
    }
  }

  lemma BegunReady(s: seq<Vertex>, n: Node, early: bool)
    requires Begun(s, n) && n.delivered == Early(early)
    ensures Went(FullWorld(), s, n) && Clean(FullWorld(), s) && Unrepeated(FullWorld(), s) && Idle(n) &&
      WellKeyed(n.view.dag)
    ensures Fits(FullWorld(), V(3, 0), n.delivered) && V(3, 0) !in n.delivered
    ensures V(3, 0) !in n.output && Has(n.view.dag, V(2, 2))
    ensures Quartet().committee.Valid() && LeaderAt(Quartet().committee, n.view.dag, 1) == None
  {
    hide V, FullWorld, Quartet, Went, Clean, Unrepeated, Fits, Early, More;
    EarlyHolds(early);
    MoreOfThree();
    FitsFull(3, 0, n.delivered);
    LeadersAre(1);
    LeaderMissing(Quartet().committee, n.view.dag, n.delivered, 1);
  }

  lemma FirstCommit(early: bool) returns (s: seq<Vertex>, n: Node)
    ensures First(early, s, n)
  {
    hide Begun, V, FullWorld, Quartet, Went, Clean, Unrepeated, Fits, Idle, CommitsOnly, OnCertificate, Settled,
      Early, Untouched;
    var before, n0 := Opening(early);
    BegunReady(before, n0, early);
    n := RunOne(FullWorld(), before, n0, V(3, 0));
    FirstStep(n0);
    s := before + [V(3, 0)];
    NotStaleYet(n0, V(3, 0));
    Settles(FullWorld(), s, n);
    FirstBatch(n0, n);
    CommitsOnlyParts(n0, V(3, 0), V(2, 2), n);
    UntouchedNew(early, n);
    assert [] + [V(2, 2)] == [V(2, 2)];
  }

  lemma FirstStep(n: Node)
    requires Idle(n) && WellKeyed(n.view.dag) && Has(n.view.dag, V(2, 2))
    requires Quartet().committee.Valid() && LeaderAt(Quartet().committee, n.view.dag, 1) == None
    ensures CommitsOnly(n, V(3, 0), V(2, 2), OnCertificate(Quartet(), n, V(3, 0))) && n.leaders == []
  {
    hide V, Quartet, CommitsOnly, OnCertificate;
    Links(3, 0, 2, 2);
    Parts(2, 2);
    CommitStep(n, V(3, 0), V(2, 2));
  }

  lemma NotStaleYet(n: Node, v: Vertex)
    requires v !in n.output
    ensures !Stale(n, v)
  {}

  lemma CommitsOnlyParts(n: Node, v: Vertex, leader: Vertex, m: Node)
    requires CommitsOnly(n, v, leader, m)
    ensures m.leaders == n.leaders + [leader] && m.delivered == n.delivered + {v}
  {}

  lemma UntouchedNew(early: bool, n: Node)
    requires Settled(n) && n.delivered == Early(early) + {V(3, 0)}
    ensures Untouched(n, 1) && Untouched(n, 3)
  {
    forall x | x in n.output && (x.author == 1 || x.author == 3) ensures x.round == 0 {
      EarlyIs(early, x);
    }
  }

  // ---------- what arrives after the first commit ----------

  /** After the first commit; the vertices in `held` are in the dag. */
  ghost predicate Middle(s: seq<Vertex>, n: Node, held: set<Vertex>) {
    && Went(FullWorld(), s, n) && Clean(FullWorld(), s) && Unrepeated(FullWorld(), s)
    && Settled(n) && n.leaders == [V(2, 2)]
    && V(2, 2) in n.output && V(1, 2) !in n.output && Untouched(n, 1) && Untouched(n, 3)
    && forall x :: x in held ==> Has(n.view.dag, x) && x == V(x.round, x.author)
  }

  lemma FirstIsMiddle(early: bool, s: seq<Vertex>, n: Node)
    requires First(early, s, n)
    ensures Middle(s, n, {}) && n.view.lastRound == 2
    ensures {V(0, 0), V(1, 0), V(2, 0), V(2, 2), V(3, 0)} <= n.delivered
    ensures early <==> V(1, 2) in n.delivered
    ensures {V(2, 3), V(3, 3), V(2, 1), V(3, 1), V(4, 0)} !! n.delivered
    ensures !Has(n.view.dag, V(1, 2))
  {
    FirstKnows(early);
    hide Went, Clean, Unrepeated, Settled, Untouched, FullWorld;
    Parts(2, 2);
    assert Settled(n) ==> n.view.lastRound == 2 by { LastOf(n); }
  }

  lemma FirstKnows(early: bool)
    ensures var s := Early(early) + {V(3, 0)};
      && {V(0, 0), V(1, 0), V(2, 0), V(2, 2), V(3, 0)} <= s && (early <==> V(1, 2) in s)
      && {V(2, 3), V(3, 3), V(2, 1), V(3, 1), V(4, 0)} !! s
  {}

  lemma LastOf(n: Node)
    requires Settled(n) && n.leaders != []
    ensures n.view.lastRound == n.leaders[|n.leaders| - 1].round
  {}

  lemma HeldInsert(dag: Dag, held: set<Vertex>, r: Round, a: Author)
    requires forall x :: x in held ==> Has(dag, x) && x == V(x.round, x.author)
    ensures forall x :: x in held + {V(r, a)} ==> Has(Insert(dag, V(r, a)), x) && x == V(x.round, x.author)
    ensures Has(Insert(dag, V(r, a)), V(1, 2)) <==> Has(dag, V(1, 2)) || (r == 1 && a == 2)
  {
    Parts(r, a);
    Parts(1, 2);
    hide V;
    forall x | x in held ensures Has(Insert(dag, V(r, a)), x) {
      InsertHas(dag, V(r, a), x);
    }
    InsertHas(dag, V(r, a), V(1, 2));
    InsertHas(dag, V(r, a), V(r, a));
  }

  lemma MiddleOne(s: seq<Vertex>, n: Node, held: set<Vertex>, r: Round, a: Author) returns (m: Node)
    requires Middle(s, n, held) && n.view.lastRound == 2 && 0 < r <= 3 && Present(Full, r, a)
    requires V(r, a) !in n.output && V(r, a) !in n.delivered
    requires V(r - 1, 0) in n.delivered && forall d :: d in More(r, a) ==> V(r - 1, d.origin) in n.delivered
    ensures Middle(s + [V(r, a)], m, held + {V(r, a)}) && m.view.lastRound == 2 && m.output == n.output
    ensures m.delivered == n.delivered + {V(r, a)}
    ensures Has(m.view.dag, V(1, 2)) <==> Has(n.view.dag, V(1, 2)) || (r == 1 && a == 2)
  {
    hide Went, Clean, Unrepeated, Settled, Fits, V, FullWorld, Quartet, Received, Has, Insert, More;
    LeadersAre(1);
    Parts(r, a);
    FitsFull(r, a, n.delivered);
    m := RecordOne(FullWorld(), s, n, V(r, a));
    Settles(FullWorld(), s + [V(r, a)], m);
    ReceivedParts(n, V(r, a));
    HeldInsert(n.view.dag, held, r, a);
  }

  lemma UntouchedNotOut(n: Node, r: Round, a: Author)
    requires Untouched(n, a) && r > 0
    ensures V(r, a) !in n.output
  {
    Parts(r, a);
  }

  lemma MoreLists()
    ensures More(1, 2) == [] && More(5, 0) == [] && More(2, 1) == [At(1, 2)] && More(2, 3) == [At(1, 2)]
    ensures More(3, 3) == [At(2, 2), At(2, 3)] && More(3, 1) == [At(2, 1)] && More(4, 0) == [At(3, 3), At(3, 1)]
    ensures forall r: Round, a: Author :: At(r, a).origin == a
  {}

  function Arrived(): set<Vertex> {
    {V(2, 3), V(3, 3), V(2, 1), V(3, 1)}
  }

  lemma Gathered(early: bool) returns (s: seq<Vertex>, n: Node, held: set<Vertex>)
    ensures Middle(s, n, held) && n.view.lastRound == 2 && Arrived() <= held
    ensures V(3, 0) in n.delivered && V(3, 3) in n.delivered && V(3, 1) in n.delivered && V(1, 2) in n.delivered
    ensures V(4, 0) !in n.delivered
    ensures Has(n.view.dag, V(1, 2)) <==> !early
  {
    hide Middle, First, V, Untouched, Has, More, At;
    MoreLists();
    Parts(1, 2);
    Parts(2, 3);
    Parts(3, 3);
    Parts(2, 1);
    Parts(3, 1);
    Parts(4, 0);
    s, n := FirstCommit(early);
    FirstIsMiddle(early, s, n);
    held := {};
    if !early {
      MiddleParts(s, n, held);
      n := MiddleOne(s, n, held, 1, 2);
      s, held := s + [V(1, 2)], held + {V(1, 2)};
    }
    s, n, held := GatherFour(s, n, held);
  }

  lemma MiddleParts(s: seq<Vertex>, n: Node, held: set<Vertex>)
    requires Middle(s, n, held)
    ensures V(1, 2) !in n.output && Untouched(n, 1) && Untouched(n, 3)
  {}

  lemma GatherFour(s0: seq<Vertex>, n0: Node, held0: set<Vertex>) returns (s: seq<Vertex>, n: Node, held: set<Vertex>)
    requires Middle(s0, n0, held0) && n0.view.lastRound == 2
    requires {V(1, 0), V(2, 0), V(2, 2), V(3, 0), V(1, 2)} <= n0.delivered
    requires {V(2, 3), V(3, 3), V(2, 1), V(3, 1), V(4, 0)} !! n0.delivered
    ensures Middle(s, n, held) && n.view.lastRound == 2 && Arrived() <= held
    ensures V(3, 0) in n.delivered && V(3, 3) in n.delivered && V(3, 1) in n.delivered && V(1, 2) in n.delivered
    ensures V(4, 0) !in n.delivered
    ensures Has(n.view.dag, V(1, 2)) <==> Has(n0.view.dag, V(1, 2))
  {
    hide Middle, V, Untouched, Has, More, At;
    MoreLists();
    MiddleParts(s0, n0, held0);
    s, n, held := s0, n0, held0;
    Parts(2, 3);
    Parts(3, 3);
    Parts(2, 1);
    Parts(3, 1);
    Parts(4, 0);
    UntouchedNotOut(n, 2, 3);
    UntouchedNotOut(n, 3, 3);
    UntouchedNotOut(n, 2, 1);
    UntouchedNotOut(n, 3, 1);
    n := MiddleOne(s, n, held, 2, 3);
    s, held := s + [V(2, 3)], held + {V(2, 3)};
    n := MiddleOne(s, n, held, 3, 3);
    s, held := s + [V(3, 3)], held + {V(3, 3)};
    n := MiddleOne(s, n, held, 2, 1);
    s, held := s + [V(2, 1)], held + {V(2, 1)};
    n := MiddleOne(s, n, held, 3, 1);
    s, held := s + [V(3, 1)], held + {V(3, 1)};
  }

  // ---------- the second commit ----------

  /** The leader of round 3 has been committed too, with authority 2's first certificate if that was late. */
  ghost predicate Second(early: bool, s: seq<Vertex>, n: Node) {
    && Went(FullWorld(), s, n) && Clean(FullWorld(), s) && Unrepeated(FullWorld(), s)
    && Settled(n) && n.leaders == [V(2, 2), V(3, 3)]
    && n.output != [] && n.output[|n.output| - 1] == V(3, 3)
    && V(2, 2) in n.output && V(2, 3) in n.output && (V(1, 2) in n.output <==> !early) && Untouched(n, 1)
    && V(1, 2) in n.delivered && V(4, 0) in n.delivered
    && Has(n.view.dag, V(2, 1)) && Has(n.view.dag, V(3, 1))
  }

  lemma InWorld(w: World, s: seq<Vertex>, n: Node)
    requires Went(w, s, n)
    ensures forall x :: Has(n.view.dag, x) ==> Has(w.dag, x)
  {
    ExecInv(w, Deliver(s));
  }

  /** An entry of an author that has nothing output survives a commit. */
  lemma Survives(w: World, s: seq<Vertex>, n: Node, v: Vertex, leader: Vertex, m: Node, x: Vertex)
    requires Went(w, s, n) && Fits(w, v, n.delivered) && CommitsOnly(n, v, leader, m) && Settled(m)
    requires Has(n.view.dag, x) && x.round != v.round && Untouched(m, x.author) && x.round + 50 >= m.view.lastRound
    ensures Has(m.view.dag, x)
  {
    ExecInv(w, Deliver(s));
    InsertHas(n.view.dag, v, x);
    var view := View(n.view.lastRound, n.view.last, Insert(n.view.dag, v));
    assert view == n.view.(dag := Insert(n.view.dag, v));
    hide Went, Insert, OrderDag, UpdateAll;
    DeliverSound(w, n.view, n.delivered, v);
    UpdateAllKeeps(w, view, n.delivered + {v}, OrderDag(view, leader, 50), 50, x);
  }

  lemma RoundOne(x: Vertex)
    requires Has(FullWorld().dag, x) && x.author == 1
    ensures x == V(x.round, 1) && (x.round == 0 || x.round == 2 || x.round == 3)
  {
    DagOfHas(Full, x);
  }

  lemma InBatch(view: View, leader: Vertex, x: Vertex)
    requires WellKeyed(view.dag) && x in OrderDag(view, leader, 50) && x != leader
    ensures Has(view.dag, x)
  {
    hide OrderDag;
    OrderDagExact(view, leader, 50);
    OpenHas(view, x);
  }

  /** Nothing of authority 1 is in the batch of round 3's leader. */
  lemma NoneOfOne(view: View, x: Vertex)
    requires WellKeyed(view.dag) && forall y :: Has(view.dag, y) ==> Has(FullWorld().dag, y)
    requires x in OrderDag(view, V(3, 3), 50) && x.author == 1
    ensures x.round == 0
  {
    hide FullWorld, OrderDag, V, Reaches, Has, Steps;
    Parts(3, 3);
    InBatch(view, V(3, 3), x);
    RoundOne(x);
    if x.round > 0 {
      Links(3, 3, x.round, 1);
      NotPicked(view, V(3, 3), x);
    }
  }

  lemma ViewAfter(s: seq<Vertex>, n: Node, v: Vertex) returns (view: View)
    requires Went(FullWorld(), s, n) && Settled(n) && Has(FullWorld().dag, v)
    ensures view == View(n.view.lastRound, n.view.last, Insert(n.view.dag, v)) && WellKeyed(view.dag)
    ensures forall y :: Has(view.dag, y) ==> Has(FullWorld().dag, y)
    ensures forall y :: Has(n.view.dag, y) && y.round != v.round ==> Has(view.dag, y)
    ensures forall y :: Has(view.dag, y) && y != v ==> Has(n.view.dag, y)
  {
    InsertKeyed(n.view.dag, v);
    InWorld(FullWorld(), s, n);
    view := View(n.view.lastRound, n.view.last, Insert(n.view.dag, v));
    forall y
      ensures Has(view.dag, y) <==> y == v || (Has(n.view.dag, y) && !(y.round == v.round && y.author == v.author))
    {
      InsertHas(n.view.dag, v, y);
    }
  }

  /** What the batch holds of authorities 2 and 3. */
  lemma SecondBatch(early: bool, n: Node, view: View)
    requires Settled(n) && V(2, 2) in n.output && Untouched(n, 3) && n.view.lastRound == 2
    requires view.last == n.view.last && view.lastRound == 2 && WellKeyed(view.dag)
    requires Has(view.dag, V(2, 3)) && (Has(view.dag, V(1, 2)) <==> !early)
    ensures V(2, 3) in OrderDag(view, V(3, 3), 50) && (V(1, 2) in OrderDag(view, V(3, 3), 50) <==> !early)
  {
    hide V, OrderDag, Has, Settled, Steps, Untouched, Committed, Reaches, More, At;
    MoreLists();
    Parts(2, 3);
    Parts(2, 2);
    Parts(1, 2);
    Parts(3, 3);
    Listed();
    UntouchedOpen(n, V(2, 3));
    OutputClosed(n, V(2, 2), V(1, 2));
    SelfReached(view, V(3, 3));
    PickedNext(view, V(3, 3), V(3, 3), V(2, 3));
    Picked(view, V(3, 3), V(2, 3));
    if early {
      NotPicked(view, V(3, 3), V(1, 2));
    } else {
      PickedNext(view, V(3, 3), V(2, 3), V(1, 2));
      Picked(view, V(3, 3), V(1, 2));
    }
  }

  lemma Listed()
    ensures Steps(V(3, 3), V(2, 3)) && Steps(V(2, 3), V(1, 2))
    ensures Steps(V(4, 0), V(3, 1)) && Steps(V(3, 1), V(2, 1)) && Steps(V(2, 1), V(1, 2))
    ensures Steps(V(4, 0), V(3, 3)) && Steps(V(5, 0), V(4, 0))
  {
    Links(3, 3, 2, 3);
    Links(2, 3, 1, 2);
    Links(4, 0, 3, 1);
    Links(3, 1, 2, 1);
    Links(2, 1, 1, 2);
    Links(4, 0, 3, 3);
    Links(5, 0, 4, 0);
  }

  lemma SelfReached(view: View, leader: Vertex)
    ensures Reaches(Open(view), leader, leader)
  {}

  lemma AboveNotOut(n: Node, v: Vertex)
    requires Settled(n) && v.round > n.view.lastRound
    ensures v !in n.output
  {}

  lemma CommitsOnlyIs(n: Node, v: Vertex, leader: Vertex, m: Node, view: View)
    requires CommitsOnly(n, v, leader, m) && view == View(n.view.lastRound, n.view.last, Insert(n.view.dag, v))
    ensures m.output == n.output + OrderDag(view, leader, 50)
  {
    hide OrderDag, UpdateAll;
  }

  /** Authority 0's certificate of round r + 1 commits the leader of round r. */
  lemma NextCommit(s: seq<Vertex>, n: Node, r: Round, a: Author) returns (m: Node)
    requires Went(FullWorld(), s, n) && Clean(FullWorld(), s) && Settled(n) &&
      Fits(FullWorld(), V(r + 1, 0), n.delivered)
    requires r == n.view.lastRound + 1 && a == r % 4 && Has(n.view.dag, V(r, a)) && Steps(V(r + 1, 0), V(r, a))
    ensures Went(FullWorld(), s + [V(r + 1, 0)], m) && Clean(FullWorld(), s + [V(r + 1, 0)]) && Settled(m)
    ensures Unrepeated(FullWorld(), s) && V(r + 1, 0) !in n.delivered ==> Unrepeated(FullWorld(), s + [V(r + 1, 0)])
    ensures CommitsOnly(n, V(r + 1, 0), V(r, a), m)
  {
    hide V, FullWorld, Quartet, Went, Clean, Unrepeated, Fits, CommitsOnly, OnCertificate, Has;
    Parts(r + 1, 0);
    Parts(r, a);
    m := RunOne(FullWorld(), s, n, V(r + 1, 0));
    CommitStep(n, V(r + 1, 0), V(r, a));
    AboveNotOut(n, V(r + 1, 0));
    NotStaleYet(n, V(r + 1, 0));
    Settles(FullWorld(), s + [V(r + 1, 0)], m);
  }

  /** The batch of round 3's leader, from a state in which everything it needs has arrived. */
  lemma SecondOutput(early: bool, s: seq<Vertex>, n: Node, m: Node)
    requires Went(FullWorld(), s, n) && Settled(n) && Fits(FullWorld(), V(4, 0), n.delivered)
    requires V(2, 2) in n.output && V(1, 2) !in n.output && Untouched(n, 1) && Untouched(n, 3) && n.view.lastRound == 2
    requires Has(n.view.dag, V(2, 3)) && (Has(n.view.dag, V(1, 2)) <==> !early)
    requires CommitsOnly(n, V(4, 0), V(3, 3), m)
    ensures m.output != [] && m.output[|m.output| - 1] == V(3, 3)
    ensures V(2, 2) in m.output && V(2, 3) in m.output && (V(1, 2) in m.output <==> !early) && Untouched(m, 1)
  {
    hide V, FullWorld, Went, Settled, CommitsOnly, OrderDag, Has, Insert;
    Parts(4, 0);
    Parts(3, 3);
    Parts(2, 3);
    Parts(1, 2);
    assert Has(FullWorld().dag, V(4, 0));
    var view := ViewAfter(s, n, V(4, 0));
    CommitsOnlyIs(n, V(4, 0), V(3, 3), m, view);
    SecondBatch(early, n, view);
    LeaderComesLast(view, V(3, 3), 50);
    forall x | x in OrderDag(view, V(3, 3), 50) && x.author == 1 ensures x.round == 0 {
      NoneOfOne(view, x);
    }
  }

  lemma MiddleHolds(s: seq<Vertex>, n: Node, held: set<Vertex>)
    requires Middle(s, n, held) && Arrived() <= held
    ensures Went(FullWorld(), s, n) && Clean(FullWorld(), s) && Unrepeated(FullWorld(), s)
    ensures Settled(n) && n.leaders == [V(2, 2)]
    ensures V(2, 2) in n.output && V(1, 2) !in n.output && Untouched(n, 1) && Untouched(n, 3)
    ensures Has(n.view.dag, V(2, 3)) && Has(n.view.dag, V(3, 3)) && Has(n.view.dag, V(2, 1)) && Has(n.view.dag, V(3, 1))
  {
    hide V, FullWorld, Went, Settled, Has;
    assert {V(2, 3), V(3, 3), V(2, 1), V(3, 1)} <= held;
  }

  lemma SecondCommit(early: bool) returns (s: seq<Vertex>, n: Node)
    ensures Second(early, s, n) && n.view.lastRound == 3
  {
    hide V, FullWorld, Went, Clean, Unrepeated, Settled, Fits, CommitsOnly, Has, Steps, Middle, Untouched, More, At;
    var before, n0, held := Gathered(early);
    MiddleHolds(before, n0, held);
    MoreLists();
    FitsFull(4, 0, n0.delivered);
    Listed();
    n := NextCommit(before, n0, 3, 3);
    s := before + [V(4, 0)];
    SecondOutput(early, before, n0, n);
    CommitsOnlyParts(n0, V(4, 0), V(3, 3), n);
    assert [V(2, 2)] + [V(3, 3)] == [V(2, 2), V(3, 3)];
    LastOf(n);
    Parts(4, 0);
    Parts(3, 3);
    Parts(2, 1);
    Parts(3, 1);
    Survives(FullWorld(), before, n0, V(4, 0), V(3, 3), n, V(2, 1));
    Survives(FullWorld(), before, n0, V(4, 0), V(3, 3), n, V(3, 1));
  }

  // ---------- the certificate is delivered again ----------

  /** What the batch of round 4's leader holds of authority 2. */
  lemma ThirdBatch(n: Node, view: View)
    requires Settled(n) && V(2, 2) in n.output && Untouched(n, 1) && n.view.lastRound == 3
    requires view.last == n.view.last && view.lastRound == 3 && WellKeyed(view.dag)
    requires Has(view.dag, V(3, 1)) && Has(view.dag, V(2, 1)) && Has(view.dag, V(1, 2))
    ensures V(1, 2) in OrderDag(view, V(4, 0), 50)
  {
    hide V, OrderDag, Has, Settled, Steps, Untouched, Committed, Reaches, More, At;
    Parts(3, 1);
    Parts(2, 1);
    Parts(2, 2);
    Parts(1, 2);
    Listed();
    UntouchedOpen(n, V(3, 1));
    UntouchedOpen(n, V(2, 1));
    OutputClosed(n, V(2, 2), V(1, 2));
    SelfReached(view, V(4, 0));
    PickedNext(view, V(4, 0), V(4, 0), V(3, 1));
    PickedNext(view, V(4, 0), V(3, 1), V(2, 1));
    PickedNext(view, V(4, 0), V(2, 1), V(1, 2));
    Picked(view, V(4, 0), V(1, 2));
  }

  /** The parts of `Settled` that recording a certificate leaves alone. */
  lemma RecordedView(n: Node, m: Node)
    requires Settled(n) && m == Received(n, V(1, 2))
    ensures WellKeyed(m.view.dag) && m.view.last == n.view.last && m.view.lastRound == n.view.lastRound
    ensures Has(m.view.dag, V(1, 2)) && forall x :: Has(n.view.dag, x) && x.round != 1 ==> Has(m.view.dag, x)
    ensures m.output == n.output && m.delivered == n.delivered + {V(1, 2)}
  {
    hide V;
    Parts(1, 2);
    forall x ensures Has(m.view.dag, x) <==> x == V(1, 2) || (Has(n.view.dag, x) && !(x.round == 1 && x.author == 2)) {
      InsertHas(n.view.dag, V(1, 2), x);
    }
  }

  /** The commit of round 4's leader outputs the redelivered certificate. */
  lemma ThirdStep(n: Node, m: Node, last: Node)
    requires Settled(n) && V(2, 2) in n.output && Untouched(n, 1) && n.view.lastRound == 3
    requires Has(n.view.dag, V(2, 1)) && Has(n.view.dag, V(3, 1)) && V(4, 0) in n.delivered
    requires m == Received(n, V(1, 2)) && Quartet().committee.Valid() && last == OnCertificate(Quartet(), m, V(5, 0))
    ensures exists batch :: last.output == n.output + batch && V(1, 2) in batch
  {
    hide V, Quartet, Settled, Untouched, CommitsOnly, OnCertificate, Has, Insert, Received, OrderDag, Steps;
    Parts(5, 0);
    Parts(4, 0);
    Parts(3, 1);
    Parts(2, 1);
    Parts(1, 2);
    Listed();
    AboveHeld(n, V(4, 0));
    RecordedView(n, m);
    CommitStep(m, V(5, 0), V(4, 0));
    var view := View(m.view.lastRound, m.view.last, Insert(m.view.dag, V(5, 0)));
    InsertKeyed(m.view.dag, V(5, 0));
    InsertHas(m.view.dag, V(5, 0), V(3, 1));
    InsertHas(m.view.dag, V(5, 0), V(2, 1));
    InsertHas(m.view.dag, V(5, 0), V(1, 2));
    ThirdBatch(n, view);
    CommitsOnlyIs(m, V(5, 0), V(4, 0), last, view);
  }

  lemma AboveHeld(n: Node, v: Vertex)
    requires Settled(n) && v in n.delivered && v.round > n.view.lastRound
    ensures Has(n.view.dag, v)
  {}

  /** The certificate comes again after the second commit, and the next leader is committed. */
  lemma Redelivered(early: bool, s: seq<Vertex>, n: Node) returns (last: Node)
    requires Second(early, s, n) && n.view.lastRound == 3
    ensures Went(FullWorld(), s + [V(1, 2)] + [V(5, 0)], last)
    ensures early ==> Clean(FullWorld(), s + [V(1, 2)] + [V(5, 0)])
    ensures exists batch :: last.output == n.output + batch && V(1, 2) in batch
  {
    hide V, FullWorld, Quartet, Went, Clean, Unrepeated, Settled, Fits, CommitsOnly, OnCertificate, Has, Steps,
      Untouched, More, At, Received;
    MoreLists();
    LeadersAre(1);
    Parts(1, 2);
    Parts(5, 0);
    assert FirstsKnown(n) by { KnownFirsts(s, n); }
    FitsFull(1, 2, n.delivered);
    var m := RecordOne(FullWorld(), s, n, V(1, 2));
    ReceivedParts(n, V(1, 2));
    FitsFull(5, 0, m.delivered);
    last := RunOne(FullWorld(), s + [V(1, 2)], m, V(5, 0));
    AboveNotOut(n, V(5, 0));
    NotStaleYet(m, V(5, 0));
    ThirdStep(n, m, last);
  }

  predicate FirstsKnown(n: Node) {
    V(0, 0) in n.delivered
  }

  lemma KnownFirsts(s: seq<Vertex>, n: Node)
    requires Went(FullWorld(), s, n)
    ensures FirstsKnown(n)
  {
    Stakes({});
    ExecInv(FullWorld(), Deliver(s));
    assert V(0, 0) in Genesis(Quartet().committee);
  }
}
