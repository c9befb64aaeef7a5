/** What the ordering engine of consensus/src/lib.rs computes, as functions on values.
    Consensus.dfy proves the in-place code equal to these; the theorems are about them. */
module Ordering {
  import opened Config
  import opened Dag

  /** The value of `State`. */
  datatype View = View(lastRound: Round, last: map<Author, Round>, dag: Dag)

  function GenesisVertex(a: Author): Vertex {
    Vertex(0, 0, a, [])
  }

  function InitView(c: Committee): View {
    View(0, map a | a in c.Names() :: 0, map[0 := map a | a in c.Names() :: GenesisVertex(a)])
  }

  // ---------- State::update ----------

  function Max(a: nat, b: nat): nat {
    if a < b then b else a
  }

  function Touch(last: map<Author, Round>, v: Vertex): map<Author, Round> {
    last[v.author := if v.author in last then Max(last[v.author], v.round) else v.round]
  }

  /** `r` is the maximum of the map's values. */
  ghost predicate IsHighest(last: map<Author, Round>, r: Round) {
    (exists a :: a in last && last[a] == r) && forall a :: a in last ==> last[a] <= r
  }

  ghost function Highest(last: map<Author, Round>): (r: Round)
    requires last.Keys != {}
    ensures IsHighest(last, r)
    decreases |last|
  {
    var a :| a in last;
    var rest := map b | b in last && b != a :: last[b];
    assert rest.Keys == last.Keys - {a};
    assert forall b :: b in last && b != a ==> b in rest && rest[b] == last[b];
    if rest.Keys == {} then last[a]
    else
      var m := Highest(rest);
      assert exists b :: b in rest && rest[b] == m && b in last;
      Max(last[a], m)
  }

  /** One round's entries that are not below the last commit of their author. */
  function Survivors(row: map<Author, Vertex>, r: Round, last: map<Author, Round>): map<Author, Vertex> {
    map a | a in row && (a in last ==> r >= last[a]) :: row[a]
  }

  /** The single filter the nested `retain` calls amount to. */
  function Prune(dag: Dag, last: map<Author, Round>, lastRound: Round, gc: nat): Dag {
    map r | r in dag && r + gc >= lastRound && Survivors(dag[r], r, last) != map[] :: Survivors(dag[r], r, last)
  }

  ghost function UpdateView(view: View, v: Vertex, gc: nat): View {
    var last := Touch(view.last, v);
    assert v.author in last.Keys;
    var top := Highest(last);
    View(top, last, Prune(view.dag, last, top, gc))
  }

  ghost function UpdateAll(view: View, batch: seq<Vertex>, gc: nat): View
    decreases |batch|
  {
    if batch == [] then view else UpdateAll(UpdateView(view, batch[0], gc), batch[1..], gc)
  }

  // ---------- order_dag ----------

  predicate Committed(last: map<Author, Round>, v: Vertex) {
    v.author in last && last[v.author] == v.round
  }

  /** The dag without the entries the skip test calls committed. */
  function Open(view: View): Dag {
    map r | r in view.dag :: map a | a in view.dag[r] && !Committed(view.last, view.dag[r][a]) :: view.dag[r][a]
  }

  function Parent(dag: Dag, x: Vertex, d: Digest): Option<Vertex> {
    if x.round == 0 then None else Find(dag, x.round - 1, d)
  }

  datatype Stack = Stack(buffer: seq<Vertex>, seen: set<Digest>)

  /** Push the parents of `x` that are present and not yet seen, in the order listed. */
  function Push(open: Dag, x: Vertex, parents: seq<Digest>, s: Stack): (t: Stack)
    ensures s.buffer <= t.buffer && s.seen <= t.seen
    ensures t.seen - s.seen <= Digests(open)
    ensures t.buffer != s.buffer ==> t.seen != s.seen
  {
    if parents == [] then s
    else
      match Parent(open, x, parents[0])
      case Some(p) =>
        if parents[0] in s.seen then Push(open, x, parents[1..], s)
        else
          assert p.Digest() == parents[0] && parents[0] in Digests(open);
          Push(open, x, parents[1..], Stack(s.buffer + [p], s.seen + {parents[0]}))
      case None => Push(open, x, parents[1..], s)
  }

  /** Pop the top of the stack and push its parents; twice the unseen vertices plus the stack shrinks. */
  function Advance(open: Dag, s: Stack): (t: Stack)
    requires s.buffer != []
    ensures |Digests(open) - t.seen| < |Digests(open) - s.seen|
         || (|Digests(open) - t.seen| == |Digests(open) - s.seen| && |t.buffer| < |s.buffer|)
  {
    var x := s.buffer[|s.buffer| - 1];
    var t := Push(open, x, x.parents, Stack(s.buffer[..|s.buffer| - 1], s.seen));
    assert t.seen != s.seen ==> Digests(open) - t.seen < Digests(open) - s.seen by {
      if d :| d in t.seen - s.seen {
        assert d in Digests(open) - s.seen;
      }
    }
    SubsetShrinks(Digests(open) - t.seen, Digests(open) - s.seen);
    t
  }

  /** Pre-order depth-first traversal with an explicit stack. */
  function Dfs(open: Dag, s: Stack): seq<Vertex>
    decreases |Digests(open) - s.seen|, |s.buffer|
  {
    if s.buffer == [] then [] else [s.buffer[|s.buffer| - 1]] + Dfs(open, Advance(open, s))
  }

  lemma SubsetShrinks(small: set<Digest>, big: set<Digest>)
    requires small <= big
    ensures |small| <= |big| && (small < big ==> |small| < |big|)
  {
    assert big == small + (big - small);
    assert small !! (big - small);
  }

  /** `retain(|x| x.round() + gc_depth >= last_committed_round)` */
  function Window(s: seq<Vertex>, lastRound: Round, gc: nat): seq<Vertex> {
    if s == [] then []
    else (if s[0].round + gc >= lastRound then [s[0]] else []) + Window(s[1..], lastRound, gc)
  }

  /** `sort_by_key(round)`: the stable sort by round. */
  function SortByRound(s: seq<Vertex>): seq<Vertex> {
    if s == [] then [] else Place(s[0], SortByRound(s[1..]))
  }

  function Place(v: Vertex, s: seq<Vertex>): seq<Vertex> {
    if s == [] || v.round <= s[0].round then [v] + s else [s[0]] + Place(v, s[1..])
  }

  function OrderDag(view: View, leader: Vertex, gc: nat): seq<Vertex> {
    SortByRound(Window(Dfs(Open(view), Stack([leader], {})), view.lastRound, gc))
  }

  // ---------- leader, linked, order_leaders ----------

  function LeaderAt(c: Committee, dag: Dag, r: Round): Option<Vertex>
    requires c.Valid()
  {
    if r in dag && c.Leader(r) in dag[r] then Some(dag[r][c.Leader(r)]) else None
  }

  /** The leaders of rounds `r` down to `floor + 1`, each linked from the one listed before it (`from` first). */
  ghost function PastLeaders(c: Committee, dag: Dag, floor: Round, from: Vertex, r: Round): seq<Vertex>
    requires c.Valid()
    decreases r
  {
    if r <= floor then []
    else
      match LeaderAt(c, dag, r)
      case Some(p) =>
        if Reaches(dag, from, p) then [p] + PastLeaders(c, dag, floor, p, r - 1)
        else PastLeaders(c, dag, floor, from, r - 1)
      case None => PastLeaders(c, dag, floor, from, r - 1)
  }

  /** Newest first, as `order_leaders` returns them. */
  ghost function OrderLeaders(c: Committee, view: View, leader: Vertex): seq<Vertex>
    requires c.Valid()
  {
    [leader] + if leader.round == 0 then [] else PastLeaders(c, view.dag, view.lastRound, leader, leader.round - 1)
  }

  function Reverse<T>(s: seq<T>): seq<T> {
    if s == [] then [] else Reverse(s[1..]) + [s[0]]
  }

  // ---------- one commit, one event, one run ----------

  datatype Batch = Batch(view: View, sequence: seq<Vertex>)

  /** Flatten the leaders' sub-dags, oldest leader first, updating the state after every certificate. */
  ghost function CommitAll(view: View, leaders: seq<Vertex>, gc: nat): Batch
    decreases |leaders|
  {
    if leaders == [] then Batch(view, [])
    else
      var batch := OrderDag(view, leaders[0], gc);
      var rest := CommitAll(UpdateAll(view, batch, gc), leaders[1..], gc);
      Batch(rest.view, batch + rest.sequence)
  }

  datatype Header = Header(author: Author, round: Round, parents: seq<Digest>)

  datatype Event = NewHeader(header: Header) | NewCertificate(vertex: Vertex)

  datatype Setup = Setup(committee: Committee, gcDepth: nat)

  /** A consensus node, with the history the theorems talk about: certificates received (`delivered`),
      (author, round) pairs of the headers received (`heard`), authors counted by the header rule per
      round (`backers`), certificates sent out (`output`) and leaders committed, oldest first (`leaders`). */
  datatype Node = Node(view: View, votes: map<Round, nat>, output: seq<Vertex>,
                       delivered: set<Vertex>, heard: set<(Author, Round)>,
                       backers: map<Round, set<Author>>, leaders: seq<Vertex>)

  function Genesis(c: Committee): set<Vertex> {
    set a | a in c.Names() :: GenesisVertex(a)
  }

  function InitNode(cfg: Setup): Node {
    Node(InitView(cfg.committee), map[], [], Genesis(cfg.committee), {}, map[], [])
  }

  ghost function Commit(cfg: Setup, n: Node, leader: Vertex): Node
    requires cfg.committee.Valid()
  {
    var oldestFirst := Reverse(OrderLeaders(cfg.committee, n.view, leader));
    var done := CommitAll(n.view, oldestFirst, cfg.gcDepth);
    n.(view := done.view, output := n.output + done.sequence, leaders := n.leaders + oldestFirst)
  }

  /** Authors of a round's certificates that list `d` among their parents. */
  function Supporters(row: map<Author, Vertex>, d: Digest): set<Author> {
    set a | a in row && d in row[a].parents
  }

  function Received(n: Node, v: Vertex): Node {
    n.(view := n.view.(dag := Insert(n.view.dag, v)), delivered := n.delivered + {v})
  }

  /** Rule 1: f+1 stake of child certificates. */
  ghost function OnCertificate(cfg: Setup, n: Node, v: Vertex): Node
    requires cfg.committee.Valid()
  {
    var m := Received(n, v);
    if v.round == 0 || v.round - 1 <= n.view.lastRound then m
    else
      match LeaderAt(cfg.committee, m.view.dag, v.round - 1)
      case None => m
      case Some(leader) =>
        var support := cfg.committee.Weight(Supporters(m.view.dag[v.round], leader.Digest()));
        if support < cfg.committee.ValidityThreshold() then m
        else Commit(cfg, m, leader)
  }

  function Tally(votes: map<Round, nat>, r: Round): nat {
    if r in votes then votes[r] else 0
  }

  function Backers(backers: map<Round, set<Author>>, r: Round): set<Author> {
    if r in backers then backers[r] else {}
  }

  /** The state once a header above the last committed round has been counted for `leader`, or not. */
  function AfterHeader(cfg: Setup, n: Node, h: Header, leader: Vertex): Node {
    var heard := n.(heard := n.heard + {(h.author, h.round)});
    if leader.Digest() in h.parents then
      heard.(votes := n.votes[h.round := Tally(n.votes, h.round) + cfg.committee.Stake(h.author)],
             backers := n.backers[h.round := Backers(n.backers, h.round) + {h.author}])
    else heard
  }

  /** Rule 2: 2f+1 stake of child headers, counted as they arrive. */
  ghost function OnHeader(cfg: Setup, n: Node, h: Header): Node
    requires cfg.committee.Valid()
  {
    var heard := n.(heard := n.heard + {(h.author, h.round)});
    if h.round == 0 || h.round - 1 <= n.view.lastRound then heard
    else
      match LeaderAt(cfg.committee, n.view.dag, h.round - 1)
      case None => heard
      case Some(leader) =>
        var m := AfterHeader(cfg, n, h, leader);
        if Tally(m.votes, h.round) >= cfg.committee.QuorumThreshold() then Commit(cfg, m, leader) else m
  }

  ghost function Step(cfg: Setup, n: Node, e: Event): Node
    requires cfg.committee.Valid()
  {
    match e
    case NewHeader(h) => OnHeader(cfg, n, h)
    case NewCertificate(v) => OnCertificate(cfg, n, v)
  }

  /** The state after a whole run. */
  ghost function Exec(cfg: Setup, events: seq<Event>): Node
    requires cfg.committee.Valid()
  {
    if events == [] then InitNode(cfg)
    else Step(cfg, Exec(cfg, events[..|events| - 1]), events[|events| - 1])
  }
}
