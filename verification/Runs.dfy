/** Runs of one consensus node: what every step keeps. */
module Runs {
  import opened Config
  import opened Dag
  import opened Ordering
  import opened Invariants
  import opened SubDags

  // ---------- parts of the invariants ----------

  lemma WorldKeyed(w: World)
    requires WellFormed(w)
    ensures w.setup.committee.Valid() && WellKeyed(w.dag)
  {}

  lemma SoundKeyed(w: World, view: View, delivered: set<Vertex>)
    requires Sound(w, view, delivered)
    ensures WellKeyed(view.dag) && IsHighest(view.last, view.lastRound)
  {}

  // ---------- State::update ----------

  lemma PruneHas(dag: Dag, last: map<Author, Round>, top: Round, gc: nat, v: Vertex)
    requires WellKeyed(dag)
    ensures WellKeyed(Prune(dag, last, top, gc))
    ensures Has(Prune(dag, last, top, gc), v) <==>
            Has(dag, v) && (v.author in last ==> v.round >= last[v.author]) && v.round + gc >= top
  {
    if Has(dag, v) && (v.author in last ==> v.round >= last[v.author]) {
      assert v.author in Survivors(dag[v.round], v.round, last);
    }
  }

  /** After an update the last committed round is the larger of the old one and the certificate's. */
  lemma UpdateTop(view: View, v: Vertex, gc: nat)
    requires IsHighest(view.last, view.lastRound)
    ensures var u := UpdateView(view, v, gc);
      && u.lastRound == Max(view.lastRound, v.round)
      && IsHighest(u.last, u.lastRound)
      && (forall a :: a in view.last ==> a in u.last && view.last[a] <= u.last[a])
      && v.author in u.last && v.round <= u.last[v.author]
  {
    var u := UpdateView(view, v, gc);
    var a :| a in view.last && view.last[a] == view.lastRound;
    assert a in u.last && view.lastRound <= u.last[a] <= u.lastRound;
    assert v.author in u.last && v.round <= u.last[v.author] <= u.lastRound;
    var b :| b in u.last && u.last[b] == u.lastRound;
    assert u.last[b] == v.round || u.last[b] == view.last[b];
  }

  /** An update raises its author's entry, and keeps just the certificates at or above every author's entry that
      are within the collection depth of the last committed round. */
  lemma UpdateExact(view: View, v: Vertex, gc: nat, x: Vertex)
    requires WellKeyed(view.dag) && IsHighest(view.last, view.lastRound)
    ensures var u := UpdateView(view, v, gc);
      && u.last.Keys == view.last.Keys + {v.author}
      && (forall a :: a in view.last && a != v.author ==> u.last[a] == view.last[a])
      && u.last[v.author] == Max(if v.author in view.last then view.last[v.author] else 0, v.round)
      && (Has(u.dag, x) <==>
            && Has(view.dag, x) && x.round + gc >= Max(view.lastRound, v.round)
            && (x.author in view.last ==> x.round >= view.last[x.author])
            && (x.author == v.author ==> x.round >= v.round))
      && forall r :: r in u.dag ==> u.dag[r] != map[]
  {
    var u := UpdateView(view, v, gc);
    UpdateTop(view, v, gc);
    PruneHas(view.dag, u.last, u.lastRound, gc, x);
  }

  lemma UpdateSound(w: World, view: View, delivered: set<Vertex>, v: Vertex, gc: nat)
    requires Sound(w, view, delivered)
    ensures Sound(w, UpdateView(view, v, gc), delivered)
  {
    var u := UpdateView(view, v, gc);
    UpdateTop(view, v, gc);
    forall x
      ensures Has(u.dag, x) <==>
        Has(view.dag, x) && (x.author in u.last ==> x.round >= u.last[x.author]) && x.round + gc >= u.lastRound
    {
      PruneHas(view.dag, u.last, u.lastRound, gc, x);
    }
    PruneHas(view.dag, u.last, u.lastRound, gc, v);
  }

  /** A batch moves the last committed round to its highest certificate. */
  lemma {:induction false} UpdateAllSound(w: World, view: View, delivered: set<Vertex>, batch: seq<Vertex>, gc: nat,
          top: Round)
    requires Sound(w, view, delivered)
    requires view.lastRound <= top && forall v :: v in batch ==> v.round <= top
    ensures var u := UpdateAll(view, batch, gc);
      && Sound(w, u, delivered)
      && view.lastRound <= u.lastRound <= top
      && forall v :: v in batch ==> v.round <= u.lastRound
    decreases |batch|
  {
    if batch != [] {
      UpdateSound(w, view, delivered, batch[0], gc);
      UpdateTop(view, batch[0], gc);
      UpdateAllSound(w, UpdateView(view, batch[0], gc), delivered, batch[1..], gc, top);
    }
  }

  /** Committing one leader's sub-dag moves the last committed round to the leader's round. */
  lemma BatchSound(w: World, view: View, delivered: set<Vertex>, leader: Vertex, gc: nat)
    requires Sound(w, view, delivered)
    requires leader.round > view.lastRound
    ensures var u := UpdateAll(view, OrderDag(view, leader, gc), gc);
      Sound(w, u, delivered) && u.lastRound == leader.round
  {
    var batch := OrderDag(view, leader, gc);
    LeaderComesLast(view, leader, gc);
    assert leader in batch;
    UpdateAllSound(w, view, delivered, batch, gc, leader.round);
  }

  lemma {:induction false} CommitAllSound(w: World, view: View, delivered: set<Vertex>, leaders: seq<Vertex>, gc: nat)
    requires Sound(w, view, delivered)
    requires Ascending(leaders, view.lastRound)
    ensures var done := CommitAll(view, leaders, gc).view;
      && Sound(w, done, delivered)
      && done.lastRound == if leaders == [] then view.lastRound else leaders[|leaders| - 1].round
    decreases |leaders|
  {
    if leaders != [] {
      BatchSound(w, view, delivered, leaders[0], gc);
      CommitAllSound(w, UpdateAll(view, OrderDag(view, leaders[0], gc), gc), delivered, leaders[1..], gc);
    }
  }

  // ---------- order_leaders ----------

  /** Where a walk stands after looking at round `r`. */
  ghost function WalkTo(c: Committee, dag: Dag, from: Vertex, r: Round): Vertex
    requires c.Valid()
  {
    match LeaderAt(c, dag, r)
    case Some(p) => if Reaches(dag, from, p) then p else from
    case None => from
  }

  /** One step of the walk: take the leader of the round if it is reached, and go on below. */
  lemma WalkStep(c: Committee, dag: Dag, floor: Round, from: Vertex, r: Round)
    requires c.Valid() && WellKeyed(dag) && floor < r < from.round
    ensures var next := WalkTo(c, dag, from, r);
      && PastLeaders(c, dag, floor, from, r)
           == (if next == from then [] else [next]) + PastLeaders(c, dag, floor, next, r - 1)
      && (next != from ==> LeaderAt(c, dag, r) == Some(next) && Reaches(dag, from, next))
  {}

  lemma ConcatAssociates<T>(s: seq<T>, t: seq<T>, u: seq<T>)
    ensures s + (t + u) == (s + t) + u
  {}

  /** Past leaders are leaders of their rounds, in the dag, strictly decreasing and above the floor. */
  lemma {:induction false} PastLeadersDescend(c: Committee, dag: Dag, floor: Round, from: Vertex, r: Round)
    requires c.Valid() && WellKeyed(dag)
    ensures Descending(PastLeaders(c, dag, floor, from, r), r + 1, floor)
    ensures forall p :: p in PastLeaders(c, dag, floor, from, r) ==> Has(dag, p) && p.author == c.Leader(p.round)
    decreases r
  {
    if r > floor {
      match LeaderAt(c, dag, r)
      case Some(p) =>
        if Reaches(dag, from, p) {
          PastLeadersDescend(c, dag, floor, p, r - 1);
        } else {
          PastLeadersDescend(c, dag, floor, from, r - 1);
        }
      case None =>
        PastLeadersDescend(c, dag, floor, from, r - 1);
    }
  }

  /** `s[i]` is the lowest listed leader above `p`. */
  predicate NextAbove(s: seq<Vertex>, i: nat, p: Vertex) {
    i < |s| && s[i].round > p.round && (i + 1 < |s| ==> s[i + 1].round <= p.round)
  }

  lemma WalkHere(c: Committee, dag: Dag, floor: Round, from: Vertex, p: Vertex)
    requires c.Valid() && WellKeyed(dag)
    requires floor < p.round < from.round && LeaderAt(c, dag, p.round) == Some(p)
    ensures var s := [from] + PastLeaders(c, dag, floor, from, p.round);
      NextAbove(s, 0, p) && (p in s <==> Reaches(dag, from, p))
  {
    var next := WalkTo(c, dag, from, p.round);
    WalkStep(c, dag, floor, from, p.round);
    PastLeadersDescend(c, dag, floor, next, p.round - 1);
    var rest := PastLeaders(c, dag, floor, next, p.round - 1);
    hide PastLeaders, Reaches;
    assert p !in rest;
  }

  lemma {:induction false} WalkSkips(c: Committee, dag: Dag, floor: Round, from: Vertex, r: Round, p: Vertex)
    returns (i: nat)
    requires c.Valid() && WellKeyed(dag)
    requires floor < p.round <= r < from.round && LeaderAt(c, dag, p.round) == Some(p)
    ensures var s := [from] + PastLeaders(c, dag, floor, from, r);
      NextAbove(s, i, p) && (p in s <==> Reaches(dag, s[i], p))
    decreases r
  {
    if r == p.round {
      WalkHere(c, dag, floor, from, p);
      i := 0;
    } else {
      WalkStep(c, dag, floor, from, r);
      var next := WalkTo(c, dag, from, r);
      hide PastLeaders, Reaches, LeaderAt;
      assert next == from || next.round == r;
      i := WalkSkips(c, dag, floor, next, r - 1, p);
      var rest := PastLeaders(c, dag, floor, next, r - 1);
      if next != from {
        i := i + 1;
        assert [from] + ([next] + rest) == [from, next] + rest;
      }
    }
  }

  /** `order_leaders` passes over a leader just when the next higher leader it lists is not linked to it. */
  lemma OrderLeadersExact(c: Committee, view: View, leader: Vertex, p: Vertex) returns (i: nat)
    requires c.Valid() && WellKeyed(view.dag)
    requires view.lastRound < p.round < leader.round && LeaderAt(c, view.dag, p.round) == Some(p)
    ensures var s := OrderLeaders(c, view, leader);
      NextAbove(s, i, p) && (p in s <==> Reaches(view.dag, s[i], p))
  {
    i := WalkSkips(c, view.dag, view.lastRound, leader, leader.round - 1, p);
  }

  /** An update never drops an entry above the last committed round. */
  lemma UpdateKeepsAbove(view: View, v: Vertex, gc: nat, x: Vertex)
    requires WellKeyed(view.dag)
    requires Has(view.dag, x) && x.round > UpdateView(view, v, gc).lastRound
    ensures Has(UpdateView(view, v, gc).dag, x)
  {
    var u := UpdateView(view, v, gc);
    PruneHas(view.dag, u.last, u.lastRound, gc, x);
  }

  lemma {:induction false} ReverseFacts<T>(s: seq<T>)
    ensures |Reverse(s)| == |s|
    ensures forall i :: 0 <= i < |s| ==> Reverse(s)[i] == s[|s| - 1 - i]
    ensures forall x :: x in Reverse(s) <==> x in s
  {
    if s != [] {
      ReverseFacts(s[1..]);
    }
  }

  lemma {:induction false} ReverseAppend<T>(s: seq<T>, t: seq<T>)
    ensures Reverse(s + t) == Reverse(t) + Reverse(s)
  {
    if s == [] {
      assert s + t == t;
    } else {
      assert (s + t)[1..] == s[1..] + t;
      ReverseAppend(s[1..], t);
    }
  }

  lemma ReverseAscends(s: seq<Vertex>, ceiling: nat, floor: Round)
    requires Descending(s, ceiling, floor)
    ensures Ascending(Reverse(s), floor)
  {
    ReverseFacts(s);
  }

  lemma OrderLeadersDescend(c: Committee, view: View, leader: Vertex)
    requires c.Valid() && WellKeyed(view.dag)
    requires leader.round > view.lastRound
    ensures Descending(OrderLeaders(c, view, leader), leader.round + 1, view.lastRound)
    ensures forall p :: p in OrderLeaders(c, view, leader) ==>
              p == leader || (Has(view.dag, p) && p.author == c.Leader(p.round))
  {
    PastLeadersDescend(c, view.dag, view.lastRound, leader, leader.round - 1);
  }

  /** The leaders of one commit, oldest first: ascending, above the last committed round, ending in the new leader. */
  lemma CommitLeadersAscend(c: Committee, view: View, leader: Vertex)
    requires c.Valid() && WellKeyed(view.dag)
    requires leader.round > view.lastRound
    ensures var s := Reverse(OrderLeaders(c, view, leader));
      && s != [] && s[|s| - 1] == leader
      && Ascending(s, view.lastRound)
      && forall p :: p in s ==> p == leader || (Has(view.dag, p) && p.author == c.Leader(p.round))
  {
    OrderLeadersDescend(c, view, leader);
    ReverseFacts(OrderLeaders(c, view, leader));
    ReverseAscends(OrderLeaders(c, view, leader), leader.round + 1, view.lastRound);
  }

  // ---------- one event ----------

  /** A delivered certificate extends the dag; the history above the last committed round stays complete. */
  lemma DeliverSound(w: World, view: View, delivered: set<Vertex>, v: Vertex)
    requires WellFormed(w)
    requires Sound(w, view, delivered)
    requires Has(w.dag, v) && ParentsDelivered(w, v, delivered)
    ensures Sound(w, view.(dag := Insert(view.dag, v)), delivered + {v})
  {
    var dag := Insert(view.dag, v);
    forall x ensures Has(dag, x) <==> x == v || Has(view.dag, x) {
      InsertHas(view.dag, v, x);
    }
  }

  lemma AscendingAppend(s: seq<Vertex>, t: seq<Vertex>, floor: Round, middle: Round)
    requires Ascending(s, floor) && Ascending(t, middle)
    requires middle == if s == [] then floor else s[|s| - 1].round
    ensures Ascending(s + t, floor)
  {}

  lemma CommitInv(w: World, n: Node, leader: Vertex)
    requires WellFormed(w) && Inv(w, n)
    requires Has(n.view.dag, leader) && leader.round > n.view.lastRound
    requires leader.author == w.setup.committee.Leader(leader.round)
    ensures Inv(w, Commit(w.setup, n, leader))
    ensures Commit(w.setup, n, leader).view.lastRound == leader.round
  {
    var s := Reverse(OrderLeaders(w.setup.committee, n.view, leader));
    CommitLeadersAscend(w.setup.committee, n.view, leader);
    CommitAllSound(w, n.view, n.delivered, s, w.setup.gcDepth);
    AscendingAppend(n.leaders, s, 0, n.view.lastRound);
  }

  lemma LeaderIn(w: World, n: Node, r: Round, leader: Vertex)
    requires w.setup.committee.Valid() && Inv(w, n)
    requires LeaderAt(w.setup.committee, n.view.dag, r) == Some(leader)
    ensures Has(n.view.dag, leader) && leader.round == r
    ensures leader.author == w.setup.committee.Leader(leader.round)
  {}

  /** A certificate either is only recorded or commits the leader one round below it. */
  lemma OnCertificateCases(cfg: Setup, n: Node, v: Vertex) returns (leader: Option<Vertex>)
    requires cfg.committee.Valid()
    ensures leader.None? ==> OnCertificate(cfg, n, v) == Received(n, v)
    ensures leader.None? ==>
      || v.round == 0 || v.round - 1 <= n.view.lastRound
      || LeaderAt(cfg.committee, Received(n, v).view.dag, v.round - 1) == None
      || var l := LeaderAt(cfg.committee, Received(n, v).view.dag, v.round - 1).value;
         cfg.committee.Weight(Supporters(Received(n, v).view.dag[v.round],
           l.Digest())) < cfg.committee.ValidityThreshold()
    ensures leader.Some? ==>
      && v.round > 0 && v.round - 1 > n.view.lastRound
      && LeaderAt(cfg.committee, Received(n, v).view.dag, v.round - 1) == leader
      && cfg.committee.Weight(Supporters(Received(n, v).view.dag[v.round], leader.value.Digest()))
           >= cfg.committee.ValidityThreshold()
      && OnCertificate(cfg, n, v) == Commit(cfg, Received(n, v), leader.value)
  {
    hide Commit, LeaderAt;
    leader := None;
    if v.round > 0 && v.round - 1 > n.view.lastRound {
      leader := LeaderAt(cfg.committee, Received(n, v).view.dag, v.round - 1);
      if leader.Some? && cfg.committee.Weight(Supporters(Received(n, v).view.dag[v.round], leader.value.Digest()))
           < cfg.committee.ValidityThreshold() {
        leader := None;
      }
    }
  }

  /** A header is ignored, or counted, and may then commit the leader one round below it. */
  lemma OnHeaderCases(cfg: Setup, n: Node, h: Header) returns (leader: Option<Vertex>, commits: bool)
    requires cfg.committee.Valid()
    ensures leader.None? ==> !commits && OnHeader(cfg, n, h) == n.(heard := n.heard + {(h.author, h.round)})
    ensures leader.Some? ==>
      && h.round > 0 && h.round - 1 > n.view.lastRound
      && LeaderAt(cfg.committee, n.view.dag, h.round - 1) == leader
    ensures leader.None? ==>
      h.round == 0 || h.round - 1 <= n.view.lastRound || LeaderAt(cfg.committee, n.view.dag, h.round - 1) == None
    ensures leader.Some? && !commits ==>
      && OnHeader(cfg, n, h) == AfterHeader(cfg, n, h, leader.value)
      && Tally(AfterHeader(cfg, n, h, leader.value).votes, h.round) < cfg.committee.QuorumThreshold()
    ensures leader.Some? && commits ==>
      && Tally(AfterHeader(cfg, n, h, leader.value).votes, h.round) >= cfg.committee.QuorumThreshold()
      && OnHeader(cfg, n, h) == Commit(cfg, AfterHeader(cfg, n, h, leader.value), leader.value)
  {
    hide Commit, LeaderAt, AfterHeader;
    leader, commits := None, false;
    if h.round > 0 && h.round - 1 > n.view.lastRound {
      leader := LeaderAt(cfg.committee, n.view.dag, h.round - 1);
      commits := leader.Some? &&
        Tally(AfterHeader(cfg, n, h, leader.value).votes, h.round) >= cfg.committee.QuorumThreshold();
    }
  }

  lemma CertificateCommitInv(w: World, n: Node, v: Vertex, leader: Vertex)
    requires WellFormed(w) && Inv(w, n) && Admissible(w, n, NewCertificate(v))
    requires v.round > 0 && v.round - 1 > n.view.lastRound
    requires LeaderAt(w.setup.committee, Received(n, v).view.dag, v.round - 1) == Some(leader)
    ensures Inv(w, Commit(w.setup, Received(n, v), leader))
  {
    hide Commit, Received, Admissible, Inv, WellFormed, LeaderAt;
    WorldKeyed(w);
    DeliverInv(w, n, v);
    LeaderIn(w, Received(n, v), v.round - 1, leader);
    CommitInv(w, Received(n, v), leader);
  }

  lemma CertificateInv(w: World, n: Node, v: Vertex)
    requires WellFormed(w) && Inv(w, n) && Admissible(w, n, NewCertificate(v))
    ensures Inv(w, OnCertificate(w.setup, n, v))
  {
    hide Commit, Received;
    var leader := OnCertificateCases(w.setup, n, v);
    if leader == None {
      DeliverInv(w, n, v);
    } else {
      CertificateCommitInv(w, n, v, leader.value);
    }
  }

  lemma DeliverInv(w: World, n: Node, v: Vertex)
    requires WellFormed(w) && Inv(w, n) && Admissible(w, n, NewCertificate(v))
    ensures Inv(w, Received(n, v)) && Received(n, v).view.lastRound == n.view.lastRound
  {
    hide Reaches;
    DeliverSound(w, n.view, n.delivered, v);
  }

  /** The invariant reads the view, the delivered certificates and the leaders only. */
  lemma InvFrame(w: World, n: Node, m: Node)
    requires w.setup.committee.Valid() && Inv(w, n)
    requires m.view == n.view && m.delivered == n.delivered && m.leaders == n.leaders
    ensures Inv(w, m)
  {}

  lemma AfterHeaderFrame(cfg: Setup, n: Node, h: Header, leader: Vertex)
    ensures var m := AfterHeader(cfg, n, h, leader);
      m.view == n.view && m.delivered == n.delivered && m.leaders == n.leaders && m.output == n.output
  {}

  lemma CountedInv(w: World, n: Node, h: Header, leader: Vertex)
    requires WellFormed(w) && Inv(w, n)
    ensures Inv(w, AfterHeader(w.setup, n, h, leader))
  {
    hide Commit;
    AfterHeaderFrame(w.setup, n, h, leader);
    InvFrame(w, n, AfterHeader(w.setup, n, h, leader));
  }

  lemma HeaderCommitInv(w: World, n: Node, h: Header, leader: Vertex)
    requires WellFormed(w) && Inv(w, n)
    requires h.round > 0 && h.round - 1 > n.view.lastRound
    requires LeaderAt(w.setup.committee, n.view.dag, h.round - 1) == Some(leader)
    ensures Inv(w, Commit(w.setup, AfterHeader(w.setup, n, h, leader), leader))
  {
    hide Commit, AfterHeader, Inv, WellFormed, LeaderAt;
    WorldKeyed(w);
    AfterHeaderFrame(w.setup, n, h, leader);
    CountedInv(w, n, h, leader);
    LeaderIn(w, n, h.round - 1, leader);
    CommitInv(w, AfterHeader(w.setup, n, h, leader), leader);
  }

  lemma HeaderInv(w: World, n: Node, h: Header)
    requires WellFormed(w) && Inv(w, n)
    ensures Inv(w, OnHeader(w.setup, n, h))
  {
    hide Commit, AfterHeader;
    var leader, commits := OnHeaderCases(w.setup, n, h);
    if leader == None {
      InvFrame(w, n, n.(heard := n.heard + {(h.author, h.round)}));
    } else if commits {
      HeaderCommitInv(w, n, h, leader.value);
    } else {
      CountedInv(w, n, h, leader.value);
    }
  }

  lemma StepInv(w: World, n: Node, e: Event)
    requires WellFormed(w) && Inv(w, n) && (e.NewCertificate? ==> Admissible(w, n, e))
    ensures Inv(w, Step(w.setup, n, e))
  {
    match e
    case NewCertificate(v) => CertificateInv(w, n, v);
    case NewHeader(h) => HeaderInv(w, n, h);
  }

  lemma InitInv(w: World)
    requires WellFormed(w)
    ensures Inv(w, InitNode(w.setup))
  {
    InitHighest(w.setup);
  }

  /** Every run whose certificates come after their parents keeps the invariant. */
  lemma {:induction false} ExecInv(w: World, events: seq<Event>)
    requires WellFormed(w) && CausalRun(w, events)
    ensures Inv(w, Exec(w.setup, events))
    decreases |events|
  {
    if events == [] {
      InitInv(w);
    } else {
      var before := events[..|events| - 1];
      ExecInv(w, before);
      StepInv(w, Exec(w.setup, before), events[|events| - 1]);
    }
  }

  // ---------- the history consensus expects ----------

  lemma ParentOf(w: World, v: Vertex, a: Author) returns (p: Vertex)
    requires WellFormed(w) && Has(w.dag, v) && v.round > 0 && a in ParentAuthors(v)
    ensures Has(w.dag, p) && p.author == a && Steps(v, p)
  {
    assert ParentsChecked(w, v);
    var e :| e in v.parents && e.origin == a;
    p := Find(w.dag, e.round, e).value;
  }

  /** The history of a delivered certificate has a certificate in every round below it. */
  lemma {:induction false} AncestorAt(w: World, delivered: set<Vertex>, v: Vertex, r: Round) returns (p: Vertex)
    requires WellFormed(w) && Closed(w, delivered)
    requires v in delivered && Has(w.dag, v) && r <= v.round
    ensures p in delivered && Has(w.dag, p) && p.round == r
    decreases v.round
  {
    if r == v.round {
      p := v;
    } else {
      assert ParentsChecked(w, v);
      ThresholdArithmetic(w.setup.committee);
      var a := Member(w.setup.committee, ParentAuthors(v));
      var parent := ParentOf(w, v, a);
      p := AncestorAt(w, delivered, parent, r);
    }
  }

  /** The `expect`s never fire: every round between the last committed one and a delivered certificate is
      in the dag. */
  lemma HistoryPresent(w: World, view: View, delivered: set<Vertex>, v: Vertex)
    requires WellFormed(w) && Sound(w, view, delivered)
    requires v in delivered
    ensures RoundsPresent(view.dag, view.lastRound, v.round)
  {
    forall r: Round | view.lastRound < r < v.round ensures r in view.dag {
      var p := AncestorAt(w, delivered, v, r);
    }
  }

  // ---------- what never decreases ----------

  /** The last committed round is the maximum of the per-author entries; neither has gone back. */
  ghost predicate Grown(before: View, after: View) {
    && before.lastRound <= after.lastRound
    && IsHighest(after.last, after.lastRound)
    && forall a :: a in before.last ==> a in after.last && before.last[a] <= after.last[a]
  }

  lemma {:induction false} UpdateAllGrows(view: View, batch: seq<Vertex>, gc: nat)
    requires IsHighest(view.last, view.lastRound)
    ensures Grown(view, UpdateAll(view, batch, gc))
    decreases |batch|
  {
    if batch != [] {
      UpdateTop(view, batch[0], gc);
      UpdateAllGrows(UpdateView(view, batch[0], gc), batch[1..], gc);
    }
  }

  /** Entries inside the final window and not below their author's final entry survive a batch. */
  lemma {:induction false} UpdateAllKeeps(w: World, view: View, delivered: set<Vertex>, batch: seq<Vertex>, gc: nat,
          x: Vertex)
    requires Sound(w, view, delivered)
    requires Has(view.dag, x)
    requires var u := UpdateAll(view, batch, gc);
      x.round + gc >= u.lastRound && (x.author in u.last ==> x.round >= u.last[x.author])
    ensures Has(UpdateAll(view, batch, gc).dag, x)
    decreases |batch|
  {
    if batch != [] {
      var m := UpdateView(view, batch[0], gc);
      UpdateSound(w, view, delivered, batch[0], gc);
      UpdateAllGrows(m, batch[1..], gc);
      PruneHas(view.dag, m.last, m.lastRound, gc, x);
      UpdateAllKeeps(w, m, delivered, batch[1..], gc, x);
    }
  }

  lemma {:induction false} CommitAllGrows(view: View, leaders: seq<Vertex>, gc: nat)
    requires IsHighest(view.last, view.lastRound)
    ensures Grown(view, CommitAll(view, leaders, gc).view)
    decreases |leaders|
  {
    hide UpdateAll, OrderDag, IsHighest;
    if leaders != [] {
      var batch := OrderDag(view, leaders[0], gc);
      UpdateAllGrows(view, batch, gc);
      CommitAllGrows(UpdateAll(view, batch, gc), leaders[1..], gc);
    }
  }

  lemma CommitGrows(cfg: Setup, n: Node, leader: Vertex)
    requires cfg.committee.Valid() && IsHighest(n.view.last, n.view.lastRound)
    ensures Grown(n.view, Commit(cfg, n, leader).view)
  {
    hide CommitAll, OrderLeaders, IsHighest;
    CommitAllGrows(n.view, Reverse(OrderLeaders(cfg.committee, n.view, leader)), cfg.gcDepth);
  }

  lemma StepGrows(cfg: Setup, n: Node, e: Event)
    requires cfg.committee.Valid() && IsHighest(n.view.last, n.view.lastRound)
    ensures Grown(n.view, Step(cfg, n, e).view)
  {
    hide Commit, Received, AfterHeader, IsHighest;
    match e
    case NewCertificate(v) =>
      var leader := OnCertificateCases(cfg, n, v);
      assert Received(n, v).view == n.view.(dag := Insert(n.view.dag, v)) by { ReceivedView(n, v); }
      if leader.Some? {
        CommitGrows(cfg, Received(n, v), leader.value);
      }
    case NewHeader(h) =>
      var leader, commits := OnHeaderCases(cfg, n, h);
      if leader.Some? {
        AfterHeaderFrame(cfg, n, h, leader.value);
        if commits {
          CommitGrows(cfg, AfterHeader(cfg, n, h, leader.value), leader.value);
        }
      }
  }

  lemma ReceivedView(n: Node, v: Vertex)
    ensures Received(n, v).view == n.view.(dag := Insert(n.view.dag, v))
  {}

  /** Over any run at all, the last committed round stays the maximum of the per-author entries, and
      neither it nor any of them ever decreases. */
  lemma {:induction false} ExecGrows(cfg: Setup, events: seq<Event>, i: nat)
    requires cfg.committee.Valid() && i <= |events|
    ensures Grown(Exec(cfg, events[..i]).view, Exec(cfg, events).view)
    decreases |events|
  {
    hide Step, IsHighest;
    if events == [] {
      assert events[..i] == events;
      InitHighest(cfg);
    } else {
      var before := events[..|events| - 1];
      ExecGrows(cfg, before, |before|);
      StepGrows(cfg, Exec(cfg, before), events[|events| - 1]);
      if i < |events| {
        ExecGrows(cfg, before, i);
        assert before[..i] == events[..i];
      } else {
        assert events[..i] == events;
      }
    }
  }

  lemma InitHighest(cfg: Setup)
    requires cfg.committee.Valid()
    ensures IsHighest(InitNode(cfg).view.last, InitNode(cfg).view.lastRound)
  {
    var a := cfg.committee.authorities[0].name;
    assert a in InitNode(cfg).view.last && InitNode(cfg).view.last[a] == 0;
  }
}
