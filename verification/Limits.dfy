/** Inputs the code admits on which a guarantee fails: what the run hypotheses exclude, and no more. */
module Limits {
  import opened Config
  import opened Dag
  import opened Ordering
  import opened Invariants
  import opened Once
  import opened Agreement
  import opened LimitRuns

  // ---------- a certificate arrives late at one node ----------

  lemma SecondParts(early: bool, s: seq<Vertex>, n: Node)
    requires Second(early, s, n)
    ensures Voting(FullWorld()) && FullWorld().setup == Quartet()
    ensures n == Exec(Quartet(), Deliver(s)) && ValidRun(FullWorld(), Deliver(s))
    ensures NoneStale(FullWorld(), Deliver(s)) && NoReplays(FullWorld(), Deliver(s))
    ensures n.leaders == [V(2, 2), V(3, 3)] && n.output != [] && n.output[|n.output| - 1] == V(3, 3)
    ensures V(2, 3) in n.output && (V(1, 2) in n.output <==> !early)
  {
    hide V, FullWorld, Exec, CausalRun, HeadersOnce, NoneStale, NoReplays, Settled, Untouched, Voting;
    FullVotes();
  }

  /** Sequences without repetition that end alike agree as prefixes only if they are equal. */
  lemma SameEnd(s: seq<Vertex>, t: seq<Vertex>)
    requires s != [] && s <= t && NoDup(t) && s[|s| - 1] == t[|t| - 1]
    ensures s == t
  {}

  lemma NotAlike(s: seq<Vertex>, t: seq<Vertex>, x: Vertex)
    requires s != [] && t != [] && NoDup(s) && NoDup(t) && s[|s| - 1] == t[|t| - 1]
    requires x in t && x !in s
    ensures !(s <= t) && !(t <= s)
  {
    if s <= t {
      SameEnd(s, t);
    } else if t <= s {
      SameEnd(t, s);
    }
  }

  /** Whole outputs need not agree: on two admissible runs over one world, nothing delivered again and the same
      leaders committed, a certificate is dropped by the node at which it arrives before its author's next one
      is output, and output by the node at which it arrives after that. */
  lemma OutputsDiverge() returns (w: World, events1: seq<Event>, events2: seq<Event>)
    ensures Voting(w) && ValidRun(w, events1) && NoReplays(w, events1)
    ensures ValidRun(w, events2) && NoReplays(w, events2)
    ensures Exec(w.setup, events1).leaders == Exec(w.setup, events2).leaders
    ensures var output1 := Exec(w.setup, events1).output;
      var output2 := Exec(w.setup, events2).output;
      !(output1 <= output2) && !(output2 <= output1)
  {
    hide V, FullWorld, Quartet, Exec, CausalRun, HeadersOnce, NoneStale, NoReplays, Voting, Second, NoDup;
    w := FullWorld();
    var s, n := SecondCommit(true);
    var t, m := SecondCommit(false);
    SecondParts(true, s, n);
    SecondParts(false, t, m);
    events1, events2 := Deliver(s), Deliver(t);
    VotesFit(w);
    NoDoubleCommit(w, events1);
    NoDoubleCommit(w, events2);
    NotAlike(n.output, m.output, V(1, 2));
  }

  lemma VotesFit(w: World)
    requires Voting(w)
    ensures WellFormed(w)
  {}

  // ---------- a dropped certificate is delivered again ----------

  lemma Again(early: bool) returns (s: seq<Vertex>, n: Node, last: Node, batch: seq<Vertex>)
    ensures Second(early, s, n) && Went(FullWorld(), s + [V(1, 2)] + [V(5, 0)], last)
    ensures early ==> Clean(FullWorld(), s + [V(1, 2)] + [V(5, 0)])
    ensures last.output == n.output + batch && V(1, 2) in batch
  {
    hide V, FullWorld, Went, Clean, Unrepeated, Second;
    s, n := SecondCommit(early);
    last := Redelivered(early, s, n);
    batch :| last.output == n.output + batch && V(1, 2) in batch;
  }

  lemma Twice<T>(s: seq<T>, t: seq<T>, x: T)
    requires x in s && x in t
    ensures !NoDup(s + t)
  {
    var i :| 0 <= i < |s| && s[i] == x;
    var j :| 0 <= j < |t| && t[j] == x;
    assert (s + t)[i] == (s + t)[|s| + j];
  }

  /** Output is not safe against stale redelivery: this admissible run outputs a certificate twice. */
  lemma StaleCommitsTwice() returns (w: World, events: seq<Event>)
    ensures WellFormed(w) && ValidRun(w, events)
    ensures !NoDup(Exec(w.setup, events).output)
  {
    hide V, FullWorld, Quartet, Exec, CausalRun, HeadersOnce, NoneStale, Second, NoDup, Voting;
    w := FullWorld();
    var s, n, last, batch := Again(false);
    SecondParts(false, s, n);
    events := Deliver(s + [V(1, 2)] + [V(5, 0)]);
    Twice(n.output, batch, V(1, 2));
  }

  lemma After(s: seq<Vertex>, t: seq<Vertex>, x: Vertex, y: Vertex)
    requires x in s && y in t && Steps(x, y)
    ensures !Causal(s + t)
  {
    var i :| 0 <= i < |s| && s[i] == x;
    var j :| 0 <= j < |t| && t[j] == y;
    assert (s + t)[i] == x && (s + t)[|s| + j] == y;
  }

  /** Order is not safe against redelivery of an overtaken certificate, even if nothing stale is delivered: this
      admissible run outputs a certificate after one that lists it. */
  lemma OvertakenComesLate() returns (w: World, events: seq<Event>)
    ensures WellFormed(w) && ValidRun(w, events) && NoneStale(w, events)
    ensures !Causal(Exec(w.setup, events).output)
  {
    hide V, FullWorld, Quartet, Exec, CausalRun, HeadersOnce, NoneStale, Second, Causal, Voting, Steps;
    w := FullWorld();
    var s, n, last, batch := Again(true);
    SecondParts(true, s, n);
    events := Deliver(s + [V(1, 2)] + [V(5, 0)]);
    Listed();
    After(n.output, batch, V(2, 3), V(1, 2));
  }

  // ---------- a header is received several times ----------

  /** Counting a header keeps the tallies equal to the stake of the authors counted, just when its author
      was not counted for that round before, or has no stake. */
  lemma RepeatExact(cfg: Setup, n: Node, h: Header, leader: Vertex)
    requires cfg.committee.Valid() && TallySums(cfg.committee, n.votes, n.backers)
    requires leader.Digest() in h.parents
    ensures var m := AfterHeader(cfg, n, h, leader);
      TallySums(cfg.committee, m.votes, m.backers) <==>
        h.author !in Backers(n.backers, h.round) || cfg.committee.Stake(h.author) == 0
  {
    var m := AfterHeader(cfg, n, h, leader);
    var before := Backers(n.backers, h.round);
    if h.author !in before {
      CountSums(cfg.committee, n.votes, n.backers, h.round, h.author);
    } else {
      assert before + {h.author} == before;
      assert Tally(n.votes, h.round) == cfg.committee.Weight(before);
      assert Tally(m.votes, h.round) == cfg.committee.Weight(before) + cfg.committee.Stake(h.author);
      assert Backers(m.backers, h.round) == before;
      forall r: Round | r != h.round ensures Tally(m.votes, r) == cfg.committee.Weight(Backers(m.backers, r)) {
        assert Tally(n.votes, r) == cfg.committee.Weight(Backers(n.backers, r));
      }
    }
  }

  /** Authority 3's header of round 3, which alone lists the leader of round 2. */
  function Lone(): Header {
    Header(3, 3, [At(2, 0), At(2, 2)])
  }

  function LoneWorld(): World {
    World(Quartet(), DagOf(Light), HeadersOf(Light)[(3, 3) := [At(2, 0), At(2, 2)]])
  }

  lemma LoneVotes()
    ensures Voting(LoneWorld()) && LoneWorld().setup == Quartet()
  {
    var w := LoneWorld();
    WorldFits(w, Light);
    HeadersFit(w, Light);
    forall d, l | Successive(w, d, l) ensures d.Digest() in l.parents {
      LeadersAre(d.round);
      LeadersAre(l.round);
      DagOfHas(Light, d);
      DagOfHas(Light, l);
    }
  }

  lemma LoneUnsupported()
    ensures Quartet().committee.Valid() && !Supported(LoneWorld(), V(2, 2))
  {
    var w := LoneWorld();
    Stakes({});
    Parts(2, 2);
    forall s: set<Author> ensures !Backed(w, s, V(2, 2)) {
      Stakes(s);
      forall a | a in s ensures !(exists v :: Has(w.dag, v) && v.author == a && Steps(v, V(2, 2))) {
        forall v | Has(w.dag, v) && v.author == a ensures !Steps(v, V(2, 2)) {
          DagOfHas(Light, v);
        }
      }
      if 0 in s {
        assert !Lists(w, 0, V(2, 2));
      }
    }
  }

  function Times(e: Event, k: nat): seq<Event> {
    if k == 0 then [] else Times(e, k - 1) + [e]
  }

  lemma OneMore(cfg: Setup, events: seq<Event>, e: Event, k: nat)
    requires cfg.committee.Valid()
    ensures Exec(cfg, events + Times(e, k + 1)) == Step(cfg, Exec(cfg, events + Times(e, k)), e)
  {
    var all := events + Times(e, k + 1);
    assert all[..|all| - 1] == events + Times(e, k) && all[|all| - 1] == e;
  }

  ghost predicate Tallied(n: Node, before: Node, k: nat) {
    n.view == before.view && n.leaders == [] && Tally(n.votes, 3) == k
  }

  /** Nothing is committed and the leader of round 2 is in the dag. */
  ghost predicate Waits(n: Node) {
    && Quartet().committee.Valid() && Idle(n)
    && LeaderAt(Quartet().committee, n.view.dag, 2) == Some(V(2, 2))
    && LeaderAt(Quartet().committee, n.view.dag, 1) == None
  }

  lemma CountAgain(n: Node, before: Node, k: nat)
    requires Waits(before) && Tallied(n, before, k) && k < 6
    ensures Tallied(OnHeader(Quartet(), n, Lone()), before, k + 1)
  {
    Stakes({3});
    LoneStake();
    Parts(2, 2);
    hide Commit, V;
    assert V(2, 2).Digest() == At(2, 2) by { Links(2, 2, 1, 0); }
  }

  lemma LoneStake()
    ensures Quartet().committee.Stake(3) == 1
  {
    var c := Quartet().committee;
    assert c.authorities[1..][1..][1..] == [Authority(3, 1)];
  }

  lemma {:induction false} CountTimes(events: seq<Event>, k: nat)
    requires Quartet().committee.Valid() && Waits(Exec(Quartet(), events)) && k <= 6
    ensures Tallied(Exec(Quartet(), events + Times(NewHeader(Lone()), k)), Exec(Quartet(), events), k)
  {
    hide OnHeader, Lone;
    if k == 0 {
      assert events + Times(NewHeader(Lone()), 0) == events;
    } else {
      CountTimes(events, k - 1);
      OneMore(Quartet(), events, NewHeader(Lone()), k - 1);
      CountAgain(Exec(Quartet(), events + Times(NewHeader(Lone()), k - 1)), Exec(Quartet(), events), k - 1);
    }
  }

  lemma CommitLone(n: Node, before: Node)
    requires Waits(before) && Tallied(n, before, 6)
    ensures OnHeader(Quartet(), n, Lone()).leaders == [V(2, 2)]
  {
    Stakes({});
    LoneStake();
    Parts(2, 2);
    hide Commit, V;
    assert V(2, 2).Digest() == At(2, 2) by { Links(2, 2, 1, 0); }
    var m := AfterHeader(Quartet(), n, Lone(), V(2, 2));
    NoPastLeaders(Quartet().committee, m.view, V(2, 2));
    CommitOne(Quartet(), m, V(2, 2));
  }

  /** The leader of round 2 and the certificate below it arrive. */
  lemma LoneBegins() returns (s: seq<Vertex>, n: Node)
    ensures Went(LoneWorld(), s, n) && Waits(n)
  {
    hide V, LoneWorld, Quartet, Went, Clean, Unrepeated, Idle, Holds, Fits, More, Four, Voting;
    LoneVotes();
    VotesFit(LoneWorld());
    FourIs();
    LeadersAre(1);
    LeadersAre(2);
    Parts(1, 0);
    Parts(2, 2);
    Parts(2, 0);
    n := Start(LoneWorld());
    LoneFits(1, 0, n.delivered);
    n := RecordIdle(LoneWorld(), [], n, V(1, 0));
    LoneFits(2, 2, n.delivered);
    n := RecordIdle(LoneWorld(), [] + [V(1, 0)], n, V(2, 2));
    LoneFits(2, 0, n.delivered);
    n := RecordIdle(LoneWorld(), [] + [V(1, 0)] + [V(2, 2)], n, V(2, 0));
    s := [] + [V(1, 0)] + [V(2, 2)] + [V(2, 0)];
    HeldHas(n.view.dag, n.delivered, V(2, 2));
    LeaderHeld(Quartet().committee, n.view.dag, V(2, 2));
    LeaderMissing(Quartet().committee, n.view.dag, n.delivered, 1);
  }

  lemma HeldHas(dag: Dag, s: set<Vertex>, v: Vertex)
    requires Holds(dag, s) && v in s
    ensures Has(dag, v)
  {}

  lemma LoneFits(r: Round, a: Author, s: set<Vertex>)
    requires (r == 1 && a == 0) || (r == 2 && (a == 0 || a == 2))
    requires V(r - 1, 0) in s
    ensures Fits(LoneWorld(), V(r, a), s)
  {
    assert More(r, a) == [] && LoneWorld().dag == DagOf(Light);
    hide V, LoneWorld;
    FitsWith(LoneWorld(), Light, r, a, s);
  }

  lemma CausalTimes(w: World, events: seq<Event>, h: Header, k: nat)
    requires w.setup.committee.Valid() && CausalRun(w, events)
    ensures CausalRun(w, events + Times(NewHeader(h), k))
  {
    var all := events + Times(NewHeader(h), k);
    if k == 0 {
      assert all == events;
    } else {
      CausalTimes(w, events, h, k - 1);
      assert all[..|all| - 1] == events + Times(NewHeader(h), k - 1);
    }
  }

  /** Support is not safe against repeated headers: on a run that is admissible but for one real header that
      arrives seven times, a leader is committed that neither f+1 stake of certificates nor a quorum of headers
      lists. */
  lemma RepeatedHeaderCommits() returns (w: World, events: seq<Event>, h: Header)
    ensures Voting(w) && ValidRun(w, events) && Proposed(w, h.author, h.round) == Some(h.parents)
    ensures CausalRun(w, events + Times(NewHeader(h), 7))
    ensures Exec(w.setup, events + Times(NewHeader(h), 7)).leaders == [V(2, 2)] && !Supported(w, V(2, 2))
  {
    hide V, Quartet, Exec, CausalRun, HeadersOnce, Voting, Supported, Waits, Tallied, OnHeader;
    w, h := LoneWorld(), Lone();
    LoneVotes();
    LoneUnsupported();
    assert Proposed(w, h.author, h.round) == Some(h.parents) by { LoneProposed(); }
    hide LoneWorld, Lone;
    var s, n := LoneBegins();
    events := Deliver(s);
    CausalTimes(w, events, h, 7);
    CountTimes(events, 6);
    OneMore(Quartet(), events, NewHeader(h), 6);
    CommitLone(Exec(Quartet(), events + Times(NewHeader(h), 6)), n);
  }

  lemma LoneProposed()
    ensures Proposed(LoneWorld(), Lone().author, Lone().round) == Some(Lone().parents)
  {}
}
