/** The consensus loop of consensus/src/lib.rs in its own imperative form, proved equal to Ordering.dfy. */
module Consensus {
  import opened Config
  import opened Dag
  import opened Ordering
  import opened Invariants
  import opened Runs

  /** The entries the `retain` calls leave once the authors in `done` have been visited. */
  function PruneFor(dag: Dag, last: map<Author, Round>, done: set<Author>, lastRound: Round, gc: nat): Dag {
    Prune(dag, Visited(last, done), lastRound, gc)
  }

  function Visited(last: map<Author, Round>, done: set<Author>): map<Author, Round> {
    map a | a in done && a in last :: last[a]
  }

  class State {
    var lastCommittedRound: Round
    var lastCommitted: map<Author, Round>
    var dag: Dag

    ghost function Value(): View
      reads this
    {
      View(lastCommittedRound, lastCommitted, dag)
    }

    constructor (committee: Committee)
      ensures Value() == InitView(committee)
    {
      var genesis := map a | a in committee.Names() :: GenesisVertex(a);
      lastCommittedRound := 0;
      lastCommitted := map a | a in genesis :: genesis[a].round;
      dag := map[0 := genesis];
    }

    /** Record a committed certificate and clean up: whatever order the authors are visited in, the nested
        `retain` calls amount to one filter. */
    method Update(certificate: Vertex, gcDepth: nat)
      modifies this
      ensures Value() == UpdateView(old(Value()), certificate, gcDepth)
    {
      lastCommitted := Touch(lastCommitted, certificate);
      assert certificate.author in lastCommitted;
      lastCommittedRound := MaxValue(lastCommitted);
      dag := Cleanup(dag, lastCommitted, lastCommittedRound, gcDepth);
    }
  }

  /** `last_committed.values().max()` */
  method MaxValue(last: map<Author, Round>) returns (top: Round)
    requires last != map[]
    ensures last.Keys != {} && top == Highest(last)
  {
    var first :| first in last;
    top := last[first];
    var rest := last.Keys - {first};
    while rest != {}
      invariant rest <= last.Keys
      invariant exists a :: a in last && last[a] == top
      invariant forall a :: a in last.Keys - rest ==> last[a] <= top
      decreases rest
    {
      var name :| name in rest;
      top := Max(top, last[name]);
      rest := rest - {name};
    }
    HighestUnique(last, top);
  }

  /** The cleanup loop of `update`: one `retain` per author with a commit, in any order. */
  method Cleanup(dag: Dag, last: map<Author, Round>, lastRound: Round, gc: nat) returns (kept: Dag)
    requires last != map[]
    ensures kept == Prune(dag, last, lastRound, gc)
  {
    kept := dag;
    var names := last.Keys;
    var rest := names;
    while rest != {}
      invariant rest <= names
      invariant kept == if rest == names then dag else PruneFor(dag, last, names - rest, lastRound, gc)
      decreases rest
    {
      var name :| name in rest;
      if names - rest == {} {
        assert forall a :: a in names ==> a in names - rest || a in rest;
      }
      RetainStep(dag, last, names - rest, name, lastRound, gc, kept);
      assert names - rest + {name} == names - (rest - {name});
      kept := RetainFor(kept, name, last[name], lastRound, gc);
      rest := rest - {name};
    }
    assert names - rest == names;
    PruneForAll(dag, last, lastRound, gc);
  }

  lemma PruneForAll(dag: Dag, last: map<Author, Round>, lastRound: Round, gc: nat)
    ensures PruneFor(dag, last, last.Keys, lastRound, gc) == Prune(dag, last, lastRound, gc)
  {
    assert Visited(last, last.Keys) == last;
  }

  /** One turn of the outer loop: `dag.retain` with its nested `authorities.retain`. */
  function RetainFor(dag: Dag, name: Author, round: Round, lastRound: Round, gc: nat): Dag {
    map r | r in dag && RetainRow(dag[r], r, name, round) != map[] && r + gc >= lastRound ::
      RetainRow(dag[r], r, name, round)
  }

  function RetainRow(row: map<Author, Vertex>, r: Round, name: Author, round: Round): map<Author, Vertex> {
    map n | n in row && (n != name || r >= round) :: row[n]
  }

  lemma HighestUnique(last: map<Author, Round>, r: Round)
    requires IsHighest(last, r)
    ensures last.Keys != {} && Highest(last) == r
  {
    var a :| a in last && last[a] == r;
    var b :| b in last && last[b] == Highest(last);
  }

  lemma RowStep(row: map<Author, Vertex>, r: Round, last: map<Author, Round>, done: set<Author>, name: Author)
    requires name in last
    ensures var before := Visited(last, done);
      var after := Visited(last, done + {name});
      RetainRow(Survivors(row, r, before), r, name, last[name]) == Survivors(row, r, after)
  {}

  lemma RetainAt(dag: Dag, last: map<Author, Round>, done: set<Author>, name: Author, top: Round, gc: nat, now: Dag,
          r: Round)
    requires name in last
    requires done == {} ==> now == dag
    requires done != {} ==> now == PruneFor(dag, last, done, top, gc)
    ensures var left := RetainFor(now, name, last[name], top, gc);
      var right := PruneFor(dag, last, done + {name}, top, gc);
      (r in left <==> r in right) && (r in left ==> left[r] == right[r])
  {
    if r in dag {
      var before := Visited(last, done);
      RowStep(dag[r], r, last, done, name);
      assert Survivors(dag[r], r, before) == map[] ==>
        RetainRow(Survivors(dag[r], r, before), r, name, last[name]) == map[];
      if done == {} {
        assert Survivors(dag[r], r, before) == dag[r];
      }
    }
  }

  /** One more author visited. */
  lemma RetainStep(dag: Dag, last: map<Author, Round>, done: set<Author>, name: Author, top: Round, gc: nat, now: Dag)
    requires name in last
    requires done == {} ==> now == dag
    requires done != {} ==> now == PruneFor(dag, last, done, top, gc)
    ensures RetainFor(now, name, last[name], top, gc) == PruneFor(dag, last, done + {name}, top, gc)
  {
    forall r: Round
      ensures var left := RetainFor(now, name, last[name], top, gc);
        var right := PruneFor(dag, last, done + {name}, top, gc);
        (r in left <==> r in right) && (r in left ==> left[r] == right[r])
    {
      RetainAt(dag, last, done, name, top, gc, now, r);
    }
  }

  // ---------- order_dag ----------

  lemma OpenParent(view: View, x: Vertex, d: Digest)
    requires WellKeyed(view.dag)
    ensures Parent(Open(view), x, d) ==
      match Parent(view.dag, x, d)
      case Some(p) => if Committed(view.last, p) then None else Some(p)
      case None => None
  {}

  lemma TraverseOn(open: Dag, ordered: seq<Vertex>, s: Stack)
    requires s.buffer != []
    ensures ordered + Dfs(open, s) == ordered + [s.buffer[|s.buffer| - 1]] + Dfs(open, Advance(open, s))
  {
    ConcatAssociates(ordered, [s.buffer[|s.buffer| - 1]], Dfs(open, Advance(open, s)));
  }

  // ---------- linked ----------

  ghost predicate IsFrontier(dag: Dag, leader: Vertex, r: Round, frontier: set<Vertex>) {
    forall v :: v in frontier <==> v.round == r && Reaches(dag, leader, v)
  }

  function NextFrontier(row: map<Author, Vertex>, frontier: set<Vertex>): set<Vertex> {
    set a | a in row && (exists x :: x in frontier && row[a].Digest() in x.parents) :: row[a]
  }

  lemma FrontierStep(dag: Dag, leader: Vertex, r: Round, frontier: set<Vertex>)
    requires WellKeyed(dag) && r in dag && r < leader.round
    requires IsFrontier(dag, leader, r + 1, frontier)
    ensures IsFrontier(dag, leader, r, NextFrontier(dag[r], frontier))
  {
    forall v ensures v in NextFrontier(dag[r], frontier) <==> v.round == r && Reaches(dag, leader, v) {
      if v in NextFrontier(dag[r], frontier) {
        var x :| x in frontier && v.Digest() in x.parents;
        assert Has(dag, v) && Steps(x, v);
      }
      if v.round == r && Reaches(dag, leader, v) {
        var p: Vertex :| Steps(p, v) && Reaches(dag, leader, p);
        assert p in frontier;
      }
    }
  }

  // ---------- order_leaders ----------

  /** What is listed so far, followed by what the walk from `last` at round `r` still lists, is the result. */
  ghost predicate Walked(c: Committee, view: View, leader: Vertex, listed: seq<Vertex>, last: Vertex, r: Round)
    requires c.Valid()
  {
    listed + PastLeaders(c, view.dag, view.lastRound, last, r) == OrderLeaders(c, view, leader)
  }

  lemma WalkOn(c: Committee, view: View, leader: Vertex, listed: seq<Vertex>, last: Vertex, r: Round)
    requires c.Valid() && WellKeyed(view.dag)
    requires view.lastRound < r < last.round && Walked(c, view, leader, listed, last, r)
    ensures var next := WalkTo(c, view.dag, last, r);
      && Walked(c, view, leader, if next == last then listed else listed + [next], next, r - 1)
      && next.round <= last.round && r - 1 < next.round
  {
    var next := WalkTo(c, view.dag, last, r);
    var step := if next == last then [] else [next];
    WalkStep(c, view.dag, view.lastRound, last, r);
    ConcatAssociates(listed, step, PastLeaders(c, view.dag, view.lastRound, next, r - 1));
    assert next == last ==> listed + step == listed;
  }

  // ---------- rule 1 ----------

  /** The stake sum over a round's certificates that list the leader. */
  method SupportingStake(committee: Committee, row: map<Author, Vertex>, d: Digest) returns (stake: nat)
    requires committee.Valid()
    requires forall a :: a in row ==> row[a].author == a
    ensures stake == committee.Weight(Supporters(row, d))
  {
    stake := 0;
    var rest := row.Keys;
    EmptyWeight(committee);
    ghost var counted: set<Author> := {};
    while rest != {}
      invariant rest <= row.Keys
      invariant counted == Supporters(row, d) - rest
      invariant stake == committee.Weight(counted)
      decreases rest
    {
      var a :| a in rest;
      if d in row[a].parents {
        WeightAdd(committee, counted, a);
        stake := stake + committee.Stake(row[a].author);
        counted := counted + {a};
      }
      rest := rest - {a};
    }
    assert counted == Supporters(row, d);
  }

  // ---------- the loop ----------

  class Consensus {
    const committee: Committee
    const gcDepth: nat
    const state: State
    var stakeVote: map<Round, nat>
    /** What was sent on `tx_primary` and `tx_output`, in order. */
    var output: seq<Vertex>
    ghost var delivered: set<Vertex>
    ghost var heard: set<(Author, Round)>
    ghost var backers: map<Round, set<Author>>
    ghost var leaders: seq<Vertex>

    ghost function Config(): Setup {
      Setup(committee, gcDepth)
    }

    ghost function Value(): Node
      reads this, state
    {
      Node(state.Value(), stakeVote, output, delivered, heard, backers, leaders)
    }

    constructor (committee: Committee, gcDepth: nat)
      ensures fresh(state)
      ensures Config() == Setup(committee, gcDepth)
      ensures Value() == InitNode(Setup(committee, gcDepth))
    {
      this.committee := committee;
      this.gcDepth := gcDepth;
      state := new State(committee);
      stakeVote := map[];
      output := [];
      delivered := Genesis(committee);
      heard := {};
      backers := map[];
      leaders := [];
    }

    method OrderDag(leader: Vertex) returns (ordered: seq<Vertex>)
      requires WellKeyed(state.dag)
      ensures ordered == Ordering.OrderDag(state.Value(), leader, gcDepth)
    {
      ordered := [];
      var alreadyOrdered: set<Digest> := {};
      var buffer := [leader];
      ghost var open := Open(state.Value());
      while buffer != []
        invariant ordered + Dfs(open, Stack(buffer, alreadyOrdered)) == Dfs(open, Stack([leader], {}))
        decreases |Digests(open) - alreadyOrdered|, |buffer|
      {
        TraverseOn(open, ordered, Stack(buffer, alreadyOrdered));
        ordered := ordered + [buffer[|buffer| - 1]];
        buffer, alreadyOrdered := Expand(buffer, alreadyOrdered);
      }
      assert ordered + [] == ordered;
      ordered := SortByRound(Window(ordered, state.lastCommittedRound, gcDepth));
    }

    /** The body of the traversal loop: pop a certificate and push its parents unless they are already
        ordered or committed. */
    method Expand(stack: seq<Vertex>, seen: set<Digest>) returns (buffer: seq<Vertex>, alreadyOrdered: set<Digest>)
      requires WellKeyed(state.dag) && stack != []
      ensures Stack(buffer, alreadyOrdered) == Advance(Open(state.Value()), Stack(stack, seen))
    {
      var x := stack[|stack| - 1];
      buffer, alreadyOrdered := stack[..|stack| - 1], seen;
      ghost var open := Open(state.Value());
      for i := 0 to |x.parents|
        invariant Push(open, x, x.parents[i..], Stack(buffer, alreadyOrdered)) == Advance(open, Stack(stack, seen))
      {
        var parent := x.parents[i];
        assert x.parents[i..] == [parent] + x.parents[i + 1..];
        OpenParent(state.Value(), x, parent);
        match Parent(state.dag, x, parent)
        case Some(certificate) =>
          var skip := parent in alreadyOrdered || Committed(state.lastCommitted, certificate);
          if !skip {
            buffer := buffer + [certificate];
            alreadyOrdered := alreadyOrdered + {parent};
          }
        case None =>
      }
    }

    /** The frontier walk; the rounds it looks up are those the code expects to be present. */
    method Linked(leader: Vertex, prevLeader: Vertex) returns (linked: bool)
      requires WellKeyed(state.dag)
      requires Has(state.dag, prevLeader) && RoundsPresent(state.dag, prevLeader.round, leader.round)
      ensures linked <==> Reaches(state.dag, leader, prevLeader)
    {
      var parents := {leader};
      var r := leader.round;
      while r > prevLeader.round
        invariant leader.round <= prevLeader.round ==> r == leader.round
        invariant leader.round > prevLeader.round ==> prevLeader.round <= r <= leader.round
        invariant IsFrontier(state.dag, leader, r, parents)
      {
        r := r - 1;
        FrontierStep(state.dag, leader, r, parents);
        parents := NextFrontier(state.dag[r], parents);
      }
      linked := prevLeader in parents;
    }

    method OrderLeaders(leader: Vertex) returns (toCommit: seq<Vertex>)
      requires committee.Valid() && WellKeyed(state.dag)
      requires leader.round > state.lastCommittedRound
      requires RoundsPresent(state.dag, state.lastCommittedRound, leader.round)
      ensures toCommit == Ordering.OrderLeaders(committee, state.Value(), leader)
    {
      toCommit := [leader];
      var last := leader;
      var r := leader.round - 1;
      ghost var view := state.Value();
      while r > state.lastCommittedRound
        invariant state.lastCommittedRound <= r && last.round <= leader.round && r < last.round
        invariant Walked(committee, view, leader, toCommit, last, r)
      {
        WalkOn(committee, view, leader, toCommit, last, r);
        hide Walked;
        match LeaderAt(committee, state.dag, r) {
          case Some(prevLeader) =>
            var linked := Linked(last, prevLeader);
            if linked {
              toCommit := toCommit + [prevLeader];
              last := prevLeader;
            }
          case None =>
        }
        r := r - 1;
      }
    }

    /** Order one leader's sub-dag, recording every certificate of it as committed. */
    method Flatten(leader: Vertex) returns (flat: seq<Vertex>)
      requires WellKeyed(state.dag)
      modifies state
      ensures WellKeyed(state.dag)
      ensures flat == Ordering.OrderDag(old(state.Value()), leader, gcDepth)
      ensures state.Value() == UpdateAll(old(state.Value()), flat, gcDepth)
    {
      var batch := OrderDag(leader);
      flat := [];
      for i := 0 to |batch|
        invariant flat == batch[..i] && WellKeyed(state.dag)
        invariant UpdateAll(state.Value(), batch[i..], gcDepth) == UpdateAll(old(state.Value()), batch, gcDepth)
      {
        UpdateKeyed(state.Value(), batch[i], gcDepth);
        assert batch[i..][1..] == batch[i + 1..];
        state.Update(batch[i], gcDepth);
        flat := flat + [batch[i]];
      }
    }

    /** Flatten the leaders to commit, oldest first. */
    method FlattenAll(toCommit: seq<Vertex>) returns (sequence: seq<Vertex>)
      requires WellKeyed(state.dag)
      modifies state
      ensures Batch(state.Value(), sequence) == CommitAll(old(state.Value()), Reverse(toCommit), gcDepth)
    {
      hide Ordering.OrderDag, UpdateAll, CommitAll;
      sequence := [];
      var i := |toCommit|;
      ghost var before := state.Value();
      FlattenFirst(before, toCommit, gcDepth);
      while i > 0
        invariant 0 <= i <= |toCommit| && WellKeyed(state.dag)
        invariant Flattened(before, toCommit, gcDepth, i, state.Value(), sequence)
      {
        i := i - 1;
        FlattenOn(before, toCommit, gcDepth, i, state.Value(), sequence);
        hide Flattened;
        var flat := Flatten(toCommit[i]);
        sequence := sequence + flat;
      }
      FlattenLast(before, toCommit, gcDepth, state.Value(), sequence);
    }

    /** Hand the ordered certificates on, one by one. */
    method Send(sequence: seq<Vertex>)
      modifies this`output
      ensures output == old(output) + sequence
    {
      for j := 0 to |sequence|
        invariant output == old(output) + sequence[..j]
      {
        output := output + [sequence[j]];
      }
    }

    /** Commit a leader and the earlier leaders linked to it, oldest first, and send out their sub-dags. */
    method Commit(leader: Vertex)
      requires committee.Valid() && WellKeyed(state.dag)
      requires leader.round > state.lastCommittedRound
      requires RoundsPresent(state.dag, state.lastCommittedRound, leader.round)
      modifies this`output, this`leaders, state
      ensures Value() == Ordering.Commit(Config(), old(Value()), leader)
    {
      hide CommitAll, Ordering.OrderLeaders, Reverse;
      var toCommit := OrderLeaders(leader);
      var sequence := FlattenAll(toCommit);
      Send(sequence);
      leaders := leaders + Reverse(toCommit);
    }

    /** Insert a certificate into the local dag. */
    method Receive(certificate: Vertex)
      modifies this`delivered, state
      ensures Value() == Received(old(Value()), certificate)
    {
      state.dag := Insert(state.dag, certificate);
      delivered := delivered + {certificate};
    }

    /** `rx_primary`: a new certificate. */
    method OnCertificate(certificate: Vertex)
      requires committee.Valid() && WellKeyed(state.dag)
      requires RoundsPresent(Insert(state.dag, certificate), state.lastCommittedRound, certificate.round)
      modifies this`delivered, this`output, this`leaders, state
      ensures Value() == Ordering.OnCertificate(Config(), old(Value()), certificate)
    {
      hide Ordering.Commit, Reaches;
      ghost var m := Received(Value(), certificate);
      Receive(certificate);
      var round := certificate.round;
      if round == 0 || round - 1 <= state.lastCommittedRound {
        return;
      }
      match LeaderAt(committee, state.dag, round - 1)
      case None =>
      case Some(leader) =>
        var stake := SupportingStake(committee, state.dag[round], leader.Digest());
        if stake >= committee.ValidityThreshold() {
          Commit(leader);
        }
    }

    /** `rx_primary_header`: a new header. */
    method OnHeader(header: Header)
      requires committee.Valid() && WellKeyed(state.dag)
      requires header.round > 0 && LeaderAt(committee, state.dag, header.round - 1).Some? ==>
        RoundsPresent(state.dag, state.lastCommittedRound, header.round - 1)
      modifies this, state
      ensures Value() == Ordering.OnHeader(Config(), old(Value()), header)
    {
      heard := heard + {(header.author, header.round)};
      if header.round == 0 || header.round - 1 <= state.lastCommittedRound {
        return;
      }
      match LeaderAt(committee, state.dag, header.round - 1)
      case None =>
      case Some(leader) =>
        if leader.Digest() in header.parents {
          stakeVote := stakeVote[header.round := Tally(stakeVote, header.round) + committee.Stake(header.author)];
          backers := backers[header.round := Backers(backers, header.round) + {header.author}];
        }
        if Tally(stakeVote, header.round) >= committee.QuorumThreshold() {
          Commit(leader);
        }
    }

    /** One turn of the main loop. */
    method Turn(event: Event)
      requires committee.Valid() && EventReady(committee, state.Value(), event)
      modifies this, state
      ensures Value() == Step(Config(), old(Value()), event)
    {
      hide Ordering.OnCertificate, Ordering.OnHeader;
      match event
      case NewCertificate(certificate) => OnCertificate(certificate);
      case NewHeader(header) => OnHeader(header);
    }

    /** The main loop over a run: no `expect` fires, and the result is the run of the specification. */
    method Run(events: seq<Event>, ghost w: World)
      requires WellFormed(w) && w.setup == Config() && CausalRun(w, events)
      requires Value() == InitNode(Config())
      modifies this, state
      ensures Value() == Exec(Config(), events)
    {
      hide WellFormed, CausalRun, EventReady, Step, InitNode;
      ExecNone(w, events);
      for i := 0 to |events|
        invariant Value() == Exec(w.setup, events[..i])
      {
        ExecNext(w, events, i);
        Turn(events[i]);
      }
      assert events[..|events|] == events;
    }
  }

  /** The rounds the event makes the node look up are in the dag. */
  ghost predicate EventReady(c: Committee, view: View, e: Event)
    requires c.Valid()
  {
    && WellKeyed(view.dag)
    && (e.NewCertificate? ==> RoundsPresent(Insert(view.dag, e.vertex), view.lastRound, e.vertex.round))
    && (e.NewHeader? && e.header.round > 0 && LeaderAt(c, view.dag, e.header.round - 1).Some? ==>
          RoundsPresent(view.dag, view.lastRound, e.header.round - 1))
  }

  lemma ExecNone(w: World, events: seq<Event>)
    requires WellFormed(w)
    ensures w.setup.committee.Valid()
    ensures Exec(w.setup, events[..0]) == InitNode(w.setup)
  {}

  /** Every event of a valid run finds the history it needs. */
  lemma ExecNext(w: World, events: seq<Event>, i: nat)
    requires WellFormed(w) && CausalRun(w, events) && i < |events|
    ensures w.setup.committee.Valid()
    ensures EventReady(w.setup.committee, Exec(w.setup, events[..i]).view, events[i])
    ensures Exec(w.setup, events[..i + 1]) == Step(w.setup, Exec(w.setup, events[..i]), events[i])
  {
    hide Step, Inv;
    PrefixValid(w, events, i + 1);
    PrefixValid(w, events, i);
    assert events[..i + 1][..i] == events[..i];
    ExecInv(w, events[..i]);
    Ready(w, Exec(w.setup, events[..i]), events[i]);
  }

  lemma UpdateKeyed(view: View, v: Vertex, gc: nat)
    requires WellKeyed(view.dag)
    ensures WellKeyed(UpdateView(view, v, gc).dag)
  {
    var u := UpdateView(view, v, gc);
    PruneHas(view.dag, u.last, u.lastRound, gc, v);
  }

  /** With the leaders from index `i` on flattened, what is left leads to the result of the whole commit. */
  ghost predicate Flattened(before: View, toCommit: seq<Vertex>, gc: nat, i: nat, now: View, sequence: seq<Vertex>)
    requires i <= |toCommit|
  {
    var rest := CommitAll(now, Reverse(toCommit[..i]), gc);
    CommitAll(before, Reverse(toCommit), gc) == Batch(rest.view, sequence + rest.sequence)
  }

  lemma FlattenFirst(before: View, toCommit: seq<Vertex>, gc: nat)
    ensures Flattened(before, toCommit, gc, |toCommit|, before, [])
  {
    var all := CommitAll(before, Reverse(toCommit), gc);
    assert toCommit[..|toCommit|] == toCommit;
    assert [] + all.sequence == all.sequence;
  }

  lemma FlattenLast(before: View, toCommit: seq<Vertex>, gc: nat, now: View, sequence: seq<Vertex>)
    requires Flattened(before, toCommit, gc, 0, now, sequence)
    ensures CommitAll(before, Reverse(toCommit), gc) == Batch(now, sequence)
  {
    assert sequence + [] == sequence;
  }

  lemma FlattenOn(before: View, toCommit: seq<Vertex>, gc: nat, i: nat, now: View, sequence: seq<Vertex>)
    requires i < |toCommit| && Flattened(before, toCommit, gc, i + 1, now, sequence)
    ensures var flat := OrderDag(now, toCommit[i], gc);
      Flattened(before, toCommit, gc, i, UpdateAll(now, flat, gc), sequence + flat)
  {
    var flat := OrderDag(now, toCommit[i], gc);
    assert toCommit[..i + 1] == toCommit[..i] + [toCommit[i]];
    ReverseAppend(toCommit[..i], [toCommit[i]]);
    assert Reverse([toCommit[i]]) == [toCommit[i]];
    var all := Reverse(toCommit[..i + 1]);
    assert all[0] == toCommit[i] && all[1..] == Reverse(toCommit[..i]);
    ConcatAssociates(sequence, flat, CommitAll(UpdateAll(now, flat, gc), all[1..], gc).sequence);
  }

  lemma {:induction false} PrefixValid(w: World, events: seq<Event>, i: nat)
    requires w.setup.committee.Valid() && CausalRun(w, events) && i <= |events|
    ensures CausalRun(w, events[..i])
    decreases |events|
  {
    if i < |events| {
      var before := events[..|events| - 1];
      PrefixValid(w, before, i);
      assert before[..i] == events[..i];
    } else {
      assert events[..i] == events;
    }
  }

  /** An admissible event finds the history it needs. */
  lemma Ready(w: World, n: Node, e: Event)
    requires WellFormed(w) && Inv(w, n) && (e.NewCertificate? ==> Admissible(w, n, e))
    ensures EventReady(w.setup.committee, n.view, e)
  {
    match e
    case NewCertificate(v) =>
      DeliverSound(w, n.view, n.delivered, v);
      HistoryPresent(w, n.view.(dag := Insert(n.view.dag, v)), n.delivered + {v}, v);
    case NewHeader(h) =>
      if h.round > 0 {
        match LeaderAt(w.setup.committee, n.view.dag, h.round - 1)
        case Some(leader) =>
          LeaderIn(w, n, h.round - 1, leader);
          HistoryPresent(w, n.view, n.delivered, leader);
        case None =>
      }
  }
}
