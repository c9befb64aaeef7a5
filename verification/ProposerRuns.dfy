/** What every run of the proposer keeps: one header per round, sound headers, no-votes that exclude. */
module ProposerRuns {
  import opened Config
  import opened Messages
  import opened Aggregators
  import opened Processing
  import opened Proposing

  // ---------- what the core hands over ----------

  predicate OfOneRound(certs: seq<Certificate>, r: Round) {
    forall i :: 0 <= i < |certs| ==> certs[i].header.round == r
  }

  /** No earlier message was about this round. */
  predicate FirstOfRound(passes: seq<Pass>, i: nat, r: Round)
    requires i <= |passes|
  {
    forall j :: 0 <= j < i && passes[j].message.Parents? ==> passes[j].message.round != r
  }

  predicate GoodParents(c: Committee, passes: seq<Pass>, i: nat)
    requires i < |passes| && passes[i].message.Parents?
  {
    match passes[i].message
    case Parents(certs, r) =>
      && r > 0 && certs != [] && OfOneRound(certs, r)
      && (FirstOfRound(passes, i, r) ==> c.Weight(Origins(certs)) >= c.QuorumThreshold())
  }

  /** Parents come per round in non-empty messages, the first of them a quorum; the timeout and no-vote
      certificates carry a quorum. */
  ghost predicate GoodInputs(c: Committee, passes: seq<Pass>) {
    forall i :: 0 <= i < |passes| ==>
      && (passes[i].message.Parents? ==> GoodParents(c, passes, i))
      && (passes[i].message.TimeoutCertificate? ==> Carries(c, passes[i].message.cert.names))
      && (passes[i].message.NoVoteCertificate? ==> Carries(c, passes[i].message.cert.names))
  }

  // ---------- the invariants ----------

  /** Parents of the previous round, a quorum; the previous leader among them, or a quorum of timeouts of
      that round and, from the leader of the header's round, a quorum of no-votes. */
  ghost predicate SoundParents(c: Committee, h: Proposal, certs: seq<Certificate>)
    requires c.Valid()
  {
    && h.round > 0 && h.parents == Collect(certs) && OfOneRound(certs, h.round - 1)
    && c.Weight(Origins(certs)) >= c.QuorumThreshold()
    && (c.Leader(h.round - 1) in Origins(certs) ||
        (&& h.timeoutCert.round == h.round - 1 && Carries(c, h.timeoutCert.names)
         && (c.Leader(h.round) == h.author ==> h.noVoteCert.round == h.round - 1 && Carries(c, h.noVoteCert.names))))
  }

  ghost predicate SoundHeader(c: Committee, h: Proposal)
    requires c.Valid()
  {
    exists certs :: SoundParents(c, h, certs)
  }

  ghost predicate OneHeaderEach(log: seq<Sent>) {
    forall i, j :: 0 <= i < j < |log| && log[i].Proposed? && log[j].Proposed? ==>
      log[i].header.round < log[j].header.round
  }

  predicate LeavesOut(h: Proposal, a: Author) {
    forall i :: 0 <= i < |h.parents| ==> h.parents[i].origin != a
  }

  /** A header after a no-vote leaves the leader out. */
  ghost predicate NoVotesExclude(c: Committee, log: seq<Sent>)
    requires c.Valid()
  {
    forall r: Round, h: Proposal :: SentNoVote(r) in log && Proposed(h) in log && r > 0 && h.round == r + 1 ==>
      LeavesOut(h, c.Leader(r))
  }

  /** What is in the log so far, in terms of the current round. */
  ghost predicate LogFits(cfg: ProposerConfig, s: ProposerState)
    requires cfg.committee.Valid()
  {
    && NoVotesExclude(cfg.committee, s.log)
    && (forall h: Proposal :: Proposed(h) in s.log ==>
          && h.round <= s.round && h.author == cfg.name && SoundHeader(cfg.committee, h)
          && (h.round == 1 ==> h.parents == Collect(GenesisParents(cfg.committee))))
    && (forall r: Round :: SentNoVote(r) in s.log ==> r < s.round)
  }

  /** The parents held are a quorum of the current round, and `lastLeader` and `advance` are in step. */
  ghost predicate InStep(cfg: ProposerConfig, s: ProposerState)
    requires cfg.committee.Valid()
  {
    if s.round == 0 then s.lastParents == GenesisParents(cfg.committee)
    else s.lastParents != [] ==>
      && OfOneRound(s.lastParents, s.round)
      && cfg.committee.Weight(Origins(s.lastParents)) >= cfg.committee.QuorumThreshold()
      && s.lastLeader == FindOrigin(s.lastParents, cfg.committee.Leader(s.round))
      && s.advance == s.lastLeader.Some?
  }

  ghost predicate CertsFit(c: Committee, s: ProposerState) {
    (s.timeoutCert == Blank(0) || Carries(c, s.timeoutCert.names)) &&
      (s.noVoteCert == Blank(0) || Carries(c, s.noVoteCert.names))
  }

  /** No message so far was about a round above ours, nor about ours if we hold no parents. */
  ghost predicate Caught(s: ProposerState, passes: seq<Pass>) {
    forall i :: 0 <= i < |passes| && passes[i].message.Parents? ==>
      passes[i].message.round <= s.round && (s.lastParents == [] ==> passes[i].message.round < s.round)
  }

  ghost predicate Good(cfg: ProposerConfig, s: ProposerState, passes: seq<Pass>)
    requires cfg.committee.Valid()
  {
    LogFits(cfg, s) && InStep(cfg, s) && CertsFit(cfg.committee, s) && Caught(s, passes)
  }

  // ---------- lookups ----------

  lemma {:induction false} FindOriginExact(certs: seq<Certificate>, a: Author)
    ensures FindOrigin(certs, a).Some? <==> a in Origins(certs)
  {
    if certs != [] && certs[0].header.author != a {
      FindOriginExact(certs[1..], a);
      if a in Origins(certs[1..]) {
        var i :| 0 <= i < |certs[1..]| && certs[1..][i].header.author == a;
        assert certs[i + 1].header.author == a;
      }
      if a in Origins(certs) {
        var i :| 0 <= i < |certs| && certs[i].header.author == a;
        assert certs[1..][i - 1].header.author == a;
      }
    }
  }

  lemma OriginsConcat(s: seq<Certificate>, t: seq<Certificate>)
    ensures Origins(s) <= Origins(s + t)
  {
    forall a | a in Origins(s) ensures a in Origins(s + t) {
      var i :| 0 <= i < |s| && s[i].header.author == a;
      assert (s + t)[i].header.author == a;
    }
  }

  lemma {:induction false} WholeWeight(entries: seq<Authority>, names: set<Author>)
    requires forall i :: 0 <= i < |entries| ==> entries[i].name in names
    ensures WeightIn(entries, names) == TotalIn(entries)
  {
    if entries != [] {
      WholeWeight(entries[1..], names);
    }
  }

  lemma GenesisQuorum(c: Committee)
    requires c.Valid() && c.Total() > 0
    ensures Origins(GenesisParents(c)) == c.Names() && OfOneRound(GenesisParents(c), 0)
    ensures c.Weight(c.Names()) >= c.QuorumThreshold()
    ensures c.Leader(0) in c.Names()
  {
    var g := GenesisParents(c);
    forall a ensures a in Origins(g) <==> a in c.Names() {
      if a in c.Names() {
        var i :| 0 <= i < |c.authorities| && c.authorities[i].name == a;
        assert g[i].header.author == a;
      }
    }
    WholeWeight(c.authorities, c.Names());
  }

  // ---------- proposing ----------

  /** A header made from parents in step is sound, and leaves out a leader given up on. */
  lemma MadeHeaderSound(cfg: ProposerConfig, s: ProposerState, expired: bool, id: nat)
    requires cfg.committee.Valid() && cfg.committee.Total() > 0
    requires InStep(cfg, s) && CertsFit(cfg.committee, s) && CanPropose(cfg, s, expired)
    ensures var h := MakeHeader(cfg, s.(round := s.round + 1), id);
      && SoundHeader(cfg.committee, h)
      && (h.round == 1 ==> h.parents == Collect(GenesisParents(cfg.committee)))
      && (s.round > 0 && s.lastLeader.None? ==> LeavesOut(h, cfg.committee.Leader(s.round)))
  {
    var c := cfg.committee;
    var h := MakeHeader(cfg, s.(round := s.round + 1), id);
    FindOriginExact(s.lastParents, c.Leader(s.round));
    if s.round == 0 {
      GenesisQuorum(c);
    }
    assert SoundParents(c, h, s.lastParents);
    CollectExact(s.lastParents);
    if s.round > 0 && s.lastLeader.None? {
      forall i | 0 <= i < |h.parents| ensures h.parents[i].origin != c.Leader(s.round) {
        assert h.parents[i] in Collect(s.lastParents);
        var k :| 0 <= k < |s.lastParents| && s.lastParents[k].Digest() == h.parents[i];
        assert s.lastParents[k].header.author in Origins(s.lastParents);
      }
    }
  }

  lemma TellTimeoutFits(cfg: ProposerConfig, s: ProposerState, expired: bool)
    requires cfg.committee.Valid() && LogFits(cfg, s)
    ensures LogFits(cfg, SendTimeout(s, expired))
  {
    hide SoundHeader;
    var t := SendTimeout(s, expired);
    assert forall h: Proposal :: Proposed(h) in t.log ==> Proposed(h) in s.log;
    assert forall r: Round :: SentNoVote(r) in t.log ==> SentNoVote(r) in s.log;
  }

  /** A no-vote, if one is sent, and then the header. */
  lemma ProposeFits(cfg: ProposerConfig, s: ProposerState, expired: bool, id: nat)
    requires cfg.committee.Valid() && LogFits(cfg, s)
    requires var h := MakeHeader(cfg, s.(round := s.round + 1), id);
      && SoundHeader(cfg.committee, h)
      && (h.round == 1 ==> h.parents == Collect(GenesisParents(cfg.committee)))
      && (s.round > 0 && s.lastLeader.None? ==> LeavesOut(h, cfg.committee.Leader(s.round)))
    ensures LogFits(cfg, Propose(cfg, SendNoVote(cfg, s, expired), id))
  {
    hide SoundHeader, Collect, LeavesOut;
    var h := MakeHeader(cfg, s.(round := s.round + 1), id);
    var n := SendNoVote(cfg, s, expired);
    var t := Propose(cfg, n, id);
    assert t.log == n.log + [Proposed(h)];
    assert forall g: Proposal :: Proposed(g) in t.log ==> Proposed(g) in s.log || g == h;
    assert forall r: Round :: SentNoVote(r) in t.log ==> SentNoVote(r) in s.log || (r == s.round && s.lastLeader.None?);
  }

  lemma DecideGood(cfg: ProposerConfig, s: ProposerState, passes: seq<Pass>, expired: bool, id: nat)
    requires cfg.committee.Valid() && cfg.committee.Total() > 0
    requires Good(cfg, s, passes)
    ensures Good(cfg, Decide(cfg, s, expired, id), passes)
  {
    hide LogFits, SoundHeader, LeavesOut, MakeHeader, Carries;
    var t := SendTimeout(s, expired);
    TellTimeoutFits(cfg, s, expired);
    if CanPropose(cfg, s, expired) {
      MadeHeaderSound(cfg, s, expired, id);
      assert MakeHeader(cfg, s.(round := s.round + 1), id) == MakeHeader(cfg, t.(round := t.round + 1), id) by {
        SameHeader(cfg, s, t, id);
      }
      ProposeFits(cfg, t, expired, id);
    }
  }

  lemma SameHeader(cfg: ProposerConfig, s: ProposerState, t: ProposerState, id: nat)
    requires cfg.committee.Valid()
    requires t == s.(log := t.log, timeoutSent := t.timeoutSent)
    ensures MakeHeader(cfg, s.(round := s.round + 1), id) == MakeHeader(cfg, t.(round := t.round + 1), id)
  {}

  // ---------- receiving ----------

  lemma LogFrame(cfg: ProposerConfig, s: ProposerState, t: ProposerState)
    requires cfg.committee.Valid() && LogFits(cfg, s)
    requires t.log == s.log && t.round >= s.round
    ensures LogFits(cfg, t)
  {}

  lemma ReceiveParents(cfg: ProposerConfig, s: ProposerState, passes: seq<Pass>, certs: seq<Certificate>, r: Round)
    requires cfg.committee.Valid() && InStep(cfg, s) && Caught(s, passes)
    requires r > 0 && certs != [] && OfOneRound(certs, r)
    requires FirstOfRound(passes, |passes|, r) ==>
      cfg.committee.Weight(Origins(certs)) >= cfg.committee.QuorumThreshold()
    ensures InStep(cfg, Receive(cfg, s, Parents(certs, r)))
  {
    if r == s.round {
      OriginsConcat(s.lastParents, certs);
      WeightMonotone(cfg.committee, Origins(s.lastParents), Origins(s.lastParents + certs));
      if s.lastParents == [] {
        assert s.lastParents + certs == certs;
        assert FirstOfRound(passes, |passes|, r);
      }
    } else if r > s.round {
      assert FirstOfRound(passes, |passes|, r);
    }
  }

  lemma ReceiveCaught(cfg: ProposerConfig, s: ProposerState, passes: seq<Pass>, pass: Pass)
    requires cfg.committee.Valid() && Caught(s, passes)
    requires pass.message.Parents? ==> pass.message.certificates != []
    requires s.lastParents == [] ==> s.round > 0
    ensures Caught(Receive(cfg, s, pass.message), passes + [pass])
  {
    var all := passes + [pass];
    var t := Receive(cfg, s, pass.message);
    hide FindOrigin;
    forall i | 0 <= i < |all| && all[i].message.Parents?
      ensures all[i].message.round <= t.round && (t.lastParents == [] ==> all[i].message.round < t.round)
    {
      if i < |passes| {
        assert all[i] == passes[i];
      }
    }
  }

  lemma ReceiveInStep(cfg: ProposerConfig, s: ProposerState, passes: seq<Pass>, pass: Pass)
    requires cfg.committee.Valid() && InStep(cfg, s) && Caught(s, passes)
    requires pass.message.Parents? ==> GoodParents(cfg.committee, passes + [pass], |passes|)
    ensures InStep(cfg, Receive(cfg, s, pass.message))
  {
    if pass.message.Parents? {
      var r := pass.message.round;
      assert FirstOfRound(passes, |passes|, r) ==> FirstOfRound(passes + [pass], |passes|, r);
      hide InStep, Receive, Caught;
      ReceiveParents(cfg, s, passes, pass.message.certificates, r);
    }
  }

  lemma ReceiveCerts(cfg: ProposerConfig, s: ProposerState, m: Message)
    requires cfg.committee.Valid() && CertsFit(cfg.committee, s)
    requires m.TimeoutCertificate? ==> Carries(cfg.committee, m.cert.names)
    requires m.NoVoteCertificate? ==> Carries(cfg.committee, m.cert.names)
    ensures CertsFit(cfg.committee, Receive(cfg, s, m))
  {
    hide Carries, FindOrigin;
  }

  lemma ReceiveLog(cfg: ProposerConfig, s: ProposerState, m: Message)
    requires cfg.committee.Valid() && LogFits(cfg, s)
    ensures LogFits(cfg, Receive(cfg, s, m))
  {
    LogFrame(cfg, s, Receive(cfg, s, m));
  }

  lemma ReceiveGood(cfg: ProposerConfig, s: ProposerState, passes: seq<Pass>, pass: Pass)
    requires cfg.committee.Valid()
    requires Good(cfg, s, passes) && GoodInputs(cfg.committee, passes + [pass])
    ensures Good(cfg, Receive(cfg, s, pass.message), passes + [pass])
  {
    assert (passes + [pass])[|passes|] == pass;
    HeldAtGenesis(cfg, s);
    hide LogFits, Carries, CertsFit, InStep, Caught, Receive, FirstOfRound;
    ReceiveLog(cfg, s, pass.message);
    ReceiveCerts(cfg, s, pass.message);
    ReceiveInStep(cfg, s, passes, pass);
    ReceiveCaught(cfg, s, passes, pass);
  }

  lemma HeldAtGenesis(cfg: ProposerConfig, s: ProposerState)
    requires cfg.committee.Valid() && InStep(cfg, s)
    ensures s.lastParents == [] ==> s.round > 0
  {}

  lemma InitGood(cfg: ProposerConfig)
    requires cfg.committee.Valid()
    ensures Good(cfg, InitProposer(cfg), [])
  {}

  lemma {:induction false} RunGood(cfg: ProposerConfig, passes: seq<Pass>)
    requires cfg.committee.Valid() && cfg.committee.Total() > 0
    requires GoodInputs(cfg.committee, passes)
    ensures Good(cfg, RunProposer(cfg, passes), passes)
    decreases |passes|
  {
    hide Good, Decide, Receive;
    if passes == [] {
      InitGood(cfg);
    } else {
      var before := passes[..|passes| - 1];
      var pass := passes[|passes| - 1];
      GoodPrefix(cfg.committee, passes);
      RunGood(cfg, before);
      var s := RunProposer(cfg, before);
      DecideGood(cfg, s, before, pass.expired, pass.id);
      assert passes == before + [pass];
      ReceiveGood(cfg, Decide(cfg, s, pass.expired, pass.id), before, pass);
    }
  }

  lemma GoodPrefix(c: Committee, passes: seq<Pass>)
    requires GoodInputs(c, passes) && passes != []
    ensures GoodInputs(c, passes[..|passes| - 1])
  {
    var before := passes[..|passes| - 1];
    forall i | 0 <= i < |before| && before[i].message.Parents? ensures GoodParents(c, before, i) {
      assert GoodParents(c, passes, i);
      var r := before[i].message.round;
      assert FirstOfRound(before, i, r) ==> FirstOfRound(passes, i, r);
    }
  }

  // ---------- the main results ----------

  lemma {:induction false} StakesCoverOrigins(c: Committee, certs: seq<Certificate>)
    requires c.Valid()
    ensures SumStakes(c, certs) >= c.Weight(Origins(certs))
  {
    if certs == [] {
      EmptyWeight(c);
      assert Origins(certs) == {};
    } else {
      var last := |certs| - 1;
      var before := certs[..last];
      StakesCoverOrigins(c, before);
      OriginsAdd(before, certs[last]);
      assert certs == before + [certs[last]];
      if certs[last].header.author in Origins(before) {
        assert Origins(certs) == Origins(before);
      } else {
        WeightAdd(c, Origins(before), certs[last].header.author);
      }
    }
  }

  /** The certificates a peer finds for the parents of a sound header have the same rounds and origins. */
  lemma PeersSee(c: Committee, h: Proposal, certs: seq<Certificate>, found: seq<Certificate>)
    requires c.Valid() && SoundParents(c, h, certs)
    requires |found| == |h.parents| && forall i :: 0 <= i < |found| ==> found[i].Digest() == h.parents[i]
    ensures PreviousRound(h, found) && Origins(found) == Origins(certs)
  {
    CollectExact(certs);
    forall i | 0 <= i < |found|
      ensures found[i].header.round + 1 == h.round && found[i].header.author in Origins(certs)
    {
      assert h.parents[i] in Collect(certs);
      var k :| 0 <= k < |certs| && certs[k].Digest() == h.parents[i];
      assert certs[k].header.round == h.round - 1 && certs[k].header.author in Origins(certs);
    }
    forall a | a in Origins(certs) ensures a in Origins(found) {
      var k :| 0 <= k < |certs| && certs[k].header.author == a;
      assert certs[k].Digest() in Collect(certs);
      var i :| 0 <= i < |h.parents| && h.parents[i] == certs[k].Digest();
      assert found[i].header.author == a;
    }
  }

  lemma SoundPasses(c: Committee, h: Proposal, found: seq<Certificate>)
    requires c.Valid() && SoundHeader(c, h)
    requires |found| == |h.parents| && forall i :: 0 <= i < |found| ==> found[i].Digest() == h.parents[i]
    ensures found != [] && Passes(c, h, found)
  {
    var certs :| SoundParents(c, h, certs);
    PeersSee(c, h, certs, found);
    hide Collect, Carries;
    StakesCoverOrigins(c, found);
    ThresholdArithmetic(c);
    EmptyWeight(c);
    assert Origins([]) == {};
    if c.Leader(h.round - 1) in Origins(found) {
      var i :| 0 <= i < |found| && found[i].header.author == c.Leader(h.round - 1);
    }
  }

  /** Every header a proposer emits passes the peers' structural checks, whichever certificates with the
      listed digests they hold. */
  lemma HeadersPass(cfg: ProposerConfig, passes: seq<Pass>, h: Proposal, found: seq<Certificate>)
    requires cfg.committee.Valid() && cfg.committee.Total() > 0 && GoodInputs(cfg.committee, passes)
    requires Proposed(h) in RunProposer(cfg, passes).log
    requires |found| == |h.parents| && forall i :: 0 <= i < |found| ==> found[i].Digest() == h.parents[i]
    ensures found != [] && Passes(cfg.committee, h, found)
  {
    hide SoundHeader, RunProposer, GoodInputs, Passes;
    RunGood(cfg, passes);
    SoundPasses(cfg.committee, h, found);
  }

  /** No-vote exclusion: a proposer that sent a no-vote for a round and then a header of the next leaves
      the round's leader out of its parents, except just for round zero, whose genesis leader it lists. */
  lemma NoVoteExclusion(cfg: ProposerConfig, passes: seq<Pass>, r: Round, h: Proposal)
    requires cfg.committee.Valid() && cfg.committee.Total() > 0 && GoodInputs(cfg.committee, passes)
    requires SentNoVote(r) in RunProposer(cfg, passes).log
    requires Proposed(h) in RunProposer(cfg, passes).log && h.round == r + 1
    ensures LeavesOut(h, cfg.committee.Leader(r)) <==> r > 0
  {
    RunGood(cfg, passes);
    if r == 0 {
      var g := GenesisParents(cfg.committee);
      GenesisQuorum(cfg.committee);
      CollectExact(g);
      var i :| 0 <= i < |g| && g[i].header.author == cfg.committee.Leader(0);
      assert g[i].Digest() in h.parents;
    }
  }

  /** Round zero is no empty exception: a proposer that does not lead round one sends such a no-vote if its
      timer expires before anything else happens. */
  lemma GenesisNoVote(cfg: ProposerConfig, id: nat) returns (passes: seq<Pass>, h: Proposal)
    requires cfg.committee.Valid() && cfg.committee.Total() > 0 && cfg.committee.Leader(1) != cfg.name
    ensures GoodInputs(cfg.committee, passes)
    ensures SentNoVote(0) in RunProposer(cfg, passes).log && Proposed(h) in RunProposer(cfg, passes).log
    ensures h.round == 1 && !LeavesOut(h, cfg.committee.Leader(0))
  {
    var s := InitProposer(cfg);
    passes := [Pass(true, id, Timer)];
    assert passes[..0] == [] && RunProposer(cfg, []) == s;
    var up := SendNoVote(cfg, SendTimeout(s, true), true);
    assert CanPropose(cfg, s, true) && up.log == [SentTimeout(0), SentNoVote(0)];
    h := MakeHeader(cfg, up.(round := 1), id);
    var log := RunProposer(cfg, passes).log;
    assert log == [SentTimeout(0), SentNoVote(0), Proposed(h)];
    assert log[1] == SentNoVote(0) && log[2] == Proposed(h);
    NoVoteExclusion(cfg, passes, 0, h);
  }

  // ---------- one header and one timeout per round ----------

  ghost predicate TimeoutsRise(log: seq<Sent>) {
    forall i, j :: 0 <= i < j < |log| && log[i].SentTimeout? && log[j].SentTimeout? ==> log[i].round < log[j].round
  }

  ghost predicate TimeoutsFit(s: ProposerState) {
    TimeoutsRise(s.log) &&
    forall r: Round :: SentTimeout(r) in s.log ==> r <= s.round && (!s.timeoutSent ==> r < s.round)
  }

  /** Header and timeout rounds rise with our round. */
  ghost predicate Rises(cfg: ProposerConfig, s: ProposerState) {
    && OneHeaderEach(s.log) && TimeoutsFit(s)
    && forall h: Proposal :: Proposed(h) in s.log ==> h.round <= s.round && h.author == cfg.name
  }

  lemma RiseMore(log: seq<Sent>, o: Sent)
    requires TimeoutsRise(log) && (o.SentTimeout? ==> forall r: Round :: SentTimeout(r) in log ==> r < o.round)
    ensures TimeoutsRise(log + [o])
  {
    var all := log + [o];
    forall i, j | 0 <= i < j < |all| && all[i].SentTimeout? && all[j].SentTimeout? ensures all[i].round < all[j].round {
      assert all[i] == log[i] && SentTimeout(log[i].round) in log;
    }
  }

  lemma OneHeaderMore(log: seq<Sent>, more: seq<Sent>, h: Proposal)
    requires OneHeaderEach(log) && forall g: Proposal :: Proposed(g) in log ==> g.round < h.round
    requires more == log || exists r: Round :: more == log + [SentNoVote(r)]
    ensures OneHeaderEach(more + [Proposed(h)])
  {
    var all := more + [Proposed(h)];
    forall i, j | 0 <= i < j < |all| && all[i].Proposed? && all[j].Proposed?
      ensures all[i].header.round < all[j].header.round
    {
      assert i < |log| && all[i] == log[i];
      assert Proposed(all[i].header) in log;
      assert j < |log| ==> all[j] == log[j];
    }
  }

  lemma TimeoutRises(cfg: ProposerConfig, s: ProposerState, expired: bool)
    requires Rises(cfg, s)
    ensures Rises(cfg, SendTimeout(s, expired))
  {
    var t := SendTimeout(s, expired);
    if t != s {
      RiseMore(s.log, SentTimeout(s.round));
      assert forall x :: x in t.log <==> x in s.log || x == SentTimeout(s.round);
    }
  }

  lemma ProposeRises(cfg: ProposerConfig, s: ProposerState, expired: bool, id: nat)
    requires cfg.committee.Valid() && Rises(cfg, s)
    ensures Rises(cfg, Propose(cfg, SendNoVote(cfg, s, expired), id))
  {
    hide Collect, TimeoutsRise, OneHeaderEach;
    var n := SendNoVote(cfg, s, expired);
    var h := MakeHeader(cfg, n.(round := n.round + 1), id);
    var t := Propose(cfg, n, id);
    assert t.log == n.log + [Proposed(h)];
    if n != s {
      RiseMore(s.log, SentNoVote(s.round));
    }
    RiseMore(n.log, Proposed(h));
    OneHeaderMore(s.log, n.log, h);
    assert forall r: Round :: SentTimeout(r) in t.log ==> SentTimeout(r) in s.log;
    assert forall g: Proposal :: Proposed(g) in t.log ==> Proposed(g) in s.log || g == h;
  }

  lemma ReceiveRises(cfg: ProposerConfig, s: ProposerState, m: Message)
    requires cfg.committee.Valid() && Rises(cfg, s)
    ensures Rises(cfg, Receive(cfg, s, m))
  {
    hide FindOrigin;
    var t := Receive(cfg, s, m);
    assert t.log == s.log && t.timeoutSent == s.timeoutSent && t.round >= s.round;
  }

  lemma {:induction false} RunRises(cfg: ProposerConfig, passes: seq<Pass>)
    requires cfg.committee.Valid()
    ensures Rises(cfg, RunProposer(cfg, passes))
    decreases |passes|
  {
    if passes != [] {
      var pass := passes[|passes| - 1];
      var s := RunProposer(cfg, passes[..|passes| - 1]);
      RunRises(cfg, passes[..|passes| - 1]);
      hide Rises, Propose, SendNoVote, Receive, CanPropose;
      TimeoutRises(cfg, s, pass.expired);
      ProposeRises(cfg, SendTimeout(s, pass.expired), pass.expired, pass.id);
      ReceiveRises(cfg, Decide(cfg, s, pass.expired, pass.id), pass.message);
    }
  }

  /** Header rounds of a proposer strictly increase. */
  lemma OneHeaderPerRound(cfg: ProposerConfig, passes: seq<Pass>, x: Proposal, y: Proposal)
    requires cfg.committee.Valid()
    requires Proposed(x) in RunProposer(cfg, passes).log && Proposed(y) in RunProposer(cfg, passes).log
    requires x.round == y.round
    ensures x == y && x.author == cfg.name
  {
    RunRises(cfg, passes);
    var log := RunProposer(cfg, passes).log;
    var i :| 0 <= i < |log| && log[i] == Proposed(x);
    var j :| 0 <= j < |log| && log[j] == Proposed(y);
    assert i == j;
  }

  /** At most one timeout is sent for a round. */
  lemma OneTimeoutPerRound(cfg: ProposerConfig, passes: seq<Pass>, i: nat, j: nat)
    requires cfg.committee.Valid()
    requires var log := RunProposer(cfg, passes).log;
      i < j < |log| && log[i].SentTimeout? && log[j].SentTimeout?
    ensures RunProposer(cfg, passes).log[i].round < RunProposer(cfg, passes).log[j].round
  {
    RunRises(cfg, passes);
  }

  // ---------- giving up on a leader ----------

  /** A header without the previous leader comes with a no-vote, unless we lead its round. */
  ghost predicate LeaderlessGaveUp(cfg: ProposerConfig, log: seq<Sent>, h: Proposal)
    requires cfg.committee.Valid()
  {
    h.round > 1 && LeavesOut(h, cfg.committee.Leader(h.round - 1)) ==>
      cfg.committee.Leader(h.round) == cfg.name || SentNoVote(h.round - 1) in log
  }

  ghost predicate GaveUp(cfg: ProposerConfig, s: ProposerState)
    requires cfg.committee.Valid()
  {
    && (forall h: Proposal :: Proposed(h) in s.log ==> LeaderlessGaveUp(cfg, s.log, h))
    && (forall r: Round :: SentNoVote(r) in s.log ==> cfg.committee.Leader(r + 1) != cfg.name)
  }

  lemma LeaderListed(cfg: ProposerConfig, s: ProposerState, id: nat)
    requires cfg.committee.Valid() && InStep(cfg, s) && s.round > 0 && s.lastParents != [] && s.lastLeader.Some?
    ensures !LeavesOut(MakeHeader(cfg, s.(round := s.round + 1), id), cfg.committee.Leader(s.round))
  {
    var a := cfg.committee.Leader(s.round);
    var h := MakeHeader(cfg, s.(round := s.round + 1), id);
    FindOriginExact(s.lastParents, a);
    CollectExact(s.lastParents);
    var i :| 0 <= i < |s.lastParents| && s.lastParents[i].header.author == a;
    assert s.lastParents[i].Digest() in h.parents;
  }

  lemma GaveUpMore(cfg: ProposerConfig, log: seq<Sent>, o: Sent, h: Proposal)
    requires cfg.committee.Valid() && LeaderlessGaveUp(cfg, log, h)
    ensures LeaderlessGaveUp(cfg, log + [o], h)
  {}

  lemma TimeoutGaveUp(cfg: ProposerConfig, s: ProposerState, expired: bool)
    requires cfg.committee.Valid() && GaveUp(cfg, s)
    ensures GaveUp(cfg, SendTimeout(s, expired))
  {
    hide LeaderlessGaveUp;
    var t := SendTimeout(s, expired);
    if t != s {
      var o := SentTimeout(s.round);
      assert forall x :: x in t.log <==> x in s.log || x == o;
      forall h: Proposal | Proposed(h) in t.log ensures LeaderlessGaveUp(cfg, t.log, h) {
        GaveUpMore(cfg, s.log, o, h);
      }
    }
  }

  lemma HeadersAfter(cfg: ProposerConfig, log: seq<Sent>, more: seq<Sent>, r: Round, h: Proposal, g: Proposal)
    requires cfg.committee.Valid() && (Proposed(g) in log ==> LeaderlessGaveUp(cfg, log, g))
    requires more == log || more == log + [SentNoVote(r)]
    requires Proposed(g) in more + [Proposed(h)]
    requires LeaderlessGaveUp(cfg, more, h)
    ensures LeaderlessGaveUp(cfg, more + [Proposed(h)], g)
  {
    hide LeaderlessGaveUp;
    if g == h {
      GaveUpMore(cfg, more, Proposed(h), h);
    } else {
      assert Proposed(g) in log;
      if more != log {
        GaveUpMore(cfg, log, SentNoVote(r), g);
      }
      GaveUpMore(cfg, more, Proposed(h), g);
    }
  }

  lemma ProposeGaveUp(cfg: ProposerConfig, s: ProposerState, expired: bool, id: nat)
    requires cfg.committee.Valid() && GaveUp(cfg, s)
    requires var h := MakeHeader(cfg, s.(round := s.round + 1), id);
      s.round > 0 && LeavesOut(h, cfg.committee.Leader(s.round)) ==> expired && s.lastLeader.None?
    ensures GaveUp(cfg, Propose(cfg, SendNoVote(cfg, s, expired), id))
  {
    hide LeavesOut, Collect;
    var h := MakeHeader(cfg, s.(round := s.round + 1), id);
    var n := SendNoVote(cfg, s, expired);
    var t := Propose(cfg, n, id);
    assert t.log == n.log + [Proposed(h)];
    assert n != s ==> n.log[|s.log|] == SentNoVote(s.round);
    assert LeaderlessGaveUp(cfg, n.log, h);
    hide LeaderlessGaveUp;
    forall g: Proposal | Proposed(g) in t.log ensures LeaderlessGaveUp(cfg, t.log, g) {
      HeadersAfter(cfg, s.log, n.log, s.round, h, g);
    }
    assert forall r: Round :: SentNoVote(r) in t.log ==> SentNoVote(r) in s.log || (n != s && r == s.round);
  }

  lemma DecideGaveUp(cfg: ProposerConfig, s: ProposerState, expired: bool, id: nat)
    requires cfg.committee.Valid() && InStep(cfg, s) && GaveUp(cfg, s)
    ensures GaveUp(cfg, Decide(cfg, s, expired, id))
  {
    hide LeavesOut, MakeHeader, GaveUp;
    var t := SendTimeout(s, expired);
    TimeoutGaveUp(cfg, s, expired);
    if CanPropose(cfg, s, expired) {
      SameHeader(cfg, s, t, id);
      if s.round > 0 && s.lastLeader.Some? {
        LeaderListed(cfg, s, id);
      }
      ProposeGaveUp(cfg, t, expired, id);
    }
  }

  lemma ReceiveGaveUp(cfg: ProposerConfig, s: ProposerState, m: Message)
    requires cfg.committee.Valid() && GaveUp(cfg, s)
    ensures GaveUp(cfg, Receive(cfg, s, m))
  {
    hide LeavesOut, FindOrigin;
    var t := Receive(cfg, s, m);
    assert t.log == s.log && t.timeoutSent == s.timeoutSent && t.round >= s.round;
  }

  lemma {:induction false} RunGaveUp(cfg: ProposerConfig, passes: seq<Pass>)
    requires cfg.committee.Valid() && cfg.committee.Total() > 0 && GoodInputs(cfg.committee, passes)
    ensures GaveUp(cfg, RunProposer(cfg, passes))
    decreases |passes|
  {
    if passes != [] {
      var before := passes[..|passes| - 1];
      var pass := passes[|passes| - 1];
      GoodPrefix(cfg.committee, passes);
      RunGaveUp(cfg, before);
      RunGood(cfg, before);
      var s := RunProposer(cfg, before);
      assert InStep(cfg, s);
      hide GaveUp, Decide, Receive, Good, InStep, GoodInputs;
      DecideGaveUp(cfg, s, pass.expired, pass.id);
      ReceiveGaveUp(cfg, Decide(cfg, s, pass.expired, pass.id), pass.message);
    }
  }

  /** A proposer sends a no-vote for a round after genesis exactly when its next header leaves the round's
      leader out and it does not lead that header's round itself. */
  lemma NoVoteExact(cfg: ProposerConfig, passes: seq<Pass>, r: Round, h: Proposal)
    requires cfg.committee.Valid() && cfg.committee.Total() > 0 && GoodInputs(cfg.committee, passes)
    requires r > 0 && Proposed(h) in RunProposer(cfg, passes).log && h.round == r + 1
    ensures SentNoVote(r) in RunProposer(cfg, passes).log <==>
      LeavesOut(h, cfg.committee.Leader(r)) && cfg.committee.Leader(r + 1) != cfg.name
  {
    RunGood(cfg, passes);
    RunGaveUp(cfg, passes);
  }

  // ---------- where headers come from ----------

  predicate HeardParent(c: Committee, passes: seq<Pass>, cert: Certificate) {
    cert in GenesisParents(c) ||
    exists i :: 0 <= i < |passes| && passes[i].message.Parents? && cert in passes[i].message.certificates
  }

  predicate HeardCert(passes: seq<Pass>, m: Message) {
    exists i :: 0 <= i < |passes| && passes[i].message == m
  }

  ghost predicate AllHeard(c: Committee, passes: seq<Pass>, certs: seq<Certificate>) {
    forall i :: 0 <= i < |certs| ==> HeardParent(c, passes, certs[i])
  }

  /** Made from parents and a no-vote certificate we were handed. */
  ghost predicate FromHeard(cfg: ProposerConfig, passes: seq<Pass>, h: Proposal) {
    && h.round > 0 && h.author == cfg.name
    && (exists certs :: h.parents == Collect(certs) && AllHeard(cfg.committee, passes, certs))
    && (h.noVoteCert == Blank(0) || HeardCert(passes, NoVoteCertificate(h.noVoteCert)))
  }

  ghost predicate AllFromHeard(cfg: ProposerConfig, passes: seq<Pass>, s: ProposerState) {
    && AllHeard(cfg.committee, passes, s.lastParents)
    && (s.noVoteCert == Blank(0) || HeardCert(passes, NoVoteCertificate(s.noVoteCert)))
    && forall h: Proposal :: Proposed(h) in s.log ==> FromHeard(cfg, passes, h)
  }

  lemma HeardMore(cfg: ProposerConfig, passes: seq<Pass>, pass: Pass, s: ProposerState)
    requires AllFromHeard(cfg, passes, s)
    ensures AllFromHeard(cfg, passes + [pass], s)
  {
    var all := passes + [pass];
    forall cert: Certificate | HeardParent(cfg.committee, passes, cert) ensures HeardParent(cfg.committee, all, cert) {
      if cert !in GenesisParents(cfg.committee) {
        var i :| 0 <= i < |passes| && passes[i].message.Parents? && cert in passes[i].message.certificates;
        assert all[i] == passes[i];
      }
    }
    forall m: Message | HeardCert(passes, m) ensures HeardCert(all, m) {
      var i :| 0 <= i < |passes| && passes[i].message == m;
      assert all[i] == passes[i];
    }
    hide HeardParent, HeardCert;
    forall h: Proposal | Proposed(h) in s.log ensures FromHeard(cfg, all, h) {
      var certs :| h.parents == Collect(certs) && AllHeard(cfg.committee, passes, certs);
      assert AllHeard(cfg.committee, all, certs);
    }
  }

  lemma MadeFromHeard(cfg: ProposerConfig, passes: seq<Pass>, s: ProposerState, id: nat)
    requires cfg.committee.Valid() && AllFromHeard(cfg, passes, s)
    ensures FromHeard(cfg, passes, MakeHeader(cfg, s.(round := s.round + 1), id))
  {
    hide HeardParent, HeardCert;
    var h := MakeHeader(cfg, s.(round := s.round + 1), id);
    assert h.parents == Collect(s.lastParents);
  }

  lemma DecideHeard(cfg: ProposerConfig, passes: seq<Pass>, s: ProposerState, expired: bool, id: nat)
    requires cfg.committee.Valid() && AllFromHeard(cfg, passes, s)
    ensures AllFromHeard(cfg, passes, Decide(cfg, s, expired, id))
  {
    hide HeardParent, HeardCert, FromHeard, MakeHeader;
    var t := Decide(cfg, s, expired, id);
    var h := MakeHeader(cfg, s.(round := s.round + 1), id);
    if CanPropose(cfg, s, expired) {
      MadeFromHeard(cfg, passes, s, id);
      SameHeader(cfg, s, SendTimeout(s, expired), id);
      SameMade(cfg, SendTimeout(s, expired), expired, id);
      assert forall g: Proposal :: Proposed(g) in t.log ==> Proposed(g) in s.log || g == h;
    } else {
      assert forall g: Proposal :: Proposed(g) in t.log ==> Proposed(g) in s.log;
    }
  }

  lemma SameMade(cfg: ProposerConfig, s: ProposerState, expired: bool, id: nat)
    requires cfg.committee.Valid()
    ensures var n := SendNoVote(cfg, s, expired);
      MakeHeader(cfg, s.(round := s.round + 1), id) == MakeHeader(cfg, n.(round := n.round + 1), id)
  {}

  lemma ReceiveHeard(cfg: ProposerConfig, passes: seq<Pass>, s: ProposerState, pass: Pass)
    requires cfg.committee.Valid() && AllFromHeard(cfg, passes, s)
    ensures AllFromHeard(cfg, passes + [pass], Receive(cfg, s, pass.message))
  {
    HeardMore(cfg, passes, pass, s);
    var all := passes + [pass];
    assert all[|passes|] == pass;
    assert HeardCert(all, pass.message);
    hide FromHeard;
    if pass.message.Parents? {
      forall i | 0 <= i < |pass.message.certificates|
        ensures HeardParent(cfg.committee, all, pass.message.certificates[i])
      {
        assert pass.message.certificates[i] in all[|passes|].message.certificates;
      }
    }
  }

  /** Every header is made from certificates and no-vote certificates the core handed over. */
  lemma {:induction false} RunHeard(cfg: ProposerConfig, passes: seq<Pass>)
    requires cfg.committee.Valid()
    ensures AllFromHeard(cfg, passes, RunProposer(cfg, passes))
    decreases |passes|
  {
    hide AllFromHeard, Decide, Receive;
    if passes == [] {
      InitHeard(cfg);
    } else {
      var before := passes[..|passes| - 1];
      var pass := passes[|passes| - 1];
      RunHeard(cfg, before);
      var s := RunProposer(cfg, before);
      DecideHeard(cfg, before, s, pass.expired, pass.id);
      assert passes == before + [pass];
      ReceiveHeard(cfg, before, Decide(cfg, s, pass.expired, pass.id), pass);
    }
  }

  lemma InitHeard(cfg: ProposerConfig)
    requires cfg.committee.Valid()
    ensures AllFromHeard(cfg, [], InitProposer(cfg))
  {}
}
