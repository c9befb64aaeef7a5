/** A header that comes back from the header waiter below the collected round is voted for again. */
module LateHeaders {
  import opened Config
  import opened Dag
  import opened Ordering
  import opened Messages
  import opened Aggregators
  import opened Processing
  import opened CoreRuns
  import opened Certification

  // ---------- runs that can happen ----------

  ghost predicate Logged(cfg: CoreConfig, ticks: seq<Tick>, o: Output)
    requires cfg.committee.Valid()
  {
    o in Run(cfg, ticks).state.log
  }

  /** The header was handed to the header waiter, and what it waited for has come. */
  ghost predicate Returned(cfg: CoreConfig, ticks: seq<Tick>, h: Proposal)
    requires cfg.committee.Valid()
  {
    || (Logged(cfg, ticks, AwaitPayload(h)) && h.id in Run(cfg, ticks).state.payloads)
    || (Logged(cfg, ticks, AwaitParents(h)) && !MissesParent(cfg.committee, Run(cfg, ticks).state.store, h.parents))
  }

  /** Consensus received the certificate of the round's leader and a certificate listing it that alone has the
      stake to commit it. */
  ghost predicate Committable(cfg: CoreConfig, ticks: seq<Tick>, leader: Certificate, child: Certificate)
    requires cfg.committee.Valid()
  {
    && Logged(cfg, ticks, Delivered(leader)) && leader.header.author == cfg.committee.Leader(leader.header.round)
    && Logged(cfg, ticks, Delivered(child)) && child.header.round == leader.header.round + 1
    && leader.Digest() in child.header.parents
    && cfg.committee.Stake(child.header.author) >= cfg.committee.ValidityThreshold()
  }

  /** Whatever comes back was handed out before, and a consensus round was committed on what was delivered. */
  ghost predicate CanHappen(cfg: CoreConfig, before: seq<Tick>, tick: Tick)
    requires cfg.committee.Valid()
  {
    && (forall h: Proposal :: tick.input == LoopHeader(h) ==> Returned(cfg, before, h))
    && !tick.input.LoopCertificate?
    && (tick.consensusRound > 0 ==>
          exists leader: Certificate, child: Certificate :: leader.header.round == tick.consensusRound &&
            Committable(cfg, before, leader, child))
  }

  ghost predicate RunCanHappen(cfg: CoreConfig, ticks: seq<Tick>)
    requires cfg.committee.Valid()
  {
    forall i :: 0 <= i < |ticks| ==> CanHappen(cfg, ticks[..i], ticks[i])
  }

  // ---------- the run ----------

  /** Authority 1 processes headers of authority 0, which is a quorum by itself; rounds are collected as soon as
      they are committed. */
  function LateConfig(): CoreConfig {
    CoreConfig(1, Committee([Authority(0, 4), Authority(1, 1)]), 0)
  }

  /** Two headers of authority 0 for round one. */
  function LateHeader(id: nat): Proposal {
    Proposal(id, 0, 1, [GenesisVertex(0).Digest()], Blank(0), Blank(0))
  }

  /** Authority 0's certificates of rounds 1 to 3, each on top of the one before; the leader of round 1 is
      missing, so that the second comes with a timeout and a no-vote. */
  function Chained(r: Round): Certificate {
    if r <= 1 then Certificate(LateHeader(1), [0])
    else
      var missing := QuorumCert(r - 1, [0]);
      Certificate(Proposal(r + 1, 0, r, [Chained(r - 1).Digest()], missing, missing), [0])
  }

  function LateTick(k: nat): Tick {
    match k
    case 0 => Tick(PayloadStored(1), 0)
    case 1 => Tick(NetHeader(LateHeader(1)), 0)
    case 2 => Tick(NetHeader(LateHeader(2)), 0)
    case 3 => Tick(NetCertificate(Chained(1)), 0)
    case 4 => Tick(NetCertificate(Chained(2)), 0)
    case 5 => Tick(NetCertificate(Chained(3)), 0)
    case 6 => Tick(PayloadStored(2), 0)
    case 7 => Tick(NetTimeout(0, 3), 2)
    case _ => Tick(LoopHeader(LateHeader(2)), 2)
  }

  function LateTicks(k: nat): seq<Tick> {
    if k == 0 then [] else LateTicks(k - 1) + [LateTick(k - 1)]
  }

  lemma {:induction false} LateTicksAt(k: nat, i: nat)
    requires i <= k
    ensures |LateTicks(k)| == k && LateTicks(k)[..i] == LateTicks(i) && (i < k ==> LateTicks(k)[i] == LateTick(i))
  {
    if i < k {
      LateTicksAt(k - 1, i);
    }
    if k > 0 {
      LateTicksAt(k - 1, k - 1);
    }
  }

  lemma LateCommittee()
    ensures LateConfig().committee.Valid() && LateConfig().name == 1 && LateConfig().gcDepth == 0
    ensures LateConfig().committee.Stake(0) == 4 && Carries(LateConfig().committee, [0])
    ensures LateConfig().committee.QuorumThreshold() == 4 && LateConfig().committee.ValidityThreshold() == 2
    ensures LateConfig().committee.Leader(0) == 0 && LateConfig().committee.Leader(1) == 1 &&
      LateConfig().committee.Leader(2) == 0
    ensures 0 in LateConfig().committee.Names()
  {
    var c := LateConfig().committee;
    assert c.authorities[1..] == [Authority(1, 1)] && c.authorities[1..][1..] == [];
    assert c.Total() == 5;
    assert c.authorities[0].name in c.Names();
    assert [0][0] == 0 && NameSet([0]) == {0};
    assert WeightIn(c.authorities[1..], {0}) == 0;
    assert c.Weight({0}) == 4;
  }

  // ---------- the parents of a header with a single one ----------

  lemma FetchOne(c: Committee, store: map<Digest, Certificate>, d: Digest, p: Certificate)
    requires Resolve(c, store, d) == Some(p)
    ensures Fetch(c, store, [d]) == Some([p]) && !MissesParent(c, store, [d])
  {
    assert Fetch(c, store, []) == Some([]);
    assert [d][..0] == [] && [] + [p] == [p];
  }

  lemma PassesOne(h: Proposal, p: Certificate)
    requires p.header.author == 0 && p.header.round + 1 == h.round
    requires LateConfig().committee.Valid()
    requires LateConfig().committee.Leader(h.round - 1) == 0 ||
      (h.timeoutCert.names == [0] && h.noVoteCert.names == [0])
    ensures Passes(LateConfig().committee, h, [p])
  {
    LateCommittee();
    var c := LateConfig().committee;
    hide LateConfig, Carries;
    assert [p][..0] == [] && SumStakes(c, []) == 0 && SumStakes(c, [p]) == 4;
    assert [p][0].header.author == 0;
  }

  lemma LateReady(store: map<Digest, Certificate>, id: nat)
    ensures LateConfig().committee.Valid()
    ensures Fetch(LateConfig().committee, store, LateHeader(id).parents) == Some([GenesisCertificate(0)])
    ensures !MissesParent(LateConfig().committee, store, LateHeader(id).parents)
    ensures Passes(LateConfig().committee, LateHeader(id), [GenesisCertificate(0)])
  {
    LateCommittee();
    hide LateConfig, Passes, Fetch;
    FetchOne(LateConfig().committee, store, GenesisVertex(0).Digest(), GenesisCertificate(0));
    PassesOne(LateHeader(id), GenesisCertificate(0));
  }

  // ---------- single steps ----------

  lemma RunNext(cfg: CoreConfig, ticks: seq<Tick>, tick: Tick)
    requires cfg.committee.Valid() && Run(cfg, ticks).outcome != Panicked
    ensures Run(cfg, ticks + [tick]) == OnTick(cfg, Run(cfg, ticks).state, tick)
  {
    assert (ticks + [tick])[..|ticks|] == ticks;
  }

  lemma LateNext(k: nat)
    requires LateConfig().committee.Valid() && Run(LateConfig(), LateTicks(k)).outcome != Panicked
    ensures Run(LateConfig(), LateTicks(k + 1)) ==
      OnTick(LateConfig(), Run(LateConfig(), LateTicks(k)).state, LateTick(k))
  {
    hide Run, OnTick, LateTick, LateConfig;
    RunNext(LateConfig(), LateTicks(k), LateTick(k));
  }

  lemma PayloadTick(cfg: CoreConfig, s: CoreState, id: nat)
    requires cfg.committee.Valid()
    ensures OnTick(cfg, s, Tick(PayloadStored(id), 0)) == Turn(s.(payloads := s.payloads + {id}), Done)
  {}

  /** A peer's header that passes its checks: voted for, unless it was before or its payload is not here. */
  lemma HeaderResult(cfg: CoreConfig, s: CoreState, h: Proposal, parents: seq<Certificate>)
    requires cfg.committee.Valid() && h.author != cfg.name
    requires Fetch(cfg.committee, s.store, h.parents) == Some(parents) && parents != [] &&
      Passes(cfg.committee, h, parents)
    ensures var b := Begin(s, h);
      ProcessHeader(cfg, s, h) ==
        Turn(if h.id !in s.payloads then Log(b, AwaitPayload(h))
             else if h.author in At(s.lastVoted, h.round) then b
             else Vote(b, h), Done)
  {
    hide Fetch, Passes, ProcessVote, Vote, Log;
    assert Begin(s, h).store == s.store && Begin(s, h).payloads == s.payloads &&
      Begin(s, h).lastVoted == s.lastVoted by {
      BeginFrame(s, h);
    }
  }

  lemma BeginFrame(s: CoreState, h: Proposal)
    ensures var b := Begin(s, h);
      && b.store == s.store && b.payloads == s.payloads && b.lastVoted == s.lastVoted && b.gcRound == s.gcRound
      && b.log == s.log + [Forwarded(h)] && h.id in At(b.processing, h.round)
  {}

  lemma VoteFrame(s: CoreState, h: Proposal)
    ensures var v := Vote(s, h);
      && v.store == s.store && v.payloads == s.payloads && v.gcRound == s.gcRound && v.processing == s.processing
      && v.log == s.log + [Cast(Ballot(h.id, h.round, h.author))]
  {}

  /** Processing a peer's header leaves the store and the payloads alone. */
  lemma HeaderFrame(cfg: CoreConfig, s: CoreState, h: Proposal, parents: seq<Certificate>)
    requires cfg.committee.Valid() && h.author != cfg.name
    requires Fetch(cfg.committee, s.store, h.parents) == Some(parents) && parents != [] &&
      Passes(cfg.committee, h, parents)
    ensures var t := ProcessHeader(cfg, s, h);
      && t.outcome == Done && t.state.payloads == s.payloads && t.state.gcRound == s.gcRound && t.state.store == s.store
      && s.log <= t.state.log
      && (h.id !in s.payloads ==> AwaitPayload(h) in t.state.log)
      && (h.id in s.payloads && h.author !in At(s.lastVoted, h.round) ==>
        Cast(Ballot(h.id, h.round, h.author)) in t.state.log)
  {
    hide Fetch, Passes, ProcessHeader, Begin, Vote;
    HeaderResult(cfg, s, h, parents);
    BeginFrame(s, h);
    VoteFrame(Begin(s, h), h);
  }

  lemma HeaderTick(cfg: CoreConfig, s: CoreState, h: Proposal, parents: seq<Certificate>)
    requires cfg.committee.Valid() && h.author != cfg.name
    requires Fetch(cfg.committee, s.store, h.parents) == Some(parents) && parents != [] &&
      Passes(cfg.committee, h, parents)
    requires s.gcRound <= h.round && cfg.committee.Stake(h.author) > 0
    ensures OnTick(cfg, s, Tick(NetHeader(h), 0)) == ProcessHeader(cfg, s, h)
  {
    hide Fetch, Passes, ProcessHeader;
    HeaderFrame(cfg, s, h, parents);
  }

  lemma DeliverFrame(cfg: CoreConfig, s: CoreState, cert: Certificate)
    requires !MissesParent(cfg.committee, s.store, cert.header.parents)
    ensures var t := Deliver(cfg, s, cert);
      && t.outcome == Done && t.state.payloads == s.payloads && t.state.gcRound == s.gcRound
      && t.state.store == s.store[cert.Digest() := cert] && s.log <= t.state.log && Delivered(cert) in t.state.log
  {
    hide AddCertificate, MissesParent;
    var step := DeliverParts(cfg, s, cert);
    var log := Deliver(cfg, s, cert).state.log;
    assert log[|log| - 1] == Delivered(cert);
  }

  /** A peer's certificate whose parents are here is delivered. */
  lemma CertificateTick(cfg: CoreConfig, s: CoreState, cert: Certificate, parents: seq<Certificate>)
    requires cfg.committee.Valid() && cert.header.author != cfg.name && Acceptable(cfg.committee, cert)
    requires Fetch(cfg.committee, s.store, cert.header.parents) == Some(parents) && parents != []
    requires Passes(cfg.committee, cert.header, parents) && !MissesParent(cfg.committee, s.store, cert.header.parents)
    requires s.gcRound <= cert.header.round
    ensures var t := OnTick(cfg, s, Tick(NetCertificate(cert), 0));
      && t.outcome == Done && t.state.payloads == s.payloads && t.state.gcRound == s.gcRound
      && t.state.store == s.store[cert.Digest() := cert] && s.log <= t.state.log && Delivered(cert) in t.state.log
  {
    hide Fetch, Passes, ProcessHeader, Deliver, MissesParent, Acceptable;
    if cert.header.id in At(s.processing, cert.header.round) {
      DeliverFrame(cfg, s, cert);
    } else {
      HeaderFrame(cfg, s, cert.header, parents);
      DeliverFrame(cfg, ProcessHeader(cfg, s, cert.header).state, cert);
    }
  }

  lemma TimeoutTick(cfg: CoreConfig, s: CoreState, a: Author, r: Round, consensusRound: Round)
    requires cfg.committee.Valid() && cfg.committee.Stake(a) > 0 && s.gcRound <= r && consensusRound > cfg.gcDepth
    ensures var t := OnTick(cfg, s, Tick(NetTimeout(a, r), consensusRound));
      && t.outcome != Panicked && t.state.payloads == s.payloads && t.state.gcRound == consensusRound - cfg.gcDepth
      && s.log <= t.state.log
  {
    hide AddName;
  }

  // ---------- the run, tick by tick ----------

  /** The state after k ticks. */
  ghost function LateState(k: nat): Turn {
    LateCommittee();
    Run(LateConfig(), LateTicks(k))
  }

  lemma LateStart() returns (s: CoreState)
    ensures LateState(1) == Turn(s, Done) && s == INIT_CORE.(payloads := {1})
  {
    LateCommittee();
    hide OnTick, LateConfig;
    assert LateState(0) == Turn(INIT_CORE, Done);
    LateNext(0);
    PayloadTick(LateConfig(), INIT_CORE, 1);
    s := INIT_CORE.(payloads := INIT_CORE.payloads + {1});
  }

  /** Both headers have been met: one was voted for, the other waits for its payload. */
  lemma BothMet() returns (s: CoreState)
    ensures LateState(3) == Turn(s, Done) && s.payloads == {1} && s.gcRound == 0
    ensures Cast(Ballot(1, 1, 0)) in s.log && AwaitPayload(LateHeader(2)) in s.log
  {
    hide OnTick, LateConfig, Run, Passes, Fetch, ProcessHeader;
    LateCommittee();
    var s1 := LateStart();
    LateNext(1);
    LateReady(s1.store, 1);
    HeaderTick(LateConfig(), s1, LateHeader(1), [GenesisCertificate(0)]);
    HeaderFrame(LateConfig(), s1, LateHeader(1), [GenesisCertificate(0)]);
    var s2 := LateState(2).state;
    LateNext(2);
    LateReady(s2.store, 2);
    HeaderTick(LateConfig(), s2, LateHeader(2), [GenesisCertificate(0)]);
    HeaderFrame(LateConfig(), s2, LateHeader(2), [GenesisCertificate(0)]);
    s := LateState(3).state;
    PrefixHas(s2.log, s.log, Cast(Ballot(1, 1, 0)));
  }

  lemma ChainedParts(r: Round)
    requires r == 2 || r == 3
    ensures var h := Chained(r).header;
      && h.author == 0 && h.round == r && h.parents == [Chained(r - 1).Digest()]
      && h.timeoutCert.names == [0] && h.noVoteCert.names == [0] && Chained(r).votes == [0]
    ensures Chained(r - 1).header.author == 0 && Chained(r - 1).header.round == r - 1
    ensures !GenesisDigest(LateConfig().committee, Chained(r - 1).Digest())
  {
    if r == 3 {
      assert Chained(2).header.round == 2;
    }
  }

  lemma ChainedReady(store: map<Digest, Certificate>, r: Round)
    requires r == 2 || r == 3
    requires Chained(r - 1).Digest() in store && store[Chained(r - 1).Digest()] == Chained(r - 1)
    ensures LateConfig().committee.Valid() && Acceptable(LateConfig().committee, Chained(r))
    ensures Fetch(LateConfig().committee, store, Chained(r).header.parents) == Some([Chained(r - 1)])
    ensures !MissesParent(LateConfig().committee, store, Chained(r).header.parents)
    ensures Passes(LateConfig().committee, Chained(r).header, [Chained(r - 1)])
  {
    LateCommittee();
    ChainedParts(r);
    hide LateConfig, Passes, Fetch, Carries, Chained;
    FetchOne(LateConfig().committee, store, Chained(r - 1).Digest(), Chained(r - 1));
    PassesOne(Chained(r).header, Chained(r - 1));
  }

  /** The certificates of rounds 1 to 3 have been sent to consensus. */
  lemma LateChain() returns (s: CoreState)
    ensures LateState(6) == Turn(s, Done) && s.payloads == {1} && s.gcRound == 0
    ensures Cast(Ballot(1, 1, 0)) in s.log && AwaitPayload(LateHeader(2)) in s.log
    ensures Delivered(Chained(2)) in s.log && Delivered(Chained(3)) in s.log
  {
    hide OnTick, LateConfig, Run, Passes, Fetch, Acceptable, Chained, MissesParent;
    LateCommittee();
    var s3 := BothMet();
    FirstChained();
    LateReady(s3.store, 1);
    LateNext(3);
    CertificateTick(LateConfig(), s3, Chained(1), [GenesisCertificate(0)]);
    var s4 := LateState(4).state;
    ChainedParts(2);
    ChainedReady(s4.store, 2);
    LateNext(4);
    CertificateTick(LateConfig(), s4, Chained(2), [Chained(1)]);
    var s5 := LateState(5).state;
    ChainedParts(3);
    ChainedReady(s5.store, 3);
    LateNext(5);
    CertificateTick(LateConfig(), s5, Chained(3), [Chained(2)]);
    s := LateState(6).state;
    assert s3.log <= s.log;
    PrefixHas(s3.log, s.log, Cast(Ballot(1, 1, 0)));
    PrefixHas(s3.log, s.log, AwaitPayload(LateHeader(2)));
    PrefixHas(s5.log, s.log, Delivered(Chained(2)));
  }

  lemma FirstChained()
    ensures Chained(1).header == LateHeader(1) && Chained(1).votes == [0]
    ensures LateConfig().committee.Valid() && Acceptable(LateConfig().committee, Chained(1))
  {
    LateCommittee();
  }

  /** The payload has come, and consensus has committed round 2. */
  lemma LateCollected() returns (s7: CoreState, s: CoreState)
    ensures LateState(7) == Turn(s7, Done) && LateState(8).state == s && LateState(8).outcome != Panicked
    ensures AwaitPayload(LateHeader(2)) in s7.log && Delivered(Chained(2)) in s7.log && Delivered(Chained(3)) in s7.log
    ensures s7.log <= s.log && 2 in s.payloads && s.gcRound == 2
    ensures Cast(Ballot(1, 1, 0)) in s.log
  {
    hide OnTick, LateConfig, Run, Chained;
    LateCommittee();
    var s6 := LateChain();
    LateNext(6);
    PayloadTick(LateConfig(), s6, 2);
    s7 := LateState(7).state;
    LateNext(7);
    TimeoutTick(LateConfig(), s7, 0, 3, 2);
    s := LateState(8).state;
    PrefixHas(s7.log, s.log, Cast(Ballot(1, 1, 0)));
  }

  // ---------- the main result ----------

  lemma LateVote(s: CoreState)
    requires LateState(8).state == s && LateState(8).outcome != Panicked && 2 in s.payloads && s.gcRound == 2
    ensures LateConfig().committee.Valid()
    ensures Cast(Ballot(2, 1, 0)) in ProcessHeader(LateConfig(), s, LateHeader(2)).state.log
    ensures s.log <= ProcessHeader(LateConfig(), s, LateHeader(2)).state.log
  {
    LateCommittee();
    LateRising(8);
    LateReady(s.store, 2);
    assert Votable(LateConfig(), s, LateHeader(2));
    hide Run, ProcessHeader, Votable, LateConfig;
    VotesAgainIff(LateConfig(), LateTicks(8), LateHeader(2));
    var begun := s.log + [Forwarded(LateHeader(2)), Cast(Ballot(2, 1, 0))];
    var log := ProcessHeader(LateConfig(), s, LateHeader(2)).state.log;
    assert begun <= log;
    assert log[|s.log| + 1] == begun[|s.log| + 1];
    ProcessHeaderLogs(LateConfig(), s, LateHeader(2));
  }

  lemma LateRising(k: nat)
    requires k <= 9
    ensures Rising(LateTicks(k))
  {
    forall i, j | 0 <= i < j < |LateTicks(k)| ensures LateTicks(k)[i].consensusRound <= LateTicks(k)[j].consensusRound {
      LateTicksAt(k, i);
      LateTicksAt(k, j);
    }
  }

  lemma LateReturned(s7: CoreState, s: CoreState)
    requires LateState(7) == Turn(s7, Done) && LateState(8).state == s
    requires AwaitPayload(LateHeader(2)) in s7.log && s7.log <= s.log && 2 in s.payloads
    ensures LateConfig().committee.Valid() && Returned(LateConfig(), LateTicks(8), LateHeader(2))
  {
    LateCommittee();
    hide Run, LateConfig;
    PrefixHas(s7.log, s.log, AwaitPayload(LateHeader(2)));
  }

  lemma LateCommittable(k: nat, s7: CoreState, s: CoreState)
    requires k == 7 || k == 8
    requires LateState(7) == Turn(s7, Done) && LateState(8).state == s && s7.log <= s.log
    requires Delivered(Chained(2)) in s7.log && Delivered(Chained(3)) in s7.log
    ensures LateConfig().committee.Valid() && Committable(LateConfig(), LateTicks(k), Chained(2), Chained(3))
    ensures Chained(2).header.round == 2
  {
    LateCommittee();
    ChainedParts(3);
    hide Run, LateConfig, Chained;
    PrefixHas(s7.log, s.log, Delivered(Chained(2)));
    PrefixHas(s7.log, s.log, Delivered(Chained(3)));
  }

  lemma LateCanHappen(s7: CoreState, s: CoreState)
    requires LateState(7) == Turn(s7, Done) && LateState(8).state == s && s7.log <= s.log && 2 in s.payloads
    requires AwaitPayload(LateHeader(2)) in s7.log && Delivered(Chained(2)) in s7.log && Delivered(Chained(3)) in s7.log
    ensures LateConfig().committee.Valid() && RunCanHappen(LateConfig(), LateTicks(9))
  {
    LateCommittee();
    LateReturned(s7, s);
    LateCommittable(7, s7, s);
    LateCommittable(8, s7, s);
    hide Run, LateConfig, Chained, Returned, Committable;
    forall i | 0 <= i < |LateTicks(9)| ensures CanHappen(LateConfig(), LateTicks(9)[..i], LateTicks(9)[i]) {
      LateTicksAt(9, i);
    }
  }

  /** Without the hypothesis on late headers votes are not unique: on this run, on which nothing comes back that
      was not waited for and only what was delivered is committed, a primary votes for two headers of one round
      and author. */
  lemma LateHeaderVotedTwice() returns (cfg: CoreConfig, ticks: seq<Tick>, x: Ballot, y: Ballot)
    ensures cfg.committee.Valid() && Rising(ticks) && RunCanHappen(cfg, ticks)
    ensures Cast(x) in Run(cfg, ticks).state.log && Cast(y) in Run(cfg, ticks).state.log
    ensures x.round == y.round && x.origin == y.origin && x != y
  {
    hide Run, ProcessHeader, OnTick, Handle, LateConfig, LateHeader, LateTicks, Rising, RunCanHappen, Chained;
    cfg, ticks := LateConfig(), LateTicks(9);
    x, y := Ballot(1, 1, 0), Ballot(2, 1, 0);
    LateCommittee();
    var s7, s := LateCollected();
    LateRising(9);
    LateCanHappen(s7, s);
    LateVote(s);
    LateNext(8);
    LoopRuns(cfg, s, LateHeader(2));
    PrefixHas(s.log, ProcessHeader(cfg, s, LateHeader(2)).state.log, Cast(x));
  }

  lemma LoopRuns(cfg: CoreConfig, s: CoreState, h: Proposal)
    requires cfg.committee.Valid()
    ensures OnTick(cfg, s, Tick(LoopHeader(h), 2)).state.log == ProcessHeader(cfg, s, h).state.log
  {
    hide ProcessHeader;
  }
}
