/** Certificates are unique per (round, author), and only for headers a correct primary checked. */
module Certification {
  import opened Config
  import opened Dag
  import opened Messages
  import opened Aggregators
  import opened Processing
  import opened CoreRuns

  // ---------- when a primary votes ----------

  /** Processing only adds outputs. */
  lemma {:induction false} ProcessHeaderLogs(cfg: CoreConfig, s: CoreState, header: Proposal)
    requires cfg.committee.Valid()
    ensures s.log <= ProcessHeader(cfg, s, header).state.log
    decreases Pending(Begin(s, header)), 2
  {
    hide Fetch, Passes, ProcessVote;
    var b := Begin(s, header);
    match Fetch(cfg.committee, b.store, header.parents)
    case None =>
    case Some(parents) =>
      if header.author == cfg.name && header.author !in At(b.lastVoted, header.round) {
        ProcessVoteLogs(cfg, Vote(b, header), header.round, cfg.name);
      }
  }

  lemma {:induction false} ProcessVoteLogs(cfg: CoreConfig, s: CoreState, round: Round, author: Author)
    requires cfg.committee.Valid()
    ensures s.log <= ProcessVote(cfg, s, round, author).state.log
    decreases Pending(s), 1
  {
    hide ProcessCertificate;
    var step := AddVote(cfg.committee, s.current, s.votes, author, round);
    if step.reply.Yield? {
      assert step.reply.value.header == s.current;
      ProcessCertificateLogs(cfg, Log(s.(votes := step.box), Assembled(step.reply.value)), step.reply.value);
    }
  }

  lemma {:induction false} ProcessCertificateLogs(cfg: CoreConfig, s: CoreState, cert: Certificate)
    requires cfg.committee.Valid()
    ensures s.log <= ProcessCertificate(cfg, s, cert).state.log
    decreases Pending(s), if IsCurrent(s, cert.header) then 0 else 3
  {
    hide ProcessHeader, Deliver;
    if cert.header.id in At(s.processing, cert.header.round) {
      var step := DeliverParts(cfg, s, cert);
    } else {
      ProcessHeaderLogs(cfg, s, cert.header);
      var t := ProcessHeader(cfg, s, cert.header);
      var step := DeliverParts(cfg, t.state, cert);
    }
  }

  /** Nothing below the collected round is remembered as voted for. */
  predicate Swept(s: CoreState) {
    forall r :: r in s.lastVoted ==> r >= s.gcRound
  }

  lemma {:induction false} RunSwept(cfg: CoreConfig, ticks: seq<Tick>)
    requires cfg.committee.Valid() && Rising(ticks)
    requires Run(cfg, ticks).outcome != Panicked
    ensures Swept(Run(cfg, ticks).state)
    decreases |ticks|
  {
    RunRecords(cfg, ticks);
    hide Handle, Recorded;
    if ticks != [] && ticks[|ticks| - 1].consensusRound <= cfg.gcDepth {
      assert Run(cfg, ticks).state.gcRound == 0;
    }
  }

  /** The header has its parents, passes the checks and has its payload. */
  ghost predicate Votable(cfg: CoreConfig, s: CoreState, header: Proposal)
    requires cfg.committee.Valid()
  {
    match Fetch(cfg.committee, s.store, header.parents)
    case None => false
    case Some(parents) =>
      && parents != [] && Passes(cfg.committee, header, parents)
      && (header.author == cfg.name || header.id in s.payloads)
  }

  /** Processing the header casts a ballot for it, right after forwarding it. */
  ghost predicate VotesFor(cfg: CoreConfig, s: CoreState, header: Proposal)
    requires cfg.committee.Valid()
  {
    s.log + [Forwarded(header), Cast(Ballot(header.id, header.round, header.author))]
      <= ProcessHeader(cfg, s, header).state.log
  }

  lemma VoteExact(cfg: CoreConfig, s: CoreState, header: Proposal)
    requires cfg.committee.Valid() && Votable(cfg, s, header)
    ensures VotesFor(cfg, s, header) <==> header.author !in At(s.lastVoted, header.round)
  {
    hide Fetch, Passes, ProcessVote;
    var b := Begin(s, header);
    if header.author !in At(b.lastVoted, header.round) {
      var v := Vote(b, header);
      assert v.log == s.log + [Forwarded(header), Cast(Ballot(header.id, header.round, header.author))];
      if header.author == cfg.name {
        ProcessVoteLogs(cfg, v, header.round, cfg.name);
      }
    }
  }

  /** After any run, a primary votes for a header that passes its checks just when it has not yet voted for
      that round and author, or the round is below the one it has collected. */
  lemma VotesAgainIff(cfg: CoreConfig, ticks: seq<Tick>, header: Proposal)
    requires cfg.committee.Valid() && Rising(ticks) && Run(cfg, ticks).outcome != Panicked
    requires Votable(cfg, Run(cfg, ticks).state, header)
    ensures var s := Run(cfg, ticks).state;
      VotesFor(cfg, s, header) <==> !HasBallot(s.log, header.round, header.author) || header.round < s.gcRound
  {
    var s := Run(cfg, ticks).state;
    hide Run, Votable, VotesFor;
    RunRecords(cfg, ticks);
    RunSwept(cfg, ticks);
    VoteExact(cfg, s, header);
  }

  // ---------- certificates ----------

  function BallotOf(cert: Certificate): Ballot {
    Ballot(cert.header.id, cert.header.round, cert.header.author)
  }

  /** The correct primaries' runs; everybody else may do anything. */
  datatype Primaries = Primaries(committee: Committee, gcDepth: nat, runs: map<Author, seq<Tick>>)

  ghost function LogOf(sys: Primaries, a: Author): seq<Output>
    requires sys.committee.Valid() && a in sys.runs
  {
    Run(CoreConfig(a, sys.committee, sys.gcDepth), sys.runs[a]).state.log
  }

  ghost predicate RunsRise(sys: Primaries) {
    forall a :: a in sys.runs ==> Rising(sys.runs[a])
  }

  ghost predicate RunsOnTime(sys: Primaries)
    requires sys.committee.Valid()
  {
    forall a :: a in sys.runs ==> OnTimeRun(CoreConfig(a, sys.committee, sys.gcDepth), sys.runs[a])
  }

  /** The members without a correct run stay below the validity threshold. */
  ghost predicate Tolerated(sys: Primaries, faulty: set<Author>) {
    && sys.committee.Weight(faulty) < sys.committee.ValidityThreshold()
    && forall a :: a in sys.committee.Names() ==> a in faulty || a in sys.runs
  }

  /** The certificate passes the weight loop, and no correct primary's signature on it is forged. */
  ghost predicate Certified(sys: Primaries, cert: Certificate)
    requires sys.committee.Valid()
  {
    && Carries(sys.committee, cert.votes)
    && forall a :: a in NameSet(cert.votes) && a in sys.runs ==> Cast(BallotOf(cert)) in LogOf(sys, a)
  }

  /** A set that outweighs the faulty members has a correct one. */
  lemma CorrectMember(sys: Primaries, faulty: set<Author>, s: set<Author>) returns (a: Author)
    requires sys.committee.Valid() && Tolerated(sys, faulty)
    requires sys.committee.Weight(s) >= sys.committee.ValidityThreshold()
    ensures a in s && a in sys.runs
  {
    var c := sys.committee;
    UnionIn(c.authorities, s - faulty, faulty);
    assert (s - faulty) * faulty == {};
    EmptyWeight(c);
    WeightMonotone(c, s, (s - faulty) + faulty);
    WeightMonotone(c, s - faulty, s - faulty);
    a := WitnessIn(c.authorities, s - faulty);
    var i :| 0 <= i < |c.authorities| && c.authorities[i].name == a && c.authorities[i].stake > 0;
    assert a in c.Names();
  }

  /** Certificate uniqueness: with misbehaving stake below the validity threshold, two certificates of one
      round and author carry the same header. */
  lemma CertificateUniqueness(sys: Primaries, faulty: set<Author>, x: Certificate, y: Certificate)
    requires sys.committee.Valid() && RunsRise(sys) && RunsOnTime(sys) && Tolerated(sys, faulty)
    requires Certified(sys, x) && Certified(sys, y)
    requires x.header.round == y.header.round && x.header.author == y.header.author
    ensures x.header.id == y.header.id && x.Digest() == y.Digest()
  {
    var c := sys.committee;
    QuorumOverlap(c, NameSet(x.votes), NameSet(y.votes));
    var a := CorrectMember(sys, faulty, NameSet(x.votes) * NameSet(y.votes));
    OneVoteEach(CoreConfig(a, c, sys.gcDepth), sys.runs[a], BallotOf(x), BallotOf(y));
  }

  /** What a header id is the hash of, read backwards; the hash is collision free. */
  datatype Content = Content(author: Author, round: Round, parents: seq<Digest>)

  predicate HashedTo(preimage: nat -> Content, h: Proposal) {
    preimage(h.id) == Content(h.author, h.round, h.parents)
  }

  /** Correct primaries process only headers whose id is their hash. */
  ghost predicate IdsMatch(sys: Primaries, preimage: nat -> Content)
    requires sys.committee.Valid()
  {
    forall a, h: Proposal :: a in sys.runs && Forwarded(h) in LogOf(sys, a) ==> HashedTo(preimage, h)
  }

  /** The certificate's own parents had all been delivered, are of the previous round and a quorum, and hold the
      leader unless `header` came with timeouts and, from the leader of its round, no-votes. */
  ghost predicate ParentsSound(c: Committee, log: seq<Output>, cert: Certificate, header: Proposal)
    requires c.Valid()
  {
    exists parents ::
      && Fetched(c, log, cert.header, parents) && PreviousRound(cert.header, parents)
      && SumStakes(c, parents) >= c.QuorumThreshold() && cert.header.round > 0
      && (HasLeader(c, cert.header.round, parents) ||
          (Carries(c, header.timeoutCert.names) &&
           (c.Leader(cert.header.round) == cert.header.author ==> Carries(c, header.noVoteCert.names))))
  }

  /** A certified header was checked: some correct primary processed a header with its id, and the parents the
      certificate itself lists had been delivered there, are of the previous round and a quorum, and hold the
      leader, or the timeouts and no-votes were in place. */
  lemma CertifiedWasChecked(sys: Primaries, faulty: set<Author>, preimage: nat -> Content, cert: Certificate)
    returns (a: Author, header: Proposal)
    requires sys.committee.Valid() && Tolerated(sys, faulty) && Certified(sys, cert)
    requires IdsMatch(sys, preimage) && HashedTo(preimage, cert.header)
    ensures a in sys.runs && header.id == cert.header.id && header.parents == cert.header.parents
    ensures ParentsSound(sys.committee, LogOf(sys, a), cert, header)
  {
    ThresholdArithmetic(sys.committee);
    a := CorrectMember(sys, faulty, NameSet(cert.votes));
    RunKeeps(CoreConfig(a, sys.committee, sys.gcDepth), sys.runs[a]);
    var log := LogOf(sys, a);
    assert BallotsChecked(sys.committee, log);
    header :| BallotFor(BallotOf(cert), header) && Checked(sys.committee, log, header);
    assert HashedTo(preimage, header);
    var parents :| Fetched(sys.committee, log, header, parents) && Passes(sys.committee, header, parents);
    assert Fetched(sys.committee, log, cert.header, parents);
  }

  lemma PrefixHas<T>(s: seq<T>, t: seq<T>, x: T)
    requires s <= t && x in s
    ensures x in t
  {
    var i :| 0 <= i < |s| && s[i] == x;
    assert t[i] == x;
  }
}
