/** The in-place core of primary/src/core.rs and its synchronizer, proved equal to the functions of Processing. */
module Core {
  import opened Config
  import opened Dag
  import opened Messages
  import opened Aggregators
  import opened Processing

  class Core {
    const name: Author
    const committee: Committee
    const gcDepth: nat

    var store: map<Digest, Certificate>
    var payloads: set<nat>
    var gcRound: Round
    var lastVoted: map<Round, set<Author>>
    var processing: map<Round, set<nat>>
    var currentHeader: Proposal
    var votesAggregator: VoteBox
    var certificatesAggregators: map<Round, CertificateBox>
    var timeoutsAggregators: map<Round, NameBox>
    var noVoteAggregators: map<Round, NameBox>
    /** What was sent on the channels, in order. */
    var log: seq<Output>

    ghost function Config(): CoreConfig {
      CoreConfig(name, committee, gcDepth)
    }

    ghost function Value(): CoreState
      reads this
    {
      CoreState(store, payloads, gcRound, lastVoted, processing, currentHeader, votesAggregator,
                certificatesAggregators, timeoutsAggregators, noVoteAggregators, log)
    }

    constructor (name: Author, committee: Committee, gcDepth: nat)
      ensures Config() == CoreConfig(name, committee, gcDepth)
      ensures Value() == INIT_CORE
    {
      this.name, this.committee, this.gcDepth := name, committee, gcDepth;
      store, payloads, gcRound := map[], {}, 0;
      lastVoted, processing := map[], map[];
      currentHeader, votesAggregator := NO_HEADER, EMPTY_VOTES;
      certificatesAggregators, timeoutsAggregators, noVoteAggregators := map[], map[], map[];
      log := [];
    }

    // ---------- the synchronizer ----------

    /** The parents of the header, or nothing, with a request to the header waiter, if one is missing. */
    method GetParents(header: Proposal) returns (parents: seq<Certificate>)
      modifies this`log
      ensures match Fetch(committee, store, header.parents)
              case Some(found) => parents == found && log == old(log)
              case None => parents == [] && log == old(log) + [AwaitParents(header)]
    {
      parents := [];
      var missing: seq<Digest> := [];
      assert header.parents[..0] == [];
      for i := 0 to |header.parents|
        invariant missing == [] <==> Fetch(committee, store, header.parents[..i]).Some?
        invariant missing == [] ==> Fetch(committee, store, header.parents[..i]) == Some(parents)
      {
        var d := header.parents[i];
        assert header.parents[..i + 1][..i] == header.parents[..i];
        if GenesisDigest(committee, d) {
          parents := parents + [GenesisCertificate(d.origin)];
        } else if d in store {
          parents := parents + [store[d]];
        } else {
          missing := missing + [d];
        }
      }
      assert header.parents[..|header.parents|] == header.parents;
      if missing != [] {
        log := log + [AwaitParents(header)];
        parents := [];
      }
    }

    /** Whether all ancestors are stored; if not, the certificate waiter gets the certificate. */
    method HasAncestors(certificate: Certificate) returns (ready: bool)
      modifies this`log
      ensures ready <==> !MissesParent(committee, store, certificate.header.parents)
      ensures log == if ready then old(log) else old(log) + [AwaitAncestors(certificate)]
    {
      var parents := certificate.header.parents;
      for i := 0 to |parents|
        invariant log == old(log)
        invariant forall j :: 0 <= j < i ==> Resolve(committee, store, parents[j]) != None
      {
        if !GenesisDigest(committee, parents[i]) && parents[i] !in store {
          log := log + [AwaitAncestors(certificate)];
          assert Resolve(committee, store, parents[i]) == None;
          return false;
        }
      }
      return true;
    }

    /** The structural checks before a vote. */
    method CheckHeader(header: Proposal, parents: seq<Certificate>) returns (ok: bool)
      requires committee.Valid() && parents != []
      ensures ok <==> Passes(committee, header, parents)
    {
      var stake := 0;
      var hasLeader := false;
      assert parents[..0] == [];
      for i := 0 to |parents|
        invariant i > 0 ==> header.round > 0
        invariant forall j :: 0 <= j < i ==> parents[j].header.round + 1 == header.round
        invariant stake == SumStakes(committee, parents[..i])
        invariant hasLeader <==>
          i > 0 && exists j :: 0 <= j < i && parents[j].header.author == committee.Leader(header.round - 1)
      {
        var x := parents[i];
        if x.header.round + 1 != header.round {
          return false;
        }
        assert parents[..i + 1][..i] == parents[..i];
        stake := stake + committee.Stake(x.header.author);
        hasLeader := hasLeader || x.header.author == committee.Leader(header.round - 1);
      }
      assert parents[..|parents|] == parents;
      if stake < committee.QuorumThreshold() {
        return false;
      }
      if !hasLeader {
        var timeouts := VerifyWeight(committee, header.timeoutCert.names);
        if timeouts.Failed? {
          return false;
        }
        if committee.Leader(header.round) == header.author {
          var noVotes := VerifyWeight(committee, header.noVoteCert.names);
          return noVotes.Passed?;
        }
      }
      return true;
    }

    // ---------- processing ----------

    method ProcessHeader(header: Proposal) returns (outcome: Outcome)
      requires committee.Valid()
      modifies this
      ensures Turn(Value(), outcome) == Processing.ProcessHeader(Config(), old(Value()), header)
      decreases Pending(Begin(Value(), header)), 2
    {
      hide Fetch, Passes, Processing.ProcessVote;
      log := log + [Forwarded(header)];
      processing := processing[header.round := At(processing, header.round) + {header.id}];
      var parents := GetParents(header);
      if parents == [] {
        return Done;
      }
      var ok := CheckHeader(header, parents);
      if !ok {
        return Rejected;
      }
      if header.author != name && header.id !in payloads {
        log := log + [AwaitPayload(header)];
        return Done;
      }
      if header.author in At(lastVoted, header.round) {
        return Done;
      }
      lastVoted := lastVoted[header.round := At(lastVoted, header.round) + {header.author}];
      log := log + [Cast(Ballot(header.id, header.round, header.author))];
      if header.author == name {
        var voted := ProcessVote(header.round, name);
        return if voted == Done then Done else Panicked;
      }
      return Done;
    }

    method ProcessVote(round: Round, author: Author) returns (outcome: Outcome)
      requires committee.Valid()
      modifies this
      ensures Turn(Value(), outcome) == Processing.ProcessVote(Config(), old(Value()), round, author)
      decreases Pending(Value()), 1
    {
      hide Processing.ProcessCertificate;
      var step := AddVote(committee, currentHeader, votesAggregator, author, round);
      votesAggregator := step.box;
      match step.reply {
        case Refused(_) => return Rejected;
        case Nothing => return Done;
        case Yield(certificate) =>
          log := log + [Assembled(certificate)];
          var processed := ProcessCertificate(certificate);
          return if processed == Done then Done else Panicked;
      }
    }

    method ProcessCertificate(certificate: Certificate) returns (outcome: Outcome)
      requires committee.Valid()
      modifies this
      ensures Turn(Value(), outcome) == Processing.ProcessCertificate(Config(), old(Value()), certificate)
      decreases Pending(Value()), if IsCurrent(Value(), certificate.header) then 0 else 3
    {
      hide Processing.ProcessHeader, Processing.Deliver;
      if certificate.header.id !in At(processing, certificate.header.round) {
        var processed := ProcessHeader(certificate.header);
        if processed != Done {
          return processed;
        }
      }
      outcome := Deliver(certificate);
    }

    method Deliver(certificate: Certificate) returns (outcome: Outcome)
      modifies this
      ensures Turn(Value(), outcome) == Processing.Deliver(Config(), old(Value()), certificate)
    {
      hide MissesParent, AddCertificate;
      var ready := HasAncestors(certificate);
      if !ready {
        return Done;
      }
      store := store[certificate.Digest() := certificate];
      var r := certificate.header.round;
      var step := AddCertificate(committee,
        if r in certificatesAggregators then certificatesAggregators[r] else EMPTY_CERTIFICATES, certificate);
      certificatesAggregators := certificatesAggregators[r := step.box];
      if step.reply.Yield? {
        log := log + [NewParents(step.reply.value, r)];
      }
      log := log + [Delivered(certificate)];
      return Done;
    }

    method ProcessTimeout(author: Author, round: Round) returns (outcome: Outcome)
      modifies this
      ensures Turn(Value(), outcome) == Processing.ProcessTimeout(Config(), old(Value()), author, round)
    {
      hide AddName;
      var box := if round in timeoutsAggregators then timeoutsAggregators[round] else EMPTY_NAMES;
      var step := AddName(committee, box, author, round);
      timeoutsAggregators := timeoutsAggregators[round := step.box];
      match step.reply {
        case Refused(_) => return Rejected;
        case Nothing => return Done;
        case Yield(cert) =>
          log := log + [TimeoutQuorum(cert)];
          return Done;
      }
    }

    method ProcessNoVoteMsg(author: Author, round: Round) returns (outcome: Outcome)
      modifies this
      ensures Turn(Value(), outcome) == Processing.ProcessNoVote(Config(), old(Value()), author, round)
    {
      hide AddName;
      if round !in noVoteAggregators {
        var initial := AddName(committee, EMPTY_NAMES, name, round);
        noVoteAggregators := noVoteAggregators[round := initial.box];
      }
      var step := AddName(committee, noVoteAggregators[round], author, round);
      noVoteAggregators := noVoteAggregators[round := step.box];
      match step.reply {
        case Refused(_) => return Rejected;
        case Nothing => return Done;
        case Yield(cert) =>
          log := log + [NoVoteQuorum(cert)];
          return Done;
      }
    }

    // ---------- the main loop ----------

    method Sanitize(input: Input) returns (sane: bool)
      requires committee.Valid()
      ensures sane <==> Sane(Config(), Value(), input)
    {
      match input {
        case NetHeader(h) => return gcRound <= h.round && committee.Stake(h.author) > 0;
        case NetTimeout(a, r) => return gcRound <= r && committee.Stake(a) > 0;
        case NetNoVote(a, r) => return gcRound <= r && committee.Stake(a) > 0;
        case NetVote(b, a) =>
          return b.id == currentHeader.id && b.origin == currentHeader.author && b.round == currentHeader.round
              && committee.Stake(a) > 0;
        case NetCertificate(certificate) =>
          if gcRound > certificate.header.round {
            return false;
          }
          var check := VerifyCertificate(committee, certificate);
          return check.Passed?;
        case _ => return true;
      }
    }

    method Dispatch(input: Input) returns (outcome: Outcome)
      requires committee.Valid()
      modifies this
      ensures Turn(Value(), outcome) == Handle(Config(), old(Value()), input)
    {
      hide Sane, Processing.ProcessHeader, Processing.ProcessVote, Processing.ProcessCertificate,
           Processing.ProcessTimeout, Processing.ProcessNoVote;
      var sane := Sanitize(input);
      if !sane {
        return Rejected;
      }
      match input {
        case NetHeader(h) => outcome := ProcessHeader(h);
        case NetTimeout(a, r) => outcome := ProcessTimeout(a, r);
        case NetNoVote(a, r) => outcome := ProcessNoVoteMsg(a, r);
        case NetVote(b, a) => outcome := ProcessVote(b.round, a);
        case NetCertificate(c) => outcome := ProcessCertificate(c);
        case LoopHeader(h) => outcome := ProcessHeader(h);
        case LoopCertificate(c) => outcome := ProcessCertificate(c);
        case OwnHeader(h) =>
          currentHeader, votesAggregator := h, EMPTY_VOTES;
          outcome := ProcessHeader(h);
        case OwnTimeout(r) => outcome := ProcessTimeout(name, r);
        case OwnNoVote(_) => outcome := Done;
        case PayloadStored(id) =>
          payloads := payloads + {id};
          outcome := Done;
      }
    }

    /** One turn of the loop, with the cleanup at its end. */
    method RunOnce(tick: Tick) returns (outcome: Outcome)
      requires committee.Valid()
      modifies this
      ensures Turn(Value(), outcome) == OnTick(Config(), old(Value()), tick)
    {
      hide Handle;
      outcome := Dispatch(tick.input);
      if outcome != Panicked && tick.consensusRound > gcDepth {
        gcRound := tick.consensusRound - gcDepth;
        lastVoted := From(lastVoted, gcRound);
        processing := From(processing, gcRound);
        certificatesAggregators := From(certificatesAggregators, gcRound);
      }
    }

    /** The main loop over a run, up to a panic. */
    method Run(ticks: seq<Tick>) returns (outcome: Outcome)
      requires committee.Valid() && Value() == INIT_CORE
      modifies this
      ensures Turn(Value(), outcome) == Processing.Run(Config(), ticks)
    {
      hide OnTick;
      outcome := Done;
      assert ticks[..0] == [];
      for i := 0 to |ticks|
        invariant Turn(Value(), outcome) == Processing.Run(Config(), ticks[..i])
      {
        assert ticks[..i + 1][..i] == ticks[..i];
        if outcome != Panicked {
          outcome := RunOnce(ticks[i]);
        }
      }
      assert ticks[..|ticks|] == ticks;
    }
  }
}
