/** The proposer of primary/src/proposer.rs. */
module Proposer {
  import opened Config
  import opened Dag
  import opened Messages
  import opened Proposing

  class Proposer {
    const name: Author
    const committee: Committee
    const headerSize: nat

    var round: Round
    var lastParents: seq<Certificate>
    var lastLeader: Option<Certificate>
    var payloadSize: nat
    var lastTimeoutCert: QuorumCert
    var lastNoVoteCert: QuorumCert
    var advance: bool
    var timeoutSent: bool
    /** What was sent to the core, in order. */
    var log: seq<Sent>

    ghost function Config(): ProposerConfig {
      ProposerConfig(name, committee, headerSize)
    }

    ghost function Value(): ProposerState
      reads this
    {
      ProposerState(round, lastParents, lastLeader, payloadSize, lastTimeoutCert, lastNoVoteCert, advance,
        timeoutSent, log)
    }

    constructor (name: Author, committee: Committee, headerSize: nat)
      ensures Config() == ProposerConfig(name, committee, headerSize)
      ensures Value() == InitProposer(Config())
    {
      this.name, this.committee, this.headerSize := name, committee, headerSize;
      round, lastParents, lastLeader, payloadSize := 0, GenesisParents(committee), None, 0;
      lastTimeoutCert, lastNoVoteCert := Blank(0), Blank(0);
      advance, timeoutSent, log := true, false, [];
    }

    method MakeTimeoutMsg()
      modifies this`log
      ensures log == old(log) + [SentTimeout(round)]
    {
      log := log + [SentTimeout(round)];
    }

    method MakeNoVoteMsg()
      modifies this`log
      ensures log == old(log) + [SentNoVote(round)]
    {
      log := log + [SentNoVote(round)];
    }

    method MakeHeader(id: nat)
      requires committee.Valid() && round > 0
      modifies this`log, this`lastParents
      ensures log == old(log) + [Proposed(Proposing.MakeHeader(Config(), old(Value()), id))]
      ensures lastParents == []
    {
      var timeoutCert := if lastTimeoutCert.round == round - 1 then lastTimeoutCert else Blank(0);
      var noVoteCert :=
        if committee.Leader(round) == name && lastNoVoteCert.round == round - 1 then lastNoVoteCert else Blank(0);
      var header := Proposal(id, name, round, Collect(lastParents), timeoutCert, noVoteCert);
      lastParents := [];
      log := log + [Proposed(header)];
    }

    method UpdateLeader() returns (found: bool)
      requires committee.Valid()
      modifies this`lastLeader
      ensures lastLeader == FindOrigin(lastParents, committee.Leader(round)) && found == lastLeader.Some?
    {
      lastLeader := FindOrigin(lastParents, committee.Leader(round));
      return lastLeader.Some?;
    }

    /** Advance to the next round and make its header. */
    method NextRound(id: nat)
      requires committee.Valid()
      modifies this
      ensures Value() == Propose(Config(), old(Value()), id)
    {
      round := round + 1;
      MakeHeader(id);
      payloadSize := 0;
      timeoutSent := false;
    }

    /** Propose a new header, if we can. */
    method Advance(expired: bool, id: nat)
      requires committee.Valid()
      modifies this
      ensures Value() == Decide(Config(), old(Value()), expired, id)
    {
      hide Propose;
      var enoughParents := lastParents != [];
      var timeoutCertGathered := lastTimeoutCert.round == round;
      var isNextLeader := committee.Leader(round + 1) == name;
      var noVoteCertGathered := lastNoVoteCert.round == round;
      var enoughDigests := payloadSize >= headerSize;
      if expired && !timeoutSent {
        MakeTimeoutMsg();
        timeoutSent := true;
      }
      if ((expired && timeoutCertGathered && (!isNextLeader || noVoteCertGathered)) || (enoughDigests && advance)) &&
        enoughParents {
        if expired && lastLeader.None? && !isNextLeader {
          MakeNoVoteMsg();
        }
        NextRound(id);
      }
    }

    method Select(message: Message)
      requires committee.Valid()
      modifies this
      ensures Value() == Receive(Config(), old(Value()), message)
    {
      match message
      case Parents(parents, r) =>
        if r > round {
          round := r;
          lastParents := parents;
        } else if r == round {
          lastParents := lastParents + parents;
        }
        advance := UpdateLeader();
      case Payload(size) =>
        payloadSize := payloadSize + size;
      case TimeoutCertificate(cert) =>
        if cert.round >= lastTimeoutCert.round {
          lastTimeoutCert := cert;
        }
      case NoVoteCertificate(cert) =>
        if cert.round >= lastNoVoteCert.round {
          lastNoVoteCert := cert;
        }
      case Timer =>
    }

    /** One pass of the main loop. */
    method RunOnce(pass: Pass)
      requires committee.Valid()
      modifies this
      ensures Value() == OnPass(Config(), old(Value()), pass)
    {
      hide Decide, Receive;
      Advance(pass.expired, pass.id);
      Select(pass.message);
    }

    /** The main loop over a run. */
    method Run(passes: seq<Pass>)
      requires committee.Valid() && Value() == InitProposer(Config())
      modifies this
      ensures Value() == RunProposer(Config(), passes)
    {
      hide OnPass;
      assert passes[..0] == [];
      for i := 0 to |passes|
        invariant Value() == RunProposer(Config(), passes[..i])
      {
        assert passes[..i + 1][..i] == passes[..i];
        RunOnce(passes[i]);
      }
      assert passes[..|passes|] == passes;
    }
  }
}
