/** What the loop of primary/src/proposer.rs does, as functions on values. Proposer.dfy proves the in-place
    code equal to them. */
module Proposing {
  import opened Config
  import opened Dag
  import opened Messages

  datatype ProposerConfig = ProposerConfig(name: Author, committee: Committee, headerSize: nat)

  datatype Sent = SentTimeout(round: Round) | SentNoVote(round: Round) | Proposed(header: Proposal)

  datatype ProposerState = ProposerState(
    round: Round, lastParents: seq<Certificate>, lastLeader: Option<Certificate>, payloadSize: nat,
    timeoutCert: QuorumCert, noVoteCert: QuorumCert, advance: bool, timeoutSent: bool, log: seq<Sent>)

  datatype Message =
    | Parents(certificates: seq<Certificate>, round: Round)
    | Payload(size: nat)
    | TimeoutCertificate(cert: QuorumCert)
    | NoVoteCertificate(cert: QuorumCert)
    | Timer

  /** One pass of the loop: whether the timer has expired at its start, the id (hash) of the header it
      makes if it makes one, and what the select then receives. */
  datatype Pass = Pass(expired: bool, id: nat, message: Message)

  function GenesisParents(c: Committee): seq<Certificate> {
    seq(|c.authorities|, i requires 0 <= i < |c.authorities| => GenesisCertificate(c.authorities[i].name))
  }

  function InitProposer(cfg: ProposerConfig): ProposerState {
    ProposerState(0, GenesisParents(cfg.committee), None, 0, Blank(0), Blank(0), true, false, [])
  }

  // ---------- the digests of the parents ----------

  /** The order in which a `BTreeSet` iterates digests. */
  predicate Before(d: Digest, e: Digest) {
    d.id < e.id || (d.id == e.id && (d.round < e.round || (d.round == e.round && d.origin < e.origin)))
  }

  function InsertDigest(d: Digest, s: seq<Digest>): seq<Digest> {
    if s == [] || Before(d, s[0]) then [d] + s
    else if d == s[0] then s
    else [s[0]] + InsertDigest(d, s[1..])
  }

  function Collect(certs: seq<Certificate>): seq<Digest> {
    if certs == [] then []
    else InsertDigest(certs[|certs| - 1].Digest(), Collect(certs[..|certs| - 1]))
  }

  predicate Increasing(s: seq<Digest>) {
    forall i, j :: 0 <= i < j < |s| ==> Before(s[i], s[j])
  }

  lemma {:induction false} InsertDigestAdds(d: Digest, s: seq<Digest>)
    requires Increasing(s)
    ensures Increasing(InsertDigest(d, s))
    ensures forall e :: e in InsertDigest(d, s) <==> e == d || e in s
  {
    if s != [] && !Before(d, s[0]) && d != s[0] {
      InsertDigestAdds(d, s[1..]);
      var rest := InsertDigest(d, s[1..]);
      forall i | 0 <= i < |rest| ensures Before(s[0], rest[i]) {
        assert rest[i] in rest;
      }
    }
  }

  /** Collecting keeps every digest, once. */
  lemma {:induction false} CollectExact(certs: seq<Certificate>)
    ensures Increasing(Collect(certs))
    ensures forall d :: d in Collect(certs) <==> exists i :: 0 <= i < |certs| && certs[i].Digest() == d
  {
    if certs != [] {
      var last := |certs| - 1;
      CollectExact(certs[..last]);
      InsertDigestAdds(certs[last].Digest(), Collect(certs[..last]));
      forall d | d in Collect(certs) ensures exists i :: 0 <= i < |certs| && certs[i].Digest() == d {
        if d in Collect(certs[..last]) {
          var i :| 0 <= i < last && certs[..last][i].Digest() == d;
          assert certs[i].Digest() == d;
        }
      }
      forall i | 0 <= i < |certs| ensures certs[i].Digest() in Collect(certs) {
        if i < last {
          assert certs[..last][i] == certs[i];
        }
      }
    }
  }

  // ---------- the loop ----------

  function FindOrigin(certs: seq<Certificate>, a: Author): Option<Certificate> {
    if certs == [] then None
    else if certs[0].header.author == a then Some(certs[0])
    else FindOrigin(certs[1..], a)
  }

  /** The header for round `s.round`, just advanced to. */
  function MakeHeader(cfg: ProposerConfig, s: ProposerState, id: nat): Proposal
    requires cfg.committee.Valid() && s.round > 0
  {
    Proposal(id, cfg.name, s.round, Collect(s.lastParents),
      if s.timeoutCert.round == s.round - 1 then s.timeoutCert else Blank(0),
      if cfg.committee.Leader(s.round) == cfg.name && s.noVoteCert.round == s.round - 1 then s.noVoteCert else Blank(0))
  }

  predicate IsNextLeader(cfg: ProposerConfig, s: ProposerState)
    requires cfg.committee.Valid()
  {
    cfg.committee.Leader(s.round + 1) == cfg.name
  }

  predicate CanPropose(cfg: ProposerConfig, s: ProposerState, expired: bool)
    requires cfg.committee.Valid()
  {
    && s.lastParents != []
    && ((expired && s.timeoutCert.round == s.round && (IsNextLeader(cfg, s) ==> s.noVoteCert.round == s.round))
        || (s.payloadSize >= cfg.headerSize && s.advance))
  }

  function Tell(s: ProposerState, o: Sent): ProposerState {
    s.(log := s.log + [o])
  }

  function SendTimeout(s: ProposerState, expired: bool): ProposerState {
    if expired && !s.timeoutSent then Tell(s, SentTimeout(s.round)).(timeoutSent := true) else s
  }

  /** Give up on the leader, if it is missing and we do not lead the next round. */
  function SendNoVote(cfg: ProposerConfig, s: ProposerState, expired: bool): ProposerState
    requires cfg.committee.Valid()
  {
    if expired && s.lastLeader.None? && !IsNextLeader(cfg, s) then Tell(s, SentNoVote(s.round)) else s
  }

  function Propose(cfg: ProposerConfig, s: ProposerState, id: nat): ProposerState
    requires cfg.committee.Valid()
  {
    var up := s.(round := s.round + 1);
    Tell(up, Proposed(MakeHeader(cfg, up, id))).(lastParents := [], payloadSize := 0, timeoutSent := false)
  }

  /** The part of the loop before the select. */
  function Decide(cfg: ProposerConfig, s: ProposerState, expired: bool, id: nat): ProposerState
    requires cfg.committee.Valid()
  {
    var t := SendTimeout(s, expired);
    if CanPropose(cfg, s, expired) then Propose(cfg, SendNoVote(cfg, t, expired), id) else t
  }

  function UpdateLeader(cfg: ProposerConfig, s: ProposerState): ProposerState
    requires cfg.committee.Valid()
  {
    var leader := FindOrigin(s.lastParents, cfg.committee.Leader(s.round));
    s.(lastLeader := leader, advance := leader.Some?)
  }

  function Receive(cfg: ProposerConfig, s: ProposerState, m: Message): ProposerState
    requires cfg.committee.Valid()
  {
    match m
    case Parents(certs, r) =>
      UpdateLeader(cfg,
        if r > s.round then s.(round := r, lastParents := certs)
        else if r < s.round then s
        else s.(lastParents := s.lastParents + certs))
    case Payload(size) => s.(payloadSize := s.payloadSize + size)
    case TimeoutCertificate(cert) => if cert.round >= s.timeoutCert.round then s.(timeoutCert := cert) else s
    case NoVoteCertificate(cert) => if cert.round >= s.noVoteCert.round then s.(noVoteCert := cert) else s
    case Timer => s
  }

  function OnPass(cfg: ProposerConfig, s: ProposerState, pass: Pass): ProposerState
    requires cfg.committee.Valid()
  {
    Receive(cfg, Decide(cfg, s, pass.expired, pass.id), pass.message)
  }

  function RunProposer(cfg: ProposerConfig, passes: seq<Pass>): ProposerState
    requires cfg.committee.Valid()
  {
    if passes == [] then InitProposer(cfg)
    else OnPass(cfg, RunProposer(cfg, passes[..|passes| - 1]), passes[|passes| - 1])
  }
}
