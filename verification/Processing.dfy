/** The primary's core (primary/src/core.rs, primary/src/synchronizer.rs): what each message makes it do,
    as functions on values. Core.dfy proves the in-place code equal to them. */
module Processing {
  import opened Config
  import opened Dag
  import opened Messages
  import opened Aggregators

  datatype CoreConfig = CoreConfig(name: Author, committee: Committee, gcDepth: nat)

  /** What a vote signs. */
  datatype Ballot = Ballot(id: nat, round: Round, origin: Author)

  /** Everything the core sends out, over all its channels, in order. */
  datatype Output =
    | Forwarded(header: Proposal)
    | AwaitParents(header: Proposal)
    | AwaitPayload(header: Proposal)
    | Cast(ballot: Ballot)
    | Assembled(certificate: Certificate)
    | AwaitAncestors(certificate: Certificate)
    | NewParents(certificates: seq<Certificate>, round: Round)
    | Delivered(certificate: Certificate)
    | TimeoutQuorum(cert: QuorumCert)
    | NoVoteQuorum(cert: QuorumCert)

  /** `store` holds the certificates; `payloads` the headers whose batches our workers have. */
  datatype CoreState = CoreState(
    store: map<Digest, Certificate>, payloads: set<nat>, gcRound: Round,
    lastVoted: map<Round, set<Author>>, processing: map<Round, set<nat>>,
    current: Proposal, votes: VoteBox,
    quorums: map<Round, CertificateBox>, timeouts: map<Round, NameBox>, noVotes: map<Round, NameBox>,
    log: seq<Output>)

  datatype Outcome = Done | Rejected | Panicked

  datatype Turn = Turn(state: CoreState, outcome: Outcome)

  const NO_HEADER := Proposal(0, 0, 0, [], Blank(0), Blank(0))

  const INIT_CORE := CoreState(map[], {}, 0, map[], map[], NO_HEADER, EMPTY_VOTES, map[], map[], map[], [])

  function At<T>(m: map<Round, set<T>>, r: Round): set<T> {
    if r in m then m[r] else {}
  }

  function Log(s: CoreState, o: Output): CoreState {
    s.(log := s.log + [o])
  }

  // ---------- parents and checks ----------

  predicate GenesisDigest(c: Committee, d: Digest) {
    d.id == 0 && d.round == 0 && d.origin in c.Names()
  }

  function Resolve(c: Committee, store: map<Digest, Certificate>, d: Digest): Option<Certificate> {
    if GenesisDigest(c, d) then Some(GenesisCertificate(d.origin))
    else if d in store then Some(store[d])
    else None
  }

  /** All the parents, or nothing if one is missing. */
  function Fetch(c: Committee, store: map<Digest, Certificate>, parents: seq<Digest>): Option<seq<Certificate>> {
    if parents == [] then Some([])
    else
      var last := |parents| - 1;
      match (Fetch(c, store, parents[..last]), Resolve(c, store, parents[last]))
      case (Some(found), Some(p)) => Some(found + [p])
      case _ => None
  }

  function SumStakes(c: Committee, parents: seq<Certificate>): nat {
    if parents == [] then 0
    else SumStakes(c, parents[..|parents| - 1]) + c.Stake(parents[|parents| - 1].header.author)
  }

  predicate HasLeader(c: Committee, round: Round, parents: seq<Certificate>)
    requires c.Valid() && round > 0
  {
    exists i :: 0 <= i < |parents| && parents[i].header.author == c.Leader(round - 1)
  }

  predicate PreviousRound(header: Proposal, parents: seq<Certificate>) {
    forall i :: 0 <= i < |parents| ==> parents[i].header.round + 1 == header.round
  }

  /** The structural checks a header passes before it is voted for. */
  ghost predicate Passes(c: Committee, header: Proposal, parents: seq<Certificate>)
    requires c.Valid() && parents != []
  {
    && PreviousRound(header, parents)
    && SumStakes(c, parents) >= c.QuorumThreshold()
    && header.round > 0
    && (HasLeader(c, header.round, parents) ||
        (Carries(c, header.timeoutCert.names) &&
         (c.Leader(header.round) == header.author ==> Carries(c, header.noVoteCert.names))))
  }

  // ---------- processing ----------

  /** Zero once the header we collect votes for is being processed. */
  function Pending(s: CoreState): nat {
    if s.current.id in At(s.processing, s.current.round) then 0 else 1
  }

  function Begin(s: CoreState, header: Proposal): CoreState {
    Log(s, Forwarded(header)).(processing := s.processing[header.round := At(s.processing, header.round) + {header.id}])
  }

  predicate IsCurrent(s: CoreState, header: Proposal) {
    s.current.id == header.id && s.current.round == header.round
  }

  ghost function ProcessHeader(cfg: CoreConfig, s: CoreState, header: Proposal): Turn
    requires cfg.committee.Valid()
    decreases Pending(Begin(s, header)), 2
  {
    var b := Begin(s, header);
    match Fetch(cfg.committee, b.store, header.parents)
    case None => Turn(Log(b, AwaitParents(header)), Done)
    case Some(parents) =>
      if parents == [] then Turn(b, Done)
      else if !Passes(cfg.committee, header, parents) then Turn(b, Rejected)
      else if header.author != cfg.name && header.id !in b.payloads then Turn(Log(b, AwaitPayload(header)), Done)
      else if header.author in At(b.lastVoted, header.round) then Turn(b, Done)
      else
        var v := Vote(b, header);
        if header.author != cfg.name then Turn(v, Done)
        else
          var t := ProcessVote(cfg, v, header.round, cfg.name);
          Turn(t.state, if t.outcome == Done then Done else Panicked)
  }

  function Vote(s: CoreState, header: Proposal): CoreState {
    Log(s, Cast(Ballot(header.id, header.round, header.author)))
      .(lastVoted := s.lastVoted[header.round := At(s.lastVoted, header.round) + {header.author}])
  }

  ghost function ProcessVote(cfg: CoreConfig, s: CoreState, round: Round, author: Author): Turn
    requires cfg.committee.Valid()
    decreases Pending(s), 1
  {
    var step := AddVote(cfg.committee, s.current, s.votes, author, round);
    var v := s.(votes := step.box);
    match step.reply
    case Refused(_) => Turn(v, Rejected)
    case Nothing => Turn(v, Done)
    case Yield(certificate) =>
      var t := ProcessCertificate(cfg, Log(v, Assembled(certificate)), certificate);
      Turn(t.state, if t.outcome == Done then Done else Panicked)
  }

  ghost function ProcessCertificate(cfg: CoreConfig, s: CoreState, certificate: Certificate): Turn
    requires cfg.committee.Valid()
    decreases Pending(s), if IsCurrent(s, certificate.header) then 0 else 3
  {
    var header := certificate.header;
    if header.id in At(s.processing, header.round) then Deliver(cfg, s, certificate)
    else
      var t := ProcessHeader(cfg, s, header);
      if t.outcome == Done then Deliver(cfg, t.state, certificate) else t
  }

  predicate MissesParent(c: Committee, store: map<Digest, Certificate>, parents: seq<Digest>) {
    exists i :: 0 <= i < |parents| && Resolve(c, store, parents[i]) == None
  }

  /** Hold the certificate back until all its parents are stored; then store it, hand it to the proposer's
      aggregator, and send it to consensus. */
  function Deliver(cfg: CoreConfig, s: CoreState, certificate: Certificate): Turn {
    if MissesParent(cfg.committee, s.store, certificate.header.parents) then
      Turn(Log(s, AwaitAncestors(certificate)), Done)
    else
      var r := certificate.header.round;
      var box := if r in s.quorums then s.quorums[r] else EMPTY_CERTIFICATES;
      var step := AddCertificate(cfg.committee, box, certificate);
      var stored := s.(store := s.store[certificate.Digest() := certificate], quorums := s.quorums[r := step.box]);
      var told := if step.reply.Yield? then Log(stored, NewParents(step.reply.value, r)) else stored;
      Turn(Log(told, Delivered(certificate)), Done)
  }

  function ProcessTimeout(cfg: CoreConfig, s: CoreState, author: Author, round: Round): Turn {
    var step := AddName(cfg.committee, if round in s.timeouts then s.timeouts[round] else EMPTY_NAMES, author, round);
    var t := s.(timeouts := s.timeouts[round := step.box]);
    match step.reply
    case Refused(_) => Turn(t, Rejected)
    case Nothing => Turn(t, Done)
    case Yield(cert) => Turn(Log(t, TimeoutQuorum(cert)), Done)
  }

  /** A new aggregator starts with our own no-vote. */
  function NoVoteBox(cfg: CoreConfig, s: CoreState, round: Round): NameBox {
    if round in s.noVotes then s.noVotes[round] else AddName(cfg.committee, EMPTY_NAMES, cfg.name, round).box
  }

  function ProcessNoVote(cfg: CoreConfig, s: CoreState, author: Author, round: Round): Turn {
    var step := AddName(cfg.committee, NoVoteBox(cfg, s, round), author, round);
    var t := s.(noVotes := s.noVotes[round := step.box]);
    match step.reply
    case Refused(_) => Turn(t, Rejected)
    case Nothing => Turn(t, Done)
    case Yield(cert) => Turn(Log(t, NoVoteQuorum(cert)), Done)
  }

  // ---------- the main loop ----------

  datatype Input =
    | NetHeader(header: Proposal)
    | NetTimeout(author: Author, round: Round)
    | NetNoVote(author: Author, round: Round)
    | NetVote(ballot: Ballot, author: Author)
    | NetCertificate(certificate: Certificate)
    | LoopHeader(header: Proposal)
    | LoopCertificate(certificate: Certificate)
    | OwnHeader(header: Proposal)
    | OwnTimeout(round: Round)
    | OwnNoVote(round: Round)
    | PayloadStored(id: nat)

  /** One turn of the loop: an input, and the consensus round the cleanup reads after it. */
  datatype Tick = Tick(input: Input, consensusRound: Round)

  /** What the main loop lets through to processing. */
  ghost predicate Sane(cfg: CoreConfig, s: CoreState, i: Input)
    requires cfg.committee.Valid()
  {
    var c := cfg.committee;
    match i
    case NetHeader(h) => s.gcRound <= h.round && c.Stake(h.author) > 0
    case NetTimeout(a, r) => s.gcRound <= r && c.Stake(a) > 0
    case NetNoVote(a, r) => s.gcRound <= r && c.Stake(a) > 0
    case NetVote(b, a) =>
      b.id == s.current.id && b.origin == s.current.author && b.round == s.current.round && c.Stake(a) > 0
    case NetCertificate(cert) => s.gcRound <= cert.header.round && Acceptable(c, cert)
    case _ => true
  }

  ghost function Handle(cfg: CoreConfig, s: CoreState, i: Input): Turn
    requires cfg.committee.Valid()
  {
    if !Sane(cfg, s, i) then Turn(s, Rejected)
    else
      match i
      case NetHeader(h) => ProcessHeader(cfg, s, h)
      case NetTimeout(a, r) => ProcessTimeout(cfg, s, a, r)
      case NetNoVote(a, r) => ProcessNoVote(cfg, s, a, r)
      case NetVote(b, a) => ProcessVote(cfg, s, b.round, a)
      case NetCertificate(c) => ProcessCertificate(cfg, s, c)
      case LoopHeader(h) => ProcessHeader(cfg, s, h)
      case LoopCertificate(c) => ProcessCertificate(cfg, s, c)
      case OwnHeader(h) => ProcessHeader(cfg, s.(current := h, votes := EMPTY_VOTES), h)
      case OwnTimeout(r) => ProcessTimeout(cfg, s, cfg.name, r)
      case OwnNoVote(_) => Turn(s, Done)
      case PayloadStored(id) => Turn(s.(payloads := s.payloads + {id}), Done)
  }

  function From<T>(m: map<Round, T>, floor: Round): map<Round, T> {
    map r | r in m && r >= floor :: m[r]
  }

  function Cleanup(cfg: CoreConfig, s: CoreState, consensusRound: Round): CoreState {
    if consensusRound <= cfg.gcDepth then s
    else
      var floor := consensusRound - cfg.gcDepth;
      s.(gcRound := floor, lastVoted := From(s.lastVoted, floor), processing := From(s.processing, floor),
         quorums := From(s.quorums, floor))
  }

  ghost function OnTick(cfg: CoreConfig, s: CoreState, tick: Tick): Turn
    requires cfg.committee.Valid()
  {
    var t := Handle(cfg, s, tick.input);
    if t.outcome == Panicked then t else Turn(Cleanup(cfg, t.state, tick.consensusRound), t.outcome)
  }

  /** A whole run; after a panic the node does nothing more. */
  ghost function Run(cfg: CoreConfig, ticks: seq<Tick>): Turn
    requires cfg.committee.Valid()
  {
    if ticks == [] then Turn(INIT_CORE, Done)
    else
      var before := Run(cfg, ticks[..|ticks| - 1]);
      if before.outcome == Panicked then before else OnTick(cfg, before.state, ticks[|ticks| - 1])
  }
}
