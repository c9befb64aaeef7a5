/** What every run of the core keeps: a causally closed stream to consensus, checked ballots, one ballot
    per (round, author). */
module CoreRuns {
  import opened Config
  import opened Dag
  import opened Messages
  import opened Aggregators
  import opened Processing

  // ---------- the invariants ----------

  ghost predicate WasDelivered(log: seq<Output>, d: Digest) {
    exists cert: Certificate :: Delivered(cert) in log && cert.Digest() == d
  }

  /** The store holds exactly the certificates sent to consensus. */
  ghost predicate Stored(s: CoreState) {
    && (forall d :: d in s.store ==> s.store[d].Digest() == d && Delivered(s.store[d]) in s.log)
    && (forall cert: Certificate :: Delivered(cert) in s.log ==> cert.Digest() in s.store)
  }

  ghost predicate ParentsIn(c: Committee, log: seq<Output>, cert: Certificate) {
    forall d :: d in cert.header.parents ==> GenesisDigest(c, d) || WasDelivered(log, d)
  }

  /** Every certificate sent to consensus comes after all its parents. */
  ghost predicate StreamClosed(c: Committee, log: seq<Output>) {
    forall i :: 0 <= i < |log| && log[i].Delivered? ==> ParentsIn(c, log[..i], log[i].certificate)
  }

  /** `parents` are genesis or delivered certificates with the header's parent digests. */
  ghost predicate Fetched(c: Committee, log: seq<Output>, header: Proposal, parents: seq<Certificate>) {
    && |parents| == |header.parents| && parents != []
    && forall i :: 0 <= i < |parents| ==>
         && parents[i].Digest() == header.parents[i]
         && (if GenesisDigest(c, header.parents[i]) then parents[i] == GenesisCertificate(header.parents[i].origin)
             else Delivered(parents[i]) in log)
  }

  ghost predicate Checked(c: Committee, log: seq<Output>, header: Proposal)
    requires c.Valid()
  {
    Forwarded(header) in log && exists parents :: Fetched(c, log, header, parents) && Passes(c, header, parents)
  }

  predicate BallotFor(b: Ballot, header: Proposal) {
    b == Ballot(header.id, header.round, header.author)
  }

  /** Every ballot is for a header whose structure was checked against delivered parents. */
  ghost predicate BallotsChecked(c: Committee, log: seq<Output>)
    requires c.Valid()
  {
    forall b: Ballot :: Cast(b) in log ==> exists header :: BallotFor(b, header) && Checked(c, log, header)
  }

  ghost predicate HasBallot(log: seq<Output>, r: Round, a: Author) {
    exists b: Ballot :: Cast(b) in log && b.round == r && b.origin == a
  }

  /** `last_voted` records ballots only, and all of those at or above the collected round. */
  ghost predicate Recorded(s: CoreState) {
    && (forall r: Round, a: Author :: a in At(s.lastVoted, r) ==> HasBallot(s.log, r, a))
    && (forall r: Round, a: Author :: r >= s.gcRound && HasBallot(s.log, r, a) ==> a in At(s.lastVoted, r))
  }

  ghost predicate Kept(cfg: CoreConfig, s: CoreState)
    requires cfg.committee.Valid()
  {
    Stored(s) && StreamClosed(cfg.committee, s.log) && BallotsChecked(cfg.committee, s.log)
  }

  /** `t` still records what `s` recorded, and still has one ballot per (round, author) if `onTime`. */
  ghost predicate StillOnce(s: CoreState, t: CoreState, onTime: bool) {
    Recorded(s) ==> Recorded(t) && (onTime && BallotsOnce(s.log) ==> BallotsOnce(t.log))
  }

  /** One ballot per (round, author). */
  ghost predicate BallotsOnce(log: seq<Output>) {
    forall i, j :: 0 <= i < j < |log| && log[i].Cast? && log[j].Cast? ==>
      log[i].ballot.round != log[j].ballot.round || log[i].ballot.origin != log[j].ballot.origin
  }

  // ---------- primitive updates ----------

  /** An output that is neither a ballot nor a delivery. */
  lemma LogKeeps(cfg: CoreConfig, s: CoreState, t: CoreState, o: Output)
    requires cfg.committee.Valid() && Kept(cfg, s) && !o.Cast? && !o.Delivered?
    requires t.log == s.log + [o] && t.store == s.store && t.lastVoted == s.lastVoted && t.gcRound == s.gcRound
    ensures Kept(cfg, t) && StillOnce(s, t, true)
  {
    LogCloses(cfg.committee, s.log, o);
    LogChecks(cfg.committee, s.log, o);
    hide StreamClosed, BallotsChecked;
    RecordSame(s, t, o);
  }

  lemma LogCloses(c: Committee, log: seq<Output>, o: Output)
    requires StreamClosed(c, log) && (o.Delivered? ==> ParentsIn(c, log, o.certificate))
    ensures StreamClosed(c, log + [o])
  {
    var all := log + [o];
    forall i | 0 <= i < |all| && all[i].Delivered? ensures ParentsIn(c, all[..i], all[i].certificate) {
      assert all[..i] == if i == |log| then log else log[..i];
    }
  }

  lemma FetchedGrows(c: Committee, log: seq<Output>, o: Output, header: Proposal)
    requires c.Valid() && Checked(c, log, header)
    ensures Checked(c, log + [o], header)
  {
    var parents :| Fetched(c, log, header, parents) && Passes(c, header, parents);
    assert Fetched(c, log + [o], header, parents);
  }

  lemma LogChecks(c: Committee, log: seq<Output>, o: Output)
    requires c.Valid() && BallotsChecked(c, log)
    requires o.Cast? ==> exists header :: BallotFor(o.ballot, header) && Checked(c, log, header)
    ensures BallotsChecked(c, log + [o])
  {
    var all := log + [o];
    forall b: Ballot | Cast(b) in all ensures exists header :: BallotFor(b, header) && Checked(c, all, header) {
      assert Cast(b) in log || o == Cast(b);
      var header :| BallotFor(b, header) && Checked(c, log, header);
      FetchedGrows(c, log, o, header);
    }
  }

  lemma {:induction false} FetchAll(c: Committee, store: map<Digest, Certificate>, parents: seq<Digest>)
    ensures var found := Fetch(c, store, parents);
      && (found.Some? ==> |found.value| == |parents|)
      && (found.Some? ==> forall i :: 0 <= i < |parents| ==> Resolve(c, store, parents[i]) == Some(found.value[i]))
      && (found.None? ==> exists i :: 0 <= i < |parents| && Resolve(c, store, parents[i]) == None)
  {
    if parents != [] {
      var last := |parents| - 1;
      FetchAll(c, store, parents[..last]);
      var found := Fetch(c, store, parents[..last]);
      if found.None? {
        var i :| 0 <= i < last && Resolve(c, store, parents[..last][i]) == None;
        assert Resolve(c, store, parents[i]) == None;
      } else if Resolve(c, store, parents[last]).Some? {
        forall i | 0 <= i < last ensures Resolve(c, store, parents[i]) == Some(found.value[i]) {
          assert parents[..last][i] == parents[i];
        }
      }
    }
  }

  lemma FetchSound(cfg: CoreConfig, s: CoreState, header: Proposal, parents: seq<Certificate>)
    requires Stored(s)
    requires Fetch(cfg.committee, s.store, header.parents) == Some(parents) && parents != []
    ensures Fetched(cfg.committee, s.log, header, parents)
  {
    FetchAll(cfg.committee, s.store, header.parents);
    forall i | 0 <= i < |parents|
      ensures parents[i].Digest() == header.parents[i]
      ensures
        if GenesisDigest(cfg.committee, header.parents[i]) then
          parents[i] == GenesisCertificate(header.parents[i].origin)
              else Delivered(parents[i]) in s.log
    {
      assert Resolve(cfg.committee, s.store, header.parents[i]) == Some(parents[i]);
    }
  }

  lemma BeginKeeps(cfg: CoreConfig, s: CoreState, header: Proposal)
    requires cfg.committee.Valid() && Kept(cfg, s)
    ensures Kept(cfg, Begin(s, header)) && StillOnce(s, Begin(s, header), true)
    ensures Forwarded(header) in Begin(s, header).log
  {
    LogKeeps(cfg, s, Begin(s, header), Forwarded(header));
  }

  lemma VoteRecords(s: CoreState, header: Proposal)
    requires Recorded(s)
    ensures Recorded(Vote(s, header))
  {
    var v := Vote(s, header);
    var b := Ballot(header.id, header.round, header.author);
    assert forall o :: o in v.log <==> o in s.log || o == Cast(b);
    forall r: Round, a: Author | a in At(v.lastVoted, r) ensures HasBallot(v.log, r, a) {
      if r == header.round && a == header.author {
        assert Cast(b) in v.log;
      } else {
        assert a in At(s.lastVoted, r);
        var x: Ballot :| Cast(x) in s.log && x.round == r && x.origin == a;
      }
    }
    forall r: Round, a: Author | r >= v.gcRound && HasBallot(v.log, r, a) ensures a in At(v.lastVoted, r) {
      var x: Ballot :| Cast(x) in v.log && x.round == r && x.origin == a;
      if x != b {
        assert HasBallot(s.log, r, a);
      }
    }
  }

  lemma VoteOnce(s: CoreState, header: Proposal)
    requires Recorded(s) && BallotsOnce(s.log)
    requires s.gcRound <= header.round && header.author !in At(s.lastVoted, header.round)
    ensures BallotsOnce(Vote(s, header).log)
  {
    var log := Vote(s, header).log;
    assert !HasBallot(s.log, header.round, header.author);
    forall i, j | 0 <= i < j < |log| && log[i].Cast? && log[j].Cast?
      ensures log[i].ballot.round != log[j].ballot.round || log[i].ballot.origin != log[j].ballot.origin
    {
      assert log[i] == s.log[i] && Cast(log[i].ballot) in s.log;
    }
  }

  lemma VoteRecordsOnce(s: CoreState, header: Proposal)
    requires header.author !in At(s.lastVoted, header.round)
    ensures StillOnce(s, Vote(s, header), s.gcRound <= header.round)
  {
    if Recorded(s) {
      VoteRecords(s, header);
      if BallotsOnce(s.log) && s.gcRound <= header.round {
        VoteOnce(s, header);
      }
    }
  }

  lemma VoteKeeps(cfg: CoreConfig, s: CoreState, header: Proposal, parents: seq<Certificate>)
    requires cfg.committee.Valid() && Kept(cfg, s)
    requires Fetch(cfg.committee, s.store, header.parents) == Some(parents) && parents != []
    requires Passes(cfg.committee, header, parents) && Forwarded(header) in s.log
    requires header.author !in At(s.lastVoted, header.round)
    ensures Kept(cfg, Vote(s, header)) && StillOnce(s, Vote(s, header), s.gcRound <= header.round)
  {
    var o := Cast(Ballot(header.id, header.round, header.author));
    hide Recorded, Passes;
    FetchSound(cfg, s, header, parents);
    LogCloses(cfg.committee, s.log, o);
    assert BallotFor(o.ballot, header) && Checked(cfg.committee, s.log, header);
    LogChecks(cfg.committee, s.log, o);
    VoteRecordsOnce(s, header);
  }

  lemma StoredResolves(cfg: CoreConfig, s: CoreState, cert: Certificate)
    requires Stored(s)
    requires forall i :: 0 <= i < |cert.header.parents| ==>
      Resolve(cfg.committee, s.store, cert.header.parents[i]) != None
    ensures ParentsIn(cfg.committee, s.log, cert)
  {
    forall d | d in cert.header.parents ensures GenesisDigest(cfg.committee, d) || WasDelivered(s.log, d) {
      var i :| 0 <= i < |cert.header.parents| && cert.header.parents[i] == d;
      assert Resolve(cfg.committee, s.store, cert.header.parents[i]) != None;
    }
  }

  lemma StoreMore(s: CoreState, t: CoreState, cert: Certificate)
    requires Stored(s)
    requires t.log == s.log + [Delivered(cert)] && t.store == s.store[cert.Digest() := cert]
    ensures Stored(t)
  {
    assert forall o :: o in t.log <==> o in s.log || o == Delivered(cert);
  }

  lemma SameBallots(log: seq<Output>, o: Output, r: Round, a: Author)
    requires !o.Cast?
    ensures HasBallot(log + [o], r, a) <==> HasBallot(log, r, a)
  {
    var all := log + [o];
    if HasBallot(log, r, a) {
      var b: Ballot :| Cast(b) in log && b.round == r && b.origin == a;
      assert Cast(b) in all;
    }
  }

  lemma RecordSame(s: CoreState, t: CoreState, o: Output)
    requires !o.Cast?
    requires t.log == s.log + [o] && t.lastVoted == s.lastVoted && t.gcRound == s.gcRound
    ensures StillOnce(s, t, true)
  {
    hide HasBallot;
    forall r: Round, a: Author ensures HasBallot(t.log, r, a) <==> HasBallot(s.log, r, a) {
      SameBallots(s.log, o, r, a);
    }
  }

  lemma DeliveredKeeps(cfg: CoreConfig, s: CoreState, t: CoreState, cert: Certificate)
    requires cfg.committee.Valid() && Kept(cfg, s) && ParentsIn(cfg.committee, s.log, cert)
    requires t.log == s.log + [Delivered(cert)] && t.store == s.store[cert.Digest() := cert]
    requires t.lastVoted == s.lastVoted && t.gcRound == s.gcRound
    ensures Kept(cfg, t) && StillOnce(s, t, true)
  {
    LogCloses(cfg.committee, s.log, Delivered(cert));
    LogChecks(cfg.committee, s.log, Delivered(cert));
    hide StreamClosed, BallotsChecked, StillOnce, Stored;
    StoreMore(s, t, cert);
    RecordSame(s, t, Delivered(cert));
  }

  lemma ParentsInGrows(c: Committee, log: seq<Output>, o: Output, cert: Certificate)
    requires ParentsIn(c, log, cert)
    ensures ParentsIn(c, log + [o], cert)
  {
    forall d | d in cert.header.parents && !GenesisDigest(c, d) ensures WasDelivered(log + [o], d) {
      var p: Certificate :| Delivered(p) in log && p.Digest() == d;
      assert Delivered(p) in log + [o];
    }
  }

  /** A certificate that has its parents is delivered. */
  lemma DeliverNow(cfg: CoreConfig, s: CoreState, cert: Certificate, step: CertificateStep, t: CoreState)
    requires cfg.committee.Valid() && Kept(cfg, s) && ParentsIn(cfg.committee, s.log, cert)
    requires var told := if step.reply.Yield? then s.log + [NewParents(step.reply.value, cert.header.round)] else s.log;
      t.log == told + [Delivered(cert)]
    requires t.store == s.store[cert.Digest() := cert] && t.lastVoted == s.lastVoted && t.gcRound == s.gcRound
    ensures Kept(cfg, t) && StillOnce(s, t, true)
  {
    hide Kept, BallotsOnce, Recorded, ParentsIn;
    if step.reply.Yield? {
      var o := NewParents(step.reply.value, cert.header.round);
      LogKeeps(cfg, s, Log(s, o), o);
      ParentsInGrows(cfg.committee, s.log, o, cert);
      DeliveredKeeps(cfg, Log(s, o), t, cert);
    } else {
      DeliveredKeeps(cfg, s, t, cert);
    }
  }

  lemma DeliverParts(cfg: CoreConfig, s: CoreState, cert: Certificate) returns (step: CertificateStep)
    ensures var t := Deliver(cfg, s, cert);
      && t.outcome == Done
      && t.state.lastVoted == s.lastVoted && t.state.gcRound == s.gcRound && t.state.current == s.current
      && t.state.votes == s.votes && t.state.processing == s.processing
      && (MissesParent(cfg.committee, s.store, cert.header.parents) ==> t.state == Log(s, AwaitAncestors(cert)))
      && (!MissesParent(cfg.committee, s.store, cert.header.parents) ==>
            && t.state.store == s.store[cert.Digest() := cert]
            && t.state.log ==
              (if step.reply.Yield? then s.log + [NewParents(step.reply.value, cert.header.round)] else s.log)
                 + [Delivered(cert)])
  {
    hide AddCertificate, MissesParent;
    var r := cert.header.round;
    step := AddCertificate(cfg.committee, if r in s.quorums then s.quorums[r] else EMPTY_CERTIFICATES, cert);
  }

  lemma DeliverKeeps(cfg: CoreConfig, s: CoreState, cert: Certificate)
    requires cfg.committee.Valid() && Kept(cfg, s)
    ensures var t := Deliver(cfg, s, cert).state;
      Kept(cfg, t) && StillOnce(s, t, true) && t.gcRound == s.gcRound && t.current == s.current
  {
    KeptStored(cfg, s);
    var step := DeliverParts(cfg, s, cert);
    hide Kept, StillOnce, ParentsIn, Stored, Deliver;
    var t := Deliver(cfg, s, cert).state;
    if MissesParent(cfg.committee, s.store, cert.header.parents) {
      LogKeeps(cfg, s, t, AwaitAncestors(cert));
    } else {
      StoredResolves(cfg, s, cert);
      DeliverNow(cfg, s, cert, step, t);
    }
  }

  lemma KeptStored(cfg: CoreConfig, s: CoreState)
    requires cfg.committee.Valid() && Kept(cfg, s)
    ensures Stored(s)
  {}

  // ---------- the recursion ----------

  /** What processing keeps; one ballot per (round, author) if nothing processed is below the collected round. */
  ghost predicate Goes(cfg: CoreConfig, s: CoreState, t: CoreState, onTime: bool)
    requires cfg.committee.Valid()
  {
    Kept(cfg, t) && t.gcRound == s.gcRound && t.current == s.current && StillOnce(s, t, onTime)
  }

  /** Neither the header nor, if it is our own, the one we collect votes for is below the collected round. */
  predicate HeaderOnTime(cfg: CoreConfig, s: CoreState, header: Proposal) {
    s.gcRound <= header.round && (header.author == cfg.name ==> s.gcRound <= s.current.round)
  }

  lemma StillTwice(s: CoreState, t: CoreState, u: CoreState, first: bool, second: bool)
    requires StillOnce(s, t, first) && StillOnce(t, u, second)
    ensures StillOnce(s, u, first && second)
  {}

  lemma StillLess(s: CoreState, t: CoreState, onTime: bool)
    requires StillOnce(s, t, true)
    ensures StillOnce(s, t, onTime)
  {}

  lemma {:induction false} ProcessHeaderKeeps(cfg: CoreConfig, s: CoreState, header: Proposal)
    requires cfg.committee.Valid() && Kept(cfg, s)
    ensures Goes(cfg, s, ProcessHeader(cfg, s, header).state, HeaderOnTime(cfg, s, header))
    decreases Pending(Begin(s, header)), 2
  {
    hide Kept, StillOnce, Passes, ProcessVote, Fetch;
    var b := Begin(s, header);
    var onTime := HeaderOnTime(cfg, s, header);
    BeginKeeps(cfg, s, header);
    StillLess(s, b, onTime);
    match Fetch(cfg.committee, b.store, header.parents)
    case None =>
      LogKeeps(cfg, b, Log(b, AwaitParents(header)), AwaitParents(header));
      StillTwice(s, b, Log(b, AwaitParents(header)), onTime, true);
    case Some(parents) =>
      if parents == [] || !Passes(cfg.committee, header, parents) {
      } else if header.author != cfg.name && header.id !in b.payloads {
        LogKeeps(cfg, b, Log(b, AwaitPayload(header)), AwaitPayload(header));
        StillTwice(s, b, Log(b, AwaitPayload(header)), onTime, true);
      } else if header.author in At(b.lastVoted, header.round) {
      } else {
        var v := Vote(b, header);
        VoteKeeps(cfg, b, header, parents);
        StillTwice(s, b, v, onTime, s.gcRound <= header.round);
        if header.author == cfg.name {
          ProcessVoteKeeps(cfg, v, header.round, cfg.name);
          StillTwice(s, v, ProcessVote(cfg, v, header.round, cfg.name).state, onTime, s.gcRound <= s.current.round);
        }
      }
  }

  lemma {:induction false} ProcessVoteKeeps(cfg: CoreConfig, s: CoreState, round: Round, author: Author)
    requires cfg.committee.Valid() && Kept(cfg, s)
    ensures Goes(cfg, s, ProcessVote(cfg, s, round, author).state, s.gcRound <= s.current.round)
    decreases Pending(s), 1
  {
    var step := AddVote(cfg.committee, s.current, s.votes, author, round);
    var v := s.(votes := step.box);
    VotesFrame(cfg, s, step.box);
    hide Kept, BallotsOnce, Recorded, ProcessCertificate;
    if step.reply.Yield? {
      var o := Assembled(step.reply.value);
      LogKeeps(cfg, v, Log(v, o), o);
      assert step.reply.value.header == s.current;
      ProcessCertificateKeeps(cfg, Log(v, o), step.reply.value);
    }
  }

  lemma VotesFrame(cfg: CoreConfig, s: CoreState, box: VoteBox)
    requires cfg.committee.Valid() && Kept(cfg, s)
    ensures Kept(cfg, s.(votes := box)) && StillOnce(s, s.(votes := box), true)
  {}

  lemma {:induction false} ProcessCertificateKeeps(cfg: CoreConfig, s: CoreState, cert: Certificate)
    requires cfg.committee.Valid() && Kept(cfg, s)
    ensures Goes(cfg, s, ProcessCertificate(cfg, s, cert).state, HeaderOnTime(cfg, s, cert.header))
    decreases Pending(s), if IsCurrent(s, cert.header) then 0 else 3
  {
    hide Kept, BallotsOnce, Recorded, ProcessHeader, Deliver;
    var header := cert.header;
    if header.id in At(s.processing, header.round) {
      DeliverKeeps(cfg, s, cert);
    } else {
      ProcessHeaderKeeps(cfg, s, header);
      var t := ProcessHeader(cfg, s, header);
      if t.outcome == Done {
        DeliverKeeps(cfg, t.state, cert);
      }
    }
  }

  // ---------- the main loop ----------

  /** No header this input makes the core process is below the collected round. */
  predicate OnTime(cfg: CoreConfig, s: CoreState, i: Input) {
    match i
    case NetHeader(h) => HeaderOnTime(cfg, s, h)
    case LoopHeader(h) => HeaderOnTime(cfg, s, h)
    case NetCertificate(c) => HeaderOnTime(cfg, s, c.header)
    case LoopCertificate(c) => HeaderOnTime(cfg, s, c.header)
    case OwnHeader(h) => s.gcRound <= h.round
    case NetVote(_, _) => s.gcRound <= s.current.round
    case _ => true
  }

  ghost predicate HandledWell(cfg: CoreConfig, s: CoreState, t: CoreState, onTime: bool)
    requires cfg.committee.Valid()
  {
    Kept(cfg, t) && t.gcRound == s.gcRound && StillOnce(s, t, onTime)
  }

  lemma OwnFrame(cfg: CoreConfig, s: CoreState, h: Proposal)
    requires cfg.committee.Valid() && Kept(cfg, s)
    ensures var t := s.(current := h, votes := EMPTY_VOTES);
      Kept(cfg, t) && StillOnce(s, t, true)
  {}

  lemma PayloadFrame(cfg: CoreConfig, s: CoreState, payloads: set<nat>)
    requires cfg.committee.Valid() && Kept(cfg, s)
    ensures Kept(cfg, s.(payloads := payloads)) && StillOnce(s, s.(payloads := payloads), true)
  {}

  lemma TimeoutKeeps(cfg: CoreConfig, s: CoreState, author: Author, round: Round)
    requires cfg.committee.Valid() && Kept(cfg, s)
    ensures HandledWell(cfg, s, ProcessTimeout(cfg, s, author, round).state, true)
  {
    var step := AddName(cfg.committee, if round in s.timeouts then s.timeouts[round] else EMPTY_NAMES, author, round);
    var t := s.(timeouts := s.timeouts[round := step.box]);
    assert Kept(cfg, t) && StillOnce(s, t, true);
    hide Kept, BallotsOnce, Recorded;
    if step.reply.Yield? {
      LogKeeps(cfg, t, Log(t, TimeoutQuorum(step.reply.value)), TimeoutQuorum(step.reply.value));
    }
  }

  lemma NoVoteKeeps(cfg: CoreConfig, s: CoreState, author: Author, round: Round)
    requires cfg.committee.Valid() && Kept(cfg, s)
    ensures HandledWell(cfg, s, ProcessNoVote(cfg, s, author, round).state, true)
  {
    var step := AddName(cfg.committee, NoVoteBox(cfg, s, round), author, round);
    var t := s.(noVotes := s.noVotes[round := step.box]);
    assert Kept(cfg, t) && StillOnce(s, t, true);
    hide Kept, BallotsOnce, Recorded;
    if step.reply.Yield? {
      LogKeeps(cfg, t, Log(t, NoVoteQuorum(step.reply.value)), NoVoteQuorum(step.reply.value));
    }
  }

  lemma HandleKeeps(cfg: CoreConfig, s: CoreState, i: Input)
    requires cfg.committee.Valid() && Kept(cfg, s)
    ensures HandledWell(cfg, s, Handle(cfg, s, i).state, OnTime(cfg, s, i))
  {
    if Sane(cfg, s, i) {
      match i
      case NetHeader(h) =>
        hide Kept, BallotsOnce, Recorded, ProcessHeader;
        ProcessHeaderKeeps(cfg, s, h);
      case LoopHeader(h) =>
        hide Kept, BallotsOnce, Recorded, ProcessHeader;
        ProcessHeaderKeeps(cfg, s, h);
      case NetCertificate(c) =>
        hide Kept, BallotsOnce, Recorded, ProcessCertificate;
        ProcessCertificateKeeps(cfg, s, c);
      case LoopCertificate(c) =>
        hide Kept, BallotsOnce, Recorded, ProcessCertificate;
        ProcessCertificateKeeps(cfg, s, c);
      case OwnHeader(h) =>
        OwnFrame(cfg, s, h);
        hide Kept, BallotsOnce, Recorded, ProcessHeader;
        ProcessHeaderKeeps(cfg, s.(current := h, votes := EMPTY_VOTES), h);
      case NetVote(b, a) =>
        hide Kept, BallotsOnce, Recorded, ProcessVote;
        ProcessVoteKeeps(cfg, s, b.round, a);
      case NetTimeout(a, r) =>
        hide Kept, BallotsOnce, Recorded, ProcessTimeout;
        TimeoutKeeps(cfg, s, a, r);
      case OwnTimeout(r) =>
        hide Kept, BallotsOnce, Recorded, ProcessTimeout;
        TimeoutKeeps(cfg, s, cfg.name, r);
      case NetNoVote(a, r) =>
        hide Kept, BallotsOnce, Recorded, ProcessNoVote;
        NoVoteKeeps(cfg, s, a, r);
      case OwnNoVote(_) =>
      case PayloadStored(id) =>
        PayloadFrame(cfg, s, s.payloads + {id});
    }
  }

  /** The round below which the core has collected, after a tick. */
  function Floor(cfg: CoreConfig, ticks: seq<Tick>): Round {
    if ticks == [] || ticks[|ticks| - 1].consensusRound <= cfg.gcDepth then 0
    else ticks[|ticks| - 1].consensusRound - cfg.gcDepth
  }

  /** The garbage collector only ever raises the consensus round. */
  predicate Rising(ticks: seq<Tick>) {
    forall i, j :: 0 <= i < j < |ticks| ==> ticks[i].consensusRound <= ticks[j].consensusRound
  }

  lemma CleanupKeeps(cfg: CoreConfig, s: CoreState, consensusRound: Round)
    requires cfg.committee.Valid() && Kept(cfg, s)
    ensures Kept(cfg, Cleanup(cfg, s, consensusRound))
    ensures consensusRound <= cfg.gcDepth || s.gcRound <= consensusRound - cfg.gcDepth ==>
      StillOnce(s, Cleanup(cfg, s, consensusRound), true)
  {
    var t := Cleanup(cfg, s, consensusRound);
    assert t.store == s.store && t.log == s.log;
    if Recorded(s) && (consensusRound > cfg.gcDepth ==> s.gcRound <= consensusRound - cfg.gcDepth) {
      forall r: Round, a: Author ensures a in At(t.lastVoted, r) ==> a in At(s.lastVoted, r) {}
    }
  }

  ghost predicate OnTimeRun(cfg: CoreConfig, ticks: seq<Tick>)
    requires cfg.committee.Valid()
  {
    ticks == [] ||
    (var before := ticks[..|ticks| - 1];
     OnTimeRun(cfg, before) && OnTime(cfg, Run(cfg, before).state, ticks[|ticks| - 1].input))
  }

  lemma InitKept(cfg: CoreConfig)
    requires cfg.committee.Valid()
    ensures Kept(cfg, INIT_CORE) && Recorded(INIT_CORE)
  {}

  predicate NotBack(cfg: CoreConfig, s: CoreState, tick: Tick) {
    tick.consensusRound > cfg.gcDepth ==> s.gcRound <= tick.consensusRound - cfg.gcDepth
  }

  lemma StepKeeps(cfg: CoreConfig, s: CoreState, tick: Tick)
    requires cfg.committee.Valid() && Kept(cfg, s)
    ensures Kept(cfg, OnTick(cfg, s, tick).state)
    ensures NotBack(cfg, s, tick) ==> StillOnce(s, OnTick(cfg, s, tick).state, OnTime(cfg, s, tick.input))
    ensures OnTick(cfg, s, tick).outcome == Panicked || OnTick(cfg, s, tick).state.gcRound ==
      (if tick.consensusRound > cfg.gcDepth then tick.consensusRound - cfg.gcDepth else s.gcRound)
  {
    hide Kept, BallotsOnce, Recorded, Handle;
    HandleKeeps(cfg, s, tick.input);
    var t := Handle(cfg, s, tick.input);
    CleanupKeeps(cfg, t.state, tick.consensusRound);
  }

  /** What the core sends out is closed and checked on every run. */
  lemma {:induction false} RunKeeps(cfg: CoreConfig, ticks: seq<Tick>)
    requires cfg.committee.Valid()
    ensures Kept(cfg, Run(cfg, ticks).state)
    decreases |ticks|
  {
    hide Kept, OnTick;
    if ticks == [] {
      InitKept(cfg);
    } else {
      var before := ticks[..|ticks| - 1];
      RunKeeps(cfg, before);
      var b := Run(cfg, before);
      if b.outcome != Panicked {
        StepKeeps(cfg, b.state, ticks[|ticks| - 1]);
      }
    }
  }

  /** Votes are recorded as long as they matter, if the consensus round only rises. */
  lemma {:induction false} RunRecords(cfg: CoreConfig, ticks: seq<Tick>)
    requires cfg.committee.Valid() && Rising(ticks)
    ensures Recorded(Run(cfg, ticks).state)
    ensures OnTimeRun(cfg, ticks) ==> BallotsOnce(Run(cfg, ticks).state.log)
    ensures Run(cfg, ticks).outcome != Panicked ==> Run(cfg, ticks).state.gcRound == Floor(cfg, ticks)
    decreases |ticks|
  {
    hide Recorded, OnTick, Kept, OnTime;
    if ticks == [] {
      InitKept(cfg);
    } else {
      var before := ticks[..|ticks| - 1];
      RunRecords(cfg, before);
      RunKeeps(cfg, before);
      var b := Run(cfg, before);
      if b.outcome != Panicked {
        StepKeeps(cfg, b.state, ticks[|ticks| - 1]);
      }
    }
  }

  // ---------- the main results ----------

  /** Causally closed stream: on every run of the core, each certificate sent to consensus has all its
      non-genesis parents sent earlier. */
  lemma CausalStream(cfg: CoreConfig, ticks: seq<Tick>, i: nat, d: Digest)
    requires cfg.committee.Valid()
    requires var log := Run(cfg, ticks).state.log;
      i < |log| && log[i].Delivered? && d in log[i].certificate.header.parents && !GenesisDigest(cfg.committee, d)
    ensures var log := Run(cfg, ticks).state.log;
      exists j :: 0 <= j < i && log[j].Delivered? && log[j].certificate.Digest() == d
  {
    RunKeeps(cfg, ticks);
    var log := Run(cfg, ticks).state.log;
    assert ParentsIn(cfg.committee, log[..i], log[i].certificate);
    var cert: Certificate :| Delivered(cert) in log[..i] && cert.Digest() == d;
    var j :| 0 <= j < i && log[..i][j] == Delivered(cert);
    assert log[j] == Delivered(cert);
  }

  /** Votes are unique as long as nothing below the collected round is processed. */
  lemma OneVoteEach(cfg: CoreConfig, ticks: seq<Tick>, x: Ballot, y: Ballot)
    requires cfg.committee.Valid() && Rising(ticks) && OnTimeRun(cfg, ticks)
    requires Cast(x) in Run(cfg, ticks).state.log && Cast(y) in Run(cfg, ticks).state.log
    requires x.round == y.round && x.origin == y.origin
    ensures x == y
  {
    RunRecords(cfg, ticks);
    var log := Run(cfg, ticks).state.log;
    var i :| 0 <= i < |log| && log[i] == Cast(x);
    var j :| 0 <= j < |log| && log[j] == Cast(y);
    assert i == j;
  }
}
