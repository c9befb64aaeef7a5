/** How the core answers headers and certificates, told from the messages received and from what was sent before. */
module CoreAnswers {
  import opened Config
  import opened Dag
  import opened Messages
  import opened Aggregators
  import opened Processing
  import opened CoreRuns
  import opened Certification
  import opened CoreProgress
  import opened CoreReplies

  // ---------- the structural checks, on what a header lists ----------

  function OriginStakes(c: Committee, parents: seq<Digest>): nat {
    if parents == [] then 0
    else OriginStakes(c, parents[..|parents| - 1]) + c.Stake(parents[|parents| - 1].origin)
  }

  predicate ListsLeader(c: Committee, h: Proposal)
    requires c.Valid() && h.round > 0
  {
    exists i :: 0 <= i < |h.parents| && h.parents[i].origin == c.Leader(h.round - 1)
  }

  /** The header lists a quorum of the previous round, and its leader unless timeouts and no-votes are enclosed. */
  ghost predicate Structured(c: Committee, h: Proposal)
    requires c.Valid()
  {
    && h.parents != [] && h.round > 0 && OriginStakes(c, h.parents) >= c.QuorumThreshold()
    && (forall i :: 0 <= i < |h.parents| ==> h.parents[i].round + 1 == h.round)
    && (ListsLeader(c, h) ||
        (Carries(c, h.timeoutCert.names) && (c.Leader(h.round) == h.author ==> Carries(c, h.noVoteCert.names))))
  }

  ghost predicate HasParents(c: Committee, log: seq<Output>, h: Proposal) {
    forall d :: d in h.parents ==> GenesisDigest(c, d) || WasDelivered(log, d)
  }

  lemma {:induction false} SameStakes(c: Committee, parents: seq<Certificate>, digests: seq<Digest>)
    requires |parents| == |digests| && forall i :: 0 <= i < |parents| ==> parents[i].Digest() == digests[i]
    ensures SumStakes(c, parents) == OriginStakes(c, digests)
  {
    if parents != [] {
      SameStakes(c, parents[..|parents| - 1], digests[..|digests| - 1]);
    }
  }

  lemma PassesExact(c: Committee, h: Proposal, parents: seq<Certificate>)
    requires c.Valid() && parents != [] && |parents| == |h.parents|
    requires forall i :: 0 <= i < |parents| ==> parents[i].Digest() == h.parents[i]
    ensures Passes(c, h, parents) <==> Structured(c, h)
  {
    SameStakes(c, parents, h.parents);
    hide SumStakes, OriginStakes, Carries;
    assert forall i :: 0 <= i < |parents| ==>
      parents[i].header.round == h.parents[i].round && parents[i].header.author == h.parents[i].origin;
    if h.round > 0 {
      assert HasLeader(c, h.round, parents) <==> ListsLeader(c, h);
    }
  }

  /** Parents are found just when they were delivered, and then the checks are those on the digests. */
  lemma FetchExact(cfg: CoreConfig, s: CoreState, h: Proposal)
    requires cfg.committee.Valid() && Stored(s)
    ensures var found := Fetch(cfg.committee, s.store, h.parents);
      && (found.Some? <==> HasParents(cfg.committee, s.log, h))
      && (found.Some? ==> (found.value == [] <==> h.parents == []))
      && (found.Some? && found.value != [] ==>
        (Passes(cfg.committee, h, found.value) <==> Structured(cfg.committee, h)))
  {
    var c := cfg.committee;
    FetchAll(c, s.store, h.parents);
    hide Passes, Structured, Fetch;
    match Fetch(c, s.store, h.parents)
    case None =>
      var i :| 0 <= i < |h.parents| && Resolve(c, s.store, h.parents[i]) == None;
      assert h.parents[i] in h.parents && !WasDelivered(s.log, h.parents[i]);
    case Some(parents) =>
      StoredResolves(cfg, s, Certificate(h, []));
      if parents != [] {
        FetchSound(cfg, s, h, parents);
        PassesExact(c, h, parents);
      }
  }

  // ---------- the variables are what was received and sent ----------

  predicate PayloadCame(ticks: seq<Tick>, id: nat) {
    exists k :: 0 <= k < |ticks| && ticks[k].input == PayloadStored(id)
  }

  /** A header with this id was processed, in a round not yet collected. */
  ghost predicate TakenBefore(cfg: CoreConfig, ticks: seq<Tick>, log: seq<Output>, h: Proposal) {
    h.round >= Floor(cfg, ticks) && WasForwarded(log, h.id, h.round)
  }

  ghost predicate VotedBefore(cfg: CoreConfig, ticks: seq<Tick>, log: seq<Output>, h: Proposal) {
    h.round >= Floor(cfg, ticks) && HasBallot(log, h.round, h.author)
  }

  ghost predicate KeepsTrack(cfg: CoreConfig, s: CoreState, ticks: seq<Tick>, h: Proposal) {
    && Stored(s)
    && (h.id in s.payloads <==> PayloadCame(ticks, h.id))
    && (h.id in At(s.processing, h.round) <==> TakenBefore(cfg, ticks, s.log, h))
    && (h.author in At(s.lastVoted, h.round) <==> VotedBefore(cfg, ticks, s.log, h))
  }

  lemma HandlePayloads(cfg: CoreConfig, s: CoreState, i: Input, id: nat)
    requires cfg.committee.Valid()
    ensures id in Handle(cfg, s, i).state.payloads <==> id in s.payloads || i == PayloadStored(id)
  {
    hide Acceptable, ProcessHeader, ProcessVote, ProcessCertificate, ProcessTimeout, ProcessNoVote, Remembers;
    match i
    case NetHeader(h) => ProcessHeaderFollows(cfg, s, h);
    case LoopHeader(h) => ProcessHeaderFollows(cfg, s, h);
    case NetCertificate(c) => ProcessCertificateFollows(cfg, s, c);
    case LoopCertificate(c) => ProcessCertificateFollows(cfg, s, c);
    case OwnHeader(h) => ProcessHeaderFollows(cfg, s.(current := h, votes := EMPTY_VOTES), h);
    case NetVote(b, a) => ProcessVoteFollows(cfg, s, b.round, a);
    case NetTimeout(a, r) => NamesPayloads(cfg, s, a, r);
    case OwnTimeout(r) => NamesPayloads(cfg, s, cfg.name, r);
    case NetNoVote(a, r) => NamesPayloads(cfg, s, a, r);
    case _ =>
  }

  lemma NamesPayloads(cfg: CoreConfig, s: CoreState, a: Author, r: Round)
    requires cfg.committee.Valid()
    ensures ProcessTimeout(cfg, s, a, r).state.payloads == s.payloads
    ensures ProcessNoVote(cfg, s, a, r).state.payloads == s.payloads
  {
    hide AddName, NoVoteBox;
  }

  lemma {:induction false} RunPayloads(cfg: CoreConfig, ticks: seq<Tick>, id: nat)
    requires cfg.committee.Valid() && Run(cfg, ticks).outcome != Panicked
    ensures id in Run(cfg, ticks).state.payloads <==> PayloadCame(ticks, id)
    decreases |ticks|
  {
    hide Handle;
    if ticks != [] {
      var before, tick := ticks[..|ticks| - 1], ticks[|ticks| - 1];
      RunPayloads(cfg, before, id);
      HandlePayloads(cfg, Run(cfg, before).state, tick.input, id);
      if PayloadCame(before, id) {
        var k :| 0 <= k < |before| && before[k].input == PayloadStored(id);
        assert ticks[k].input == PayloadStored(id);
      }
    }
  }

  /** No input but the cleanup after it forgets a header of the round. */
  lemma HandleRemembers(cfg: CoreConfig, s: CoreState, i: Input, r: Round)
    requires cfg.committee.Valid() && Remembers(s, r)
    ensures Remembers(Handle(cfg, s, i).state, r)
  {
    hide Remembers, Acceptable, ProcessHeader, ProcessVote, ProcessCertificate, AddName, NoVoteBox;
    match i
    case NetHeader(h) => ProcessHeaderFollows(cfg, s, h);
    case LoopHeader(h) => ProcessHeaderFollows(cfg, s, h);
    case NetCertificate(c) => ProcessCertificateFollows(cfg, s, c);
    case LoopCertificate(c) => ProcessCertificateFollows(cfg, s, c);
    case OwnHeader(h) =>
      var t := s.(current := h, votes := EMPTY_VOTES);
      RemembersSame(s, t, r);
      ProcessHeaderFollows(cfg, t, h);
    case NetVote(b, a) => ProcessVoteFollows(cfg, s, b.round, a);
    case NetTimeout(a, q) => TimeoutRemembers(cfg, s, a, q, r);
    case OwnTimeout(q) => TimeoutRemembers(cfg, s, cfg.name, q, r);
    case NetNoVote(a, q) => NoVoteRemembers(cfg, s, a, q, r);
    case OwnNoVote(_) =>
    case PayloadStored(id) => RemembersSame(s, s.(payloads := s.payloads + {id}), r);
  }

  lemma RemembersSame(s: CoreState, t: CoreState, r: Round)
    requires t.log == s.log && At(t.processing, r) == At(s.processing, r)
    ensures Remembers(t, r) <==> Remembers(s, r)
  {}

  lemma RemembersOn(s: CoreState, t: CoreState, o: Output, r: Round)
    requires Remembers(s, r) && !o.Forwarded?
    requires t.log == s.log + [o] && t.processing == s.processing
    ensures Remembers(t, r)
  {
    forall id: nat ensures id in At(t.processing, r) <==> WasForwarded(t.log, id, r) {
      ForwardedMore(s.log, o, id, r);
    }
  }

  lemma TimeoutRemembers(cfg: CoreConfig, s: CoreState, a: Author, q: Round, r: Round)
    requires Remembers(s, r)
    ensures Remembers(ProcessTimeout(cfg, s, a, q).state, r)
  {
    hide Remembers, AddName;
    var t := ProcessTimeout(cfg, s, a, q).state;
    if t.log == s.log {
      RemembersSame(s, t, r);
    } else {
      RemembersOn(s, t, t.log[|s.log|], r);
    }
  }

  lemma NoVoteRemembers(cfg: CoreConfig, s: CoreState, a: Author, q: Round, r: Round)
    requires cfg.committee.Valid() && Remembers(s, r)
    ensures Remembers(ProcessNoVote(cfg, s, a, q).state, r)
  {
    hide Remembers, AddName, NoVoteBox;
    var t := ProcessNoVote(cfg, s, a, q).state;
    if t.log == s.log {
      RemembersSame(s, t, r);
    } else {
      RemembersOn(s, t, t.log[|s.log|], r);
    }
  }

  lemma {:induction false} RunRemembers(cfg: CoreConfig, ticks: seq<Tick>, r: Round)
    requires cfg.committee.Valid() && Run(cfg, ticks).outcome != Panicked && Collected(cfg, ticks) <= r
    ensures Remembers(Run(cfg, ticks).state, r)
    decreases |ticks|
  {
    hide Handle, Remembers;
    if ticks == [] {
      InitRemembers(r);
    } else {
      var before, tick := ticks[..|ticks| - 1], ticks[|ticks| - 1];
      RunRemembers(cfg, before, r);
      var s := Run(cfg, before).state;
      HandleRemembers(cfg, s, tick.input, r);
      RemembersSame(Handle(cfg, s, tick.input).state, Run(cfg, ticks).state, r);
    }
  }

  lemma InitRemembers(r: Round)
    ensures Remembers(INIT_CORE, r)
  {}

  predicate ProcessingSwept(s: CoreState) {
    forall r :: r in s.processing ==> r >= s.gcRound
  }

  lemma RunProcessingSwept(cfg: CoreConfig, ticks: seq<Tick>)
    requires cfg.committee.Valid() && Rising(ticks) && Run(cfg, ticks).outcome != Panicked
    ensures ProcessingSwept(Run(cfg, ticks).state)
  {
    RunRecords(cfg, ticks);
    hide Handle, Recorded;
  }

  lemma {:induction false} CollectedIsFloor(cfg: CoreConfig, ticks: seq<Tick>)
    requires Rising(ticks)
    ensures Collected(cfg, ticks) == Floor(cfg, ticks)
  {
    if ticks != [] {
      CollectedIsFloor(cfg, ticks[..|ticks| - 1]);
    }
  }

  lemma RunTracks(cfg: CoreConfig, ticks: seq<Tick>, h: Proposal)
    requires cfg.committee.Valid() && Rising(ticks) && Run(cfg, ticks).outcome != Panicked
    ensures KeepsTrack(cfg, Run(cfg, ticks).state, ticks, h)
    ensures Run(cfg, ticks).state.gcRound == GcRound(cfg, ticks)
    ensures Kept(cfg, Run(cfg, ticks).state)
  {
    hide Run, GcRound, NamesTrack, Floor, Kept, Stored;
    RunPayloads(cfg, ticks, h.id);
    RunRecords(cfg, ticks);
    RunSwept(cfg, ticks);
    RunProcessingSwept(cfg, ticks);
    CollectedIsFloor(cfg, ticks);
    RunKeeps(cfg, ticks);
    KeptStored(cfg, Run(cfg, ticks).state);
    RunGcRound(cfg, ticks);
    if h.round >= Floor(cfg, ticks) {
      RunRemembers(cfg, ticks, h.round);
    }
  }

  lemma RunGcRound(cfg: CoreConfig, ticks: seq<Tick>)
    requires cfg.committee.Valid() && Run(cfg, ticks).outcome != Panicked
    ensures Run(cfg, ticks).state.gcRound == GcRound(cfg, ticks)
  {
    hide Run, GcRound, TimeoutsTrack, NoVotesTrack;
    RunNames(cfg, ticks, 0);
  }

  // ---------- headers ----------

  /** What follows the header being forwarded: a request for missing parents or payload, a ballot, or nothing. */
  ghost function HeaderReply(cfg: CoreConfig, ticks: seq<Tick>, log: seq<Output>, h: Proposal): seq<Output>
    requires cfg.committee.Valid()
  {
    if !HasParents(cfg.committee, log, h) then [AwaitParents(h)]
    else if !Structured(cfg.committee, h) then []
    else if h.author != cfg.name && !PayloadCame(ticks, h.id) then [AwaitPayload(h)]
    else if VotedBefore(cfg, ticks, log, h) then []
    else [Cast(Ballot(h.id, h.round, h.author))]
  }

  /** Our own headers go on with our vote; for others that is all. */
  ghost predicate AnswersHeader(cfg: CoreConfig, log: seq<Output>, reply: seq<Output>, after: seq<Output>,
          h: Proposal) {
    && log + [Forwarded(h)] + reply <= after
    && (h.author != cfg.name || reply != [Cast(Ballot(h.id, h.round, h.author))] ==>
          after == log + [Forwarded(h)] + reply)
  }

  lemma ProcessHeaderAnswers(cfg: CoreConfig, s: CoreState, ticks: seq<Tick>, h: Proposal)
    requires cfg.committee.Valid() && KeepsTrack(cfg, s, ticks, h)
    ensures AnswersHeader(cfg, s.log, HeaderReply(cfg, ticks, s.log, h), ProcessHeader(cfg, s, h).state.log, h)
    ensures ProcessHeader(cfg, s, h).outcome == Rejected <==>
      HasParents(cfg.committee, s.log, h) && h.parents != [] && !Structured(cfg.committee, h)
  {
    hide Fetch, Passes, HasParents, PayloadCame, VotedBefore, TakenBefore, Stored, ProcessVote;
    FetchExact(cfg, s, h);
    StructuredHasParents(cfg.committee, h);
    hide Structured;
    var v := Vote(Begin(s, h), h);
    assert v.log == s.log + [Forwarded(h)] + [Cast(Ballot(h.id, h.round, h.author))];
    if h.author == cfg.name && h.author !in At(s.lastVoted, h.round) {
      ProcessVoteLogs(cfg, v, h.round, cfg.name);
    }
  }

  lemma StructuredHasParents(c: Committee, h: Proposal)
    requires c.Valid()
    ensures Structured(c, h) ==> h.parents != []
  {}

  predicate BringsHeader(cfg: CoreConfig, ticks: seq<Tick>, i: Input, h: Proposal) {
    i == OwnHeader(h) || i == LoopHeader(h) || (i == NetHeader(h) && LetThrough(cfg, ticks, h.author, h.round))
  }

  /** Every header let through is forwarded to consensus and answered: with a request to a waiter just when parents
      were not sent to consensus or the payload has not come, and else with a ballot just when it passes the
      structural checks and no ballot for its round and author was cast (or that was collected). */
  lemma HeaderAnswered(cfg: CoreConfig, ticks: seq<Tick>, tick: Tick, h: Proposal)
    requires cfg.committee.Valid() && Rising(ticks) && Run(cfg, ticks).outcome != Panicked
    requires BringsHeader(cfg, ticks, tick.input, h)
    ensures var log := Run(cfg, ticks).state.log;
      AnswersHeader(cfg, log, HeaderReply(cfg, ticks, log, h), Run(cfg, ticks + [tick]).state.log, h)
  {
    hide KeepsTrack, ProcessHeader, AnswersHeader, HeaderReply, GcRound, Kept, OnTick, BringsHeader;
    RunTracks(cfg, ticks, h);
    assert (ticks + [tick])[..|ticks|] == ticks;
    var s := Run(cfg, ticks).state;
    var own := s.(current := h, votes := EMPTY_VOTES);
    OwnTracks(cfg, s, own, ticks, h);
    ProcessHeaderAnswers(cfg, own, ticks, h);
    ProcessHeaderAnswers(cfg, s, ticks, h);
    TickLog(cfg, s, own, ticks, tick, h);
  }

  lemma TickLog(cfg: CoreConfig, s: CoreState, own: CoreState, ticks: seq<Tick>, tick: Tick, h: Proposal)
    requires cfg.committee.Valid() && s.gcRound == GcRound(cfg, ticks) && own == s.(current := h, votes := EMPTY_VOTES)
    requires BringsHeader(cfg, ticks, tick.input, h)
    ensures OnTick(cfg, s, tick).state.log == ProcessHeader(cfg, s, h).state.log ||
      OnTick(cfg, s, tick).state.log == ProcessHeader(cfg, own, h).state.log
  {
    hide ProcessHeader, GcRound, Cleanup, Handle;
    HandledHeader(cfg, s, own, ticks, tick.input, h);
    CleanupLog(cfg, Handle(cfg, s, tick.input).state, tick.consensusRound);
  }

  lemma CleanupLog(cfg: CoreConfig, s: CoreState, consensusRound: Round)
    ensures Cleanup(cfg, s, consensusRound).log == s.log
  {}

  lemma HandledHeader(cfg: CoreConfig, s: CoreState, own: CoreState, ticks: seq<Tick>, i: Input, h: Proposal)
    requires cfg.committee.Valid() && s.gcRound == GcRound(cfg, ticks) && own == s.(current := h, votes := EMPTY_VOTES)
    requires BringsHeader(cfg, ticks, i, h)
    ensures Handle(cfg, s, i) == if i.OwnHeader? then ProcessHeader(cfg, own, h) else ProcessHeader(cfg, s, h)
  {
    hide ProcessHeader, GcRound;
  }

  lemma OwnTracks(cfg: CoreConfig, s: CoreState, own: CoreState, ticks: seq<Tick>, h: Proposal)
    requires KeepsTrack(cfg, s, ticks, h) && own == s.(current := h, votes := EMPTY_VOTES)
    ensures KeepsTrack(cfg, own, ticks, h)
  {}

  // ---------- certificates ----------

  ghost predicate BringsCertificate(cfg: CoreConfig, ticks: seq<Tick>, i: Input, cert: Certificate) {
    || i == LoopCertificate(cert)
    || (i == NetCertificate(cert) && GcRound(cfg, ticks) <= cert.header.round && Acceptable(cfg.committee, cert))
  }

  /** The header fails the structural checks. */
  ghost predicate Malformed(cfg: CoreConfig, log: seq<Output>, h: Proposal)
    requires cfg.committee.Valid()
  {
    HasParents(cfg.committee, log, h) && h.parents != [] && !Structured(cfg.committee, h)
  }

  /** Every certificate let through is sent to consensus or handed to the certificate waiter, unless its header is
      new and fails the structural checks. */
  lemma ReceivedIsAnswered(cfg: CoreConfig, ticks: seq<Tick>, tick: Tick, cert: Certificate)
    requires cfg.committee.Valid() && Rising(ticks) && Run(cfg, ticks + [tick]).outcome != Panicked
    requires BringsCertificate(cfg, ticks, tick.input, cert)
    ensures var log, after := Run(cfg, ticks).state.log, Run(cfg, ticks + [tick]).state.log;
      (exists j :: |log| <= j < |after| && Answers(after[j], cert)) <==>
        TakenBefore(cfg, ticks, log, cert.header) || !Malformed(cfg, log, cert.header)
  {
    hide Acceptable, KeepsTrack, ProcessCertificate, GcRound, Kept, TakenBefore, Malformed, Answers;
    assert (ticks + [tick])[..|ticks|] == ticks;
    RunTracks(cfg, ticks, cert.header);
    var s := Run(cfg, ticks).state;
    RunActs(cfg, Collected(cfg, ticks), ticks);
    ActsLive(cfg, Collected(cfg, ticks), INIT_CORE, Run(cfg, ticks));
    CertificateAnswered(cfg, Collected(cfg, ticks), s, ticks, cert);
  }

  lemma CertificateAnswered(cfg: CoreConfig, f: Round, s: CoreState, ticks: seq<Tick>, cert: Certificate)
    requires cfg.committee.Valid() && Kept(cfg, s) && Live(cfg.committee, f, s) &&
      KeepsTrack(cfg, s, ticks, cert.header)
    requires ProcessCertificate(cfg, s, cert).outcome != Panicked
    ensures AnsweredFrom(ProcessCertificate(cfg, s, cert).state.log, |s.log|, cert) <==>
      TakenBefore(cfg, ticks, s.log, cert.header) || !Malformed(cfg, s.log, cert.header)
  {
    hide Kept, Live, Acts, AnsweredFrom, HasParents, Structured, ProcessHeader, HeaderReply, AnswersHeader,
      TakenBefore, VotedBefore, Stored, PayloadCame;
    ProcessCertificateActs(cfg, f, s, cert);
    ProcessHeaderAnswers(cfg, s, ticks, cert.header);
    var t := ProcessHeader(cfg, s, cert.header);
    if cert.header.id !in At(s.processing, cert.header.round) && t.outcome == Rejected {
      RejectedSilently(cfg, s, ticks, cert);
    } else {
      DeliveredOutcome(cfg, s, cert);
    }
  }

  lemma DeliveredOutcome(cfg: CoreConfig, s: CoreState, cert: Certificate)
    ensures Deliver(cfg, s, cert).outcome == Done
  {
    hide MissesParent, AddCertificate;
  }

  lemma RejectedSilently(cfg: CoreConfig, s: CoreState, ticks: seq<Tick>, cert: Certificate)
    requires cfg.committee.Valid() && KeepsTrack(cfg, s, ticks, cert.header) && Malformed(cfg, s.log, cert.header)
    ensures !AnsweredFrom(ProcessHeader(cfg, s, cert.header).state.log, |s.log|, cert)
  {
    ProcessHeaderAnswers(cfg, s, ticks, cert.header);
    hide HasParents, Structured, ProcessHeader, KeepsTrack;
    var after := ProcessHeader(cfg, s, cert.header).state.log;
    assert after == s.log + [Forwarded(cert.header)] + [];
  }
}
