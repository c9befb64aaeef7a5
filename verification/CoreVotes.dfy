/** When the core assembles a certificate for its own header, told from the votes received and cast. */
module CoreVotes {
  import opened Config
  import opened Messages
  import opened Aggregators
  import opened Processing
  import opened CoreProgress
  import opened CoreReplies

  // ---------- votes received and cast ----------

  function NewVoter(c: Committee, h: Proposal, i: Input): set<Author> {
    match i
    case NetVote(b, a) => if b == Ballot(h.id, h.round, h.author) && c.Stake(a) > 0 then {a} else {}
    case _ => {}
  }

  /** The members whose votes for the header were received. */
  function VotersOf(c: Committee, h: Proposal, ticks: seq<Tick>): set<Author> {
    if ticks == [] then {}
    else VotersOf(c, h, ticks[..|ticks| - 1]) + NewVoter(c, h, ticks[|ticks| - 1].input)
  }

  predicate OwnBallot(o: Output, me: Author) {
    o.Cast? && o.ballot.origin == me
  }

  /** We voted for a header of ours. */
  ghost predicate VotedOwn(log: seq<Output>, start: nat, me: Author) {
    exists i :: start <= i < |log| && OwnBallot(log[i], me)
  }

  ghost function AllVoters(log: seq<Output>, start: nat, me: Author, names: set<Author>): set<Author> {
    names + if VotedOwn(log, start, me) then {me} else {}
  }

  predicate For(o: Output, h: Proposal) {
    o.Assembled? && o.certificate.header == h
  }

  /** How many certificates for the header were assembled. */
  function Assemblies(log: seq<Output>, start: nat, h: Proposal): nat {
    if |log| <= start then 0
    else Assemblies(log[..|log| - 1], start, h) + if For(log[|log| - 1], h) then 1 else 0
  }

  // ---------- the aggregator holds them ----------

  ghost predicate Holds(c: Committee, start: nat, s: CoreState, voters: set<Author>)
    requires c.Valid()
  {
    && start <= |s.log| && VoteBoxFits(c, s.current.round, s.votes, voters)
    && Assemblies(s.log, start, s.current) == if Ripe(c, s.current.round, voters) then 1 else 0
  }

  ghost predicate Counts(cfg: CoreConfig, start: nat, names: set<Author>, s: CoreState)
    requires cfg.committee.Valid()
  {
    Holds(cfg.committee, start, s, AllVoters(s.log, start, cfg.name, names))
  }

  /** The turn panicked, or the votes are still counted. */
  ghost predicate StillCounts(cfg: CoreConfig, start: nat, names: set<Author>, h: Proposal, t: Turn)
    requires cfg.committee.Valid()
  {
    t.outcome == Panicked || (t.state.current == h && Counts(cfg, start, names, t.state))
  }

  lemma LogCounts(log: seq<Output>, start: nat, o: Output, h: Proposal, me: Author)
    requires start <= |log|
    ensures Assemblies(log + [o], start, h) == Assemblies(log, start, h) + if For(o, h) then 1 else 0
    ensures VotedOwn(log + [o], start, me) <==> VotedOwn(log, start, me) || OwnBallot(o, me)
  {
    var all := log + [o];
    assert all[..|log|] == log && all[|log|] == o;
    if VotedOwn(log, start, me) {
      var i :| start <= i < |log| && OwnBallot(log[i], me);
      assert OwnBallot(all[i], me);
    }
  }

  lemma QuietCounts(cfg: CoreConfig, start: nat, names: set<Author>, s: CoreState, t: CoreState, o: Output)
    requires cfg.committee.Valid() && Counts(cfg, start, names, s) && !o.Assembled? && !OwnBallot(o, cfg.name)
    requires t.log == s.log + [o] && t.current == s.current && t.votes == s.votes
    ensures Counts(cfg, start, names, t)
  {
    hide VoteBoxFits, Ripe, Assemblies, VotedOwn;
    LogCounts(s.log, start, o, s.current, cfg.name);
  }

  lemma DeliverCounts(cfg: CoreConfig, start: nat, names: set<Author>, s: CoreState, cert: Certificate)
    requires cfg.committee.Valid() && Counts(cfg, start, names, s)
    ensures StillCounts(cfg, start, names, s.current, Deliver(cfg, s, cert))
  {
    hide Counts, MissesParent, AddCertificate;
    var t := Deliver(cfg, s, cert).state;
    if MissesParent(cfg.committee, s.store, cert.header.parents) {
      QuietCounts(cfg, start, names, s, t, AwaitAncestors(cert));
    } else {
      var step := AddCertificate(cfg.committee, BoxOf(s, cert.header.round), cert);
      if step.reply.Yield? {
        var o := NewParents(step.reply.value, cert.header.round);
        QuietCounts(cfg, start, names, s, Log(s, o), o);
        QuietCounts(cfg, start, names, Log(s, o), t, Delivered(cert));
      } else {
        QuietCounts(cfg, start, names, s, t, Delivered(cert));
      }
    }
  }

  // ---------- the recursion ----------

  lemma {:induction false} ProcessHeaderCounts(cfg: CoreConfig, start: nat, names: set<Author>, s: CoreState,
          header: Proposal)
    requires cfg.committee.Valid() && Counts(cfg, start, names, s)
    requires header.author == cfg.name ==> header.round == s.current.round
    ensures StillCounts(cfg, start, names, s.current, ProcessHeader(cfg, s, header))
    decreases Pending(Begin(s, header)), 2
  {
    hide Counts, Fetch, Passes, ProcessVote;
    var b := Begin(s, header);
    QuietCounts(cfg, start, names, s, b, Forwarded(header));
    match Fetch(cfg.committee, b.store, header.parents)
    case None => QuietCounts(cfg, start, names, b, Log(b, AwaitParents(header)), AwaitParents(header));
    case Some(parents) =>
      if parents == [] || !Passes(cfg.committee, header, parents) {
      } else if header.author != cfg.name && header.id !in b.payloads {
        QuietCounts(cfg, start, names, b, Log(b, AwaitPayload(header)), AwaitPayload(header));
      } else if header.author !in At(b.lastVoted, header.round) {
        var v := Vote(b, header);
        var o := Cast(Ballot(header.id, header.round, header.author));
        if header.author == cfg.name {
          var voters := CastHolds(cfg, start, names, b, v, o);
          ProcessVoteCounts(cfg, start, names, v, header.round, cfg.name, voters);
        } else {
          QuietCounts(cfg, start, names, b, v, o);
        }
      }
  }

  /** Our own ballot is cast before it is counted. */
  lemma CastHolds(cfg: CoreConfig, start: nat, names: set<Author>, s: CoreState, t: CoreState, o: Output)
    returns (voters: set<Author>)
    requires cfg.committee.Valid() && Counts(cfg, start, names, s) && OwnBallot(o, cfg.name)
    requires t.log == s.log + [o] && t.current == s.current && t.votes == s.votes
    ensures Holds(cfg.committee, start, t, voters)
    ensures voters + {cfg.name} == AllVoters(t.log, start, cfg.name, names)
  {
    hide VoteBoxFits, Ripe, Assemblies, VotedOwn;
    LogCounts(s.log, start, o, s.current, cfg.name);
    voters := AllVoters(s.log, start, cfg.name, names);
  }

  lemma {:induction false} ProcessVoteCounts(cfg: CoreConfig, start: nat, names: set<Author>, s: CoreState,
          round: Round, author: Author, voters: set<Author>)
    requires cfg.committee.Valid() && Holds(cfg.committee, start, s, voters) && round == s.current.round
    requires voters + {author} == AllVoters(s.log, start, cfg.name, names)
    ensures StillCounts(cfg, start, names, s.current, ProcessVote(cfg, s, round, author))
    decreases Pending(s), 1
  {
    hide AddVote, ProcessCertificate, Counts, Holds;
    var step := AddVote(cfg.committee, s.current, s.votes, author, round);
    VoteHolds(cfg, start, names, s, author, voters, step);
    var v := s.(votes := step.box);
    if step.reply.Yield? {
      ProcessCertificateCounts(cfg, start, names, Log(v, Assembled(step.reply.value)), step.reply.value);
    }
  }

  lemma RipeMore(c: Committee, round: Round, voters: set<Author>, a: Author)
    requires c.Valid() && Ripe(c, round, voters)
    ensures Ripe(c, round, voters + {a})
  {
    WeightMonotone(c, voters, voters + {a});
  }

  lemma VoteHolds(cfg: CoreConfig, start: nat, names: set<Author>, s: CoreState, author: Author, voters: set<Author>,
          step: VoteStep)
    requires cfg.committee.Valid() && Holds(cfg.committee, start, s, voters)
    requires voters + {author} == AllVoters(s.log, start, cfg.name, names)
    requires step == AddVote(cfg.committee, s.current, s.votes, author, s.current.round)
    ensures if step.reply.Yield? then
        && step.reply.value.header == s.current
        && Counts(cfg, start, names, Log(s.(votes := step.box), Assembled(step.reply.value)))
      else Counts(cfg, start, names, s.(votes := step.box))
  {
    hide VoteBoxFits, AddVote, Ripe, Assemblies, VotedOwn;
    var c, r := cfg.committee, s.current.round;
    AddVoteFits(c, s.current, s.votes, author, r, voters);
    if Ripe(c, r, voters) {
      RipeMore(c, r, voters, author);
    }
    if step.reply.Yield? {
      LogCounts(s.log, start, Assembled(step.reply.value), s.current, cfg.name);
    }
  }

  lemma {:induction false} ProcessCertificateCounts(cfg: CoreConfig, start: nat, names: set<Author>, s: CoreState,
          cert: Certificate)
    requires cfg.committee.Valid() && Counts(cfg, start, names, s)
    requires cert.header.author == cfg.name ==> cert.header.round == s.current.round
    ensures StillCounts(cfg, start, names, s.current, ProcessCertificate(cfg, s, cert))
    decreases Pending(s), if IsCurrent(s, cert.header) then 0 else 3
  {
    hide Counts, ProcessHeader, Deliver;
    if cert.header.id in At(s.processing, cert.header.round) {
      DeliverCounts(cfg, start, names, s, cert);
    } else {
      ProcessHeaderCounts(cfg, start, names, s, cert.header);
      var t := ProcessHeader(cfg, s, cert.header);
      if t.outcome == Done {
        DeliverCounts(cfg, start, names, t.state, cert);
      }
    }
  }

  // ---------- the main loop ----------

  /** No other header of our own is made, and none of another round comes back. */
  predicate Stays(cfg: CoreConfig, h: Proposal, i: Input) {
    match i
    case OwnHeader(_) => false
    case NetHeader(x) => x.author == cfg.name ==> x.round == h.round
    case LoopHeader(x) => x.author == cfg.name ==> x.round == h.round
    case NetCertificate(cert) => cert.header.author == cfg.name ==> cert.header.round == h.round
    case LoopCertificate(cert) => cert.header.author == cfg.name ==> cert.header.round == h.round
    case _ => true
  }

  lemma SameCounts(cfg: CoreConfig, start: nat, names: set<Author>, s: CoreState, t: CoreState)
    requires cfg.committee.Valid() && Counts(cfg, start, names, s)
    requires t.log == s.log && t.current == s.current && t.votes == s.votes
    ensures Counts(cfg, start, names, t)
  {}

  lemma NamesCount(cfg: CoreConfig, start: nat, names: set<Author>, s: CoreState, t: CoreState)
    requires cfg.committee.Valid() && Counts(cfg, start, names, s)
    requires t.current == s.current && t.votes == s.votes
    requires t.log == s.log || (|t.log| == |s.log| + 1 && t.log == s.log + [t.log[|s.log|]] && IsQuorum(t.log[|s.log|]))
    ensures Counts(cfg, start, names, t)
  {
    hide Counts;
    if t.log == s.log {
      SameCounts(cfg, start, names, s, t);
    } else {
      QuietCounts(cfg, start, names, s, t, t.log[|s.log|]);
    }
  }

  lemma TimeoutCounts(cfg: CoreConfig, start: nat, names: set<Author>, s: CoreState, a: Author, r: Round)
    requires cfg.committee.Valid() && Counts(cfg, start, names, s)
    ensures StillCounts(cfg, start, names, s.current, ProcessTimeout(cfg, s, a, r))
  {
    hide Counts, AddName;
    NamesCount(cfg, start, names, s, ProcessTimeout(cfg, s, a, r).state);
  }

  lemma NoVoteCounts(cfg: CoreConfig, start: nat, names: set<Author>, s: CoreState, a: Author, r: Round)
    requires cfg.committee.Valid() && Counts(cfg, start, names, s)
    ensures StillCounts(cfg, start, names, s.current, ProcessNoVote(cfg, s, a, r))
  {
    hide Counts, AddName, NoVoteBox;
    NamesCount(cfg, start, names, s, ProcessNoVote(cfg, s, a, r).state);
  }

  lemma NetVoteCounts(cfg: CoreConfig, start: nat, names: set<Author>, s: CoreState, round: Round, a: Author)
    requires cfg.committee.Valid() && Counts(cfg, start, names, s) && round == s.current.round
    ensures StillCounts(cfg, start, names + {a}, s.current, ProcessVote(cfg, s, round, a))
  {
    hide Holds, VotedOwn, ProcessVote;
    ProcessVoteCounts(cfg, start, names + {a}, s, round, a, AllVoters(s.log, start, cfg.name, names));
  }

  lemma HandleCounts(cfg: CoreConfig, start: nat, names: set<Author>, s: CoreState, i: Input)
    requires cfg.committee.Valid() && Counts(cfg, start, names, s) && Stays(cfg, s.current, i)
    ensures StillCounts(cfg, start, names + NewVoter(cfg.committee, s.current, i), s.current, Handle(cfg, s, i))
  {
    hide Counts, Acceptable, ProcessHeader, ProcessVote, ProcessCertificate, ProcessTimeout, ProcessNoVote;
    assert names + {} == names;
    match i
    case NetHeader(h) => ProcessHeaderCounts(cfg, start, names, s, h);
    case LoopHeader(h) => ProcessHeaderCounts(cfg, start, names, s, h);
    case NetCertificate(c) => ProcessCertificateCounts(cfg, start, names, s, c);
    case LoopCertificate(c) => ProcessCertificateCounts(cfg, start, names, s, c);
    case NetVote(b, a) =>
      if Sane(cfg, s, i) {
        NetVoteCounts(cfg, start, names, s, b.round, a);
      }
    case NetTimeout(a, r) => TimeoutCounts(cfg, start, names, s, a, r);
    case OwnTimeout(r) => TimeoutCounts(cfg, start, names, s, cfg.name, r);
    case NetNoVote(a, r) => NoVoteCounts(cfg, start, names, s, a, r);
    case OwnNoVote(_) =>
    case PayloadStored(id) => SameCounts(cfg, start, names, s, Handle(cfg, s, i).state);
  }

  lemma OwnCounts(cfg: CoreConfig, s: CoreState, h: Proposal)
    requires cfg.committee.Valid()
    ensures StillCounts(cfg, |s.log|, {}, h, ProcessHeader(cfg, s.(current := h, votes := EMPTY_VOTES), h))
  {
    hide ProcessHeader;
    var own := s.(current := h, votes := EMPTY_VOTES);
    EmptyWeight(cfg.committee);
    ThresholdArithmetic(cfg.committee);
    var none: set<Author> := {};
    assert NameSet([]) == none && none + none == none;
    assert !VotedOwn(s.log, |s.log|, cfg.name);
    ProcessHeaderCounts(cfg, |s.log|, {}, own, h);
  }

  /** The ticks since the header was made. */
  ghost predicate Since(cfg: CoreConfig, h: Proposal, ticks: seq<Tick>) {
    forall k :: 0 <= k < |ticks| ==> Stays(cfg, h, ticks[k].input)
  }

  lemma {:induction false} RunCounts(cfg: CoreConfig, before: seq<Tick>, own: Tick, h: Proposal, after: seq<Tick>)
    requires cfg.committee.Valid() && own.input == OwnHeader(h) && Since(cfg, h, after)
    ensures StillCounts(cfg, |Run(cfg, before).state.log|, VotersOf(cfg.committee, h, after), h,
      Run(cfg, before + [own] + after))
    decreases |after|
  {
    hide Counts, Handle, Stays;
    var start, ticks := |Run(cfg, before).state.log|, before + [own] + after;
    if after == [] {
      assert ticks[..|before|] == before && ticks[|before|] == own;
      HandleOwn(cfg, Run(cfg, before).state, h);
      var s := Run(cfg, before).state;
      CleanupCounts(cfg, start, {}, h, Handle(cfg, s, own.input), own.consensusRound);
    } else {
      var last := after[|after| - 1];
      var less := after[..|after| - 1];
      assert ticks[..|ticks| - 1] == before + [own] + less && ticks[|ticks| - 1] == last;
      RunCounts(cfg, before, own, h, less);
      var b := Run(cfg, before + [own] + less);
      if b.outcome != Panicked {
        var names := VotersOf(cfg.committee, h, less);
        HandleCounts(cfg, start, names, b.state, last.input);
        CleanupCounts(cfg, start, VotersOf(cfg.committee, h, after), h, Handle(cfg, b.state, last.input),
          last.consensusRound);
      }
    }
  }

  lemma HandleOwn(cfg: CoreConfig, s: CoreState, h: Proposal)
    requires cfg.committee.Valid()
    ensures StillCounts(cfg, |s.log|, {}, h, Handle(cfg, s, OwnHeader(h)))
  {
    hide ProcessHeader, StillCounts;
    OwnCounts(cfg, s, h);
  }

  lemma CleanupCounts(cfg: CoreConfig, start: nat, names: set<Author>, h: Proposal, t: Turn, consensusRound: Round)
    requires cfg.committee.Valid() && StillCounts(cfg, start, names, h, t)
    ensures t.outcome != Panicked ==>
      StillCounts(cfg, start, names, h, Turn(Cleanup(cfg, t.state, consensusRound), t.outcome))
  {
    hide Counts;
    if t.outcome != Panicked {
      SameCounts(cfg, start, names, t.state, Cleanup(cfg, t.state, consensusRound));
    }
  }

  /** A certificate for our header is assembled, once, as soon as the leader of its round and a quorum voted for it:
      the members whose votes came since it was made, and ourselves once we did. */
  lemma AssembledWhenRipe(cfg: CoreConfig, before: seq<Tick>, own: Tick, h: Proposal, after: seq<Tick>)
    requires cfg.committee.Valid() && own.input == OwnHeader(h) && Since(cfg, h, after)
    requires Run(cfg, before + [own] + after).outcome != Panicked
    ensures var log, start := Run(cfg, before + [own] + after).state.log, |Run(cfg, before).state.log|;
      var voters := AllVoters(log, start, cfg.name, VotersOf(cfg.committee, h, after));
      Assemblies(log, start, h) == if Ripe(cfg.committee, h.round, voters) then 1 else 0
  {
    hide Run, VoteBoxFits, Ripe, Assemblies, VotedOwn;
    RunCounts(cfg, before, own, h, after);
  }
}
