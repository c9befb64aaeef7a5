/** What a message makes the core send, told from the messages received and from what was sent before, without the
    core's own variables. */
module CoreReplies {
  import opened Config
  import opened Messages
  import opened Aggregators
  import opened Processing
  import opened CoreProgress

  // ---------- what processing leaves alone ----------

  predicate Forwards(o: Output, id: nat, r: Round) {
    o.Forwarded? && o.header.id == id && o.header.round == r
  }

  ghost predicate WasForwarded(log: seq<Output>, id: nat, r: Round) {
    exists i :: 0 <= i < |log| && Forwards(log[i], id, r)
  }

  /** `processing` holds the headers forwarded to consensus. */
  ghost predicate Remembers(s: CoreState, r: Round) {
    forall id: nat :: id in At(s.processing, r) <==> WasForwarded(s.log, id, r)
  }

  predicate SameLists(s: CoreState, t: CoreState) {
    && t.payloads == s.payloads && t.timeouts == s.timeouts && t.noVotes == s.noVotes
    && t.current == s.current && t.gcRound == s.gcRound
  }

  predicate IsQuorum(o: Output) {
    o.TimeoutQuorum? || o.NoVoteQuorum?
  }

  ghost predicate Follows(s: CoreState, t: CoreState) {
    && SameLists(s, t) && s.log <= t.log
    && (forall i :: |s.log| <= i < |t.log| ==> !IsQuorum(t.log[i]))
    && forall r: Round :: Remembers(s, r) ==> Remembers(t, r)
  }

  lemma ForwardedMore(log: seq<Output>, o: Output, id: nat, r: Round)
    ensures WasForwarded(log + [o], id, r) <==> WasForwarded(log, id, r) || Forwards(o, id, r)
  {
    var all := log + [o];
    assert all[|log|] == o;
    if WasForwarded(log, id, r) {
      var i :| 0 <= i < |log| && Forwards(log[i], id, r);
      assert Forwards(all[i], id, r);
    }
  }

  lemma OneFollows(s: CoreState, t: CoreState, o: Output)
    requires SameLists(s, t) && t.log == s.log + [o] && !IsQuorum(o)
    requires t.processing == s.processing && !o.Forwarded?
    ensures Follows(s, t)
  {
    forall r: Round | Remembers(s, r) ensures Remembers(t, r) {
      forall id: nat ensures id in At(t.processing, r) <==> WasForwarded(t.log, id, r) {
        ForwardedMore(s.log, o, id, r);
      }
    }
  }

  lemma BeginFollows(s: CoreState, header: Proposal)
    ensures Follows(s, Begin(s, header))
  {
    var t := Begin(s, header);
    forall r: Round | Remembers(s, r) ensures Remembers(t, r) {
      forall id: nat ensures id in At(t.processing, r) <==> WasForwarded(t.log, id, r) {
        ForwardedMore(s.log, Forwarded(header), id, r);
      }
    }
  }

  lemma SameFollows(s: CoreState, t: CoreState)
    requires SameLists(s, t) && t.log == s.log && t.processing == s.processing
    ensures Follows(s, t)
  {
    assert forall r: Round :: Remembers(s, r) ==> Remembers(t, r);
  }

  lemma FollowsTwice(s: CoreState, t: CoreState, u: CoreState)
    requires Follows(s, t) && Follows(t, u)
    ensures Follows(s, u)
  {
    hide Remembers;
  }

  lemma DeliverFollows(cfg: CoreConfig, s: CoreState, cert: Certificate)
    ensures Follows(s, Deliver(cfg, s, cert).state)
  {
    hide Follows, MissesParent, AddCertificate;
    var t := Deliver(cfg, s, cert).state;
    if MissesParent(cfg.committee, s.store, cert.header.parents) {
      OneFollows(s, t, AwaitAncestors(cert));
    } else {
      var step := AddCertificate(cfg.committee, BoxOf(s, cert.header.round), cert);
      if step.reply.Yield? {
        var o := NewParents(step.reply.value, cert.header.round);
        OneFollows(s, Log(s, o), o);
        OneFollows(Log(s, o), t, Delivered(cert));
        FollowsTwice(s, Log(s, o), t);
      } else {
        OneFollows(s, t, Delivered(cert));
      }
    }
  }

  lemma {:induction false} ProcessHeaderFollows(cfg: CoreConfig, s: CoreState, header: Proposal)
    requires cfg.committee.Valid()
    ensures Follows(s, ProcessHeader(cfg, s, header).state)
    decreases Pending(Begin(s, header)), 2
  {
    hide Follows, Fetch, Passes, ProcessVote, Begin, Vote, Log;
    var b := Begin(s, header);
    BeginFollows(s, header);
    match Fetch(cfg.committee, b.store, header.parents)
    case None => LogFollows(s, b, AwaitParents(header));
    case Some(parents) =>
      if parents == [] || !Passes(cfg.committee, header, parents) {
      } else if header.author != cfg.name && header.id !in b.payloads {
        LogFollows(s, b, AwaitPayload(header));
      } else if header.author !in At(b.lastVoted, header.round) {
        var v := Vote(b, header);
        VoteFollows(s, b, header);
        VotePending(b, header);
        if header.author == cfg.name {
          ProcessVoteFollows(cfg, v, header.round, cfg.name);
          FollowsTwice(s, v, ProcessVote(cfg, v, header.round, cfg.name).state);
        }
      }
  }

  lemma LogFollows(s: CoreState, t: CoreState, o: Output)
    requires Follows(s, t) && !IsQuorum(o) && !o.Forwarded?
    ensures Follows(s, Log(t, o))
  {
    hide Follows;
    OneFollows(t, Log(t, o), o);
    FollowsTwice(s, t, Log(t, o));
  }

  lemma VoteFollows(s: CoreState, t: CoreState, header: Proposal)
    requires Follows(s, t)
    ensures Follows(s, Vote(t, header))
  {
    hide Follows;
    OneFollows(t, Vote(t, header), Cast(Ballot(header.id, header.round, header.author)));
    FollowsTwice(s, t, Vote(t, header));
  }

  lemma {:induction false} ProcessVoteFollows(cfg: CoreConfig, s: CoreState, round: Round, author: Author)
    requires cfg.committee.Valid()
    ensures Follows(s, ProcessVote(cfg, s, round, author).state)
    decreases Pending(s), 1
  {
    hide Follows, ProcessCertificate;
    var step := AddVote(cfg.committee, s.current, s.votes, author, round);
    var v := s.(votes := step.box);
    SameFollows(s, v);
    if step.reply.Yield? {
      var cert := step.reply.value;
      LogFollows(s, v, Assembled(cert));
      assert cert.header == s.current;
      ProcessCertificateFollows(cfg, Log(v, Assembled(cert)), cert);
      FollowsTwice(s, Log(v, Assembled(cert)), ProcessCertificate(cfg, Log(v, Assembled(cert)), cert).state);
    }
  }

  lemma {:induction false} ProcessCertificateFollows(cfg: CoreConfig, s: CoreState, cert: Certificate)
    requires cfg.committee.Valid()
    ensures Follows(s, ProcessCertificate(cfg, s, cert).state)
    decreases Pending(s), if IsCurrent(s, cert.header) then 0 else 3
  {
    hide Follows, ProcessHeader, Deliver;
    if cert.header.id in At(s.processing, cert.header.round) {
      DeliverFollows(cfg, s, cert);
    } else {
      ProcessHeaderFollows(cfg, s, cert.header);
      var t := ProcessHeader(cfg, s, cert.header);
      if t.outcome == Done {
        DeliverFollows(cfg, t.state, cert);
        FollowsTwice(s, t.state, Deliver(cfg, t.state, cert).state);
      }
    }
  }

  // ---------- timeouts and no-votes ----------

  /** The round below which messages are turned away: the last one the garbage collector asked for. */
  function GcRound(cfg: CoreConfig, ticks: seq<Tick>): Round {
    if ticks == [] then 0
    else
      var r := ticks[|ticks| - 1].consensusRound;
      if r > cfg.gcDepth then r - cfg.gcDepth else GcRound(cfg, ticks[..|ticks| - 1])
  }

  predicate LetThrough(cfg: CoreConfig, ticks: seq<Tick>, a: Author, r: Round) {
    GcRound(cfg, ticks) <= r && cfg.committee.Stake(a) > 0
  }

  /** The authors of the timeouts for a round let through, in order of arrival. */
  function TimeoutsOf(cfg: CoreConfig, ticks: seq<Tick>, r: Round): seq<Author> {
    if ticks == [] then []
    else
      var before := ticks[..|ticks| - 1];
      TimeoutsOf(cfg, before, r) +
      match ticks[|ticks| - 1].input
      case NetTimeout(a, q) => if q == r && LetThrough(cfg, before, a, q) then [a] else []
      case OwnTimeout(q) => if q == r then [cfg.name] else []
      case _ => []
  }

  /** Likewise the no-votes; our own is counted first. */
  function NoVotesOf(cfg: CoreConfig, ticks: seq<Tick>, r: Round): seq<Author> {
    if ticks == [] then [cfg.name]
    else
      var before := ticks[..|ticks| - 1];
      NoVotesOf(cfg, before, r) +
      match ticks[|ticks| - 1].input
      case NetNoVote(a, q) => if q == r && LetThrough(cfg, before, a, q) then [a] else []
      case _ => []
  }

  function Distinct(authors: seq<Author>): seq<Author> {
    if authors == [] then []
    else
      var last := |authors| - 1;
      Distinct(authors[..last]) + if authors[last] in authors[..last] then [] else [authors[last]]
  }

  /** One certificate for every new author from the quorum on, of all authors so far; the first `skip` authors
      are counted but yield nothing. */
  ghost function QuorumCerts(c: Committee, r: Round, authors: seq<Author>, skip: nat): seq<QuorumCert> {
    if |authors| <= skip then []
    else
      var last := |authors| - 1;
      QuorumCerts(c, r, authors[..last], skip) +
      if authors[last] in authors[..last] || c.Weight(NameSet(authors)) < c.QuorumThreshold() then []
      else [QuorumCert(r, Distinct(authors))]
  }

  function TimeoutCertsOf(log: seq<Output>, r: Round): seq<QuorumCert> {
    if log == [] then []
    else
      var o := log[|log| - 1];
      TimeoutCertsOf(log[..|log| - 1], r) + if o.TimeoutQuorum? && o.cert.round == r then [o.cert] else []
  }

  function NoVoteCertsOf(log: seq<Output>, r: Round): seq<QuorumCert> {
    if log == [] then []
    else
      var o := log[|log| - 1];
      NoVoteCertsOf(log[..|log| - 1], r) + if o.NoVoteQuorum? && o.cert.round == r then [o.cert] else []
  }

  ghost predicate NamesFit(c: Committee, box: NameBox, authors: seq<Author>) {
    && box.used == NameSet(authors) && box.names == Distinct(authors) && box.weight == c.Weight(NameSet(authors))
  }

  lemma AddNameTells(c: Committee, box: NameBox, authors: seq<Author>, name: Author, r: Round)
    requires c.Valid() && NamesFit(c, box, authors)
    ensures var step, all := AddName(c, box, name, r), authors + [name];
      && NamesFit(c, step.box, all)
      && (if name in authors || c.Weight(NameSet(all)) < c.QuorumThreshold() then !step.reply.Yield?
          else step.reply == Yield(QuorumCert(r, Distinct(all))))
  {
    var all := authors + [name];
    assert all[..|authors|] == authors && all[|authors|] == name;
    NameSetAdd(authors, name);
    assert name in authors <==> name in NameSet(authors);
    if name in authors {
      assert NameSet(authors) + {name} == NameSet(authors);
    } else {
      WeightAdd(c, NameSet(authors), name);
    }
  }

  /** What a round's aggregator of timeouts holds, and what it yielded. */
  ghost predicate TimeoutsTrack(cfg: CoreConfig, s: CoreState, r: Round, authors: seq<Author>) {
    && NamesFit(cfg.committee, if r in s.timeouts then s.timeouts[r] else EMPTY_NAMES, authors)
    && TimeoutCertsOf(s.log, r) == QuorumCerts(cfg.committee, r, authors, 0)
  }

  ghost predicate NoVotesTrack(cfg: CoreConfig, s: CoreState, r: Round, authors: seq<Author>) {
    && NamesFit(cfg.committee, NoVoteBox(cfg, s, r), authors) && authors != []
    && NoVoteCertsOf(s.log, r) == QuorumCerts(cfg.committee, r, authors, 1)
  }

  /** Nothing about timeouts and no-votes. */
  ghost predicate Quiet(s: CoreState, t: CoreState) {
    && t.timeouts == s.timeouts && t.noVotes == s.noVotes && t.gcRound == s.gcRound
    && s.log <= t.log && forall i :: |s.log| <= i < |t.log| ==> !IsQuorum(t.log[i])
  }

  lemma {:induction false} QuietLog(before: seq<Output>, after: seq<Output>, r: Round)
    requires before <= after && forall i :: |before| <= i < |after| ==> !IsQuorum(after[i])
    ensures TimeoutCertsOf(after, r) == TimeoutCertsOf(before, r) && NoVoteCertsOf(after, r) == NoVoteCertsOf(before, r)
    decreases |after|
  {
    if |before| == |after| {
      assert before == after;
    } else {
      assert !IsQuorum(after[|after| - 1]);
      QuietLog(before, after[..|after| - 1], r);
    }
  }

  lemma QuietTracks(cfg: CoreConfig, s: CoreState, t: CoreState, r: Round)
    requires Quiet(s, t)
    ensures forall authors :: TimeoutsTrack(cfg, s, r, authors) ==> TimeoutsTrack(cfg, t, r, authors)
    ensures forall authors :: NoVotesTrack(cfg, s, r, authors) ==> NoVotesTrack(cfg, t, r, authors)
  {
    hide NamesFit, QuorumCerts;
    QuietLog(s.log, t.log, r);
    assert NoVoteBox(cfg, t, r) == NoVoteBox(cfg, s, r);
  }

  lemma FollowsQuiet(s: CoreState, t: CoreState)
    requires Follows(s, t)
    ensures Quiet(s, t)
  {
    hide Remembers;
  }

  /** The messages the aggregators of timeouts and no-votes do not see. */
  predicate Unrelated(i: Input) {
    !i.NetTimeout? && !i.OwnTimeout? && !i.NetNoVote?
  }

  lemma HandleQuiet(cfg: CoreConfig, s: CoreState, i: Input)
    requires cfg.committee.Valid() && Unrelated(i)
    ensures Quiet(s, Handle(cfg, s, i).state)
  {
    hide Follows, Acceptable, ProcessHeader, ProcessVote, ProcessCertificate;
    var t := Handle(cfg, s, i).state;
    match i
    case NetHeader(h) => ProcessHeaderFollows(cfg, s, h); if t != s { FollowsQuiet(s, t); }
    case LoopHeader(h) => ProcessHeaderFollows(cfg, s, h); FollowsQuiet(s, t);
    case NetCertificate(c) => ProcessCertificateFollows(cfg, s, c); if t != s { FollowsQuiet(s, t); }
    case LoopCertificate(c) => ProcessCertificateFollows(cfg, s, c); FollowsQuiet(s, t);
    case OwnHeader(h) =>
      ProcessHeaderFollows(cfg, s.(current := h, votes := EMPTY_VOTES), h);
      FollowsQuiet(s.(current := h, votes := EMPTY_VOTES), t);
    case NetVote(b, a) => ProcessVoteFollows(cfg, s, b.round, a); if t != s { FollowsQuiet(s, t); }
    case OwnNoVote(_) =>
    case PayloadStored(id) =>
  }

  lemma CertsMore(log: seq<Output>, o: Output, r: Round)
    ensures TimeoutCertsOf(log + [o], r) ==
      TimeoutCertsOf(log, r) + if o.TimeoutQuorum? && o.cert.round == r then [o.cert] else []
    ensures NoVoteCertsOf(log + [o], r) ==
      NoVoteCertsOf(log, r) + if o.NoVoteQuorum? && o.cert.round == r then [o.cert] else []
  {
    assert (log + [o])[..|log|] == log;
  }

  /** What one more author adds to the certificates. */
  lemma QuorumCertsMore(c: Committee, box: NameBox, r: Round, authors: seq<Author>, a: Author, skip: nat)
    requires c.Valid() && NamesFit(c, box, authors) && skip <= |authors|
    ensures var step := AddName(c, box, a, r);
      && NamesFit(c, step.box, authors + [a])
      && QuorumCerts(c, r, authors + [a], skip) ==
        QuorumCerts(c, r, authors, skip) + if step.reply.Yield? then [step.reply.value] else []
  {
    AddNameTells(c, box, authors, a, r);
    hide NamesFit, AddName, Distinct, NameSet;
    assert (authors + [a])[..|authors|] == authors;
  }

  lemma TimeoutTracks(cfg: CoreConfig, s: CoreState, r: Round, authors: seq<Author>, a: Author)
    requires cfg.committee.Valid() && TimeoutsTrack(cfg, s, r, authors)
    ensures TimeoutsTrack(cfg, ProcessTimeout(cfg, s, a, r).state, r, authors + [a])
  {
    hide NamesFit, AddName, QuorumCerts, TimeoutCertsOf, NoVoteCertsOf;
    var box := if r in s.timeouts then s.timeouts[r] else EMPTY_NAMES;
    var step := AddName(cfg.committee, box, a, r);
    QuorumCertsMore(cfg.committee, box, r, authors, a, 0);
    NameRound(cfg.committee, box, a, r);
    if step.reply.Yield? {
      CertsMore(s.log, TimeoutQuorum(step.reply.value), r);
    }
  }

  lemma NoVoteTracks(cfg: CoreConfig, s: CoreState, r: Round, authors: seq<Author>, a: Author)
    requires cfg.committee.Valid() && NoVotesTrack(cfg, s, r, authors)
    ensures NoVotesTrack(cfg, ProcessNoVote(cfg, s, a, r).state, r, authors + [a])
  {
    hide NamesFit, AddName, QuorumCerts, TimeoutCertsOf, NoVoteCertsOf;
    var box := NoVoteBox(cfg, s, r);
    var step := AddName(cfg.committee, box, a, r);
    QuorumCertsMore(cfg.committee, box, r, authors, a, 1);
    NameRound(cfg.committee, box, a, r);
    if step.reply.Yield? {
      CertsMore(s.log, NoVoteQuorum(step.reply.value), r);
    }
  }

  lemma NameRound(c: Committee, box: NameBox, a: Author, r: Round)
    ensures var step := AddName(c, box, a, r); step.reply.Yield? ==> step.reply.value.round == r
  {}

  /** A timeout changes nothing about no-votes, nor about timeouts of other rounds. */
  lemma TimeoutLeaves(cfg: CoreConfig, s: CoreState, r: Round, a: Author, q: Round)
    requires cfg.committee.Valid()
    ensures var t := ProcessTimeout(cfg, s, a, q).state;
      && t.gcRound == s.gcRound
      && (forall authors :: NoVotesTrack(cfg, s, r, authors) ==> NoVotesTrack(cfg, t, r, authors))
      && (q != r ==> forall authors :: TimeoutsTrack(cfg, s, r, authors) ==> TimeoutsTrack(cfg, t, r, authors))
  {
    hide NamesFit, AddName, QuorumCerts, TimeoutCertsOf, NoVoteCertsOf;
    var t := ProcessTimeout(cfg, s, a, q).state;
    var box := if q in s.timeouts then s.timeouts[q] else EMPTY_NAMES;
    var step := AddName(cfg.committee, box, a, q);
    NameRound(cfg.committee, box, a, q);
    assert NoVoteBox(cfg, t, r) == NoVoteBox(cfg, s, r);
    if step.reply.Yield? {
      CertsMore(s.log, TimeoutQuorum(step.reply.value), r);
    }
  }

  lemma NoVoteLeaves(cfg: CoreConfig, s: CoreState, r: Round, a: Author, q: Round)
    requires cfg.committee.Valid()
    ensures var t := ProcessNoVote(cfg, s, a, q).state;
      && t.gcRound == s.gcRound
      && (forall authors :: TimeoutsTrack(cfg, s, r, authors) ==> TimeoutsTrack(cfg, t, r, authors))
      && (q != r ==> forall authors :: NoVotesTrack(cfg, s, r, authors) ==> NoVotesTrack(cfg, t, r, authors))
  {
    hide NamesFit, AddName, QuorumCerts, TimeoutCertsOf, NoVoteCertsOf;
    var t := ProcessNoVote(cfg, s, a, q).state;
    var box := NoVoteBox(cfg, s, q);
    var step := AddName(cfg.committee, box, a, q);
    NameRound(cfg.committee, box, a, q);
    assert q != r ==> NoVoteBox(cfg, t, r) == NoVoteBox(cfg, s, r);
    if step.reply.Yield? {
      CertsMore(s.log, NoVoteQuorum(step.reply.value), r);
    }
  }

  ghost predicate NamesTrack(cfg: CoreConfig, s: CoreState, r: Round, ticks: seq<Tick>) {
    && s.gcRound == GcRound(cfg, ticks)
    && TimeoutsTrack(cfg, s, r, TimeoutsOf(cfg, ticks, r)) && NoVotesTrack(cfg, s, r, NoVotesOf(cfg, ticks, r))
  }

  /** One input, up to the cleanup after it. */
  lemma HandleNames(cfg: CoreConfig, s: CoreState, r: Round, ticks: seq<Tick>, tick: Tick)
    requires cfg.committee.Valid() && NamesTrack(cfg, s, r, ticks)
    ensures var t, all := Handle(cfg, s, tick.input).state, ticks + [tick];
      && t.gcRound == s.gcRound
      && TimeoutsTrack(cfg, t, r, TimeoutsOf(cfg, all, r)) && NoVotesTrack(cfg, t, r, NoVotesOf(cfg, all, r))
  {
    hide TimeoutsTrack, NoVotesTrack, Acceptable, ProcessHeader, ProcessVote, ProcessCertificate, ProcessTimeout,
      ProcessNoVote;
    assert (ticks + [tick])[..|ticks|] == ticks;
    var timeouts, noVotes := TimeoutsOf(cfg, ticks, r), NoVotesOf(cfg, ticks, r);
    assert timeouts + [] == timeouts && noVotes + [] == noVotes;
    match tick.input
    case NetTimeout(a, q) =>
      TimeoutLeaves(cfg, s, r, a, q);
      if q == r { TimeoutTracks(cfg, s, r, timeouts, a); }
    case OwnTimeout(q) =>
      TimeoutLeaves(cfg, s, r, cfg.name, q);
      if q == r { TimeoutTracks(cfg, s, r, timeouts, cfg.name); }
    case NetNoVote(a, q) =>
      NoVoteLeaves(cfg, s, r, a, q);
      if q == r { NoVoteTracks(cfg, s, r, noVotes, a); }
    case _ =>
      HandleQuiet(cfg, s, tick.input);
      QuietTracks(cfg, s, Handle(cfg, s, tick.input).state, r);
  }

  lemma CleanupNames(cfg: CoreConfig, s: CoreState, consensusRound: Round, r: Round)
    ensures var t := Cleanup(cfg, s, consensusRound);
      && (forall authors :: TimeoutsTrack(cfg, s, r, authors) ==> TimeoutsTrack(cfg, t, r, authors))
      && (forall authors :: NoVotesTrack(cfg, s, r, authors) ==> NoVotesTrack(cfg, t, r, authors))
      && t.gcRound == if consensusRound > cfg.gcDepth then consensusRound - cfg.gcDepth else s.gcRound
  {
    hide NamesFit, QuorumCerts, TimeoutCertsOf, NoVoteCertsOf;
    assert NoVoteBox(cfg, Cleanup(cfg, s, consensusRound), r) == NoVoteBox(cfg, s, r);
  }

  lemma InitNames(cfg: CoreConfig, r: Round)
    requires cfg.committee.Valid()
    ensures NamesTrack(cfg, INIT_CORE, r, [])
  {
    var c := cfg.committee;
    EmptyWeight(c);
    assert NameSet([]) == {};
    AddNameTells(c, EMPTY_NAMES, [], cfg.name, r);
    assert [] + [cfg.name] == [cfg.name];
  }

  lemma {:induction false} RunNames(cfg: CoreConfig, ticks: seq<Tick>, r: Round)
    requires cfg.committee.Valid() && Run(cfg, ticks).outcome != Panicked
    ensures NamesTrack(cfg, Run(cfg, ticks).state, r, ticks)
    decreases |ticks|
  {
    hide TimeoutsTrack, NoVotesTrack, Handle, Cleanup, TimeoutsOf, NoVotesOf;
    if ticks == [] {
      InitNames(cfg, r);
    } else {
      var before, tick := ticks[..|ticks| - 1], ticks[|ticks| - 1];
      RunNames(cfg, before, r);
      var s := Run(cfg, before).state;
      assert ticks == before + [tick];
      HandleNames(cfg, s, r, before, tick);
      CleanupNames(cfg, Handle(cfg, s, tick.input).state, tick.consensusRound, r);
    }
  }

  /** The proposer gets a timeout certificate for every new author of a timeout from a quorum on, with all authors
      so far, and no other. */
  lemma TimeoutsTold(cfg: CoreConfig, ticks: seq<Tick>, r: Round)
    requires cfg.committee.Valid() && Run(cfg, ticks).outcome != Panicked
    ensures TimeoutCertsOf(Run(cfg, ticks).state.log, r) ==
      QuorumCerts(cfg.committee, r, TimeoutsOf(cfg, ticks, r), 0)
  {
    RunNames(cfg, ticks, r);
  }

  /** Likewise no-vote certificates; our own no-vote counts from the start. */
  lemma NoVotesTold(cfg: CoreConfig, ticks: seq<Tick>, r: Round)
    requires cfg.committee.Valid() && Run(cfg, ticks).outcome != Panicked
    ensures NoVoteCertsOf(Run(cfg, ticks).state.log, r) == QuorumCerts(cfg.committee, r, NoVotesOf(cfg, ticks, r), 1)
  {
    RunNames(cfg, ticks, r);
  }
}
