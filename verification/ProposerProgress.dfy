/** When the proposer sends what: every pass told from the messages received and the headers made so far, without
    the proposer's own variables. */
module ProposerProgress {
  import opened Config
  import opened Messages
  import opened Aggregators
  import opened Proposing
  import opened ProposerRuns

  // ---------- what the passes say ----------

  function HeadersOf(log: seq<Sent>): seq<Proposal> {
    if log == [] then []
    else
      var last := log[|log| - 1];
      HeadersOf(log[..|log| - 1]) + if last.Proposed? then [last.header] else []
  }

  function Made(cfg: ProposerConfig, passes: seq<Pass>): seq<Proposal>
    requires cfg.committee.Valid()
  {
    HeadersOf(RunProposer(cfg, passes).log)
  }

  /** The highest round parents were received for. */
  function HeardRound(passes: seq<Pass>): Round {
    if passes == [] then 0
    else
      var r := HeardRound(passes[..|passes| - 1]);
      var m := passes[|passes| - 1].message;
      if m.Parents? && m.round > r then m.round else r
  }

  /** The round of the last header made, or a later one parents were received for. */
  function RoundNow(cfg: ProposerConfig, passes: seq<Pass>): Round
    requires cfg.committee.Valid()
  {
    var made := Made(cfg, passes);
    var r := if made == [] then 0 else made[|made| - 1].round;
    if HeardRound(passes) > r then HeardRound(passes) else r
  }

  /** All parents received for a round. */
  function HeardFor(passes: seq<Pass>, r: Round): seq<Certificate> {
    if passes == [] then []
    else
      var m := passes[|passes| - 1].message;
      HeardFor(passes[..|passes| - 1], r) + if m.Parents? && m.round == r then m.certificates else []
  }

  function ParentsNow(cfg: ProposerConfig, passes: seq<Pass>): seq<Certificate>
    requires cfg.committee.Valid()
  {
    var r := RoundNow(cfg, passes);
    (if r == 0 then GenesisParents(cfg.committee) else []) + HeardFor(passes, r)
  }

  /** The last pass made a header. */
  predicate JustProposed(cfg: ProposerConfig, passes: seq<Pass>)
    requires cfg.committee.Valid() && passes != []
  {
    |Made(cfg, passes)| > |Made(cfg, passes[..|passes| - 1])|
  }

  /** The payload received since the last header. */
  function PayloadNow(cfg: ProposerConfig, passes: seq<Pass>): nat
    requires cfg.committee.Valid()
  {
    if passes == [] then 0
    else
      var m := passes[|passes| - 1].message;
      (if JustProposed(cfg, passes) then 0 else PayloadNow(cfg, passes[..|passes| - 1])) +
      if m.Payload? then m.size else 0
  }

  /** Whether the round's leader was among the parents when parents were last received; `first` if none were. */
  predicate LeaderFound(cfg: ProposerConfig, passes: seq<Pass>, first: bool)
    requires cfg.committee.Valid()
  {
    if passes == [] then first
    else if passes[|passes| - 1].message.Parents? then
      cfg.committee.Leader(RoundNow(cfg, passes)) in Origins(ParentsNow(cfg, passes))
    else LeaderFound(cfg, passes[..|passes| - 1], first)
  }

  /** The last received timeout certificate of the highest round received. */
  function LatestTimeout(passes: seq<Pass>): QuorumCert {
    if passes == [] then Blank(0)
    else
      var cert := LatestTimeout(passes[..|passes| - 1]);
      var m := passes[|passes| - 1].message;
      if m.TimeoutCertificate? && m.cert.round >= cert.round then m.cert else cert
  }

  function LatestNoVote(passes: seq<Pass>): QuorumCert {
    if passes == [] then Blank(0)
    else
      var cert := LatestNoVote(passes[..|passes| - 1]);
      var m := passes[|passes| - 1].message;
      if m.NoVoteCertificate? && m.cert.round >= cert.round then m.cert else cert
  }

  /** A timeout was sent after the last header. */
  predicate TimedOut(log: seq<Sent>) {
    log != [] &&
    match log[|log| - 1]
    case SentTimeout(_) => true
    case Proposed(_) => false
    case SentNoVote(_) => TimedOut(log[..|log| - 1])
  }

  // ---------- the variables are what the passes say ----------

  ghost predicate Tracks(cfg: ProposerConfig, s: ProposerState, passes: seq<Pass>)
    requires cfg.committee.Valid()
  {
    && s.round == RoundNow(cfg, passes) && HeardRound(passes) <= s.round
    && s.lastParents == ParentsNow(cfg, passes)
    && s.payloadSize == PayloadNow(cfg, passes)
    && s.advance == LeaderFound(cfg, passes, true) && s.lastLeader.Some? == LeaderFound(cfg, passes, false)
    && s.timeoutCert == LatestTimeout(passes) && s.noVoteCert == LatestNoVote(passes)
    && s.timeoutSent == TimedOut(s.log)
  }

  /** A header may be made. */
  predicate MayPropose(cfg: ProposerConfig, passes: seq<Pass>, expired: bool)
    requires cfg.committee.Valid()
  {
    var r := RoundNow(cfg, passes);
    && ParentsNow(cfg, passes) != []
    && (|| (expired && LatestTimeout(passes).round == r
            && (cfg.committee.Leader(r + 1) == cfg.name ==> LatestNoVote(passes).round == r))
        || (PayloadNow(cfg, passes) >= cfg.headerSize && LeaderFound(cfg, passes, true)))
  }

  /** The header made from what was received. */
  function HeaderNow(cfg: ProposerConfig, passes: seq<Pass>, id: nat): Proposal
    requires cfg.committee.Valid()
  {
    var r := RoundNow(cfg, passes);
    Proposal(id, cfg.name, r + 1, Collect(ParentsNow(cfg, passes)),
      if LatestTimeout(passes).round == r then LatestTimeout(passes) else Blank(0),
      if cfg.committee.Leader(r + 1) == cfg.name && LatestNoVote(passes).round == r
      then LatestNoVote(passes) else Blank(0))
  }

  /** What a pass sends. */
  function Sends(cfg: ProposerConfig, passes: seq<Pass>, log: seq<Sent>, expired: bool, id: nat): seq<Sent>
    requires cfg.committee.Valid()
  {
    var r := RoundNow(cfg, passes);
    var timeout := if expired && !TimedOut(log) then [SentTimeout(r)] else [];
    if !MayPropose(cfg, passes, expired) then timeout
    else
      var givesUp := expired && !LeaderFound(cfg, passes, false) && cfg.committee.Leader(r + 1) != cfg.name;
      timeout + (if givesUp then [SentNoVote(r)] else []) + [Proposed(HeaderNow(cfg, passes, id))]
  }

  lemma HeadersMore(log: seq<Sent>, o: Sent)
    ensures HeadersOf(log + [o]) == HeadersOf(log) + if o.Proposed? then [o.header] else []
    ensures TimedOut(log + [o]) == if o.SentTimeout? then true else if o.Proposed? then false else TimedOut(log)
  {
    assert (log + [o])[..|log|] == log;
  }

  /** What a pass adds to the log. */
  lemma DecideSends(cfg: ProposerConfig, s: ProposerState, passes: seq<Pass>, expired: bool, id: nat)
    requires cfg.committee.Valid() && Tracks(cfg, s, passes)
    ensures Decide(cfg, s, expired, id).log == s.log + Sends(cfg, passes, s.log, expired, id)
    ensures CanPropose(cfg, s, expired) == MayPropose(cfg, passes, expired)
  {
    var t := SendTimeout(s, expired);
    hide RoundNow, ParentsNow, PayloadNow, LeaderFound, LatestTimeout, LatestNoVote, TimedOut, Collect;
    if CanPropose(cfg, s, expired) {
      var n := SendNoVote(cfg, t, expired);
      assert Propose(cfg, n, id).log == n.log + [Proposed(HeaderNow(cfg, passes, id))];
    }
  }

  /** Headers and the timeout flag after a pass. */
  lemma SendsHeaders(cfg: ProposerConfig, passes: seq<Pass>, log: seq<Sent>, expired: bool, id: nat)
    requires cfg.committee.Valid()
    ensures var all := log + Sends(cfg, passes, log, expired, id);
      && HeadersOf(all) ==
        HeadersOf(log) + (if MayPropose(cfg, passes, expired) then [HeaderNow(cfg, passes, id)] else [])
      && TimedOut(all) == if MayPropose(cfg, passes, expired) then false else expired || TimedOut(log)
  {
    hide RoundNow, ParentsNow, PayloadNow, LeaderFound, LatestTimeout, LatestNoVote, MayPropose, HeaderNow;
    var r := RoundNow(cfg, passes);
    var t := if expired && !TimedOut(log) then log + [SentTimeout(r)] else log;
    HeadersMore(log, SentTimeout(r));
    HeadersMore(t, SentNoVote(r));
    var h := Proposed(HeaderNow(cfg, passes, id));
    HeadersMore(t, h);
    HeadersMore(t + [SentNoVote(r)], h);
    var sent := Sends(cfg, passes, log, expired, id);
    hide HeadersOf, TimedOut;
    assert HeadersOf(log) + [] == HeadersOf(log);
    if !MayPropose(cfg, passes, expired) {
      assert log + sent == t;
    } else if expired && !LeaderFound(cfg, passes, false) && cfg.committee.Leader(r + 1) != cfg.name {
      assert log + sent == t + [SentNoVote(r)] + [h];
    } else {
      assert log + sent == t + [h];
    }
  }

  lemma {:induction false} NotHeardAbove(passes: seq<Pass>, r: Round)
    requires r > HeardRound(passes)
    ensures HeardFor(passes, r) == []
  {
    if passes != [] {
      NotHeardAbove(passes[..|passes| - 1], r);
    }
  }

  /** The state between sending and receiving, in terms of the passes before. */
  ghost predicate Decided(cfg: ProposerConfig, d: ProposerState, before: seq<Pass>, expired: bool, id: nat)
    requires cfg.committee.Valid()
  {
    var may := MayPropose(cfg, before, expired);
    && d.round == (if may then RoundNow(cfg, before) + 1 else RoundNow(cfg, before))
    && HeardRound(before) <= RoundNow(cfg, before)
    && d.lastParents == (if may then [] else ParentsNow(cfg, before))
    && d.payloadSize == (if may then 0 else PayloadNow(cfg, before))
    && d.advance == LeaderFound(cfg, before, true) && d.lastLeader.Some? == LeaderFound(cfg, before, false)
    && d.timeoutCert == LatestTimeout(before) && d.noVoteCert == LatestNoVote(before)
    && d.timeoutSent == TimedOut(d.log)
    && HeadersOf(d.log) == Made(cfg, before) + if may then [HeaderNow(cfg, before, id)] else []
  }

  /** What sending changes, field by field. */
  lemma DecideParts(cfg: ProposerConfig, s: ProposerState, expired: bool, id: nat)
    requires cfg.committee.Valid()
    ensures var d := Decide(cfg, s, expired, id);
      var may := CanPropose(cfg, s, expired);
      && d.round == (if may then s.round + 1 else s.round)
      && d.lastParents == (if may then [] else s.lastParents)
      && d.payloadSize == (if may then 0 else s.payloadSize)
      && d.timeoutSent == (if may then false else expired || s.timeoutSent)
      && d.advance == s.advance && d.lastLeader == s.lastLeader
      && d.timeoutCert == s.timeoutCert && d.noVoteCert == s.noVoteCert
  {
    hide CanPropose, MakeHeader;
  }

  lemma DecideDecided(cfg: ProposerConfig, before: seq<Pass>, expired: bool, id: nat)
    requires cfg.committee.Valid() && Tracks(cfg, RunProposer(cfg, before), before)
    ensures Decided(cfg, Decide(cfg, RunProposer(cfg, before), expired, id), before, expired, id)
  {
    hide RoundNow, ParentsNow, PayloadNow, LeaderFound, LatestTimeout, LatestNoVote, TimedOut, HeadersOf, MayPropose;
    hide CanPropose, Sends, Made, HeaderNow, HeardRound, RunProposer, Decide;
    var s := RunProposer(cfg, before);
    DecideSends(cfg, s, before, expired, id);
    SendsHeaders(cfg, before, s.log, expired, id);
    DecideParts(cfg, s, expired, id);
    MadeIs(cfg, before);
  }

  lemma MadeIs(cfg: ProposerConfig, passes: seq<Pass>)
    requires cfg.committee.Valid()
    ensures Made(cfg, passes) == HeadersOf(RunProposer(cfg, passes).log)
  {}

  lemma RunStep(cfg: ProposerConfig, before: seq<Pass>, pass: Pass)
    requires cfg.committee.Valid()
    ensures RunProposer(cfg, before + [pass]) ==
      Receive(cfg, Decide(cfg, RunProposer(cfg, before), pass.expired, pass.id), pass.message)
    ensures RunProposer(cfg, before + [pass]).log == Decide(cfg, RunProposer(cfg, before), pass.expired, pass.id).log
  {
    assert (before + [pass])[..|before|] == before;
    hide Decide, FindOrigin;
  }

  /** The round and the headers after the pass. */
  lemma RoundAfter(cfg: ProposerConfig, before: seq<Pass>, pass: Pass, d: ProposerState)
    requires cfg.committee.Valid() && Decided(cfg, d, before, pass.expired, pass.id)
    requires d == Decide(cfg, RunProposer(cfg, before), pass.expired, pass.id)
    ensures var all := before + [pass];
      && Made(cfg, all) == HeadersOf(d.log)
      && (JustProposed(cfg, all) <==> MayPropose(cfg, before, pass.expired))
      && HeardRound(all) <= RoundNow(cfg, all)
      && RoundNow(cfg, all) ==
        if pass.message.Parents? && pass.message.round > d.round then pass.message.round else d.round
  {
    var all := before + [pass];
    assert all[..|before|] == before && all[|before|] == pass;
    RunStep(cfg, before, pass);
    MadeIs(cfg, all);
    hide HeadersOf, MayPropose, ParentsNow, PayloadNow, LeaderFound, RunProposer, Decide, TimedOut;
    var made := Made(cfg, before);
    if MayPropose(cfg, before, pass.expired) {
      var h := HeaderNow(cfg, before, pass.id);
      assert Made(cfg, all) == made + [h] && h.round == RoundNow(cfg, before) + 1;
    } else {
      assert Made(cfg, all) == made;
    }
  }

  /** What receiving changes, field by field. */
  lemma ReceiveParts(cfg: ProposerConfig, d: ProposerState, m: Message)
    requires cfg.committee.Valid()
    ensures var t := Receive(cfg, d, m);
      var jumps := m.Parents? && m.round > d.round;
      && t.round == (if jumps then m.round else d.round)
      && t.lastParents == (if jumps then m.certificates
                           else if m.Parents? && m.round == d.round then d.lastParents + m.certificates
                           else d.lastParents)
      && t.payloadSize == d.payloadSize + (if m.Payload? then m.size else 0)
      && t.timeoutCert ==
        (if m.TimeoutCertificate? && m.cert.round >= d.timeoutCert.round then m.cert else d.timeoutCert)
      && t.noVoteCert == (if m.NoVoteCertificate? && m.cert.round >= d.noVoteCert.round then m.cert else d.noVoteCert)
      && t.timeoutSent == d.timeoutSent && t.log == d.log
      && t.advance == (if m.Parents? then cfg.committee.Leader(t.round) in Origins(t.lastParents) else d.advance)
      && t.lastLeader.Some? ==
           (if m.Parents? then cfg.committee.Leader(t.round) in Origins(t.lastParents) else d.lastLeader.Some?)
  {
    var t := Receive(cfg, d, m);
    FindOriginExact(t.lastParents, cfg.committee.Leader(t.round));
    hide FindOrigin, Origins;
  }

  /** The functions of the passes, one pass on. */
  lemma OnePassOn(cfg: ProposerConfig, before: seq<Pass>, pass: Pass)
    requires cfg.committee.Valid()
    ensures var all, m := before + [pass], pass.message;
      && PayloadNow(cfg, all) ==
           (if JustProposed(cfg, all) then 0 else PayloadNow(cfg, before)) + (if m.Payload? then m.size else 0)
      && (forall first :: LeaderFound(cfg, all, first) ==
            if m.Parents? then cfg.committee.Leader(RoundNow(cfg, all)) in Origins(ParentsNow(cfg, all))
            else LeaderFound(cfg, before, first))
      && LatestTimeout(all) == (if m.TimeoutCertificate? && m.cert.round >= LatestTimeout(before).round then m.cert
                                else LatestTimeout(before))
      && LatestNoVote(all) == (if m.NoVoteCertificate? && m.cert.round >= LatestNoVote(before).round then m.cert
                               else LatestNoVote(before))
      && (forall r: Round :: HeardFor(all, r) ==
            HeardFor(before, r) + if m.Parents? && m.round == r then m.certificates else [])
  {
    var all := before + [pass];
    assert all[..|before|] == before && all[|before|] == pass;
    hide RoundNow, ParentsNow, JustProposed, Origins;
  }

  lemma ParentsAfter(cfg: ProposerConfig, before: seq<Pass>, pass: Pass, d: ProposerState)
    requires cfg.committee.Valid() && Decided(cfg, d, before, pass.expired, pass.id)
    requires d == Decide(cfg, RunProposer(cfg, before), pass.expired, pass.id)
    ensures var t := Receive(cfg, d, pass.message);
      t.round == RoundNow(cfg, before + [pass]) && t.lastParents == ParentsNow(cfg, before + [pass])
  {
    hide Receive, Decide, RoundNow, MayPropose, PayloadNow, LeaderFound, HeadersOf, TimedOut, Made, JustProposed,
      HeardRound;
    hide HeardFor, RunProposer, ParentsNow, LatestTimeout, LatestNoVote;
    var all, m := before + [pass], pass.message;
    RoundAfter(cfg, before, pass, d);
    ReceiveParts(cfg, d, m);
    OnePassOn(cfg, before, pass);
    var r := RoundNow(cfg, all);
    if r > RoundNow(cfg, before) {
      NotHeardAbove(before, r);
      ParentsAbove(cfg, all);
      assert m.Parents? ==> [] + m.certificates == m.certificates;
    } else {
      ParentsMore(cfg, before, all, m);
    }
  }

  lemma ParentsAbove(cfg: ProposerConfig, passes: seq<Pass>)
    requires cfg.committee.Valid() && RoundNow(cfg, passes) > 0
    ensures ParentsNow(cfg, passes) == HeardFor(passes, RoundNow(cfg, passes))
  {
    hide RoundNow, HeardFor;
    var r := RoundNow(cfg, passes);
    assert [] + HeardFor(passes, r) == HeardFor(passes, r);
  }

  lemma ParentsMore(cfg: ProposerConfig, before: seq<Pass>, all: seq<Pass>, m: Message)
    requires cfg.committee.Valid() && RoundNow(cfg, before) == RoundNow(cfg, all)
    requires var r := RoundNow(cfg, all);
      HeardFor(all, r) == HeardFor(before, r) + if m.Parents? && m.round == r then m.certificates else []
    ensures ParentsNow(cfg, all) ==
      ParentsNow(cfg, before) + if m.Parents? && m.round == RoundNow(cfg, all) then m.certificates else []
  {
    hide RoundNow, HeardFor;
    var r := RoundNow(cfg, all);
    assert HeardFor(before, r) + [] == HeardFor(before, r);
  }

  lemma ReceiveTracks(cfg: ProposerConfig, before: seq<Pass>, pass: Pass, d: ProposerState)
    requires cfg.committee.Valid() && Decided(cfg, d, before, pass.expired, pass.id)
    requires d == Decide(cfg, RunProposer(cfg, before), pass.expired, pass.id)
    ensures Tracks(cfg, Receive(cfg, d, pass.message), before + [pass])
  {
    hide Receive, Decide, RoundNow, ParentsNow, MayPropose, PayloadNow, LeaderFound, HeadersOf, TimedOut, Made,
      JustProposed;
    hide HeardRound, HeardFor, RunProposer, LatestTimeout, LatestNoVote, Origins;
    RoundAfter(cfg, before, pass, d);
    ParentsAfter(cfg, before, pass, d);
    ReceiveParts(cfg, d, pass.message);
    OnePassOn(cfg, before, pass);
  }

  lemma InitTracks(cfg: ProposerConfig)
    requires cfg.committee.Valid()
    ensures Tracks(cfg, InitProposer(cfg), [])
  {
    assert GenesisParents(cfg.committee) + [] == GenesisParents(cfg.committee);
  }

  lemma {:induction false} RunTracks(cfg: ProposerConfig, passes: seq<Pass>)
    requires cfg.committee.Valid()
    ensures Tracks(cfg, RunProposer(cfg, passes), passes)
    decreases |passes|
  {
    hide Tracks, Decided, Decide, Receive;
    if passes == [] {
      InitTracks(cfg);
    } else {
      var before, pass := passes[..|passes| - 1], passes[|passes| - 1];
      assert passes == before + [pass];
      RunTracks(cfg, before);
      DecideDecided(cfg, before, pass.expired, pass.id);
      ReceiveTracks(cfg, before, pass, Decide(cfg, RunProposer(cfg, before), pass.expired, pass.id));
    }
  }

  // ---------- the main results ----------

  /** On every run, what the next pass sends is determined by what was received and made before. */
  lemma PassSends(cfg: ProposerConfig, passes: seq<Pass>, pass: Pass)
    requires cfg.committee.Valid()
    ensures var log := RunProposer(cfg, passes).log;
      RunProposer(cfg, passes + [pass]).log == log + Sends(cfg, passes, log, pass.expired, pass.id)
  {
    hide Tracks, Sends, Decide;
    RunTracks(cfg, passes);
    RunStep(cfg, passes, pass);
    DecideSends(cfg, RunProposer(cfg, passes), passes, pass.expired, pass.id);
  }

  /** A pass makes a header if and only if parents are held and either the timer has expired with the round's
      timeouts certified, and for the next leader its no-votes, or there is payload enough and the leader was
      among the parents last received. The header is then the one those messages determine. */
  lemma ProposesExactly(cfg: ProposerConfig, passes: seq<Pass>, pass: Pass)
    requires cfg.committee.Valid()
    ensures JustProposed(cfg, passes + [pass]) <==> MayPropose(cfg, passes, pass.expired)
    ensures JustProposed(cfg, passes + [pass]) ==>
      Made(cfg, passes + [pass]) == Made(cfg, passes) + [HeaderNow(cfg, passes, pass.id)]
  {
    var all := passes + [pass];
    var log := RunProposer(cfg, passes).log;
    assert all[..|passes|] == passes;
    PassSends(cfg, passes, pass);
    SendsHeaders(cfg, passes, log, pass.expired, pass.id);
    MadeIs(cfg, passes);
    MadeIs(cfg, all);
  }
}
