/** What becomes of everything the core takes in: nothing that it should act on is left lying. */
module CoreProgress {
  import opened Config
  import opened Dag
  import opened Messages
  import opened Aggregators
  import opened Processing
  import opened CoreRuns

  // ---------- certificates are delivered or held back for a reason ----------

  /** The certificate was sent to consensus, or handed to the certificate waiter. */
  predicate Answers(o: Output, cert: Certificate) {
    o == Delivered(cert) || o == AwaitAncestors(cert)
  }

  ghost predicate AnsweredFrom(log: seq<Output>, i: nat, cert: Certificate) {
    exists j :: i <= j < |log| && Answers(log[j], cert)
  }

  /** Every certificate assembled between the logs is answered after it was. */
  ghost predicate AllAnswered(before: seq<Output>, after: seq<Output>) {
    before <= after &&
    forall i :: |before| <= i < |after| && after[i].Assembled? ==> AnsweredFrom(after, i + 1, after[i].certificate)
  }

  /** A certificate is held back only if a parent of it has not been delivered. */
  ghost predicate HeldJustly(c: Committee, log: seq<Output>) {
    forall i :: 0 <= i < |log| && log[i].AwaitAncestors? ==> !ParentsIn(c, log[..i], log[i].certificate)
  }

  // ---------- what the proposer is told ----------

  /** The certificates of a round sent to consensus, in order. */
  function DeliveredOf(log: seq<Output>, r: Round): seq<Certificate> {
    if log == [] then []
    else
      var o := log[|log| - 1];
      DeliveredOf(log[..|log| - 1], r) + if o.Delivered? && o.certificate.header.round == r then [o.certificate] else []
  }

  /** The certificates of a round handed to the proposer, in order. */
  function ToldOf(log: seq<Output>, r: Round): seq<Certificate> {
    if log == [] then []
    else
      var o := log[|log| - 1];
      ToldOf(log[..|log| - 1], r) + if o.NewParents? && o.round == r then o.certificates else []
  }

  /** Nothing below a quorum of origins; then the first delivered certificate of every origin. */
  ghost function Due(c: Committee, certs: seq<Certificate>): seq<Certificate> {
    if c.Weight(Origins(certs)) < c.QuorumThreshold() then [] else Firsts(certs)
  }

  function BoxOf(s: CoreState, r: Round): CertificateBox {
    if r in s.quorums then s.quorums[r] else EMPTY_CERTIFICATES
  }

  ghost predicate ToldDue(c: Committee, s: CoreState, r: Round) {
    && CertificateBoxFits(c, BoxOf(s, r), DeliveredOf(s.log, r))
    && ToldOf(s.log, r) == Due(c, DeliveredOf(s.log, r))
  }

  ghost predicate Live(c: Committee, f: Round, s: CoreState) {
    HeldJustly(c, s.log) && forall r: Round :: r >= f ==> ToldDue(c, s, r)
  }

  // ---------- single outputs ----------

  lemma OneMore(log: seq<Output>, o: Output, r: Round)
    ensures DeliveredOf(log + [o], r) ==
      DeliveredOf(log, r) + if o.Delivered? && o.certificate.header.round == r then [o.certificate] else []
    ensures ToldOf(log + [o], r) == ToldOf(log, r) + if o.NewParents? && o.round == r then o.certificates else []
  {
    assert (log + [o])[..|log|] == log;
  }

  lemma HeldMore(c: Committee, log: seq<Output>, o: Output)
    requires HeldJustly(c, log) && (o.AwaitAncestors? ==> !ParentsIn(c, log, o.certificate))
    ensures HeldJustly(c, log + [o])
  {
    var all := log + [o];
    forall i | 0 <= i < |all| && all[i].AwaitAncestors? ensures !ParentsIn(c, all[..i], all[i].certificate) {
      assert all[..i] == if i == |log| then log else log[..i];
    }
  }

  predicate Neutral(o: Output) {
    !o.AwaitAncestors? && !o.Delivered? && !o.NewParents?
  }

  lemma NeutralLives(c: Committee, f: Round, s: CoreState, t: CoreState, o: Output)
    requires Live(c, f, s) && Neutral(o)
    requires t.log == s.log + [o] && t.quorums == s.quorums
    ensures Live(c, f, t)
  {
    HeldMore(c, s.log, o);
    forall r: Round | r >= f ensures ToldDue(c, t, r) {
      assert ToldDue(c, s, r);
      OneMore(s.log, o, r);
      assert DeliveredOf(s.log, r) + [] == DeliveredOf(s.log, r) && ToldOf(s.log, r) + [] == ToldOf(s.log, r);
    }
  }

  lemma MissingParent(cfg: CoreConfig, s: CoreState, cert: Certificate)
    requires Stored(s)
    ensures MissesParent(cfg.committee, s.store, cert.header.parents) <==> !ParentsIn(cfg.committee, s.log, cert)
  {
    var c, parents := cfg.committee, cert.header.parents;
    if MissesParent(c, s.store, parents) {
      var i :| 0 <= i < |parents| && Resolve(c, s.store, parents[i]) == None;
      assert parents[i] in parents && !WasDelivered(s.log, parents[i]);
    } else {
      StoredResolves(cfg, s, cert);
    }
  }

  /** What the proposer is told as a certificate is delivered. */
  function Telling(step: CertificateStep, cert: Certificate): seq<Output> {
    if step.reply.Yield? then [NewParents(step.reply.value, cert.header.round)] else []
  }

  /** One delivered certificate, and what the proposer is told about it. */
  lemma DeliveryTold(c: Committee, s: CoreState, t: CoreState, cert: Certificate, step: CertificateStep)
    requires c.Valid() && ToldDue(c, s, cert.header.round)
    requires step == AddCertificate(c, BoxOf(s, cert.header.round), cert)
    requires t.quorums == s.quorums[cert.header.round := step.box]
    requires t.log == s.log + Telling(step, cert) + [Delivered(cert)]
    ensures ToldDue(c, t, cert.header.round)
  {
    hide CertificateBoxFits, AddCertificate, Due;
    var r := cert.header.round;
    DueMore(c, BoxOf(s, r), DeliveredOf(s.log, r), cert);
    LogsTold(s.log, t.log, cert, step, r);
  }

  /** The aggregator yields what becomes due with the certificate. */
  lemma DueMore(c: Committee, box: CertificateBox, certs: seq<Certificate>, cert: Certificate)
    requires c.Valid() && CertificateBoxFits(c, box, certs)
    ensures var step := AddCertificate(c, box, cert);
      && CertificateBoxFits(c, step.box, certs + [cert])
      && Due(c, certs + [cert]) == Due(c, certs) + if step.reply.Yield? then step.reply.value else []
  {
    hide CertificateBoxFits, AddCertificate, Origins, Firsts;
    AddCertificateFits(c, box, certs, cert);
    OriginsAdd(certs, cert);
    FirstsMore(certs, cert);
    if cert.header.author in Origins(certs) {
      assert Origins(certs) + {cert.header.author} == Origins(certs);
    } else {
      WeightAdd(c, Origins(certs), cert.header.author);
    }
  }

  lemma FirstsMore(certs: seq<Certificate>, cert: Certificate)
    ensures Firsts(certs + [cert]) == Firsts(certs) + if cert.header.author in Origins(certs) then [] else [cert]
  {
    assert (certs + [cert])[..|certs|] == certs;
  }

  lemma LogsTold(before: seq<Output>, after: seq<Output>, cert: Certificate, step: CertificateStep, r: Round)
    requires after == before + Telling(step, cert) + [Delivered(cert)]
    ensures DeliveredOf(after, r) == DeliveredOf(before, r) + if cert.header.round == r then [cert] else []
    ensures ToldOf(after, r) ==
      ToldOf(before, r) + if step.reply.Yield? && cert.header.round == r then step.reply.value else []
  {
    var told := before + Telling(step, cert);
    assert !step.reply.Yield? ==> told == before;
    if step.reply.Yield? {
      OneMore(before, NewParents(step.reply.value, cert.header.round), r);
      assert DeliveredOf(before, r) + [] == DeliveredOf(before, r);
    }
    OneMore(told, Delivered(cert), r);
    assert ToldOf(told, r) + [] == ToldOf(told, r) && ToldOf(before, r) + [] == ToldOf(before, r);
  }

  lemma DeliveryLives(c: Committee, f: Round, s: CoreState, t: CoreState, cert: Certificate, step: CertificateStep)
    requires c.Valid() && Live(c, f, s)
    requires step == AddCertificate(c, BoxOf(s, cert.header.round), cert)
    requires t.quorums == s.quorums[cert.header.round := step.box]
    requires t.log == s.log + Telling(step, cert) + [Delivered(cert)]
    ensures Live(c, f, t)
  {
    hide AddCertificate, CertificateBoxFits, Due, ParentsIn;
    var told := s.log + Telling(step, cert);
    assert !step.reply.Yield? ==> told == s.log;
    if step.reply.Yield? {
      HeldMore(c, s.log, NewParents(step.reply.value, cert.header.round));
    }
    HeldMore(c, told, Delivered(cert));
    forall r: Round | r >= f ensures ToldDue(c, t, r) {
      assert ToldDue(c, s, r);
      if r == cert.header.round {
        DeliveryTold(c, s, t, cert, step);
      } else {
        LogsTold(s.log, t.log, cert, step, r);
        assert DeliveredOf(s.log, r) + [] == DeliveredOf(s.log, r) && ToldOf(s.log, r) + [] == ToldOf(s.log, r);
      }
    }
  }

  lemma DeliverLives(cfg: CoreConfig, f: Round, s: CoreState, cert: Certificate)
    requires cfg.committee.Valid() && Stored(s) && Live(cfg.committee, f, s)
    ensures var t := Deliver(cfg, s, cert);
      && t.outcome == Done && Live(cfg.committee, f, t.state) && AllAnswered(s.log, t.state.log)
      && AnsweredFrom(t.state.log, |s.log|, cert)
  {
    hide MissesParent, AddCertificate, Live, ParentsIn, Stored, Deliver;
    MissingParent(cfg, s, cert);
    var t := Deliver(cfg, s, cert).state;
    var step := AddCertificate(cfg.committee, BoxOf(s, cert.header.round), cert);
    DeliverCases(cfg, s, cert, step);
    if MissesParent(cfg.committee, s.store, cert.header.parents) {
      AwaitLives(cfg.committee, f, s, t, cert);
      assert t.log[|s.log|] == AwaitAncestors(cert);
    } else {
      DeliveryLives(cfg.committee, f, s, t, cert, step);
      assert t.log[|t.log| - 1] == Delivered(cert);
    }
  }

  lemma DeliverCases(cfg: CoreConfig, s: CoreState, cert: Certificate, step: CertificateStep)
    requires step == AddCertificate(cfg.committee, BoxOf(s, cert.header.round), cert)
    ensures var t := Deliver(cfg, s, cert);
      && t.outcome == Done
      && if MissesParent(cfg.committee, s.store, cert.header.parents)
         then t.state.log == s.log + [AwaitAncestors(cert)] && t.state.quorums == s.quorums
         else t.state.log == s.log + Telling(step, cert) + [Delivered(cert)]
              && t.state.quorums == s.quorums[cert.header.round := step.box]
  {
    hide MissesParent, AddCertificate;
  }

  lemma AwaitLives(c: Committee, f: Round, s: CoreState, t: CoreState, cert: Certificate)
    requires Live(c, f, s) && !ParentsIn(c, s.log, cert)
    requires t.log == s.log + [AwaitAncestors(cert)] && t.quorums == s.quorums
    ensures Live(c, f, t)
  {
    HeldMore(c, s.log, AwaitAncestors(cert));
    forall r: Round | r >= f ensures ToldDue(c, t, r) {
      assert ToldDue(c, s, r);
      OneMore(s.log, AwaitAncestors(cert), r);
      assert DeliveredOf(s.log, r) + [] == DeliveredOf(s.log, r) && ToldOf(s.log, r) + [] == ToldOf(s.log, r);
    }
  }

  // ---------- answers over several steps ----------

  lemma AnsweredOn(before: seq<Output>, after: seq<Output>, i: nat, cert: Certificate)
    requires before <= after && AnsweredFrom(before, i, cert)
    ensures AnsweredFrom(after, i, cert)
  {
    var j :| i <= j < |before| && Answers(before[j], cert);
    assert after[j] == before[j];
  }

  lemma AnsweredTwice(a: seq<Output>, b: seq<Output>, c: seq<Output>)
    requires AllAnswered(a, b) && AllAnswered(b, c)
    ensures AllAnswered(a, c)
  {
    forall i | |a| <= i < |c| && c[i].Assembled? ensures AnsweredFrom(c, i + 1, c[i].certificate) {
      if i < |b| {
        assert b[i] == c[i];
        AnsweredOn(b, c, i + 1, c[i].certificate);
      }
    }
  }

  lemma OneAnswered(log: seq<Output>, o: Output)
    requires !o.Assembled?
    ensures AllAnswered(log, log + [o])
  {}

  /** Live, and everything assembled on the way answered unless the node panicked. */
  ghost predicate Acts(cfg: CoreConfig, f: Round, s: CoreState, t: Turn)
    requires cfg.committee.Valid()
  {
    Live(cfg.committee, f, t.state) && s.log <= t.state.log &&
      (t.outcome != Panicked ==> AllAnswered(s.log, t.state.log))
  }

  lemma NeutralActs(cfg: CoreConfig, f: Round, s: CoreState, t: CoreState, o: Output, outcome: Outcome)
    requires cfg.committee.Valid() && Live(cfg.committee, f, s) && Neutral(o) && !o.Assembled?
    requires t.log == s.log + [o] && t.quorums == s.quorums
    ensures Acts(cfg, f, s, Turn(t, outcome))
  {
    NeutralLives(cfg.committee, f, s, t, o);
    OneAnswered(s.log, o);
    hide Live;
  }

  lemma ActsTwice(cfg: CoreConfig, f: Round, s: CoreState, m: CoreState, t: Turn)
    requires cfg.committee.Valid() && Acts(cfg, f, s, Turn(m, Done)) && Acts(cfg, f, m, t)
    ensures Acts(cfg, f, s, t)
  {
    hide Live;
    if t.outcome != Panicked {
      AnsweredTwice(s.log, m.log, t.state.log);
    }
  }

  lemma SameActs(cfg: CoreConfig, f: Round, s: CoreState, t: CoreState, outcome: Outcome)
    requires cfg.committee.Valid() && Live(cfg.committee, f, s)
    requires t.log == s.log && t.quorums == s.quorums
    ensures Acts(cfg, f, s, Turn(t, outcome))
  {
    assert forall r: Round :: r >= f ==> ToldDue(cfg.committee, s, r) && BoxOf(s, r) == BoxOf(t, r);
  }

  // ---------- the recursion ----------

  lemma {:induction false} ProcessHeaderActs(cfg: CoreConfig, f: Round, s: CoreState, header: Proposal)
    requires cfg.committee.Valid() && Kept(cfg, s) && Live(cfg.committee, f, s)
    ensures Acts(cfg, f, s, ProcessHeader(cfg, s, header))
    decreases Pending(Begin(s, header)), 2
  {
    hide Kept, Live, Passes, ProcessVote, Fetch, Acts, StillOnce, Log, Vote;
    var b := Begin(s, header);
    VotePending(b, header);
    BeginKeeps(cfg, s, header);
    BeginActs(cfg, f, s, header);
    assert Live(cfg.committee, f, b) by { ActsLive(cfg, f, s, Turn(b, Done)); }
    match Fetch(cfg.committee, b.store, header.parents)
    case None =>
      LogActs(cfg, f, b, AwaitParents(header), Done);
      ActsTwice(cfg, f, s, b, Turn(Log(b, AwaitParents(header)), Done));
    case Some(parents) =>
      if parents == [] || !Passes(cfg.committee, header, parents) {
        ActsAny(cfg, f, s, b);
      } else if header.author != cfg.name && header.id !in b.payloads {
        LogActs(cfg, f, b, AwaitPayload(header), Done);
        ActsTwice(cfg, f, s, b, Turn(Log(b, AwaitPayload(header)), Done));
      } else if header.author in At(b.lastVoted, header.round) {
      } else {
        var v := Vote(b, header);
        VoteActs(cfg, f, b, header);
        ActsTwice(cfg, f, s, b, Turn(v, Done));
        if header.author == cfg.name {
          VoteKeeps(cfg, b, header, parents);
          ActsLive(cfg, f, b, Turn(v, Done));
          ProcessVoteActs(cfg, f, v, header.round, cfg.name);
          var t := ProcessVote(cfg, v, header.round, cfg.name);
          ActsTwice(cfg, f, s, v, t);
          ActsPanic(cfg, f, s, t);
        }
      }
  }

  lemma VotePending(b: CoreState, header: Proposal)
    ensures Pending(Vote(b, header)) == Pending(b)
  {}

  lemma ActsLive(cfg: CoreConfig, f: Round, s: CoreState, t: Turn)
    requires cfg.committee.Valid() && Acts(cfg, f, s, t)
    ensures Live(cfg.committee, f, t.state) && s.log <= t.state.log
  {}

  lemma ActsAny(cfg: CoreConfig, f: Round, s: CoreState, t: CoreState)
    requires cfg.committee.Valid() && Acts(cfg, f, s, Turn(t, Done))
    ensures Acts(cfg, f, s, Turn(t, Rejected))
  {}

  /** A turn that is reported as a panic unless it was done. */
  lemma ActsPanic(cfg: CoreConfig, f: Round, s: CoreState, t: Turn)
    requires cfg.committee.Valid() && Acts(cfg, f, s, t)
    ensures Acts(cfg, f, s, Turn(t.state, if t.outcome == Done then Done else Panicked))
  {}

  lemma BeginActs(cfg: CoreConfig, f: Round, s: CoreState, header: Proposal)
    requires cfg.committee.Valid() && Live(cfg.committee, f, s)
    ensures Acts(cfg, f, s, Turn(Begin(s, header), Done))
  {
    hide Live, Acts;
    NeutralActs(cfg, f, s, Begin(s, header), Forwarded(header), Done);
  }

  lemma LogActs(cfg: CoreConfig, f: Round, s: CoreState, o: Output, outcome: Outcome)
    requires cfg.committee.Valid() && Live(cfg.committee, f, s) && Neutral(o) && !o.Assembled?
    ensures Acts(cfg, f, s, Turn(Log(s, o), outcome))
  {
    hide Live, Acts;
    NeutralActs(cfg, f, s, Log(s, o), o, outcome);
  }

  lemma VoteActs(cfg: CoreConfig, f: Round, s: CoreState, header: Proposal)
    requires cfg.committee.Valid() && Live(cfg.committee, f, s)
    ensures Acts(cfg, f, s, Turn(Vote(s, header), Done))
  {
    hide Live, Acts;
    NeutralActs(cfg, f, s, Vote(s, header), Cast(Ballot(header.id, header.round, header.author)), Done);
  }

  lemma {:induction false} ProcessVoteActs(cfg: CoreConfig, f: Round, s: CoreState, round: Round, author: Author)
    requires cfg.committee.Valid() && Kept(cfg, s) && Live(cfg.committee, f, s)
    ensures Acts(cfg, f, s, ProcessVote(cfg, s, round, author))
    decreases Pending(s), 1
  {
    hide Kept, Live, Acts, ProcessCertificate, StillOnce;
    var step := AddVote(cfg.committee, s.current, s.votes, author, round);
    var v := s.(votes := step.box);
    VotesFrame(cfg, s, step.box);
    SameActs(cfg, f, s, v, Done);
    SameActs(cfg, f, s, v, Rejected);
    if step.reply.Yield? {
      var cert := step.reply.value;
      var o := Assembled(cert);
      ActsLive(cfg, f, s, Turn(v, Done));
      NeutralLives(cfg.committee, f, v, Log(v, o), o);
      LogKeeps(cfg, v, Log(v, o), o);
      assert cert.header == s.current;
      ProcessCertificateActs(cfg, f, Log(v, o), cert);
      AssembledActs(cfg, f, s, Log(v, o), cert, ProcessCertificate(cfg, Log(v, o), cert));
    }
  }

  /** An assembled certificate that was processed is answered. */
  lemma AssembledActs(cfg: CoreConfig, f: Round, s: CoreState, v: CoreState, cert: Certificate, t: Turn)
    requires cfg.committee.Valid() && v.log == s.log + [Assembled(cert)] && Acts(cfg, f, v, t)
    requires t.outcome == Done ==> AnsweredFrom(t.state.log, |v.log|, cert)
    ensures Acts(cfg, f, s, Turn(t.state, if t.outcome == Done then Done else Panicked))
  {
    hide Live;
    var log := t.state.log;
    if t.outcome == Done {
      assert log[|s.log|] == v.log[|s.log|] == Assembled(cert);
    }
  }

  lemma {:induction false} ProcessCertificateActs(cfg: CoreConfig, f: Round, s: CoreState, cert: Certificate)
    requires cfg.committee.Valid() && Kept(cfg, s) && Live(cfg.committee, f, s)
    ensures var t := ProcessCertificate(cfg, s, cert);
      Acts(cfg, f, s, t) && (t.outcome == Done ==> AnsweredFrom(t.state.log, |s.log|, cert))
    decreases Pending(s), if IsCurrent(s, cert.header) then 0 else 3
  {
    hide Kept, Live, Acts, ProcessHeader, Deliver, StillOnce, AnsweredFrom;
    var header := cert.header;
    if header.id in At(s.processing, header.round) {
      DeliverActs(cfg, f, s, cert);
    } else {
      ProcessHeaderActs(cfg, f, s, header);
      ProcessHeaderKeeps(cfg, s, header);
      var t := ProcessHeader(cfg, s, header);
      if t.outcome == Done {
        ActsLive(cfg, f, s, t);
        DeliverActs(cfg, f, t.state, cert);
        ActsTwice(cfg, f, s, t.state, Deliver(cfg, t.state, cert));
        AnsweredSooner(Deliver(cfg, t.state, cert).state.log, |t.state.log|, |s.log|, cert);
      }
    }
  }

  lemma AnsweredSooner(log: seq<Output>, i: nat, j: nat, cert: Certificate)
    requires AnsweredFrom(log, i, cert) && j <= i
    ensures AnsweredFrom(log, j, cert)
  {}

  lemma DeliverActs(cfg: CoreConfig, f: Round, s: CoreState, cert: Certificate)
    requires cfg.committee.Valid() && Kept(cfg, s) && Live(cfg.committee, f, s)
    ensures Acts(cfg, f, s, Deliver(cfg, s, cert)) && Deliver(cfg, s, cert).outcome == Done
    ensures AnsweredFrom(Deliver(cfg, s, cert).state.log, |s.log|, cert)
  {
    KeptStored(cfg, s);
    DeliverLives(cfg, f, s, cert);
    hide Kept, Live, Deliver, Stored;
  }

  // ---------- the main loop ----------

  lemma TimeoutActs(cfg: CoreConfig, f: Round, s: CoreState, author: Author, round: Round)
    requires cfg.committee.Valid() && Live(cfg.committee, f, s)
    ensures Acts(cfg, f, s, ProcessTimeout(cfg, s, author, round))
  {
    hide Live, Acts, AddName;
    var box := if round in s.timeouts then s.timeouts[round] else EMPTY_NAMES;
    var step := AddName(cfg.committee, box, author, round);
    var t := s.(timeouts := s.timeouts[round := step.box]);
    match step.reply
    case Refused(_) => SameActs(cfg, f, s, t, Rejected);
    case Nothing => SameActs(cfg, f, s, t, Done);
    case Yield(cert) => NeutralActs(cfg, f, s, Log(t, TimeoutQuorum(cert)), TimeoutQuorum(cert), Done);
  }

  lemma NoVoteActs(cfg: CoreConfig, f: Round, s: CoreState, author: Author, round: Round)
    requires cfg.committee.Valid() && Live(cfg.committee, f, s)
    ensures Acts(cfg, f, s, ProcessNoVote(cfg, s, author, round))
  {
    hide Live, Acts, AddName, NoVoteBox;
    var step := AddName(cfg.committee, NoVoteBox(cfg, s, round), author, round);
    var t := s.(noVotes := s.noVotes[round := step.box]);
    match step.reply
    case Refused(_) => SameActs(cfg, f, s, t, Rejected);
    case Nothing => SameActs(cfg, f, s, t, Done);
    case Yield(cert) => NeutralActs(cfg, f, s, Log(t, NoVoteQuorum(cert)), NoVoteQuorum(cert), Done);
  }

  lemma OwnActs(cfg: CoreConfig, f: Round, s: CoreState, h: Proposal)
    requires cfg.committee.Valid() && Kept(cfg, s) && Live(cfg.committee, f, s)
    ensures Acts(cfg, f, s, ProcessHeader(cfg, s.(current := h, votes := EMPTY_VOTES), h))
  {
    hide Kept, Live, Acts, ProcessHeader, StillOnce;
    var t := s.(current := h, votes := EMPTY_VOTES);
    OwnFrame(cfg, s, h);
    SameActs(cfg, f, s, t, Done);
    ActsLive(cfg, f, s, Turn(t, Done));
    ProcessHeaderActs(cfg, f, t, h);
    ActsTwice(cfg, f, s, t, ProcessHeader(cfg, t, h));
  }

  lemma HandleActs(cfg: CoreConfig, f: Round, s: CoreState, i: Input)
    requires cfg.committee.Valid() && Kept(cfg, s) && Live(cfg.committee, f, s)
    ensures Acts(cfg, f, s, Handle(cfg, s, i))
  {
    hide Kept, Live, Acts, Acceptable, ProcessHeader, ProcessVote, ProcessCertificate, ProcessTimeout, ProcessNoVote;
    SameActs(cfg, f, s, s, Rejected);
    SameActs(cfg, f, s, s, Done);
    match i
    case NetHeader(h) => ProcessHeaderActs(cfg, f, s, h);
    case LoopHeader(h) => ProcessHeaderActs(cfg, f, s, h);
    case NetCertificate(c) => ProcessCertificateActs(cfg, f, s, c);
    case LoopCertificate(c) => ProcessCertificateActs(cfg, f, s, c);
    case OwnHeader(h) => OwnActs(cfg, f, s, h);
    case NetVote(b, a) => ProcessVoteActs(cfg, f, s, b.round, a);
    case NetTimeout(a, r) => TimeoutActs(cfg, f, s, a, r);
    case OwnTimeout(r) => TimeoutActs(cfg, f, s, cfg.name, r);
    case NetNoVote(a, r) => NoVoteActs(cfg, f, s, a, r);
    case OwnNoVote(_) =>
    case PayloadStored(id) => SameActs(cfg, f, s, s.(payloads := s.payloads + {id}), Done);
  }

  /** The highest round the garbage collector has reached. */
  function Collected(cfg: CoreConfig, ticks: seq<Tick>): Round {
    if ticks == [] then 0
    else
      var before, r := Collected(cfg, ticks[..|ticks| - 1]), ticks[|ticks| - 1].consensusRound;
      if r > cfg.gcDepth + before then r - cfg.gcDepth else before
  }

  lemma CleanupActs(cfg: CoreConfig, f: Round, s: CoreState, consensusRound: Round)
    requires cfg.committee.Valid() && Live(cfg.committee, f, s) && consensusRound <= cfg.gcDepth + f
    ensures Acts(cfg, f, s, Turn(Cleanup(cfg, s, consensusRound), Done))
  {
    var t := Cleanup(cfg, s, consensusRound);
    assert forall r: Round :: r >= f ==> ToldDue(cfg.committee, s, r) && BoxOf(s, r) == BoxOf(t, r);
  }

  lemma StepActs(cfg: CoreConfig, f: Round, s: CoreState, tick: Tick)
    requires cfg.committee.Valid() && Kept(cfg, s) && Live(cfg.committee, f, s)
    requires tick.consensusRound <= cfg.gcDepth + f
    ensures Acts(cfg, f, s, OnTick(cfg, s, tick))
  {
    hide Kept, Live, Acts, Handle, Cleanup;
    HandleActs(cfg, f, s, tick.input);
    var t := Handle(cfg, s, tick.input);
    if t.outcome != Panicked {
      ActsLive(cfg, f, s, t);
      CleanupActs(cfg, f, t.state, tick.consensusRound);
      ActsDone(cfg, f, s, t);
      ActsTwice(cfg, f, s, t.state, Turn(Cleanup(cfg, t.state, tick.consensusRound), Done));
      ActsDone(cfg, f, s, Turn(Cleanup(cfg, t.state, tick.consensusRound), Done));
    }
  }

  /** A turn may be reported differently unless it was a panic. */
  lemma ActsDone(cfg: CoreConfig, f: Round, s: CoreState, t: Turn)
    requires cfg.committee.Valid() && Acts(cfg, f, s, t) && t.outcome != Panicked
    ensures forall outcome :: Acts(cfg, f, s, Turn(t.state, outcome))
  {
    hide Live, AllAnswered;
  }

  lemma {:induction false} RunActs(cfg: CoreConfig, f: Round, ticks: seq<Tick>)
    requires cfg.committee.Valid() && Collected(cfg, ticks) <= f
    ensures Acts(cfg, f, INIT_CORE, Run(cfg, ticks))
    decreases |ticks|
  {
    hide Kept, Live, Acts, OnTick;
    if ticks == [] {
      InitActs(cfg, f);
    } else {
      var before := ticks[..|ticks| - 1];
      RunActs(cfg, f, before);
      RunKeeps(cfg, before);
      var b := Run(cfg, before);
      if b.outcome != Panicked {
        ActsLive(cfg, f, INIT_CORE, b);
        ActsDone(cfg, f, INIT_CORE, b);
        StepActs(cfg, f, b.state, ticks[|ticks| - 1]);
        ActsTwice(cfg, f, INIT_CORE, b.state, Run(cfg, ticks));
      }
    }
  }

  lemma InitActs(cfg: CoreConfig, f: Round)
    requires cfg.committee.Valid()
    ensures Acts(cfg, f, INIT_CORE, Turn(INIT_CORE, Done))
  {
    EmptyWeight(cfg.committee);
    ThresholdArithmetic(cfg.committee);
    assert Origins([]) == {};
  }

  // ---------- the main results ----------

  /** Every certificate the primary assembles is sent to consensus, or handed to the certificate waiter,
      after it was broadcast. */
  lemma AssembledIsAnswered(cfg: CoreConfig, ticks: seq<Tick>, i: nat)
    requires cfg.committee.Valid() && Run(cfg, ticks).outcome != Panicked
    requires i < |Run(cfg, ticks).state.log| && Run(cfg, ticks).state.log[i].Assembled?
    ensures var log := Run(cfg, ticks).state.log;
      exists j :: i < j < |log| && Answers(log[j], log[i].certificate)
  {
    hide Run, Live;
    RunActs(cfg, Collected(cfg, ticks), ticks);
    var log := Run(cfg, ticks).state.log;
    assert AnsweredFrom(log, i + 1, log[i].certificate);
  }

  /** A certificate is held back only while a parent of it has not been sent to consensus. */
  lemma HeldBackJustly(cfg: CoreConfig, ticks: seq<Tick>, i: nat)
    requires cfg.committee.Valid()
    requires i < |Run(cfg, ticks).state.log| && Run(cfg, ticks).state.log[i].AwaitAncestors?
    ensures var log := Run(cfg, ticks).state.log;
      !ParentsIn(cfg.committee, log[..i], log[i].certificate)
  {
    hide Run, ToldDue;
    RunActs(cfg, Collected(cfg, ticks), ticks);
  }

  /** The proposer is told nothing of a round until certificates by a quorum were sent to consensus, and then the
      first certificate of every author, in the order they were sent. */
  lemma ParentsTold(cfg: CoreConfig, ticks: seq<Tick>, r: Round)
    requires cfg.committee.Valid() && Collected(cfg, ticks) <= r
    ensures var log := Run(cfg, ticks).state.log;
      ToldOf(log, r) == Due(cfg.committee, DeliveredOf(log, r))
  {
    hide Run, HeldJustly, AllAnswered, CertificateBoxFits, Due;
    RunActs(cfg, Collected(cfg, ticks), ticks);
    assert ToldDue(cfg.committee, Run(cfg, ticks).state, r);
  }
}
