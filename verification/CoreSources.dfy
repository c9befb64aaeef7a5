/** Where everything the core sends out comes from. */
module CoreSources {
  import opened Config
  import opened Messages
  import opened Aggregators
  import opened Processing
  import opened ProposerRuns
  import opened Certification

  function Inputs(ticks: seq<Tick>): set<Input> {
    set k | 0 <= k < |ticks| :: ticks[k].input
  }

  predicate CertificateCame(ins: set<Input>, cert: Certificate) {
    NetCertificate(cert) in ins || LoopCertificate(cert) in ins
  }

  ghost predicate HeaderCame(ins: set<Input>, h: Proposal) {
    || NetHeader(h) in ins || LoopHeader(h) in ins || OwnHeader(h) in ins
    || exists cert: Certificate :: CertificateCame(ins, cert) && cert.header == h
  }

  // ---------- the invariants ----------

  predicate HasCurrent(ins: set<Input>, s: CoreState) {
    OwnHeader(s.current) in ins
  }

  /** Headers and certificates that left the core, and where they came from. */
  ghost predicate LogSourced(ins: set<Input>, log: seq<Output>) {
    && (forall cert: Certificate :: Assembled(cert) in log ==> OwnHeader(cert.header) in ins)
    && (forall cert: Certificate :: Delivered(cert) in log ==> Assembled(cert) in log || CertificateCame(ins, cert))
    && (forall h: Proposal :: Forwarded(h) in log ==> HeaderCame(ins, h))
  }

  ghost predicate AllDelivered(log: seq<Output>, certs: seq<Certificate>) {
    forall i :: 0 <= i < |certs| ==> Delivered(certs[i]) in log
  }

  ghost predicate ToldParents(log: seq<Output>, r: Round) {
    exists i :: 0 <= i < |log| && log[i].NewParents? && log[i].round == r
  }

  ghost predicate GoodMessage(c: Committee, log: seq<Output>, i: nat)
    requires i < |log| && log[i].NewParents?
  {
    && log[i].certificates != [] && OfOneRound(log[i].certificates, log[i].round)
    && (ToldParents(log[..i], log[i].round) || c.Weight(Origins(log[i].certificates)) >= c.QuorumThreshold())
  }

  /** Every message to the proposer is about one round; the first about a round is a quorum. */
  ghost predicate GoodMessages(c: Committee, log: seq<Output>) {
    forall i :: 0 <= i < |log| && log[i].NewParents? ==> GoodMessage(c, log, i)
  }

  ghost predicate MessagesDelivered(log: seq<Output>) {
    forall i :: 0 <= i < |log| && log[i].NewParents? ==> AllDelivered(log, log[i].certificates)
  }

  ghost predicate BoxGathered(c: Committee, log: seq<Output>, r: Round, box: CertificateBox, certs: seq<Certificate>) {
    && CertificateBoxFits(c, box, certs) && OfOneRound(certs, r) && AllDelivered(log, certs)
    && (box.weight >= c.QuorumThreshold() ==> ToldParents(log, r))
  }

  ghost predicate BoxesGathered(c: Committee, s: CoreState) {
    forall r :: r in s.quorums ==> exists certs :: BoxGathered(c, s.log, r, s.quorums[r], certs)
  }

  ghost predicate Sourced(cfg: CoreConfig, ins: set<Input>, s: CoreState) {
    && LogSourced(ins, s.log) && GoodMessages(cfg.committee, s.log) && MessagesDelivered(s.log)
    && BoxesGathered(cfg.committee, s)
    && (s.current == NO_HEADER || HasCurrent(ins, s))
  }

  // ---------- growing logs ----------

  lemma ToldMore(log: seq<Output>, o: Output, r: Round)
    ensures ToldParents(log, r) ==> ToldParents(log + [o], r)
    ensures o.NewParents? && o.round == r ==> ToldParents(log + [o], r)
  {
    var all := log + [o];
    assert all[|log|] == o;
    if ToldParents(log, r) {
      var i :| 0 <= i < |log| && log[i].NewParents? && log[i].round == r;
      assert all[i].NewParents?;
    }
  }

  lemma MessagesMore(c: Committee, log: seq<Output>, o: Output)
    requires GoodMessages(c, log)
    requires o.NewParents? ==> o.certificates != [] && OfOneRound(o.certificates, o.round)
    requires o.NewParents? ==> ToldParents(log, o.round) || c.Weight(Origins(o.certificates)) >= c.QuorumThreshold()
    ensures GoodMessages(c, log + [o])
  {
    var all := log + [o];
    forall i | 0 <= i < |all| && all[i].NewParents? ensures GoodMessage(c, all, i) {
      if i < |log| {
        assert all[i] == log[i] && all[..i] == log[..i];
        assert GoodMessage(c, log, i);
      } else {
        assert all[..i] == log;
      }
    }
  }

  lemma BoxMore(c: Committee, log: seq<Output>, o: Output, r: Round, box: CertificateBox, certs: seq<Certificate>)
    requires BoxGathered(c, log, r, box, certs)
    ensures BoxGathered(c, log + [o], r, box, certs)
  {
    ToldMore(log, o, r);
  }

  lemma BoxesMore(c: Committee, s: CoreState, t: CoreState, o: Output)
    requires BoxesGathered(c, s) && t.log == s.log + [o] && t.quorums == s.quorums
    ensures BoxesGathered(c, t)
  {
    forall r | r in t.quorums ensures exists certs :: BoxGathered(c, t.log, r, t.quorums[r], certs) {
      var certs :| BoxGathered(c, s.log, r, s.quorums[r], certs);
      BoxMore(c, s.log, o, r, s.quorums[r], certs);
    }
  }

  /** An output that is neither a delivery nor a message to the proposer. */
  lemma LogSource(cfg: CoreConfig, ins: set<Input>, s: CoreState, t: CoreState, o: Output)
    requires Sourced(cfg, ins, s) && !o.Delivered? && !o.NewParents?
    requires o.Assembled? ==> OwnHeader(o.certificate.header) in ins
    requires o.Forwarded? ==> HeaderCame(ins, o.header)
    requires t.log == s.log + [o] && t.quorums == s.quorums && t.current == s.current
    ensures Sourced(cfg, ins, t)
  {
    hide BoxGathered, CertificateBoxFits, HeaderCame, OfOneRound;
    assert forall x :: x in t.log <==> x in s.log || x == o;
    MessagesMore(cfg.committee, s.log, o);
    BoxesMore(cfg.committee, s, t, o);
  }

  // ---------- delivering ----------

  /** The gathered certificates of the certificate's round. */
  lemma BoxOf(cfg: CoreConfig, s: CoreState, r: Round) returns (box: CertificateBox, certs: seq<Certificate>)
    requires cfg.committee.Valid() && BoxesGathered(cfg.committee, s)
    ensures box == if r in s.quorums then s.quorums[r] else EMPTY_CERTIFICATES
    ensures BoxGathered(cfg.committee, s.log, r, box, certs)
  {
    if r in s.quorums {
      box := s.quorums[r];
      certs :| BoxGathered(cfg.committee, s.log, r, box, certs);
    } else {
      box, certs := EMPTY_CERTIFICATES, [];
      EmptyWeight(cfg.committee);
      assert Origins([]) == {};
      ThresholdArithmetic(cfg.committee);
    }
  }

  /** What the aggregator yields is of one round, delivered once the new certificate is, and a quorum the
      first time. */
  lemma YieldGood(c: Committee, log: seq<Output>, r: Round, box: CertificateBox, certs: seq<Certificate>,
          cert: Certificate)
    requires c.Valid() && BoxGathered(c, log, r, box, certs) && cert.header.round == r
    ensures var step := AddCertificate(c, box, cert);
      && CertificateBoxFits(c, step.box, certs + [cert])
      && (step.reply.Yield? ==> step.reply.value != [] && OfOneRound(step.reply.value, r))
      && (step.reply.Yield? ==> forall x :: x in step.reply.value ==> x in certs || x == cert)
      && (step.reply.Yield? ==> ToldParents(log, r) || c.Weight(Origins(step.reply.value)) >= c.QuorumThreshold())
      && (step.box.weight >= c.QuorumThreshold() ==> ToldParents(log, r) || step.reply.Yield?)
  {
    hide ToldParents;
    var all := certs + [cert];
    AddCertificateFits(c, box, certs, cert);
    FirstsDistinct(all);
    OriginsAdd(certs, cert);
    var step := AddCertificate(c, box, cert);
    if cert.header.author in Origins(certs) {
      assert Origins(all) == Origins(certs);
    }
    if step.reply.Yield? {
      var m := step.reply.value;
      forall i | 0 <= i < |m| ensures m[i].header.round == r {
        assert m[i] in all;
      }
    }
  }

  lemma DeliveredIn(log: seq<Output>, certs: seq<Certificate>, cert: Certificate, m: seq<Certificate>)
    requires AllDelivered(log, certs) && Delivered(cert) in log
    requires forall x :: x in m ==> x in certs || x == cert
    ensures AllDelivered(log, m)
  {
    forall i | 0 <= i < |m| ensures Delivered(m[i]) in log {
      assert m[i] in m;
    }
  }

  lemma AllDeliveredMore(log: seq<Output>, more: seq<Output>, certs: seq<Certificate>)
    requires AllDelivered(log, certs)
    ensures AllDelivered(log + more, certs)
  {}

  lemma ToldMany(log: seq<Output>, more: seq<Output>, r: Round)
    requires ToldParents(log, r)
    ensures ToldParents(log + more, r)
  {
    var i :| 0 <= i < |log| && log[i].NewParents? && log[i].round == r;
    assert (log + more)[i].NewParents?;
  }

  lemma BoxMany(c: Committee, log: seq<Output>, more: seq<Output>, r: Round, box: CertificateBox,
          certs: seq<Certificate>)
    requires BoxGathered(c, log, r, box, certs)
    ensures BoxGathered(c, log + more, r, box, certs)
  {
    hide CertificateBoxFits, ToldParents;
    AllDeliveredMore(log, more, certs);
    if box.weight >= c.QuorumThreshold() {
      ToldMany(log, more, r);
    }
  }

  /** What one delivery adds to the log. */
  function Delivery(step: CertificateStep, cert: Certificate): seq<Output> {
    (if step.reply.Yield? then [NewParents(step.reply.value, cert.header.round)] else []) + [Delivered(cert)]
  }

  lemma DeliveryBoxes(cfg: CoreConfig, s: CoreState, t: CoreState, cert: Certificate, box: CertificateBox,
          certs: seq<Certificate>)
    requires cfg.committee.Valid() && BoxesGathered(cfg.committee, s)
    requires BoxGathered(cfg.committee, s.log, cert.header.round, box, certs)
    requires var step := AddCertificate(cfg.committee, box, cert);
      t.log == s.log + Delivery(step, cert) && t.quorums == s.quorums[cert.header.round := step.box]
    ensures BoxesGathered(cfg.committee, t)
  {
    var c := cfg.committee;
    var r0 := cert.header.round;
    var step := AddCertificate(c, box, cert);
    var more := Delivery(step, cert);
    YieldGood(c, s.log, r0, box, certs, cert);
    hide CertificateBoxFits, AddCertificate;
    forall r | r in t.quorums ensures exists cs :: BoxGathered(c, t.log, r, t.quorums[r], cs) {
      if r == r0 {
        assert Delivered(cert) in more;
        AllDeliveredMore(s.log, more, certs);
        DeliveredIn(t.log, certs, cert, certs + [cert]);
        if step.reply.Yield? {
          assert t.log[|s.log|] == NewParents(step.reply.value, r);
          assert ToldParents(t.log, r);
        } else if ToldParents(s.log, r) {
          ToldMany(s.log, more, r);
        }
        assert BoxGathered(c, t.log, r, step.box, certs + [cert]);
      } else {
        var cs :| BoxGathered(c, s.log, r, s.quorums[r], cs);
        BoxMany(c, s.log, more, r, s.quorums[r], cs);
      }
    }
  }

  lemma DeliveryMessages(cfg: CoreConfig, s: CoreState, log: seq<Output>, cert: Certificate, box: CertificateBox,
          certs: seq<Certificate>)
    requires cfg.committee.Valid() && GoodMessages(cfg.committee, s.log) && MessagesDelivered(s.log)
    requires BoxGathered(cfg.committee, s.log, cert.header.round, box, certs)
    requires log == s.log + Delivery(AddCertificate(cfg.committee, box, cert), cert)
    ensures GoodMessages(cfg.committee, log) && MessagesDelivered(log)
  {
    var c := cfg.committee;
    var r := cert.header.round;
    var step := AddCertificate(c, box, cert);
    var more := Delivery(step, cert);
    YieldGood(c, s.log, r, box, certs, cert);
    hide CertificateBoxFits, AddCertificate, ToldParents, OfOneRound;
    assert Delivered(cert) in more;
    AllDeliveredMore(s.log, more, certs);
    if step.reply.Yield? {
      var o := NewParents(step.reply.value, r);
      MessagesMore(c, s.log, o);
      MessagesMore(c, s.log + [o], Delivered(cert));
      assert log == s.log + [o] + [Delivered(cert)];
      DeliveredIn(log, certs, cert, step.reply.value);
    } else {
      MessagesMore(c, s.log, Delivered(cert));
      assert log == s.log + [Delivered(cert)];
    }
    forall i | 0 <= i < |log| && log[i].NewParents? ensures AllDelivered(log, log[i].certificates) {
      if i < |s.log| {
        AllDeliveredMore(s.log, more, s.log[i].certificates);
      }
    }
  }

  lemma DeliveryLog(ins: set<Input>, log: seq<Output>, step: CertificateStep, cert: Certificate)
    requires LogSourced(ins, log)
    requires Assembled(cert) in log || CertificateCame(ins, cert)
    ensures LogSourced(ins, log + Delivery(step, cert))
  {
    hide HeaderCame;
    var all := log + Delivery(step, cert);
    assert forall x: Certificate :: Assembled(x) in all <==> Assembled(x) in log;
    assert forall x: Certificate :: Delivered(x) in all ==> Delivered(x) in log || x == cert;
    assert forall x: Proposal :: Forwarded(x) in all ==> Forwarded(x) in log;
  }

  lemma HeldSource(cfg: CoreConfig, ins: set<Input>, s: CoreState, cert: Certificate)
    requires cfg.committee.Valid() && Sourced(cfg, ins, s)
    requires MissesParent(cfg.committee, s.store, cert.header.parents)
    ensures Sourced(cfg, ins, Deliver(cfg, s, cert).state)
    ensures Deliver(cfg, s, cert).state.current == s.current
  {
    hide Sourced, MissesParent, AddCertificate;
    LogSource(cfg, ins, s, Deliver(cfg, s, cert).state, AwaitAncestors(cert));
  }

  lemma DeliverSource(cfg: CoreConfig, ins: set<Input>, s: CoreState, cert: Certificate)
    requires cfg.committee.Valid() && Sourced(cfg, ins, s)
    requires Assembled(cert) in s.log || CertificateCame(ins, cert)
    ensures Sourced(cfg, ins, Deliver(cfg, s, cert).state)
    ensures Deliver(cfg, s, cert).state.current == s.current
  {
    hide AddCertificate, BoxGathered, LogSourced, GoodMessages, MessagesDelivered, BoxesGathered, Deliver, MissesParent,
         CertificateCame;
    if MissesParent(cfg.committee, s.store, cert.header.parents) {
      HeldSource(cfg, ins, s, cert);
    } else {
      var t := Deliver(cfg, s, cert).state;
      var box, certs := BoxOf(cfg, s, cert.header.round);
      DeliverLog(cfg, s, cert, box);
      DeliveryBoxes(cfg, s, t, cert, box, certs);
      DeliveryMessages(cfg, s, t.log, cert, box, certs);
      DeliveryLog(ins, s.log, AddCertificate(cfg.committee, box, cert), cert);
    }
  }

  lemma DeliverLog(cfg: CoreConfig, s: CoreState, cert: Certificate, box: CertificateBox)
    requires !MissesParent(cfg.committee, s.store, cert.header.parents)
    requires box == if cert.header.round in s.quorums then s.quorums[cert.header.round] else EMPTY_CERTIFICATES
    ensures var t := Deliver(cfg, s, cert).state;
      var step := AddCertificate(cfg.committee, box, cert);
      && t.log == s.log + Delivery(step, cert)
      && t.quorums == s.quorums[cert.header.round := step.box] && t.current == s.current
  {
    hide AddCertificate;
  }

  // ---------- timeouts and no-votes ----------

  predicate NoVoteCame(cfg: CoreConfig, ins: set<Input>, name: Author, r: Round) {
    name == cfg.name || NetNoVote(name, r) in ins
  }

  predicate Entitled(c: Committee, names: set<Author>) {
    forall a :: a in names ==> c.Stake(a) > 0
  }

  ghost predicate TimeoutBox(cfg: CoreConfig, box: NameBox, names: set<Author>) {
    NameBoxFits(cfg.committee, box, names) && Entitled(cfg.committee, names)
  }

  ghost predicate NoVotesBox(cfg: CoreConfig, ins: set<Input>, r: Round, box: NameBox, names: set<Author>) {
    TimeoutBox(cfg, box, names) && forall a :: a in names ==> NoVoteCame(cfg, ins, a, r)
  }

  /** Timeout and no-vote certificates carry a quorum; no-votes are our own or were received. */
  ghost predicate QuorumsLogged(cfg: CoreConfig, ins: set<Input>, log: seq<Output>) {
    && (forall cert: QuorumCert :: TimeoutQuorum(cert) in log ==> Carries(cfg.committee, cert.names))
    && (forall cert: QuorumCert :: NoVoteQuorum(cert) in log ==>
          Carries(cfg.committee, cert.names) &&
          forall a :: a in NameSet(cert.names) ==> NoVoteCame(cfg, ins, a, cert.round))
  }

  ghost predicate Named(cfg: CoreConfig, ins: set<Input>, s: CoreState) {
    && QuorumsLogged(cfg, ins, s.log)
    && (forall r :: r in s.timeouts ==> exists names :: TimeoutBox(cfg, s.timeouts[r], names))
    && (forall r :: r in s.noVotes ==> exists names :: NoVotesBox(cfg, ins, r, s.noVotes[r], names))
  }

  lemma NamedFrame(cfg: CoreConfig, ins: set<Input>, s: CoreState, t: CoreState, more: seq<Output>)
    requires Named(cfg, ins, s)
    requires t.log == s.log + more && forall o :: o in more ==> !o.TimeoutQuorum? && !o.NoVoteQuorum?
    requires t.timeouts == s.timeouts && t.noVotes == s.noVotes
    ensures Named(cfg, ins, t)
  {
    assert forall cert: QuorumCert :: TimeoutQuorum(cert) in t.log ==> TimeoutQuorum(cert) in s.log;
    assert forall cert: QuorumCert :: NoVoteQuorum(cert) in t.log ==> NoVoteQuorum(cert) in s.log;
  }

  ghost predicate Traced(cfg: CoreConfig, ins: set<Input>, s: CoreState) {
    Sourced(cfg, ins, s) && Named(cfg, ins, s)
  }

  lemma LogTraced(cfg: CoreConfig, ins: set<Input>, s: CoreState, t: CoreState, o: Output)
    requires Traced(cfg, ins, s)
    requires !o.Delivered? && !o.NewParents? && !o.TimeoutQuorum? && !o.NoVoteQuorum?
    requires o.Assembled? ==> OwnHeader(o.certificate.header) in ins
    requires o.Forwarded? ==> HeaderCame(ins, o.header)
    requires t.log == s.log + [o] && t.quorums == s.quorums && t.current == s.current
    requires t.timeouts == s.timeouts && t.noVotes == s.noVotes
    ensures Traced(cfg, ins, t)
  {
    hide Sourced, Named, HeaderCame;
    LogSource(cfg, ins, s, t, o);
    NamedFrame(cfg, ins, s, t, [o]);
  }

  lemma DeliverTraced(cfg: CoreConfig, ins: set<Input>, s: CoreState, cert: Certificate)
    requires cfg.committee.Valid() && Traced(cfg, ins, s)
    requires Assembled(cert) in s.log || CertificateCame(ins, cert)
    ensures Traced(cfg, ins, Deliver(cfg, s, cert).state)
    ensures Deliver(cfg, s, cert).state.current == s.current
  {
    hide Sourced, Named, MissesParent, AddCertificate;
    DeliverSource(cfg, ins, s, cert);
    var t := Deliver(cfg, s, cert).state;
    if MissesParent(cfg.committee, s.store, cert.header.parents) {
      NamedFrame(cfg, ins, s, t, [AwaitAncestors(cert)]);
    } else {
      var r := cert.header.round;
      var box := if r in s.quorums then s.quorums[r] else EMPTY_CERTIFICATES;
      DeliverLog(cfg, s, cert, box);
      NamedFrame(cfg, ins, s, t, Delivery(AddCertificate(cfg.committee, box, cert), cert));
    }
  }

  // ---------- the recursion ----------

  /** A header of our own is processed only while we collect votes. */
  predicate OwnReady(cfg: CoreConfig, ins: set<Input>, s: CoreState, h: Proposal) {
    h.author == cfg.name ==> HasCurrent(ins, s)
  }

  ghost predicate StaysTraced(cfg: CoreConfig, ins: set<Input>, s: CoreState, t: CoreState) {
    Traced(cfg, ins, t) && t.current == s.current
  }

  lemma {:induction false} ProcessHeaderTraced(cfg: CoreConfig, ins: set<Input>, s: CoreState, h: Proposal)
    requires cfg.committee.Valid() && Traced(cfg, ins, s)
    requires HeaderCame(ins, h) && OwnReady(cfg, ins, s, h)
    ensures StaysTraced(cfg, ins, s, ProcessHeader(cfg, s, h).state)
    decreases Pending(Begin(s, h)), 2
  {
    hide Traced, Fetch, Passes, ProcessVote, HeaderCame;
    var b := Begin(s, h);
    LogTraced(cfg, ins, s, b, Forwarded(h));
    match Fetch(cfg.committee, b.store, h.parents)
    case None => LogTraced(cfg, ins, b, Log(b, AwaitParents(h)), AwaitParents(h));
    case Some(parents) =>
      if parents == [] || !Passes(cfg.committee, h, parents) {
      } else if h.author != cfg.name && h.id !in b.payloads {
        LogTraced(cfg, ins, b, Log(b, AwaitPayload(h)), AwaitPayload(h));
      } else if h.author !in At(b.lastVoted, h.round) {
        var v := Vote(b, h);
        LogTraced(cfg, ins, b, v, Cast(Ballot(h.id, h.round, h.author)));
        if h.author == cfg.name {
          ProcessVoteTraced(cfg, ins, v, h.round, cfg.name);
        }
      }
  }

  lemma VotesTraced(cfg: CoreConfig, ins: set<Input>, s: CoreState, box: VoteBox)
    requires Traced(cfg, ins, s)
    ensures Traced(cfg, ins, s.(votes := box))
  {}

  lemma {:induction false} ProcessVoteTraced(cfg: CoreConfig, ins: set<Input>, s: CoreState, round: Round,
          author: Author)
    requires cfg.committee.Valid() && Traced(cfg, ins, s) && HasCurrent(ins, s)
    ensures StaysTraced(cfg, ins, s, ProcessVote(cfg, s, round, author).state)
    decreases Pending(s), 1
  {
    var step := AddVote(cfg.committee, s.current, s.votes, author, round);
    var v := s.(votes := step.box);
    VotesTraced(cfg, ins, s, step.box);
    hide Traced, ProcessCertificate;
    if step.reply.Yield? {
      var cert := step.reply.value;
      LogTraced(cfg, ins, v, Log(v, Assembled(cert)), Assembled(cert));
      assert cert.header == s.current;
      ProcessCertificateTraced(cfg, ins, Log(v, Assembled(cert)), cert);
    }
  }

  lemma {:induction false} ProcessCertificateTraced(cfg: CoreConfig, ins: set<Input>, s: CoreState, cert: Certificate)
    requires cfg.committee.Valid() && Traced(cfg, ins, s)
    requires Assembled(cert) in s.log || CertificateCame(ins, cert)
    requires HeaderCame(ins, cert.header) && OwnReady(cfg, ins, s, cert.header)
    ensures StaysTraced(cfg, ins, s, ProcessCertificate(cfg, s, cert).state)
    decreases Pending(s), if IsCurrent(s, cert.header) then 0 else 3
  {
    hide Traced, ProcessHeader, Deliver, HeaderCame, CertificateCame;
    if cert.header.id in At(s.processing, cert.header.round) {
      DeliverTraced(cfg, ins, s, cert);
    } else {
      ProcessHeaderTraced(cfg, ins, s, cert.header);
      ProcessHeaderLogs(cfg, s, cert.header);
      var t := ProcessHeader(cfg, s, cert.header);
      if Assembled(cert) in s.log {
        PrefixHas(s.log, t.state.log, Assembled(cert));
      }
      if t.outcome == Done {
        DeliverTraced(cfg, ins, t.state, cert);
      }
    }
  }

  // ---------- the main loop ----------

  lemma CameMore(ins: set<Input>, more: set<Input>, h: Proposal)
    requires ins <= more && HeaderCame(ins, h)
    ensures HeaderCame(more, h)
  {
    if !(NetHeader(h) in ins || LoopHeader(h) in ins || OwnHeader(h) in ins) {
      var cert: Certificate :| CertificateCame(ins, cert) && cert.header == h;
      assert CertificateCame(more, cert);
    }
  }

  lemma TracedMore(cfg: CoreConfig, ins: set<Input>, more: set<Input>, s: CoreState)
    requires Traced(cfg, ins, s) && ins <= more
    ensures Traced(cfg, more, s)
  {
    forall h: Proposal | Forwarded(h) in s.log ensures HeaderCame(more, h) {
      CameMore(ins, more, h);
    }
    hide HeaderCame, TimeoutBox, BoxGathered, Carries;
    assert forall cert: Certificate :: CertificateCame(ins, cert) ==> CertificateCame(more, cert);
    assert forall a: Author, r: Round :: NoVoteCame(cfg, ins, a, r) ==> NoVoteCame(cfg, more, a, r);
    forall r | r in s.noVotes ensures exists names :: NoVotesBox(cfg, more, r, s.noVotes[r], names) {
      var names :| NoVotesBox(cfg, ins, r, s.noVotes[r], names);
      assert NoVotesBox(cfg, more, r, s.noVotes[r], names);
    }
  }

  predicate HasOwn(ins: set<Input>) {
    exists i :: i in ins && i.OwnHeader?
  }

  /** Once we proposed, the header we collect votes for is ours. */
  predicate CurrentOwn(ins: set<Input>, s: CoreState) {
    HasOwn(ins) ==> HasCurrent(ins, s)
  }

  /** Our own headers reach us from outside only after we proposed them, and nobody votes for round zero. */
  predicate Plausible(cfg: CoreConfig, ins: set<Input>, i: Input) {
    match i
    case NetHeader(h) => h.author == cfg.name ==> OwnHeader(h) in ins
    case LoopHeader(h) => h.author == cfg.name ==> OwnHeader(h) in ins
    case NetCertificate(c) => c.header.author == cfg.name ==> OwnHeader(c.header) in ins
    case LoopCertificate(c) => c.header.author == cfg.name ==> OwnHeader(c.header) in ins
    case NetVote(b, _) => b.round > 0
    case _ => true
  }

  lemma TimeoutTraced(cfg: CoreConfig, ins: set<Input>, s: CoreState, author: Author, round: Round)
    requires cfg.committee.Valid() && Traced(cfg, ins, s) && cfg.committee.Stake(author) > 0
    ensures StaysTraced(cfg, ins, s, ProcessTimeout(cfg, s, author, round).state)
  {
    var c := cfg.committee;
    var box := if round in s.timeouts then s.timeouts[round] else EMPTY_NAMES;
    var names: set<Author> := {};
    if round in s.timeouts {
      names :| TimeoutBox(cfg, box, names);
    } else {
      EmptyWeight(c);
      assert NameSet([]) == {};
    }
    var step := AddName(c, box, author, round);
    var t := s.(timeouts := s.timeouts[round := step.box]);
    AddNameFits(c, box, author, round, names);
    assert TimeoutBox(cfg, step.box, names + {author});
    hide Sourced, TimeoutBox, NoVotesBox, Carries, NameBoxFits, AddName;
    assert Named(cfg, ins, t);
    TimeoutLogged(cfg, ins, s, t, step);
  }

  lemma TimeoutLogged(cfg: CoreConfig, ins: set<Input>, s: CoreState, t: CoreState, step: NameStep)
    requires Sourced(cfg, ins, s) && Named(cfg, ins, t)
    requires t == s.(timeouts := t.timeouts)
    requires step.reply.Yield? ==> Carries(cfg.committee, step.reply.value.names)
    ensures Traced(cfg, ins, t)
    ensures step.reply.Yield? ==> Traced(cfg, ins, Log(t, TimeoutQuorum(step.reply.value)))
  {
    hide HeaderCame, Carries, TimeoutBox, NoVotesBox;
    if step.reply.Yield? {
      var o := TimeoutQuorum(step.reply.value);
      LogSource(cfg, ins, t, Log(t, o), o);
      QuorumLogged(cfg, ins, t, o);
    }
  }

  lemma QuorumLogged(cfg: CoreConfig, ins: set<Input>, s: CoreState, o: Output)
    requires Named(cfg, ins, s)
    requires o.TimeoutQuorum? || o.NoVoteQuorum?
    requires Carries(cfg.committee, o.cert.names)
    requires o.NoVoteQuorum? ==> forall a :: a in NameSet(o.cert.names) ==> NoVoteCame(cfg, ins, a, o.cert.round)
    ensures Named(cfg, ins, Log(s, o))
  {
    hide Carries, NoVoteCame, TimeoutBox, NoVotesBox;
    var t := Log(s, o);
    assert forall x :: x in t.log <==> x in s.log || x == o;
  }

  lemma NoVoteBoxFits(cfg: CoreConfig, ins: set<Input>, s: CoreState, round: Round) returns (names: set<Author>)
    requires cfg.committee.Valid() && Named(cfg, ins, s) && cfg.committee.Stake(cfg.name) > 0
    ensures NoVotesBox(cfg, ins, round, NoVoteBox(cfg, s, round), names)
  {
    if round in s.noVotes {
      names :| NoVotesBox(cfg, ins, round, s.noVotes[round], names);
    } else {
      EmptyWeight(cfg.committee);
      assert NameSet([]) == {};
      AddNameFits(cfg.committee, EMPTY_NAMES, cfg.name, round, {});
      names := {} + {cfg.name};
    }
  }

  lemma NoVoteTraced(cfg: CoreConfig, ins: set<Input>, s: CoreState, author: Author, round: Round)
    requires cfg.committee.Valid() && Traced(cfg, ins, s)
    requires cfg.committee.Stake(author) > 0 && cfg.committee.Stake(cfg.name) > 0 && NoVoteCame(cfg, ins, author, round)
    ensures StaysTraced(cfg, ins, s, ProcessNoVote(cfg, s, author, round).state)
  {
    var c := cfg.committee;
    var names := NoVoteBoxFits(cfg, ins, s, round);
    var box := NoVoteBox(cfg, s, round);
    var step := AddName(c, box, author, round);
    var t := s.(noVotes := s.noVotes[round := step.box]);
    AddNameFits(c, box, author, round, names);
    assert NoVotesBox(cfg, ins, round, step.box, names + {author});
    hide Sourced, TimeoutBox, NoVotesBox, Carries, NameBoxFits, AddName, NoVoteBox;
    assert Named(cfg, ins, t);
    NoVoteLogged(cfg, ins, s, t, step);
  }

  lemma NoVoteLogged(cfg: CoreConfig, ins: set<Input>, s: CoreState, t: CoreState, step: NameStep)
    requires Sourced(cfg, ins, s) && Named(cfg, ins, t)
    requires t == s.(noVotes := t.noVotes)
    requires step.reply.Yield? ==> Carries(cfg.committee, step.reply.value.names)
    requires step.reply.Yield? ==>
      forall a :: a in NameSet(step.reply.value.names) ==> NoVoteCame(cfg, ins, a, step.reply.value.round)
    ensures Traced(cfg, ins, t)
    ensures step.reply.Yield? ==> Traced(cfg, ins, Log(t, NoVoteQuorum(step.reply.value)))
  {
    hide HeaderCame, Carries, TimeoutBox, NoVotesBox, NoVoteCame;
    if step.reply.Yield? {
      var o := NoVoteQuorum(step.reply.value);
      LogSource(cfg, ins, t, Log(t, o), o);
      QuorumLogged(cfg, ins, t, o);
    }
  }

  lemma OwnTraced(cfg: CoreConfig, ins: set<Input>, s: CoreState, h: Proposal)
    requires Traced(cfg, ins, s) && OwnHeader(h) in ins
    ensures var t := s.(current := h, votes := EMPTY_VOTES);
      Traced(cfg, ins, t) && HasCurrent(ins, t)
  {}

  lemma CurrentKnown(cfg: CoreConfig, ins: set<Input>, s: CoreState)
    requires Traced(cfg, ins, s)
    ensures s.current == NO_HEADER || HasCurrent(ins, s)
  {}

  lemma OwnIsReady(cfg: CoreConfig, ins: set<Input>, s: CoreState, h: Proposal)
    requires CurrentOwn(ins, s)
    requires h.author == cfg.name ==> OwnHeader(h) in ins
    ensures OwnReady(cfg, ins, s, h)
  {}

  /** An input other than our own header. */
  lemma OutsideTraced(cfg: CoreConfig, ins: set<Input>, s: CoreState, i: Input)
    requires cfg.committee.Valid() && cfg.committee.Stake(cfg.name) > 0
    requires Traced(cfg, ins, s) && CurrentOwn(ins, s) && i in ins && !i.OwnHeader?
    requires Plausible(cfg, ins, i) && Sane(cfg, s, i)
    ensures StaysTraced(cfg, ins, s, Handle(cfg, s, i).state)
  {
    hide Traced, ProcessHeader, ProcessVote, ProcessCertificate, ProcessTimeout, ProcessNoVote, CurrentOwn, OwnReady,
      Acceptable;
    match i
    case NetHeader(h) =>
      OwnIsReady(cfg, ins, s, h);
      ProcessHeaderTraced(cfg, ins, s, h);
    case LoopHeader(h) =>
      OwnIsReady(cfg, ins, s, h);
      ProcessHeaderTraced(cfg, ins, s, h);
    case NetCertificate(c) =>
      OwnIsReady(cfg, ins, s, c.header);
      assert CertificateCame(ins, c);
      ProcessCertificateTraced(cfg, ins, s, c);
    case LoopCertificate(c) =>
      OwnIsReady(cfg, ins, s, c.header);
      assert CertificateCame(ins, c);
      ProcessCertificateTraced(cfg, ins, s, c);
    case NetVote(b, a) =>
      CurrentKnown(cfg, ins, s);
      ProcessVoteTraced(cfg, ins, s, b.round, a);
    case NetTimeout(a, r) => TimeoutTraced(cfg, ins, s, a, r);
    case OwnTimeout(r) => TimeoutTraced(cfg, ins, s, cfg.name, r);
    case NetNoVote(a, r) => NoVoteTraced(cfg, ins, s, a, r);
    case OwnNoVote(_) =>
    case PayloadStored(id) => PayloadTraced(cfg, ins, s, s.payloads + {id});
  }

  lemma PayloadTraced(cfg: CoreConfig, ins: set<Input>, s: CoreState, payloads: set<nat>)
    requires Traced(cfg, ins, s)
    ensures Traced(cfg, ins, s.(payloads := payloads))
  {}

  lemma HandleTraced(cfg: CoreConfig, ins: set<Input>, s: CoreState, i: Input)
    requires cfg.committee.Valid() && cfg.committee.Stake(cfg.name) > 0
    requires Traced(cfg, ins, s) && CurrentOwn(ins, s) && Plausible(cfg, ins, i)
    ensures var t := Handle(cfg, s, i).state;
      Traced(cfg, ins + {i}, t) && CurrentOwn(ins + {i}, t)
  {
    hide Traced, ProcessHeader, Acceptable;
    var more := ins + {i};
    TracedMore(cfg, ins, more, s);
    match i
    case OwnHeader(h) =>
      var own := s.(current := h, votes := EMPTY_VOTES);
      OwnTraced(cfg, more, s, h);
      assert HeaderCame(more, h);
      ProcessHeaderTraced(cfg, more, own, h);
    case _ =>
      CurrentStays(ins, s, i);
      if Sane(cfg, s, i) {
        PlausibleMore(cfg, ins, more, i);
        OutsideTraced(cfg, more, s, i);
      }
  }

  lemma CurrentStays(ins: set<Input>, s: CoreState, i: Input)
    requires CurrentOwn(ins, s) && !i.OwnHeader?
    ensures CurrentOwn(ins + {i}, s)
  {}

  lemma PlausibleMore(cfg: CoreConfig, ins: set<Input>, more: set<Input>, i: Input)
    requires Plausible(cfg, ins, i) && ins <= more
    ensures Plausible(cfg, more, i)
  {}

  lemma CleanupTraced(cfg: CoreConfig, ins: set<Input>, s: CoreState, consensusRound: Round)
    requires Traced(cfg, ins, s)
    ensures StaysTraced(cfg, ins, s, Cleanup(cfg, s, consensusRound))
  {
    hide LogSourced, GoodMessages, MessagesDelivered, BoxGathered, QuorumsLogged, TimeoutBox, NoVotesBox;
  }

  ghost predicate PlausibleRun(cfg: CoreConfig, ticks: seq<Tick>) {
    forall k :: 0 <= k < |ticks| ==> Plausible(cfg, Inputs(ticks[..k]), ticks[k].input)
  }

  lemma InputsAdd(ticks: seq<Tick>, tick: Tick)
    ensures Inputs(ticks + [tick]) == Inputs(ticks) + {tick.input}
  {
    var all := ticks + [tick];
    forall i ensures i in Inputs(all) <==> i in Inputs(ticks) + {tick.input} {
      if i in Inputs(ticks) {
        var k :| 0 <= k < |ticks| && ticks[k].input == i;
        assert all[k].input == i;
      }
      assert all[|ticks|] == tick;
    }
  }

  lemma InitTraced(cfg: CoreConfig)
    ensures Traced(cfg, {}, INIT_CORE) && CurrentOwn({}, INIT_CORE)
  {}

  lemma PlausiblePrefix(cfg: CoreConfig, ticks: seq<Tick>)
    requires PlausibleRun(cfg, ticks) && ticks != []
    ensures var before := ticks[..|ticks| - 1];
      PlausibleRun(cfg, before) && Plausible(cfg, Inputs(before), ticks[|ticks| - 1].input)
  {
    hide Plausible, Inputs;
    var before := ticks[..|ticks| - 1];
    forall k | 0 <= k < |before| ensures Plausible(cfg, Inputs(before[..k]), before[k].input) {
      assert before[..k] == ticks[..k];
    }
  }

  lemma TickTraced(cfg: CoreConfig, ins: set<Input>, s: CoreState, tick: Tick)
    requires cfg.committee.Valid() && cfg.committee.Stake(cfg.name) > 0
    requires Traced(cfg, ins, s) && CurrentOwn(ins, s) && Plausible(cfg, ins, tick.input)
    ensures var t := OnTick(cfg, s, tick).state;
      Traced(cfg, ins + {tick.input}, t) && CurrentOwn(ins + {tick.input}, t)
  {
    hide Traced, Handle, Cleanup, CurrentOwn, Plausible;
    HandleTraced(cfg, ins, s, tick.input);
    var t := Handle(cfg, s, tick.input).state;
    CleanupTraced(cfg, ins + {tick.input}, t, tick.consensusRound);
    SameCurrent(ins + {tick.input}, t, Cleanup(cfg, t, tick.consensusRound));
  }

  /** On every run, everything the core sends out is traced to what came in. */
  lemma {:induction false} RunTraced(cfg: CoreConfig, ticks: seq<Tick>)
    requires cfg.committee.Valid() && cfg.committee.Stake(cfg.name) > 0 && PlausibleRun(cfg, ticks)
    ensures Traced(cfg, Inputs(ticks), Run(cfg, ticks).state)
    ensures Run(cfg, ticks).outcome != Panicked ==> CurrentOwn(Inputs(ticks), Run(cfg, ticks).state)
    decreases |ticks|
  {
    hide Traced, OnTick, CurrentOwn, PlausibleRun, Plausible;
    if ticks == [] {
      InitTraced(cfg);
      assert Inputs(ticks) == {};
    } else {
      hide Inputs;
      var before := ticks[..|ticks| - 1];
      var tick := ticks[|ticks| - 1];
      PlausiblePrefix(cfg, ticks);
      RunTraced(cfg, before);
      assert ticks == before + [tick];
      InputsAdd(before, tick);
      var b := Run(cfg, before);
      if b.outcome == Panicked {
        TracedMore(cfg, Inputs(before), Inputs(ticks), b.state);
      } else {
        TickTraced(cfg, Inputs(before), b.state, tick);
      }
    }
  }

  lemma SameCurrent(ins: set<Input>, s: CoreState, t: CoreState)
    requires CurrentOwn(ins, s) && t.current == s.current
    ensures CurrentOwn(ins, t)
  {}
}
