/** Leader agreement from the primaries' code up: what the cores of a deployment feed to consensus is an
    admissible run over the deployment's world. */
module EndToEnd {
  import opened Config
  import opened Dag
  import opened Ordering
  import opened Invariants
  import opened Runs
  import opened Agreement
  import opened OutputAgreement
  import opened Messages
  import opened Processing
  import opened CoreRuns
  import opened CoreSources
  import opened Deployment

  // ---------- what consensus has received ----------

  function CertificatesIn(events: seq<Event>): seq<Vertex> {
    if events == [] then []
    else
      var e := events[|events| - 1];
      CertificatesIn(events[..|events| - 1]) + if e.NewCertificate? then [e.vertex] else []
  }

  function DeliveriesIn(log: seq<Output>): seq<Vertex> {
    if log == [] then []
    else
      var o := log[|log| - 1];
      DeliveriesIn(log[..|log| - 1]) + if o.Delivered? then [o.certificate.AsVertex()] else []
  }

  function HeardIn(events: seq<Event>): set<(Author, Round)> {
    set i | 0 <= i < |events| && events[i].NewHeader? :: (events[i].header.author, events[i].header.round)
  }

  ghost predicate Tracks(cfg: Setup, n: Node, events: seq<Event>) {
    && n.heard == HeardIn(events)
    && forall v :: v in n.delivered <==> v in Genesis(cfg.committee) || v in CertificatesIn(events)
  }

  lemma StepTracks(cfg: Setup, n: Node, e: Event)
    requires cfg.committee.Valid()
    ensures Step(cfg, n, e).delivered == n.delivered + if e.NewCertificate? then {e.vertex} else {}
    ensures Step(cfg, n, e).heard == n.heard + if e.NewHeader? then {(e.header.author, e.header.round)} else {}
  {
    hide Commit, AfterHeader;
    match e
    case NewCertificate(v) =>
      var leader := OnCertificateCases(cfg, n, v);
      if leader.Some? {
        CommitFrame(cfg, Received(n, v), leader.value);
      }
    case NewHeader(h) =>
      var leader, commits := OnHeaderCases(cfg, n, h);
      if leader.Some? {
        var m := AfterHeader(cfg, n, h, leader.value);
        assert m.heard == n.heard + {(h.author, h.round)} &&
          m.delivered == n.delivered by { HeardFrame(cfg, n, h, leader.value); }
        CommitFrame(cfg, m, leader.value);
      }
  }

  lemma HeardFrame(cfg: Setup, n: Node, h: Header, leader: Vertex)
    ensures AfterHeader(cfg, n, h, leader).heard == n.heard + {(h.author, h.round)}
    ensures AfterHeader(cfg, n, h, leader).delivered == n.delivered
  {}

  lemma {:induction false} ExecTracks(cfg: Setup, events: seq<Event>)
    requires cfg.committee.Valid()
    ensures Tracks(cfg, Exec(cfg, events), events)
    decreases |events|
  {
    hide Step, Genesis;
    if events == [] {
      assert HeardIn(events) == {};
    } else {
      var before := events[..|events| - 1];
      var e := events[|events| - 1];
      ExecTracks(cfg, before);
      StepTracks(cfg, Exec(cfg, before), e);
      assert HeardIn(events) == HeardIn(before) + if e.NewHeader? then {(e.header.author, e.header.round)} else {} by {
        HeardAdd(before, e);
        assert events == before + [e];
      }
    }
  }

  lemma HeardAdd(events: seq<Event>, e: Event)
    ensures HeardIn(events + [e]) == HeardIn(events) + if e.NewHeader? then {(e.header.author, e.header.round)} else {}
  {
    var all := events + [e];
    forall x ensures x in HeardIn(all) <==>
      x in HeardIn(events) + if e.NewHeader? then {(e.header.author, e.header.round)} else {}
    {
      if x in HeardIn(events) {
        var i :| 0 <= i < |events| && events[i].NewHeader? && (events[i].header.author, events[i].header.round) == x;
        assert all[i] == events[i];
      }
      assert all[|events|] == e;
    }
  }

  // ---------- the stream ----------

  predicate SameHeader(p: Proposal, h: Header) {
    p.author == h.author && p.round == h.round && p.parents == h.parents
  }

  ghost predicate ForwardedHeader(log: seq<Output>, h: Header) {
    exists p: Proposal :: Forwarded(p) in log && SameHeader(p, h)
  }

  /** Consensus received its certificates in the order its core sent them, and only headers its core sent;
      each author's header of a round at most once. The two channels may be interleaved in any way. */
  ghost predicate Fed(d: Sites, a: Author, events: seq<Event>)
    requires Sized(d) && a in d.sites
  {
    && CertificatesIn(events) <= DeliveriesIn(CoreLog(d, a))
    && (forall i :: 0 <= i < |events| && events[i].NewHeader? ==> ForwardedHeader(CoreLog(d, a), events[i].header))
    && (forall i, j :: 0 <= i < j < |events| && events[i].NewHeader? && events[j].NewHeader? ==>
          events[i].header.author != events[j].header.author || events[i].header.round != events[j].header.round)
  }

  lemma {:induction false} DeliveryAt(log: seq<Output>, k: nat) returns (j: nat)
    requires k < |DeliveriesIn(log)|
    ensures j < |log| && log[j].Delivered? && log[j].certificate.AsVertex() == DeliveriesIn(log)[k]
    ensures DeliveriesIn(log[..j]) == DeliveriesIn(log)[..k]
  {
    var last := |log| - 1;
    var before := DeliveriesIn(log[..last]);
    if k < |before| {
      j := DeliveryAt(log[..last], k);
      assert log[..last][..j] == log[..j];
      assert DeliveriesIn(log)[..k] == before[..k];
    } else {
      j := last;
      assert DeliveriesIn(log)[..k] == before;
    }
  }

  lemma {:induction false} DeliveredBefore(log: seq<Output>, j: nat)
    requires j < |log| && log[j].Delivered?
    ensures log[j].certificate.AsVertex() in DeliveriesIn(log)
  {
    var last := |log| - 1;
    if j < last {
      assert log[..last][j] == log[j];
      DeliveredBefore(log[..last], j);
    }
  }

  /** Every header sent to consensus is one its author proposed. */
  lemma ForwardedReal(d: Sites, a: Author, p: Proposal)
    requires Linked(d) && a in d.sites && Forwarded(p) in CoreLog(d, a)
    ensures HeaderReal(d, p)
  {
    SiteTraced(d, a);
    var ins := Inputs(d.sites[a].ticks);
    assert HeaderCame(ins, p);
    assert Channels(d, a) && Authentic(d, a);
    hide Linked, Traced;
    if OwnHeader(p) in ins {
      SlotAuthor(d, a, p);
    } else if !(NetHeader(p) in ins || LoopHeader(p) in ins) {
      var cert: Certificate :| CertificateCame(ins, cert) && cert.header == p;
      AssembledReal(d, cert.header.author, cert);
    }
  }

  lemma DeliveredInWorld(d: Sites, a: Author, cert: Certificate)
    requires Linked(d) && a in d.sites && Delivered(cert) in CoreLog(d, a)
    ensures Has(WorldOf(d).dag, cert.AsVertex()) && cert.header.round > 0
  {
    hide WorldOf, Certified, HeadersOf;
    DeliveredReal(d, a, cert);
    IsCertified(d, cert);
    WorldHas(d, cert.AsVertex());
  }

  /** The parents of a certificate sent to consensus were sent before it, or are genesis. */
  lemma ParentSent(d: Sites, a: Author, j: nat, p: Vertex)
    requires Linked(d) && a in d.sites
    requires j < |CoreLog(d, a)| && CoreLog(d, a)[j].Delivered?
    requires Has(WorldOf(d).dag, p) && p.Digest() in CoreLog(d, a)[j].certificate.header.parents
    ensures p in Genesis(d.committee) || p in DeliveriesIn(CoreLog(d, a)[..j])
  {
    var log := CoreLog(d, a);
    WorldHas(d, p);
    if p !in Genesis(d.committee) {
      var cert := CertifiedIs(d, p);
      assert !GenesisDigest(d.committee, p.Digest());
      CausalStream(CoreOf(d, a), d.sites[a].ticks, j, p.Digest());
      var i :| 0 <= i < j && log[i].Delivered? && log[i].certificate.Digest() == p.Digest();
      DeliveredInWorld(d, a, log[i].certificate);
      assert log[i].certificate.AsVertex() == p;
      DeliveredBefore(log[..j], i);
    }
  }

  lemma FedPrefix(d: Sites, a: Author, events: seq<Event>)
    requires Sized(d) && a in d.sites && Fed(d, a, events) && events != []
    ensures Fed(d, a, events[..|events| - 1])
  {
    hide CoreLog, ForwardedHeader, DeliveriesIn;
    var before := events[..|events| - 1];
    assert CertificatesIn(before) <= CertificatesIn(events);
  }

  /** The next certificate comes after its parents. */
  lemma NextCertificate(d: Sites, a: Author, before: seq<Event>, v: Vertex, delivered: set<Vertex>)
    requires Linked(d) && a in d.sites
    requires CertificatesIn(before) + [v] <= DeliveriesIn(CoreLog(d, a))
    requires forall x :: x in Genesis(d.committee) || x in CertificatesIn(before) ==> x in delivered
    ensures Has(WorldOf(d).dag, v) && v.round > 0 && ParentsDelivered(WorldOf(d), v, delivered)
  {
    var log := CoreLog(d, a);
    var k := |CertificatesIn(before)|;
    assert (CertificatesIn(before) + [v])[k] == v;
    hide Linked, WorldOf, CoreLog;
    var j := DeliveryAt(log, k);
    assert DeliveriesIn(log)[..k] == CertificatesIn(before);
    assert Delivered(log[j].certificate) in log;
    DeliveredInWorld(d, a, log[j].certificate);
    forall p | Has(WorldOf(d).dag, p) && Steps(v, p) ensures p in delivered {
      ParentSent(d, a, j, p);
    }
  }

  lemma NextHeader(d: Sites, a: Author, h: Header)
    requires Linked(d) && a in d.sites && ForwardedHeader(CoreLog(d, a), h)
    ensures Invariants.Proposed(WorldOf(d), h.author, h.round) == Some(h.parents)
  {
    var p: Proposal :| Forwarded(p) in CoreLog(d, a) && SameHeader(p, h);
    hide Linked, WorldOf, CoreLog, HeaderReal;
    ForwardedReal(d, a, p);
    WorldProposes(d, p);
  }

  /** What a core feeds to consensus is an admissible run over the deployment's world. */
  lemma {:induction false} FedIsValid(d: Sites, a: Author, events: seq<Event>)
    requires Linked(d) && a in d.sites && Fed(d, a, events)
    ensures WorldOf(d).setup == Setup(d.committee, d.gcDepth) && d.committee.Valid()
    ensures ValidRun(WorldOf(d), events)
    decreases |events|
  {
    WorldSetup(d);
    if events != [] {
      var before := events[..|events| - 1];
      FedPrefix(d, a, events);
      FedIsValid(d, a, before);
      FedAdmits(d, a, events);
    }
  }

  lemma FedLast(d: Sites, a: Author, events: seq<Event>)
    requires Sized(d) && a in d.sites && Fed(d, a, events) && events != []
    ensures var before := events[..|events| - 1];
      var e := events[|events| - 1];
      && (e.NewCertificate? ==> CertificatesIn(before) + [e.vertex] <= DeliveriesIn(CoreLog(d, a)))
      && (e.NewHeader? ==> ForwardedHeader(CoreLog(d, a), e.header))
      && (e.NewHeader? ==> (e.header.author, e.header.round) !in HeardIn(before))
  {
    hide CoreLog, ForwardedHeader, DeliveriesIn;
    if events[|events| - 1].NewHeader? {
      NotHeardYet(events[..|events| - 1], events[|events| - 1]);
    }
  }

  lemma CertificateAdmits(d: Sites, a: Author, before: seq<Event>, n: Node, v: Vertex)
    requires Linked(d) && a in d.sites
    requires Tracks(Setup(d.committee, d.gcDepth), n, before)
    requires CertificatesIn(before) + [v] <= DeliveriesIn(CoreLog(d, a))
    ensures Admissible(WorldOf(d), n, NewCertificate(v))
  {
    hide Linked, WorldOf, CoreLog, ParentsDelivered, Genesis;
    NextCertificate(d, a, before, v, n.delivered);
  }

  lemma HeaderAdmits(d: Sites, a: Author, before: seq<Event>, n: Node, h: Header)
    requires Linked(d) && a in d.sites
    requires Tracks(Setup(d.committee, d.gcDepth), n, before)
    requires ForwardedHeader(CoreLog(d, a), h) && (h.author, h.round) !in HeardIn(before)
    ensures Admissible(WorldOf(d), n, NewHeader(h))
  {
    hide Linked, WorldOf, CoreLog, ForwardedHeader, Genesis;
    NextHeader(d, a, h);
  }

  lemma FedAdmits(d: Sites, a: Author, events: seq<Event>)
    requires Linked(d) && a in d.sites && Fed(d, a, events) && events != []
    ensures d.committee.Valid()
    ensures var n := Exec(Setup(d.committee, d.gcDepth), events[..|events| - 1]);
      Admissible(WorldOf(d), n, events[|events| - 1])
  {
    hide Linked, WorldOf, CoreLog, ForwardedHeader, Fed, Exec, Tracks, Admissible;
    LinkedSized(d);
    var before := events[..|events| - 1];
    var n := Exec(Setup(d.committee, d.gcDepth), before);
    ExecTracks(Setup(d.committee, d.gcDepth), before);
    FedLast(d, a, events);
    match events[|events| - 1]
    case NewCertificate(v) => CertificateAdmits(d, a, before, n, v);
    case NewHeader(h) => HeaderAdmits(d, a, before, n, h);
  }

  lemma NotHeardYet(before: seq<Event>, e: Event)
    requires e.NewHeader?
    requires forall i :: 0 <= i < |before| && before[i].NewHeader? ==>
      before[i].header.author != e.header.author || before[i].header.round != e.header.round
    ensures (e.header.author, e.header.round) !in HeardIn(before)
  {}

  /** End to end: in any deployment whose primaries follow the code, whatever crashes and however messages
      are delayed, any two nodes commit the same leaders in the same order. */
  lemma NodesAgree(d: Sites, a: Author, b: Author, eventsA: seq<Event>, eventsB: seq<Event>)
    requires Linked(d) && a in d.sites && b in d.sites
    requires Fed(d, a, eventsA) && Fed(d, b, eventsB)
    ensures d.committee.Valid()
    ensures var cfg := Setup(d.committee, d.gcDepth);
      Exec(cfg, eventsA).leaders <= Exec(cfg, eventsB).leaders ||
        Exec(cfg, eventsB).leaders <= Exec(cfg, eventsA).leaders
  {
    hide Linked, WorldOf, Fed, Voting;
    LinkedSized(d);
    FedIsValid(d, a, eventsA);
    FedIsValid(d, b, eventsB);
    WorldVotes(d);
    LeaderAgreement(WorldOf(d), eventsA, eventsB);
  }

  /** And the same whole outputs, if nothing stale is delivered and no commit finds one of its certificates
      dropped; between a node that found none dropped and one not ahead of it, just then. */
  lemma NodesOutputAlike(d: Sites, a: Author, b: Author, eventsA: seq<Event>, eventsB: seq<Event>)
    requires Linked(d) && a in d.sites && b in d.sites
    requires Fed(d, a, eventsA) && Fed(d, b, eventsB)
    requires WorldOf(d).setup.committee.Valid() && NoneStale(WorldOf(d), eventsA) && NoneStale(WorldOf(d), eventsB)
    requires NothingMissed(WorldOf(d), eventsB)
    ensures d.committee.Valid()
    ensures var n := Exec(Setup(d.committee, d.gcDepth), eventsA);
      var m := Exec(Setup(d.committee, d.gcDepth), eventsB);
      && (NothingMissed(WorldOf(d), eventsA) ==> n.output <= m.output || m.output <= n.output)
      && (|n.leaders| <= |m.leaders| ==>
            (n.output <= m.output || m.output <= n.output <==> NothingMissed(WorldOf(d), eventsA)))
  {
    hide Linked, WorldOf, Fed, Voting, NothingMissed, NoneStale;
    LinkedSized(d);
    FedIsValid(d, a, eventsA);
    FedIsValid(d, b, eventsB);
    WorldVotes(d);
    if NothingMissed(WorldOf(d), eventsA) {
      FullOutputAgreement(WorldOf(d), eventsA, eventsB);
    }
    if |Exec(WorldOf(d).setup, eventsA).leaders| <= |Exec(WorldOf(d).setup, eventsB).leaders| {
      AgreementExact(WorldOf(d), eventsA, eventsB);
    }
  }
}
