/** A whole deployment in which every primary follows the code: the world the ordering theorems assume is
    the one its proposers and cores produce. */
module Deployment {
  import opened Config
  import opened Dag
  import opened Ordering
  import opened Invariants
  import opened Agreement
  import opened Messages
  import opened Aggregators
  import opened Processing
  import opened CoreRuns
  import opened Proposing
  import opened ProposerRuns
  import opened CoreSources

  /** What one primary went through: the turns of its core and the passes of its proposer. Crashes and
      delays only make these shorter or later. */
  datatype Site = Site(ticks: seq<Tick>, passes: seq<Pass>)

  datatype Sites = Sites(committee: Committee, gcDepth: nat, headerSize: nat, sites: map<Author, Site>)

  ghost predicate Sized(d: Sites) {
    && d.committee.Valid()
    && d.sites.Keys == d.committee.Names()
    && forall a :: a in d.sites ==> d.committee.Stake(a) > 0
  }

  function CoreOf(d: Sites, a: Author): CoreConfig {
    CoreConfig(a, d.committee, d.gcDepth)
  }

  function ProposerOf(d: Sites, a: Author): ProposerConfig {
    ProposerConfig(a, d.committee, d.headerSize)
  }

  ghost function CoreLog(d: Sites, a: Author): seq<Output>
    requires Sized(d) && a in d.sites
  {
    Run(CoreOf(d, a), d.sites[a].ticks).state.log
  }

  ghost function ProposerLog(d: Sites, a: Author): seq<Sent>
    requires Sized(d) && a in d.sites
  {
    RunProposer(ProposerOf(d, a), d.sites[a].passes).log
  }

  // ---------- channels and authenticity ----------

  /** The messages about parents, as sent and as received. */
  function ParentsSent(log: seq<Output>): seq<Message> {
    if log == [] then []
    else
      var o := log[|log| - 1];
      ParentsSent(log[..|log| - 1]) + if o.NewParents? then [Parents(o.certificates, o.round)] else []
  }

  function ParentsHeard(passes: seq<Pass>): seq<Message> {
    if passes == [] then []
    else
      var m := passes[|passes| - 1].message;
      ParentsHeard(passes[..|passes| - 1]) + if m.Parents? then [m] else []
  }

  /** Between core and proposer: parents arrive in the order sent; certificates and headers arrive only if
      sent. */
  ghost predicate Channels(d: Sites, a: Author)
    requires Sized(d) && a in d.sites
  {
    var passes, ins := d.sites[a].passes, Inputs(d.sites[a].ticks);
    && ParentsHeard(passes) <= ParentsSent(CoreLog(d, a))
    && (forall cert: QuorumCert :: HeardCert(passes, TimeoutCertificate(cert)) ==> TimeoutQuorum(cert) in CoreLog(d, a))
    && (forall cert: QuorumCert :: HeardCert(passes, NoVoteCertificate(cert)) ==> NoVoteQuorum(cert) in CoreLog(d, a))
    && (forall h: Proposal :: OwnHeader(h) in ins ==> Proposing.Proposed(h) in ProposerLog(d, a))
  }

  ghost predicate CertificateReal(d: Sites, cert: Certificate)
    requires Sized(d)
  {
    var b := cert.header.author;
    b in d.sites && Assembled(cert) in CoreLog(d, b)
  }

  ghost predicate HeaderReal(d: Sites, h: Proposal)
    requires Sized(d)
  {
    h.author in d.sites && Proposing.Proposed(h) in ProposerLog(d, h.author)
  }

  /** Between primaries: signed messages come from whom they say. */
  ghost predicate Authentic(d: Sites, a: Author)
    requires Sized(d) && a in d.sites
  {
    var ins := Inputs(d.sites[a].ticks);
    && (forall cert: Certificate :: CertificateCame(ins, cert) ==> CertificateReal(d, cert))
    && (forall h: Proposal :: NetHeader(h) in ins || LoopHeader(h) in ins ==> HeaderReal(d, h))
    && (forall b: Author, r: Round :: NetNoVote(b, r) in ins ==> b in d.sites && SentNoVote(r) in ProposerLog(d, b))
  }

  ghost predicate Linked(d: Sites) {
    && Sized(d)
    && forall a :: a in d.sites ==>
         && Rising(d.sites[a].ticks) && PlausibleRun(CoreOf(d, a), d.sites[a].ticks)
         && Channels(d, a) && Authentic(d, a)
  }

  lemma LinkedSized(d: Sites)
    requires Linked(d)
    ensures Sized(d)
  {}

  // ---------- certificates are of proposed headers ----------

  lemma SiteTraced(d: Sites, a: Author)
    requires Linked(d) && a in d.sites
    ensures Traced(CoreOf(d, a), Inputs(d.sites[a].ticks), Run(CoreOf(d, a), d.sites[a].ticks).state)
  {
    RunTraced(CoreOf(d, a), d.sites[a].ticks);
  }

  /** A certificate is assembled by the author of its header, for a header its proposer made. */
  lemma AssembledReal(d: Sites, a: Author, cert: Certificate)
    requires Linked(d) && a in d.sites && Assembled(cert) in CoreLog(d, a)
    ensures cert.header.author == a && cert.header.round > 0
    ensures CertificateReal(d, cert) && HeaderReal(d, cert.header)
  {
    hide PlausibleRun, Rising, ParentsHeard, ParentsSent;
    SiteTraced(d, a);
    assert OwnHeader(cert.header) in Inputs(d.sites[a].ticks);
    RunHeard(ProposerOf(d, a), d.sites[a].passes);
    assert FromHeard(ProposerOf(d, a), d.sites[a].passes, cert.header);
  }

  /** Whatever a core sends to consensus was assembled by its author. */
  lemma DeliveredReal(d: Sites, a: Author, cert: Certificate)
    requires Linked(d) && a in d.sites && Delivered(cert) in CoreLog(d, a)
    ensures CertificateReal(d, cert) && cert.header.round > 0
  {
    hide PlausibleRun, Rising, ParentsHeard, ParentsSent;
    SiteTraced(d, a);
    if Assembled(cert) in CoreLog(d, a) {
      AssembledReal(d, a, cert);
    } else {
      assert CertificateCame(Inputs(d.sites[a].ticks), cert);
      AssembledReal(d, cert.header.author, cert);
    }
  }

  // ---------- what the proposer hears is good ----------

  /** The k-th message about parents stands somewhere in the log, after exactly the k before it. */
  lemma {:induction false} SentAt(log: seq<Output>, k: nat) returns (j: nat)
    requires k < |ParentsSent(log)|
    ensures j < |log| && log[j].NewParents?
    ensures ParentsSent(log)[k] == Parents(log[j].certificates, log[j].round)
    ensures ParentsSent(log[..j]) == ParentsSent(log)[..k]
  {
    var last := |log| - 1;
    var before := ParentsSent(log[..last]);
    if k < |before| {
      j := SentAt(log[..last], k);
      assert log[..last][..j] == log[..j];
      assert ParentsSent(log)[..k] == before[..k];
    } else {
      j := last;
      assert ParentsSent(log)[..k] == before;
    }
  }

  lemma {:induction false} ToldIsSent(log: seq<Output>, r: Round) returns (k: nat)
    requires ToldParents(log, r)
    ensures k < |ParentsSent(log)| && ParentsSent(log)[k].Parents? && ParentsSent(log)[k].round == r
  {
    var last := |log| - 1;
    if log[last].NewParents? && log[last].round == r {
      k := |ParentsSent(log[..last])|;
    } else {
      var i :| 0 <= i < |log| && log[i].NewParents? && log[i].round == r;
      assert log[..last][i] == log[i];
      k := ToldIsSent(log[..last], r);
    }
  }

  lemma {:induction false} HeardAt(passes: seq<Pass>, k: nat) returns (i: nat)
    requires k < |ParentsHeard(passes)|
    ensures i < |passes| && passes[i].message == ParentsHeard(passes)[k] && passes[i].message.Parents?
  {
    var last := |passes| - 1;
    if k < |ParentsHeard(passes[..last])| {
      i := HeardAt(passes[..last], k);
    } else {
      i := last;
    }
  }

  lemma {:induction false} HeardPrefix(passes: seq<Pass>, i: nat)
    requires i <= |passes|
    ensures ParentsHeard(passes[..i]) <= ParentsHeard(passes)
    ensures i < |passes| && passes[i].message.Parents? ==>
      ParentsHeard(passes[..i + 1]) == ParentsHeard(passes[..i]) + [passes[i].message]
  {
    if i < |passes| {
      var last := |passes| - 1;
      HeardPrefix(passes[..last], i);
      assert passes[..last][..i] == passes[..i];
      assert passes[..i + 1][..i] == passes[..i];
    } else {
      assert passes[..i] == passes;
    }
  }

  /** A message the proposer heard, found where the core sent it: nothing about its round was sent before,
      if nothing about it was heard before. */
  lemma HeardWasSent(d: Sites, a: Author, i: nat) returns (j: nat)
    requires Sized(d) && a in d.sites && Channels(d, a)
    requires i < |d.sites[a].passes| && d.sites[a].passes[i].message.Parents?
    ensures var log := CoreLog(d, a);
      var passes := d.sites[a].passes;
      && j < |log| && log[j].NewParents? && passes[i].message == Parents(log[j].certificates, log[j].round)
      && (FirstOfRound(passes, i, log[j].round) ==> !ToldParents(log[..j], log[j].round))
  {
    var log, passes := CoreLog(d, a), d.sites[a].passes;
    HeardPrefix(passes, i);
    HeardPrefix(passes, i + 1);
    var k := |ParentsHeard(passes[..i])|;
    assert ParentsHeard(passes[..i + 1])[k] == passes[i].message;
    j := SentAt(log, k);
    assert ParentsSent(log[..j]) == ParentsHeard(passes[..i]);
    if FirstOfRound(passes, i, log[j].round) && ToldParents(log[..j], log[j].round) {
      var m := ToldIsSent(log[..j], log[j].round);
      var x := HeardAt(passes[..i], m);
    }
  }

  lemma MessageGood(d: Sites, a: Author, j: nat)
    requires Linked(d) && a in d.sites && j < |CoreLog(d, a)| && CoreLog(d, a)[j].NewParents?
    ensures GoodMessage(d.committee, CoreLog(d, a), j) && AllDelivered(CoreLog(d, a), CoreLog(d, a)[j].certificates)
    ensures CoreLog(d, a)[j].round > 0
  {
    hide PlausibleRun, Rising, ParentsHeard, ParentsSent, ToldParents;
    SiteTraced(d, a);
    var log := CoreLog(d, a);
    assert GoodMessage(d.committee, log, j);
    DeliveredReal(d, a, log[j].certificates[0]);
  }

  lemma CertsGood(d: Sites, a: Author)
    requires Linked(d) && a in d.sites
    ensures forall cert: QuorumCert :: TimeoutQuorum(cert) in CoreLog(d, a) ==> Carries(d.committee, cert.names)
    ensures forall cert: QuorumCert :: NoVoteQuorum(cert) in CoreLog(d, a) ==>
      Carries(d.committee, cert.names) && forall n :: n in NameSet(cert.names) ==>
        NoVoteCame(CoreOf(d, a), Inputs(d.sites[a].ticks), n, cert.round)
  {
    hide PlausibleRun, Rising, ParentsHeard, ParentsSent, Carries, NoVoteCame;
    SiteTraced(d, a);
  }

  /** The proposer's inputs are as its theorems require. */
  lemma InputsGood(d: Sites, a: Author)
    requires Linked(d) && a in d.sites
    ensures GoodInputs(d.committee, d.sites[a].passes)
  {
    var passes := d.sites[a].passes;
    CertsGood(d, a);
    assert Channels(d, a);
    forall i | 0 <= i < |passes|
      ensures passes[i].message.Parents? ==> GoodParents(d.committee, passes, i)
      ensures passes[i].message.TimeoutCertificate? ==> Carries(d.committee, passes[i].message.cert.names)
      ensures passes[i].message.NoVoteCertificate? ==> Carries(d.committee, passes[i].message.cert.names)
    {
      hide Linked, CoreLog, Carries, Authentic;
      match passes[i].message
      case Parents(_, _) =>
        var j := HeardWasSent(d, a, i);
        MessageGood(d, a, j);
      case TimeoutCertificate(cert) => assert HeardCert(passes, TimeoutCertificate(cert));
      case NoVoteCertificate(cert) => assert HeardCert(passes, NoVoteCertificate(cert));
      case _ =>
    }
  }

  // ---------- the world ----------

  /** The vertices of all certificates ever assembled. */
  ghost function Certified(d: Sites): set<Vertex>
    requires Sized(d)
  {
    set a, i | a in d.sites && 0 <= i < |CoreLog(d, a)| && CoreLog(d, a)[i].Assembled? ::
      CoreLog(d, a)[i].certificate.AsVertex()
  }

  ghost predicate OnePerSlot(s: set<Vertex>) {
    forall x, y :: x in s && y in s && x.round == y.round && x.author == y.author ==> x == y
  }

  ghost function Pick(s: set<Vertex>, r: Round, a: Author): Vertex
    requires exists v :: v in s && v.round == r && v.author == a
  {
    var v :| v in s && v.round == r && v.author == a; v
  }

  ghost function RoundsOf(s: set<Vertex>): set<Round> {
    set v | v in s :: v.round
  }

  ghost function AuthorsOf(s: set<Vertex>, r: Round): set<Author> {
    set v | v in s && v.round == r :: v.author
  }

  ghost function DagOf(s: set<Vertex>): Dag {
    map r | r in RoundsOf(s) :: map a | a in AuthorsOf(s, r) :: Pick(s, r, a)
  }

  lemma DagOfExact(s: set<Vertex>, v: Vertex)
    requires OnePerSlot(s)
    ensures WellKeyed(DagOf(s))
    ensures Has(DagOf(s), v) <==> v in s
  {}

  ghost function Slots(d: Sites): set<(Author, Round)>
    requires Sized(d)
  {
    set a, i | a in d.sites && 0 <= i < |ProposerLog(d, a)| && ProposerLog(d, a)[i].Proposed? ::
      (a, ProposerLog(d, a)[i].header.round)
  }

  predicate InSlot(log: seq<Sent>, r: Round, h: Proposal) {
    Proposing.Proposed(h) in log && h.round == r
  }

  ghost function HeadersOf(d: Sites): map<(Author, Round), seq<Digest>>
    requires Sized(d)
  {
    map slot | slot in Slots(d) ::
      assert exists h :: InSlot(ProposerLog(d, slot.0), slot.1, h) by { SlotHeld(d, slot); }
      var h :| InSlot(ProposerLog(d, slot.0), slot.1, h);
      h.parents
  }

  lemma SlotHeld(d: Sites, slot: (Author, Round))
    requires Sized(d) && slot in Slots(d)
    ensures slot.0 in d.sites && exists h :: InSlot(ProposerLog(d, slot.0), slot.1, h)
  {
    var i :| 0 <= i < |ProposerLog(d, slot.0)| && ProposerLog(d, slot.0)[i].Proposed? &&
      ProposerLog(d, slot.0)[i].header.round == slot.1;
    assert InSlot(ProposerLog(d, slot.0), slot.1, ProposerLog(d, slot.0)[i].header);
  }

  /** The world this deployment is. */
  ghost function WorldOf(d: Sites): World
    requires Sized(d)
  {
    World(Setup(d.committee, d.gcDepth), DagOf(Genesis(d.committee) + Certified(d)), HeadersOf(d))
  }

  // ---------- one certificate and one header per slot ----------

  lemma CertifiedIs(d: Sites, v: Vertex) returns (cert: Certificate)
    requires Linked(d) && v in Certified(d)
    ensures v == cert.AsVertex() && CertificateReal(d, cert) && HeaderReal(d, cert.header) && v.round > 0
  {
    var a, i :| a in d.sites && 0 <= i < |CoreLog(d, a)| && CoreLog(d, a)[i].Assembled? &&
      CoreLog(d, a)[i].certificate.AsVertex() == v;
    cert := CoreLog(d, a)[i].certificate;
    assert Assembled(cert) in CoreLog(d, a);
    AssembledReal(d, a, cert);
  }

  lemma IsCertified(d: Sites, cert: Certificate)
    requires Sized(d) && CertificateReal(d, cert)
    ensures cert.AsVertex() in Certified(d)
  {
    var a := cert.header.author;
    var i :| 0 <= i < |CoreLog(d, a)| && CoreLog(d, a)[i] == Assembled(cert);
  }

  lemma OneHeader(d: Sites, x: Proposal, y: Proposal)
    requires Linked(d) && HeaderReal(d, x) && HeaderReal(d, y)
    requires x.author == y.author && x.round == y.round
    ensures x == y
  {
    var a := x.author;
    InputsGood(d, a);
    TotalPositive(d.committee, a);
    OneHeaderPerRound(ProposerOf(d, a), d.sites[a].passes, x, y);
  }

  lemma {:induction false} StakeInTotal(entries: seq<Authority>, a: Author)
    ensures StakeIn(entries, a) <= TotalIn(entries)
  {
    if entries != [] {
      StakeInTotal(entries[1..], a);
    }
  }

  lemma TotalPositive(c: Committee, a: Author)
    requires c.Stake(a) > 0
    ensures c.Total() > 0
  {
    StakeInTotal(c.authorities, a);
  }

  lemma VerticesUnique(d: Sites)
    requires Linked(d)
    ensures OnePerSlot(Genesis(d.committee) + Certified(d))
  {
    assert Sized(d);
    hide Certified, Linked, CertificateReal, HeaderReal;
    forall x, y | x in Genesis(d.committee) + Certified(d) && y in Genesis(d.committee) + Certified(d) &&
      x.round == y.round && x.author == y.author
      ensures x == y
    {
      if x in Certified(d) && y in Certified(d) {
        var cx := CertifiedIs(d, x);
        var cy := CertifiedIs(d, y);
        OneHeader(d, cx.header, cy.header);
      } else if x in Certified(d) {
        var cx := CertifiedIs(d, x);
      } else if y in Certified(d) {
        var cy := CertifiedIs(d, y);
      }
    }
  }

  /** What is in the world's dag. */
  lemma WorldHas(d: Sites, v: Vertex)
    requires Linked(d)
    ensures WellKeyed(WorldOf(d).dag)
    ensures Has(WorldOf(d).dag, v) <==> v in Genesis(d.committee) || v in Certified(d)
  {
    assert Sized(d);
    hide Linked, Certified, DagOf;
    VerticesUnique(d);
    DagOfExact(Genesis(d.committee) + Certified(d), v);
  }

  lemma WorldProposes(d: Sites, h: Proposal)
    requires Linked(d) && HeaderReal(d, h)
    ensures Invariants.Proposed(WorldOf(d), h.author, h.round) == Some(h.parents)
  {
    assert Sized(d);
    hide Linked, DagOf, Certified;
    var log := ProposerLog(d, h.author);
    var i :| 0 <= i < |log| && log[i] == Proposing.Proposed(h);
    var slot := (h.author, h.round);
    assert slot in Slots(d);
    SlotHeld(d, slot);
    var g :| InSlot(log, h.round, g) && HeadersOf(d)[slot] == g.parents;
    SlotAuthor(d, h.author, g);
    OneHeader(d, g, h);
  }

  lemma SlotAuthor(d: Sites, a: Author, g: Proposal)
    requires Sized(d) && a in d.sites && Proposing.Proposed(g) in ProposerLog(d, a)
    ensures g.author == a && g.round > 0
  {
    RunHeard(ProposerOf(d, a), d.sites[a].passes);
    assert FromHeard(ProposerOf(d, a), d.sites[a].passes, g);
  }

  lemma WorldProposed(d: Sites, a: Author, r: Round) returns (h: Proposal)
    requires Linked(d) && Invariants.Proposed(WorldOf(d), a, r).Some?
    ensures HeaderReal(d, h) && h.author == a && h.round == r
    ensures Invariants.Proposed(WorldOf(d), a, r) == Some(h.parents)
  {
    assert Sized(d);
    hide Linked, DagOf, Certified;
    var slot := (a, r);
    assert slot in Slots(d);
    hide WorldOf, Slots, ProposerLog, Sized;
    SlotHeld(d, slot);
    h :| InSlot(ProposerLog(d, a), r, h);
    SlotAuthor(d, a, h);
    WorldProposes(d, h);
  }

  // ---------- the world is well formed ----------

  lemma GenesisHeard(c: Committee, cert: Certificate)
    requires cert in GenesisParents(c)
    ensures cert.AsVertex() in Genesis(c)
  {
    var i :| 0 <= i < |c.authorities| && GenesisParents(c)[i] == cert;
    assert c.authorities[i].name in c.Names();
  }

  /** Every certificate a proposer was handed exists. */
  lemma HeardReal(d: Sites, a: Author, cert: Certificate)
    requires Linked(d) && a in d.sites && HeardParent(d.committee, d.sites[a].passes, cert)
    ensures Has(WorldOf(d).dag, cert.AsVertex())
  {
    assert Sized(d) && Channels(d, a);
    hide Linked, Channels, WorldOf, Certified, CoreLog;
    if cert in GenesisParents(d.committee) {
      GenesisHeard(d.committee, cert);
    } else {
      var passes := d.sites[a].passes;
      var i :| 0 <= i < |passes| && passes[i].message.Parents? && cert in passes[i].message.certificates;
      var j := HeardWasSent(d, a, i);
      MessageGood(d, a, j);
      DeliveredReal(d, a, cert);
      IsCertified(d, cert);
    }
    WorldHas(d, cert.AsVertex());
  }

  /** What is known of a proposed header. */
  lemma HeaderGood(d: Sites, h: Proposal)
    requires Linked(d) && HeaderReal(d, h)
    ensures SoundHeader(d.committee, h)
    ensures FromHeard(ProposerOf(d, h.author), d.sites[h.author].passes, h)
  {
    var a := h.author;
    InputsGood(d, a);
    TotalPositive(d.committee, a);
    RunGood(ProposerOf(d, a), d.sites[a].passes);
    RunHeard(ProposerOf(d, a), d.sites[a].passes);
  }

  lemma HeaderParents(c: Committee, h: Proposal, v: Vertex)
    requires c.Valid() && SoundHeader(c, h) && v.parents == h.parents
    ensures c.Weight(ParentAuthors(v)) >= c.QuorumThreshold()
    ensures forall e :: e in h.parents ==> e.round + 1 == h.round
  {
    var certs: seq<Certificate> :| SoundParents(c, h, certs);
    CollectExact(certs);
    forall e | e in h.parents ensures e.round + 1 == h.round && e.origin in Origins(certs) {
      var i :| 0 <= i < |certs| && certs[i].Digest() == e;
    }
    forall x | x in Origins(certs) ensures x in ParentAuthors(v) {
      var i :| 0 <= i < |certs| && certs[i].header.author == x;
      assert certs[i].Digest() in v.parents;
    }
    WeightMonotone(c, Origins(certs), ParentAuthors(v));
  }

  /** Every parent listed in a proposed header is a certificate of the world. */
  lemma ParentFound(d: Sites, h: Proposal, e: Digest)
    requires Linked(d) && HeaderReal(d, h) && e in h.parents
    ensures Find(WorldOf(d).dag, e.round, e).Some?
  {
    HeaderGood(d, h);
    var passes := d.sites[h.author].passes;
    var certs: seq<Certificate> :| h.parents == Collect(certs) && AllHeard(d.committee, passes, certs);
    CollectExact(certs);
    var i :| 0 <= i < |certs| && certs[i].Digest() == e;
    hide Linked, WorldOf, SoundHeader, HeaderReal, Collect;
    HeardReal(d, h.author, certs[i]);
  }

  lemma WorldSetup(d: Sites)
    requires Linked(d)
    ensures Sized(d) && d.committee.Valid() && WorldOf(d).setup == Setup(d.committee, d.gcDepth)
  {}

  lemma ParentsFound(d: Sites, h: Proposal)
    requires Linked(d) && HeaderReal(d, h)
    ensures forall e :: e in h.parents ==> Find(WorldOf(d).dag, e.round, e).Some?
  {
    WorldSetup(d);
    hide Linked, WorldOf, HeaderReal, Sized, Find;
    forall e | e in h.parents ensures Find(WorldOf(d).dag, e.round, e).Some? {
      ParentFound(d, h, e);
    }
  }

  lemma WorldChecked(d: Sites, v: Vertex)
    requires Linked(d) && v in Certified(d)
    ensures ParentsChecked(WorldOf(d), v)
  {
    WorldSetup(d);
    var cert := CertifiedIs(d, v);
    hide Linked, WorldOf, SoundHeader, HeaderReal, Certified, CertificateReal, FromHeard, ParentAuthors, Sized, Find,
      Carries;
    ParentsFound(d, cert.header);
    HeaderGood(d, cert.header);
    HeaderParents(d.committee, cert.header, v);
  }

  lemma WorldWellFormed(d: Sites)
    requires Linked(d)
    ensures WellFormed(WorldOf(d))
  {
    var w := WorldOf(d);
    assert w.setup.committee == d.committee && d.committee.Valid();
    hide Linked, WorldOf, Certified, ParentsChecked;
    forall v ensures Has(w.dag, v) && v.round == 0 ==> v == GenesisVertex(v.author)
      ensures Has(w.dag, v) && v.round > 0 ==> ParentsChecked(w, v)
    {
      WorldHas(d, v);
      if v in Certified(d) {
        var cert := CertifiedIs(d, v);
        WorldChecked(d, v);
      }
    }
    forall a | a in d.committee.Names() ensures Has(w.dag, GenesisVertex(a)) {
      WorldHas(d, GenesisVertex(a));
    }
    WorldHas(d, GenesisVertex(0));
  }

  lemma WorldHeadersMatch(d: Sites)
    requires Linked(d)
    ensures HeadersMatch(WorldOf(d))
  {
    WorldSetup(d);
    hide Linked, WorldOf, Certified, Sized;
    forall v | Has(WorldOf(d).dag, v) && v.round > 0
      ensures Invariants.Proposed(WorldOf(d), v.author, v.round) == Some(v.parents)
    {
      WorldHas(d, v);
      var cert := CertifiedIs(d, v);
      WorldProposes(d, cert.header);
    }
  }

  // ---------- no-votes ----------

  /** A proposer that sent a no-vote for a leader, or proposed the header itself, does not list it. */
  lemma NoVoterAbstains(d: Sites, a: Author, v: Vertex)
    requires Linked(d) && a in d.sites && v.round > 0 && v.author == d.committee.Leader(v.round)
    requires SentNoVote(v.round) in ProposerLog(d, a)
    ensures !Lists(WorldOf(d), a, v)
  {
    if Lists(WorldOf(d), a, v) {
      var h := WorldProposed(d, a, v.round + 1);
      InputsGood(d, a);
      TotalPositive(d.committee, a);
      NoVoteExclusion(ProposerOf(d, a), d.sites[a].passes, v.round, h);
    }
  }

  lemma OwnHeaderAbstains(d: Sites, h: Proposal, v: Vertex)
    requires Linked(d) && HeaderReal(d, h) && h.round == v.round + 1 && v.Digest() !in h.parents
    ensures !Lists(WorldOf(d), h.author, v)
  {
    hide Linked, WorldOf, HeaderReal, HeadersOf;
    WorldProposes(d, h);
  }

  /** The names on a no-vote certificate are the leader's own and those of proposers that sent no-votes. */
  lemma NoVotersSent(d: Sites, a: Author, cert: QuorumCert, n: Author)
    requires Linked(d) && a in d.sites && NoVoteQuorum(cert) in CoreLog(d, a) && n in NameSet(cert.names)
    ensures n == a || (n in d.sites && SentNoVote(cert.round) in ProposerLog(d, n))
  {
    CertsGood(d, a);
    assert NoVoteCame(CoreOf(d, a), Inputs(d.sites[a].ticks), n, cert.round);
    assert Authentic(d, a);
  }

  /** A sound header without the previous leader carries that round's no-votes. */
  lemma LeaderlessSound(c: Committee, h: Proposal, r: Round)
    requires c.Valid() && SoundHeader(c, h) && h.round == r + 1 && h.author == c.Leader(h.round)
    requires forall e :: e in h.parents ==> e.origin != c.Leader(r)
    ensures h.noVoteCert.round == r && Carries(c, h.noVoteCert.names)
  {
    var certs: seq<Certificate> :| SoundParents(c, h, certs);
    if c.Leader(r) in Origins(certs) {
      var i :| 0 <= i < |certs| && certs[i].header.author == c.Leader(r);
      CollectExact(certs);
    }
  }

  lemma LeaderlessHeader(d: Sites, h: Proposal, v: Vertex)
    requires Linked(d) && HeaderReal(d, h)
    requires h.round == v.round + 1 && h.author == d.committee.Leader(h.round)
    requires Has(WorldOf(d).dag, v) && v.author == d.committee.Leader(v.round) && v.Digest() !in h.parents
    ensures h.noVoteCert.round == v.round && Carries(d.committee, h.noVoteCert.names)
  {
    hide Linked, WorldOf, HeaderReal, HeadersOf, FromHeard, Carries, SoundHeader;
    LinkedSized(d);
    HeaderGood(d, h);
    HeaderParents(d.committee, h, Vertex(0, h.round, h.author, h.parents));
    forall e | e in h.parents ensures e.origin != d.committee.Leader(v.round) {
      if e.origin == v.author {
        ParentIs(d, h, e, v);
      }
    }
    LeaderlessSound(d.committee, h, v.round);
  }

  lemma ParentIs(d: Sites, h: Proposal, e: Digest, v: Vertex)
    requires Linked(d) && HeaderReal(d, h) && e in h.parents
    requires Has(WorldOf(d).dag, v) && e.round == v.round && e.origin == v.author
    ensures e == v.Digest()
  {
    ParentFound(d, h, e);
  }

  lemma LeaderlessAbstained(d: Sites, h: Proposal, v: Vertex)
    requires Linked(d) && HeaderReal(d, h) && v.round > 0
    requires h.round == v.round + 1 && h.author == d.committee.Leader(h.round)
    requires Has(WorldOf(d).dag, v) && v.author == d.committee.Leader(v.round) && v.Digest() !in h.parents
    ensures QuorumAbstains(WorldOf(d), v)
  {
    WorldSetup(d);
    HeaderGood(d, h);
    LeaderlessHeader(d, h, v);
    var a := h.author;
    assert Channels(d, a);
    EmptyCarriesNot(d.committee);
    assert NoVoteQuorum(h.noVoteCert) in CoreLog(d, a);
    var names := NameSet(h.noVoteCert.names);
    hide Linked, WorldOf, Lists, HeaderReal, FromHeard, SoundHeader, Channels, CoreLog, ProposerLog, Sized;
    forall n | n in names ensures !Lists(WorldOf(d), n, v) {
      NoVotersSent(d, a, h.noVoteCert, n);
      if n == a {
        OwnHeaderAbstains(d, h, v);
      } else {
        NoVoterAbstains(d, n, v);
      }
    }
    assert AbstainFrom(WorldOf(d), names, v);
  }

  lemma EmptyCarriesNot(c: Committee)
    ensures !Carries(c, [])
  {
    assert NameSet([]) == {};
    EmptyWeight(c);
  }

  lemma WorldNoVotes(d: Sites)
    requires Linked(d)
    ensures d.committee.Valid() && NoVotesSound(WorldOf(d))
  {
    WorldSetup(d);
    hide Linked, WorldOf, QuorumAbstains, Certified, Sized, HeaderReal, CertificateReal;
    forall v, l | Successive(WorldOf(d), v, l) && v.Digest() !in l.parents ensures QuorumAbstains(WorldOf(d), v) {
      WorldHas(d, l);
      WorldHas(d, v);
      LeadersHeld(WorldOf(d), v, l);
      var cert := CertifiedIs(d, l);
      LeaderlessAbstained(d, cert.header, v);
    }
  }

  lemma LeadersHeld(w: World, v: Vertex, l: Vertex)
    requires w.setup.committee.Valid() && WellKeyed(w.dag) && Successive(w, v, l)
    ensures Has(w.dag, v) && Has(w.dag, l)
    ensures v.author == w.setup.committee.Leader(v.round) && l.author == w.setup.committee.Leader(l.round)
    ensures v.round > 0 && l.round == v.round + 1
  {}

  /** Every deployment whose primaries follow the code is a world the ordering theorems are about. */
  lemma WorldVotes(d: Sites)
    requires Linked(d)
    ensures Voting(WorldOf(d))
  {
    hide Linked, WorldOf;
    WorldWellFormed(d);
    WorldHeadersMatch(d);
    WorldNoVotes(d);
  }

  /** Every header proposed in the deployment passes every peer's structural checks. */
  lemma ProposedHeadersPass(d: Sites, h: Proposal, found: seq<Certificate>)
    requires Linked(d) && HeaderReal(d, h)
    requires |found| == |h.parents| && forall i :: 0 <= i < |found| ==> found[i].Digest() == h.parents[i]
    ensures d.committee.Valid() && found != [] && Passes(d.committee, h, found)
  {
    LinkedSized(d);
    hide Linked;
    InputsGood(d, h.author);
    TotalPositive(d.committee, h.author);
    HeadersPass(ProposerOf(d, h.author), d.sites[h.author].passes, h, found);
  }

  /** A deployment in which nothing has happened yet is one of those the theorems are about. */
  lemma QuietIsLinked(c: Committee, gcDepth: nat, headerSize: nat)
    requires c.Valid() && forall a :: a in c.Names() ==> c.Stake(a) > 0
    ensures Linked(Sites(c, gcDepth, headerSize, map a | a in c.Names() :: Site([], [])))
  {
    var d := Sites(c, gcDepth, headerSize, map a | a in c.Names() :: Site([], []));
    forall a | a in d.sites
      ensures Rising(d.sites[a].ticks) && PlausibleRun(CoreOf(d, a), d.sites[a].ticks) && Channels(d, a) &&
        Authentic(d, a)
    {
      assert Inputs(d.sites[a].ticks) == {};
    }
  }
}
