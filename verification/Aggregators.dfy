/** The stake aggregators of primary/src/aggregators.rs. */
module Aggregators {
  import opened Config
  import opened Invariants
  import opened Messages

  datatype Reply<+T> = Refused(error: Error) | Nothing | Yield(value: T)

  // ---------- votes ----------

  datatype VoteBox = VoteBox(weight: nat, votes: seq<Author>, used: set<Author>)

  datatype VoteStep = VoteStep(box: VoteBox, reply: Reply<Certificate>)

  const EMPTY_VOTES := VoteBox(0, [], {})

  function AddVote(c: Committee, header: Proposal, box: VoteBox, author: Author, round: Round): VoteStep
    requires c.Valid()
  {
    if author in box.used then VoteStep(box, Refused(AuthorityReuse(author)))
    else
      var b := VoteBox(box.weight + c.Stake(author), box.votes + [author], box.used + {author});
      if c.Leader(round) in b.used && b.weight >= c.QuorumThreshold()
      then VoteStep(b.(weight := 0), Yield(Certificate(header, b.votes)))
      else VoteStep(b, Nothing)
  }

  /** The box after votes by these authors, repeats included, for one header. */
  function Voted(c: Committee, header: Proposal, round: Round, authors: seq<Author>): VoteBox
    requires c.Valid()
  {
    if authors == [] then EMPTY_VOTES
    else
      var last := |authors| - 1;
      AddVote(c, header, Voted(c, header, round, authors[..last]), authors[last], round).box
  }

  function VoteReply(c: Committee, header: Proposal, round: Round, authors: seq<Author>, k: nat): Reply<Certificate>
    requires c.Valid() && k < |authors|
  {
    AddVote(c, header, Voted(c, header, round, authors[..k]), authors[k], round).reply
  }

  /** The round's leader is among the voters, and the voters are a quorum. */
  predicate Ripe(c: Committee, round: Round, voters: set<Author>)
    requires c.Valid()
  {
    c.Leader(round) in voters && c.Weight(voters) >= c.QuorumThreshold()
  }

  lemma NameSetAdd(names: seq<Author>, name: Author)
    ensures NameSet(names + [name]) == NameSet(names) + {name}
    ensures NoDup(names) && name !in NameSet(names) ==> NoDup(names + [name])
  {
    var all := names + [name];
    forall x ensures x in NameSet(all) <==> x in NameSet(names) + {name} {
      if x in NameSet(names) {
        var k :| 0 <= k < |names| && names[k] == x;
        assert all[k] == x;
      }
      assert all[|names|] == name;
    }
  }

  ghost predicate VoteBoxFits(c: Committee, round: Round, box: VoteBox, voters: set<Author>)
    requires c.Valid()
  {
    && box.used == voters && NameSet(box.votes) == voters && NoDup(box.votes)
    && (if Ripe(c, round, voters) then box.weight + c.QuorumThreshold() <= c.Weight(voters)
        else box.weight == c.Weight(voters))
  }

  /** One vote: the certificate comes at the moment the voters become ripe. What is left of the stake after
      the reset never makes a second quorum. */
  lemma AddVoteFits(c: Committee, header: Proposal, box: VoteBox, author: Author, round: Round, voters: set<Author>)
    requires c.Valid() && VoteBoxFits(c, round, box, voters)
    ensures var step := AddVote(c, header, box, author, round);
      && VoteBoxFits(c, round, step.box, voters + {author})
      && (step.reply.Yield? <==> Ripe(c, round, voters + {author}) && !Ripe(c, round, voters))
      && (step.reply.Yield? ==> step.reply.value == Certificate(header, step.box.votes))
      && (step.reply.Refused? <==> author in voters)
  {
    if author in voters {
      assert voters + {author} == voters;
    } else {
      WeightAdd(c, voters, author);
      WeightMonotone(c, voters + {author}, voters + {author});
      NameSetAdd(box.votes, author);
    }
  }

  lemma {:induction false} VotedFits(c: Committee, header: Proposal, round: Round, authors: seq<Author>)
    requires c.Valid()
    ensures VoteBoxFits(c, round, Voted(c, header, round, authors), NameSet(authors))
  {
    if authors == [] {
      EmptyWeight(c);
      assert NameSet(authors) == {};
    } else {
      var last := |authors| - 1;
      VotedFits(c, header, round, authors[..last]);
      AddVoteFits(c, header, Voted(c, header, round, authors[..last]), authors[last], round, NameSet(authors[..last]));
      NameSetAdd(authors[..last], authors[last]);
      assert authors == authors[..last] + [authors[last]];
    }
  }

  /** A vote yields a certificate exactly when it makes the voters ripe; the certificate then passes the
      weight loop, provided every voter has voting rights. */
  lemma CertificateWhenRipe(c: Committee, header: Proposal, round: Round, authors: seq<Author>, k: nat)
    requires c.Valid() && k < |authors|
    ensures var reply := VoteReply(c, header, round, authors, k);
      && (reply.Yield? <==> Ripe(c, round, NameSet(authors[..k + 1])) && !Ripe(c, round, NameSet(authors[..k])))
      && (reply.Yield? ==> reply.value.header == header)
      && (reply.Yield? ==> NoDup(reply.value.votes) && NameSet(reply.value.votes) == NameSet(authors[..k + 1]))
      && (reply.Yield? && (forall a :: a in authors ==> c.Stake(a) > 0) ==> Carries(c, reply.value.votes))
  {
    VotedFits(c, header, round, authors[..k]);
    AddVoteFits(c, header, Voted(c, header, round, authors[..k]), authors[k], round, NameSet(authors[..k]));
    NameSetAdd(authors[..k], authors[k]);
    assert authors[..k + 1] == authors[..k] + [authors[k]];
    var reply := VoteReply(c, header, round, authors, k);
    if reply.Yield? && forall a :: a in authors ==> c.Stake(a) > 0 {
      var votes := reply.value.votes;
      forall i | 0 <= i < |votes| ensures c.Stake(votes[i]) > 0 {
        assert votes[i] in NameSet(votes);
      }
    }
  }

  /** At most one certificate over any sequence of votes. */
  lemma AtMostOneCertificate(c: Committee, header: Proposal, round: Round, authors: seq<Author>, j: nat, k: nat)
    requires c.Valid() && j < k < |authors|
    requires VoteReply(c, header, round, authors, j).Yield?
    ensures !VoteReply(c, header, round, authors, k).Yield?
  {
    CertificateWhenRipe(c, header, round, authors, j);
    CertificateWhenRipe(c, header, round, authors, k);
    forall x | x in NameSet(authors[..j + 1]) ensures x in NameSet(authors[..k]) {
      var i :| 0 <= i < j + 1 && authors[..j + 1][i] == x;
      assert authors[..k][i] == x;
    }
    WeightMonotone(c, NameSet(authors[..j + 1]), NameSet(authors[..k]));
  }

  class VotesAggregator {
    var weight: nat
    var votes: seq<Author>
    var used: set<Author>

    function Value(): VoteBox
      reads this
    {
      VoteBox(weight, votes, used)
    }

    constructor ()
      ensures Value() == EMPTY_VOTES
    {
      weight, votes, used := 0, [], {};
    }

    method Append(author: Author, round: Round, committee: Committee, header: Proposal)
      returns (reply: Reply<Certificate>)
      requires committee.Valid()
      modifies this
      ensures AddVote(committee, header, old(Value()), author, round) == VoteStep(Value(), reply)
    {
      if author in used {
        return Refused(AuthorityReuse(author));
      }
      used := used + {author};
      votes := votes + [author];
      weight := weight + committee.Stake(author);
      var leader := committee.Leader(round);
      if leader !in used {
        return Nothing;
      }
      if weight >= committee.QuorumThreshold() {
        weight := 0;
        return Yield(Certificate(header, votes));
      }
      return Nothing;
    }
  }

  // ---------- certificates ----------

  datatype CertificateBox = CertificateBox(weight: nat, certificates: seq<Certificate>, used: set<Author>)

  datatype CertificateStep = CertificateStep(box: CertificateBox, reply: Reply<seq<Certificate>>)

  const EMPTY_CERTIFICATES := CertificateBox(0, [], {})

  function AddCertificate(c: Committee, box: CertificateBox, cert: Certificate): CertificateStep {
    var origin := cert.header.author;
    if origin in box.used then CertificateStep(box, Nothing)
    else
      var b := CertificateBox(box.weight + c.Stake(origin), box.certificates + [cert], box.used + {origin});
      if b.weight >= c.QuorumThreshold() then CertificateStep(b.(certificates := []), Yield(b.certificates))
      else CertificateStep(b, Nothing)
  }

  function Gathered(c: Committee, certs: seq<Certificate>): CertificateBox {
    if certs == [] then EMPTY_CERTIFICATES
    else
      var last := |certs| - 1;
      AddCertificate(c, Gathered(c, certs[..last]), certs[last]).box
  }

  function GatherReply(c: Committee, certs: seq<Certificate>, k: nat): Reply<seq<Certificate>>
    requires k < |certs|
  {
    AddCertificate(c, Gathered(c, certs[..k]), certs[k]).reply
  }

  function Origins(certs: seq<Certificate>): set<Author> {
    set i | 0 <= i < |certs| :: certs[i].header.author
  }

  /** The first certificate of every origin, in order of arrival. */
  function Firsts(certs: seq<Certificate>): seq<Certificate> {
    if certs == [] then []
    else
      var last := |certs| - 1;
      Firsts(certs[..last]) + if certs[last].header.author in Origins(certs[..last]) then [] else [certs[last]]
  }

  lemma OriginsAdd(certs: seq<Certificate>, cert: Certificate)
    ensures Origins(certs + [cert]) == Origins(certs) + {cert.header.author}
  {
    var all := certs + [cert];
    forall x ensures x in Origins(all) <==> x in Origins(certs) + {cert.header.author} {
      if x in Origins(certs) {
        var k :| 0 <= k < |certs| && certs[k].header.author == x;
        assert all[k].header.author == x;
      }
      assert all[|certs|] == cert;
    }
  }

  lemma {:induction false} FirstsDistinct(certs: seq<Certificate>)
    ensures Origins(Firsts(certs)) == Origins(certs)
    ensures forall i, j :: 0 <= i < j < |Firsts(certs)| ==>
      Firsts(certs)[i].header.author != Firsts(certs)[j].header.author
    ensures forall x :: x in Firsts(certs) ==> x in certs
  {
    if certs == [] {
      assert Origins(certs) == {};
    } else {
      var last := |certs| - 1;
      var before := certs[..last];
      FirstsDistinct(before);
      OriginsAdd(before, certs[last]);
      OriginsAdd(Firsts(before), certs[last]);
      assert certs == before + [certs[last]];
      var firsts := Firsts(before);
      if certs[last].header.author in Origins(before) {
        assert Firsts(certs) == firsts;
        assert Origins(before) + {certs[last].header.author} == Origins(before);
      }
      forall i | 0 <= i < |firsts| ensures firsts[i].header.author in Origins(before) {
        assert firsts[i].header.author in Origins(firsts);
      }
    }
  }

  ghost predicate CertificateBoxFits(c: Committee, box: CertificateBox, certs: seq<Certificate>) {
    && box.used == Origins(certs) && box.weight == c.Weight(Origins(certs))
    && box.certificates == if box.weight < c.QuorumThreshold() then Firsts(certs) else []
  }

  lemma {:induction false} GatheredFits(c: Committee, certs: seq<Certificate>)
    requires c.Valid()
    ensures CertificateBoxFits(c, Gathered(c, certs), certs)
  {
    if certs == [] {
      EmptyWeight(c);
      assert Origins(certs) == {};
    } else {
      var last := |certs| - 1;
      GatheredFits(c, certs[..last]);
      AddCertificateFits(c, Gathered(c, certs[..last]), certs[..last], certs[last]);
      assert certs == certs[..last] + [certs[last]];
    }
  }

  /** One certificate: nothing for a known origin or below the quorum; then everything gathered, once; and
      from then on the new certificate alone. */
  lemma AddCertificateFits(c: Committee, box: CertificateBox, certs: seq<Certificate>, cert: Certificate)
    requires c.Valid() && CertificateBoxFits(c, box, certs)
    ensures var step := AddCertificate(c, box, cert);
      && CertificateBoxFits(c, step.box, certs + [cert])
      && step.reply ==
           if cert.header.author in Origins(certs) ||
             c.Weight(Origins(certs + [cert])) < c.QuorumThreshold() then Nothing
           else if c.Weight(Origins(certs)) < c.QuorumThreshold() then Yield(Firsts(certs + [cert]))
           else Yield([cert])
  {
    var origin := cert.header.author;
    var all := certs + [cert];
    assert all[..|certs|] == certs && all[|certs|] == cert;
    OriginsAdd(certs, cert);
    if origin in Origins(certs) {
      assert Origins(certs) + {origin} == Origins(certs);
      assert Firsts(all) == Firsts(certs);
    } else {
      WeightAdd(c, Origins(certs), origin);
      assert [] + [cert] == [cert];
    }
  }

  /** The first message to the proposer holds a quorum of distinct origins, every later one a single new
      origin. */
  lemma ParentsMessages(c: Committee, certs: seq<Certificate>, k: nat)
    requires c.Valid() && k < |certs|
    ensures var before, after := certs[..k], certs[..k + 1];
      GatherReply(c, certs, k) ==
        if certs[k].header.author in Origins(before) || c.Weight(Origins(after)) < c.QuorumThreshold() then Nothing
        else if c.Weight(Origins(before)) < c.QuorumThreshold() then Yield(Firsts(after))
        else Yield([certs[k]])
  {
    GatheredFits(c, certs[..k]);
    AddCertificateFits(c, Gathered(c, certs[..k]), certs[..k], certs[k]);
    assert certs[..k + 1] == certs[..k] + [certs[k]];
  }

  class CertificatesAggregator {
    var weight: nat
    var certificates: seq<Certificate>
    var used: set<Author>

    function Value(): CertificateBox
      reads this
    {
      CertificateBox(weight, certificates, used)
    }

    constructor ()
      ensures Value() == EMPTY_CERTIFICATES
    {
      weight, certificates, used := 0, [], {};
    }

    method Append(certificate: Certificate, committee: Committee) returns (reply: Reply<seq<Certificate>>)
      modifies this
      ensures AddCertificate(committee, old(Value()), certificate) == CertificateStep(Value(), reply)
    {
      var origin := certificate.header.author;
      if origin in used {
        return Nothing;
      }
      used := used + {origin};
      certificates := certificates + [certificate];
      weight := weight + committee.Stake(origin);
      if weight >= committee.QuorumThreshold() {
        var drained := certificates;
        certificates := [];
        return Yield(drained);
      }
      return Nothing;
    }
  }

  // ---------- timeouts and no-votes ----------

  /** `TimeoutAggregator` and `NoVoteAggregator` are the same code over different messages. */
  datatype NameBox = NameBox(weight: nat, names: seq<Author>, used: set<Author>)

  datatype NameStep = NameStep(box: NameBox, reply: Reply<QuorumCert>)

  const EMPTY_NAMES := NameBox(0, [], {})

  function AddName(c: Committee, box: NameBox, name: Author, round: Round): NameStep {
    if name in box.used then NameStep(box, Refused(AuthorityReuse(name)))
    else
      var b := NameBox(box.weight + c.Stake(name), box.names + [name], box.used + {name});
      NameStep(b, if b.weight >= c.QuorumThreshold() then Yield(QuorumCert(round, b.names)) else Nothing)
  }

  ghost predicate NameBoxFits(c: Committee, box: NameBox, names: set<Author>) {
    box.used == names && NameSet(box.names) == names && NoDup(box.names) && box.weight == c.Weight(names)
  }

  /** Every new name from the quorum on yields a certificate of all names so far, which passes the weight
      loop if they all have voting rights. */
  lemma AddNameFits(c: Committee, box: NameBox, name: Author, round: Round, names: set<Author>)
    requires c.Valid() && NameBoxFits(c, box, names)
    ensures var step := AddName(c, box, name, round);
      && NameBoxFits(c, step.box, names + {name})
      && (step.reply.Refused? <==> name in names)
      && (step.reply.Yield? <==> name !in names && c.Weight(names + {name}) >= c.QuorumThreshold())
      && (step.reply.Yield? ==> step.reply.value.round == round && NameSet(step.reply.value.names) == names + {name})
      && (step.reply.Yield? && (forall a :: a in names + {name} ==> c.Stake(a) > 0) ==>
        Carries(c, step.reply.value.names))
  {
    if name in names {
      assert names + {name} == names;
    } else {
      WeightAdd(c, names, name);
      NameSetAdd(box.names, name);
      var listed := box.names + [name];
      forall i | 0 <= i < |listed| ensures listed[i] in NameSet(listed) {
      }
    }
  }

  class NameAggregator {
    var weight: nat
    var names: seq<Author>
    var used: set<Author>

    function Value(): NameBox
      reads this
    {
      NameBox(weight, names, used)
    }

    constructor ()
      ensures Value() == EMPTY_NAMES
    {
      weight, names, used := 0, [], {};
    }

    method Append(name: Author, round: Round, committee: Committee) returns (reply: Reply<QuorumCert>)
      modifies this
      ensures AddName(committee, old(Value()), name, round) == NameStep(Value(), reply)
    {
      if name in used {
        return Refused(AuthorityReuse(name));
      }
      used := used + {name};
      names := names + [name];
      weight := weight + committee.Stake(name);
      if weight >= committee.QuorumThreshold() {
        return Yield(QuorumCert(round, names));
      }
      return Nothing;
    }
  }
}
