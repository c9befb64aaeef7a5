/** Headers and certificates of primary/src/messages.rs, and the weight loops of the `verify` methods. */
module Messages {
  import opened Config
  import opened Dag
  import opened Ordering
  import opened Invariants

  /** The author signatures of a timeout or no-vote certificate are modelled by the author's name. */
  datatype QuorumCert = QuorumCert(round: Round, names: seq<Author>)

  /** `id` stands for the collision-free hash of author, round, payload and parents. */
  datatype Proposal = Proposal(id: nat, author: Author, round: Round, parents: seq<Digest>,
                               timeoutCert: QuorumCert, noVoteCert: QuorumCert)

  datatype Certificate = Certificate(header: Proposal, votes: seq<Author>) {
    function Digest(): Digest {
      DigestOf(header.id, header.round, header.author)
    }

    /** What consensus reads of it. */
    function AsVertex(): Vertex {
      Vertex(header.id, header.round, header.author, header.parents)
    }

    /** `PartialEq`: votes and the rest of the header are not compared. */
    predicate Same(other: Certificate) {
      header.id == other.header.id && header.round == other.header.round && header.author == other.header.author
    }
  }

  datatype Error = AuthorityReuse(name: Author) | UnknownAuthority(name: Author) | RequiresQuorum
                 | MalformedHeader | HeaderRequiresQuorum | TooOld | UnexpectedVote

  datatype Check = Passed | Failed(error: Error)

  function Blank(round: Round): QuorumCert {
    QuorumCert(round, [])
  }

  function GenesisCertificate(a: Author): Certificate {
    Certificate(Proposal(0, a, 0, [], Blank(0), Blank(0)), [])
  }

  function NameSet(names: seq<Author>): set<Author> {
    set i | 0 <= i < |names| :: names[i]
  }

  // ---------- the weight loops ----------

  /** Distinct members with voting rights, a quorum together. */
  ghost predicate Carries(c: Committee, names: seq<Author>) {
    && NoDup(names)
    && (forall i :: 0 <= i < |names| ==> c.Stake(names[i]) > 0)
    && c.Weight(NameSet(names)) >= c.QuorumThreshold()
  }

  /** A name listed before, or without voting rights. */
  predicate Objectionable(c: Committee, names: seq<Author>, i: nat)
    requires i < |names|
  {
    names[i] in names[..i] || c.Stake(names[i]) == 0
  }

  predicate FirstObjection(c: Committee, names: seq<Author>, i: nat)
    requires i < |names|
  {
    Objectionable(c, names, i) && forall j :: 0 <= j < i ==> !Objectionable(c, names, j)
  }

  function Objection(names: seq<Author>, i: nat): Error
    requires i < |names|
  {
    if names[i] in names[..i] then AuthorityReuse(names[i]) else UnknownAuthority(names[i])
  }

  lemma WeightOfNext(c: Committee, names: seq<Author>, i: nat)
    requires c.Valid() && i < |names| && names[i] !in names[..i]
    ensures NameSet(names[..i + 1]) == NameSet(names[..i]) + {names[i]}
    ensures c.Weight(NameSet(names[..i + 1])) == c.Weight(NameSet(names[..i])) + c.Stake(names[i])
  {
    var before := names[..i];
    forall x ensures x in NameSet(names[..i + 1]) <==> x in NameSet(before) + {names[i]} {
      if x in NameSet(before) {
        var k :| 0 <= k < i && before[k] == x;
        assert names[..i + 1][k] == x;
      }
      if x == names[i] {
        assert names[..i + 1][i] == x;
      }
    }
    WeightAdd(c, NameSet(before), names[i]);
  }

  lemma NoObjections(c: Committee, names: seq<Author>)
    requires forall j :: 0 <= j < |names| ==> !Objectionable(c, names, j)
    ensures NoDup(names) && forall i :: 0 <= i < |names| ==> c.Stake(names[i]) > 0
  {
    forall i, j | 0 <= i < j < |names| ensures names[i] != names[j] {
      assert !Objectionable(c, names, j);
      assert names[..j][i] == names[i];
    }
    forall i | 0 <= i < |names| ensures c.Stake(names[i]) > 0 {
      assert !Objectionable(c, names, i);
    }
  }

  /** The weight loop shared by the three `verify` methods: it passes exactly the lists that carry a quorum
      of distinct voters, and otherwise reports the first objection, or the missing quorum. */
  method VerifyWeight(c: Committee, names: seq<Author>) returns (check: Check)
    requires c.Valid()
    ensures check.Passed? <==> Carries(c, names)
    ensures check.Failed? ==>
      || (exists i :: 0 <= i < |names| && FirstObjection(c, names, i) && check.error == Objection(names, i))
      || (NoDup(names) && c.Weight(NameSet(names)) < c.QuorumThreshold() && check.error == RequiresQuorum)
  {
    var weight := 0;
    var used: set<Author> := {};
    EmptyWeight(c);
    assert NameSet(names[..0]) == {};
    for i := 0 to |names|
      invariant used == NameSet(names[..i]) && weight == c.Weight(used)
      invariant forall j :: 0 <= j < i ==> !Objectionable(c, names, j)
    {
      if names[i] in used {
        var k :| 0 <= k < i && names[..i][k] == names[i];
        assert FirstObjection(c, names, i);
        return Failed(AuthorityReuse(names[i]));
      }
      assert names[i] !in names[..i];
      if c.Stake(names[i]) == 0 {
        assert FirstObjection(c, names, i);
        return Failed(UnknownAuthority(names[i]));
      }
      WeightOfNext(c, names, i);
      used := used + {names[i]};
      weight := weight + c.Stake(names[i]);
    }
    assert names[..|names|] == names;
    NoObjections(c, names);
    check := if weight >= c.QuorumThreshold() then Passed else Failed(RequiresQuorum);
  }

  // ---------- certificates ----------

  /** `genesis(committee).contains(self)` */
  predicate InGenesis(c: Committee, cert: Certificate) {
    exists i :: 0 <= i < |c.authorities| && cert.Same(GenesisCertificate(c.authorities[i].name))
  }

  ghost predicate Acceptable(c: Committee, cert: Certificate) {
    InGenesis(c, cert) || (c.Stake(cert.header.author) > 0 && Carries(c, cert.votes))
  }

  /** `Certificate::verify`, signatures apart: genesis, or a known author and a quorum of distinct voters. */
  method VerifyCertificate(c: Committee, cert: Certificate) returns (check: Check)
    requires c.Valid()
    ensures check.Passed? <==> Acceptable(c, cert)
    ensures check.Failed? && c.Stake(cert.header.author) == 0 ==> check.error == UnknownAuthority(cert.header.author)
  {
    if InGenesis(c, cert) {
      return Passed;
    }
    if c.Stake(cert.header.author) == 0 {
      return Failed(UnknownAuthority(cert.header.author));
    }
    check := VerifyWeight(c, cert.votes);
  }

  /** Equality ignores votes: a certificate equals a genesis certificate just when it has the blank id,
      round zero and a member for its origin. */
  lemma GenesisExact(c: Committee, cert: Certificate)
    ensures InGenesis(c, cert) <==> cert.header.id == 0 && cert.header.round == 0 && cert.header.author in c.Names()
    ensures InGenesis(c, cert) ==> cert.Digest() == GenesisVertex(cert.header.author).Digest()
  {
    if cert.header.id == 0 && cert.header.round == 0 && cert.header.author in c.Names() {
      var i :| 0 <= i < |c.authorities| && c.authorities[i].name == cert.header.author;
      assert cert.Same(GenesisCertificate(c.authorities[i].name));
    }
  }
}
