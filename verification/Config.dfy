/** The committee of config/src/lib.rs: stakes, the two thresholds and the round-robin leader. */
module Config {
  type Author = nat
  type Round = nat

  datatype Authority = Authority(name: Author, stake: nat)

  /** The code keeps the authorities in a `BTreeMap`, so iterating it visits strictly increasing keys:
      the map is modelled as that sequence of entries. */
  datatype Committee = Committee(authorities: seq<Authority>) {

    /** A usable committee: at least one authority, keys strictly increasing. */
    ghost predicate Valid() {
      && authorities != []
      && forall i, j :: 0 <= i < j < |authorities| ==> authorities[i].name < authorities[j].name
    }

    function Names(): set<Author> {
      set i | 0 <= i < |authorities| :: authorities[i].name
    }

    /** Voting power of one authority; zero for a stranger. */
    function Stake(name: Author): nat {
      StakeIn(authorities, name)
    }

    /** Joint voting power of a set of authorities. */
    function Weight(names: set<Author>): nat {
      WeightIn(authorities, names)
    }

    function Total(): nat {
      TotalIn(authorities)
    }

    function QuorumThreshold(): nat {
      2 * Total() / 3 + 1
    }

    function ValidityThreshold(): nat {
      (Total() + 2) / 3
    }

    function Leader(seed: nat): Author
      requires authorities != []
    {
      authorities[seed % |authorities|].name
    }
  }

  function StakeIn(entries: seq<Authority>, name: Author): nat {
    if entries == [] then 0
    else if entries[0].name == name then entries[0].stake
    else StakeIn(entries[1..], name)
  }

  function WeightIn(entries: seq<Authority>, names: set<Author>): nat {
    if entries == [] then 0
    else (if entries[0].name in names then entries[0].stake else 0) + WeightIn(entries[1..], names)
  }

  function TotalIn(entries: seq<Authority>): nat {
    if entries == [] then 0 else entries[0].stake + TotalIn(entries[1..])
  }

  ghost predicate DistinctNames(entries: seq<Authority>) {
    forall i, j :: 0 <= i < j < |entries| ==> entries[i].name != entries[j].name
  }

  // ---------- sums over sets of authorities ----------

  lemma {:induction false} UnionIn(entries: seq<Authority>, s: set<Author>, t: set<Author>)
    ensures WeightIn(entries, s + t) + WeightIn(entries, s * t) == WeightIn(entries, s) + WeightIn(entries, t)
    ensures WeightIn(entries, s) <= TotalIn(entries)
  {
    if entries != [] {
      UnionIn(entries[1..], s, t);
    }
  }

  lemma {:induction false} MonotoneIn(entries: seq<Authority>, s: set<Author>, t: set<Author>)
    requires s <= t
    ensures WeightIn(entries, s) <= WeightIn(entries, t)
  {
    if entries != [] {
      MonotoneIn(entries[1..], s, t);
    }
  }

  lemma {:induction false} WitnessIn(entries: seq<Authority>, s: set<Author>) returns (a: Author)
    requires WeightIn(entries, s) > 0
    ensures a in s && exists i :: 0 <= i < |entries| && entries[i].name == a && entries[i].stake > 0
  {
    if entries[0].name in s && entries[0].stake > 0 {
      a := entries[0].name;
    } else {
      a := WitnessIn(entries[1..], s);
      var i :| 0 <= i < |entries[1..]| && entries[1..][i].name == a && entries[1..][i].stake > 0;
      assert entries[i + 1].name == a;
    }
  }

  lemma {:induction false} AddIn(entries: seq<Authority>, s: set<Author>, a: Author)
    requires DistinctNames(entries)
    requires a !in s
    ensures WeightIn(entries, s + {a}) == WeightIn(entries, s) + StakeIn(entries, a)
  {
    if entries != [] {
      if entries[0].name == a {
        forall i | 0 <= i < |entries[1..]| ensures entries[1..][i].name != a {
          assert entries[1..][i] == entries[i + 1];
        }
        AbsentIn(entries[1..], s, a);
      } else {
        AddIn(entries[1..], s, a);
      }
    }
  }

  lemma {:induction false} AbsentIn(entries: seq<Authority>, s: set<Author>, a: Author)
    requires forall i :: 0 <= i < |entries| ==> entries[i].name != a
    ensures WeightIn(entries, s + {a}) == WeightIn(entries, s)
    ensures StakeIn(entries, a) == 0
  {
    if entries != [] {
      AbsentIn(entries[1..], s, a);
    }
  }

  lemma {:induction false} EmptyWeight(c: Committee)
    ensures c.Weight({}) == 0
  {
    EmptyIn(c.authorities);
  }

  lemma {:induction false} EmptyIn(entries: seq<Authority>)
    ensures WeightIn(entries, {}) == 0
  {
    if entries != [] {
      EmptyIn(entries[1..]);
    }
  }

  /** Counting one more, new, authority adds exactly its stake. */
  lemma WeightAdd(c: Committee, s: set<Author>, a: Author)
    requires c.Valid()
    requires a !in s
    ensures c.Weight(s + {a}) == c.Weight(s) + c.Stake(a)
  {
    AddIn(c.authorities, s, a);
  }

  lemma WeightMonotone(c: Committee, s: set<Author>, t: set<Author>)
    requires s <= t
    ensures c.Weight(s) <= c.Weight(t) <= c.Total()
  {
    MonotoneIn(c.authorities, s, t);
    UnionIn(c.authorities, t, {});
  }

  lemma {:induction false} StakePositive(entries: seq<Authority>, a: Author)
    requires DistinctNames(entries)
    requires exists i :: 0 <= i < |entries| && entries[i].name == a && entries[i].stake > 0
    ensures StakeIn(entries, a) > 0
  {
    var i :| 0 <= i < |entries| && entries[i].name == a && entries[i].stake > 0;
    if i > 0 {
      assert entries[1..][i - 1].name == a && entries[1..][i - 1].stake > 0;
      StakePositive(entries[1..], a);
    }
  }

  // ---------- threshold arithmetic ----------

  /** Quorum and validity together exceed the total stake by exactly one, for every total. */
  lemma ThresholdArithmetic(c: Committee)
    ensures c.QuorumThreshold() + c.ValidityThreshold() == c.Total() + 1
    ensures 2 * c.QuorumThreshold() >= c.Total() + c.ValidityThreshold()
    ensures c.ValidityThreshold() <= c.QuorumThreshold()
    ensures c.QuorumThreshold() >= 1
  {}

  /** Two sets whose weights exceed the total share a member with positive stake. */
  lemma Intersect(c: Committee, s: set<Author>, t: set<Author>) returns (a: Author)
    requires c.Valid()
    requires c.Weight(s) + c.Weight(t) > c.Total()
    ensures a in s && a in t && c.Stake(a) > 0 && a in c.Names()
  {
    UnionIn(c.authorities, s, t);
    UnionIn(c.authorities, s + t, {});
    a := WitnessIn(c.authorities, s * t);
    StakePositive(c.authorities, a);
  }

  lemma Member(c: Committee, s: set<Author>) returns (a: Author)
    requires c.Weight(s) > 0
    ensures a in s
  {
    a := WitnessIn(c.authorities, s);
  }

  /** Two quorums overlap in at least the validity threshold. */
  lemma QuorumOverlap(c: Committee, s: set<Author>, t: set<Author>)
    requires c.Weight(s) >= c.QuorumThreshold()
    requires c.Weight(t) >= c.QuorumThreshold()
    ensures c.Weight(s * t) >= c.ValidityThreshold()
  {
    UnionIn(c.authorities, s, t);
    UnionIn(c.authorities, s + t, {});
    ThresholdArithmetic(c);
  }
}
