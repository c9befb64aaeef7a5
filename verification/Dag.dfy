/** The vertices the ordering engine works on, and reachability over parent links. */
module Dag {
  import opened Config

  datatype Option<+T> = None | Some(value: T)

  /** `Certificate::digest` hashes exactly the header id, the round and the origin; the hash is
      collision free, so the digest is modelled by the hashed triple. */
  datatype Digest = DigestOf(id: nat, round: Round, origin: Author)

  /** A certificate as consensus reads it: the fields of its digest and equality, and the parent
      digests in the order the code's `BTreeSet` iterates them. Votes are never read there. */
  datatype Vertex = Vertex(id: nat, round: Round, author: Author, parents: seq<Digest>) {
    function Digest(): Digest {
      DigestOf(id, round, author)
    }
  }

  type Dag = map<Round, map<Author, Vertex>>

  predicate Has(dag: Dag, v: Vertex) {
    v.round in dag && v.author in dag[v.round] && dag[v.round][v.author] == v
  }

  /** Every entry is filed under its own round and origin. */
  ghost predicate WellKeyed(dag: Dag) {
    forall r, a :: r in dag && a in dag[r] ==> dag[r][a].round == r && dag[r][a].author == a
  }

  /** `dag.get(&r).map(|x| x.values().find(|(x, _)| x == d))` */
  function Find(dag: Dag, r: Round, d: Digest): Option<Vertex> {
    if r in dag && d.origin in dag[r] && dag[r][d.origin].Digest() == d then Some(dag[r][d.origin]) else None
  }

  function Insert(dag: Dag, v: Vertex): Dag {
    dag[v.round := (if v.round in dag then dag[v.round] else map[])[v.author := v]]
  }

  /** Every vertex of `small` is in `big`. */
  ghost predicate SubDag(small: Dag, big: Dag) {
    forall v :: Has(small, v) ==> Has(big, v)
  }

  ghost function Digests(dag: Dag): set<Digest> {
    set r, a | r in dag && a in dag[r] :: dag[r][a].Digest()
  }

  /** Looking an entry up by origin is the scan over all entries of the round for the digest. */
  lemma FindScans(dag: Dag, r: Round, d: Digest, v: Vertex)
    requires WellKeyed(dag)
    ensures Find(dag, r, d) == Some(v) <==> Has(dag, v) && v.round == r && v.Digest() == d
  {}

  lemma InsertHas(dag: Dag, v: Vertex, x: Vertex)
    ensures Has(Insert(dag, v), x) <==>
            x == v || (Has(dag, x) && !(x.round == v.round && x.author == v.author))
  {}

  // ---------- reachability ----------

  /** `y` is `x`, or is in the dag and is a parent of a vertex one round above that `x` reaches. */
  ghost predicate Reaches(dag: Dag, x: Vertex, y: Vertex)
    decreases x.round - y.round
  {
    x == y || (y.round < x.round && Has(dag, y) && exists p: Vertex :: Steps(p, y) && Reaches(dag, x, p))
  }

  /** `y` is listed among the parents of `p`, one round above. */
  predicate Steps(p: Vertex, y: Vertex) {
    p.round == y.round + 1 && y.Digest() in p.parents
  }

  /** An explicit parent path, the reference definition of reachability. */
  ghost predicate Path(dag: Dag, path: seq<Vertex>) {
    && path != []
    && (forall i :: 1 <= i < |path| ==> Has(dag, path[i]))
    && (forall i :: 0 <= i < |path| - 1 ==> Steps(path[i], path[i + 1]))
  }

  lemma {:induction false} PathFromReaches(dag: Dag, x: Vertex, y: Vertex) returns (path: seq<Vertex>)
    requires Reaches(dag, x, y)
    ensures Path(dag, path) && path[0] == x && path[|path| - 1] == y
    decreases x.round - y.round
  {
    if x == y {
      path := [x];
    } else {
      var p: Vertex :| Steps(p, y) && Reaches(dag, x, p);
      var prefix := PathFromReaches(dag, x, p);
      path := prefix + [y];
    }
  }

  lemma {:induction false} ReachesFromPath(dag: Dag, path: seq<Vertex>)
    requires Path(dag, path)
    ensures Reaches(dag, path[0], path[|path| - 1])
    ensures path[|path| - 1].round + |path| == path[0].round + 1
  {
    if |path| > 1 {
      var prefix := path[..|path| - 1];
      ReachesFromPath(dag, prefix);
      assert Steps(prefix[|prefix| - 1], path[|path| - 1]);
    }
  }

  /** Reachability is exactly the existence of a parent path. */
  lemma ReachesIffPath(dag: Dag, x: Vertex, y: Vertex)
    ensures Reaches(dag, x, y) <==> exists path :: Path(dag, path) && path[0] == x && path[|path| - 1] == y
  {
    if Reaches(dag, x, y) {
      var path := PathFromReaches(dag, x, y);
    }
    forall path | Path(dag, path) && path[0] == x && path[|path| - 1] == y
      ensures Reaches(dag, x, y)
    {
      ReachesFromPath(dag, path);
    }
  }

  lemma {:induction false} ReachesTransitive(dag: Dag, x: Vertex, y: Vertex, z: Vertex)
    requires Reaches(dag, x, y) && Reaches(dag, y, z)
    ensures Reaches(dag, x, z)
    decreases y.round - z.round
  {
    if y != z {
      var p: Vertex :| Steps(p, z) && Reaches(dag, y, p);
      ReachesTransitive(dag, x, y, p);
    }
  }

  lemma {:induction false} ReachesMonotone(small: Dag, big: Dag, x: Vertex, y: Vertex)
    requires SubDag(small, big)
    requires Reaches(small, x, y)
    ensures Reaches(big, x, y)
    decreases x.round - y.round
  {
    if x != y {
      var p: Vertex :| Steps(p, y) && Reaches(small, x, p);
      ReachesMonotone(small, big, x, p);
    }
  }

  /** One more step at the far end. */
  lemma ReachesParent(dag: Dag, x: Vertex, p: Vertex, y: Vertex)
    requires Reaches(dag, x, p) && Steps(p, y) && Has(dag, y)
    ensures Reaches(dag, x, y)
  {
    ReachesDescends(dag, x, p);
  }

  lemma ReachesDescends(dag: Dag, x: Vertex, y: Vertex)
    requires Reaches(dag, x, y)
    ensures y.round <= x.round && (y.round == x.round ==> y == x) && (y != x ==> Has(dag, y))
  {}
}
