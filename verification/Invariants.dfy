/** The system a consensus node runs in, its admissible runs, and the invariants proved of them. */
module Invariants {
  import opened Config
  import opened Dag
  import opened Ordering

  /** Everything that exists in one execution of the system: the certificates ever assembled, and the
      parents of every header ever proposed. One certificate per (round, author) is built into `Dag`. */
  datatype World = World(setup: Setup, dag: Dag, headers: map<(Author, Round), seq<Digest>>)

  function Proposed(w: World, a: Author, r: Round): Option<seq<Digest>> {
    if (a, r) in w.headers then Some(w.headers[(a, r)]) else None
  }

  function ParentAuthors(v: Vertex): set<Author> {
    set d | d in v.parents :: d.origin
  }

  /** The parents exist, are all of the previous round and carry a quorum. */
  ghost predicate ParentsChecked(w: World, v: Vertex) {
    && (forall d :: d in v.parents ==> v.round == d.round + 1 && Find(w.dag, d.round, d).Some?)
    && w.setup.committee.Weight(ParentAuthors(v)) >= w.setup.committee.QuorumThreshold()
  }

  ghost predicate WellFormed(w: World) {
    match w
    case World(setup, dag, _) =>
      && setup.committee.Valid()
      && WellKeyed(dag)
      && (forall v :: Has(dag, v) && v.round == 0 ==> v == GenesisVertex(v.author))
      && (forall a :: a in setup.committee.Names() ==> Has(dag, GenesisVertex(a)))
      && (forall v {:trigger ParentsChecked(w, v)} :: Has(dag, v) && v.round > 0 ==> ParentsChecked(w, v))
  }

  /** The parents of `v` have all been delivered. */
  ghost predicate ParentsDelivered(w: World, v: Vertex, delivered: set<Vertex>) {
    forall p :: Has(w.dag, p) && Steps(v, p) ==> p in delivered
  }

  // ---------- admissible runs ----------

  /** The event exists in the world; certificates come after their parents, and each author's header
      of a round comes at most once. */
  ghost predicate Admissible(w: World, n: Node, e: Event) {
    match e
    case NewCertificate(v) => Has(w.dag, v) && v.round > 0 && ParentsDelivered(w, v, n.delivered)
    case NewHeader(h) =>
      && Proposed(w, h.author, h.round) == Some(h.parents)
      && (h.author, h.round) !in n.heard
  }

  /** Certificates come after their parents. */
  ghost predicate CausalRun(w: World, events: seq<Event>)
    requires w.setup.committee.Valid()
  {
    events == [] ||
    (var before := events[..|events| - 1];
     var e := events[|events| - 1];
     CausalRun(w, before) && (e.NewCertificate? ==> Admissible(w, Exec(w.setup, before), e)))
  }

  /** Headers are real and come at most once. */
  ghost predicate HeadersOnce(w: World, events: seq<Event>)
    requires w.setup.committee.Valid()
  {
    events == [] ||
    (var before := events[..|events| - 1];
     var e := events[|events| - 1];
     HeadersOnce(w, before) && (e.NewHeader? ==> Admissible(w, Exec(w.setup, before), e)))
  }

  ghost predicate ValidRun(w: World, events: seq<Event>)
    requires w.setup.committee.Valid()
  {
    CausalRun(w, events) && HeadersOnce(w, events)
  }

  /** A certificate that came before and is no longer in the dag does not come again. */
  ghost predicate NotReplayed(n: Node, e: Event) {
    e.NewCertificate? && e.vertex in n.delivered ==> Has(n.view.dag, e.vertex)
  }

  ghost predicate NoReplays(w: World, events: seq<Event>)
    requires w.setup.committee.Valid()
  {
    events == [] ||
    (var before := events[..|events| - 1];
     NoReplays(w, before) && NotReplayed(Exec(w.setup, before), events[|events| - 1]))
  }

  /** The certificate was output before and its author has since been committed at a higher round. */
  predicate Stale(n: Node, v: Vertex) {
    v in n.output && (v.author in n.view.last ==> v.round < n.view.last[v.author])
  }

  ghost predicate NoneStale(w: World, events: seq<Event>)
    requires w.setup.committee.Valid()
  {
    events == [] ||
    (var before := events[..|events| - 1];
     var e := events[|events| - 1];
     NoneStale(w, before) && !(e.NewCertificate? && Stale(Exec(w.setup, before), e.vertex)))
  }

  /** The certificate was not output, but one that lists it among its parents was. */
  ghost predicate Overtaken(n: Node, v: Vertex) {
    !Done(n.output, v) && exists x :: x in n.output && Steps(x, v)
  }

  ghost predicate NoneOvertaken(w: World, events: seq<Event>)
    requires w.setup.committee.Valid()
  {
    events == [] ||
    (var before := events[..|events| - 1];
     var e := events[|events| - 1];
     NoneOvertaken(w, before) && !(e.NewCertificate? && Overtaken(Exec(w.setup, before), e.vertex)))
  }

  ghost predicate NoDup<T>(s: seq<T>) {
    forall i, j :: 0 <= i < j < |s| ==> s[i] != s[j]
  }

  ghost predicate Sorted(s: seq<Vertex>) {
    forall i, j :: 0 <= i < j < |s| ==> s[i].round <= s[j].round
  }

  ghost predicate Ascending(s: seq<Vertex>, floor: Round) {
    && (forall i :: 0 <= i < |s| ==> s[i].round > floor)
    && (forall i, j :: 0 <= i < j < |s| ==> s[i].round < s[j].round)
  }

  ghost predicate Descending(s: seq<Vertex>, ceiling: nat, floor: Round) {
    && (forall i :: 0 <= i < |s| ==> floor < s[i].round < ceiling)
    && (forall i, j :: 0 <= i < j < |s| ==> s[i].round > s[j].round)
  }

  // ---------- the invariant of every run ----------

  ghost predicate Closed(w: World, delivered: set<Vertex>) {
    forall v, p :: v in delivered && Has(w.dag, p) && Steps(v, p) ==> p in delivered
  }

  /** The dag holds delivered certificates only, and all of those above the last committed round. */
  ghost predicate Sound(w: World, view: View, delivered: set<Vertex>) {
    match view
    case View(lastRound, last, dag) =>
      && WellKeyed(dag)
      && IsHighest(last, lastRound)
      && (forall v :: Has(dag, v) ==> v in delivered)
      && (forall v :: v in delivered ==> Has(w.dag, v))
      && Closed(w, delivered)
      && (forall v :: v in delivered && v.round > lastRound ==> Has(dag, v))
  }

  ghost predicate LeadersKept(w: World, n: Node)
    requires w.setup.committee.Valid()
  {
    match n
    case Node(view, _, _, delivered, _, _, leaders) =>
      && Ascending(leaders, 0)
      && (forall p :: p in leaders ==> p in delivered && p.author == w.setup.committee.Leader(p.round))
      && view.lastRound == (if leaders == [] then 0 else leaders[|leaders| - 1].round)
  }

  ghost predicate Inv(w: World, n: Node)
    requires w.setup.committee.Valid()
  {
    && Sound(w, n.view, n.delivered)
    && LeadersKept(w, n)
    && Genesis(w.setup.committee) <= n.delivered
  }

  /** Genesis counts as committed from the start. */
  predicate Done(output: seq<Vertex>, v: Vertex) {
    v.round == 0 || v in output
  }

  /** `last` holds, per author, the highest round output so far (zero: genesis only). */
  ghost predicate Records(last: map<Author, Round>, output: seq<Vertex>) {
    && (forall a :: a in last ==> last[a] == 0 || exists v :: v in output && v.author == a && v.round == last[a])
    && (forall v :: v in output ==> v.author in last && v.round <= last[v.author])
  }

  /** An output certificate still in the dag is not below its author's entry. */
  ghost predicate NoneBelow(view: View, output: seq<Vertex>) {
    forall v :: Has(view.dag, v) && Done(output, v) ==> v.author in view.last && v.round >= view.last[v.author]
  }

  ghost predicate Ledger(w: World, view: View, delivered: set<Vertex>, output: seq<Vertex>) {
    match view
    case View(_, last, _) =>
      && Sound(w, view, delivered)
      && (forall v :: v in output ==> v in delivered && v.round > 0)
      && Records(last, output)
      && NoneBelow(view, output)
  }

  /** No parent follows its child. */
  ghost predicate Causal(output: seq<Vertex>) {
    forall i, j :: 0 <= i < |output| && 0 <= j < |output| && Steps(output[i], output[j]) ==> j < i
  }

  /** A parent that was passed over when its child was output is gone from the dag. */
  ghost predicate PassedOverGone(w: World, view: View, output: seq<Vertex>) {
    forall v, p :: v in output && Has(w.dag, p) && Steps(v, p) && !Done(output, p) ==> !Has(view.dag, p)
  }

  ghost predicate Counted(w: World, view: View, delivered: set<Vertex>, output: seq<Vertex>) {
    Ledger(w, view, delivered, output) && NoDup(output)
  }

  ghost predicate Timely(w: World, view: View, output: seq<Vertex>) {
    Causal(output) && PassedOverGone(w, view, output)
  }

  ghost predicate CountedNode(w: World, n: Node) {
    Counted(w, n.view, n.delivered, n.output)
  }

  ghost predicate TimelyNode(w: World, n: Node) {
    Timely(w, n.view, n.output)
  }

  /** Every round strictly between the bounds has entries. */
  ghost predicate RoundsPresent(dag: Dag, low: Round, high: Round) {
    forall r :: low < r < high ==> r in dag
  }
}
