/** The pool of primary/src/certificate_waiter.rs: certificates held back until all their parents are
    stored. */
module CertificateWaiter {
  import opened Dag
  import opened Messages
  import opened Processing
  import opened CoreRuns

  /** A certificate and the parents whose blocking reads are still open. */
  datatype Waiting = Waiting(certificate: Certificate, missing: set<Digest>)

  /** `stored` are the certificates in the store; `held` and `looped` what came in and what went back to
      the core. */
  datatype Pool = Pool(stored: set<Digest>, waiting: seq<Waiting>, held: seq<Certificate>, looped: seq<Certificate>)

  datatype WaiterEvent = Hold(certificate: Certificate) | StoredNow(digest: Digest) | Pick(index: nat)

  const EMPTY_POOL := Pool({}, [], [], [])

  function ParentSet(cert: Certificate): set<Digest> {
    set i | 0 <= i < |cert.header.parents| :: cert.header.parents[i]
  }

  /** The store answers the open reads of a digest when it is written. */
  function Answered(waiting: seq<Waiting>, d: Digest): seq<Waiting> {
    seq(|waiting|, i requires 0 <= i < |waiting| => waiting[i].(missing := waiting[i].missing - {d}))
  }

  /** `Pick` is the pool's choice among its finished waits; it does nothing for an unfinished one. */
  function OnEvent(p: Pool, e: WaiterEvent): Pool {
    match e
    case Hold(cert) =>
      p.(waiting := p.waiting + [Waiting(cert, ParentSet(cert) - p.stored)], held := p.held + [cert])
    case StoredNow(d) => p.(stored := p.stored + {d}, waiting := Answered(p.waiting, d))
    case Pick(i) =>
      if i < |p.waiting| && p.waiting[i].missing == {} then
        p.(waiting := p.waiting[..i] + p.waiting[i + 1..], looped := p.looped + [p.waiting[i].certificate])
      else p
  }

  function RunPool(events: seq<WaiterEvent>): Pool {
    if events == [] then EMPTY_POOL else OnEvent(RunPool(events[..|events| - 1]), events[|events| - 1])
  }

  function CertificatesOf(waiting: seq<Waiting>): seq<Certificate> {
    seq(|waiting|, i requires 0 <= i < |waiting| => waiting[i].certificate)
  }

  /** An open wait misses exactly the parents not yet stored; nothing is lost or doubled; what went back
      has all its parents stored. */
  ghost predicate Waits(p: Pool) {
    && (forall i :: 0 <= i < |p.waiting| ==> p.waiting[i].missing == ParentSet(p.waiting[i].certificate) - p.stored)
    && multiset(p.held) == multiset(p.looped) + multiset(CertificatesOf(p.waiting))
    && (forall i :: 0 <= i < |p.looped| ==> ParentSet(p.looped[i]) <= p.stored)
  }

  lemma PickOne(waiting: seq<Waiting>, i: nat)
    requires i < |waiting|
    ensures multiset(CertificatesOf(waiting)) ==
      multiset(CertificatesOf(waiting[..i] + waiting[i + 1..])) + multiset{waiting[i].certificate}
  {
    var all := CertificatesOf(waiting);
    assert all == all[..i] + [all[i]] + all[i + 1..];
    assert CertificatesOf(waiting[..i] + waiting[i + 1..]) == all[..i] + all[i + 1..];
  }

  lemma PickKeepsWaits(p: Pool, i: nat)
    requires Waits(p) && i < |p.waiting| && p.waiting[i].missing == {}
    ensures Waits(OnEvent(p, Pick(i)))
  {
    PickOne(p.waiting, i);
    var w := p.waiting[i];
    assert w.missing == ParentSet(w.certificate) - p.stored;
    assert forall d :: d in ParentSet(w.certificate) && d !in p.stored ==> d in w.missing;
  }

  lemma EventKeepsWaits(p: Pool, e: WaiterEvent)
    requires Waits(p)
    ensures Waits(OnEvent(p, e))
  {
    var q := OnEvent(p, e);
    match e
    case Hold(cert) =>
      assert CertificatesOf(q.waiting) == CertificatesOf(p.waiting) + [cert];
    case StoredNow(d) =>
      assert CertificatesOf(q.waiting) == CertificatesOf(p.waiting);
    case Pick(i) =>
      if i < |p.waiting| && p.waiting[i].missing == {} {
        PickKeepsWaits(p, i);
      }
  }

  /** Over any run: a certificate comes back as often as it was held, less the waits still open, and only
      with all its parents stored; a wait is open just as long as a parent is missing. */
  lemma {:induction false} WaiterExact(events: seq<WaiterEvent>)
    ensures Waits(RunPool(events))
    decreases |events|
  {
    if events != [] {
      WaiterExact(events[..|events| - 1]);
      EventKeepsWaits(RunPool(events[..|events| - 1]), events[|events| - 1]);
    }
  }

  /** A certificate that came back is delivered: none of its parents is missing from a store that holds at
      least what the waiter saw. */
  lemma LoopedIsDelivered(cfg: CoreConfig, s: CoreState, events: seq<WaiterEvent>, i: nat)
    requires i < |RunPool(events).looped| && RunPool(events).stored <= s.store.Keys
    ensures var cert := RunPool(events).looped[i];
      var t := Deliver(cfg, s, cert).state;
      Delivered(cert) in t.log && cert.Digest() in t.store
  {
    WaiterExact(events);
    var cert := RunPool(events).looped[i];
    assert !MissesParent(cfg.committee, s.store, cert.header.parents) by {
      forall k | 0 <= k < |cert.header.parents|
        ensures Resolve(cfg.committee, s.store, cert.header.parents[k]) != None
      {
        assert cert.header.parents[k] in ParentSet(cert);
      }
    }
    var step := DeliverParts(cfg, s, cert);
  }

  class CertificateWaiter {
    var stored: set<Digest>
    var waiting: seq<Waiting>
    ghost var held: seq<Certificate>
    var looped: seq<Certificate>

    ghost function Value(): Pool
      reads this
    {
      Pool(stored, waiting, held, looped)
    }

    constructor ()
      ensures Value() == EMPTY_POOL
    {
      stored, waiting, held, looped := {}, [], [], [];
    }

    /** From the synchronizer: wait for every parent, those already stored being read at once. */
    method Receive(certificate: Certificate)
      modifies this
      ensures Value() == OnEvent(old(Value()), Hold(certificate))
    {
      var missing: set<Digest> := {};
      var parents := certificate.header.parents;
      for i := 0 to |parents|
        invariant missing == (set k | 0 <= k < i :: parents[k]) - stored
        invariant Value() == old(Value())
      {
        if parents[i] !in stored {
          missing := missing + {parents[i]};
        }
      }
      waiting := waiting + [Waiting(certificate, missing)];
      held := held + [certificate];
    }

    method OnStored(digest: Digest)
      modifies this
      ensures Value() == OnEvent(old(Value()), StoredNow(digest))
    {
      stored := stored + {digest};
      for i := 0 to |waiting|
        invariant |waiting| == |old(waiting)|
        invariant waiting[..i] == Answered(old(waiting), digest)[..i] && waiting[i..] == old(waiting)[i..]
        invariant stored == old(stored) + {digest} && held == old(held) && looped == old(looped)
      {
        waiting := waiting[i := waiting[i].(missing := waiting[i].missing - {digest})];
      }
    }

    method Next(index: nat)
      modifies this
      ensures Value() == OnEvent(old(Value()), Pick(index))
    {
      if index < |waiting| && waiting[index].missing == {} {
        looped := looped + [waiting[index].certificate];
        waiting := waiting[..index] + waiting[index + 1..];
      }
    }
  }
}
