/** The retransmit queue of network/src/reliable_sender.rs: one connection to one peer. */
module ReliableSender {
  type Id = nat

  const RETRY_DELAY: nat := 200
  const MAX_DELAY: nat := 60_000

  datatype Phase = Connecting | Waiting | Online

  /** What the network, the timer and the callers do. `Sent` and `Replied` carry whether the write or the
      acknowledgement succeeded. */
  datatype Event =
    | Connected
    | Refused
    | TimerFired
    | Submitted(id: Id)
    | Cancelled(id: Id)
    | Sent(ok: bool)
    | Replied(ok: bool)

  /** The connection's variables, with the history the theorems talk about: messages taken from the channel
      in order (`submitted`), cancelled handlers (`closed`), messages acknowledged (`acked`) and dropped
      because cancelled (`dropped`), and, for the connection that is up, what was written on it and what its
      acknowledgements resolved. */
  datatype Link = Link(
    phase: Phase, buffer: seq<Id>, pending: seq<Id>, delay: nat, retry: nat,
    submitted: seq<Id>, closed: set<Id>, acked: set<Id>, dropped: set<Id>,
    written: seq<Id>, resolved: seq<Id>)

  const INIT := Link(Connecting, [], [], RETRY_DELAY, 0, [], {}, {}, {}, [], [])

  function Min(a: nat, b: nat): nat {
    if a < b then a else b
  }

  /** `s` without the members of `gone`, in order. */
  function Without(s: seq<Id>, gone: set<Id>): seq<Id> {
    if s == [] then []
    else Without(s[..|s| - 1], gone) + if s[|s| - 1] in gone then [] else [s[|s| - 1]]
  }

  function Members(s: seq<Id>): set<Id> {
    set i | 0 <= i < |s| :: s[i]
  }

  /** Unacknowledged messages go back in front of the buffer. */
  function Disconnect(s: Link): Link {
    s.(phase := Connecting, buffer := s.pending + s.buffer, pending := [])
  }

  function Send(s: Link, ok: bool): Link
    requires s.buffer != []
  {
    var m := s.buffer[0];
    if m in s.closed then s.(buffer := s.buffer[1..], dropped := s.dropped + {m})
    else if ok then s.(buffer := s.buffer[1..], pending := s.pending + [m], written := s.written + [m])
    else Disconnect(s)
  }

  function Acknowledge(s: Link, ok: bool): Link {
    if s.pending == [] || !ok then Disconnect(s)
    else s.(pending := s.pending[1..], acked := s.acked + {s.pending[0]}, resolved := s.resolved + [s.pending[0]])
  }

  /** While waiting to reconnect the channel is drained and the cancelled messages are let go. */
  function Drain(s: Link, id: Id): Link {
    var buffer := s.buffer + [id];
    s.(submitted := s.submitted + [id], buffer := Without(buffer, s.closed),
       dropped := s.dropped + (Members(buffer) * s.closed))
  }

  /** Events that cannot happen in a state leave it alone. While online, the buffer is emptied before
      anything else is looked at. */
  function Step(s: Link, e: Event): Link {
    match e
    case Connected =>
      if s.phase != Connecting then s
      else s.(phase := Online, delay := RETRY_DELAY, retry := 0, written := [], resolved := [])
    case Refused => if s.phase == Connecting then s.(phase := Waiting) else s
    case TimerFired =>
      if s.phase != Waiting then s
      else s.(phase := Connecting, delay := Min(2 * s.delay, MAX_DELAY), retry := s.retry + 1)
    case Submitted(id) =>
      if s.phase == Waiting then Drain(s, id)
      else if s.phase == Online && s.buffer == [] then s.(buffer := [id], submitted := s.submitted + [id])
      else s
    case Cancelled(id) => s.(closed := s.closed + {id})
    case Sent(ok) => if s.phase == Online && s.buffer != [] then Send(s, ok) else s
    case Replied(ok) => if s.phase == Online && s.buffer == [] then Acknowledge(s, ok) else s
  }

  function Run(events: seq<Event>): Link {
    if events == [] then INIT else Step(Run(events[..|events| - 1]), events[|events| - 1])
  }

  // ---------- the invariants ----------

  ghost predicate Distinct(s: seq<Id>) {
    forall i, j :: 0 <= i < j < |s| ==> s[i] != s[j]
  }

  /** Every submission is a new message. */
  ghost predicate FreshIds(events: seq<Event>) {
    forall i, j :: 0 <= i < j < |events| && events[i].Submitted? && events[j].Submitted? ==>
      events[i].id != events[j].id
  }

  function Outstanding(s: Link): seq<Id> {
    s.pending + s.buffer
  }

  /** What is outstanding is what was submitted, in that order, except what was acknowledged, and what was
      dropped after being cancelled. */
  ghost predicate Conserves(s: Link) {
    && Distinct(s.submitted)
    && Outstanding(s) == Without(s.submitted, s.acked + s.dropped)
    && s.acked <= Members(s.submitted) && s.dropped <= Members(s.submitted)
    && s.dropped <= s.closed && s.acked !! s.dropped
  }

  /** Acknowledgements resolve messages in the order they were written on the connection. */
  ghost predicate InOrder(s: Link) {
    if s.phase == Online then s.written == s.resolved + s.pending else s.pending == []
  }

  function Doubled(k: nat): nat {
    if k == 0 then RETRY_DELAY else 2 * Doubled(k - 1)
  }

  // ---------- sequences ----------

  lemma {:induction false} WithoutExact(s: seq<Id>, gone: set<Id>)
    ensures forall x :: x in Without(s, gone) <==> x in s && x !in gone
    ensures Distinct(s) ==> Distinct(Without(s, gone))
  {
    if s != [] {
      var last := |s| - 1;
      WithoutExact(s[..last], gone);
      assert s == s[..last] + [s[last]];
      if Distinct(s) {
        assert s[last] !in s[..last];
      }
    }
  }

  lemma {:induction false} WithoutConcat(s: seq<Id>, t: seq<Id>, gone: set<Id>)
    ensures Without(s + t, gone) == Without(s, gone) + Without(t, gone)
  {
    if t == [] {
      assert s + t == s;
    } else {
      var last := |t| - 1;
      WithoutConcat(s, t[..last], gone);
      assert (s + t)[..|s + t| - 1] == s + t[..last];
    }
  }

  lemma {:induction false} WithoutTwice(s: seq<Id>, gone: set<Id>, more: set<Id>)
    ensures Without(Without(s, gone), more) == Without(s, gone + more)
  {
    if s != [] {
      var last := |s| - 1;
      WithoutTwice(s[..last], gone, more);
      WithoutConcat(Without(s[..last], gone), if s[last] in gone then [] else [s[last]], more);
      if s[last] !in gone {
        WithoutOne(s[last], more);
      }
    }
  }

  lemma WithoutOne(x: Id, gone: set<Id>)
    ensures Without([x], gone) == if x in gone then [] else [x]
  {
    assert [x][..0] == [];
  }

  lemma {:induction false} WithoutNone(s: seq<Id>, gone: set<Id>)
    requires forall x :: x in s ==> x !in gone
    ensures Without(s, gone) == s
  {
    if s != [] {
      var last := |s| - 1;
      assert s == s[..last] + [s[last]];
      WithoutNone(s[..last], gone);
    }
  }

  lemma Apart(s: seq<Id>, x: Id, t: seq<Id>)
    requires Distinct(s + [x] + t)
    ensures x !in s && x !in t
  {
    var all := s + [x] + t;
    assert all[|s|] == x;
    forall y | y in s || y in t ensures y != x {
      if y in s {
        var i :| 0 <= i < |s| && s[i] == y;
        assert all[i] == y;
      } else {
        var i :| 0 <= i < |t| && t[i] == y;
        assert all[|s| + 1 + i] == y;
      }
    }
  }

  /** Taking one element out of a sequence without duplicates. */
  lemma WithoutMiddle(s: seq<Id>, x: Id, t: seq<Id>)
    requires Distinct(s + [x] + t)
    ensures Without(s + [x] + t, {x}) == s + t
  {
    Apart(s, x, t);
    hide Distinct, Without;
    WithoutNone(s, {x});
    WithoutNone(t, {x});
    WithoutOne(x, {x});
    WithoutConcat(s, [x], {x});
    assert s + [] == s;
    WithoutConcat(s + [x], t, {x});
  }

  lemma {:induction false} WithoutSame(s: seq<Id>, gone: set<Id>, also: set<Id>)
    requires forall x :: x in s ==> (x in gone <==> x in also)
    ensures Without(s, gone) == Without(s, also)
  {
    if s != [] {
      var last := |s| - 1;
      assert s == s[..last] + [s[last]];
      WithoutSame(s[..last], gone, also);
    }
  }

  lemma MembersAre(s: seq<Id>)
    ensures forall x :: x in Members(s) <==> x in s
  {}

  lemma MembersAdd(s: seq<Id>, x: Id)
    ensures Members(s + [x]) == Members(s) + {x}
  {
    MembersAre(s);
    MembersAre(s + [x]);
    assert forall y :: y in s + [x] <==> y in s || y == x;
  }

  // ---------- every event keeps the invariants ----------

  /** One outstanding message leaves for good. */
  lemma OneGone(s: Link, before: seq<Id>, m: Id, after: seq<Id>)
    requires Conserves(s) && Outstanding(s) == before + [m] + after
    ensures before + after == Without(s.submitted, s.acked + s.dropped + {m})
    ensures m in Members(s.submitted) && m !in s.acked && m !in s.dropped
  {
    var gone := s.acked + s.dropped;
    WithoutExact(s.submitted, gone);
    WithoutMiddle(before, m, after);
    WithoutTwice(s.submitted, gone, {m});
    MembersAre(s.submitted);
    assert (before + [m] + after)[|before|] == m;
  }

  lemma SendKeeps(s: Link, ok: bool)
    requires Conserves(s) && InOrder(s) && s.phase == Online && s.buffer != []
    ensures Conserves(Send(s, ok)) && InOrder(Send(s, ok))
  {
    var m := s.buffer[0];
    assert s.buffer == [m] + s.buffer[1..];
    assert s.pending + s.buffer == s.pending + [m] + s.buffer[1..];
    OneGone(s, s.pending, m, s.buffer[1..]);
    var t := Send(s, ok);
    if m in s.closed {
      assert t.acked + t.dropped == s.acked + s.dropped + {m};
    } else if ok {
      assert Outstanding(t) == Outstanding(s);
    } else {
      assert Outstanding(t) == [] + Outstanding(s);
    }
  }

  lemma DisconnectKeeps(s: Link)
    requires Conserves(s)
    ensures Conserves(Disconnect(s)) && InOrder(Disconnect(s))
  {
    assert Outstanding(Disconnect(s)) == [] + Outstanding(s);
  }

  /** The oldest pending message is acknowledged. */
  lemma ResolveKeeps(s: Link, m: Id, t: Link)
    requires Conserves(s) && s.pending != [] && m == s.pending[0]
    requires t.pending == s.pending[1..] && t.buffer == s.buffer && t.submitted == s.submitted && t.closed == s.closed
    requires t.acked == s.acked + {m} && t.dropped == s.dropped
    ensures Conserves(t)
  {
    hide Without, Distinct, Members;
    var rest := s.pending[1..] + s.buffer;
    assert s.pending + s.buffer == [] + [m] + rest;
    OneGone(s, [], m, rest);
    assert t.acked + t.dropped == s.acked + s.dropped + {m};
    assert [] + rest == rest;
  }

  lemma AcknowledgeKeeps(s: Link, ok: bool)
    requires Conserves(s) && InOrder(s) && s.phase == Online
    ensures Conserves(Acknowledge(s, ok)) && InOrder(Acknowledge(s, ok))
  {
    hide Conserves;
    if s.pending == [] || !ok {
      DisconnectKeeps(s);
    } else {
      ResolveKeeps(s, s.pending[0], Acknowledge(s, ok));
      assert s.pending == [s.pending[0]] + s.pending[1..];
    }
  }

  lemma SubmitGrows(s: Link, id: Id)
    requires Conserves(s) && id !in Members(s.submitted)
    ensures Without(s.submitted + [id], s.acked + s.dropped) == Outstanding(s) + [id]
    ensures Distinct(s.submitted + [id])
    ensures Members(s.submitted + [id]) == Members(s.submitted) + {id}
  {
    MembersAdd(s.submitted, id);
    WithoutConcat(s.submitted, [id], s.acked + s.dropped);
    WithoutOne(id, s.acked + s.dropped);
  }

  lemma DrainKeeps(s: Link, id: Id)
    requires Conserves(s) && s.pending == [] && id !in Members(s.submitted)
    ensures Conserves(Drain(s, id)) && Drain(s, id).pending == []
  {
    var t := Drain(s, id);
    var buffer := s.buffer + [id];
    var gone := s.acked + s.dropped;
    SubmitGrows(s, id);
    assert Outstanding(s) + [id] == buffer;
    var more := Members(buffer) * s.closed;
    MembersAre(buffer);
    WithoutSame(buffer, s.closed, more);
    WithoutTwice(t.submitted, gone, more);
    assert t.acked + t.dropped == gone + more;
    assert Outstanding(t) == Without(buffer, s.closed);
    WithoutExact(t.submitted, gone);
    MembersAre(t.submitted);
  }

  lemma StepKeeps(s: Link, e: Event)
    requires Conserves(s) && InOrder(s)
    requires e.Submitted? ==> e.id !in Members(s.submitted)
    ensures var t := Step(s, e);
      Conserves(t) && InOrder(t)
  {
    match e
    case Submitted(id) =>
      if s.phase == Waiting {
        DrainKeeps(s, id);
      } else if s.phase == Online && s.buffer == [] {
        SubmitGrows(s, id);
        assert Outstanding(s) == s.pending;
      }
    case Sent(ok) =>
      if s.phase == Online && s.buffer != [] {
        SendKeeps(s, ok);
      }
    case Replied(ok) =>
      if s.phase == Online && s.buffer == [] {
        AcknowledgeKeeps(s, ok);
      }
    case _ =>
  }

  ghost predicate SubmissionsAmong(s: Link, events: seq<Event>) {
    forall x :: x in Members(s.submitted) ==> exists i :: 0 <= i < |events| && events[i] == Submitted(x)
  }

  lemma StepSubmits(s: Link, events: seq<Event>, e: Event)
    requires SubmissionsAmong(s, events)
    ensures SubmissionsAmong(Step(s, e), events + [e])
  {
    var all := events + [e];
    assert all[|events|] == e;
    if e.Submitted? {
      MembersAdd(s.submitted, e.id);
    }
    forall x | x in Members(Step(s, e).submitted) ensures exists i :: 0 <= i < |all| && all[i] == Submitted(x) {
      if x in Members(s.submitted) {
        var i :| 0 <= i < |events| && events[i] == Submitted(x);
        assert all[i] == Submitted(x);
      }
    }
  }

  lemma {:induction false} RunKeeps(events: seq<Event>)
    requires FreshIds(events)
    ensures var s := Run(events);
      Conserves(s) && InOrder(s) && SubmissionsAmong(s, events)
    decreases |events|
  {
    hide Conserves, InOrder, Step, SubmissionsAmong;
    if events == [] {
      InitKeeps();
    } else {
      var before := events[..|events| - 1];
      var e := events[|events| - 1];
      RunKeeps(before);
      assert events == before + [e];
      FreshId(Run(before), before, e);
      StepKeeps(Run(before), e);
      StepSubmits(Run(before), before, e);
    }
  }

  lemma InitKeeps()
    ensures Conserves(INIT) && InOrder(INIT) && SubmissionsAmong(INIT, [])
  {}

  lemma FreshId(s: Link, events: seq<Event>, e: Event)
    requires SubmissionsAmong(s, events) && FreshIds(events + [e])
    ensures e.Submitted? ==> e.id !in Members(s.submitted)
  {
    var all := events + [e];
    assert all[|events|] == e;
    if e.Submitted? {
      forall i | 0 <= i < |events| ensures events[i] != Submitted(e.id) {
        assert all[i] == events[i];
      }
    }
  }

  // ---------- the main results ----------

  /** Conservation: over any interleaving, the unacknowledged messages are exactly those submitted and
      neither acknowledged nor dropped, each once, in the order of submission; only cancelled messages are
      dropped. */
  lemma NothingLost(events: seq<Event>, id: Id)
    requires FreshIds(events)
    ensures var s := Run(events);
      && Outstanding(s) == Without(s.submitted, s.acked + s.dropped)
      && Distinct(Outstanding(s))
      && (id in Outstanding(s) <==> id in s.submitted && id !in s.acked && id !in s.dropped)
      && (id in s.dropped ==> id in s.closed && id !in s.acked)
  {
    RunKeeps(events);
    WithoutExact(Run(events).submitted, Run(events).acked + Run(events).dropped);
  }

  lemma StepOrders(s: Link, e: Event)
    requires InOrder(s)
    ensures InOrder(Step(s, e))
  {
    match e
    case Replied(ok) =>
      if s.phase == Online && s.buffer == [] && s.pending != [] && ok {
        assert s.pending == [s.pending[0]] + s.pending[1..];
      }
    case _ =>
  }

  lemma {:induction false} RunOrders(events: seq<Event>)
    ensures InOrder(Run(events))
    decreases |events|
  {
    if events != [] {
      RunOrders(events[..|events| - 1]);
      hide Step, InOrder;
      StepOrders(Run(events[..|events| - 1]), events[|events| - 1]);
    }
  }

  /** The k-th acknowledgement of a connection resolves the k-th message written on it. */
  lemma AcknowledgedInOrder(events: seq<Event>, k: nat)
    requires Run(events).phase == Online && k < |Run(events).resolved|
    ensures k < |Run(events).written| && Run(events).resolved[k] == Run(events).written[k]
  {
    RunOrders(events);
  }

  // ---------- cancelled messages ----------

  lemma {:induction false} ClosedExact(events: seq<Event>, id: Id)
    ensures id in Run(events).closed <==> Cancelled(id) in events
  {
    if events != [] {
      var before := events[..|events| - 1];
      ClosedExact(before, id);
      assert events == before + [events[|events| - 1]];
    }
  }

  lemma RunMore(events: seq<Event>, e: Event)
    ensures Run(events + [e]) == Step(Run(events), e)
  {
    assert (events + [e])[..|events|] == events;
  }

  /** A cancelled message is not transmitted: over any run, whatever happens next, it is on the wire of the
      current connection only if it was before it was cancelled. A new connection has nothing on the wire. */
  lemma CancelledNotSent(events: seq<Event>, e: Event, id: Id)
    requires Cancelled(id) in events
    ensures id in Run(events + [e]).written ==> id in Run(events).written
    ensures e != Connected ==> (id in Run(events + [e]).written <==> id in Run(events).written)
    ensures e == Connected && Run(events).phase == Connecting ==> Run(events + [e]).written == []
  {
    ClosedExact(events, id);
    RunMore(events, e);
  }

  /** Over any longer run, what is written after its cancellation is never the message. */
  lemma {:induction false} NeverSentAgain(events: seq<Event>, later: seq<Event>, id: Id)
    requires Cancelled(id) in events && id !in Run(events).written
    ensures id !in Run(events + later).written
    decreases |later|
  {
    if later == [] {
      assert events + later == events;
    } else {
      var last := |later| - 1;
      NeverSentAgain(events, later[..last], id);
      assert events + later == events + later[..last] + [later[last]];
      CancelledNotSent(events + later[..last], later[last], id);
    }
  }

  // ---------- progress ----------

  /** What is outstanding and not on the wire, in the order of submission. */
  function Unsent(s: Link): seq<Id> {
    Without(s.submitted, s.acked + s.dropped + Members(s.pending))
  }

  lemma UnsentIsBuffer(s: Link)
    requires Conserves(s)
    ensures Unsent(s) == s.buffer
  {
    hide Without, Members;
    WithoutTwice(s.submitted, s.acked + s.dropped, Members(s.pending));
    WithoutExact(s.submitted, s.acked + s.dropped);
    AfterFront(s.pending, s.buffer);
  }

  lemma AfterFront(front: seq<Id>, rest: seq<Id>)
    requires Distinct(front + rest)
    ensures Without(front + rest, Members(front)) == rest
  {
    hide Without, Members;
    var gone := Members(front);
    WithoutConcat(front, rest, gone);
    MembersAre(front);
    WithoutAll(front, gone);
    forall i, j | 0 <= i < |front| && 0 <= j < |rest| ensures front[i] != rest[j] {
      var all := front + rest;
      assert all[i] == front[i] && all[|front| + j] == rest[j];
    }
    WithoutNone(rest, gone);
    assert [] + rest == rest;
  }

  lemma {:induction false} WithoutAll(s: seq<Id>, gone: set<Id>)
    requires forall x :: x in s ==> x in gone
    ensures Without(s, gone) == []
  {
    if s != [] {
      WithoutAll(s[..|s| - 1], gone);
    }
  }

  /** A write that succeeds puts the oldest unsent message on the wire, unless it was cancelled: then it is
      dropped. A write that fails ends the connection and loses nothing. */
  lemma OldestSentFirst(events: seq<Event>, ok: bool)
    requires FreshIds(events) && Run(events).phase == Online && Unsent(Run(events)) != []
    ensures var s, t := Run(events), Run(events + [Sent(ok)]);
      var m := Unsent(s)[0];
      if Cancelled(m) in events then t.written == s.written && t.dropped == s.dropped + {m} && t.phase == Online
      else if ok then t.written == s.written + [m] && Unsent(t) == Unsent(s)[1..] && t.phase == Online
      else t.phase == Connecting && Unsent(t) == Outstanding(s)
  {
    var s := Run(events);
    RunKeeps(events);
    UnsentIsBuffer(s);
    ClosedExact(events, s.buffer[0]);
    RunMore(events, Sent(ok));
    SendKeeps(s, ok);
    UnsentIsBuffer(Send(s, ok));
  }

  /** An acknowledgement resolves the oldest message on the wire; a failed or unexpected one ends the connection
      and loses nothing. */
  lemma ReplyResolves(events: seq<Event>, ok: bool)
    requires FreshIds(events) && Run(events).phase == Online && Unsent(Run(events)) == []
    ensures var s, t := Run(events), Run(events + [Replied(ok)]);
      if ok && |s.resolved| < |s.written| then
        t.resolved == s.written[..|s.resolved| + 1] && t.acked == s.acked + {s.written[|s.resolved|]} &&
          t.phase == Online
      else t.phase == Connecting && Unsent(t) == Outstanding(s) && t.acked == s.acked
  {
    var s := Run(events);
    RunKeeps(events);
    UnsentIsBuffer(s);
    RunMore(events, Replied(ok));
    AcknowledgeKeeps(s, ok);
    UnsentIsBuffer(Acknowledge(s, ok));
  }

  /** A submitted message is taken while waiting to reconnect, and otherwise when nothing is left to send. While
      waiting, the cancelled messages are let go, and only they. */
  lemma SubmissionTaken(events: seq<Event>, id: Id)
    requires FreshIds(events + [Submitted(id)])
    ensures var s, t := Run(events), Run(events + [Submitted(id)]);
      if s.phase == Waiting then
        && t.submitted == s.submitted + [id]
        && forall x :: x in Unsent(t) <==> (x in Unsent(s) || x == id) && Cancelled(x) !in events
      else if s.phase == Online && Unsent(s) == [] then t.submitted == s.submitted + [id] && Unsent(t) == [id]
      else t == s
  {
    var all := events + [Submitted(id)];
    assert all[..|events|] == events && all[|events|] == Submitted(id);
    assert FreshIds(events) by {
      forall i, j | 0 <= i < j < |events| && events[i].Submitted? && events[j].Submitted?
        ensures events[i].id != events[j].id
      {
        assert all[i] == events[i] && all[j] == events[j];
      }
    }
    RunKeeps(events);
    RunKeeps(all);
    UnsentIsBuffer(Run(events));
    UnsentIsBuffer(Run(all));
    var s := Run(events);
    if s.phase == Waiting {
      WithoutExact(s.buffer + [id], s.closed);
      forall x ensures x in s.closed <==> Cancelled(x) in events {
        ClosedExact(events, x);
      }
    }
  }

  /** The attempts to connect that have failed since the last one that succeeded. */
  function Failures(events: seq<Event>): nat {
    if events == [] then 0
    else
      var before := events[..|events| - 1];
      var e := events[|events| - 1];
      if Run(before).phase != Connecting then Failures(before)
      else if e.Connected? then 0
      else if e.Refused? then Failures(before) + 1
      else Failures(before)
  }

  /** After k failed attempts the connection waits 200 doubled k - 1 times, at most a minute, and the timer then
      doubles the delay once more. */
  lemma {:induction false} BackoffExact(events: seq<Event>)
    ensures var s := Run(events);
      var k := Failures(events);
      if s.phase == Waiting then k > 0 && s.delay == Min(Doubled(k - 1), MAX_DELAY) && s.retry == k - 1
      else s.delay == Min(Doubled(k), MAX_DELAY) && s.retry == k && (s.phase == Online ==> k == 0)
    decreases |events|
  {
    if events != [] {
      BackoffExact(events[..|events| - 1]);
    }
  }

  // ---------- the loop ----------

  class Connection {
    var phase: Phase
    var buffer: seq<Id>
    var pendingReplies: seq<Id>
    var delay: nat
    var retry: nat
    var closed: set<Id>
    ghost var submitted: seq<Id>
    ghost var acked: set<Id>
    ghost var dropped: set<Id>
    ghost var written: seq<Id>
    ghost var resolved: seq<Id>

    ghost function Value(): Link
      reads this
    {
      Link(phase, buffer, pendingReplies, delay, retry, submitted, closed, acked, dropped, written, resolved)
    }

    constructor ()
      ensures Value() == INIT
    {
      phase, buffer, pendingReplies, delay, retry := Connecting, [], [], RETRY_DELAY, 0;
      closed, submitted, acked, dropped, written, resolved := {}, [], {}, {}, [], [];
    }

    /** Put the messages without an acknowledgement back in front, the last one first. */
    method Restore()
      modifies this
      ensures Value() == Disconnect(old(Value()))
    {
      while pendingReplies != []
        invariant pendingReplies + buffer == old(pendingReplies + buffer)
        invariant Value() == old(Value()).(pending := pendingReplies, buffer := buffer)
        decreases |pendingReplies|
      {
        var last := |pendingReplies| - 1;
        assert pendingReplies[..last] + ([pendingReplies[last]] + buffer) == pendingReplies + buffer;
        buffer := [pendingReplies[last]] + buffer;
        pendingReplies := pendingReplies[..last];
      }
      phase := Connecting;
    }

    /** Pop the front of the buffer and try to write it. */
    method SendFront(ok: bool)
      requires buffer != []
      modifies this
      ensures Value() == Send(old(Value()), ok)
    {
      var m := buffer[0];
      buffer := buffer[1..];
      if m in closed {
        dropped := dropped + {m};
      } else if ok {
        pendingReplies := pendingReplies + [m];
        written := written + [m];
      } else {
        buffer := [m] + buffer;
        Restore();
      }
    }

    /** A reply, or the end of the stream. */
    method OnReply(ok: bool)
      modifies this
      ensures Value() == Acknowledge(old(Value()), ok)
    {
      if pendingReplies == [] {
        Restore();
        return;
      }
      var m := pendingReplies[0];
      pendingReplies := pendingReplies[1..];
      if ok {
        acked := acked + {m};
        resolved := resolved + [m];
      } else {
        pendingReplies := [m] + pendingReplies;
        Restore();
      }
    }

    /** `push_back`, then `retain` the messages that are not cancelled. */
    method DrainOne(id: Id)
      modifies this
      ensures Value() == Drain(old(Value()), id)
    {
      var all := buffer + [id];
      submitted := submitted + [id];
      dropped := dropped + (Members(all) * closed);
      var kept: seq<Id> := [];
      assert all[..0] == [];
      for i := 0 to |all|
        invariant kept == Without(all[..i], closed)
      {
        assert all[..i + 1][..i] == all[..i];
        if all[i] !in closed {
          kept := kept + [all[i]];
        }
      }
      assert all[..|all|] == all;
      buffer := kept;
    }

    method Handle(event: Event)
      modifies this
      ensures Value() == Step(old(Value()), event)
    {
      match event
      case Connected =>
        if phase == Connecting {
          phase, delay, retry := Online, RETRY_DELAY, 0;
          written, resolved := [], [];
        }
      case Refused =>
        if phase == Connecting {
          phase := Waiting;
        }
      case TimerFired =>
        if phase == Waiting {
          delay := Min(2 * delay, MAX_DELAY);
          retry := retry + 1;
          phase := Connecting;
        }
      case Submitted(id) =>
        if phase == Waiting {
          DrainOne(id);
        } else if phase == Online && buffer == [] {
          buffer := buffer + [id];
          submitted := submitted + [id];
        }
      case Cancelled(id) =>
        closed := closed + {id};
      case Sent(ok) =>
        if phase == Online && buffer != [] {
          SendFront(ok);
        }
      case Replied(ok) =>
        if phase == Online && buffer == [] {
          OnReply(ok);
        }
    }

    /** The connection over a whole run. */
    method Serve(events: seq<Event>)
      requires Value() == INIT
      modifies this
      ensures Value() == Run(events)
    {
      hide Step;
      assert events[..0] == [];
      for i := 0 to |events|
        invariant Value() == Run(events[..i])
      {
        assert events[..i + 1][..i] == events[..i];
        Handle(events[i]);
      }
      assert events[..|events|] == events;
    }
  }
}
