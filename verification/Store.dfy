/** The notify-on-write store of store/src/lib.rs: a command loop that behaves as an atomic map with
    blocking reads. */
module Store {
  import opened Dag

  type Key = nat
  type Value = nat
  /** The one-shot channel a reply goes to. */
  type Reader = nat

  /** `ok` is the outcome of the database operation. */
  datatype Command =
    | Write(key: Key, value: Value, ok: bool)
    | Read(key: Key, reader: Reader, ok: bool)
    | NotifyRead(key: Key, reader: Reader, ok: bool)

  datatype Answer = Found(value: Value) | Missing | Failed

  datatype Reply = Reply(reader: Reader, answer: Answer)

  datatype StoreState = StoreState(db: map<Key, Value>, obligations: map<Key, seq<Reader>>, replies: seq<Reply>)

  function ReplyAll(readers: seq<Reader>, value: Value): seq<Reply> {
    seq(|readers|, i requires 0 <= i < |readers| => Reply(readers[i], Found(value)))
  }

  function Waiters(s: StoreState, key: Key): seq<Reader> {
    if key in s.obligations then s.obligations[key] else []
  }

  function Process(s: StoreState, c: Command): StoreState {
    match c
    case Write(k, v, ok) =>
      StoreState(if ok then s.db[k := v] else s.db, s.obligations - {k}, s.replies + ReplyAll(Waiters(s, k), v))
    case Read(k, r, ok) =>
      var answer := if !ok then Failed else if k in s.db then Found(s.db[k]) else Missing;
      s.(replies := s.replies + [Reply(r, answer)])
    case NotifyRead(k, r, ok) =>
      if ok && k !in s.db then s.(obligations := s.obligations[k := Waiters(s, k) + [r]])
      else s.(replies := s.replies + [Reply(r, if ok then Found(s.db[k]) else Failed)])
  }

  function Run(cmds: seq<Command>): StoreState {
    if cmds == [] then StoreState(map[], map[], [])
    else Process(Run(cmds[..|cmds| - 1]), cmds[|cmds| - 1])
  }

  // ---------- the reference: an atomic map with blocking reads ----------

  /** The last value successfully written to the key. */
  function Content(cmds: seq<Command>, key: Key): Option<Value> {
    if cmds == [] then None
    else
      match cmds[|cmds| - 1]
      case Write(k, v, true) => if k == key then Some(v) else Content(cmds[..|cmds| - 1], key)
      case _ => Content(cmds[..|cmds| - 1], key)
  }

  /** The first value written to the key. */
  function FirstWritten(cmds: seq<Command>, key: Key): Option<Value> {
    if cmds == [] then None
    else
      match cmds[0]
      case Write(k, v, _) => if k == key then Some(v) else FirstWritten(cmds[1..], key)
      case _ => FirstWritten(cmds[1..], key)
  }

  /** What the reader of the i-th command gets, if anything: a plain read the content at that moment; a
      blocking read the content, or else the first value written afterwards. */
  function Due(cmds: seq<Command>, i: nat): Option<Answer>
    requires i < |cmds| && !cmds[i].Write?
  {
    match cmds[i]
    case Read(k, _, ok) =>
      if !ok then Some(Failed)
      else if Content(cmds[..i], k).Some? then Some(Found(Content(cmds[..i], k).value)) else Some(Missing)
    case NotifyRead(k, _, ok) =>
      if !ok then Some(Failed)
      else if Content(cmds[..i], k).Some? then Some(Found(Content(cmds[..i], k).value))
      else if FirstWritten(cmds[i + 1..], k).Some? then Some(Found(FirstWritten(cmds[i + 1..], k).value))
      else None
  }

  function AnswersTo(replies: seq<Reply>, reader: Reader): seq<Answer> {
    if replies == [] then []
    else
      var last := replies[|replies| - 1];
      AnswersTo(replies[..|replies| - 1], reader) + if last.reader == reader then [last.answer] else []
  }

  function AsList<T>(o: Option<T>): seq<T> {
    match o
    case None => []
    case Some(x) => [x]
  }

  ghost predicate DistinctReaders(cmds: seq<Command>) {
    forall i, j :: 0 <= i < j < |cmds| && !cmds[i].Write? && !cmds[j].Write? ==> cmds[i].reader != cmds[j].reader
  }

  // ---------- the invariants ----------

  /** The i-th command is a blocking read that is still waiting. */
  predicate StillWaits(cmds: seq<Command>, i: nat)
    requires i < |cmds|
  {
    cmds[i].NotifyRead? && Due(cmds, i) == None
  }

  /** A key with waiting readers is never in the database, and its queue is never empty. */
  ghost predicate Blocked(s: StoreState) {
    forall k :: k in s.obligations ==> k !in s.db && s.obligations[k] != []
  }

  /** The database is the abstract map. */
  ghost predicate Refines(s: StoreState, cmds: seq<Command>) {
    forall k :: Content(cmds, k) == if k in s.db then Some(s.db[k]) else None
  }

  /** The readers still waiting for a key, in the order they came. */
  function Queue(cmds: seq<Command>, key: Key): seq<Reader> {
    if cmds == [] then []
    else
      var before := cmds[..|cmds| - 1];
      match cmds[|cmds| - 1]
      case Write(k, _, _) => if k == key then [] else Queue(before, key)
      case NotifyRead(k, r, ok) =>
        if k == key && ok && Content(before, key).None? then Queue(before, key) + [r] else Queue(before, key)
      case _ => Queue(before, key)
  }

  lemma {:induction false} RunRefines(cmds: seq<Command>)
    ensures Blocked(Run(cmds)) && Refines(Run(cmds), cmds)
    ensures forall k :: Waiters(Run(cmds), k) == Queue(cmds, k)
    decreases |cmds|
  {
    if cmds != [] {
      RunRefines(cmds[..|cmds| - 1]);
    }
  }

  // ---------- each reader is answered once, as due ----------

  lemma {:induction false} FirstWrittenAppend(cmds: seq<Command>, c: Command, key: Key)
    ensures FirstWritten(cmds + [c], key) ==
      if FirstWritten(cmds, key).Some? then FirstWritten(cmds, key)
      else if c.Write? && c.key == key then Some(c.value) else None
  {
    var all := cmds + [c];
    if cmds == [] {
      assert all[1..] == [];
    } else {
      assert all[1..] == cmds[1..] + [c];
      FirstWrittenAppend(cmds[1..], c, key);
    }
  }

  /** One more command settles a waiting reader just when it writes the reader's key. */
  lemma DueAppend(cmds: seq<Command>, c: Command, i: nat)
    requires i < |cmds| && !cmds[i].Write?
    ensures var all := cmds + [c];
      Due(all, i) ==
        if Due(cmds, i) == None && c.Write? && c.key == cmds[i].key then Some(Found(c.value)) else Due(cmds, i)
  {
    var all := cmds + [c];
    assert all[..i] == cmds[..i] && all[i + 1..] == cmds[i + 1..] + [c];
    FirstWrittenAppend(cmds[i + 1..], c, cmds[i].key);
  }

  lemma {:induction false} AnswersConcat(s: seq<Reply>, t: seq<Reply>, reader: Reader)
    ensures AnswersTo(s + t, reader) == AnswersTo(s, reader) + AnswersTo(t, reader)
  {
    if t == [] {
      assert s + t == s;
    } else {
      var last := |t| - 1;
      AnswersConcat(s, t[..last], reader);
      assert (s + t)[..|s + t| - 1] == s + t[..last];
    }
  }

  lemma {:induction false} AnswersAll(readers: seq<Reader>, value: Value, reader: Reader)
    requires forall i, j :: 0 <= i < j < |readers| ==> readers[i] != readers[j]
    ensures AnswersTo(ReplyAll(readers, value), reader) == if reader in readers then [Found(value)] else []
  {
    if readers != [] {
      var last := |readers| - 1;
      AnswersAll(readers[..last], value, reader);
      var replies := ReplyAll(readers, value);
      assert replies[..|replies| - 1] == ReplyAll(readers[..last], value);
      assert readers == readers[..last] + [readers[last]];
      assert reader in readers <==> reader in readers[..last] || reader == readers[last];
      if reader in readers[..last] {
        var i :| 0 <= i < last && readers[i] == reader;
      }
    }
  }

  ghost predicate Unknown(cmds: seq<Command>, reader: Reader) {
    forall i :: 0 <= i < |cmds| && !cmds[i].Write? ==> cmds[i].reader != reader
  }

  lemma {:induction false} UnknownUnanswered(cmds: seq<Command>, reader: Reader)
    requires Unknown(cmds, reader)
    ensures AnswersTo(Run(cmds).replies, reader) == []
    ensures forall k :: reader !in Queue(cmds, k)
    decreases |cmds|
  {
    if cmds != [] {
      var before := cmds[..|cmds| - 1];
      var c := cmds[|cmds| - 1];
      UnknownUnanswered(before, reader);
      RunRefines(before);
      if c.Write? {
        UnknownInAll(Queue(before, c.key), c.value, reader);
        AnswersConcat(Run(before).replies, ReplyAll(Queue(before, c.key), c.value), reader);
      }
    }
  }

  lemma {:induction false} UnknownInAll(readers: seq<Reader>, value: Value, reader: Reader)
    requires reader !in readers
    ensures AnswersTo(ReplyAll(readers, value), reader) == []
  {
    if readers != [] {
      var last := |readers| - 1;
      UnknownInAll(readers[..last], value, reader);
      var replies := ReplyAll(readers, value);
      assert replies[..|replies| - 1] == ReplyAll(readers[..last], value);
    }
  }

  lemma DistinctPrefix(cmds: seq<Command>)
    requires DistinctReaders(cmds) && cmds != []
    ensures DistinctReaders(cmds[..|cmds| - 1])
    ensures !cmds[|cmds| - 1].Write? ==> Unknown(cmds[..|cmds| - 1], cmds[|cmds| - 1].reader)
  {}

  /** The readers queued for a key are exactly the blocking reads of it still waiting. */
  lemma {:induction false} QueueExact(cmds: seq<Command>, key: Key, i: nat)
    requires DistinctReaders(cmds) && i < |cmds| && !cmds[i].Write?
    ensures cmds[i].reader in Queue(cmds, key) <==> StillWaits(cmds, i) && cmds[i].key == key
    decreases |cmds|
  {
    var last := |cmds| - 1;
    var before := cmds[..last];
    assert cmds == before + [cmds[last]];
    DistinctPrefix(cmds);
    if i < last {
      QueueExact(before, key, i);
      DueAppend(before, cmds[last], i);
    } else {
      UnknownUnanswered(before, cmds[i].reader);
      assert cmds[i + 1..] == [] && cmds[..i] == before;
    }
  }

  lemma {:induction false} QueueDistinct(cmds: seq<Command>, key: Key)
    requires DistinctReaders(cmds)
    ensures forall i, j :: 0 <= i < j < |Queue(cmds, key)| ==> Queue(cmds, key)[i] != Queue(cmds, key)[j]
    decreases |cmds|
  {
    if cmds != [] {
      DistinctPrefix(cmds);
      QueueDistinct(cmds[..|cmds| - 1], key);
      if !cmds[|cmds| - 1].Write? {
        UnknownUnanswered(cmds[..|cmds| - 1], cmds[|cmds| - 1].reader);
      }
    }
  }

  /** What one command sends to readers other than its own. */
  lemma OthersAnswered(s: StoreState, c: Command, reader: Reader)
    requires !c.Write? ==> c.reader != reader
    requires forall i, j :: c.Write? && 0 <= i < j < |Waiters(s, c.key)| ==>
      Waiters(s, c.key)[i] != Waiters(s, c.key)[j]
    ensures AnswersTo(Process(s, c).replies, reader) ==
      AnswersTo(s.replies, reader) + if c.Write? && reader in Waiters(s, c.key) then [Found(c.value)] else []
  {
    if c.Write? {
      AnswersAll(Waiters(s, c.key), c.value, reader);
      AnswersConcat(s.replies, ReplyAll(Waiters(s, c.key), c.value), reader);
    }
  }

  lemma RunLast(cmds: seq<Command>)
    requires cmds != []
    ensures Run(cmds) == Process(Run(cmds[..|cmds| - 1]), cmds[|cmds| - 1])
  {}

  lemma OwnAnswer(s: StoreState, before: seq<Command>, c: Command)
    requires !c.Write? && AnswersTo(s.replies, c.reader) == [] && Refines(s, before)
    ensures AnswersTo(Process(s, c).replies, c.reader) == AsList(Due(before + [c], |before|))
  {
    var all := before + [c];
    assert all[..|before|] == before && all[|before|] == c && all[|before| + 1..] == [];
    hide Content;
    assert Content(before, c.key) == if c.key in s.db then Some(s.db[c.key]) else None;
  }

  lemma LastAnswered(cmds: seq<Command>)
    requires DistinctReaders(cmds) && cmds != [] && !cmds[|cmds| - 1].Write?
    ensures var last := |cmds| - 1;
      AnswersTo(Run(cmds).replies, cmds[last].reader) == AsList(Due(cmds, last))
  {
    hide Run, Due, AnswersTo, Queue, Refines, Process;
    var before := cmds[..|cmds| - 1];
    var c := cmds[|cmds| - 1];
    assert cmds == before + [c];
    RunLast(cmds);
    DistinctPrefix(cmds);
    RunRefines(before);
    UnknownUnanswered(before, c.reader);
    OwnAnswer(Run(before), before, c);
  }

  lemma DistinctNext(cmds: seq<Command>, c: Command, i: nat)
    requires DistinctReaders(cmds + [c]) && i < |cmds| && !cmds[i].Write?
    ensures DistinctReaders(cmds) && (!c.Write? ==> c.reader != cmds[i].reader)
  {
    var all := cmds + [c];
    assert all[..|cmds|] == cmds && all[i] == cmds[i] && all[|cmds|] == c;
    DistinctPrefix(all);
  }

  lemma WaitersSettle(cmds: seq<Command>, c: Command, i: nat)
    requires DistinctReaders(cmds + [c]) && i < |cmds| && !cmds[i].Write?
    requires AnswersTo(Run(cmds).replies, cmds[i].reader) == AsList(Due(cmds, i))
    ensures AnswersTo(Process(Run(cmds), c).replies, cmds[i].reader) == AsList(Due(cmds + [c], i))
  {
    hide Run, Due, AnswersTo, Process, Queue, Waiters, DistinctReaders, Refines, Blocked, StillWaits;
    DistinctNext(cmds, c, i);
    DueAppend(cmds, c, i);
    RunRefines(cmds);
    QueueExact(cmds, c.key, i);
    QueueDistinct(cmds, c.key);
    WaitsIfDue(cmds, i);
    OthersAnswered(Run(cmds), c, cmds[i].reader);
  }

  lemma WaitsIfDue(cmds: seq<Command>, i: nat)
    requires i < |cmds| && !cmds[i].Write?
    ensures StillWaits(cmds, i) <==> Due(cmds, i) == None
  {
    hide Content, FirstWritten;
  }

  /** Store refinement: every reader is answered at most once, with the value already there or the first
      one written later, and not at all just as long as nothing is written. */
  lemma {:induction false} AnsweredAsDue(cmds: seq<Command>, i: nat)
    requires DistinctReaders(cmds) && i < |cmds| && !cmds[i].Write?
    ensures AnswersTo(Run(cmds).replies, cmds[i].reader) == AsList(Due(cmds, i))
    decreases |cmds|
  {
    hide Due, AnswersTo, Process, Run, Queue;
    var last := |cmds| - 1;
    if i == last {
      LastAnswered(cmds);
    } else {
      var before := cmds[..last];
      assert cmds == before + [cmds[last]];
      DistinctPrefix(cmds);
      RunLast(cmds);
      AnsweredAsDue(before, i);
      WaitersSettle(before, cmds[last], i);
    }
  }

  lemma QueueLast(cmds: seq<Command>, i: nat, j: nat) returns (p: nat, q: nat)
    requires DistinctReaders(cmds) && i < j == |cmds| - 1
    requires StillWaits(cmds, i) && StillWaits(cmds, j) && cmds[i].key == cmds[j].key
    requires StillWaits(cmds[..j], i)
    ensures var queue := Queue(cmds, cmds[i].key);
      p < q < |queue| && queue[p] == cmds[i].reader && queue[q] == cmds[j].reader
  {
    var key := cmds[i].key;
    var before := cmds[..j];
    assert before[i] == cmds[i];
    DistinctPrefix(cmds);
    QueueExact(before, key, i);
    QueueExact(cmds, key, j);
    UnknownUnanswered(before, cmds[j].reader);
    hide StillWaits, DistinctReaders;
    p :| 0 <= p < |Queue(before, key)| && Queue(before, key)[p] == cmds[i].reader;
    q := |Queue(before, key)|;
  }

  /** Waiting readers of a key are queued in the order they came. */
  lemma {:induction false} QueuedInOrder(cmds: seq<Command>, i: nat, j: nat) returns (p: nat, q: nat)
    requires DistinctReaders(cmds) && i < j < |cmds|
    requires StillWaits(cmds, i) && StillWaits(cmds, j) && cmds[i].key == cmds[j].key
    ensures var queue := Waiters(Run(cmds), cmds[i].key);
      p < q < |queue| && queue[p] == cmds[i].reader && queue[q] == cmds[j].reader
    decreases |cmds|
  {
    hide Run, Waiters, Blocked, Refines;
    RunRefines(cmds);
    var last := |cmds| - 1;
    var before := cmds[..last];
    assert cmds == before + [cmds[last]];
    DueAppend(before, cmds[last], i);
    if j == last {
      p, q := QueueLast(cmds, i, j);
    } else {
      DueAppend(before, cmds[last], j);
      DistinctPrefix(cmds);
      RunRefines(before);
      p, q := QueuedInOrder(before, i, j);
    }
  }

  lemma {:induction false} AnswerAt(replies: seq<Reply>, reader: Reader) returns (p: nat)
    requires AnswersTo(replies, reader) != []
    ensures p < |replies| && replies[p].reader == reader
  {
    var last := |replies| - 1;
    p := last;
    if replies[last].reader != reader {
      p := AnswerAt(replies[..last], reader);
    }
  }

  /** A reader that is no longer waiting has its reply. */
  lemma Answered(cmds: seq<Command>, i: nat) returns (p: nat)
    requires DistinctReaders(cmds) && i < |cmds| && !cmds[i].Write? && Due(cmds, i).Some?
    ensures p < |Run(cmds).replies| && Run(cmds).replies[p].reader == cmds[i].reader
  {
    hide Run, Due, DistinctReaders;
    AnsweredAsDue(cmds, i);
    p := AnswerAt(Run(cmds).replies, cmds[i].reader);
  }

  lemma RepliesGrow(s: StoreState, c: Command)
    ensures s.replies <= Process(s, c).replies
    ensures c.Write? ==> Process(s, c).replies == s.replies + ReplyAll(Waiters(s, c.key), c.value)
    ensures !c.Write? && Process(s, c).replies != s.replies ==>
      |Process(s, c).replies| == |s.replies| + 1 && Process(s, c).replies[|s.replies|].reader == c.reader
  {}

  /** If the last command is a blocking read answered at once, no earlier one of its key is waiting. */
  lemma LastServed(cmds: seq<Command>, i: nat) returns (p: nat, q: nat)
    requires DistinctReaders(cmds) && i < |cmds| - 1
    requires var j := |cmds| - 1;
      cmds[i].NotifyRead? && cmds[j].NotifyRead? && cmds[j].ok && cmds[i].key == cmds[j].key && Due(cmds, j).Some?
    ensures var replies := Run(cmds).replies;
      p < q < |replies| && replies[p].reader == cmds[i].reader && replies[q].reader == cmds[|cmds| - 1].reader
  {
    var j := |cmds| - 1;
    var before := cmds[..j];
    assert cmds == before + [cmds[j]] && before[i] == cmds[i];
    DistinctPrefix(cmds);
    RunLast(cmds);
    RunRefines(before);
    assert cmds[j + 1..] == [];
    assert Content(before, cmds[j].key).Some?;
    hide Run, Content, DistinctReaders, Due;
    QueueExact(before, cmds[i].key, i);
    WaitsIfDue(before, i);
    assert Queue(before, cmds[i].key) == [];
    p := Answered(before, i);
    q := |Run(before).replies|;
  }

  /** The last command answers the waiting reader of the j-th. */
  lemma WriteServes(before: seq<Command>, c: Command, i: nat, j: nat) returns (p: nat, q: nat)
    requires DistinctReaders(before) && i < j < |before|
    requires before[i].NotifyRead? && before[j].NotifyRead? && StillWaits(before, j) && before[i].key == before[j].key
    requires c.Write? && c.key == before[j].key
    ensures var replies := Process(Run(before), c).replies;
      p < q < |replies| && replies[p].reader == before[i].reader && replies[q].reader == before[j].reader
  {
    hide Run, Process, DistinctReaders, StillWaits, Refines, Blocked;
    RunRefines(before);
    RepliesGrow(Run(before), c);
    var base := |Run(before).replies|;
    WaitsIfDue(before, i);
    if StillWaits(before, i) {
      p, q := QueuedInOrder(before, i, j);
      p, q := base + p, base + q;
    } else {
      p := Answered(before, i);
      QueueExact(before, c.key, j);
      var k :| 0 <= k < |Queue(before, c.key)| && Queue(before, c.key)[k] == before[j].reader;
      q := base + k;
    }
  }

  /** First come, first served: once a blocking read has its reply, every earlier one of the same key has had
      its reply before. */
  lemma {:induction false} FirstComeFirstServed(cmds: seq<Command>, i: nat, j: nat) returns (p: nat, q: nat)
    requires DistinctReaders(cmds) && i < j < |cmds|
    requires cmds[i].NotifyRead? && cmds[j].NotifyRead? && cmds[j].ok && cmds[i].key == cmds[j].key
    requires Due(cmds, j).Some?
    ensures var replies := Run(cmds).replies;
      p < q < |replies| && replies[p].reader == cmds[i].reader && replies[q].reader == cmds[j].reader
    decreases |cmds|
  {
    hide Run, Process, Due, DistinctReaders;
    var last := |cmds| - 1;
    var before := cmds[..last];
    assert cmds == before + [cmds[last]];
    if j == last {
      p, q := LastServed(cmds, i);
    } else {
      DistinctPrefix(cmds);
      DueAppend(before, cmds[last], j);
      RunLast(cmds);
      WaitsIfDue(before, j);
      if Due(before, j).Some? {
        p, q := FirstComeFirstServed(before, i, j);
        RepliesGrow(Run(before), cmds[last]);
      } else {
        p, q := WriteServes(before, cmds[last], i, j);
      }
    }
  }

  // ---------- the loop ----------

  class Store {
    var db: map<Key, Value>
    var obligations: map<Key, seq<Reader>>
    var replies: seq<Reply>

    ghost function State(): StoreState
      reads this
    {
      StoreState(db, obligations, replies)
    }

    constructor ()
      ensures State() == StoreState(map[], map[], [])
    {
      db, obligations, replies := map[], map[], [];
    }

    method Handle(command: Command)
      modifies this
      ensures State() == Process(old(State()), command)
    {
      match command
      case Write(key, value, ok) =>
        if ok {
          db := db[key := value];
        }
        if key in obligations {
          var senders := obligations[key];
          obligations := obligations - {key};
          ghost var all := senders;
          ghost var before := replies;
          while senders != []
            invariant |senders| <= |all| && senders == all[|all| - |senders|..]
            invariant replies == before + ReplyAll(all, value)[..|all| - |senders|]
            invariant db == if ok then old(db)[key := value] else old(db)
            invariant obligations == old(obligations) - {key}
          {
            replies := replies + [Reply(senders[0], Found(value))];
            senders := senders[1..];
          }
        }
      case Read(key, reader, ok) =>
        var response := if !ok then Failed else if key in db then Found(db[key]) else Missing;
        replies := replies + [Reply(reader, response)];
      case NotifyRead(key, reader, ok) =>
        var response := if !ok then Failed else if key in db then Found(db[key]) else Missing;
        if response == Missing {
          obligations := obligations[key := (if key in obligations then obligations[key] else []) + [reader]];
        } else {
          replies := replies + [Reply(reader, response)];
        }
    }

    /** The command loop over a run. */
    method Serve(commands: seq<Command>)
      requires State() == StoreState(map[], map[], [])
      modifies this
      ensures State() == Run(commands)
    {
      assert commands[..0] == [];
      for i := 0 to |commands|
        invariant State() == Run(commands[..i])
      {
        assert commands[..i + 1][..i] == commands[..i];
        Handle(commands[i]);
      }
      assert commands[..|commands|] == commands;
    }
  }
}
