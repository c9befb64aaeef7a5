/** The resumable loop of extract_batches_from_ordered_certs.py: one record per batch, whatever the
    interruptions. */
module Extract {
  import opened Dag

  type BatchDigest = nat

  /** A value of the certificate's `transactions` map. */
  datatype TxField = Listed(txs: seq<string>) | Text(text: string) | Other

  /** `payload` holds the batch digests in the sorted order the loop visits them. */
  datatype OrderedCert = OrderedCert(id: string, round: nat, author: nat, payload: seq<BatchDigest>,
                                     transactions: map<BatchDigest, TxField>)

  datatype Record = Record(certId: string, round: nat, author: nat, batchDigest: BatchDigest, transactions: seq<string>)

  // ---------- pure helpers ----------

  predicate Blank(c: char) {
    c in {' ', '\t', '\n', '\r'}
  }

  function StripLeft(s: string): string {
    if s != [] && Blank(s[0]) then StripLeft(s[1..]) else s
  }

  function StripRight(s: string): string {
    if s != [] && Blank(s[|s| - 1]) then StripRight(s[..|s| - 1]) else s
  }

  predicate HexPrefixed(s: string) {
    |s| >= 2 && s[0] == '0' && s[1] in {'x', 'X'}
  }

  function NormalizeTxHex(tx: string): string {
    var s := StripRight(StripLeft(tx));
    if s == "" || HexPrefixed(s) then s else "0x" + s
  }

  function NormalizeAll(txs: seq<string>): seq<string> {
    seq(|txs|, i requires 0 <= i < |txs| => NormalizeTxHex(txs[i]))
  }

  /** The transactions listed in the certificate, unless they are missing or not a list. */
  function FromCertificate(transactions: map<BatchDigest, TxField>, digest: BatchDigest): Option<seq<string>> {
    if digest in transactions && transactions[digest].Listed? then Some(transactions[digest].txs) else None
  }

  predicate Trimmed(s: string) {
    s != [] ==> !Blank(s[0]) && !Blank(s[|s| - 1])
  }

  lemma {:induction false} StripLeftTrims(s: string)
    ensures StripLeft(s) != [] ==> !Blank(StripLeft(s)[0])
  {
    if s != [] && Blank(s[0]) {
      StripLeftTrims(s[1..]);
    }
  }

  lemma {:induction false} StripRightTrims(s: string)
    requires s != [] ==> !Blank(s[0])
    ensures Trimmed(StripRight(s))
  {
    if s != [] && Blank(s[|s| - 1]) {
      StripRightTrims(s[..|s| - 1]);
    }
  }

  lemma TrimmedStays(s: string)
    requires Trimmed(s)
    ensures StripRight(StripLeft(s)) == s
  {}

  /** Normalising gives a trimmed text with a hex prefix, or nothing, and leaves such a text alone. */
  lemma NormalizeTwice(tx: string)
    ensures var s := NormalizeTxHex(tx);
      Trimmed(s) && (s == "" || HexPrefixed(s)) && NormalizeTxHex(s) == s
  {
    StripLeftTrims(tx);
    StripRightTrims(StripLeft(tx));
    TrimmedStays(NormalizeTxHex(tx));
  }

  // ---------- the batches in order ----------

  datatype Entry = Entry(cert: OrderedCert, digest: BatchDigest)

  function EntriesOf(cert: OrderedCert, payload: seq<BatchDigest>): seq<Entry> {
    seq(|payload|, i requires 0 <= i < |payload| => Entry(cert, payload[i]))
  }

  function Entries(certs: seq<OrderedCert>): seq<Entry> {
    if certs == [] then []
    else
      var last := |certs| - 1;
      Entries(certs[..last]) + EntriesOf(certs[last], certs[last].payload)
  }

  /** Certificate order, then digest order; a batch that an identified certificate already listed is skipped. */
  function Once(entries: seq<Entry>): seq<Entry> {
    if entries == [] then []
    else
      var last := |entries| - 1;
      Once(entries[..last]) + if Repeated(entries[..last], entries[last]) then [] else [entries[last]]
  }

  predicate Repeated(entries: seq<Entry>, e: Entry) {
    e.cert.id != "" &&
    exists i :: 0 <= i < |entries| && entries[i].cert.id == e.cert.id && entries[i].digest == e.digest
  }

  /** `content` is what the batch store holds for a digest. */
  function RecordOf(content: BatchDigest -> seq<string>, e: Entry): Record {
    var listed := FromCertificate(e.cert.transactions, e.digest);
    Record(e.cert.id, e.cert.round, e.cert.author, e.digest,
           NormalizeAll(if listed.Some? then listed.value else content(e.digest)))
  }

  function RecordsOf(content: BatchDigest -> seq<string>, entries: seq<Entry>): seq<Record> {
    seq(|entries|, i requires 0 <= i < |entries| => RecordOf(content, entries[i]))
  }

  /** The records of one uninterrupted run. */
  function Full(content: BatchDigest -> seq<string>, entries: seq<Entry>): seq<Record> {
    RecordsOf(content, Once(entries))
  }

  // ---------- the loop on values ----------

  datatype Work = Work(records: seq<Record>, processed: set<(string, BatchDigest)>)

  function KeysOf(records: seq<Record>): set<(string, BatchDigest)> {
    set i | 0 <= i < |records| && records[i].certId != "" :: (records[i].certId, records[i].batchDigest)
  }

  function Start(records: seq<Record>): Work {
    Work(records, KeysOf(records))
  }

  predicate Known(w: Work, e: Entry) {
    e.cert.id != "" && (e.cert.id, e.digest) in w.processed
  }

  function Take(content: BatchDigest -> seq<string>, w: Work, e: Entry): Work {
    if Known(w, e) then w
    else
      Work(w.records + [RecordOf(content, e)],
           if e.cert.id != "" then w.processed + {(e.cert.id, e.digest)} else w.processed)
  }

  function Absorb(content: BatchDigest -> seq<string>, w: Work, entries: seq<Entry>): Work {
    if entries == [] then w
    else Take(content, Absorb(content, w, entries[..|entries| - 1]), entries[|entries| - 1])
  }

  ghost predicate Identified(entries: seq<Entry>) {
    forall i :: 0 <= i < |entries| ==> entries[i].cert.id != ""
  }

  lemma KeysAdd(records: seq<Record>, r: Record)
    ensures KeysOf(records + [r]) == KeysOf(records) + if r.certId != "" then {(r.certId, r.batchDigest)} else {}
  {
    var all := records + [r];
    forall k
      ensures k in KeysOf(all) <==> k in KeysOf(records) + if r.certId != "" then {(r.certId, r.batchDigest)} else {}
    {
      if k in KeysOf(records) {
        var i :| 0 <= i < |records| && records[i].certId != "" && (records[i].certId, records[i].batchDigest) == k;
        assert all[i] == records[i];
      }
      assert all[|records|] == r;
    }
  }

  /** The processed set always mirrors the records. */
  lemma {:induction false} AbsorbMirrors(content: BatchDigest -> seq<string>, records: seq<Record>, entries: seq<Entry>)
    ensures var w := Absorb(content, Start(records), entries);
      w.processed == KeysOf(w.records) && records <= w.records
    decreases |entries|
  {
    if entries != [] {
      var before := entries[..|entries| - 1];
      AbsorbMirrors(content, records, before);
      var w := Absorb(content, Start(records), before);
      KeysAdd(w.records, RecordOf(content, entries[|entries| - 1]));
    }
  }

  // ---------- once ----------

  lemma {:induction false} OncePrefix(entries: seq<Entry>, m: nat)
    requires m <= |entries|
    ensures Once(entries[..m]) <= Once(entries)
    decreases |entries|
  {
    if m < |entries| {
      var before := entries[..|entries| - 1];
      OncePrefix(before, m);
      assert before[..m] == entries[..m];
    } else {
      assert entries[..m] == entries;
    }
  }

  lemma FullPrefix(content: BatchDigest -> seq<string>, entries: seq<Entry>, m: nat)
    requires m <= |entries|
    ensures Full(content, entries[..m]) <= Full(content, entries)
  {
    OncePrefix(entries, m);
  }

  /** The keys of the records are those of the entries. */
  lemma {:induction false} FullKeys(content: BatchDigest -> seq<string>, entries: seq<Entry>, e: Entry)
    requires e.cert.id != ""
    ensures (e.cert.id, e.digest) in KeysOf(Full(content, entries)) <==> Repeated(entries, e)
    decreases |entries|
  {
    if entries != [] {
      var last := |entries| - 1;
      var before := entries[..last];
      FullKeys(content, before, e);
      assert entries == before + [entries[last]];
      RepeatedAdd(before, entries[last], e);
      FullAdd(content, before, entries[last]);
      if Repeated(before, entries[last]) {
        assert Full(content, before) + [] == Full(content, before);
        var i :| 0 <= i < |before| && before[i].cert.id == entries[last].cert.id &&
          before[i].digest == entries[last].digest;
        assert before[i].cert.id == e.cert.id && before[i].digest == e.digest ==> Repeated(before, e);
      } else {
        KeysAdd(Full(content, before), RecordOf(content, entries[last]));
      }
    }
  }

  lemma RepeatedAdd(entries: seq<Entry>, last: Entry, e: Entry)
    requires e.cert.id != ""
    ensures Repeated(entries + [last], e) <==>
      Repeated(entries, e) || (last.cert.id == e.cert.id && last.digest == e.digest)
  {
    var all := entries + [last];
    if Repeated(entries, e) {
      var i :| 0 <= i < |entries| && entries[i].cert.id == e.cert.id && entries[i].digest == e.digest;
      assert all[i] == entries[i];
    }
    assert all[|entries|] == last;
  }

  lemma FullAdd(content: BatchDigest -> seq<string>, entries: seq<Entry>, e: Entry)
    ensures Full(content, entries + [e]) ==
      Full(content, entries) + if Repeated(entries, e) then [] else [RecordOf(content, e)]
  {
    assert (entries + [e])[..|entries|] == entries;
  }

  // ---------- resuming ----------

  /** Whether the next entry is known, on top of a prefix of the full records. */
  lemma KnownExact(content: BatchDigest -> seq<string>, entries: seq<Entry>, n: nat, m: nat, w: Work)
    requires Identified(entries) && n <= |Full(content, entries)| && m < |entries|
    requires w.processed == KeysOf(w.records)
    requires var full := Full(content, entries);
      var reached := |Full(content, entries[..m])|;
      reached <= |full| && w.records == if reached < n then full[..n] else full[..reached]
    ensures Known(w, entries[m]) <==> Repeated(entries[..m], entries[m]) || |Full(content, entries[..m])| < n
  {
    var full := Full(content, entries);
    var e := entries[m];
    var reached := |Full(content, entries[..m])|;
    FullPrefix(content, entries, m);
    assert Full(content, entries[..m]) == full[..reached];
    FullKeys(content, entries[..m], e);
    if Repeated(entries[..m], e) {
      KeysWithin(full[..reached], w.records);
    } else if reached < n {
      FullPrefix(content, entries, m + 1);
      assert entries[..m + 1] == entries[..m] + [e];
      FullAdd(content, entries[..m], e);
      assert Full(content, entries[..m + 1])[reached] == RecordOf(content, e);
      assert full[reached] == RecordOf(content, e) && w.records[reached] == full[reached];
    }
  }

  lemma KeysWithin(s: seq<Record>, t: seq<Record>)
    requires s <= t
    ensures KeysOf(s) <= KeysOf(t)
  {
    forall k | k in KeysOf(s) ensures k in KeysOf(t) {
      var i :| 0 <= i < |s| && s[i].certId != "" && (s[i].certId, s[i].batchDigest) == k;
      assert t[i] == s[i];
    }
  }

  ghost predicate ResumedTo(content: BatchDigest -> seq<string>, entries: seq<Entry>, n: nat, m: nat,
          records: seq<Record>)
    requires n <= |Full(content, entries)| && m <= |entries|
  {
    var full := Full(content, entries);
    var reached := |Full(content, entries[..m])|;
    reached <= |full| && records == if reached < n then full[..n] else full[..reached]
  }

  lemma ResumeStep(content: BatchDigest -> seq<string>, entries: seq<Entry>, n: nat, m: nat, w: Work)
    requires Identified(entries) && n <= |Full(content, entries)| && m < |entries|
    requires w.processed == KeysOf(w.records) && ResumedTo(content, entries, n, m, w.records)
    ensures ResumedTo(content, entries, n, m + 1, Take(content, w, entries[m]).records)
  {
    var full := Full(content, entries);
    var e := entries[m];
    FullPrefix(content, entries, m);
    FullPrefix(content, entries, m + 1);
    assert entries[..m + 1] == entries[..m] + [e];
    FullAdd(content, entries[..m], e);
    KnownExact(content, entries, n, m, w);
    hide Full, KeysOf, RecordOf, Repeated;
    var reached := |Full(content, entries[..m])|;
    if !Known(w, e) {
      assert Full(content, entries[..m]) == full[..reached];
      assert Full(content, entries[..m + 1]) == full[..reached + 1];
    }
  }

  /** Absorbing the first m entries on top of a prefix of the full records gives the longer of the two. */
  lemma {:induction false} ResumeTo(content: BatchDigest -> seq<string>, entries: seq<Entry>, n: nat, m: nat)
    requires Identified(entries) && n <= |Full(content, entries)| && m <= |entries|
    ensures ResumedTo(content, entries, n, m, Absorb(content, Start(Full(content, entries)[..n]), entries[..m]).records)
    decreases m
  {
    var full := Full(content, entries);
    if m == 0 {
      assert entries[..0] == [];
    } else {
      ResumeTo(content, entries, n, m - 1);
      assert entries[..m][..m - 1] == entries[..m - 1];
      AbsorbMirrors(content, full[..n], entries[..m - 1]);
      ResumeStep(content, entries, n, m - 1, Absorb(content, Start(full[..n]), entries[..m - 1]));
    }
  }

  // ---------- the program ----------

  /** A key of the output file: the numeral of an index, or a text that is no integer. */
  datatype Key = Index(n: nat) | Odd(text: string)

  type Dict = map<Key, Record>

  /** What is at the output path: nothing, something that is not a JSON object, or records. */
  datatype File = Absent | Unreadable | Holds(records: Dict)

  function Contents(file: File): Dict {
    if file.Holds? then file.records else map[]
  }

  /** `d` with more records, under the indices from `next` on. */
  function Extend(d: Dict, next: nat, more: seq<Record>): Dict {
    if more == [] then d
    else
      var last := |more| - 1;
      Extend(d, next, more[..last])[Index(next + last) := more[last]]
  }

  /** The records under the keys 0, 1, ... */
  function AsDict(records: seq<Record>): Dict {
    Extend(map[], 0, records)
  }

  function DictKeys(d: Dict): set<(string, BatchDigest)> {
    set k | k in d && d[k].certId != "" :: (d[k].certId, d[k].batchDigest)
  }

  /** One past the highest index; zero if some key is no integer. */
  ghost predicate IsNext(d: Dict, next: nat) {
    if exists text :: Odd(text) in d then next == 0
    else (forall i: nat :: Index(i) in d ==> i < next) && (next > 0 ==> Index(next - 1) in d)
  }

  datatype Exit = Complete | Stopped | RetriesExhausted | Killed

  /** The records a run adds for the entries. */
  function Added(content: BatchDigest -> seq<string>, found: Dict, entries: seq<Entry>): seq<Record> {
    Absorb(content, Work([], DictKeys(found)), entries).records
  }

  /** What a run leaves on disk: the file it found with records added for the first entries, all of them if it ran to
      completion. A run killed before it added any leaves the file as it was. */
  ghost predicate Leaves(content: BatchDigest -> seq<string>, entries: seq<Entry>, file: File, disk: File, exit: Exit) {
    exists next: nat, done: seq<Entry> :: LeavesAt(content, entries, file, disk, exit, next, done)
  }

  ghost predicate LeavesAt(content: BatchDigest -> seq<string>, entries: seq<Entry>, file: File, disk: File, exit: Exit,
                           next: nat, done: seq<Entry>)
  {
    var left := Holds(Extend(Contents(file), next, Added(content, Contents(file), done)));
    && IsNext(Contents(file), next) && done <= entries
    && disk == (if exit == Killed && Added(content, Contents(file), done) == [] then file else left)
    && (exit == Complete ==> done == entries)
  }

  /** The records already on disk, their keys, and the next free index. */
  method LoadExisting(file: File) returns (records: Dict, processed: set<(string, BatchDigest)>, nextIndex: nat)
    ensures records == Contents(file) && processed == DictKeys(records) && IsNext(records, nextIndex)
  {
    if !file.Holds? {
      return map[], {}, 0;
    }
    records := file.records;
    nextIndex := 0;
    processed := {};
    var odd := false;
    var rest := records.Keys;
    while rest != {}
      invariant rest <= records.Keys
      invariant odd <==> exists text :: Odd(text) in records && Odd(text) !in rest
      invariant forall i: nat :: Index(i) in records && Index(i) !in rest ==> i < nextIndex
      invariant nextIndex > 0 ==> Index(nextIndex - 1) in records
      invariant processed == set k | k in records && k !in rest && records[k].certId != "" ::
        (records[k].certId, records[k].batchDigest)
      decreases rest
    {
      var k :| k in rest;
      rest := rest - {k};
      match k {
        case Index(i) =>
          if i + 1 > nextIndex {
            nextIndex := i + 1;
          }
        case Odd(_) =>
          odd := true;
      }
      if records[k].certId != "" {
        processed := processed + {(records[k].certId, records[k].batchDigest)};
      }
    }
    if odd {
      nextIndex := 0;
    }
  }

  datatype Fetch = Got(txs: seq<string>) | NoMoreRetries | StopSeen

  /** The batch store is asked in vain as often as we ask. */
  predicate Fruitless(cli: nat -> seq<string>, maxRetries: int) {
    maxRetries != -1 && cli(1) == [] && forall j :: 0 < j <= maxRetries ==> cli(j) == []
  }

  /** We ask no more than `m` times, because we give up or because it answers. */
  predicate Patient(cli: nat -> seq<string>, maxRetries: int, m: nat) {
    m > 0 && ((maxRetries != -1 && maxRetries <= m) || exists k :: 0 < k <= m && cli(k) != [])
  }

  /** Ask the batch store until it has the batch, retries run out, or a stop is seen. `stopAt` is the number
      of checks before the stop flag is raised; `cli` gives the answer of each attempt, empty when the batch
      is missing. */
  method FetchBatch(cli: nat -> seq<string>, maxRetries: int, checks: nat, stopAt: nat)
    returns (result: Fetch, checked: nat)
    ensures checked >= checks
    ensures result.Got? ==>
      result.txs != [] && exists k :: k > 0 && cli(k) == result.txs && forall j :: 0 < j < k ==> cli(j) == []
    ensures result == NoMoreRetries ==> Fruitless(cli, maxRetries)
    ensures result == StopSeen <==> checked > stopAt
    ensures forall m :: Patient(cli, maxRetries, m) ==> checked <= checks + m
  {
    checked := checks;
    var attempt := 0;
    while true
      invariant checked == checks + attempt && (attempt > 0 ==> checked <= stopAt)
      invariant forall j :: 0 < j <= attempt ==> cli(j) == []
      invariant attempt > 0 && maxRetries != -1 ==> attempt < maxRetries
      decreases stopAt + 1 - checked
    {
      checked := checked + 1;
      if checked > stopAt {
        return StopSeen, checked;
      }
      attempt := attempt + 1;
      var txs := cli(attempt);
      if txs != [] {
        return Got(txs), checked;
      }
      if maxRetries == -1 {
        continue;
      }
      if attempt >= maxRetries {
        return NoMoreRetries, checked;
      }
    }
  }

  lemma AbsorbNext(content: BatchDigest -> seq<string>, w: Work, done: seq<Entry>, e: Entry)
    ensures Absorb(content, w, done + [e]) == Take(content, Absorb(content, w, done), e)
  {
    assert (done + [e])[..|done|] == done;
  }

  lemma DictAdd(d: Dict, next: nat, more: seq<Record>, r: Record)
    ensures Extend(d, next, more)[Index(next + |more|) := r] == Extend(d, next, more + [r])
  {
    assert (more + [r])[..|more|] == more;
  }

  lemma {:induction false} AsDictAt(records: seq<Record>, k: Key)
    ensures k in AsDict(records) <==> k.Index? && k.n < |records|
    ensures k in AsDict(records) ==> AsDict(records)[k] == records[k.n]
  {
    if records != [] {
      AsDictAt(records[..|records| - 1], k);
    }
  }

  lemma {:induction false} EntriesPrefix(certs: seq<OrderedCert>, i: nat)
    requires i <= |certs|
    ensures Entries(certs[..i]) <= Entries(certs)
    ensures i < |certs| ==> Entries(certs[..i]) + EntriesOf(certs[i], certs[i].payload) <= Entries(certs)
    decreases |certs|
  {
    if i < |certs| {
      var before := certs[..|certs| - 1];
      if i < |before| {
        EntriesPrefix(before, i);
        assert before[..i] == certs[..i];
      } else {
        assert certs[..i] == before;
      }
    } else {
      assert certs[..i] == certs;
    }
  }

  lemma DonePrefix(certs: seq<OrderedCert>, i: nat, j: nat)
    requires i < |certs| && j <= |certs[i].payload|
    ensures Entries(certs[..i]) + EntriesOf(certs[i], certs[i].payload[..j]) <= Entries(certs)
  {
    EntriesPrefix(certs, i);
    assert EntriesOf(certs[i], certs[i].payload[..j]) <= EntriesOf(certs[i], certs[i].payload);
  }

  /** The batch store gives, if anything, the content of the batch. */
  ghost predicate Deterministic(content: BatchDigest -> seq<string>, cli: BatchDigest -> nat -> seq<string>) {
    forall d: BatchDigest, k: nat :: cli(d)(k) == [] || cli(d)(k) == content(d)
  }

  /** Neither the certificate nor the batch store has the transactions. */
  predicate GivenUp(cli: BatchDigest -> nat -> seq<string>, maxRetries: int, e: Entry) {
    FromCertificate(e.cert.transactions, e.digest).None? && Fruitless(cli(e.digest), maxRetries)
  }

  /** The most often `entries` batches make us look for the stop request. */
  function Looks(entries: nat, m: nat): nat {
    if entries == 0 then 0 else Looks(entries - 1, m) + 1 + m
  }

  /** No batch makes us ask more than `m` times. */
  ghost predicate AllPatient(cli: BatchDigest -> nat -> seq<string>, maxRetries: int, m: nat) {
    forall d: BatchDigest :: Patient(cli(d), maxRetries, m)
  }

  /** How often we looked for the stop request by the time this many certificates and batches were dealt with. */
  ghost predicate Looked(cli: BatchDigest -> nat -> seq<string>, maxRetries: int, looks: nat, certs: nat,
          entries: nat) {
    certs + entries <= looks && forall m :: AllPatient(cli, maxRetries, m) ==> looks <= certs + Looks(entries, m)
  }

  /** The stop request came within that many looks, one batch more included. */
  ghost predicate Halted(cli: BatchDigest -> nat -> seq<string>, maxRetries: int, stopAt: nat, certs: nat,
                         entries: nat) {
    forall m :: AllPatient(cli, maxRetries, m) ==> stopAt < certs + Looks(entries + 1, m)
  }

  /** Looking once more, before a certificate or a batch. */
  lemma LookOnce(cli: BatchDigest -> nat -> seq<string>, maxRetries: int, looks: nat, certs: nat, entries: nat)
    requires Looked(cli, maxRetries, looks, certs, entries)
    ensures Looked(cli, maxRetries, looks + 1, certs + 1, entries)
    ensures Looked(cli, maxRetries, looks + 1, certs, entries + 1)
    ensures forall all: nat, stopAt: nat :: certs < all && stopAt <= looks ==>
      Halted(cli, maxRetries, stopAt, all, entries)
    ensures forall all: nat, stopAt: nat :: certs <= all && stopAt <= looks ==>
      Halted(cli, maxRetries, stopAt, all, entries)
  {}

  /** Looking before every attempt at a batch. */
  lemma LookOften(cli: BatchDigest -> nat -> seq<string>, maxRetries: int, looks: nat, more: nat, certs: nat,
          entries: nat, d: BatchDigest)
    requires Looked(cli, maxRetries, looks, certs, entries) && looks < more
    requires forall m :: Patient(cli(d), maxRetries, m) ==> more <= looks + 1 + m
    ensures Looked(cli, maxRetries, more, certs, entries + 1)
    ensures forall all: nat, stopAt: nat :: certs <= all && stopAt < more ==>
      Halted(cli, maxRetries, stopAt, all, entries)
  {
    assert forall m :: AllPatient(cli, maxRetries, m) ==> Patient(cli(d), maxRetries, m);
  }

  /** The transactions of one batch: those the certificate lists, or else what the batch store has. */
  method FindTransactions(e: Entry, ghost content: BatchDigest -> seq<string>, cli: BatchDigest -> nat -> seq<string>,
                          maxRetries: int, checks: nat, stopAt: nat) returns (result: Fetch, checked: nat)
    requires Deterministic(content, cli)
    ensures checked >= checks
    ensures result.Got? ==>
      Record(e.cert.id, e.cert.round, e.cert.author, e.digest, NormalizeAll(result.txs)) == RecordOf(content, e)
    ensures result == NoMoreRetries ==> GivenUp(cli, maxRetries, e)
    ensures checks <= stopAt ==> (result == StopSeen <==> checked > stopAt)
    ensures forall m :: Patient(cli(e.digest), maxRetries, m) ==> checked <= checks + m
  {
    var listed := FromCertificate(e.cert.transactions, e.digest);
    if listed.Some? {
      return Got(listed.value), checks;
    }
    result, checked := FetchBatch(cli(e.digest), maxRetries, checks, stopAt);
  }

  /** The whole program, from the file found to the file left: `done` are the batches dealt with. It is killed just
      when `killAt` snapshots were written and another is due; it gives up at a batch that nobody has; and it stops
      only at a stop request, which comes when it looked for one `stopAt` times. */
  method ExtractBatches(certs: seq<OrderedCert>, file: File, ghost content: BatchDigest -> seq<string>,
                        cli: BatchDigest -> nat -> seq<string>, maxRetries: int, stopAt: nat, killAt: nat)
    returns (disk: File, exit: Exit, ghost next: nat, ghost done: seq<Entry>)
    requires Deterministic(content, cli)
    ensures LeavesAt(content, Entries(certs), file, disk, exit, next, done)
    ensures var added := |Added(content, Contents(file), done)|;
      if exit == Killed then added == killAt else added < killAt
    ensures exit == RetriesExhausted ==>
      && |done| < |Entries(certs)| && GivenUp(cli, maxRetries, Entries(certs)[|done|])
      && !Known(Absorb(content, Work([], DictKeys(Contents(file))), done), Entries(certs)[|done|])
    ensures exit == Stopped ==> Halted(cli, maxRetries, stopAt, |certs|, |done|)
    ensures exit == Complete ==> |certs| + |Entries(certs)| <= stopAt
  {
    hide Absorb, DictKeys, RecordOf, Deterministic, Extend, IsNext, Patient, AllPatient, Looked, Halted, GivenUp,
      FromCertificate, Entries;
    var records, processed, nextIndex := LoadExisting(file);
    disk := file;
    next, done := nextIndex, [];
    ghost var found := records;
    ExtendNone(found, next);
    ghost var w := Work([], DictKeys(found));
    AbsorbNone(content, w);
    var checks, snapshots, stop := 0, 0, false;
    var i := 0;
    EntriesStart(certs);
    LookedNone(cli, maxRetries);
    while i < |certs| && !stop
      invariant 0 <= i <= |certs|
      invariant !stop ==> done == Entries(certs[..i])
      invariant done <= Entries(certs)
      invariant w == Absorb(content, Work([], DictKeys(found)), done)
      invariant records == Extend(found, next, w.records) && processed == w.processed && nextIndex == next + |w.records|
      invariant snapshots == |w.records| <= killAt && disk == if w.records == [] then file else Holds(records)
      invariant if stop then Halted(cli, maxRetries, stopAt, |certs|, |done|)
        else checks <= stopAt && Looked(cli, maxRetries, checks, i, |done|)
      decreases |certs| - i, !stop
    {
      LookOnce(cli, maxRetries, checks, i, |done|);
      checks := checks + 1;
      if checks > stopAt {
        stop := true;
        EntriesPrefix(certs, i);
        break;
      }
      var cert := certs[i];
      var j := 0;
      assert EntriesOf(cert, cert.payload[..0]) == [];
      while j < |cert.payload|
        invariant !stop && 0 <= j <= |cert.payload|
        invariant done == Entries(certs[..i]) + EntriesOf(cert, cert.payload[..j])
        invariant done <= Entries(certs)
        invariant w == Absorb(content, Work([], DictKeys(found)), done)
        invariant records == Extend(found, next, w.records) && processed == w.processed &&
          nextIndex == next + |w.records|
        invariant snapshots == |w.records| <= killAt && disk == if w.records == [] then file else Holds(records)
        invariant checks <= stopAt && Looked(cli, maxRetries, checks, i + 1, |done|)
      {
        LookOnce(cli, maxRetries, checks, i + 1, |done|);
        ghost var looks := checks;
        checks := checks + 1;
        if checks > stopAt {
          stop := true;
          break;
        }
        var e := Entry(cert, cert.payload[j]);
        EntriesNext(certs, i, j);
        AbsorbNext(content, Work([], DictKeys(found)), done, e);
        if cert.id != "" && (cert.id, e.digest) in processed {
          done := done + [e];
          j := j + 1;
          continue;
        }
        var result;
        result, checks := FindTransactions(e, content, cli, maxRetries, checks, stopAt);
        LookOften(cli, maxRetries, looks, checks, i + 1, |done|, e.digest);
        if !result.Got? {
          exit := if result == StopSeen then Stopped else RetriesExhausted;
          if snapshots >= killAt {
            return disk, Killed, next, done;
          }
          return Holds(records), exit, next, done;
        }
        DictAdd(found, next, w.records, RecordOf(content, e));
        var record := Record(cert.id, cert.round, cert.author, e.digest, NormalizeAll(result.txs));
        records := records[Index(nextIndex) := record];
        nextIndex := nextIndex + 1;
        if cert.id != "" {
          processed := processed + {(cert.id, e.digest)};
        }
        if snapshots >= killAt {
          return disk, Killed, next, done;
        }
        disk, snapshots := Holds(records), snapshots + 1;
        done, w := done + [e], Take(content, w, e);
        j := j + 1;
      }
      if !stop {
        EntriesWhole(certs, i);
        i := i + 1;
      }
    }
    if !stop {
      assert certs[..|certs|] == certs;
      assert |certs| + |done| <= checks by { LooksLeast(cli, maxRetries, checks, |certs|, |done|); }
    }
    if snapshots >= killAt {
      return disk, Killed, next, done;
    }
    disk := Holds(records);
    exit := if stop then Stopped else Complete;
  }

  lemma LookedNone(cli: BatchDigest -> nat -> seq<string>, maxRetries: int)
    ensures Looked(cli, maxRetries, 0, 0, 0)
  {}

  lemma LooksLeast(cli: BatchDigest -> nat -> seq<string>, maxRetries: int, looks: nat, certs: nat, entries: nat)
    requires Looked(cli, maxRetries, looks, certs, entries)
    ensures certs + entries <= looks
  {}

  lemma EntriesStart(certs: seq<OrderedCert>)
    ensures Entries(certs[..0]) == []
  {
    assert certs[..0] == [];
  }

  lemma EntriesWhole(certs: seq<OrderedCert>, i: nat)
    requires i < |certs|
    ensures Entries(certs[..i]) + EntriesOf(certs[i], certs[i].payload[..|certs[i].payload|]) == Entries(certs[..i + 1])
  {
    assert certs[i].payload[..|certs[i].payload|] == certs[i].payload;
    assert certs[..i + 1][..i] == certs[..i];
  }

  lemma ExtendNone(d: Dict, next: nat)
    ensures Extend(d, next, []) == d
  {}

  lemma AbsorbNone(content: BatchDigest -> seq<string>, w: Work)
    ensures Absorb(content, w, []) == w
  {}

  lemma EntriesNext(certs: seq<OrderedCert>, i: nat, j: nat)
    requires i < |certs| && j < |certs[i].payload|
    ensures var cert := certs[i];
      var done := Entries(certs[..i]) + EntriesOf(cert, cert.payload[..j]);
      && done + [Entry(cert, cert.payload[j])] == Entries(certs[..i]) + EntriesOf(cert, cert.payload[..j + 1])
      && done + [Entry(cert, cert.payload[j])] <= Entries(certs)
  {
    var cert := certs[i];
    assert EntriesOf(cert, cert.payload[..j + 1]) ==
      EntriesOf(cert, cert.payload[..j]) + [Entry(cert, cert.payload[j])];
    DonePrefix(certs, i, j + 1);
  }

  // ---------- resume equivalence ----------

  /** One run: what it read, what it found on disk and what it left. */
  datatype Session = Session(certs: seq<OrderedCert>, before: File, after: File, exit: Exit)

  ghost predicate OnDisk(file: File, records: seq<Record>) {
    Contents(file) == AsDict(records)
  }

  /** The run did what the program does. */
  ghost predicate Honest(content: BatchDigest -> seq<string>, s: Session) {
    Leaves(content, Entries(s.certs), s.before, s.after, s.exit)
  }

  /** Runs over a growing input, each starting from the file the last one left. */
  ghost predicate Chained(content: BatchDigest -> seq<string>, runs: seq<Session>) {
    && (forall i :: 0 <= i < |runs| ==> Honest(content, runs[i]) && Identified(Entries(runs[i].certs)))
    && (forall i :: 0 <= i < |runs| - 1 ==> runs[i + 1].before == runs[i].after && runs[i].certs <= runs[i + 1].certs)
    && (runs != [] ==> OnDisk(runs[0].before, []))
  }

  lemma DictKeysOf(found: seq<Record>)
    ensures KeysOf(found) == DictKeys(AsDict(found))
  {
    var d := AsDict(found);
    forall k ensures k in KeysOf(found) <==> k in DictKeys(d) {
      if k in KeysOf(found) {
        var i :| 0 <= i < |found| && found[i].certId != "" && (found[i].certId, found[i].batchDigest) == k;
        AsDictAt(found, Index(i));
        assert Index(i) in d && d[Index(i)] == found[i];
      }
      if k in DictKeys(d) {
        var x :| x in d && d[x].certId != "" && (d[x].certId, d[x].batchDigest) == k;
        AsDictAt(found, x);
        assert found[x.n] == d[x];
      }
    }
  }

  lemma NextOf(found: seq<Record>, next: nat)
    requires IsNext(AsDict(found), next)
    ensures next == |found|
  {
    forall k ensures k in AsDict(found) <==> k.Index? && k.n < |found| {
      AsDictAt(found, k);
    }
    if |found| > 0 {
      assert Index(|found| - 1) in AsDict(found);
    }
  }

  lemma {:induction false} ExtendOf(found: seq<Record>, more: seq<Record>)
    ensures Extend(AsDict(found), |found|, more) == AsDict(found + more)
  {
    if more == [] {
      assert found + more == found;
    } else {
      var last := |more| - 1;
      ExtendOf(found, more[..last]);
      assert (found + more)[..|found| + last] == found + more[..last];
    }
  }

  /** Adding to what is on disk is going on from it. */
  lemma {:induction false} AbsorbOnto(content: BatchDigest -> seq<string>, found: seq<Record>, entries: seq<Entry>)
    ensures var w := Absorb(content, Work([], KeysOf(found)), entries);
      var v := Absorb(content, Start(found), entries);
      v.records == found + w.records && v.processed == w.processed
    decreases |entries|
  {
    if entries != [] {
      AbsorbOnto(content, found, entries[..|entries| - 1]);
    }
  }

  /** A run that finds the records `found` under the keys 0, 1, ... goes on from them. */
  lemma AddedTo(content: BatchDigest -> seq<string>, found: seq<Record>, next: nat, done: seq<Entry>)
    requires IsNext(AsDict(found), next)
    ensures Extend(AsDict(found), next, Added(content, AsDict(found), done)) ==
      AsDict(Absorb(content, Start(found), done).records)
  {
    NextOf(found, next);
    DictKeysOf(found);
    AbsorbOnto(content, found, done);
    ExtendOf(found, Added(content, AsDict(found), done));
  }

  lemma GrowingInput(certs: seq<OrderedCert>, more: seq<OrderedCert>)
    requires certs <= more
    ensures Entries(certs) <= Entries(more)
  {
    EntriesPrefix(more, |certs|);
    assert more[..|certs|] == certs;
  }

  /** A run that starts from the first records of the full result leaves the first records of it again, all
      of them if it completes. */
  lemma RunExtends(content: BatchDigest -> seq<string>, s: Session, n: nat) returns (k: nat)
    requires Honest(content, s) && Identified(Entries(s.certs))
    requires n <= |Full(content, Entries(s.certs))| && OnDisk(s.before, Full(content, Entries(s.certs))[..n])
    ensures k <= |Full(content, Entries(s.certs))| && OnDisk(s.after, Full(content, Entries(s.certs))[..k])
    ensures s.exit == Complete ==> s.after == Holds(AsDict(Full(content, Entries(s.certs))))
  {
    hide Full, Absorb, Added, Extend, AsDict, IsNext, Identified, Entries;
    var entries := Entries(s.certs);
    var full := Full(content, entries);
    var found := full[..n];
    var next: nat, done: seq<Entry> :| LeavesAt(content, entries, s.before, s.after, s.exit, next, done);
    AddedTo(content, found, next, done);
    assert done == entries[..|done|];
    ResumeTo(content, entries, n, |done|);
    FullPrefix(content, entries, |done|);
    var reached := |Full(content, entries[..|done|])|;
    k := if s.after == s.before then n else if reached < n then n else reached;
    if s.exit == Complete {
      assert entries[..|done|] == entries && full[..|full|] == full;
    }
  }

  /** Resume equivalence: after any chain of runs over a growing input, however each was interrupted, the
      disk holds the first records of one uninterrupted run over the last input, under the keys 0, 1, ...;
      and all of them once the last run completes. */
  lemma {:induction false} ResumeEquivalence(content: BatchDigest -> seq<string>, runs: seq<Session>) returns (n: nat)
    requires Chained(content, runs) && runs != []
    ensures var last := runs[|runs| - 1];
      var full := Full(content, Entries(last.certs));
      && n <= |full| && OnDisk(last.after, full[..n])
      && (last.exit == Complete ==> last.after == Holds(AsDict(full)))
    decreases |runs|
  {
    var last := runs[|runs| - 1];
    var full := Full(content, Entries(last.certs));
    if |runs| == 1 {
      assert full[..0] == [];
      n := RunExtends(content, last, 0);
    } else {
      var before := runs[..|runs| - 1];
      assert Chained(content, before);
      var m := ResumeEquivalence(content, before);
      var earlier := Entries(before[|before| - 1].certs);
      GrowingInput(before[|before| - 1].certs, last.certs);
      FullPrefix(content, Entries(last.certs), |earlier|);
      assert Entries(last.certs)[..|earlier|] == earlier;
      assert full[..m] == Full(content, earlier)[..m];
      n := RunExtends(content, last, m);
    }
  }

  lemma {:induction false} FullDistinct(content: BatchDigest -> seq<string>, entries: seq<Entry>)
    requires Identified(entries)
    ensures forall i, j :: 0 <= i < j < |Full(content, entries)| ==>
      (Full(content, entries)[i].certId, Full(content, entries)[i].batchDigest)
        != (Full(content, entries)[j].certId, Full(content, entries)[j].batchDigest)
    ensures forall i :: 0 <= i < |Full(content, entries)| ==> Full(content, entries)[i].certId != ""
    decreases |entries|
  {
    if entries != [] {
      var last := |entries| - 1;
      var before := entries[..last];
      FullDistinct(content, before);
      assert entries == before + [entries[last]];
      FullAdd(content, before, entries[last]);
      FullKeys(content, before, entries[last]);
      var full := Full(content, before);
      forall i | 0 <= i < |full| ensures (full[i].certId, full[i].batchDigest) in KeysOf(full) {
      }
    }
  }

  /** Every batch of an identified certificate is recorded, once. */
  lemma EachBatchOnce(content: BatchDigest -> seq<string>, entries: seq<Entry>, e: Entry) returns (i: nat)
    requires Identified(entries) && e in entries
    ensures var full := Full(content, entries);
      && i < |full| && full[i].certId == e.cert.id && full[i].batchDigest == e.digest
      && forall j :: 0 <= j < |full| && j != i ==> full[j].certId != e.cert.id || full[j].batchDigest != e.digest
  {
    var full := Full(content, entries);
    FullDistinct(content, entries);
    FullKeys(content, entries, e);
    var k :| 0 <= k < |entries| && entries[k] == e;
    assert Repeated(entries, e);
    i :| 0 <= i < |full| && full[i].certId != "" && (full[i].certId, full[i].batchDigest) == (e.cert.id, e.digest);
  }

  // ---------- certificates without an id ----------

  lemma {:induction false} AbsorbGrows(content: BatchDigest -> seq<string>, w: Work, entries: seq<Entry>)
    ensures |Absorb(content, w, entries).records| >= |w.records|
    ensures !Identified(entries) ==> |Absorb(content, w, entries).records| > |w.records|
    decreases |entries|
  {
    if entries != [] {
      var last := |entries| - 1;
      AbsorbGrows(content, w, entries[..last]);
      assert forall i :: 0 <= i < last ==> entries[..last][i] == entries[i];
    }
  }

  /** Running again over an input already extracted adds nothing exactly when every certificate with batches
      has an id. */
  lemma RerunExact(content: BatchDigest -> seq<string>, entries: seq<Entry>)
    ensures Absorb(content, Start(Full(content, entries)), entries).records == Full(content, entries) <==>
      Identified(entries)
  {
    var full := Full(content, entries);
    AbsorbGrows(content, Start(full), entries);
    if Identified(entries) {
      assert full[..|full|] == full && entries[..|entries|] == entries;
      ResumeTo(content, entries, |full|, |entries|);
    }
  }
}
