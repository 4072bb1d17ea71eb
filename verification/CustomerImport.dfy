/**
 Resumable customer import. A run is prepared from a whole file and keeps the checksum of every
 record; chunks of fifty then arrive in any order, as often as the client likes, and are checked
 against that manifest. Imported customers may be deleted in between.
 */
module CustomerImport {
  import opened Common
  import opened CanonicalJson

  const CHUNK_SIZE := 50
  const MAX_RECORDS := 10_000

  // ---- Records ----

  /** The key under which a record carries its customer number in the source system. */
  const ID_KEY: Text :=
    [101, 120, 116, 101, 114, 110, 97, 108, 67, 117, 115, 116, 111, 109, 101, 114, 73, 100]

  /** A record is a JSON object with a text under that key. */
  predicate ValidRecord(v: Value) {
    && WellFormed(v) && v.Obj? && ID_KEY in KeysOf(v.members) && ValueAt(v.members, ID_KEY).Str?
  }

  function ExternalId(v: Value): Text
    requires ValidRecord(v)
  {
    ValueAt(v.members, ID_KEY).s
  }

  /** The manifest entry of a record; equal entries stand for equal records. */
  function RecordHash(v: Value): Text {
    Canon(v)
  }

  lemma {:induction false} IdInMeaning(v: Value)
    requires ValidRecord(v)
    ensures MeaningOf(v).MObj? && ID_KEY in MeaningOf(v).fields && MeaningOf(v).fields[ID_KEY] == MStr(ExternalId(v))
  {
    var x := ValueAt(v.members, ID_KEY);
    assert MeaningOf(x) == MStr(x.s);
  }

  lemma HashGivesId(v: Value, w: Value)
    requires ValidRecord(v) && ValidRecord(w) && RecordHash(v) == RecordHash(w)
    ensures ExternalId(v) == ExternalId(w)
  {
    SameHashSameMeaning(v, w);
    IdInMeaning(v);
    IdInMeaning(w);
  }

  lemma {:induction false} SameHashSameMeaning(v: Value, w: Value)
    requires WellFormed(v) && WellFormed(w) && RecordHash(v) == RecordHash(w)
    ensures MeaningOf(v) == MeaningOf(w)
  {
    CanonicalIff(v, w);
  }

  predicate ValidRecords(records: seq<Value>) {
    forall i :: 0 <= i < |records| ==> ValidRecord(records[i])
  }

  function Hashes(records: seq<Value>): (s: seq<Text>)
    ensures |s| == |records|
  {
    seq(|records|, i requires 0 <= i < |records| => RecordHash(records[i]))
  }

  predicate DistinctIds(records: seq<Value>)
    requires ValidRecords(records)
  {
    forall i, j :: 0 <= i < j < |records| ==> ExternalId(records[i]) != ExternalId(records[j])
  }

  // ---- Files ----

  /** The keys of a file under which it carries its records and how many there should be. */
  const RECORDS_KEY: Text := [114, 101, 99, 111, 114, 100, 115]
  const COUNT_KEY: Text := [101, 120, 112, 101, 99, 116, 101, 100, 67, 111, 117, 110, 116]

  /** A number as it is written: decimal digits without leading zeros. */
  function Decimal(n: nat): Text {
    if n < 10 then [48 + n] else Decimal(n / 10) + [48 + n % 10]
  }

  /** The file's records, if it has a list of them. */
  function RecordsOf(file: Value): seq<Value> {
    if file.Obj? && RECORDS_KEY in KeysOf(file.members) && ValueAt(file.members, RECORDS_KEY).Arr?
    then ValueAt(file.members, RECORDS_KEY).items else []
  }

  /** A file states how many records it has, and they are valid, with different ids. */
  predicate ValidFile(file: Value) {
    && WellFormed(file) && file.Obj?
    && 1 <= |RecordsOf(file)| <= MAX_RECORDS && ValidRecords(RecordsOf(file)) && DistinctIds(RecordsOf(file))
    && COUNT_KEY in KeysOf(file.members) && ValueAt(file.members, COUNT_KEY) == Number(Decimal(|RecordsOf(file)|))
  }

  lemma {:induction false} RecordsInMeaning(file: Value)
    requires ValidFile(file)
    ensures var m := MeaningOf(file);
            && m.MObj? && RECORDS_KEY in m.fields && m.fields[RECORDS_KEY].MArr?
            && |m.fields[RECORDS_KEY].items| == |RecordsOf(file)|
            && forall i :: 0 <= i < |RecordsOf(file)| ==> m.fields[RECORDS_KEY].items[i] == MeaningOf(RecordsOf(file)[i])
  {
    var x := ValueAt(file.members, RECORDS_KEY);
    assert Member(RECORDS_KEY, Some(x)) in file.members;
    assert MeaningOf(file).fields[RECORDS_KEY] == MeaningOf(x);
    assert MeaningOf(x) == MArr(seq(|x.items|, i requires 0 <= i < |x.items| => MeaningOf(x.items[i])));
  }

  /** Files with the same text have the same manifest. */
  lemma {:induction false} SameFileSameManifest(a: Value, b: Value)
    requires ValidFile(a) && ValidFile(b) && Canon(a) == Canon(b)
    ensures Hashes(RecordsOf(a)) == Hashes(RecordsOf(b))
  {
    CanonicalIff(a, b);
    RecordsInMeaning(a);
    RecordsInMeaning(b);
    forall i | 0 <= i < |RecordsOf(a)| ensures Hashes(RecordsOf(a))[i] == Hashes(RecordsOf(b))[i] {
      SameMeaningSameCanon(RecordsOf(a)[i], RecordsOf(b)[i]);
    }
  }

  // ---- State ----

  datatype Run = Run(checksum: Text, expectedCount: int, recordHashes: seq<Text>, processed: seq<int>, created: int, skipped: int,
                     completed: bool)

  /** Import runs, the customer of each external id, and how many customers there ever were. */
  datatype Db = Db(runs: seq<Run>, external: map<Text, nat>, customers: nat)

  datatype Outcome = Outcome(external: map<Text, nat>, customers: nat, created: nat, skipped: nat)

  function IdsOf(records: seq<Value>): (s: seq<Text>)
    requires ValidRecords(records)
    ensures |s| == |records|
  {
    seq(|records|, i requires 0 <= i < |records| => ExternalId(records[i]))
  }

  /** Importing the records with the first k ids: an id that already has a customer is skipped. */
  function ImportIds(external: map<Text, nat>, customers: nat, ids: seq<Text>, k: nat): Outcome
    requires k <= |ids|
  {
    if k == 0 then Outcome(external, customers, 0, 0)
    else
      var o := ImportIds(external, customers, ids, k - 1);
      if ids[k - 1] in o.external then o.(skipped := o.skipped + 1)
      else Outcome(o.external[ids[k - 1] := o.customers], o.customers + 1, o.created + 1, o.skipped)
  }

  function ChunkCount(expected: int, offset: int): int {
    if expected - offset < CHUNK_SIZE then expected - offset else CHUNK_SIZE
  }

  /** The chunk is the part of the file that the manifest describes at this offset. */
  predicate MatchesManifest(run: Run, offset: int, records: seq<Value>)
    requires 0 <= offset
  {
    && ChunkCount(run.expectedCount, offset) > 0 && |records| == ChunkCount(run.expectedCount, offset)
    && forall i :: 0 <= i < |records| ==>
         offset + i < |run.recordHashes| && RecordHash(records[i]) == run.recordHashes[offset + i]
  }

  function Advance(run: Run, offset: int, o: Outcome): Run {
    run.(processed := run.processed + [offset], created := run.created + o.created, skipped := run.skipped + o.skipped,
         completed := run.completed || run.created + run.skipped + o.created + o.skipped == run.expectedCount)
  }

  predicate ValidChunk(offset: int, records: seq<Value>) {
    0 <= offset < MAX_RECORDS && offset % CHUNK_SIZE == 0 && 1 <= |records| <= CHUNK_SIZE && ValidRecords(records)
  }

  function SubmitChunk(db: Db, id: nat, offset: int, records: seq<Value>): Result<Db, string> {
    if !ValidChunk(offset, records) then Failure("INVALID_IMPORT")
    else if id >= |db.runs| then Failure("RUN_NOT_FOUND")
    else if !MatchesManifest(db.runs[id], offset, records) then Failure("MANIFEST_MISMATCH")
    else if offset in db.runs[id].processed then Success(db)
    else
      var o := ImportIds(db.external, db.customers, IdsOf(records), |records|);
      Success(Db(db.runs[id := Advance(db.runs[id], offset, o)], o.external, o.customers))
  }

  /** A run with the file's manifest, of which nothing is processed yet. */
  function NewRun(file: Value): Run
    requires ValidFile(file)
  {
    Run(Canon(file), |RecordsOf(file)|, Hashes(RecordsOf(file)), [], 0, 0, false)
  }

  /** The run of a file: the one with its checksum, or a new one. */
  function Prepare(db: Db, file: Value): Result<Db, string> {
    if !ValidFile(file) then Failure("INVALID_IMPORT")
    else if exists i :: 0 <= i < |db.runs| && db.runs[i].checksum == Canon(file) then Success(db)
    else Success(db.(runs := db.runs + [NewRun(file)]))
  }

  /** The external records of a deleted customer go with it. */
  function Forget(external: map<Text, nat>, customer: nat): (now: map<Text, nat>)
    ensures forall id :: id in now <==> id in external && external[id] != customer
    ensures forall id :: id in now ==> now[id] == external[id]
  {
    map id | id in external && external[id] != customer :: external[id]
  }

  datatype Step =
    | DoPrepare(file: Value)
    | DoChunk(id: nat, offset: int, records: seq<Value>)
    | AddCustomer
    | DeleteCustomer(customer: nat, reserved: bool)

  /** A customer with reservations is not deleted. */
  function Apply(db: Db, step: Step): Db {
    match step
    case DoPrepare(file) =>
      var r := Prepare(db, file);
      if r.Success? then r.value else db
    case DoChunk(id, offset, records) =>
      var r := SubmitChunk(db, id, offset, records);
      if r.Success? then r.value else db
    case AddCustomer => db.(customers := db.customers + 1)
    case DeleteCustomer(customer, reserved) => if reserved then db else db.(external := Forget(db.external, customer))
  }

  function After(db: Db, steps: seq<Step>): Db {
    if |steps| == 0 then db else Apply(After(db, steps[..|steps| - 1]), steps[|steps| - 1])
  }

  /** Ids whose customer was deleted and that were not imported again since, and how many were deleted in all. */
  datatype History = History(lost: set<Text>, deletions: nat)

  function Remember(h: History, before: Db, now: Db): History {
    var gone := before.external.Keys - now.external.Keys;
    History(h.lost + gone - now.external.Keys, h.deletions + |gone|)
  }

  function HistoryOf(db: Db, h: History, steps: seq<Step>): History {
    if |steps| == 0 then h
    else Remember(HistoryOf(db, h, steps[..|steps| - 1]), After(db, steps[..|steps| - 1]), After(db, steps))
  }

  // ---- The handler, record by record ----

  class Importer {
    var runs: seq<Run>
    var external: map<Text, nat>
    var customers: nat

    function State(): Db
      reads this
    {
      Db(runs, external, customers)
    }

    constructor (db: Db)
      ensures State() == db
    {
      runs, external, customers := db.runs, db.external, db.customers;
    }

    method ImportChunk(id: nat, offset: int, records: seq<Value>) returns (refusal: Option<string>)
      modifies this
      ensures match SubmitChunk(old(State()), id, offset, records)
              case Success(db) => refusal.None? && State() == db
              case Failure(code) => refusal == Some(code) && State() == old(State())
    {
      if !ValidChunk(offset, records) { return Some("INVALID_IMPORT"); }
      if id >= |runs| { return Some("RUN_NOT_FOUND"); }
      var run := runs[id];
      if !MatchesManifest(run, offset, records) { return Some("MANIFEST_MISMATCH"); }
      if offset in run.processed { return None; }
      var created, skipped := ImportAll(IdsOf(records));
      runs := runs[id := Advance(run, offset, Outcome(external, customers, created, skipped))];
      return None;
    }

    method ImportAll(ids: seq<Text>) returns (created: nat, skipped: nat)
      modifies this`external, this`customers
      ensures Outcome(external, customers, created, skipped) == ImportIds(old(external), old(customers), ids, |ids|)
    {
      created, skipped := 0, 0;
      for k := 0 to |ids|
        invariant Outcome(external, customers, created, skipped) == ImportIds(old(external), old(customers), ids, k)
      {
        if ids[k] in external {
          skipped := skipped + 1;
        } else {
          external := external[ids[k] := customers];
          customers := customers + 1;
          created := created + 1;
        }
      }
    }
  }

  // ---- Counting chunks ----

  /** Records of the processed chunks among the first n of a run. */
  function ProcessedIn(expected: int, processed: seq<int>, n: nat): int {
    if n == 0 then 0
    else ProcessedIn(expected, processed, n - 1)
         + (if (n - 1) * CHUNK_SIZE in processed then ChunkCount(expected, (n - 1) * CHUNK_SIZE) else 0)
  }

  function ChunksOf(expected: int): nat
    requires expected >= 0
  {
    (expected + CHUNK_SIZE - 1) / CHUNK_SIZE
  }

  predicate AllProcessed(run: Run) {
    forall offset :: 0 <= offset < run.expectedCount && offset % CHUNK_SIZE == 0 ==> offset in run.processed
  }

  lemma {:induction false} ProcessChunk(expected: int, processed: seq<int>, offset: int, n: nat)
    requires offset !in processed && offset >= 0 && offset % CHUNK_SIZE == 0
    ensures ProcessedIn(expected, processed + [offset], n)
         == ProcessedIn(expected, processed, n) + (if offset < n * CHUNK_SIZE then ChunkCount(expected, offset) else 0)
  {
    if n > 0 {
      ProcessChunk(expected, processed, offset, n - 1);
      assert offset == offset / CHUNK_SIZE * CHUNK_SIZE;
    }
  }

  lemma {:induction false} ProcessedBound(expected: int, processed: seq<int>, n: nat)
    requires expected >= 0 && n <= ChunksOf(expected)
    ensures var all := if expected < n * CHUNK_SIZE then expected else n * CHUNK_SIZE;
            && ProcessedIn(expected, processed, n) <= all
            && (ProcessedIn(expected, processed, n) == all <==>
                  forall c :: 0 <= c < n ==> c * CHUNK_SIZE in processed)
  {
    if n > 0 { ProcessedBound(expected, processed, n - 1); }
  }

  // ---- What every run keeps ----

  /** The manifest, the counters and the processed offsets of a run fit together. */
  ghost predicate RunOk(run: Run) {
    && 1 <= run.expectedCount == |run.recordHashes|
    && (forall i :: 0 <= i < |run.processed| ==>
          0 <= run.processed[i] < run.expectedCount && run.processed[i] % CHUNK_SIZE == 0)
    && (forall i, j :: 0 <= i < j < |run.processed| ==> run.processed[i] != run.processed[j])
    && run.created >= 0 && run.skipped >= 0
    && run.created + run.skipped == ProcessedIn(run.expectedCount, run.processed, ChunksOf(run.expectedCount))
    && (run.completed <==> AllProcessed(run))
  }

  /** Created plus skipped reach the expected count exactly when every chunk has been processed. */
  lemma CompleteIff(run: Run)
    requires run.expectedCount >= 0
    requires run.created + run.skipped == ProcessedIn(run.expectedCount, run.processed, ChunksOf(run.expectedCount))
    ensures run.created + run.skipped <= run.expectedCount
    ensures run.created + run.skipped == run.expectedCount <==> AllProcessed(run)
  {
    var n := ChunksOf(run.expectedCount);
    ProcessedBound(run.expectedCount, run.processed, n);
    if AllProcessed(run) {
      forall c | 0 <= c < n ensures c * CHUNK_SIZE in run.processed {
        assert c * CHUNK_SIZE % CHUNK_SIZE == 0;
      }
    }
    if forall c :: 0 <= c < n ==> c * CHUNK_SIZE in run.processed {
      forall offset | 0 <= offset < run.expectedCount && offset % CHUNK_SIZE == 0 ensures offset in run.processed {
        assert offset == offset / CHUNK_SIZE * CHUNK_SIZE;
      }
    }
  }

  // ---- Which ids have customers ----

  /** Every processed record's id has a customer, and no id was added otherwise. */
  ghost predicate Imported(db: Db, start: set<Text>, id: Text) {
    id in start || exists r, k :: ProcessedRecord(db, r, k) && IdAt(db.runs[r].recordHashes[k], id)
  }

  /** Position k of run r lies in a processed chunk. */
  predicate ProcessedRecord(db: Db, r: int, k: int) {
    && 0 <= r < |db.runs| && 0 <= k < |db.runs[r].recordHashes|
    && (k - k % CHUNK_SIZE) in db.runs[r].processed
  }

  /** The manifest entry belongs to a record with this external id. */
  ghost predicate IdAt(hash: Text, id: Text) {
    exists v :: ValidRecord(v) && RecordHash(v) == hash && ExternalId(v) == id
  }

  lemma IdAtIsUnique(hash: Text, id: Text, other: Text)
    requires IdAt(hash, id) && IdAt(hash, other)
    ensures id == other
  {
    var v :| ValidRecord(v) && RecordHash(v) == hash && ExternalId(v) == id;
    var w :| ValidRecord(w) && RecordHash(w) == hash && ExternalId(w) == other;
    HashGivesId(v, w);
  }

  predicate Among(ids: seq<Text>, k: nat, id: Text)
    requires k <= |ids|
  {
    exists i :: 0 <= i < k && ids[i] == id
  }

  /** Importing k ids adds exactly those, one fresh customer each. */
  lemma {:induction false} ImportAdds(external: map<Text, nat>, customers: nat, ids: seq<Text>, k: nat)
    requires k <= |ids|
    ensures var o := ImportIds(external, customers, ids, k);
            && o.created + o.skipped == k
            && (forall id :: id in o.external <==> id in external || Among(ids, k, id))
            && |o.external| == |external| + o.created
  {
    if k > 0 {
      ImportAdds(external, customers, ids, k - 1);
      var o := ImportIds(external, customers, ids, k - 1);
      AddOne(o.external, ids[k - 1], o.customers);
      forall id ensures Among(ids, k, id) <==> Among(ids, k - 1, id) || id == ids[k - 1] {
        if id == ids[k - 1] { assert Among(ids, k, ids[k - 1]); }
      }
    }
  }

  lemma AddOne(external: map<Text, nat>, id: Text, customer: nat)
    ensures id !in external ==> |external[id := customer]| == |external| + 1
  {
    if id !in external { assert external[id := customer].Keys == external.Keys + {id}; }
  }

  /** Different ids have different customers. */
  predicate CustomersDistinct(external: map<Text, nat>, customers: nat) {
    && (forall a, b :: a in external && b in external && a != b ==> external[a] != external[b])
    && (forall a :: a in external ==> external[a] < customers)
  }

  /** Customers already assigned are never reassigned. */
  predicate Extended(external: map<Text, nat>, now: map<Text, nat>) {
    forall a :: a in external ==> a in now && now[a] == external[a]
  }

  lemma {:induction false} ImportKeepsDistinct(external: map<Text, nat>, customers: nat, ids: seq<Text>, k: nat)
    requires k <= |ids| && CustomersDistinct(external, customers)
    ensures var o := ImportIds(external, customers, ids, k);
            CustomersDistinct(o.external, o.customers) && Extended(external, o.external) && customers <= o.customers
  {
    if k > 0 { ImportKeepsDistinct(external, customers, ids, k - 1); }
  }

  function CreatedBy(runs: seq<Run>): int {
    if |runs| == 0 then 0 else CreatedBy(runs[..|runs| - 1]) + runs[|runs| - 1].created
  }

  lemma {:induction false} CreatedUpdate(runs: seq<Run>, r: nat, run: Run)
    requires r < |runs|
    ensures CreatedBy(runs[r := run]) == CreatedBy(runs) - runs[r].created + run.created
  {
    var last := |runs| - 1;
    if r == last {
      assert runs[r := run][..last] == runs[..last];
    } else {
      assert runs[r := run][..last] == runs[..last][r := run];
      CreatedUpdate(runs[..last], r, run);
    }
  }

  ghost predicate RunsOk(runs: seq<Run>) {
    forall r :: 0 <= r < |runs| ==> RunOk(runs[r])
  }

  /** Whatever was imported has a customer or has lost it. */
  ghost predicate ExactlyImported(db: Db, start: set<Text>, lost: set<Text>) {
    && (forall id :: id in db.external || id in lost <==> Imported(db, start, id))
    && (forall id :: id in db.external ==> id !in lost)
  }

  predicate ChecksumsDistinct(runs: seq<Run>) {
    forall r, q :: 0 <= r < q < |runs| ==> runs[r].checksum != runs[q].checksum
  }

  ghost predicate Inv(db: Db, start: set<Text>, h: History) {
    && RunsOk(db.runs) && ChecksumsDistinct(db.runs)
    && ExactlyImported(db, start, h.lost)
    && CustomersDistinct(db.external, db.customers)
    && |db.external| + h.deletions == |start| + CreatedBy(db.runs)
  }

  // ---- Each step keeps it ----

  lemma AdvanceKeepsRun(run: Run, offset: int, o: Outcome)
    requires RunOk(run) && 0 <= offset < run.expectedCount && offset % CHUNK_SIZE == 0 && offset !in run.processed
    requires o.created + o.skipped == ChunkCount(run.expectedCount, offset)
    ensures RunOk(Advance(run, offset, o))
  {
    var now := Advance(run, offset, o);
    var n := ChunksOf(run.expectedCount);
    ProcessChunk(run.expectedCount, run.processed, offset, n);
    assert offset < n * CHUNK_SIZE;
    assert AllProcessed(run) ==> offset in run.processed;
    CompleteIff(run);
    CompleteIff(now);
  }

  /** Position k is in the chunk at this offset. */
  lemma ChunkOf(k: int, offset: int)
    requires offset % CHUNK_SIZE == 0 && k >= 0
    ensures k - k % CHUNK_SIZE == offset <==> offset <= k < offset + CHUNK_SIZE
  {
    assert k == k / CHUNK_SIZE * CHUNK_SIZE + k % CHUNK_SIZE;
    assert offset == offset / CHUNK_SIZE * CHUNK_SIZE;
  }

  /** The manifest entry of the chunk's record i names exactly its id. */
  ghost predicate NamesAt(run: Run, offset: int, ids: seq<Text>, i: int) {
    && 0 <= i < |ids| && 0 <= offset + i < |run.recordHashes|
    && OnlyId(run.recordHashes[offset + i], ids[i])
  }

  ghost predicate OnlyId(hash: Text, only: Text) {
    forall id :: IdAt(hash, id) <==> id == only
  }

  /** The manifest entries from offset on name exactly these ids, up to the end of the chunk. */
  ghost predicate Names(run: Run, offset: int, ids: seq<Text>) {
    && offset >= 0 && offset % CHUNK_SIZE == 0 && |ids| == ChunkCount(run.expectedCount, offset)
    && offset + |ids| <= |run.recordHashes| == run.expectedCount
    && forall i :: 0 <= i < |ids| ==> NamesAt(run, offset, ids, i)
  }

  lemma ManifestNames(run: Run, offset: int, records: seq<Value>)
    requires RunOk(run) && ValidChunk(offset, records) && MatchesManifest(run, offset, records)
    ensures Names(run, offset, IdsOf(records))
  {
    var ids := IdsOf(records);
    forall i | 0 <= i < |ids| ensures NamesAt(run, offset, ids, i) {
      HashNames(run.recordHashes[offset + i], records[i]);
    }
  }

  lemma HashNames(hash: Text, v: Value)
    requires ValidRecord(v) && RecordHash(v) == hash
    ensures OnlyId(hash, ExternalId(v))
  {
    assert IdAt(hash, ExternalId(v));
    forall id: Text | IdAt(hash, id) ensures id == ExternalId(v) {
      IdAtIsUnique(hash, id, ExternalId(v));
    }
  }

  predicate InChunk(run: Run, k: int) {
    0 <= k < |run.recordHashes| && (k - k % CHUNK_SIZE) in run.processed
  }

  ghost predicate RunImports(run: Run, id: Text) {
    exists k :: InChunk(run, k) && IdAt(run.recordHashes[k], id)
  }

  ghost predicate SomeRunImports(runs: seq<Run>, id: Text) {
    exists r :: 0 <= r < |runs| && RunImports(runs[r], id)
  }

  lemma ImportedUnfold(db: Db, start: set<Text>, id: Text)
    ensures Imported(db, start, id) <==> id in start || SomeRunImports(db.runs, id)
  {
    if r, k :| ProcessedRecord(db, r, k) && IdAt(db.runs[r].recordHashes[k], id) {
      assert InChunk(db.runs[r], k);
      assert RunImports(db.runs[r], id);
    }
    if SomeRunImports(db.runs, id) {
      var r :| 0 <= r < |db.runs| && RunImports(db.runs[r], id);
      var k :| InChunk(db.runs[r], k) && IdAt(db.runs[r].recordHashes[k], id);
      assert ProcessedRecord(db, r, k);
    }
  }

  lemma AdvanceImportsOld(run: Run, offset: int, o: Outcome, id: Text)
    requires RunImports(run, id)
    ensures RunImports(Advance(run, offset, o), id)
  {
    var k :| InChunk(run, k) && IdAt(run.recordHashes[k], id);
    assert InChunk(Advance(run, offset, o), k);
  }

  lemma AdvanceImportsNew(run: Run, offset: int, ids: seq<Text>, o: Outcome, id: Text)
    requires Names(run, offset, ids) && Among(ids, |ids|, id)
    ensures RunImports(Advance(run, offset, o), id)
  {
    var i :| 0 <= i < |ids| && ids[i] == id;
    ChunkOf(offset + i, offset);
    assert NamesAt(run, offset, ids, i);
    assert InChunk(Advance(run, offset, o), offset + i);
  }

  lemma AdvanceImportsOnly(run: Run, offset: int, ids: seq<Text>, o: Outcome, id: Text)
    requires Names(run, offset, ids) && RunImports(Advance(run, offset, o), id)
    ensures RunImports(run, id) || Among(ids, |ids|, id)
  {
    var now := Advance(run, offset, o);
    var k :| InChunk(now, k) && IdAt(now.recordHashes[k], id);
    ChunkOf(k, offset);
    if !InChunk(run, k) {
      assert offset <= k < offset + |ids|;
      assert NamesAt(run, offset, ids, k - offset);
      assert ids[k - offset] == id;
    }
  }

  /** Processing a chunk makes exactly the ids of its records imported, besides the earlier ones. */
  lemma ImportedAfterChunk(runs: seq<Run>, at: nat, offset: int, ids: seq<Text>, o: Outcome, id: Text)
    requires at < |runs| && Names(runs[at], offset, ids)
    ensures SomeRunImports(runs[at := Advance(runs[at], offset, o)], id)
       <==> SomeRunImports(runs, id) || Among(ids, |ids|, id)
  {
    var now := runs[at := Advance(runs[at], offset, o)];
    if SomeRunImports(now, id) {
      var r :| 0 <= r < |now| && RunImports(now[r], id);
      if r == at {
        AdvanceImportsOnly(runs[at], offset, ids, o, id);
      } else {
        assert RunImports(runs[r], id);
      }
    }
    if SomeRunImports(runs, id) {
      var r :| 0 <= r < |runs| && RunImports(runs[r], id);
      if r == at { AdvanceImportsOld(runs[at], offset, o, id); }
      assert RunImports(now[r], id);
    }
    if Among(ids, |ids|, id) {
      AdvanceImportsNew(runs[at], offset, ids, o, id);
      assert RunImports(now[at], id);
    }
  }

  lemma {:induction false} ChunkKeepsIds(db: Db, start: set<Text>, lost: set<Text>, at: nat, offset: int, ids: seq<Text>)
    requires ExactlyImported(db, start, lost) && at < |db.runs| && Names(db.runs[at], offset, ids)
    ensures var o := ImportIds(db.external, db.customers, ids, |ids|);
            ExactlyImported(Db(db.runs[at := Advance(db.runs[at], offset, o)], o.external, o.customers), start,
                            lost - o.external.Keys)
  {
    var o := ImportIds(db.external, db.customers, ids, |ids|);
    var now := Db(db.runs[at := Advance(db.runs[at], offset, o)], o.external, o.customers);
    ImportAdds(db.external, db.customers, ids, |ids|);
    forall id ensures id in now.external || id in lost - o.external.Keys <==> Imported(now, start, id) {
      ImportedUnfold(db, start, id);
      ImportedUnfold(now, start, id);
      ImportedAfterChunk(db.runs, at, offset, ids, o, id);
    }
  }

  lemma RunsAdvance(runs: seq<Run>, at: nat, offset: int, o: Outcome)
    requires RunsOk(runs) && ChecksumsDistinct(runs) && at < |runs|
    requires 0 <= offset < runs[at].expectedCount && offset % CHUNK_SIZE == 0 && offset !in runs[at].processed
    requires o.created + o.skipped == ChunkCount(runs[at].expectedCount, offset)
    ensures var now := runs[at := Advance(runs[at], offset, o)]; RunsOk(now) && ChecksumsDistinct(now)
  {
    AdvanceKeepsRun(runs[at], offset, o);
  }

  /** A step that forgets no customer only takes newly imported ids off the lost ones. */
  lemma NothingGone(h: History, db: Db, now: Db)
    requires Extended(db.external, now.external)
    ensures Remember(h, db, now) == History(h.lost - now.external.Keys, h.deletions)
  {
    assert db.external.Keys - now.external.Keys == {};
  }

  lemma {:induction false} ChunkAdvances(db: Db, start: set<Text>, h: History, at: nat, offset: int, ids: seq<Text>)
    requires Inv(db, start, h) && at < |db.runs| && Names(db.runs[at], offset, ids) && |ids| > 0
    requires offset !in db.runs[at].processed
    ensures var o := ImportIds(db.external, db.customers, ids, |ids|);
            var now := Db(db.runs[at := Advance(db.runs[at], offset, o)], o.external, o.customers);
            Inv(now, start, Remember(h, db, now))
  {
    var o := ImportIds(db.external, db.customers, ids, |ids|);
    var now := Db(db.runs[at := Advance(db.runs[at], offset, o)], o.external, o.customers);
    ImportAdds(db.external, db.customers, ids, |ids|);
    ImportKeepsDistinct(db.external, db.customers, ids, |ids|);
    RunsAdvance(db.runs, at, offset, o);
    ChunkKeepsIds(db, start, h.lost, at, offset, ids);
    CreatedUpdate(db.runs, at, Advance(db.runs[at], offset, o));
    NothingGone(h, db, now);
  }

  /** Steps that change neither the ids nor the history. */
  lemma SameIdsKeep(db: Db, start: set<Text>, h: History, now: Db)
    requires Inv(db, start, h) && now.external == db.external
    ensures Remember(h, db, now) == h
  {
    NothingGone(h, db, now);
    assert h.lost - now.external.Keys == h.lost;
  }

  lemma ChunkKeeps(db: Db, start: set<Text>, h: History, at: nat, offset: int, records: seq<Value>)
    requires Inv(db, start, h) && SubmitChunk(db, at, offset, records).Success?
    ensures var now := SubmitChunk(db, at, offset, records).value; Inv(now, start, Remember(h, db, now))
  {
    if offset !in db.runs[at].processed {
      ManifestNames(db.runs[at], offset, records);
      ChunkAdvances(db, start, h, at, offset, IdsOf(records));
    } else {
      SameIdsKeep(db, start, h, db);
    }
  }

  lemma NewRunIsOk(file: Value)
    requires ValidFile(file)
    ensures RunOk(NewRun(file))
  {
    FreshRunIsOk(NewRun(file));
  }

  lemma FreshRunIsOk(run: Run)
    requires 1 <= run.expectedCount == |run.recordHashes| && run.processed == []
    requires run.created == run.skipped == 0 && !run.completed
    ensures RunOk(run)
  {
    NothingProcessed(run.expectedCount, ChunksOf(run.expectedCount));
    assert 0 % CHUNK_SIZE == 0 && 0 !in run.processed;
  }

  lemma {:induction false} RunsGrow(runs: seq<Run>, run: Run)
    requires RunsOk(runs) && ChecksumsDistinct(runs) && RunOk(run)
    requires forall r :: 0 <= r < |runs| ==> runs[r].checksum != run.checksum
    ensures RunsOk(runs + [run]) && ChecksumsDistinct(runs + [run])
    ensures CreatedBy(runs + [run]) == CreatedBy(runs) + run.created
  {
    assert (runs + [run])[..|runs|] == runs;
  }

  lemma RunAdded(db: Db, start: set<Text>, h: History, run: Run)
    requires Inv(db, start, h) && RunOk(run) && run.processed == [] && run.created == 0
    requires forall r :: 0 <= r < |db.runs| ==> db.runs[r].checksum != run.checksum
    ensures Inv(db.(runs := db.runs + [run]), start, h)
  {
    RunsGrow(db.runs, run);
    NewRunImportsNothing(db, start, h.lost, run);
  }

  lemma NewRunImportsNothing(db: Db, start: set<Text>, lost: set<Text>, run: Run)
    requires ExactlyImported(db, start, lost) && run.processed == []
    ensures ExactlyImported(db.(runs := db.runs + [run]), start, lost)
  {
    var now := db.(runs := db.runs + [run]);
    forall id ensures id in now.external || id in lost <==> Imported(now, start, id) {
      ImportedUnfold(db, start, id);
      ImportedUnfold(now, start, id);
      PrepareImportsNothing(db.runs, run, id);
    }
  }

  lemma PrepareAdds(db: Db, file: Value)
    requires Prepare(db, file).Success?
    ensures ValidFile(file)
    ensures Prepare(db, file).value == db
         || (Prepare(db, file).value == db.(runs := db.runs + [NewRun(file)])
             && forall r :: 0 <= r < |db.runs| ==> db.runs[r].checksum != NewRun(file).checksum)
  {
  }

  lemma PrepareKeeps(db: Db, start: set<Text>, h: History, file: Value)
    requires Inv(db, start, h) && Prepare(db, file).Success?
    ensures var now := Prepare(db, file).value; Inv(now, start, Remember(h, db, now))
  {
    var now := Prepare(db, file).value;
    PrepareAdds(db, file);
    SameIdsKeep(db, start, h, now);
    if now != db {
      NewRunIsOk(file);
      RunAdded(db, start, h, NewRun(file));
    }
  }

  /** Deleting a customer loses its ids, at most one as it happens, and touches no run. */
  lemma DeleteKeeps(db: Db, start: set<Text>, h: History, customer: nat)
    requires Inv(db, start, h)
    ensures var now := db.(external := Forget(db.external, customer)); Inv(now, start, Remember(h, db, now))
  {
    var now := db.(external := Forget(db.external, customer));
    var gone := db.external.Keys - now.external.Keys;
    assert db.external.Keys == now.external.Keys + gone;
    assert |db.external| == |db.external.Keys| && |now.external| == |now.external.Keys|;
    forall id ensures id in now.external || id in Remember(h, db, now).lost <==> Imported(now, start, id) {
      ImportedUnfold(db, start, id);
      ImportedUnfold(now, start, id);
    }
  }

  lemma AddCustomerKeeps(db: Db, start: set<Text>, h: History)
    requires Inv(db, start, h)
    ensures var now := Apply(db, AddCustomer); Inv(now, start, Remember(h, db, now))
  {
    var now := Apply(db, AddCustomer);
    SameIdsKeep(db, start, h, now);
    forall id ensures id in now.external || id in h.lost <==> Imported(now, start, id) {
      ImportedUnfold(db, start, id);
      ImportedUnfold(now, start, id);
    }
  }

  lemma PrepareImportsNothing(runs: seq<Run>, run: Run, id: Text)
    requires run.processed == []
    ensures SomeRunImports(runs + [run], id) <==> SomeRunImports(runs, id)
  {
    var now := runs + [run];
    if SomeRunImports(now, id) {
      var r :| 0 <= r < |now| && RunImports(now[r], id);
      assert r < |runs| && now[r] == runs[r];
    }
    if SomeRunImports(runs, id) {
      var r :| 0 <= r < |runs| && RunImports(runs[r], id);
      assert now[r] == runs[r];
    }
  }

  lemma {:induction false} NothingProcessed(expected: int, n: nat)
    ensures ProcessedIn(expected, [], n) == 0
  {
    if n > 0 { NothingProcessed(expected, n - 1); }
  }

  lemma {:induction false} RunKeeps(db: Db, start: set<Text>, h: History, steps: seq<Step>)
    requires Inv(db, start, h)
    ensures Inv(After(db, steps), start, HistoryOf(db, h, steps))
  {
    if |steps| > 0 {
      var before := After(db, steps[..|steps| - 1]);
      RunKeeps(db, start, h, steps[..|steps| - 1]);
      StepKeeps(before, start, HistoryOf(db, h, steps[..|steps| - 1]), steps[|steps| - 1]);
    }
  }

  lemma StepKeeps(db: Db, start: set<Text>, h: History, step: Step)
    requires Inv(db, start, h)
    ensures Inv(Apply(db, step), start, Remember(h, db, Apply(db, step)))
  {
    if Apply(db, step) == db {
      SameIdsKeep(db, start, h, db);
    } else {
      match step
      case DoPrepare(file) => PrepareKeeps(db, start, h, file);
      case DoChunk(id, offset, records) => ChunkKeeps(db, start, h, id, offset, records);
      case AddCustomer => AddCustomerKeeps(db, start, h);
      case DeleteCustomer(customer, reserved) => DeleteKeeps(db, start, h, customer);
    }
  }

  const NOTHING_LOST := History({}, 0)

  /** Before the first run: customers imported earlier, each with its own number. */
  predicate Initial(db: Db) {
    db.runs == [] && CustomersDistinct(db.external, db.customers)
  }

  lemma InitialInv(db: Db)
    requires Initial(db)
    ensures Inv(db, db.external.Keys, NOTHING_LOST)
  {
    forall id ensures id in db.external <==> Imported(db, db.external.Keys, id) {
      ImportedUnfold(db, db.external.Keys, id);
    }
  }

  // ---- What holds after any steps ----

  /** The records of the distinct chunks processed are all created or skipped, and completion is exact. */
  lemma {:induction false} RunAccounting(db: Db, steps: seq<Step>, r: nat)
    requires Initial(db) && r < |After(db, steps).runs|
    ensures var run := After(db, steps).runs[r];
            && run.expectedCount >= 1
            && run.created + run.skipped == ProcessedIn(run.expectedCount, run.processed, ChunksOf(run.expectedCount))
            && (run.completed <==> run.created + run.skipped == run.expectedCount)
            && (run.completed <==> AllProcessed(run))
  {
    InitialInv(db);
    RunKeeps(db, db.external.Keys, NOTHING_LOST, steps);
    var run := After(db, steps).runs[r];
    assert RunOk(run);
    CompleteIff(run);
  }

  /**
   Whatever was imported has exactly one customer, unless it was deleted; nothing else has one; and customers now
   and customers deleted are together those at the start and those created.
   */
  lemma {:induction false} OneCustomerPerId(db: Db, steps: seq<Step>)
    requires Initial(db)
    ensures var now := After(db, steps);
            var h := HistoryOf(db, NOTHING_LOST, steps);
            && (forall id :: Imported(now, db.external.Keys, id) <==> id in now.external || id in h.lost)
            && now.external.Keys !! h.lost
            && (forall a, b :: a in now.external && b in now.external && a != b ==> now.external[a] != now.external[b])
            && |now.external| + h.deletions == |db.external| + CreatedBy(now.runs)
  {
    InitialInv(db);
    RunKeeps(db, db.external.Keys, NOTHING_LOST, steps);
    assert |db.external| == |db.external.Keys|;
  }

  /** The step after which id had no customer any more, and has had none since. */
  predicate GoneSince(db: Db, steps: seq<Step>, id: Text, i: nat)
    requires i < |steps|
  {
    && steps[i].DeleteCustomer? && id in After(db, steps[..i]).external
    && forall j :: i < j <= |steps| ==> id !in After(db, steps[..j]).external
  }

  lemma {:induction false} AfterOne(db: Db, steps: seq<Step>, i: nat)
    requires i < |steps|
    ensures After(db, steps[..i + 1]) == Apply(After(db, steps[..i]), steps[i])
  {
    assert steps[..i + 1][..i] == steps[..i];
  }

  /** Only deletions take ids away. */
  lemma {:induction false} OthersForgetNothing(db: Db, step: Step)
    requires CustomersDistinct(db.external, db.customers) && !step.DeleteCustomer?
    ensures Extended(db.external, Apply(db, step).external)
  {
    if step.DoChunk? && SubmitChunk(db, step.id, step.offset, step.records).Success? {
      ImportKeepsDistinct(db.external, db.customers, IdsOf(step.records), |step.records|);
    }
  }

  /** An imported id lacks a customer exactly when a deletion took it and nothing has created it again since. */
  lemma {:induction false} LostIffDeletedSince(db: Db, steps: seq<Step>, id: Text)
    requires Initial(db)
    ensures id in HistoryOf(db, NOTHING_LOST, steps).lost <==> EverGone(db, steps, id)
  {
    if |steps| > 0 {
      LostIffDeletedSince(db, steps[..|steps| - 1], id);
      LastStepLoses(db, steps, id);
      var rest := steps[..|steps| - 1];
      if id in HistoryOf(db, NOTHING_LOST, steps).lost { LostByThen(db, steps, id); }
      if EverGone(db, steps, id) { DeletedByThen(db, steps, id); }
    }
  }

  /** What the last step does to one id. */
  lemma {:induction false} LastStepLoses(db: Db, steps: seq<Step>, id: Text)
    requires Initial(db) && |steps| > 0
    ensures var rest := steps[..|steps| - 1];
            var before, now := After(db, rest), After(db, steps);
            && (id in HistoryOf(db, NOTHING_LOST, steps).lost <==>
                  (id in HistoryOf(db, NOTHING_LOST, rest).lost || id in before.external) && id !in now.external)
            && (id in before.external && id !in now.external ==> steps[|steps| - 1].DeleteCustomer?)
  {
    var rest, step := steps[..|steps| - 1], steps[|steps| - 1];
    InitialInv(db);
    RunKeeps(db, db.external.Keys, NOTHING_LOST, rest);
    if !step.DeleteCustomer? { OthersForgetNothing(After(db, rest), step); }
  }

  ghost predicate EverGone(db: Db, steps: seq<Step>, id: Text) {
    exists i :: 0 <= i < |steps| && GoneSince(db, steps, id, i)
  }

  lemma LostByThen(db: Db, steps: seq<Step>, id: Text)
    requires |steps| > 0 && id !in After(db, steps).external
    requires var rest := steps[..|steps| - 1];
             EverGone(db, rest, id) || (id in After(db, rest).external && steps[|steps| - 1].DeleteCustomer?)
    ensures EverGone(db, steps, id)
  {
    var n := |steps| - 1;
    if EverGone(db, steps[..n], id) {
      var i :| 0 <= i < n && GoneSince(db, steps[..n], id, i);
      GoneLonger(db, steps, id, i);
    } else {
      assert steps[..n + 1] == steps;
      assert GoneSince(db, steps, id, n);
    }
  }

  lemma {:induction false} DeletedByThen(db: Db, steps: seq<Step>, id: Text)
    requires |steps| > 0 && EverGone(db, steps, id)
    ensures id !in After(db, steps).external
    ensures EverGone(db, steps[..|steps| - 1], id) || id in After(db, steps[..|steps| - 1]).external
  {
    var i :| 0 <= i < |steps| && GoneSince(db, steps, id, i);
    GoneBefore(db, steps, id, i);
  }

  /** At most as many ids are without a customer as were deleted. */
  lemma {:induction false} LostAreDeleted(db: Db, steps: seq<Step>)
    ensures |HistoryOf(db, NOTHING_LOST, steps).lost| <= HistoryOf(db, NOTHING_LOST, steps).deletions
  {
    if |steps| > 0 {
      LostAreDeleted(db, steps[..|steps| - 1]);
      var before, now := After(db, steps[..|steps| - 1]), After(db, steps);
      FewerLost(HistoryOf(db, NOTHING_LOST, steps[..|steps| - 1]).lost, before.external.Keys - now.external.Keys, now.external.Keys);
    }
  }

  lemma FewerLost(lost: set<Text>, gone: set<Text>, found: set<Text>)
    ensures |lost + gone - found| <= |lost| + |gone|
  {
    var all := lost + gone;
    assert all - found + all * found == all;
    assert |lost + (gone - lost)| == |lost| + |gone - lost| && lost + (gone - lost) == all;
    assert gone - lost + gone * lost == gone;
  }

  /** A record whose customer was deleted is created again by the next chunk that names it, and counted again. */
  lemma {:induction false} LostIsCreatedAgain(db: Db, at: nat, offset: int, records: seq<Value>, i: nat)
    requires SubmitChunk(db, at, offset, records).Success? && offset !in db.runs[at].processed
    requires i < |records| && ExternalId(records[i]) !in db.external
    ensures var now := SubmitChunk(db, at, offset, records).value;
            ExternalId(records[i]) in now.external && CreatedBy(now.runs) > CreatedBy(db.runs)
  {
    var ids := IdsOf(records);
    var o := ImportIds(db.external, db.customers, ids, |ids|);
    ImportAdds(db.external, db.customers, ids, |ids|);
    assert Among(ids, |ids|, ids[i]);
    CreatedUpdate(db.runs, at, Advance(db.runs[at], offset, o));
    MoreIds(db.external, o.external, ids[i]);
  }

  lemma MoreIds(external: map<Text, nat>, now: map<Text, nat>, id: Text)
    requires id in now && id !in external && forall x :: x in external ==> x in now
    ensures |external| < |now|
  {
    Fewer(external.Keys + {id}, now.Keys);
    assert |external.Keys + {id}| == |external| + 1;
  }

  lemma Fewer(a: set<Text>, b: set<Text>)
    requires a <= b
    ensures |a| <= |b|
  {
    assert b == a + (b - a);
  }

  lemma {:induction false} GoneLonger(db: Db, steps: seq<Step>, id: Text, i: nat)
    requires i < |steps| - 1 && GoneSince(db, steps[..|steps| - 1], id, i) && id !in After(db, steps).external
    ensures GoneSince(db, steps, id, i)
  {
    var n := |steps| - 1;
    assert steps[..n][..i] == steps[..i];
    forall j | i < j <= |steps| ensures id !in After(db, steps[..j]).external {
      if j <= n { assert steps[..n][..j] == steps[..j]; } else { assert steps[..j] == steps; }
    }
  }

  lemma {:induction false} GoneBefore(db: Db, steps: seq<Step>, id: Text, i: nat)
    requires i < |steps| && GoneSince(db, steps, id, i)
    ensures id !in After(db, steps).external
    ensures i < |steps| - 1 ==> GoneSince(db, steps[..|steps| - 1], id, i)
    ensures i == |steps| - 1 ==> id in After(db, steps[..|steps| - 1]).external
  {
    var n := |steps| - 1;
    assert steps[..|steps|] == steps;
    if i < n {
      assert steps[..n][..i] == steps[..i];
      forall j | i < j <= n ensures id !in After(db, steps[..n][..j]).external {
        assert steps[..n][..j] == steps[..j];
      }
    }
  }

  /** The same files with the same chunks processed, in whatever order files and chunks came. */
  ghost predicate SameProgress(a: seq<Run>, b: seq<Run>) {
    Covers(a, b) && Covers(b, a)
  }

  /** Every run of a has a counterpart in b that has processed at least its chunks. */
  ghost predicate Covers(a: seq<Run>, b: seq<Run>) {
    forall r :: 0 <= r < |a| ==> Matched(a, r, b)
  }

  ghost predicate Matched(a: seq<Run>, r: nat, b: seq<Run>)
    requires r < |a|
  {
    exists q :: 0 <= q < |b| && Resumes(a[r].(checksum := b[q].checksum), b[q])
  }

  /**
   Order does not show: the same files and chunks make the same ids imported, and created less deleted is the same
   apart from the ids that have lost their customers. Without deletions the ids and the total created are the same.
   */
  lemma {:induction false} OrderDoesNotMatter(db: Db, steps: seq<Step>, other: seq<Step>)
    requires Initial(db) && SameProgress(After(db, steps).runs, After(db, other).runs)
    ensures var a, b := After(db, steps), After(db, other);
            var h, g := HistoryOf(db, NOTHING_LOST, steps), HistoryOf(db, NOTHING_LOST, other);
            && a.external.Keys + h.lost == b.external.Keys + g.lost
            && CreatedBy(a.runs) - h.deletions + |h.lost| == CreatedBy(b.runs) - g.deletions + |g.lost|
            && (h.lost == g.lost ==> a.external.Keys == b.external.Keys)
            && (h.deletions == g.deletions == 0 ==>
                  a.external.Keys == b.external.Keys && CreatedBy(a.runs) == CreatedBy(b.runs))
  {
    LostAreDeleted(db, steps);
    LostAreDeleted(db, other);
    InitialInv(db);
    RunKeeps(db, db.external.Keys, NOTHING_LOST, steps);
    RunKeeps(db, db.external.Keys, NOTHING_LOST, other);
    SameProgressSameIds(After(db, steps), After(db, other), db.external.Keys,
                        HistoryOf(db, NOTHING_LOST, steps), HistoryOf(db, NOTHING_LOST, other));
  }

  lemma {:induction false} SameProgressSameIds(a: Db, b: Db, start: set<Text>, h: History, g: History)
    requires Inv(a, start, h) && Inv(b, start, g) && SameProgress(a.runs, b.runs)
    ensures a.external.Keys + h.lost == b.external.Keys + g.lost
    ensures CreatedBy(a.runs) - h.deletions + |h.lost| == CreatedBy(b.runs) - g.deletions + |g.lost|
    ensures h.lost == g.lost ==> a.external.Keys == b.external.Keys
  {
    SameIds(a, b, start, h.lost, g.lost);
  }

  lemma {:induction false} SameIds(a: Db, b: Db, start: set<Text>, lostA: set<Text>, lostB: set<Text>)
    requires SameProgress(a.runs, b.runs)
    requires ExactlyImported(a, start, lostA) && ExactlyImported(b, start, lostB)
    ensures a.external.Keys + lostA == b.external.Keys + lostB
    ensures |a.external| + |lostA| == |b.external| + |lostB|
    ensures lostA == lostB ==> a.external.Keys == b.external.Keys
  {
    SameImported(a, b, start, lostA, lostB);
    assert a.external.Keys !! lostA && b.external.Keys !! lostB;
    assert |a.external| == |a.external.Keys| && |b.external| == |b.external.Keys|;
    assert a.external.Keys == a.external.Keys + lostA - lostA && b.external.Keys == b.external.Keys + lostB - lostB;
  }

  lemma {:induction false} SameImported(a: Db, b: Db, start: set<Text>, lostA: set<Text>, lostB: set<Text>)
    requires SameProgress(a.runs, b.runs)
    requires ExactlyImported(a, start, lostA) && ExactlyImported(b, start, lostB)
    ensures a.external.Keys + lostA == b.external.Keys + lostB
  {
    forall id ensures id in a.external.Keys + lostA <==> id in b.external.Keys + lostB {
      ImportedUnfold(a, start, id);
      ImportedUnfold(b, start, id);
      SameChunksSameIds(a.runs, b.runs, id);
      SameChunksSameIds(b.runs, a.runs, id);
    }
  }

  lemma SameChunksSameIds(a: seq<Run>, b: seq<Run>, id: Text)
    requires Covers(a, b)
    ensures SomeRunImports(a, id) ==> SomeRunImports(b, id)
  {
    if SomeRunImports(a, id) {
      var r :| 0 <= r < |a| && RunImports(a[r], id);
      assert Matched(a, r, b);
      var q :| 0 <= q < |b| && Resumes(a[r].(checksum := b[q].checksum), b[q]);
      var k :| InChunk(a[r], k) && IdAt(a[r].recordHashes[k], id);
      assert InChunk(b[q], k);
      assert RunImports(b[q], id);
    }
  }

  // ---- Replays ----

  /** A run keeps its manifest and its processed chunks. */
  predicate Resumes(run: Run, now: Run) {
    && now.checksum == run.checksum && now.expectedCount == run.expectedCount && now.recordHashes == run.recordHashes
    && forall o :: o in run.processed ==> o in now.processed
  }

  ghost predicate Grows(db: Db, now: Db) {
    && |db.runs| <= |now.runs|
    && forall r :: 0 <= r < |db.runs| ==> Resumes(db.runs[r], now.runs[r])
  }

  lemma StepGrows(db: Db, step: Step)
    ensures Grows(db, Apply(db, step))
  {
  }

  lemma {:induction false} RunGrows(db: Db, steps: seq<Step>)
    ensures Grows(db, After(db, steps))
  {
    if |steps| > 0 {
      var before := After(db, steps[..|steps| - 1]);
      RunGrows(db, steps[..|steps| - 1]);
      StepGrows(before, steps[|steps| - 1]);
      GrowsOn(db, before, After(db, steps));
    }
  }

  lemma GrowsOn(a: Db, b: Db, c: Db)
    requires Grows(a, b) && Grows(b, c)
    ensures Grows(a, c)
  {
    forall r | 0 <= r < |a.runs| ensures Resumes(a.runs[r], c.runs[r]) {
      assert Resumes(a.runs[r], b.runs[r]) && Resumes(b.runs[r], c.runs[r]);
    }
  }

  /**
   Sending an accepted chunk again, after anything else, is accepted and changes nothing. In particular it does not
   bring back a customer that was deleted meanwhile.
   */
  lemma {:induction false} ChunkReplay(db: Db, at: nat, offset: int, records: seq<Value>, steps: seq<Step>)
    requires SubmitChunk(db, at, offset, records).Success?
    ensures var later := After(SubmitChunk(db, at, offset, records).value, steps);
            SubmitChunk(later, at, offset, records) == Success(later)
  {
    var now := SubmitChunk(db, at, offset, records).value;
    assert offset in now.runs[at].processed && MatchesManifest(now.runs[at], offset, records);
    RunGrows(now, steps);
    assert Resumes(now.runs[at], After(now, steps).runs[at]);
  }

  // ---- Manifests ----

  /** Every run was prepared from a file: its checksum and manifest are that file's. */
  ghost predicate OfFile(run: Run, file: Value) {
    && ValidFile(file) && run.checksum == Canon(file)
    && run.expectedCount == |RecordsOf(file)| && run.recordHashes == Hashes(RecordsOf(file))
  }

  ghost predicate FromSomeFile(run: Run) {
    exists file :: OfFile(run, file)
  }

  ghost predicate FromFiles(runs: seq<Run>) {
    forall r :: 0 <= r < |runs| ==> FromSomeFile(runs[r])
  }

  lemma AdvanceFromFile(run: Run, offset: int, o: Outcome)
    requires FromSomeFile(run)
    ensures FromSomeFile(Advance(run, offset, o))
  {
    var file :| OfFile(run, file);
    assert OfFile(Advance(run, offset, o), file);
  }

  lemma {:induction false} FilesGrow(runs: seq<Run>, run: Run)
    requires FromFiles(runs) && FromSomeFile(run)
    ensures FromFiles(runs + [run])
  {
    var now := runs + [run];
    forall r | 0 <= r < |now| ensures FromSomeFile(now[r]) {
      assert now[r] == if r < |runs| then runs[r] else run;
    }
  }

  lemma NewRunFromFile(file: Value)
    requires ValidFile(file)
    ensures FromSomeFile(NewRun(file))
  {
    assert OfFile(NewRun(file), file);
  }

  lemma FilesUpdate(runs: seq<Run>, at: nat, run: Run)
    requires FromFiles(runs) && at < |runs| && FromSomeFile(run)
    ensures FromFiles(runs[at := run])
  {
    var now := runs[at := run];
    forall r | 0 <= r < |now| ensures FromSomeFile(now[r]) {
      assert now[r] == if r == at then run else runs[r];
    }
  }

  lemma PrepareKeepsFiles(db: Db, file: Value)
    requires FromFiles(db.runs) && Prepare(db, file).Success?
    ensures FromFiles(Prepare(db, file).value.runs)
  {
    PrepareAdds(db, file);
    NewRunFromFile(file);
    FilesGrow(db.runs, NewRun(file));
  }

  lemma ChunkKeepsFiles(db: Db, at: nat, offset: int, records: seq<Value>)
    requires FromFiles(db.runs) && SubmitChunk(db, at, offset, records).Success?
    ensures FromFiles(SubmitChunk(db, at, offset, records).value.runs)
  {
    var o := ImportIds(db.external, db.customers, IdsOf(records), |records|);
    AdvanceFromFile(db.runs[at], offset, o);
    FilesUpdate(db.runs, at, Advance(db.runs[at], offset, o));
  }

  lemma StepKeepsFiles(db: Db, step: Step)
    requires FromFiles(db.runs)
    ensures FromFiles(Apply(db, step).runs)
  {
    if step.DoPrepare? && Prepare(db, step.file).Success? {
      PrepareKeepsFiles(db, step.file);
    } else if step.DoChunk? && SubmitChunk(db, step.id, step.offset, step.records).Success? {
      ChunkKeepsFiles(db, step.id, step.offset, step.records);
    }
  }

  lemma {:induction false} RunKeepsFiles(db: Db, steps: seq<Step>)
    requires FromFiles(db.runs)
    ensures FromFiles(After(db, steps).runs)
  {
    if |steps| > 0 {
      RunKeepsFiles(db, steps[..|steps| - 1]);
      StepKeepsFiles(After(db, steps[..|steps| - 1]), steps[|steps| - 1]);
    }
  }

  /** The run found by a file's checksum carries that file's manifest. */
  lemma {:induction false} FoundRunIsThisFile(db: Db, steps: seq<Step>, file: Value, r: nat)
    requires Initial(db) && ValidFile(file) && r < |After(db, steps).runs|
    requires After(db, steps).runs[r].checksum == Canon(file)
    ensures var run := After(db, steps).runs[r];
            run.expectedCount == |RecordsOf(file)| && run.recordHashes == Hashes(RecordsOf(file))
  {
    RunKeepsFiles(db, steps);
    var run := After(db, steps).runs[r];
    assert FromSomeFile(run);
    var prepared :| OfFile(run, prepared);
    SameFileSameManifest(prepared, file);
    assert |Hashes(RecordsOf(prepared))| == |Hashes(RecordsOf(file))|;
  }

  /** Preparing the same file again, after anything else, finds its run, with that file's manifest and its progress. */
  lemma {:induction false} PrepareReplay(db: Db, first: seq<Step>, file: Value, steps: seq<Step>) returns (r: nat)
    requires Initial(db) && Prepare(After(db, first), file).Success?
    ensures var later := After(Prepare(After(db, first), file).value, steps);
            && Prepare(later, file) == Success(later)
            && r < |later.runs| && later.runs[r].checksum == Canon(file)
            && later.runs[r].expectedCount == |RecordsOf(file)| && later.runs[r].recordHashes == Hashes(RecordsOf(file))
  {
    var before := After(db, first);
    var now := Prepare(before, file).value;
    if now != before {
      r := |before.runs|;
    } else {
      r :| r < |now.runs| && now.runs[r].checksum == Canon(file);
      FoundRunIsThisFile(db, first, file, r);
    }
    assert now.runs[r].recordHashes == Hashes(RecordsOf(file));
    RunGrows(now, steps);
    assert Resumes(now.runs[r], After(now, steps).runs[r]);
  }
}
