/** The review coordinator's cache for one workspace: promises of file diffs and of file
    contents, keyed by snapshot and generation, shared between callers, dropped when they
    fail and cleared by a refresh. A step is the code between two awaits. */
module ReviewCache {
  import opened Options

  // ---------- Requests ----------

  /** What is asked for a file: its diff with some lines of context, or its contents. */
  datatype Ask = DiffAsk(fileId: string, contextLines: nat) | ContentAsk(fileId: string)

  const DEFAULT_CONTEXT_LINES := 3.0
  const MAX_CONTEXT_LINES := 200
  const MAX_DIFFS := 256
  const MAX_CONTENTS := 8

  function ContextLines(given: Option<real>): nat {
    var lines := (if given.Some? then given.value else DEFAULT_CONTEXT_LINES).Floor;
    if lines < 0 then 0 else if lines > MAX_CONTEXT_LINES then MAX_CONTEXT_LINES else lines
  }

  /** Three lines unless told otherwise; a number given counts by the whole lines in it, within
      0 and 200. */
  lemma ContextLinesAreClamped(given: Option<real>)
    ensures given.None? ==> ContextLines(given) == 3
    ensures given.Some? && given.value < 0.0 ==> ContextLines(given) == 0
    ensures given.Some? && given.value >= 200.0 ==> ContextLines(given) == 200
    ensures given.Some? && 0.0 <= given.value < 200.0 ==>
              ContextLines(given) as real <= given.value < ContextLines(given) as real + 1.0
  {
  }

  datatype DiffRequest = DiffRequest(fileId: string, contextLines: Option<real>)

  function DiffAsks(requests: seq<DiffRequest>): seq<Ask> {
    seq(|requests|,
      i requires 0 <= i < |requests| => DiffAsk(requests[i].fileId, ContextLines(requests[i].contextLines)))
  }

  function ContentAsks(fileIds: seq<string>): seq<Ask> {
    seq(|fileIds|, i requires 0 <= i < |fileIds| => ContentAsk(fileIds[i]))
  }

  /** The asks without repetitions, each at the place it first occurs. */
  function FirstOccurrences(asks: seq<Ask>): seq<Ask> {
    if asks == [] then []
    else
      var front, last := FirstOccurrences(asks[..|asks| - 1]), asks[|asks| - 1];
      if last in front then front else front + [last]
  }

  ghost predicate AllDifferent(asks: seq<Ask>) {
    forall i, j :: 0 <= i < j < |asks| ==> asks[i] != asks[j]
  }

  /** Deduplication keeps every ask once, in the order of first occurrence. */
  lemma {:induction false} FirstOccurrencesKeepAll(asks: seq<Ask>)
    ensures AllDifferent(FirstOccurrences(asks))
    ensures forall a :: a in asks <==> a in FirstOccurrences(asks)
    ensures forall n: nat :: n <= |asks| ==> FirstOccurrences(asks[..n]) <= FirstOccurrences(asks)
  {
    if asks != [] {
      var front := asks[..|asks| - 1];
      assert asks == front + [asks[|asks| - 1]];
      FirstOccurrencesKeepAll(front);
      forall n: nat | n <= |asks| ensures FirstOccurrences(asks[..n]) <= FirstOccurrences(asks) {
        if n == |asks| { assert asks[..n] == asks; } else { assert asks[..n] == front[..n]; }
      }
    }
  }

  method DedupeDiffRequests(requests: seq<DiffRequest>) returns (deduped: seq<Ask>)
    ensures deduped == FirstOccurrences(DiffAsks(requests))
  {
    deduped := [];
    for i := 0 to |requests|
      invariant deduped == FirstOccurrences(DiffAsks(requests)[..i])
    {
      var ask := DiffAsk(requests[i].fileId, ContextLines(requests[i].contextLines));
      assert DiffAsks(requests)[..i + 1][..i] == DiffAsks(requests)[..i];
      if ask !in deduped { deduped := deduped + [ask]; }
    }
    assert DiffAsks(requests)[..|requests|] == DiffAsks(requests);
  }

  function Limited(asks: seq<Ask>, limit: nat): seq<Ask> {
    var unique := FirstOccurrences(asks);
    if |unique| <= limit then unique else unique[..limit]
  }

  lemma LimitedIsDistinct(asks: seq<Ask>, limit: nat)
    ensures AllDifferent(Limited(asks, limit))
  {
    FirstOccurrencesKeepAll(asks);
  }

  // ---------- One cache ----------

  datatype Snapshot = Snapshot(id: string, generation: nat, files: set<string>, ignoreWhitespace: bool)

  datatype Outcome = Loaded(fileId: string, content: string) | Failed(fileId: string, code: string)

  /** How the provider's batch ends. */
  datatype BatchResult = Outcomes(outcomes: seq<Outcome>) | NotOk(code: string) | Rejected

  datatype Batch = Batch(snapshot: Snapshot, generation: nat, asks: seq<Ask>, result: Option<BatchResult>)

  datatype Key = Key(snapshotId: string, generation: nat, ask: Ask)

  datatype Settled = Fulfilled(outcome: Outcome) | Broken

  /** One file's share of a batch. */
  datatype Promise = Promise(key: Key, batch: nat, settled: Option<Settled>)

  /** `entries` names the promise held under each key. */
  datatype Cache = Cache(entries: map<Key, nat>, promises: seq<Promise>, batches: seq<Batch>)

  function FirstFor(outcomes: seq<Outcome>, fileId: string): Option<Outcome> {
    if outcomes == [] then None
    else if outcomes[0].fileId == fileId then Some(outcomes[0])
    else FirstFor(outcomes[1..], fileId)
  }

  /** What a file's promise makes of the batch: the lookup goes by file id alone. */
  function Answer(result: BatchResult, fileId: string): Settled {
    match result
    case Rejected => Broken
    case NotOk(code) => Fulfilled(Failed(fileId, code))
    case Outcomes(outcomes) =>
      var found := FirstFor(outcomes, fileId);
      Fulfilled(if found.Some? then found.value else Failed(fileId, "file_not_found"))
  }

  predicate IsFailedAnswer(s: Settled) { s.Broken? || s.outcome.Failed? }

  predicate IsFailure(p: Promise) { p.settled.Some? && IsFailedAnswer(p.settled.value) }

  function Missing(c: Cache, snapshotId: string, generation: nat, asks: seq<Ask>): seq<Ask> {
    if asks == [] then []
    else
      var front, last := Missing(c, snapshotId, generation, asks[..|asks| - 1]), asks[|asks| - 1];
      if Key(snapshotId, generation, last) in c.entries then front else front + [last]
  }

  function Entered(c: Cache, key: Key, batch: nat): Cache {
    c.(entries := c.entries[key := |c.promises|], promises := c.promises + [Promise(key, batch, None)])
  }

  /** One promise for each missing ask, in order. */
  function AllEntered(c: Cache, snapshotId: string, generation: nat, asks: seq<Ask>, batch: nat): Cache {
    if asks == [] then c
    else Entered(AllEntered(c, snapshotId, generation, asks[..|asks| - 1], batch),
      Key(snapshotId, generation, asks[|asks| - 1]), batch)
  }

  /** The provider is asked for what is missing, and only then. */
  function Asked(c: Cache, snapshot: Snapshot, generation: nat, asks: seq<Ask>): Cache {
    var missing := Missing(c, snapshot.id, generation, asks);
    if missing == [] then c
    else AllEntered(c.(batches := c.batches + [Batch(snapshot, generation, missing, None)]), snapshot.id, generation,
      missing, |c.batches|)
  }

  function BatchSettled(c: Cache, b: nat, result: BatchResult): Cache
    requires b < |c.batches|
  {
    c.(batches := c.batches[b := c.batches[b].(result := Some(result))])
  }

  function PromiseSettled(c: Cache, p: nat): Cache
    requires p < |c.promises| && c.promises[p].batch < |c.batches| && c.batches[c.promises[p].batch].result.Some?
  {
    var promise := c.promises[p];
    c.(promises := c.promises[p := promise.(settled := Some(Answer(c.batches[promise.batch].result.value,
      promise.key.ask.fileId)))])
  }

  /** The reaction that drops a failed promise, unless another has taken its place. */
  function Cleaned(c: Cache, p: nat): Cache
    requires p < |c.promises|
  {
    var key := c.promises[p].key;
    if IsFailure(c.promises[p]) && key in c.entries && c.entries[key] == p then c.(entries := c.entries - {key}) else c
  }

  // ---------- The cache's invariant ----------

  ghost predicate PromiseOk(c: Cache, generation: nat, p: nat)
    requires p < |c.promises|
  {
    var promise := c.promises[p];
    && promise.batch < |c.batches| && promise.key.generation <= generation
    && OfBatch(promise.key, c.batches[promise.batch])
    && (promise.settled.Some? ==>
          && c.batches[promise.batch].result.Some?
          && promise.settled.value == Answer(c.batches[promise.batch].result.value, promise.key.ask.fileId))
    && (promise.key.generation == generation && !IsFailure(promise) ==>
          promise.key in c.entries && c.entries[promise.key] == p)
  }

  /** The batch asked the provider for this very snapshot id, generation and file. */
  ghost predicate OfBatch(key: Key, batch: Batch) {
    && batch.snapshot.id == key.snapshotId && batch.snapshot.generation == key.generation
    && batch.generation == key.generation && key.ask in batch.asks
  }

  ghost predicate EntriesOk(c: Cache, generation: nat) {
    forall k :: k in c.entries ==>
      k.generation == generation && c.entries[k] < |c.promises| && c.promises[c.entries[k]].key == k
  }

  /** Of two promises under one key the earlier has failed. */
  ghost predicate AskedAgainAfterFailure(c: Cache) {
    forall p: nat, q: nat :: p < q < |c.promises| && c.promises[p].key == c.promises[q].key ==> IsFailure(c.promises[p])
  }

  ghost predicate CacheInv(c: Cache, generation: nat) {
    && EntriesOk(c, generation) && AskedAgainAfterFailure(c)
    && forall p: nat :: p < |c.promises| ==> PromiseOk(c, generation, p)
  }

  lemma EnteredKeeps(c: Cache, key: Key, batch: nat)
    requires CacheInv(c, key.generation) && key !in c.entries
    requires batch < |c.batches| && OfBatch(key, c.batches[batch])
    ensures CacheInv(Entered(c, key, batch), key.generation)
  {
    hide OfBatch;
    var d := Entered(c, key, batch);
    forall p: nat | p < |d.promises| ensures PromiseOk(d, key.generation, p) {
      if p < |c.promises| { assert PromiseOk(c, key.generation, p); }
    }
    forall p: nat, q: nat | p < q < |d.promises| && d.promises[p].key == d.promises[q].key
      ensures IsFailure(d.promises[p]) {
      assert PromiseOk(c, key.generation, p);
    }
  }

  lemma {:induction false} AllEnteredKeeps(c: Cache, snapshotId: string, generation: nat, asks: seq<Ask>, batch: nat)
    requires CacheInv(c, generation) && AllDifferent(asks) && batch < |c.batches|
    requires forall a :: a in asks ==>
             Key(snapshotId, generation, a) !in c.entries && OfBatch(Key(snapshotId, generation, a), c.batches[batch])
    ensures var d := AllEntered(c, snapshotId, generation, asks, batch);
            && CacheInv(d, generation) && d.batches == c.batches && c.promises <= d.promises
            && (forall k :: k in d.entries <==>
               k in c.entries || (k.snapshotId == snapshotId && k.generation == generation && k.ask in asks))
    decreases |asks|
  {
    hide CacheInv, OfBatch;
    if asks != [] {
      var front := asks[..|asks| - 1];
      assert asks == front + [asks[|asks| - 1]];
      AllEnteredKeeps(c, snapshotId, generation, front, batch);
      EnteredKeeps(AllEntered(c, snapshotId, generation, front, batch), Key(snapshotId, generation, asks[|asks| - 1]),
        batch);
    }
  }

  lemma {:induction false} MissingIs(c: Cache, snapshotId: string, generation: nat, asks: seq<Ask>)
    requires AllDifferent(asks)
    ensures AllDifferent(Missing(c, snapshotId, generation, asks))
    ensures forall a :: a in Missing(c, snapshotId, generation, asks) <==>
            a in asks && Key(snapshotId, generation, a) !in c.entries
    decreases |asks|
  {
    if asks != [] {
      assert asks == asks[..|asks| - 1] + [asks[|asks| - 1]];
      MissingIs(c, snapshotId, generation, asks[..|asks| - 1]);
    }
  }

  lemma WithBatchKeeps(c: Cache, generation: nat, batch: Batch)
    requires CacheInv(c, generation)
    ensures CacheInv(c.(batches := c.batches + [batch]), generation)
  {
    hide OfBatch;
    var d := c.(batches := c.batches + [batch]);
    forall p: nat | p < |d.promises| ensures PromiseOk(d, generation, p) {
      assert PromiseOk(c, generation, p);
    }
  }

  /** After asking, every ask has an entry: the lookup that collects the promises never
      comes back empty. */
  lemma AskedKeeps(c: Cache, snapshot: Snapshot, generation: nat, asks: seq<Ask>)
    requires CacheInv(c, generation) && AllDifferent(asks) && snapshot.generation == generation
    ensures var d := Asked(c, snapshot, generation, asks);
            && CacheInv(d, generation) && c.promises <= d.promises && c.batches <= d.batches
            && (forall a :: a in asks ==> Key(snapshot.id, generation, a) in d.entries)
            && |d.batches| == |c.batches| + if forall a :: a in asks ==> Key(snapshot.id, generation, a) in c.entries
               then 0 else 1
  {
    hide CacheInv;
    MissingIs(c, snapshot.id, generation, asks);
    var missing := Missing(c, snapshot.id, generation, asks);
    if missing == [] {
      forall a | a in asks ensures Key(snapshot.id, generation, a) in c.entries { assert a !in missing; }
    } else {
      var batch := Batch(snapshot, generation, missing, None);
      assert missing[0] in missing;
      WithBatchKeeps(c, generation, batch);
      AllEnteredKeeps(c.(batches := c.batches + [batch]), snapshot.id, generation, missing, |c.batches|);
    }
  }

  lemma BatchSettledKeeps(c: Cache, generation: nat, b: nat, result: BatchResult)
    requires CacheInv(c, generation) && b < |c.batches| && c.batches[b].result.None?
    ensures CacheInv(BatchSettled(c, b, result), generation)
  {
    var d := BatchSettled(c, b, result);
    forall p: nat | p < |d.promises| ensures PromiseOk(d, generation, p) {
      assert PromiseOk(c, generation, p);
    }
  }

  lemma PromiseSettledKeeps(c: Cache, generation: nat, p: nat)
    requires CacheInv(c, generation) && p < |c.promises| && c.promises[p].settled.None?
    requires c.promises[p].batch < |c.batches| && c.batches[c.promises[p].batch].result.Some?
    ensures CacheInv(PromiseSettled(c, p), generation)
  {
    hide Answer, OfBatch;
    var d := PromiseSettled(c, p);
    forall q: nat | q < |d.promises| ensures PromiseOk(d, generation, q) {
      assert PromiseOk(c, generation, q);
    }
  }

  lemma CleanedKeeps(c: Cache, generation: nat, p: nat)
    requires CacheInv(c, generation) && p < |c.promises|
    ensures CacheInv(Cleaned(c, p), generation)
  {
    hide Answer, OfBatch;
    var d := Cleaned(c, p);
    forall q: nat | q < |d.promises| ensures PromiseOk(d, generation, q) {
      assert PromiseOk(c, generation, q);
    }
  }

  lemma ClearedKeeps(c: Cache, generation: nat)
    requires CacheInv(c, generation)
    ensures CacheInv(c.(entries := map[]), generation + 1)
  {
    hide Answer, OfBatch;
    var d, next := c.(entries := map[]), generation + 1;
    forall q: nat | q < |d.promises| ensures PromiseOk(d, next, q) {
      assert PromiseOk(c, generation, q);
    }
  }

  // ---------- What batches asked ----------

  /** The batch has a promise for the ask. */
  ghost predicate HasPromise(c: Cache, b: nat, ask: Ask) {
    exists p: nat :: p < |c.promises| && c.promises[p].batch == b && c.promises[p].key.ask == ask
  }

  ghost predicate PromisesInOrder(c: Cache) {
    && (forall p: nat :: p < |c.promises| ==> c.promises[p].batch < |c.batches|)
    && (forall p: nat, q: nat :: p < q < |c.promises| ==> c.promises[p].batch <= c.promises[q].batch)
  }

  /** A batch asks each thing once, and only for files of its own snapshot. */
  ghost predicate WellAsked(batch: Batch) {
    AllDifferent(batch.asks) && forall a :: a in batch.asks ==> a.fileId in batch.snapshot.files
  }

  /** Promises stand in the order of their batches, and every ask of a batch has one. */
  ghost predicate BatchInv(c: Cache) {
    && PromisesInOrder(c)
    && (forall b: nat :: b < |c.batches| ==> WellAsked(c.batches[b]))
    && (forall b: nat, a :: b < |c.batches| && a in c.batches[b].asks ==> HasPromise(c, b, a))
  }

  /** Settling, dropping and clearing keep what was asked and by which promise. */
  ghost predicate SameAsks(c: Cache, d: Cache) {
    && |d.promises| == |c.promises| && |d.batches| == |c.batches|
    && (forall p: nat :: p < |c.promises| ==>
       d.promises[p].key == c.promises[p].key && d.promises[p].batch == c.promises[p].batch)
    && (forall b: nat :: b < |c.batches| ==>
       d.batches[b].snapshot == c.batches[b].snapshot && d.batches[b].asks == c.batches[b].asks)
  }

  lemma SameAsksKeep(c: Cache, d: Cache)
    requires BatchInv(c) && SameAsks(c, d)
    ensures BatchInv(d)
  {
    hide WellAsked;
    forall b: nat | b < |d.batches|
      ensures WellAsked(d.batches[b]) { SameBatchIsWellAsked(c.batches[b], d.batches[b]); }
    forall b: nat, a | b < |d.batches| && a in d.batches[b].asks ensures HasPromise(d, b, a) {
      assert HasPromise(c, b, a);
      var p: nat :| p < |c.promises| && c.promises[p].batch == b && c.promises[p].key.ask == a;
      assert d.promises[p].batch == b && d.promises[p].key.ask == a;
    }
  }

  lemma SameBatchIsWellAsked(x: Batch, y: Batch)
    requires WellAsked(x) && y.snapshot == x.snapshot && y.asks == x.asks
    ensures WellAsked(y)
  {
  }

  lemma PromiseStays(c: Cache, d: Cache, b: nat, a: Ask)
    requires c.promises <= d.promises && HasPromise(c, b, a)
    ensures HasPromise(d, b, a)
  {
    var p: nat :| p < |c.promises| && c.promises[p].batch == b && c.promises[p].key.ask == a;
    assert d.promises[p] == c.promises[p];
  }

  lemma {:induction false} AllEnteredArePromised(c: Cache, snapshotId: string, generation: nat, asks: seq<Ask>,
                                                 batch: nat)
    requires PromisesInOrder(c) && batch == |c.batches| - 1
    ensures var d := AllEntered(c, snapshotId, generation, asks, batch);
            && d.batches == c.batches && c.promises <= d.promises && PromisesInOrder(d)
            && forall a :: a in asks ==> HasPromise(d, batch, a)
    decreases |asks|
  {
    hide HasPromise;
    if asks != [] {
      var front, last := asks[..|asks| - 1], asks[|asks| - 1];
      assert asks == front + [last];
      AllEnteredArePromised(c, snapshotId, generation, front, batch);
      var x := AllEntered(c, snapshotId, generation, front, batch);
      var d := Entered(x, Key(snapshotId, generation, last), batch);
      assert d.promises[|x.promises|].batch == batch && d.promises[|x.promises|].key.ask == last;
      NewestIsPromised(d, batch, last);
      forall a | a in front ensures HasPromise(d, batch, a) { PromiseStays(x, d, batch, a); }
    }
  }

  lemma NewestIsPromised(c: Cache, b: nat, a: Ask)
    requires c.promises != [] && c.promises[|c.promises| - 1].batch == b && c.promises[|c.promises| - 1].key.ask == a
    ensures HasPromise(c, b, a)
  {
  }

  lemma AskedKeepsBatches(c: Cache, snapshot: Snapshot, generation: nat, asks: seq<Ask>)
    requires BatchInv(c) && AllDifferent(asks) && forall a :: a in asks ==> a.fileId in snapshot.files
    ensures BatchInv(Asked(c, snapshot, generation, asks))
  {
    hide HasPromise, Missing;
    MissingIs(c, snapshot.id, generation, asks);
    var missing := Missing(c, snapshot.id, generation, asks);
    if missing != [] {
      var batch := Batch(snapshot, generation, missing, None);
      var x := c.(batches := c.batches + [batch]);
      var d := Asked(c, snapshot, generation, asks);
      AllEnteredArePromised(x, snapshot.id, generation, missing, |c.batches|);
      assert WellAsked(batch);
      forall b: nat, a | b < |d.batches| && a in d.batches[b].asks ensures HasPromise(d, b, a) {
        if b < |c.batches| { PromiseStays(c, d, b, a); }
      }
    }
  }

  /** Both batches ask for it, under one snapshot id and generation. */
  predicate BothAsk(x: Batch, y: Batch, a: Ask) {
    a in x.asks && a in y.asks && x.snapshot.id == y.snapshot.id && x.generation == y.generation
  }

  /** The second of two batches asks for what the first asked only if that had been answered
      with a failure. */
  ghost predicate AsksAgainOnlyAfterFailure(c: Cache) {
    forall b: nat, d: nat, a: Ask :: b < d < |c.batches| ==> HadFailed(c.batches[b], c.batches[d], a)
  }

  predicate HadFailed(x: Batch, y: Batch, a: Ask) {
    BothAsk(x, y, a) ==> x.result.Some? && IsFailedAnswer(Answer(x.result.value, a.fileId))
  }

  lemma BatchesAskAgainOnlyAfterFailure(c: Cache, generation: nat)
    requires CacheInv(c, generation) && BatchInv(c)
    ensures AsksAgainOnlyAfterFailure(c)
  {
    hide CacheInv, BatchInv;
    forall b: nat, d: nat, a: Ask | b < d < |c.batches| ensures HadFailed(c.batches[b], c.batches[d], a) {
      if BothAsk(c.batches[b], c.batches[d], a) { FirstHadFailed(c, generation, b, d, a); }
    }
  }

  lemma FirstHadFailed(c: Cache, generation: nat, b: nat, d: nat, a: Ask)
    requires CacheInv(c, generation) && BatchInv(c) && b < d < |c.batches| && BothAsk(c.batches[b], c.batches[d], a)
    ensures c.batches[b].result.Some? && IsFailedAnswer(Answer(c.batches[b].result.value, a.fileId))
  {
    hide Answer, EntriesOk;
    assert HasPromise(c, b, a) && HasPromise(c, d, a);
    var p: nat :| p < |c.promises| && c.promises[p].batch == b && c.promises[p].key.ask == a;
    var q: nat :| q < |c.promises| && c.promises[q].batch == d && c.promises[q].key.ask == a;
    assert PromiseOk(c, generation, p) && PromiseOk(c, generation, q);
    assert p < q && c.promises[p].key == c.promises[q].key;
  }

  // ---------- One workspace ----------

  datatype Kind = Diffs | Contents

  datatype Refusal = StaleGeneration(current: nat) | SnapshotNotFound | FileNotFound

  datatype Reply = Answered(outcomes: seq<Outcome>) | Thrown

  /** A call that was refused, or one that waits for its promises and then has its reply. */
  datatype Call =
    | Refused(refusal: Refusal)
    | Admitted(kind: Kind, snapshot: Snapshot, asks: seq<Ask>, promises: seq<nat>, reply: Option<Reply>)

  /** `loaded` collects every snapshot the provider has delivered. */
  datatype Workspace = Workspace(generation: nat, snapshotsById: map<string, Snapshot>, diffs: Cache, contents: Cache,
                                 calls: seq<Call>, loaded: set<Snapshot>)

  const NO_CACHE := Cache(map[], [], [])

  function Initial(): Workspace { Workspace(1, map[], NO_CACHE, NO_CACHE, [], {}) }

  function CacheOf(w: Workspace, kind: Kind): Cache { if kind.Diffs? then w.diffs else w.contents }

  function WithCache(w: Workspace, kind: Kind, c: Cache): Workspace {
    if kind.Diffs? then w.(diffs := c) else w.(contents := c)
  }

  function Admission(w: Workspace, snapshotId: string, expected: nat, asks: seq<Ask>): Option<Refusal> {
    if expected != w.generation then Some(StaleGeneration(w.generation))
    else if snapshotId !in w.snapshotsById || w.snapshotsById[snapshotId].generation != w.generation
      then Some(SnapshotNotFound)
    else if exists a :: a in asks && a.fileId !in w.snapshotsById[snapshotId].files then Some(FileNotFound)
    else None
  }

  /** The promise held for an ask; an absent entry names no promise at all. */
  function HeldFor(c: Cache, snapshot: Snapshot, generation: nat, ask: Ask): nat {
    var key := Key(snapshot.id, generation, ask);
    if key in c.entries then c.entries[key] else |c.promises|
  }

  function HeldForAll(c: Cache, snapshot: Snapshot, generation: nat, asks: seq<Ask>): (promises: seq<nat>)
    ensures |promises| == |asks|
  {
    seq(|asks|, i requires 0 <= i < |asks| => HeldFor(c, snapshot, generation, asks[i]))
  }

  function Requested(w: Workspace, kind: Kind, snapshotId: string, expected: nat, asks: seq<Ask>): Workspace {
    var refusal := Admission(w, snapshotId, expected, asks);
    if refusal.Some? then w.(calls := w.calls + [Refused(refusal.value)])
    else
      var snapshot := w.snapshotsById[snapshotId];
      var c := if asks == [] then CacheOf(w, kind) else Asked(CacheOf(w, kind), snapshot, w.generation, asks);
      var promises := HeldForAll(c, snapshot, w.generation, asks);
      var reply := if asks == [] then Some(Answered([])) else None;
      WithCache(w, kind, c).(calls := w.calls + [Admitted(kind, snapshot, asks, promises, reply)])
  }

  /** What waiting for all promises has come to: a rejection as soon as there is one, the
      outcomes once all are there. */
  function Gathered(c: Cache, promises: seq<nat>): Option<Reply> {
    if exists p :: p in promises && p < |c.promises| && c.promises[p].settled == Some(Broken) then Some(Thrown)
    else if forall p :: p in promises ==> p < |c.promises| && c.promises[p].settled.Some? then
      Some(Answered(OutcomesOf(c, promises)))
    else None
  }

  function OutcomesOf(c: Cache, promises: seq<nat>): (outcomes: seq<Outcome>)
    ensures |outcomes| == |promises|
  {
    seq(|promises|, i requires 0 <= i < |promises| => OutcomeOf(c, promises[i]))
  }

  function OutcomeOf(c: Cache, p: nat): Outcome {
    if p < |c.promises| && c.promises[p].settled.Some? && c.promises[p].settled.value.Fulfilled?
    then c.promises[p].settled.value.outcome else Failed("", "")
  }

  datatype Event =
    | SnapshotArrives(snapshot: Snapshot)
    | DiffsAsked(snapshotId: string, expected: nat, requests: seq<DiffRequest>)
    | ContentsAsked(snapshotId: string, expected: nat, fileIds: seq<string>)
    | BatchEnds(kind: Kind, batch: nat, result: BatchResult)
    | PromiseEnds(kind: Kind, promise: nat)
    | FailureIsDropped(kind: Kind, promise: nat)
    | Returns(call: nat)
    | Refreshes

  /** A snapshot carries the generation it was asked for, so a late one may be old. */
  predicate Enabled(w: Workspace, e: Event) {
    match e
    case SnapshotArrives(s) => s.generation <= w.generation
    case DiffsAsked(_, _, _) => true
    case ContentsAsked(_, _, _) => true
    case BatchEnds(kind, b, _) => b < |CacheOf(w, kind).batches| && CacheOf(w, kind).batches[b].result.None?
    case PromiseEnds(kind, p) =>
      var c := CacheOf(w, kind);
      && p < |c.promises| && c.promises[p].settled.None?
      && c.promises[p].batch < |c.batches| && c.batches[c.promises[p].batch].result.Some?
    case FailureIsDropped(kind, p) => p < |CacheOf(w, kind).promises|
    case Returns(n) =>
      && n < |w.calls| && w.calls[n].Admitted? && w.calls[n].reply.None?
      && Gathered(CacheOf(w, w.calls[n].kind), w.calls[n].promises).Some?
    case Refreshes => true
  }

  function Step(w: Workspace, e: Event): Workspace {
    if !Enabled(w, e) then w
    else
      match e
      case SnapshotArrives(s) => w.(snapshotsById := w.snapshotsById[s.id := s], loaded := w.loaded + {s})
      case DiffsAsked(id, expected, requests) => Requested(w, Diffs, id, expected,
        Limited(DiffAsks(requests), MAX_DIFFS))
      case ContentsAsked(id, expected, fileIds) => Requested(w, Contents, id, expected,
        Limited(ContentAsks(fileIds), MAX_CONTENTS))
      case BatchEnds(kind, b, result) => WithCache(w, kind, BatchSettled(CacheOf(w, kind), b, result))
      case PromiseEnds(kind, p) => WithCache(w, kind, PromiseSettled(CacheOf(w, kind), p))
      case FailureIsDropped(kind, p) => WithCache(w, kind, Cleaned(CacheOf(w, kind), p))
      case Returns(n) => w.(calls := w.calls[n := w.calls[n].(reply := Gathered(CacheOf(w, w.calls[n].kind),
        w.calls[n].promises))])
      case Refreshes =>
        w.(generation := w.generation + 1, snapshotsById := map[], diffs := w.diffs.(entries := map[]),
           contents := w.contents.(entries := map[]))
  }

  function Run(w: Workspace, events: seq<Event>): Workspace
    decreases |events|
  {
    if events == [] then w else Run(Step(w, events[0]), events[1..])
  }

  // ---------- The workspace's invariant ----------

  ghost predicate CallOk(w: Workspace, call: Call) {
    call.Admitted? ==>
      var c := CacheOf(w, call.kind);
      && call.snapshot in w.loaded && |call.promises| == |call.asks|
      && (forall a :: a in call.asks ==> a.fileId in call.snapshot.files)
      && (forall i :: 0 <= i < |call.asks| ==>
            && call.promises[i] < |c.promises|
            && c.promises[call.promises[i]].key == Key(call.snapshot.id, call.snapshot.generation, call.asks[i]))
      && (call.reply.Some? && call.reply.value.Answered? ==>
            && |call.reply.value.outcomes| == |call.asks|
            && forall i :: 0 <= i < |call.asks| ==>
                 c.promises[call.promises[i]].settled == Some(Fulfilled(call.reply.value.outcomes[i])))
  }

  ghost predicate SnapshotsOk(w: Workspace) {
    && (forall id :: id in w.snapshotsById ==> w.snapshotsById[id].id == id && w.snapshotsById[id] in w.loaded)
    && (forall i :: 0 <= i < |w.diffs.batches| ==> w.diffs.batches[i].snapshot in w.loaded)
    && (forall i :: 0 <= i < |w.contents.batches| ==> w.contents.batches[i].snapshot in w.loaded)
  }

  ghost predicate Inv(w: Workspace) {
    && CacheInv(w.diffs, w.generation) && CacheInv(w.contents, w.generation)
    && BatchInv(w.diffs) && BatchInv(w.contents) && SnapshotsOk(w)
    && forall n :: 0 <= n < |w.calls| ==> CallOk(w, w.calls[n])
  }

  /** Promises keep their keys, and once settled stay so. */
  ghost predicate Grows(c: Cache, d: Cache) {
    && |c.promises| <= |d.promises|
    && forall p: nat :: p < |c.promises| ==>
         c.promises[p].key == d.promises[p].key
           && (c.promises[p].settled.Some? ==> d.promises[p].settled == c.promises[p].settled)
  }

  lemma GrowingKeepsCall(w: Workspace, x: Workspace, call: Call)
    requires CallOk(w, call) && w.loaded <= x.loaded
    requires Grows(w.diffs, x.diffs) && Grows(w.contents, x.contents)
    ensures CallOk(x, call)
  {
  }

  lemma GrowingKeepsCalls(w: Workspace, x: Workspace)
    requires (forall n :: 0 <= n < |w.calls| ==> CallOk(w, w.calls[n])) && w.loaded <= x.loaded
    requires Grows(w.diffs, x.diffs) && Grows(w.contents, x.contents)
    ensures forall n :: 0 <= n < |w.calls| ==> CallOk(x, w.calls[n])
  {
    hide CallOk, Grows;
    forall n | 0 <= n < |w.calls| ensures CallOk(x, w.calls[n]) { GrowingKeepsCall(w, x, w.calls[n]); }
  }

  lemma CacheChangeKeeps(w: Workspace, kind: Kind, d: Cache)
    requires Inv(w) && CacheInv(d, w.generation) && BatchInv(d) && Grows(CacheOf(w, kind), d)
    requires forall i :: 0 <= i < |d.batches| ==> d.batches[i].snapshot in w.loaded
    ensures Inv(WithCache(w, kind, d))
  {
    hide CallOk, CacheInv, BatchInv;
    GrowingKeepsCalls(w, WithCache(w, kind, d));
  }

  lemma AddingCallKeeps(w: Workspace, call: Call)
    requires Inv(w) && CallOk(w, call)
    ensures Inv(w.(calls := w.calls + [call]))
  {
    hide CacheInv, BatchInv;
    var x := w.(calls := w.calls + [call]);
    forall n | 0 <= n < |x.calls| ensures CallOk(x, x.calls[n]) {
      assert n < |w.calls| ==> CallOk(w, w.calls[n]);
    }
  }

  lemma RequestedKeeps(w: Workspace, kind: Kind, snapshotId: string, expected: nat, asks: seq<Ask>)
    requires Inv(w) && AllDifferent(asks)
    ensures Inv(Requested(w, kind, snapshotId, expected, asks))
  {
    hide CacheInv, Asked, AllDifferent, CallOk, HeldFor, Admission, Inv;
    var refusal := Admission(w, snapshotId, expected, asks);
    if refusal.Some? {
      RefusalIsOk(w, refusal.value);
      AddingCallKeeps(w, Refused(refusal.value));
    } else {
      AdmittedFor(w, snapshotId, expected, asks);
      var snapshot := w.snapshotsById[snapshotId];
      AskingKeeps(w, kind, snapshot, asks);
      var d := if asks == [] then CacheOf(w, kind) else Asked(CacheOf(w, kind), snapshot, w.generation, asks);
      var promises := HeldForAll(d, snapshot, w.generation, asks);
      var call := Admitted(kind, snapshot, asks, promises, if asks == [] then Some(Answered([])) else None);
      NewCallIsOk(WithCache(w, kind, d), call);
      AddingCallKeeps(WithCache(w, kind, d), call);
    }
  }

  lemma RefusalIsOk(w: Workspace, refusal: Refusal)
    ensures CallOk(w, Refused(refusal))
  {
  }

  lemma AdmittedFor(w: Workspace, snapshotId: string, expected: nat, asks: seq<Ask>)
    requires Inv(w) && Admission(w, snapshotId, expected, asks).None?
    ensures snapshotId in w.snapshotsById && w.snapshotsById[snapshotId] in w.loaded
    ensures w.snapshotsById[snapshotId].generation == w.generation
    ensures forall a :: a in asks ==> a.fileId in w.snapshotsById[snapshotId].files
  {
  }

  /** After asking, the cache is sound and every ask has a promise of its own key. */
  lemma AskingKeeps(w: Workspace, kind: Kind, snapshot: Snapshot, asks: seq<Ask>)
    requires Inv(w) && AllDifferent(asks) && snapshot in w.loaded && snapshot.generation == w.generation
    requires forall a :: a in asks ==> a.fileId in snapshot.files
    ensures var d := if asks == [] then CacheOf(w, kind) else Asked(CacheOf(w, kind), snapshot, w.generation, asks);
            && Inv(WithCache(w, kind, d))
            && forall i :: 0 <= i < |asks| ==>
                 HeldFor(d, snapshot, w.generation, asks[i]) < |d.promises|
                 && d.promises[HeldFor(d, snapshot, w.generation, asks[i])].key ==
                    Key(snapshot.id, w.generation, asks[i])
  {
    hide CacheInv, BatchInv, Asked, AllDifferent, CallOk;
    var c := CacheOf(w, kind);
    var d := if asks == [] then c else Asked(c, snapshot, w.generation, asks);
    AskedKeeps(c, snapshot, w.generation, asks);
    AskedKeepsBatches(c, snapshot, w.generation, asks);
    AskedBatches(c, snapshot, w.generation, asks);
    EntriesNameTheirKeys(d, w.generation);
    CacheChangeKeeps(w, kind, d);
    forall i | 0 <= i < |asks| ensures Key(snapshot.id, w.generation, asks[i]) in d.entries { assert asks[i] in asks; }
  }

  lemma NewCallIsOk(w: Workspace, call: Call)
    requires call.Admitted? && call.snapshot in w.loaded && |call.promises| == |call.asks|
    requires forall a :: a in call.asks ==> a.fileId in call.snapshot.files
    requires call.snapshot.generation == w.generation && call.reply == if call.asks == [] then Some(Answered([]))
             else None
    requires forall i :: 0 <= i < |call.asks| ==>
               && call.promises[i] < |CacheOf(w, call.kind).promises|
               && CacheOf(w, call.kind).promises[call.promises[i]].key ==
                  Key(call.snapshot.id, w.generation, call.asks[i])
    ensures CallOk(w, call)
  {
  }

  lemma EntriesNameTheirKeys(c: Cache, generation: nat)
    requires CacheInv(c, generation)
    ensures forall k :: k in c.entries ==> c.entries[k] < |c.promises| && c.promises[c.entries[k]].key == k
  {
  }

  lemma AskedBatches(c: Cache, snapshot: Snapshot, generation: nat, asks: seq<Ask>)
    requires CacheInv(c, generation) && AllDifferent(asks) && snapshot.generation == generation
    ensures forall i :: |c.batches| <= i < |Asked(c, snapshot, generation, asks).batches| ==>
              Asked(c, snapshot, generation, asks).batches[i].snapshot == snapshot
  {
    hide CacheInv;
    var missing := Missing(c, snapshot.id, generation, asks);
    if missing != [] {
      var started := c.(batches := c.batches + [Batch(snapshot, generation, missing, None)]);
      EnteringKeepsBatches(started, snapshot.id, generation, missing, |c.batches|);
    }
  }

  lemma {:induction false} EnteringKeepsBatches(c: Cache, snapshotId: string, generation: nat, asks: seq<Ask>,
                                                batch: nat)
    ensures AllEntered(c, snapshotId, generation, asks, batch).batches == c.batches
    decreases |asks|
  {
    if asks != [] { EnteringKeepsBatches(c, snapshotId, generation, asks[..|asks| - 1], batch); }
  }

  lemma ReturnKeeps(w: Workspace, n: nat)
    requires Inv(w) && Enabled(w, Returns(n))
    ensures Inv(Step(w, Returns(n)))
  {
    hide CacheInv, BatchInv;
    var x := Step(w, Returns(n));
    assert CallOk(w, w.calls[n]);
    var c, promises := CacheOf(w, w.calls[n].kind), w.calls[n].promises;
    if Gathered(c, promises).value.Answered? { GatheredIs(c, promises); }
    hide Gathered;
    forall m | 0 <= m < |x.calls| ensures CallOk(x, x.calls[m]) {
      assert CallOk(w, w.calls[m]);
    }
  }

  lemma GatheredIs(c: Cache, promises: seq<nat>)
    requires Gathered(c, promises).Some? && Gathered(c, promises).value.Answered?
    ensures |Gathered(c, promises).value.outcomes| == |promises|
    ensures forall i :: 0 <= i < |promises| ==>
              promises[i] < |c.promises|
                && c.promises[promises[i]].settled == Some(Fulfilled(Gathered(c, promises).value.outcomes[i]))
  {
    forall i | 0 <= i < |promises|
      ensures promises[i] < |c.promises|
              && c.promises[promises[i]].settled == Some(Fulfilled(Gathered(c, promises).value.outcomes[i]))
    {
      assert promises[i] in promises;
    }
  }

  lemma StepKeeps(w: Workspace, e: Event)
    requires Inv(w)
    ensures Inv(Step(w, e))
  {
    hide CacheInv, BatchInv, Requested, CallOk, Limited, BatchSettled, PromiseSettled, Cleaned, Grows, Gathered;
    if Enabled(w, e) {
      match e
      case SnapshotArrives(s) => ArrivalKeeps(w, s);
      case DiffsAsked(id, expected, requests) =>
        LimitedIsDistinct(DiffAsks(requests), MAX_DIFFS);
        RequestedKeeps(w, Diffs, id, expected, Limited(DiffAsks(requests), MAX_DIFFS));
      case ContentsAsked(id, expected, fileIds) =>
        LimitedIsDistinct(ContentAsks(fileIds), MAX_CONTENTS);
        RequestedKeeps(w, Contents, id, expected, Limited(ContentAsks(fileIds), MAX_CONTENTS));
      case BatchEnds(kind, b, result) => BatchEndKeeps(w, kind, b, result);
      case PromiseEnds(kind, p) => PromiseEndKeeps(w, kind, p);
      case FailureIsDropped(kind, p) => DropKeeps(w, kind, p);
      case Returns(n) => ReturnKeeps(w, n);
      case Refreshes => RefreshKeeps(w);
    }
  }

  lemma ArrivalKeeps(w: Workspace, s: Snapshot)
    requires Inv(w) && Enabled(w, SnapshotArrives(s))
    ensures Inv(Step(w, SnapshotArrives(s)))
  {
    hide CacheInv, BatchInv, CallOk;
    GrowingKeepsCalls(w, Step(w, SnapshotArrives(s)));
  }

  lemma BatchEndKeeps(w: Workspace, kind: Kind, b: nat, result: BatchResult)
    requires Inv(w) && Enabled(w, BatchEnds(kind, b, result))
    ensures Inv(WithCache(w, kind, BatchSettled(CacheOf(w, kind), b, result)))
  {
    hide CacheInv, BatchInv, CallOk;
    BatchSettledKeeps(CacheOf(w, kind), w.generation, b, result);
    SameAsksKeep(CacheOf(w, kind), BatchSettled(CacheOf(w, kind), b, result));
    CacheChangeKeeps(w, kind, BatchSettled(CacheOf(w, kind), b, result));
  }

  lemma PromiseEndKeeps(w: Workspace, kind: Kind, p: nat)
    requires Inv(w) && Enabled(w, PromiseEnds(kind, p))
    ensures Inv(WithCache(w, kind, PromiseSettled(CacheOf(w, kind), p)))
  {
    hide CacheInv, BatchInv, CallOk, Answer;
    PromiseSettledKeeps(CacheOf(w, kind), w.generation, p);
    SameAsksKeep(CacheOf(w, kind), PromiseSettled(CacheOf(w, kind), p));
    CacheChangeKeeps(w, kind, PromiseSettled(CacheOf(w, kind), p));
  }

  lemma DropKeeps(w: Workspace, kind: Kind, p: nat)
    requires Inv(w) && Enabled(w, FailureIsDropped(kind, p))
    ensures Inv(WithCache(w, kind, Cleaned(CacheOf(w, kind), p)))
  {
    hide CacheInv, BatchInv, CallOk;
    CleanedKeeps(CacheOf(w, kind), w.generation, p);
    SameAsksKeep(CacheOf(w, kind), Cleaned(CacheOf(w, kind), p));
    CacheChangeKeeps(w, kind, Cleaned(CacheOf(w, kind), p));
  }

  lemma RefreshKeeps(w: Workspace)
    requires Inv(w)
    ensures Inv(Step(w, Refreshes))
  {
    hide CacheInv, BatchInv, CallOk;
    ClearedKeeps(w.diffs, w.generation);
    ClearedKeeps(w.contents, w.generation);
    SameAsksKeep(w.diffs, w.diffs.(entries := map[]));
    SameAsksKeep(w.contents, w.contents.(entries := map[]));
    GrowingKeepsCalls(w, Step(w, Refreshes));
  }

  lemma InitialHolds()
    ensures Inv(Initial())
  {
  }

  lemma {:induction false} RunKeeps(w: Workspace, events: seq<Event>)
    requires Inv(w)
    ensures Inv(Run(w, events))
    decreases |events|
  {
    hide Step, Inv;
    if events != [] {
      StepKeeps(w, events[0]);
      RunKeeps(Step(w, events[0]), events[1..]);
    }
  }

  // ---------- What a request comes to ----------

  /** The refusals, in the order in which they are tried. */
  predicate IsStale(w: Workspace, expected: nat) { expected != w.generation }

  predicate IsUnknown(w: Workspace, snapshotId: string) {
    snapshotId in w.snapshotsById ==> w.snapshotsById[snapshotId].generation != w.generation
  }

  predicate AsksForOthers(snapshot: Snapshot, asks: seq<Ask>) {
    exists i :: 0 <= i < |asks| && asks[i].fileId !in snapshot.files
  }

  /** The call is refused for the first reason there is, and otherwise admitted with the snapshot
      held under the id; an empty one is answered at once. */
  ghost predicate Judged(w: Workspace, call: Call, kind: Kind, snapshotId: string, expected: nat, asks: seq<Ask>) {
    if IsStale(w, expected) then call == Refused(StaleGeneration(w.generation))
    else if IsUnknown(w, snapshotId) then call == Refused(SnapshotNotFound)
    else
      var snapshot := w.snapshotsById[snapshotId];
      if AsksForOthers(snapshot, asks) then call == Refused(FileNotFound)
      else
        && call.Admitted? && call.kind == kind && call.snapshot == snapshot && call.asks == asks
        && call.reply == if asks == [] then Some(Answered([])) else None
  }

  function Other(kind: Kind): Kind { if kind.Diffs? then Contents else Diffs }

  lemma RequestIsJudged(w: Workspace, kind: Kind, snapshotId: string, expected: nat, asks: seq<Ask>)
    ensures var x := Requested(w, kind, snapshotId, expected, asks);
            && |x.calls| == |w.calls| + 1 && x.calls[..|w.calls|] == w.calls
            && Judged(w, x.calls[|w.calls|], kind, snapshotId, expected, asks)
            && x.generation == w.generation && x.snapshotsById == w.snapshotsById && x.loaded == w.loaded
            && (x.calls[|w.calls|].Refused? ==> x.diffs == w.diffs && x.contents == w.contents)
            && CacheOf(x, Other(kind)) == CacheOf(w, Other(kind))
  {
    hide Asked, HeldForAll;
    if !IsStale(w, expected) && !IsUnknown(w, snapshotId) {
      var snapshot := w.snapshotsById[snapshotId];
      if AsksForOthers(snapshot, asks) {
        var i :| 0 <= i < |asks| && asks[i].fileId !in snapshot.files;
        assert asks[i] in asks;
      }
    }
  }

  /** No more asks than the limit, the first of those that differ, each read from its request. */
  predicate FirstOf(asks: seq<Ask>, all: seq<Ask>, limit: nat) {
    var different := FirstOccurrences(all);
    asks <= different && |asks| == if |different| < limit then |different| else limit
  }

  lemma RequestsAreJudged(w: Workspace, snapshotId: string, expected: nat, requests: seq<DiffRequest>,
                          fileIds: seq<string>)
    ensures var x := Step(w, DiffsAsked(snapshotId, expected, requests));
            exists asks :: FirstOf(asks, DiffAsks(requests), 256)
              && |x.calls| == |w.calls| + 1 && Judged(w, x.calls[|w.calls|], Diffs, snapshotId, expected, asks)
    ensures var x := Step(w, ContentsAsked(snapshotId, expected, fileIds));
            exists asks :: FirstOf(asks, ContentAsks(fileIds), 8)
              && |x.calls| == |w.calls| + 1 && Judged(w, x.calls[|w.calls|], Contents, snapshotId, expected, asks)
  {
    hide Requested, Judged;
    var diffs, contents := Limited(DiffAsks(requests), MAX_DIFFS), Limited(ContentAsks(fileIds), MAX_CONTENTS);
    RequestIsJudged(w, Diffs, snapshotId, expected, diffs);
    RequestIsJudged(w, Contents, snapshotId, expected, contents);
    assert FirstOf(diffs, DiffAsks(requests), 256) && FirstOf(contents, ContentAsks(fileIds), 8);
  }

  /** The provider gets one batch with exactly the asks that nothing is held for, in their order,
      and none if there are none of them. */
  lemma ProviderIsAskedForMissing(c: Cache, snapshot: Snapshot, generation: nat, asks: seq<Ask>)
    requires CacheInv(c, generation) && AllDifferent(asks) && snapshot.generation == generation
    ensures var d := Asked(c, snapshot, generation, asks);
            var asked := |d.batches| > |c.batches|;
            && c.batches <= d.batches && |d.batches| <= |c.batches| + 1
            && (asked <==> exists i :: 0 <= i < |asks| && Key(snapshot.id, generation, asks[i]) !in c.entries)
            && (asked ==>
                  var batch := d.batches[|c.batches|];
                  && batch.snapshot == snapshot && batch.generation == generation && batch.result.None?
                  && IsMissingOf(batch.asks, c, snapshot.id, generation, asks))
  {
    hide CacheInv, AllEntered;
    MissingIs(c, snapshot.id, generation, asks);
    MissingInOrder(c, snapshot.id, generation, asks);
    var missing := Missing(c, snapshot.id, generation, asks);
    if missing != [] {
      var started := c.(batches := c.batches + [Batch(snapshot, generation, missing, None)]);
      EnteringKeepsBatches(started, snapshot.id, generation, missing, |c.batches|);
      assert missing[0] in missing && missing[0] in asks;
    } else {
      forall i | 0 <= i < |asks| ensures Key(snapshot.id, generation, asks[i]) in c.entries {
        assert asks[i] in asks && asks[i] !in missing;
      }
    }
  }

  /** The asks without entry, in the order they were asked. */
  ghost predicate IsMissingOf(missing: seq<Ask>, c: Cache, snapshotId: string, generation: nat, asks: seq<Ask>) {
    && (forall a :: a in missing <==> a in asks && Key(snapshotId, generation, a) !in c.entries)
    && (forall i, j, k, l :: 0 <= i < j < |missing| && 0 <= k < |asks| && 0 <= l < |asks| ==>
          (missing[i] == asks[k] && missing[j] == asks[l] ==> k < l))
  }

  lemma {:induction false} MissingInOrder(c: Cache, snapshotId: string, generation: nat, asks: seq<Ask>)
    requires AllDifferent(asks)
    ensures IsMissingOf(Missing(c, snapshotId, generation, asks), c, snapshotId, generation, asks)
    decreases |asks|
  {
    MissingIs(c, snapshotId, generation, asks);
    if asks != [] {
      var n := |asks| - 1;
      var front, last := asks[..n], asks[n];
      assert asks == front + [last];
      MissingInOrder(c, snapshotId, generation, front);
      MissingIs(c, snapshotId, generation, front);
      var before, missing := Missing(c, snapshotId, generation, front), Missing(c, snapshotId, generation, asks);
      forall i, j, k, l | 0 <= i < j < |missing| && 0 <= k < |asks| && 0 <= l < |asks|
        && missing[i] == asks[k] && missing[j] == asks[l]
        ensures k < l
      {
        assert i < |before| && before[i] == missing[i] && before[i] in before;
        assert k < n && front[k] == asks[k];
        if l < n {
          assert front[l] == asks[l] && (j < |before| ==> before[j] == missing[j]);
        }
      }
    }
  }

  /** A promise answers with its own file's first outcome; a batch that omits the file, or fails
      as a whole, makes it a failure, and a rejected one breaks it. */
  lemma PromiseIsAnswered(w: Workspace, kind: Kind, p: nat)
    requires Enabled(w, PromiseEnds(kind, p))
    ensures var promise, x := CacheOf(w, kind).promises[p], CacheOf(Step(w, PromiseEnds(kind, p)), kind);
            var fileId, result := promise.key.ask.fileId, CacheOf(w, kind).batches[promise.batch].result.value;
            var settled := x.promises[p].settled;
            && (result.Rejected? <==> settled == Some(Broken))
            && (result.NotOk? ==> settled == Some(Fulfilled(Failed(fileId, result.code))))
            && (result.Outcomes? ==>
                  && settled.Some? && settled.value.Fulfilled?
                  && IsFirstFor(result.outcomes, fileId, settled.value.outcome))
  {
    var promise := CacheOf(w, kind).promises[p];
    var result := CacheOf(w, kind).batches[promise.batch].result.value;
    if result.Outcomes? { FirstForIs(result.outcomes, promise.key.ask.fileId); }
  }

  ghost predicate IsFirstFor(outcomes: seq<Outcome>, fileId: string, outcome: Outcome) {
    if forall i :: 0 <= i < |outcomes| ==> outcomes[i].fileId != fileId
      then outcome == Failed(fileId, "file_not_found")
    else exists i :: 0 <= i < |outcomes| && outcomes[i].fileId == fileId && outcome == outcomes[i]
                && forall j :: 0 <= j < i ==> outcomes[j].fileId != fileId
  }

  lemma {:induction false} FirstForIs(outcomes: seq<Outcome>, fileId: string)
    ensures var found := FirstFor(outcomes, fileId);
            IsFirstFor(outcomes, fileId, if found.Some? then found.value else Failed(fileId, "file_not_found"))
    ensures FirstFor(outcomes, fileId).Some? <==> exists i :: 0 <= i < |outcomes| && outcomes[i].fileId == fileId
  {
    if outcomes != [] && outcomes[0].fileId != fileId {
      FirstForIs(outcomes[1..], fileId);
      if i :| 0 <= i < |outcomes[1..]| && outcomes[1..][i].fileId == fileId
              && FirstFor(outcomes, fileId) == Some(outcomes[1..][i])
              && forall j :: 0 <= j < i ==> outcomes[1..][j].fileId != fileId {
        assert outcomes[i + 1].fileId == fileId;
        assert forall j :: 0 < j < i + 1 ==> outcomes[j] == outcomes[1..][j - 1];
      } else {
        assert forall i :: 0 < i < |outcomes| ==> outcomes[i] == outcomes[1..][i - 1];
      }
    }
  }

  /** A call returns as soon as one of its promises is broken, by throwing, or once all of them
      are fulfilled, and in no other way. */
  lemma CallsReturnWhen(w: Workspace, n: nat)
    requires Inv(w) && n < |w.calls| && w.calls[n].Admitted? && w.calls[n].reply.None?
    ensures var call := w.calls[n];
            var c := CacheOf(w, call.kind);
            var broken := exists i :: 0 <= i < |call.promises| && c.promises[call.promises[i]].settled == Some(Broken);
            && (Enabled(w, Returns(n)) <==>
                  broken || forall i :: 0 <= i < |call.promises| ==> c.promises[call.promises[i]].settled.Some?)
            && (Enabled(w, Returns(n)) ==> (Step(w, Returns(n)).calls[n].reply == Some(Thrown) <==> broken))
  {
    hide CacheInv, BatchInv;
    var call := w.calls[n];
    var c := CacheOf(w, call.kind);
    assert CallOk(w, call);
    if i :| 0 <= i < |call.promises| && c.promises[call.promises[i]].settled == Some(Broken) {
      assert call.promises[i] in call.promises;
    }
  }

  /** A refresh raises the generation by one and lets go of everything held; calls that wait keep
      their promises. */
  lemma RefreshForgets(w: Workspace)
    ensures var x := Step(w, Refreshes);
            && x.generation == w.generation + 1 && x.snapshotsById == map[]
            && x.calls == w.calls && x.loaded == w.loaded
            && x.diffs == w.diffs.(entries := map[]) && x.contents == w.contents.(entries := map[])
  {
  }

  // ---------- Generation safety ----------

  /** Over every interleaving both caches hold only keys of the current generation, and the
      provider is asked again for the same thing only after it had answered with a failure. */
  lemma OnlyCurrentKeys(events: seq<Event>, kind: Kind)
    ensures var w := Run(Initial(), events);
            var c := CacheOf(w, kind);
            (forall k :: k in c.entries ==> k.generation == w.generation) && AsksAgainOnlyAfterFailure(c)
  {
    hide Run, AsksAgainOnlyAfterFailure;
    InitialHolds();
    RunKeeps(Initial(), events);
    var w := Run(Initial(), events);
    BatchesAskAgainOnlyAfterFailure(CacheOf(w, kind), w.generation);
  }

  /** Each outcome a call returns was computed by a batch asked for the call's own snapshot
      id, generation and file, in the order of the asks. */
  lemma ReturnedOutcomesAreOwn(events: seq<Event>, n: nat)
    requires var w := Run(Initial(), events);
             n < |w.calls| && w.calls[n].Admitted? && w.calls[n].reply.Some? && w.calls[n].reply.value.Answered?
    ensures var w := Run(Initial(), events);
            var call := w.calls[n];
            var c, outcomes := CacheOf(w, call.kind), call.reply.value.outcomes;
            && |outcomes| == |call.asks| == |call.promises|
            && (forall a :: a in call.asks ==> a.fileId in call.snapshot.files)
            && forall i :: 0 <= i < |outcomes| ==> ComputedFor(c, call, i)
  {
    hide Run;
    InitialHolds();
    RunKeeps(Initial(), events);
    var w := Run(Initial(), events);
    assert CallOk(w, w.calls[n]);
    forall i | 0 <= i < |w.calls[n].reply.value.outcomes|
      ensures ComputedFor(CacheOf(w, w.calls[n].kind), w.calls[n], i) {
      assert PromiseOk(CacheOf(w, w.calls[n].kind), w.generation, w.calls[n].promises[i]);
    }
  }

  ghost predicate ComputedFor(c: Cache, call: Call, i: nat)
    requires call.Admitted? && call.reply.Some? && call.reply.value.Answered? && i < |call.reply.value.outcomes|
    requires i < |call.asks| && i < |call.promises|
  {
    var p := call.promises[i];
    && p < |c.promises| && c.promises[p].batch < |c.batches|
    && var batch := c.batches[c.promises[p].batch];
    && OfBatch(Key(call.snapshot.id, call.snapshot.generation, call.asks[i]), batch) && batch.result.Some?
    && Fulfilled(call.reply.value.outcomes[i]) == Answer(batch.result.value, call.asks[i].fileId)
  }

  /** A failure is not kept: once its reaction has run, the next request for its key is asked
      of the provider again, unless a later promise already holds the key. */
  lemma FailureIsAskedAgain(w: Workspace, kind: Kind, p: nat, snapshot: Snapshot)
    requires Inv(w) && p < |CacheOf(w, kind).promises| && IsFailure(CacheOf(w, kind).promises[p])
    requires snapshot.id == CacheOf(w, kind).promises[p].key.snapshotId && snapshot.generation == w.generation
    ensures var ask := CacheOf(w, kind).promises[p].key.ask;
            var c := CacheOf(Step(w, FailureIsDropped(kind, p)), kind);
            var held := Key(snapshot.id, w.generation, ask) in c.entries;
            && (held ==> c.entries[Key(snapshot.id, w.generation, ask)] != p)
            && |Asked(c, snapshot, w.generation, [ask]).batches| == |c.batches| + if held then 0 else 1
  {
    CacheAsksAgain(CacheOf(w, kind), w.generation, p, snapshot);
    hide Asked, Cleaned, IsFailure, CacheInv;
  }

  lemma CacheAsksAgain(c: Cache, generation: nat, p: nat, snapshot: Snapshot)
    requires CacheInv(c, generation) && p < |c.promises| && IsFailure(c.promises[p])
    requires snapshot.id == c.promises[p].key.snapshotId && snapshot.generation == generation
    ensures var ask, d := c.promises[p].key.ask, Cleaned(c, p);
            var held := Key(snapshot.id, generation, ask) in d.entries;
            && (held ==> d.entries[Key(snapshot.id, generation, ask)] != p)
            && |Asked(d, snapshot, generation, [ask]).batches| == |d.batches| + if held then 0 else 1
  {
    hide Asked, IsFailure;
    var d, asks := Cleaned(c, p), [c.promises[p].key.ask];
    CleanedKeeps(c, generation, p);
    assert Key(snapshot.id, generation, asks[0]) in d.entries ==> d.entries[Key(snapshot.id, generation, asks[0])] != p;
    hide CacheInv, Cleaned;
    AskedKeeps(d, snapshot, generation, asks);
    assert asks[0] in asks;
  }

  // ---------- Snapshots that share an id ----------

  /** A snapshot's id says nothing of its whitespace option, so ids may repeat. Ids determine
      the snapshots of `L` as far as caching goes when no two of them share id, generation and
      a file. */
  ghost predicate IdsDetermine(L: iset<Snapshot>) {
    forall s, u, f :: s in L && u in L && Share(s, u, f) ==> s == u
  }

  predicate Share(s: Snapshot, u: Snapshot, fileId: string) {
    s.id == u.id && s.generation == u.generation && fileId in s.files && fileId in u.files
  }

  ghost predicate LoadsOnly(events: seq<Event>, L: iset<Snapshot>) {
    forall e :: e in events && e.SnapshotArrives? ==> e.snapshot in L
  }

  /** The promises of each admitted call belong to batches asked for the very snapshot the
      call was admitted with. */
  ghost predicate EachHasItsOwn(w: Workspace) {
    forall n: nat, i: nat :: n < |w.calls| && w.calls[n].Admitted? && i < |w.calls[n].promises| ==> HasItsOwn(w, n, i)
  }

  ghost predicate HasItsOwn(w: Workspace, n: nat, i: nat)
    requires n < |w.calls| && w.calls[n].Admitted? && i < |w.calls[n].promises|
  {
    var c, p := CacheOf(w, w.calls[n].kind), w.calls[n].promises[i];
    p < |c.promises| && c.promises[p].batch < |c.batches|
      && c.batches[c.promises[p].batch].snapshot == w.calls[n].snapshot
  }

  lemma {:induction false} LoadedAreLoaded(w: Workspace, events: seq<Event>, L: iset<Snapshot>)
    requires LoadsOnly(events, L) && forall s :: s in w.loaded ==> s in L
    ensures forall s :: s in Run(w, events).loaded ==> s in L
    decreases |events|
  {
    hide Step;
    if events != [] {
      var e := events[0];
      assert e in events && forall f :: f in events[1..] ==> f in events;
      StepLoads(w, e);
      LoadedAreLoaded(Step(w, e), events[1..], L);
    }
  }

  lemma StepLoads(w: Workspace, e: Event)
    ensures Step(w, e).loaded <= w.loaded + if e.SnapshotArrives? then {e.snapshot} else {}
  {
    hide Asked, Admission, Gathered, Limited, DiffAsks, ContentAsks, HeldForAll, Cleaned, BatchSettled, PromiseSettled;
  }

  lemma DeterminedIdsGiveOwn(w: Workspace, L: iset<Snapshot>)
    requires Inv(w) && IdsDetermine(L) && forall s :: s in w.loaded ==> s in L
    ensures EachHasItsOwn(w)
  {
    hide CacheInv, BatchInv;
    forall n: nat, i: nat | n < |w.calls| && w.calls[n].Admitted? && i < |w.calls[n].promises|
      ensures HasItsOwn(w, n, i) {
      var call := w.calls[n];
      var c, p := CacheOf(w, call.kind), call.promises[i];
      assert CallOk(w, call);
      PromisesBatch(c, w.generation, p);
      var batch := c.batches[c.promises[p].batch];
      assert call.asks[i] in call.asks;
      assert Share(batch.snapshot, call.snapshot, call.asks[i].fileId);
    }
  }

  lemma PromisesBatch(c: Cache, generation: nat, p: nat)
    requires CacheInv(c, generation) && BatchInv(c) && p < |c.promises|
    ensures c.promises[p].batch < |c.batches|
    ensures var batch, key := c.batches[c.promises[p].batch], c.promises[p].key;
            && batch.snapshot.id == key.snapshotId && batch.snapshot.generation == key.generation
            && key.ask.fileId in batch.snapshot.files
  {
    assert PromiseOk(c, generation, p);
    assert WellAsked(c.batches[c.promises[p].batch]);
  }

  /** A cache answers for another snapshot: with a fulfilled promise held under the
      id, a newly arrived snapshot of that id is served that outcome, whatever snapshot it was
      computed for, and the provider is not asked. */
  lemma SharedIdIsServedFromCache(w: Workspace, t: Snapshot, fileId: string, p: nat)
    requires Inv(w) && t.generation == w.generation && fileId in t.files
    requires p < |w.diffs.promises| && w.diffs.promises[p].key == Key(t.id, w.generation, DiffAsk(fileId, 3))
    requires w.diffs.promises[p].settled.Some? && !IsFailure(w.diffs.promises[p])
    ensures var x := Step(Step(Step(w, SnapshotArrives(t)),
            DiffsAsked(t.id, w.generation, [DiffRequest(fileId, None)])), Returns(|w.calls|));
            && x.diffs == w.diffs && |x.calls| == |w.calls| + 1
            && x.calls[|w.calls|] ==
               Admitted(Diffs, t, [DiffAsk(fileId, 3)], [p],
                 Some(Answered([w.diffs.promises[p].settled.value.outcome])))
  {
    hide Limited, DiffAsks, Requested, Gathered, CacheInv, IsFailure;
    var ask := DiffAsk(fileId, 3);
    DefaultAsk(fileId);
    HeldWhileGood(w.diffs, w.generation, p);
    var a := Step(w, SnapshotArrives(t));
    HeldAskIsServed(a, t, ask, p);
    var b := Step(a, DiffsAsked(t.id, w.generation, [DiffRequest(fileId, None)]));
    assert b == a.(calls := a.calls + [Admitted(Diffs, t, [ask], [p], None)]);
    FulfilledIsGathered(b.diffs, p);
    ReturnsGathered(b, |w.calls|, Answered([w.diffs.promises[p].settled.value.outcome]));
  }

  lemma HeldWhileGood(c: Cache, generation: nat, p: nat)
    requires CacheInv(c, generation) && p < |c.promises| && c.promises[p].key.generation == generation
    requires c.promises[p].settled.Some? && !IsFailure(c.promises[p])
    ensures c.promises[p].key in c.entries && c.entries[c.promises[p].key] == p
    ensures c.promises[p].settled.value.Fulfilled?
  {
    assert PromiseOk(c, generation, p);
  }

  lemma ReturnsGathered(w: Workspace, n: nat, reply: Reply)
    requires n < |w.calls| && w.calls[n].Admitted? && w.calls[n].reply.None?
    requires Gathered(CacheOf(w, w.calls[n].kind), w.calls[n].promises) == Some(reply)
    ensures Step(w, Returns(n)) == w.(calls := w.calls[n := w.calls[n].(reply := Some(reply))])
  {
    hide Gathered;
  }

  lemma HeldAskIsServed(w: Workspace, t: Snapshot, ask: Ask, p: nat)
    requires t.id in w.snapshotsById && w.snapshotsById[t.id] == t && t.generation == w.generation
             && ask.fileId in t.files
    requires Key(t.id, w.generation, ask) in w.diffs.entries && w.diffs.entries[Key(t.id, w.generation, ask)] == p
    ensures Requested(w, Diffs, t.id, w.generation, [ask]) ==
            w.(calls := w.calls + [Admitted(Diffs, t, [ask], [p], None)])
  {
    var asks := [ask];
    assert asks[..0] == [];
    assert Missing(w.diffs, t.id, w.generation, asks) == [];
    assert HeldForAll(w.diffs, t, w.generation, asks) == [p];
    assert Admission(w, t.id, w.generation, asks).None?;
  }

  lemma FulfilledIsGathered(c: Cache, p: nat)
    requires p < |c.promises| && c.promises[p].settled.Some? && c.promises[p].settled.value.Fulfilled?
    ensures Gathered(c, [p]) == Some(Answered([c.promises[p].settled.value.outcome]))
  {
    var promises := [p];
    assert promises[0] in promises;
    assert forall q :: q in promises ==> q == p;
    assert OutcomesOf(c, promises) == [c.promises[p].settled.value.outcome];
  }

  lemma DefaultAsk(fileId: string)
    ensures Limited(DiffAsks([DiffRequest(fileId, None)]), MAX_DIFFS) == [DiffAsk(fileId, 3)]
  {
    var asks := DiffAsks([DiffRequest(fileId, None)]);
    assert asks == [DiffAsk(fileId, 3)];
    var none: seq<Ask> := [];
    assert asks[..|asks| - 1] == none && FirstOccurrences(none) == none;
  }

  /** After `n` refreshes and nothing else. */
  lemma {:induction false} OnlyRefreshed(n: nat)
    ensures Run(Initial(), Refreshed(n)) == Initial().(generation := n + 1)
  {
    if n > 0 {
      OnlyRefreshed(n - 1);
      RunAppend(Initial(), Refreshed(n - 1), [Refreshes]);
      RunCons(Initial().(generation := n), [Refreshes]);
    }
  }

  function Refreshed(n: nat): seq<Event> {
    if n == 0 then [] else Refreshed(n - 1) + [Refreshes]
  }

  lemma {:induction false} RunAppend(w: Workspace, x: seq<Event>, y: seq<Event>)
    ensures Run(w, x + y) == Run(Run(w, x), y)
    decreases |x|
  {
    hide Step;
    if x == [] {
      assert x + y == y;
    } else {
      RunAppend(Step(w, x[0]), x[1..], y);
      assert (x + y)[1..] == x[1..] + y;
    }
  }

  lemma RunCons(w: Workspace, events: seq<Event>)
    requires events != []
    ensures Run(w, events) == Run(Step(w, events[0]), events[1..])
    ensures Run(Step(w, events[0]), []) == Step(w, events[0])
  {
    hide Step;
  }

  /** Load one snapshot, ask for a file, let the provider answer. */
  function FirstAsks(s: Snapshot, fileId: string, outcome: Outcome): seq<Event> {
    [SnapshotArrives(s), DiffsAsked(s.id, s.generation, [DiffRequest(fileId, None)]),
     BatchEnds(Diffs, 0, Outcomes([outcome])), PromiseEnds(Diffs, 0)]
  }

  /** Load another and ask for the same file of that one. */
  function ThenAsks(u: Snapshot, fileId: string): seq<Event> {
    [SnapshotArrives(u), DiffsAsked(u.id, u.generation, [DiffRequest(fileId, None)]), Returns(1)]
  }

  /** A whole run in which the second snapshot is served what was computed for the first:
      refreshes up to their generation, then the two loads and requests. */
  function Mistaken(s: Snapshot, u: Snapshot, fileId: string, outcome: Outcome): seq<Event>
    requires s.generation >= 1
  {
    Refreshed(s.generation - 1) + (FirstAsks(s, fileId, outcome) + ThenAsks(u, fileId))
  }

  /** For any two snapshots that share id, generation and a file there is a run from the
      beginning, loading only these two, in which a call admitted with the second returns an
      outcome of the only batch there is, which was asked for the first. */
  lemma SecondIsServedTheFirsts(s: Snapshot, u: Snapshot, fileId: string, content: string)
    requires Share(s, u, fileId) && s.generation >= 1
    ensures var outcome := Loaded(fileId, content);
            var w := Run(Initial(), Mistaken(s, u, fileId, outcome));
            && |w.calls| == 2 && w.calls[1] == Admitted(Diffs, u, [DiffAsk(fileId, 3)], [0], Some(Answered([outcome])))
            && |w.diffs.promises| == 1 && |w.diffs.batches| == 1 && w.diffs.promises[0].batch == 0
            && w.diffs.batches[0].snapshot == s
            && LoadsOnly(Mistaken(s, u, fileId, outcome), iset{s, u})
  {
    hide Step, Limited, DiffAsks, Requested, Inv;
    var outcome, g := Loaded(fileId, content), s.generation;
    var first, second := FirstAsks(s, fileId, outcome), ThenAsks(u, fileId);
    var a := Initial().(generation := g);
    OnlyRefreshed(g - 1);
    RunAppend(Initial(), Refreshed(g - 1), first + second);
    RunAppend(a, first, second);
    FirstIsAnswered(s, fileId, content);
    var b := Run(a, first);
    InitialHolds();
    RunKeeps(Initial(), Refreshed(g - 1));
    RunKeeps(a, first);
    SharedIdIsServedFromCache(b, u, fileId, 0);
    RunOfThree(b, second);
    OnlyTheseLoaded(s, u, fileId, outcome);
  }

  lemma RunOfThree(w: Workspace, events: seq<Event>)
    requires |events| == 3
    ensures Run(w, events) == Step(Step(Step(w, events[0]), events[1]), events[2])
  {
    hide Step, Run;
    RunCons(w, events);
    RunCons(Step(w, events[0]), events[1..]);
    RunCons(Step(Step(w, events[0]), events[1]), events[2..]);
    assert events[1..][1..] == events[2..] && events[2..][1..] == [];
    assert events[1..][0] == events[1] && events[2..][0] == events[2];
  }

  lemma OnlyTheseLoaded(s: Snapshot, u: Snapshot, fileId: string, outcome: Outcome)
    requires s.generation >= 1
    ensures LoadsOnly(Mistaken(s, u, fileId, outcome), iset{s, u})
  {
    RefreshedAreRefreshes(s.generation - 1);
  }

  lemma {:induction false} RefreshedAreRefreshes(n: nat)
    ensures forall e :: e in Refreshed(n) ==> e == Refreshes
  {
    if n > 0 { RefreshedAreRefreshes(n - 1); }
  }

  lemma FirstIsAnswered(s: Snapshot, fileId: string, content: string)
    requires fileId in s.files
    ensures var w := Run(Initial().(generation := s.generation), FirstAsks(s, fileId, Loaded(fileId, content)));
            && w.generation == s.generation && |w.calls| == 1 && |w.diffs.promises| == 1 && |w.diffs.batches| == 1
            && w.diffs.promises[0] ==
               Promise(Key(s.id, s.generation, DiffAsk(fileId, 3)), 0, Some(Fulfilled(Loaded(fileId, content))))
            && w.diffs.batches[0].snapshot == s
  {
    hide Step, Run;
    var events, ask, outcome := FirstAsks(s, fileId, Loaded(fileId, content)), DiffAsk(fileId, 3),
      Loaded(fileId, content);
    var w0 := Initial().(generation := s.generation);
    var w1 := w0.(snapshotsById := map[s.id := s], loaded := {s});
    assert Step(w0, events[0]) == w1 by { ArrivalIs(w0, s); assert w0.snapshotsById[s.id := s] == map[s.id := s]; }
    var w2 := Step(w1, events[1]);
    FreshAskIsAsked(w1, s, fileId);
    var w3 := Step(w2, events[2]);
    SettlingIs(w2, outcome, s, ask);
    RunCons(w0, events);
    RunOfThree(w1, events[1..]);
  }

  lemma ArrivalIs(w: Workspace, s: Snapshot)
    requires s.generation <= w.generation
    ensures Step(w, SnapshotArrives(s)) == w.(snapshotsById := w.snapshotsById[s.id := s], loaded := w.loaded + {s})
  {
  }

  /** With nothing cached, asking starts one batch with one promise. */
  lemma FreshAskIsAsked(w: Workspace, s: Snapshot, fileId: string)
    requires w.diffs == NO_CACHE && s.id in w.snapshotsById && w.snapshotsById[s.id] == s
             && s.generation == w.generation
    requires fileId in s.files
    ensures var x, ask := Step(w, DiffsAsked(s.id, s.generation, [DiffRequest(fileId, None)])), DiffAsk(fileId, 3);
            && x.generation == w.generation && |x.calls| == |w.calls| + 1
            && x.diffs.promises == [Promise(Key(s.id, s.generation, ask), 0, None)]
            && x.diffs.batches == [Batch(s, s.generation, [ask], None)]
  {
    hide Limited, DiffAsks, HeldForAll, Asked;
    DefaultAsk(fileId);
    FreshCacheIsAsked(s, DiffAsk(fileId, 3));
    assert Admission(w, s.id, s.generation, [DiffAsk(fileId, 3)]).None?;
  }

  lemma FreshCacheIsAsked(s: Snapshot, ask: Ask)
    ensures var c := Asked(NO_CACHE, s, s.generation, [ask]);
            && c.promises == [Promise(Key(s.id, s.generation, ask), 0, None)]
            && c.batches == [Batch(s, s.generation, [ask], None)]
  {
    var asks, none: seq<Ask> := [ask], [];
    assert asks[..0] == none;
    assert Missing(NO_CACHE, s.id, s.generation, none) == none;
    assert Missing(NO_CACHE, s.id, s.generation, asks) == asks;
    var started := NO_CACHE.(batches := NO_CACHE.batches + [Batch(s, s.generation, asks, None)]);
    assert AllEntered(started, s.id, s.generation, none, 0) == started;
  }

  lemma SettlingIs(w: Workspace, outcome: Outcome, s: Snapshot, ask: Ask)
    requires outcome.fileId == ask.fileId
    requires w.diffs.promises == [Promise(Key(s.id, s.generation, ask), 0, None)]
    requires w.diffs.batches == [Batch(s, s.generation, [ask], None)]
    ensures var x := Step(Step(w, BatchEnds(Diffs, 0, Outcomes([outcome]))), PromiseEnds(Diffs, 0));
            && x.generation == w.generation && x.calls == w.calls && |x.diffs.promises| == 1 && |x.diffs.batches| == 1
            && x.diffs.promises[0] == Promise(Key(s.id, s.generation, ask), 0, Some(Fulfilled(outcome)))
            && x.diffs.batches[0].snapshot == s
  {
    assert FirstFor([outcome], ask.fileId) == Some(outcome);
  }

  /** Every run that loads only snapshots of `L` gives every call what was asked for its own
      snapshot, if and only if no two snapshots of `L` share id, generation and a file. */
  lemma OwnSnapshotIffIdsDetermine(L: iset<Snapshot>)
    requires forall s :: s in L ==> s.generation >= 1
    ensures (forall events :: LoadsOnly(events, L) ==> EachHasItsOwn(Run(Initial(), events))) <==> IdsDetermine(L)
  {
    hide Run, EachHasItsOwn, Share;
    if IdsDetermine(L) {
      forall events | LoadsOnly(events, L) ensures EachHasItsOwn(Run(Initial(), events)) {
        InitialHolds();
        RunKeeps(Initial(), events);
        LoadedAreLoaded(Initial(), events, L);
        DeterminedIdsGiveOwn(Run(Initial(), events), L);
      }
    } else {
      var s, u, f :| s in L && u in L && Share(s, u, f) && s != u;
      SharedIdIsMistaken(L, s, u, f);
    }
  }

  lemma SharedIdIsMistaken(L: iset<Snapshot>, s: Snapshot, u: Snapshot, fileId: string)
    requires s in L && u in L && Share(s, u, fileId) && s != u && s.generation >= 1
    ensures exists events :: LoadsOnly(events, L) && !EachHasItsOwn(Run(Initial(), events))
  {
    hide Run, Mistaken;
    SecondIsServedTheFirsts(s, u, fileId, "");
    var events := Mistaken(s, u, fileId, Loaded(fileId, ""));
    var w := Run(Initial(), events);
    assert !HasItsOwn(w, 1, 0);
    assert LoadsOnly(events, L);
  }

  /** A snapshot asked before a refresh and delivered after it is found by id again, yet its
      generation keeps every request for it out. */
  lemma LateSnapshotIsRefused(w: Workspace, s: Snapshot, kind: Kind, expected: nat, asks: seq<Ask>)
    requires s.generation <= w.generation
    ensures var x := Step(Step(w, Refreshes), SnapshotArrives(s));
            s.id in x.snapshotsById && Admission(x, s.id, expected, asks).Some?
  {
  }

  // ---------- Lookup by file id ----------

  /** One outcome for each ask, in order and under its file id. */
  ghost predicate Honest(asks: seq<Ask>, outcomes: seq<Outcome>) {
    |outcomes| == |asks| && forall i :: 0 <= i < |asks| ==> outcomes[i].fileId == asks[i].fileId
  }

  ghost predicate DistinctFiles(asks: seq<Ask>) {
    forall i, j :: 0 <= i < j < |asks| ==> asks[i].fileId != asks[j].fileId
  }

  ghost predicate EachGetsItsOwn(asks: seq<Ask>, outcomes: seq<Outcome>) {
    forall i :: 0 <= i < |asks| && i < |outcomes| ==>
      Answer(Outcomes(outcomes), asks[i].fileId) == Fulfilled(outcomes[i])
  }

  /** The first outcome of a file is what every ask for that file gets. */
  lemma {:induction false} FirstForIsFirst(outcomes: seq<Outcome>, i: nat)
    requires i < |outcomes| && forall j :: 0 <= j < i ==> outcomes[j].fileId != outcomes[i].fileId
    ensures FirstFor(outcomes, outcomes[i].fileId) == Some(outcomes[i])
  {
    if i > 0 { FirstForIsFirst(outcomes[1..], i - 1); }
  }

  lemma {:induction false} FirstForComesEarly(outcomes: seq<Outcome>, i: nat)
    requires i < |outcomes|
    ensures FirstFor(outcomes, outcomes[i].fileId).Some?
            && FirstFor(outcomes, outcomes[i].fileId).value in outcomes[..i + 1]
  {
    if outcomes[0].fileId != outcomes[i].fileId {
      FirstForComesEarly(outcomes[1..], i - 1);
      assert outcomes[1..][..i] == outcomes[..i + 1][1..];
    } else {
      assert outcomes[..i + 1][0] == outcomes[0];
    }
  }

  lemma DistinctFilesGetTheirOwn(asks: seq<Ask>, outcomes: seq<Outcome>)
    requires DistinctFiles(asks) && Honest(asks, outcomes)
    ensures EachGetsItsOwn(asks, outcomes)
  {
    forall i | 0 <= i < |asks| ensures Answer(Outcomes(outcomes), asks[i].fileId) == Fulfilled(outcomes[i]) {
      FirstForIsFirst(outcomes, i);
    }
  }

  lemma RepeatedFileIsMistaken(asks: seq<Ask>, i: nat, j: nat) returns (outcomes: seq<Outcome>)
    requires i < j < |asks| && asks[i].fileId == asks[j].fileId
    ensures Honest(asks, outcomes) && !EachGetsItsOwn(asks, outcomes)
  {
    outcomes := seq(|asks|, k requires 0 <= k < |asks| => Loaded(asks[k].fileId, if k == j then "second" else "first"));
    FirstForComesEarly(outcomes, i);
    assert forall o :: o in outcomes[..i + 1] ==> o.content == "first";
    assert outcomes[j].content == "second";
    assert Answer(Outcomes(outcomes), asks[j].fileId) != Fulfilled(outcomes[j]);
  }

  /** Whatever an honest provider computes, every ask of a batch gets its own outcome exactly
      when no file is asked for twice, as it would be with two numbers of context lines. */
  lemma LookupIsRightIffFilesAreDistinct(asks: seq<Ask>)
    ensures (forall outcomes :: Honest(asks, outcomes) ==> EachGetsItsOwn(asks, outcomes)) <==> DistinctFiles(asks)
  {
    hide Honest, EachGetsItsOwn;
    if DistinctFiles(asks) {
      forall outcomes | Honest(asks, outcomes) ensures EachGetsItsOwn(asks, outcomes) {
        DistinctFilesGetTheirOwn(asks, outcomes);
      }
    } else {
      var i, j :| 0 <= i < j < |asks| && asks[i].fileId == asks[j].fileId;
      var outcomes := RepeatedFileIsMistaken(asks, i, j);
    }
  }

  // ---------- The coordinator's state ----------

  class ReviewCoordinator {
    var generation: nat
    var snapshotsById: map<string, Snapshot>
    var fileDiffs: Cache
    var fileContents: Cache
    var calls: seq<Call>
    ghost var loaded: set<Snapshot>

    ghost function View(): Workspace
      reads this
    {
      Workspace(generation, snapshotsById, fileDiffs, fileContents, calls, loaded)
    }

    constructor ()
      ensures View() == Initial() && Inv(View())
    {
      generation, snapshotsById, fileDiffs, fileContents, calls, loaded := 1, map[], NO_CACHE, NO_CACHE, [], {};
      new;
      InitialHolds();
    }

    method SnapshotArrived(snapshot: Snapshot)
      requires snapshot.generation <= generation
      modifies this
      ensures View() == Step(old(View()), SnapshotArrives(snapshot))
    {
      snapshotsById := snapshotsById[snapshot.id := snapshot];
      loaded := loaded + {snapshot};
    }

    method GetFileDiffs(snapshotId: string, expected: nat, requests: seq<DiffRequest>)
      modifies this
      ensures View() == Step(old(View()), DiffsAsked(snapshotId, expected, requests))
    {
      hide Requested, Limited;
      var deduped := DedupeDiffRequests(requests);
      assert Limited(DiffAsks(requests), MAX_DIFFS) == if |deduped| <= MAX_DIFFS then deduped
             else deduped[..MAX_DIFFS] by {
        UnfoldLimited(DiffAsks(requests), MAX_DIFFS);
      }
      Request(Diffs, snapshotId, expected, if |deduped| <= MAX_DIFFS then deduped else deduped[..MAX_DIFFS]);
    }

    method GetFileContents(snapshotId: string, expected: nat, fileIds: seq<string>)
      modifies this
      ensures View() == Step(old(View()), ContentsAsked(snapshotId, expected, fileIds))
    {
      hide Requested, Limited;
      var deduped: seq<Ask> := [];
      for i := 0 to |fileIds|
        invariant View() == old(View())
        invariant deduped == FirstOccurrences(ContentAsks(fileIds)[..i])
      {
        assert ContentAsks(fileIds)[..i + 1][..i] == ContentAsks(fileIds)[..i];
        if ContentAsk(fileIds[i]) !in deduped { deduped := deduped + [ContentAsk(fileIds[i])]; }
      }
      assert ContentAsks(fileIds)[..|fileIds|] == ContentAsks(fileIds);
      UnfoldLimited(ContentAsks(fileIds), MAX_CONTENTS);
      Request(Contents, snapshotId, expected, if |deduped| <= MAX_CONTENTS then deduped else deduped[..MAX_CONTENTS]);
    }

    method Request(kind: Kind, snapshotId: string, expected: nat, asks: seq<Ask>)
      modifies this
      ensures View() == Requested(old(View()), kind, snapshotId, expected, asks)
    {
      hide Asked, HeldForAll;
      if expected != generation {
        calls := calls + [Refused(StaleGeneration(generation))];
        return;
      }
      if snapshotId !in snapshotsById || snapshotsById[snapshotId].generation != generation {
        calls := calls + [Refused(SnapshotNotFound)];
        return;
      }
      var snapshot := snapshotsById[snapshotId];
      if exists a :: a in asks && a.fileId !in snapshot.files {
        calls := calls + [Refused(FileNotFound)];
        return;
      }
      if asks == [] {
        calls := calls + [Admitted(kind, snapshot, [], [], Some(Answered([])))];
        return;
      }
      AskProvider(kind, snapshot, asks);
      var c := if kind.Diffs? then fileDiffs else fileContents;
      calls := calls + [Admitted(kind, snapshot, asks, HeldForAll(c, snapshot, snapshot.generation, asks), None)];
    }

    /** Collects what is missing, asks the provider once for all of it, and enters a promise
        for each. */
    method AskProvider(kind: Kind, snapshot: Snapshot, asks: seq<Ask>)
      modifies this
      ensures View() == WithCache(old(View()), kind, Asked(CacheOf(old(View()), kind), snapshot, generation, asks))
      ensures generation == old(generation) && calls == old(calls)
    {
      var c := if kind.Diffs? then fileDiffs else fileContents;
      var missing: seq<Ask> := [];
      for i := 0 to |asks|
        invariant View() == old(View()) && missing == Missing(c, snapshot.id, generation, asks[..i])
      {
        assert asks[..i + 1][..i] == asks[..i];
        if Key(snapshot.id, generation, asks[i]) !in c.entries { missing := missing + [asks[i]]; }
      }
      assert asks[..|asks|] == asks;
      if missing != [] {
        var batch := |c.batches|;
        var started := c.(batches := c.batches + [Batch(snapshot, generation, missing, None)]);
        var d := started;
        for i := 0 to |missing|
          invariant View() == old(View()) && d == AllEntered(started, snapshot.id, generation, missing[..i], batch)
        {
          assert missing[..i + 1][..i] == missing[..i];
          var key := Key(snapshot.id, generation, missing[i]);
          d := d.(entries := d.entries[key := |d.promises|], promises := d.promises + [Promise(key, batch, None)]);
        }
        assert missing[..|missing|] == missing;
        if kind.Diffs? { fileDiffs := d; } else { fileContents := d; }
      }
    }

    /** The reaction to a settled promise. */
    method DropFailure(kind: Kind, p: nat)
      requires Enabled(View(), FailureIsDropped(kind, p))
      modifies this
      ensures View() == Step(old(View()), FailureIsDropped(kind, p))
    {
      var c := if kind.Diffs? then fileDiffs else fileContents;
      var key := c.promises[p].key;
      if IsFailure(c.promises[p]) && key in c.entries && c.entries[key] == p {
        if kind.Diffs? {
          fileDiffs := c.(entries := c.entries - {key});
        } else {
          fileContents := c.(entries := c.entries - {key});
        }
      }
    }

    method InvalidateResolved() returns (current: nat)
      modifies this
      ensures View() == Step(old(View()), Refreshes)
      ensures current == generation == old(generation) + 1
    {
      generation := generation + 1;
      snapshotsById := map[];
      fileDiffs := fileDiffs.(entries := map[]);
      fileContents := fileContents.(entries := map[]);
      current := generation;
    }
  }

  lemma UnfoldLimited(asks: seq<Ask>, limit: nat)
    ensures Limited(asks, limit) == if |FirstOccurrences(asks)| <= limit then FirstOccurrences(asks)
            else FirstOccurrences(asks)[..limit]
  {
  }
}
