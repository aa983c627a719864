/**
 * The uploader: splits the rows into consecutive batches and upserts them
 * one batch at a time into the `cards` table, keyed on `scryfall_id`.
 *
 * The table is a map from key to row. The store's answer to each upsert
 * call is an input: `rejects` maps the number of every batch the store
 * refuses to the store's error message. The environment lookup is reduced
 * to the two values it reads.
 */
module Upload {
  import opened Scryfall
  import opened Transform

  /** The batch size importSet uploads with. */
  const DEFAULT_BATCH_SIZE: nat := 1000

  /** The `cards` table, by `scryfall_id`. */
  type Rows = map<string, DatabaseCard>

  function Min(a: int, b: int): int { if a <= b then a else b }

  /** The keys a sequence of rows carries. */
  function KeysOf(batch: seq<DatabaseCard>): set<string>
  {
    set i | 0 <= i < |batch| :: batch[i].scryfallId
  }

  /**
   * An upsert with `onConflict: scryfall_id` that updates on conflict: each
   * row, in order, inserts or replaces the row stored under its key. Keys
   * the batch does not carry are left as they were, and the last row with
   * a given key is the one stored.
   */
  function UpsertAll(rows: Rows, batch: seq<DatabaseCard>): (r: Rows)
    ensures r.Keys == rows.Keys + KeysOf(batch)
    ensures forall k :: k in rows && k !in KeysOf(batch) ==> r[k] == rows[k]
  {
    if batch == [] then rows
    else
      var init, last := batch[..|batch| - 1], batch[|batch| - 1];
      assert KeysOf(batch) == KeysOf(init) + {last.scryfallId} by {
        forall i | 0 <= i < |init| ensures init[i] == batch[i] { }
      }
      UpsertAll(rows, init)[last.scryfallId := last]
  }

  /** The last row of the batch with a given key is the one stored under it. */
  lemma {:induction false} UpsertLastWins(rows: Rows, batch: seq<DatabaseCard>, i: nat)
    requires i < |batch|
    requires forall j :: i < j < |batch| ==> batch[j].scryfallId != batch[i].scryfallId
    ensures UpsertAll(rows, batch)[batch[i].scryfallId] == batch[i]
  {
    if i < |batch| - 1 {
      var init := batch[..|batch| - 1];
      UpsertLastWins(rows, init, i);
    }
  }

  /** Upserting a batch is overlaying the rows the batch alone would produce. */
  lemma {:induction false} UpsertIsOverlay(rows: Rows, batch: seq<DatabaseCard>)
    ensures UpsertAll(rows, batch) == rows + UpsertAll(map[], batch)
  {
    if batch != [] {
      var init, last := batch[..|batch| - 1], batch[|batch| - 1];
      UpsertIsOverlay(rows, init);
    }
  }

  /** Upserting a concatenation is upserting its two parts in turn. */
  lemma {:induction false} UpsertAppend(rows: Rows, a: seq<DatabaseCard>, b: seq<DatabaseCard>)
    ensures UpsertAll(rows, a + b) == UpsertAll(UpsertAll(rows, a), b)
  {
    if b == [] {
      assert a + b == a;
    } else {
      var init := b[..|b| - 1];
      assert (a + b)[..|a + b| - 1] == a + init;
      UpsertAppend(rows, a, init);
    }
  }

  /** Upserting the same rows a second time changes nothing. */
  lemma UpsertIdempotent(rows: Rows, batch: seq<DatabaseCard>)
    ensures UpsertAll(UpsertAll(rows, batch), batch) == UpsertAll(rows, batch)
  {
    var overlay := UpsertAll(map[], batch);
    UpsertIsOverlay(rows, batch);
    UpsertIsOverlay(UpsertAll(rows, batch), batch);
    assert (rows + overlay) + overlay == rows + overlay;
  }


  lemma {:induction false} MulMonotonic(a: nat, b: nat, c: nat)
    requires a <= b
    ensures a * c <= b * c
  {
    if a < b {
      MulMonotonic(a, b - 1, c);
      assert b * c == (b - 1) * c + c;
    }
  }

  /** Math.ceil(n / size): the least count of size-long slices that covers n. */
  function NumBatches(n: nat, size: nat): (count: nat)
    requires size > 0
    ensures count * size >= n
    ensures count > 0 ==> (count - 1) * size < n
  {
    var q := (n + size - 1) / size;
    assert (n + size - 1) == q * size + (n + size - 1) % size;
    q
  }

  /** Only one count meets the ceiling's two bounds. */
  lemma CeilingUnique(n: nat, size: nat, c: nat)
    requires size > 0
    requires c * size >= n && (c > 0 ==> (c - 1) * size < n)
    ensures c == NumBatches(n, size)
  {
    var d := NumBatches(n, size);
    if c < d {
      MulMonotonic(c, d - 1, size);
    } else if d < c {
      MulMonotonic(d, c - 1, size);
    }
  }

  /**
   * The batches, in order: `cards.slice(i, i + size)` for i = 0, size,
   * 2*size, ... while i < n, read as a recursion on the rows left.
   */
  function AllBatches(cards: seq<DatabaseCard>, size: nat): (batches: seq<seq<DatabaseCard>>)
    requires size > 0
    decreases |cards|
  {
    if cards == [] then []
    else
      var cut := Min(size, |cards|);
      [cards[..cut]] + AllBatches(cards[cut..], size)
  }

  /** The batches, concatenated. */
  function Flatten(batches: seq<seq<DatabaseCard>>): seq<DatabaseCard>
  {
    if batches == [] then [] else batches[0] + Flatten(batches[1..])
  }

  lemma {:induction false} FlattenSnoc(batches: seq<seq<DatabaseCard>>, batch: seq<DatabaseCard>)
    ensures Flatten(batches + [batch]) == Flatten(batches) + batch
  {
    if batches != [] {
      assert (batches + [batch])[1..] == batches[1..] + [batch];
      FlattenSnoc(batches[1..], batch);
    }
  }

  /**
   * Batching is a partition: each batch is non-empty and at most `size`
   * long, every one but the last exactly `size` long, and together, in
   * order, they are the input.
   */
  lemma {:induction false} BatchesPartition(cards: seq<DatabaseCard>, size: nat)
    requires size > 0
    ensures forall j :: 0 <= j < |AllBatches(cards, size)| ==>
              0 < |AllBatches(cards, size)[j]| <= size &&
              (j + 1 < |AllBatches(cards, size)| ==> |AllBatches(cards, size)[j]| == size)
    ensures Flatten(AllBatches(cards, size)) == cards
  {
    if cards != [] {
      var cut := Min(size, |cards|);
      BatchesPartition(cards[cut..], size);
      assert AllBatches(cards, size)[1..] == AllBatches(cards[cut..], size);
      assert cards == cards[..cut] + cards[cut..];
    }
  }

  /** There are Math.ceil(n / size) batches. */
  lemma {:induction false} BatchCount(cards: seq<DatabaseCard>, size: nat)
    requires size > 0
    ensures |AllBatches(cards, size)| == NumBatches(|cards|, size)
  {
    var n := |cards|;
    if n == 0 {
      CeilingUnique(n, size, 0);
    } else if n <= size {
      CeilingUnique(n, size, 1);
    } else {
      var rest := cards[size..];
      BatchCount(rest, size);
      var c := NumBatches(n - size, size);
      assert (c + 1) * size == c * size + size;
      CeilingUnique(n, size, c + 1);
    }
  }

  /** Two batches or more only when the rows are longer than one batch. */
  lemma SeveralBatchesNeedMoreRows(cards: seq<DatabaseCard>, size: nat)
    requires size > 0
    ensures |AllBatches(cards, size)| > 1 ==> |cards| > size
  {
    if 0 < |cards| <= size {
      var rest := cards[Min(size, |cards|)..];
      assert rest == [];
      assert AllBatches(cards, size) == [cards[..|cards|]] + AllBatches(rest, size);
    }
  }

  lemma {:induction false} BatchAtOffset(cards: seq<DatabaseCard>, size: nat, k: nat)
    requires size > 0 && 1 <= k <= |AllBatches(cards, size)|
    ensures Offset(k - 1, size) < |cards|
    ensures AllBatches(cards, size)[k - 1] == cards[Offset(k - 1, size) .. Min(Offset(k, size), |cards|)]
  {
    if k == 1 {
      assert Offset(1, size) == size;
    } else {
      SeveralBatchesNeedMoreRows(cards, size);
      var rest := cards[size..];
      assert AllBatches(cards, size) == [cards[..size]] + AllBatches(rest, size);
      BatchAtOffset(rest, size, k - 1);
      OffsetShift(k - 2, size);
      OffsetShift(k - 1, size);
      var lo, hi := Offset(k - 2, size), Min(Offset(k - 1, size), |rest|);
      assert hi + size == Min(Offset(k, size), |cards|);
      SliceOfSuffix(cards, size, lo, hi);
    }
  }

  /** A slice of a suffix is the slice shifted by the suffix's start. */
  lemma SliceOfSuffix<T>(s: seq<T>, d: nat, lo: nat, hi: nat)
    requires d <= |s| && lo <= hi <= |s| - d
    ensures s[d..][lo..hi] == s[d + lo .. d + hi]
  {
    assert forall i :: 0 <= i < hi - lo ==> s[d..][lo..hi][i] == s[d + lo .. d + hi][i];
  }

  /** The batches reach the end of the rows. */
  lemma {:induction false} BatchesReachEnd(cards: seq<DatabaseCard>, size: nat)
    requires size > 0
    ensures Offset(|AllBatches(cards, size)|, size) >= |cards|
  {
    if cards != [] {
      var cut := Min(size, |cards|);
      BatchesReachEnd(cards[cut..], size);
      OffsetShift(|AllBatches(cards[cut..], size)|, size);
    }
  }

  lemma {:induction false} OffsetShift(k: nat, size: nat)
    ensures Offset(k + 1, size) == size + Offset(k, size)
  {
  }

  /**
   * What the loop sees at its k-th iteration (k from 0): the batch at offset
   * Offset(k), and whether another batch follows.
   */
  lemma LoopStep(cards: seq<DatabaseCard>, size: nat, k: nat)
    requires size > 0 && k < |AllBatches(cards, size)|
    ensures Offset(k, size) < |cards|
    ensures AllBatches(cards, size)[k] == cards[Offset(k, size) .. Min(Offset(k, size) + size, |cards|)]
    ensures k + 1 < |AllBatches(cards, size)| <==> Offset(k, size) + size < |cards|
  {
    BatchAtOffset(cards, size, k + 1);
    if k + 1 < |AllBatches(cards, size)| {
      BatchAtOffset(cards, size, k + 2);
    } else {
      BatchesReachEnd(cards, size);
    }
  }

  /** Batch k (numbered from 1) is `cards.slice((k-1)*size, k*size)`, cut short by the end. */
  lemma BatchAt(cards: seq<DatabaseCard>, size: nat, k: nat)
    requires size > 0 && 1 <= k <= |AllBatches(cards, size)|
    ensures (k - 1) * size < |cards|
    ensures AllBatches(cards, size)[k - 1] == cards[(k - 1) * size .. Min(k * size, |cards|)]
  {
    BatchAtOffset(cards, size, k);
    OffsetIsProduct(k - 1, size);
    OffsetIsProduct(k, size);
  }

  /** The first k batches together are the rows before offset k, cut short by the end. */
  lemma {:induction false} BatchesPrefixAtOffset(cards: seq<DatabaseCard>, size: nat, k: nat)
    requires size > 0 && k <= |AllBatches(cards, size)|
    ensures Flatten(AllBatches(cards, size)[..k]) == cards[..Min(Offset(k, size), |cards|)]
  {
    if k > 0 {
      var cut := Min(size, |cards|);
      var rest := cards[cut..];
      var batches := AllBatches(cards, size);
      assert batches[..k] == [cards[..cut]] + AllBatches(rest, size)[..k - 1];
      assert batches[..k][1..] == AllBatches(rest, size)[..k - 1];
      BatchesPrefixAtOffset(rest, size, k - 1);
      OffsetShift(k - 1, size);
      var m := Min(Offset(k - 1, size), |rest|);
      assert Min(Offset(k, size), |cards|) == cut + m;
      assert cards[..cut + m] == cards[..cut] + rest[..m];
    }
  }

  /** The first k batches together are the first min(k*size, n) rows. */
  lemma BatchesPrefix(cards: seq<DatabaseCard>, size: nat, k: nat)
    requires size > 0 && k <= |AllBatches(cards, size)|
    ensures Flatten(AllBatches(cards, size)[..k]) == cards[..Min(k * size, |cards|)]
  {
    BatchesPrefixAtOffset(cards, size, k);
    OffsetIsProduct(k, size);
  }

  /** k * size, spelled as repeated addition so that reasoning about offsets stays linear. */
  function Offset(k: nat, size: nat): nat
  {
    if k == 0 then 0 else Offset(k - 1, size) + size
  }

  lemma {:induction false} OffsetIsProduct(k: nat, size: nat)
    ensures Offset(k, size) == k * size
  {
    if k > 0 {
      OffsetIsProduct(k - 1, size);
      assert k * size == (k - 1) * size + size;
    }
  }

  /** Euclidean division has one quotient and remainder. */
  lemma DivModUnique(a: int, d: int, q: int, r: int)
    requires d > 0 && 0 <= r < d && a == q * d + r
    ensures a / d == q && a % d == r
  {
    var q', r' := a / d, a % d;
    assert (q - q') * d == r' - r;
    if q' < q {
      MulMonotonic(1, q - q', d);
    } else if q < q' {
      MulMonotonic(1, q' - q, d);
    }
  }

  /** Math.floor(i / size) at the k-th offset is k. */
  lemma OffsetQuotient(k: nat, size: nat)
    requires size > 0
    ensures Offset(k, size) / size == k
  {
    OffsetIsProduct(k, size);
    DivModUnique(Offset(k, size), size, k, 0);
  }

  /** The first number in lo..hi that `rejects` holds, if any. */
  function FirstRejected(rejects: map<nat, string>, lo: nat, hi: nat): (r: Option<nat>)
    ensures r.Some? ==> lo <= r.value <= hi && r.value in rejects
    ensures r.Some? ==> forall j :: lo <= j < r.value ==> j !in rejects
    ensures r.None? ==> forall j :: lo <= j <= hi ==> j !in rejects
    decreases hi + 1 - lo
  {
    if lo > hi then None
    else if lo in rejects then Some(lo)
    else FirstRejected(rejects, lo + 1, hi)
  }

  /** The two environment values the store client is created from. */
  datatype Env = Env(supabaseUrl: Option<string>, supabaseKey: Option<string>)

  /** `if (!url || !key) throw`: both values must be present and non-empty. */
  predicate Configured(env: Env)
  {
    !Falsy(env.supabaseUrl) && !Falsy(env.supabaseKey)
  }

  datatype UploadError =
    | MissingConfig
    | BatchFailed(batchNumber: nat, message: string)

  /** What one upload does: its outcome, the table after it, the batches it sent. */
  datatype UploadRun = UploadRun(outcome: Outcome<UploadError>, rows: Rows, sent: seq<seq<DatabaseCard>>)

  /**
   * uploadCardsToDatabase, as a value. A missing configuration fails before
   * any batch is sent. Otherwise batches go out in order until the first
   * one the store refuses: that one fails the upload with its number, no
   * later batch is sent, and the batches before it stay applied. With no
   * refusal, every row is upserted.
   */
  function UploadCards(rows: Rows, cards: seq<DatabaseCard>, size: nat, env: Env, rejects: map<nat, string>)
    : (run: UploadRun)
    requires size > 0
  {
    if !Configured(env) then UploadRun(Fail(MissingConfig), rows, [])
    else
      var batches := AllBatches(cards, size);
      match FirstRejected(rejects, 1, |batches|)
      case None => UploadRun(Pass, UpsertAll(rows, cards), batches)
      case Some(k) => UploadRun(Fail(BatchFailed(k, rejects[k])), UpsertAll(rows, Flatten(batches[..k - 1])), batches[..k])
  }

  /** Extending the range by a number the store accepts finds no refusal either. */
  lemma NoneRejectedExtend(rejects: map<nat, string>, k: nat)
    requires FirstRejected(rejects, 1, k) == None && k + 1 !in rejects
    ensures FirstRejected(rejects, 1, k + 1) == None
  {
  }

  /** The upload that the store lets through completely. */
  lemma UploadAccepted(rows: Rows, cards: seq<DatabaseCard>, size: nat, env: Env, rejects: map<nat, string>)
    requires size > 0 && Configured(env)
    requires FirstRejected(rejects, 1, |AllBatches(cards, size)|) == None
    ensures UploadCards(rows, cards, size, env, rejects) == UploadRun(Pass, UpsertAll(rows, cards), AllBatches(cards, size))
  {
  }

  /** The upload whose batch k + 1 the store refuses first. */
  lemma UploadRefused(rows: Rows, cards: seq<DatabaseCard>, size: nat, env: Env, rejects: map<nat, string>, k: nat)
    requires size > 0 && Configured(env) && k < |AllBatches(cards, size)|
    requires k + 1 in rejects && FirstRejected(rejects, 1, k) == None
    ensures UploadCards(rows, cards, size, env, rejects)
         == UploadRun(Fail(BatchFailed(k + 1, rejects[k + 1])),
                      UpsertAll(rows, Flatten(AllBatches(cards, size)[..k])),
                      AllBatches(cards, size)[..k + 1])
  {
    assert FirstRejected(rejects, 1, |AllBatches(cards, size)|) == Some(k + 1);
  }

  lemma PrefixSnoc<T>(s: seq<T>, k: nat)
    requires k < |s|
    ensures s[..k + 1] == s[..k] + [s[k]]
  {
  }

  /** The `cards` table the uploader writes to. */
  class CardStore {
    var rows: Rows

    constructor (initial: Rows)
      ensures rows == initial
    {
      rows := initial;
    }

    /** One accepted upsert call. */
    method Upsert(batch: seq<DatabaseCard>)
      modifies this
      ensures rows == UpsertAll(old(rows), batch)
    {
      rows := UpsertAll(rows, batch);
    }
  }

  /**
   * uploadCardsToDatabase: `for (i = 0; i < n; i += batchSize)`, numbering
   * batch i / batchSize + 1 and stopping at the first refused batch.
   */
  method UploadCardsToDatabase(store: CardStore, cards: seq<DatabaseCard>, batchSize: nat, env: Env,
                               rejects: map<nat, string>)
    returns (outcome: Outcome<UploadError>, sent: seq<seq<DatabaseCard>>)
    requires batchSize > 0
    modifies store
    ensures UploadRun(outcome, store.rows, sent) == UploadCards(old(store.rows), cards, batchSize, env, rejects)
  {
    if !Configured(env) {
      return Fail(MissingConfig), [];
    }
    ghost var batches := AllBatches(cards, batchSize);
    sent := [];
    var i := 0;
    while i < |cards|
      invariant |sent| <= |batches| && sent == batches[..|sent|]
      invariant i == Offset(|sent|, batchSize)
      invariant |sent| < |batches| <==> i < |cards|
      invariant store.rows == UpsertAll(old(store.rows), Flatten(sent))
      invariant FirstRejected(rejects, 1, |sent|) == None
    {
      ghost var k := |sent|;
      LoopStep(cards, batchSize, k);
      OffsetQuotient(k, batchSize);
      var batch := cards[i..Min(i + batchSize, |cards|)];
      var batchNumber := i / batchSize + 1;
      assert batchNumber == k + 1;
      assert batch == batches[k];
      PrefixSnoc(batches, k);
      FlattenSnoc(sent, batch);
      UpsertAppend(old(store.rows), Flatten(sent), batch);
      ghost var before := sent;
      sent := sent + [batch];
      if batchNumber in rejects {
        UploadRefused(old(store.rows), cards, batchSize, env, rejects, k);
        return Fail(BatchFailed(batchNumber, rejects[batchNumber])), sent;
      }
      NoneRejectedExtend(rejects, k);
      store.Upsert(batch);
      i := i + batchSize;
    }
    assert sent == batches;
    BatchesPartition(cards, batchSize);
    UploadAccepted(old(store.rows), cards, batchSize, env, rejects);
    outcome := Pass;
  }

  /**
   * When batch k fails, exactly the first k batches were sent, and the table
   * holds the old rows with the rows of the first k - 1 batches, that is
   * `cards[..(k-1)*size]`, upserted on top.
   */
  lemma FailedUploadKeepsEarlierBatches(rows: Rows, cards: seq<DatabaseCard>, size: nat, env: Env,
                                        rejects: map<nat, string>)
    requires size > 0
    ensures var run := UploadCards(rows, cards, size, env, rejects);
            run.outcome.Fail? && run.outcome.error.BatchFailed? ==>
              var k := run.outcome.error.batchNumber;
              && 1 <= k <= NumBatches(|cards|, size)
              && (k - 1) * size < |cards|
              && run.sent == AllBatches(cards, size)[..k]
              && run.rows == UpsertAll(rows, cards[..(k - 1) * size])
  {
    var run := UploadCards(rows, cards, size, env, rejects);
    if run.outcome.Fail? && run.outcome.error.BatchFailed? {
      var k := run.outcome.error.batchNumber;
      BatchCount(cards, size);
      BatchAt(cards, size, k);
      BatchesPrefix(cards, size, k - 1);
    }
  }

  /** A missing configuration sends nothing and leaves the table alone. */
  lemma MissingConfigSendsNothing(rows: Rows, cards: seq<DatabaseCard>, size: nat, env: Env,
                                  rejects: map<nat, string>)
    requires size > 0 && !Configured(env)
    ensures UploadCards(rows, cards, size, env, rejects) == UploadRun(Fail(MissingConfig), rows, [])
  {
  }

  /**
   * Uploading the same rows twice, both times successfully, leaves the table
   * as the first upload left it: no duplicate rows, the same row count.
   */
  lemma UploadTwiceIsIdempotent(rows: Rows, cards: seq<DatabaseCard>, size: nat, env: Env,
                                rejects: map<nat, string>, rejectsAgain: map<nat, string>)
    requires size > 0
    requires UploadCards(rows, cards, size, env, rejects).outcome.Pass?
    requires UploadCards(UploadCards(rows, cards, size, env, rejects).rows, cards, size, env, rejectsAgain).outcome.Pass?
    ensures var once := UploadCards(rows, cards, size, env, rejects).rows;
            UploadCards(once, cards, size, env, rejectsAgain).rows == once
  {
    UpsertIdempotent(rows, cards);
  }

  /**
   * 2500 rows in batches of 1000: three upsert calls of 1000, 1000 and 500
   * rows; if the store refuses the second, the upload fails at batch 2 and
   * the third is never sent.
   */
  lemma ThreeBatchesOf2500(cards: seq<DatabaseCard>, env: Env, rejects: map<nat, string>)
    requires |cards| == 2500 && Configured(env)
    ensures var run := UploadCards(map[], cards, 1000, env, rejects);
            1 !in rejects && 2 !in rejects && 3 !in rejects ==>
              run.outcome == Pass && |run.sent| == 3 &&
              |run.sent[0]| == 1000 && |run.sent[1]| == 1000 && |run.sent[2]| == 500
    ensures var run := UploadCards(map[], cards, 1000, env, rejects);
            1 !in rejects && 2 in rejects ==>
              run.outcome == Fail(BatchFailed(2, rejects[2])) && |run.sent| == 2 &&
              |run.sent[0]| == 1000 && |run.sent[1]| == 1000
  {
    var batches, c1 := AllBatches(cards, 1000), cards[1000..];
    var c2 := c1[1000..];
    assert batches == [cards[..1000]] + AllBatches(c1, 1000);
    assert AllBatches(c1, 1000) == [c1[..1000]] + AllBatches(c2, 1000);
    assert AllBatches(c2, 1000) == [c2[..500]] + AllBatches(c2[500..], 1000);
    assert c2[500..] == [];
    assert |batches| == 3;
  }
}
