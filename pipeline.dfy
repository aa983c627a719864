/**
 * The import pipeline: metadata, search, count check, transformation, an
 * optional sample file and the upload, in that order, for one set.
 *
 * Everything the pipeline learns from outside is gathered in a `World`:
 * the catalog's answers to its requests, the clock reading, whether the
 * file system accepts the write, the environment and the store's refusals.
 * What it does to the outside is recorded as a trace of effects.
 */
module Pipeline {
  import opened Scryfall
  import opened Transform
  import opened Catalog
  import opened Upload

  /** How many transformed rows the sample file carries. */
  const SAMPLE_SIZE: nat := 5

  const DEFAULT_OUTPUT_DIR: string := "./data"

  /** The options of importSet; an absent option takes its default. */
  datatype ImportOptions = ImportOptions(dryRun: Option<bool>, saveToFile: Option<bool>, outputDir: Option<string>)

  /** A destructuring default: it replaces an absent value only, not a falsy one. */
  function WithDefault<T>(o: Option<T>, default: T): (v: T)
    ensures o.None? ==> v == default
    ensures o.Some? ==> v == o.value
  {
    match o
    case None => default
    case Some(x) => x
  }

  predicate DryRun(opts: ImportOptions) { WithDefault(opts.dryRun, false) }

  predicate SaveRequested(opts: ImportOptions) { WithDefault(opts.saveToFile, false) }

  function OutputDir(opts: ImportOptions): string { WithDefault(opts.outputDir, DEFAULT_OUTPUT_DIR) }

  /** `stamp.split('T')[0]`: the text before the first 'T', or all of it. */
  function DatePart(stamp: string): (date: string)
    ensures 'T' !in date
    ensures date <= stamp
    ensures |date| < |stamp| ==> stamp[|date|] == 'T'
  {
    if stamp == [] || stamp[0] == 'T' then []
    else [stamp[0]] + DatePart(stamp[1..])
  }

  /** `path.join(dir, name)`, kept as its two parts. */
  datatype FilePath = FilePath(dir: string, name: string)

  /** The JSON document of a sample file, without its fixed explanatory message. */
  datatype SampleFile = SampleFile(setCode: string, cardCount: nat, exportedAt: string,
                                   cards: seq<DatabaseCard>, sample: bool)

  /** One write of a sample file: where, and what. */
  datatype SampleWrite = SampleWrite(path: FilePath, file: SampleFile)

  /**
   * saveCardsToFile, for the clock reading `now` (an ISO timestamp): the file
   * is named after the set and the day, and holds the set code, the full
   * count and only the first SAMPLE_SIZE rows.
   */
  function SaveCardsToFile(cards: seq<DatabaseCard>, setCode: string, outputDir: string, now: string)
    : (w: SampleWrite)
    ensures w.path.dir == outputDir
    ensures w.path.name == setCode + "-cards-" + DatePart(now) + ".json"
    ensures w.file.setCode == setCode && w.file.exportedAt == now && w.file.sample
    ensures w.file.cardCount == |cards|
    ensures w.file.cards <= cards && |w.file.cards| == Min(SAMPLE_SIZE, |cards|)
  {
    var sample := cards[..Min(SAMPLE_SIZE, |cards|)];
    SampleWrite(FilePath(outputDir, setCode + "-cards-" + DatePart(now) + ".json"),
                SampleFile(setCode, |cards|, now, sample, true))
  }

  /** What the pipeline does to the outside, in order. */
  datatype Effect =
    | Get(url: string)
    | WriteFile(write: SampleWrite)
    | UpsertCall(batch: seq<DatabaseCard>)

  function Gets(urls: seq<string>): (effects: seq<Effect>)
    ensures |effects| == |urls|
    ensures forall i :: 0 <= i < |urls| ==> effects[i] == Get(urls[i])
  {
    seq(|urls|, i requires 0 <= i < |urls| => Get(urls[i]))
  }

  function Upserts(batches: seq<seq<DatabaseCard>>): (effects: seq<Effect>)
    ensures |effects| == |batches|
    ensures forall i :: 0 <= i < |batches| ==> effects[i] == UpsertCall(batches[i])
  {
    seq(|batches|, i requires 0 <= i < |batches| => UpsertCall(batches[i]))
  }

  /**
   * The outside as the pipeline meets it: the answer to the metadata
   * request, the search's pages, the answer to the count check's own
   * metadata request, the clock, whether the sample write succeeds, the
   * environment and the store's refusals by batch number.
   */
  datatype World = World(metadata: FetchResult<ScryfallSet>, pages: seq<FetchResult<SearchPage>>,
                         recheck: FetchResult<ScryfallSet>, now: string, writeOk: bool,
                         env: Env, rejects: map<nat, string>)

  datatype ImportResult = ImportResult(setMetadata: ScryfallSet, cardsImported: nat,
                                       validationPassed: bool, savedToFile: Option<FilePath>)

  /** Why an import throws: the step that failed. */
  datatype ImportError =
    | CatalogFailed(apiError: ApiError)
    | WriteFailed
    | UploadFailed(uploadError: UploadError)

  /** What one import does: its result, the table after it, its effects. */
  datatype ImportRun = ImportRun(result: Result<ImportResult, ImportError>, rows: Rows, trace: seq<Effect>)

  /**
   * importSet, as a value. A failing catalog request, sample write or upload
   * ends the run with that failure; a count mismatch does not. The upload is
   * skipped under a dry run, so the environment is then never consulted.
   */
  function Import(rows: Rows, setCode: string, opts: ImportOptions, w: World): (run: ImportRun)
    requires Terminates(w.pages)
  {
    var t0 := [Get(SetUrl(setCode))];
    if w.metadata.Err? then ImportRun(Err(CatalogFailed(w.metadata.error)), rows, t0)
    else
      var t1 := t0 + Gets(RequestedUrls(setCode, w.pages));
      var found := Paginate(w.pages);
      if found.Err? then ImportRun(Err(CatalogFailed(found.error)), rows, t1)
      else
        var t2 := t1 + [Get(SetUrl(setCode))];
        var valid := ValidateSetImport(found.value, w.recheck);
        if valid.Err? then ImportRun(Err(CatalogFailed(valid.error)), rows, t2)
        else
          var db := TransformCardsForDatabase(found.value);
          var write := SaveCardsToFile(db, setCode, OutputDir(opts), w.now);
          var t3 := if SaveRequested(opts) then t2 + [WriteFile(write)] else t2;
          var saved := if SaveRequested(opts) then Some(write.path) else None;
          if SaveRequested(opts) && !w.writeOk then ImportRun(Err(WriteFailed), rows, t3)
          else
            var summary := ImportResult(w.metadata.value, |db|, valid.value, saved);
            if DryRun(opts) then ImportRun(Ok(summary), rows, t3)
            else
              var up := UploadCards(rows, db, DEFAULT_BATCH_SIZE, w.env, w.rejects);
              var t4 := t3 + Upserts(up.sent);
              if up.outcome.Fail? then ImportRun(Err(UploadFailed(up.outcome.error)), up.rows, t4)
              else ImportRun(Ok(summary), up.rows, t4)
  }

  /**
   * importSet: the six steps in order against the store, recording each
   * request, write and upsert call it makes.
   */
  method ImportSet(store: CardStore, setCode: string, opts: ImportOptions, w: World)
    returns (result: Result<ImportResult, ImportError>, trace: seq<Effect>)
    requires Terminates(w.pages)
    modifies store
    ensures ImportRun(result, store.rows, trace) == Import(old(store.rows), setCode, opts, w)
  {
    var dryRun := DryRun(opts);
    var saveToFile := SaveRequested(opts);
    var outputDir := OutputDir(opts);

    trace := [Get(SetUrl(setCode))];
    if w.metadata.Err? {
      return Err(CatalogFailed(w.metadata.error)), trace;
    }
    var setMetadata := w.metadata.value;

    var found, requested := SearchCardsInSet(setCode, w.pages);
    trace := trace + Gets(requested);
    if found.Err? {
      return Err(CatalogFailed(found.error)), trace;
    }
    var scryfallCards := found.value;

    trace := trace + [Get(SetUrl(setCode))];
    var valid := ValidateSetImport(scryfallCards, w.recheck);
    if valid.Err? {
      return Err(CatalogFailed(valid.error)), trace;
    }
    var validationPassed := valid.value;

    var databaseCards := TransformCardsForDatabase(scryfallCards);

    var savedToFile: Option<FilePath> := None;
    if saveToFile {
      var write := SaveCardsToFile(databaseCards, setCode, outputDir, w.now);
      trace := trace + [WriteFile(write)];
      if !w.writeOk {
        return Err(WriteFailed), trace;
      }
      savedToFile := Some(write.path);
    }

    if !dryRun {
      var outcome, sent := UploadCardsToDatabase(store, databaseCards, DEFAULT_BATCH_SIZE, w.env, w.rejects);
      trace := trace + Upserts(sent);
      if outcome.Fail? {
        return Err(UploadFailed(outcome.error)), trace;
      }
    }

    result := Ok(ImportResult(setMetadata, |databaseCards|, validationPassed, savedToFile));
  }

  /**
   * When an import succeeds: the metadata is the first request's answer,
   * `cardsImported` is the number of cards the search fetched, and
   * `validationPassed` says whether the declared count matched it; a
   * mismatch is reported, not fatal.
   */
  lemma ImportedCountIsFetchedCount(rows: Rows, setCode: string, opts: ImportOptions, w: World)
    requires Terminates(w.pages)
    ensures var run := Import(rows, setCode, opts, w);
            run.result.Ok? ==>
              && w.metadata.Ok? && Paginate(w.pages).Ok? && w.recheck.Ok?
              && run.result.value.setMetadata == w.metadata.value
              && run.result.value.cardsImported == |Paginate(w.pages).value|
              && (run.result.value.validationPassed <==> w.recheck.value.cardCount == |Paginate(w.pages).value|)
  {
  }

  /**
   * An import fails exactly when a catalog request fails, the requested
   * sample write fails, or the upload of a real run fails; the count check's
   * verdict plays no part.
   */
  lemma ImportSucceedsIff(rows: Rows, setCode: string, opts: ImportOptions, w: World)
    requires Terminates(w.pages)
    ensures Import(rows, setCode, opts, w).result.Ok? <==>
              && w.metadata.Ok? && Paginate(w.pages).Ok? && w.recheck.Ok?
              && (SaveRequested(opts) ==> w.writeOk)
              && (!DryRun(opts) ==>
                    UploadCards(rows, TransformCardsForDatabase(Paginate(w.pages).value),
                                DEFAULT_BATCH_SIZE, w.env, w.rejects).outcome.Pass?)
  {
  }

  /**
   * The import gets as far as the upload: every catalog request succeeded,
   * a requested sample write succeeded, and the run is not a dry run.
   */
  predicate ReachesUpload(opts: ImportOptions, w: World)
    requires Terminates(w.pages)
  {
    && w.metadata.Ok? && Paginate(w.pages).Ok? && w.recheck.Ok?
    && (SaveRequested(opts) ==> w.writeOk)
    && !DryRun(opts)
  }

  /**
   * An import that reaches the upload leaves the table as the upload of the
   * transformed cards leaves it, and fails exactly with the upload's error.
   */
  lemma ImportUploads(rows: Rows, setCode: string, opts: ImportOptions, w: World)
    requires Terminates(w.pages) && ReachesUpload(opts, w)
    ensures var run := Import(rows, setCode, opts, w);
            var up := UploadCards(rows, TransformCardsForDatabase(Paginate(w.pages).value),
                                  DEFAULT_BATCH_SIZE, w.env, w.rejects);
            && run.rows == up.rows
            && (up.outcome.Fail? ==> run.result == Err(UploadFailed(up.outcome.error)))
            && (up.outcome.Pass? ==> run.result.Ok?)
  {
  }

  /**
   * An import that stops before the upload, or skips it, leaves the table
   * as it was, makes no upsert call and cannot fail in the upload.
   */
  lemma ImportWithoutUpload(rows: Rows, setCode: string, opts: ImportOptions, w: World)
    requires Terminates(w.pages) && !ReachesUpload(opts, w)
    ensures var run := Import(rows, setCode, opts, w);
            && run.rows == rows
            && (forall i :: 0 <= i < |run.trace| ==> !run.trace[i].UpsertCall?)
            && !(run.result.Err? && run.result.error.UploadFailed?)
  {
    if w.metadata.Ok? && Paginate(w.pages).Ok? && w.recheck.Ok? {
      var db := TransformCardsForDatabase(Paginate(w.pages).value);
      var t2 := [Get(SetUrl(setCode))] + Gets(RequestedUrls(setCode, w.pages)) + [Get(SetUrl(setCode))];
      var t3 := if SaveRequested(opts) then t2 + [WriteFile(SaveCardsToFile(db, setCode, OutputDir(opts), w.now))] else t2;
      assert Import(rows, setCode, opts, w).trace == t3;
    }
  }

  /**
   * The store configuration is read only by the upload: a real run with a
   * missing configuration fails after the metadata and search requests have
   * gone out, with the table untouched and no upsert call.
   */
  lemma MissingConfigFailsAfterCatalog(rows: Rows, setCode: string, opts: ImportOptions, w: World)
    requires Terminates(w.pages) && ReachesUpload(opts, w) && !Configured(w.env)
    ensures var run := Import(rows, setCode, opts, w);
            && run.result == Err(UploadFailed(MissingConfig))
            && run.rows == rows
            && |run.trace| >= 2 && run.trace[0] == Get(SetUrl(setCode)) && run.trace[1] == Get(SearchUrl(setCode))
            && forall i :: 0 <= i < |run.trace| ==> !run.trace[i].UpsertCall?
  {
    var db := TransformCardsForDatabase(Paginate(w.pages).value);
    ImportUploads(rows, setCode, opts, w);
    MissingConfigSendsNothing(rows, db, DEFAULT_BATCH_SIZE, w.env, w.rejects);
    var t1 := [Get(SetUrl(setCode))] + Gets(RequestedUrls(setCode, w.pages));
    assert t1[1] == Get(SearchUrl(setCode));
  }

  /**
   * A dry run leaves the table as it was and makes no upsert call, and its
   * result does not depend on the environment: the store is never configured.
   */
  lemma DryRunUploadsNothing(rows: Rows, setCode: string, opts: ImportOptions, w: World)
    requires Terminates(w.pages) && DryRun(opts)
    ensures var run := Import(rows, setCode, opts, w);
            run.rows == rows && forall i :: 0 <= i < |run.trace| ==> !run.trace[i].UpsertCall?
    ensures Import(rows, setCode, opts, w).result == Import(rows, setCode, opts, w.(env := Env(None, None))).result
  {
    ImportWithoutUpload(rows, setCode, opts, w);
  }

  /**
   * A successful import reports a file exactly when one was requested; the
   * file is the last effect of the run or comes right before its upserts,
   * and carries the first min(5, n) rows with the full count n.
   */
  lemma SavedToFileIffRequested(rows: Rows, setCode: string, opts: ImportOptions, w: World)
    requires Terminates(w.pages)
    ensures var run := Import(rows, setCode, opts, w);
            run.result.Ok? ==>
              && (run.result.value.savedToFile.Some? <==> SaveRequested(opts))
              && (run.result.value.savedToFile.Some? ==>
                    exists i :: 0 <= i < |run.trace| && run.trace[i].WriteFile?
                      && run.trace[i].write.path == run.result.value.savedToFile.value
                      && run.trace[i].write.path.dir == OutputDir(opts)
                      && run.trace[i].write.file.cardCount == run.result.value.cardsImported
                      && |run.trace[i].write.file.cards| == Min(SAMPLE_SIZE, run.result.value.cardsImported)
                      && run.trace[i].write.file.cards
                           == TransformCardsForDatabase(Paginate(w.pages).value)[..Min(SAMPLE_SIZE, run.result.value.cardsImported)])
  {
    var run := Import(rows, setCode, opts, w);
    if run.result.Ok? && SaveRequested(opts) {
      var db := TransformCardsForDatabase(Paginate(w.pages).value);
      var t2 := [Get(SetUrl(setCode))] + Gets(RequestedUrls(setCode, w.pages)) + [Get(SetUrl(setCode))];
      assert run.trace[|t2|] == WriteFile(SaveCardsToFile(db, setCode, OutputDir(opts), w.now));
    }
  }

  /**
   * A failing catalog request changes nothing: the table is untouched and
   * the run made requests only.
   */
  lemma CatalogFailureChangesNothing(rows: Rows, setCode: string, opts: ImportOptions, w: World)
    requires Terminates(w.pages)
    ensures var run := Import(rows, setCode, opts, w);
            run.result.Err? && run.result.error.CatalogFailed? ==>
              run.rows == rows && forall i :: 0 <= i < |run.trace| ==> run.trace[i].Get?
  {
  }

  /**
   * When the store refuses batch k, the table keeps the rows of the k - 1
   * batches before it, that is the first (k - 1) * 1000 transformed cards,
   * upserted over what it held.
   */
  lemma UploadFailureKeepsEarlierBatches(rows: Rows, setCode: string, opts: ImportOptions, w: World)
    requires Terminates(w.pages)
    ensures var run := Import(rows, setCode, opts, w);
            run.result.Err? && run.result.error.UploadFailed? && run.result.error.uploadError.BatchFailed? ==>
              && Paginate(w.pages).Ok?
              && var k := run.result.error.uploadError.batchNumber;
                 var db := TransformCardsForDatabase(Paginate(w.pages).value);
                 && 1 <= k && (k - 1) * DEFAULT_BATCH_SIZE < |db|
                 && run.rows == UpsertAll(rows, db[..(k - 1) * DEFAULT_BATCH_SIZE])
  {
    if ReachesUpload(opts, w) {
      ImportUploads(rows, setCode, opts, w);
      var db := TransformCardsForDatabase(Paginate(w.pages).value);
      FailedUploadKeepsEarlierBatches(rows, db, DEFAULT_BATCH_SIZE, w.env, w.rejects);
    } else {
      ImportWithoutUpload(rows, setCode, opts, w);
    }
  }

  /**
   * Importing a set again, with the catalog answering the same, leaves the
   * table as the first successful import left it: upserts on `scryfall_id`
   * add no duplicate rows.
   */
  lemma ReimportIsIdempotent(rows: Rows, setCode: string, opts: ImportOptions, w: World, again: World)
    requires Terminates(w.pages) && again.pages == w.pages
    requires Import(rows, setCode, opts, w).result.Ok?
    requires Import(Import(rows, setCode, opts, w).rows, setCode, opts, again).result.Ok?
    ensures var once := Import(rows, setCode, opts, w).rows;
            Import(once, setCode, opts, again).rows == once
  {
    var once := Import(rows, setCode, opts, w).rows;
    if ReachesUpload(opts, w) && ReachesUpload(opts, again) {
      var db := TransformCardsForDatabase(Paginate(w.pages).value);
      ImportUploads(rows, setCode, opts, w);
      ImportUploads(once, setCode, opts, again);
      UploadTwiceIsIdempotent(rows, db, DEFAULT_BATCH_SIZE, w.env, w.rejects, again.rejects);
    } else {
      ImportSucceedsIff(rows, setCode, opts, w);
      ImportSucceedsIff(once, setCode, opts, again);
      ImportWithoutUpload(once, setCode, opts, again);
    }
  }
}
