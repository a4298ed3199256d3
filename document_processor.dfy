/** Ingestion and search bookkeeping of `DocumentProcessor` (document_processor.py).
    Text extraction back ends, the text splitter, the embedding model and the vector
    store's failures and ranking are collaborators, given as the functions of a
    `Backends` value; the store's content is the processor's `collection`. */
module DocumentProcessing {
  import opened Wrappers
  import opened Text
  import opened Paths
  import Config
  import opened ContextDocs

  type Vector = seq<real>

  /** The metadata dictionary built once per file. Its `source` entry is always the
      basename of `file_path`, so the model derives it instead of storing it. */
  datatype BaseMetadata = BaseMetadata(filePath: string, processedAt: string, chunkCount: nat) {
    function Source(): string {
      Basename(filePath)
    }
  }

  /** A copy of the file's metadata with `chunk_index` and `chunk_text` added. */
  datatype ChunkMetadata = ChunkMetadata(base: BaseMetadata, chunkIndex: nat, chunkText: string)

  /** One stored chunk: its id, embedding, text and metadata. Ids are drawn from a
      counter and stand for the source's fresh `uuid4()` strings. */
  datatype Record = Record(id: nat, embedding: Vector, document: string, metadata: ChunkMetadata)

  /** The collaborators. Each reader returns the stripped text of a file, or "" when
      reading fails. `split` fails when the splitter raises. `storeFault` says whether
      embedding and adding the chunks of a file raises, and with which message.
      `queryFault` says whether embedding a query or querying the store raises;
      `nearest` is the store's ranking of stored positions for a query vector,
      nearest first. */
  datatype Backends = Backends(
    readPdf: string -> string,
    readDocx: string -> string,
    readTxt: string -> string,
    split: string -> Result<seq<string>, string>,
    embed: string -> Vector,
    storeFault: (string, seq<string>) -> Option<string>,
    queryFault: (string, int) -> Option<string>,
    nearest: (Vector, seq<Record>) -> seq<nat>,
    distance: (Vector, Vector) -> real)

  datatype FileKind = Pdf | Docx | Txt | Unsupported

  /** The extractor `extract_text_from_file` dispatches to. */
  function KindOf(path: string): FileKind {
    var ext := Lower(Suffix(path));
    if ext == ".pdf" then Pdf
    else if ext == ".docx" then Docx
    else if ext == ".txt" then Txt
    else Unsupported
  }

  function ExtractText(b: Backends, path: string): string {
    match KindOf(path)
    case Pdf => b.readPdf(path)
    case Docx => b.readDocx(path)
    case Txt => b.readTxt(path)
    case Unsupported => ""
  }

  /** A file `stem + ext` goes to the reader its lower-cased extension names, in any
      letter case; any other extension yields no text. */
  lemma DispatchByExtension(b: Backends, dir: string, stem: string, ext: string)
    requires |stem| > 0 && '/' !in stem
    requires |ext| >= 2 && ext[0] == '.' && '.' !in ext[1..] && '/' !in ext
    ensures var path := dir + "/" + stem + ext;
      && (Lower(ext) == ".pdf" ==> ExtractText(b, path) == b.readPdf(path))
      && (Lower(ext) == ".docx" ==> ExtractText(b, path) == b.readDocx(path))
      && (Lower(ext) == ".txt" ==> ExtractText(b, path) == b.readTxt(path))
      && (Lower(ext) !in {".pdf", ".docx", ".txt"} ==> ExtractText(b, path) == "")
  {
    SuffixOfFileName(dir, stem, ext);
  }

  /** A file whose name has no dot, or whose only dot leads the name, yields no text. */
  lemma NoExtensionNoText(b: Backends, dir: string, rest: string)
    requires '/' !in rest && '.' !in rest
    ensures ExtractText(b, dir + "/" + rest) == ""
    ensures ExtractText(b, dir + "/." + rest) == ""
  {
    BasenameOfLast(dir + "/", rest);
    assert dir + "/" + rest == (dir + "/") + rest;
    assert LastIndexOf(rest, '.') == -1;
    HiddenFileHasNoSuffix(dir, rest);
    assert Lower("") == "";
  }

  /** The `chunk_text` preview: the chunk itself up to 200 characters, otherwise its
      first 200 characters followed by "...". */
  function Preview(chunk: string): (r: string)
    ensures |r| <= 203
    ensures IsPrefix(Take(chunk, 200), r)
    ensures |chunk| <= 200 ==> r == chunk
    ensures |chunk| > 200 ==> IsSuffix("...", r) && |r| == 203
  {
    if |chunk| > 200 then chunk[..200] + "..." else chunk
  }

  /** The records `_store_document_chunks` adds for one file, ids from `firstId` on. */
  function ChunkRecords(b: Backends, chunks: seq<string>, base: BaseMetadata, firstId: nat): seq<Record> {
    seq(|chunks|, j requires 0 <= j < |chunks| =>
      Record(firstId + j, b.embed(chunks[j]), chunks[j], ChunkMetadata(base, j, Preview(chunks[j]))))
  }

  function BaseFor(path: string, now: string, chunkCount: nat): BaseMetadata {
    BaseMetadata(path, now, chunkCount)
  }

  /** What becomes of one file of a batch. */
  datatype FileOutcome = NoText | NoChunks | Raised(message: string) | Stored(chunks: seq<string>)

  function Outcome(b: Backends, path: string): (o: FileOutcome)
    ensures o.Stored? ==> o.chunks != [] && ExtractText(b, path) != ""
  {
    var text := ExtractText(b, path);
    if text == "" then NoText
    else match b.split(text)
      case Failure(e) => Raised(e)
      case Success(chunks) =>
        if chunks == [] then NoChunks
        else match b.storeFault(path, chunks)
          case Some(e) => Raised(e)
          case None => Stored(chunks)
  }

  function ErrorMessage(path: string, o: FileOutcome): string
    requires !o.Stored?
  {
    match o
    case NoText => "No text extracted from " + path
    case NoChunks => "No chunks created from " + path
    case Raised(e) => "Error processing " + path + ": " + e
  }

  datatype BatchResults = BatchResults(processed: nat, failed: nat, totalChunks: nat, errors: seq<string>)

  /** A file of a batch together with what became of it. */
  datatype FileReport = FileReport(path: string, outcome: FileOutcome)

  function Reports(b: Backends, paths: seq<string>): (r: seq<FileReport>)
    ensures |r| == |paths|
  {
    if paths == [] then []
    else
      var n := |paths| - 1;
      Reports(b, paths[..n]) + [FileReport(paths[n], Outcome(b, paths[n]))]
  }

  lemma ReportsSnoc(b: Backends, paths: seq<string>, i: nat)
    requires i < |paths|
    ensures Reports(b, paths[..i + 1]) == Reports(b, paths[..i]) + [FileReport(paths[i], Outcome(b, paths[i]))]
  {
    assert paths[..i + 1][..i] == paths[..i];
  }

  function Count(acc: BatchResults, report: FileReport): BatchResults {
    var o := report.outcome;
    if o.Stored? then acc.(processed := acc.processed + 1, totalChunks := acc.totalChunks + |o.chunks|)
    else acc.(failed := acc.failed + 1, errors := acc.errors + [ErrorMessage(report.path, o)])
  }

  /** The `results` dictionary of `process_documents`, file by file. */
  function Tally(reports: seq<FileReport>): BatchResults {
    if reports == [] then BatchResults(0, 0, 0, [])
    else Count(Tally(reports[..|reports| - 1]), reports[|reports| - 1])
  }

  /** The records one file adds: its chunk records when it was stored, else none. */
  function StepRecords(b: Backends, now: string, report: FileReport, firstId: nat): (r: seq<Record>)
    ensures |r| == if report.outcome.Stored? then |report.outcome.chunks| else 0
  {
    if report.outcome.Stored? then
      ChunkRecords(b, report.outcome.chunks, BaseFor(report.path, now, |report.outcome.chunks|), firstId)
    else []
  }

  /** The records a batch adds, in order; `stamp(i)` is the time file `i` is processed. */
  function Written(b: Backends, stamp: nat -> string, reports: seq<FileReport>, firstId: nat): seq<Record> {
    if reports == [] then []
    else
      var n := |reports| - 1;
      var prev := Written(b, stamp, reports[..n], firstId);
      prev + StepRecords(b, stamp(n), reports[n], firstId + |prev|)
  }

  lemma TallySnoc(reports: seq<FileReport>, last: FileReport)
    ensures Tally(reports + [last]) == Count(Tally(reports), last)
  {
    assert (reports + [last])[..|reports|] == reports;
  }

  lemma WrittenSnoc(b: Backends, stamp: nat -> string, reports: seq<FileReport>, last: FileReport, firstId: nat,
                    now: string, start: nat)
    requires now == stamp(|reports|) && start == firstId + |Written(b, stamp, reports, firstId)|
    ensures Written(b, stamp, reports + [last], firstId) == Written(b, stamp, reports, firstId) + StepRecords(b, now, last, start)
  {
    var all := reports + [last];
    assert all[..|all| - 1] == reports;
    assert all[|all| - 1] == last;
  }

  lemma AppendAssociative(a: seq<Record>, b: seq<Record>, c: seq<Record>)
    ensures (a + b) + c == a + (b + c)
  {
  }

  /** Each file counts once, as processed or as failed, and each failure leaves
      exactly one error message. */
  lemma {:induction false} TallyAccounting(reports: seq<FileReport>)
    ensures Tally(reports).processed + Tally(reports).failed == |reports|
    ensures |Tally(reports).errors| == Tally(reports).failed
  {
    if reports != [] {
      TallyAccounting(reports[..|reports| - 1]);
    }
  }

  /** The chunk total counts exactly the records written, whose ids run on from `firstId`. */
  lemma {:induction false} WrittenMatchesTotal(b: Backends, stamp: nat -> string, reports: seq<FileReport>, firstId: nat)
    ensures |Written(b, stamp, reports, firstId)| == Tally(reports).totalChunks
    ensures forall j :: 0 <= j < |Written(b, stamp, reports, firstId)| ==>
      Written(b, stamp, reports, firstId)[j].id == firstId + j
  {
    if reports != [] {
      WrittenMatchesTotal(b, stamp, reports[..|reports| - 1], firstId);
    }
  }

  /** Reference counts over a batch, read from the front. */
  function Successes(reports: seq<FileReport>): nat {
    if reports == [] then 0
    else (if reports[0].outcome.Stored? then 1 else 0) + Successes(reports[1..])
  }

  function ChunkSum(reports: seq<FileReport>): nat {
    if reports == [] then 0
    else (if reports[0].outcome.Stored? then |reports[0].outcome.chunks| else 0) + ChunkSum(reports[1..])
  }

  function Failures(reports: seq<FileReport>): seq<string> {
    if reports == [] then []
    else
      var o := reports[0].outcome;
      (if o.Stored? then [] else [ErrorMessage(reports[0].path, o)]) + Failures(reports[1..])
  }

  lemma {:induction false} SuccessesAppend(front: seq<FileReport>, back: seq<FileReport>)
    ensures Successes(front + back) == Successes(front) + Successes(back)
  {
    if front != [] {
      assert (front + back)[0] == front[0];
      assert (front + back)[1..] == front[1..] + back;
      SuccessesAppend(front[1..], back);
    } else {
      assert front + back == back;
    }
  }

  lemma {:induction false} ChunkSumAppend(front: seq<FileReport>, back: seq<FileReport>)
    ensures ChunkSum(front + back) == ChunkSum(front) + ChunkSum(back)
  {
    if front != [] {
      assert (front + back)[0] == front[0];
      assert (front + back)[1..] == front[1..] + back;
      ChunkSumAppend(front[1..], back);
    } else {
      assert front + back == back;
    }
  }

  lemma {:induction false} FailuresAppend(front: seq<FileReport>, back: seq<FileReport>)
    ensures Failures(front + back) == Failures(front) + Failures(back)
  {
    if front != [] {
      assert (front + back)[0] == front[0];
      assert (front + back)[1..] == front[1..] + back;
      FailuresAppend(front[1..], back);
    } else {
      assert front + back == back;
    }
  }

  lemma ReferenceCountsAppend(front: seq<FileReport>, back: seq<FileReport>)
    ensures Successes(front + back) == Successes(front) + Successes(back)
    ensures ChunkSum(front + back) == ChunkSum(front) + ChunkSum(back)
    ensures Failures(front + back) == Failures(front) + Failures(back)
  {
    SuccessesAppend(front, back);
    ChunkSumAppend(front, back);
    FailuresAppend(front, back);
  }

  /** `processed` counts the files that were stored, `total_chunks` sums the chunk
      counts of those files only, and `errors` lists one message per failed file in
      batch order. */
  lemma {:induction false} TallyMatchesReference(reports: seq<FileReport>)
    ensures Tally(reports).processed == Successes(reports)
    ensures Tally(reports).totalChunks == ChunkSum(reports)
    ensures Tally(reports).errors == Failures(reports)
  {
    if reports != [] {
      var n := |reports| - 1;
      TallyMatchesReference(reports[..n]);
      ReferenceCountsAppend(reports[..n], [reports[n]]);
      assert reports[..n] + [reports[n]] == reports;
    }
  }

  /** A failing file does not abort the batch: the files around it are processed
      exactly as they would be without it. */
  lemma BadFileDoesNotAbort(front: seq<FileReport>, bad: FileReport, back: seq<FileReport>)
    requires !bad.outcome.Stored?
    ensures Tally(front + [bad] + back).processed == Tally(front).processed + Tally(back).processed
    ensures Tally(front + [bad] + back).totalChunks == Tally(front).totalChunks + Tally(back).totalChunks
    ensures Tally(front + [bad] + back).errors
      == Tally(front).errors + [ErrorMessage(bad.path, bad.outcome)] + Tally(back).errors
  {
    TallyMatchesReference(front + [bad] + back);
    TallyMatchesReference(front);
    TallyMatchesReference(back);
    ReferenceCountsAppend(front + [bad], back);
    ReferenceCountsAppend(front, [bad]);
    assert Failures([bad]) == [ErrorMessage(bad.path, bad.outcome)];
    assert Successes([bad]) == 0 && ChunkSum([bad]) == 0;
  }

  /** Ids in the store are pairwise distinct. */
  ghost predicate DistinctIds(records: seq<Record>) {
    forall i, j :: 0 <= i < j < |records| ==> records[i].id != records[j].id
  }

  function MaxIdPlusOne(records: seq<Record>): (n: nat)
    ensures forall i :: 0 <= i < |records| ==> records[i].id < n
  {
    if records == [] then 0
    else
      var rest := MaxIdPlusOne(records[..|records| - 1]);
      var last := records[|records| - 1].id + 1;
      if rest < last then last else rest
  }

  /** A store hit: the stored text, its metadata and its distance to the query. */
  datatype Hit = Hit(document: string, metadata: ChunkMetadata, distance: real)

  /** One entry of `search_similar_documents`'s result list. */
  datatype SearchResult = SearchResult(content: string, metadata: ChunkMetadata, similarity: real, rank: nat)

  /** `k` when given, else the configured `RETRIEVAL_K`. */
  function EffectiveK(k: Option<int>): int {
    k.GetOr(Config.RETRIEVAL_K)
  }

  function InRange(order: seq<nat>, n: nat): (r: seq<nat>)
    ensures forall j :: 0 <= j < |r| ==> r[j] < n
    ensures |r| <= |order|
    ensures n == 0 ==> r == []
  {
    if order == [] then []
    else (if order[0] < n then [order[0]] else []) + InRange(order[1..], n)
  }

  /** Some stored record has this text and metadata. */
  ghost predicate HeldIn(collection: seq<Record>, document: string, metadata: ChunkMetadata) {
    exists p :: 0 <= p < |collection| && collection[p].document == document && collection[p].metadata == metadata
  }

  /** What the store answers for `n_results = k`: the first `k` stored records of its
      ranking, with their distances to the query's embedding. */
  function StoreHits(b: Backends, query: string, k: int, collection: seq<Record>): (h: seq<Hit>)
    ensures |h| <= if k <= 0 then 0 else k
    ensures forall j :: 0 <= j < |h| ==> HeldIn(collection, h[j].document, h[j].metadata)
  {
    var v := b.embed(query);
    var picked := InRange(b.nearest(v, collection), |collection|);
    var top := if k <= 0 then [] else if |picked| <= k then picked else picked[..k];
    var hits := seq(|top|, j requires 0 <= j < |top| =>
      Hit(collection[top[j]].document, collection[top[j]].metadata, b.distance(v, collection[top[j]].embedding)));
    assert forall j :: 0 <= j < |hits| ==>
      0 <= top[j] < |collection| && hits[j].document == collection[top[j]].document
      && hits[j].metadata == collection[top[j]].metadata;
    hits
  }

  /** The hits as result dictionaries, ranked from 1 in order. */
  function Ranked(hits: seq<Hit>): (r: seq<SearchResult>)
    ensures |r| == |hits|
    ensures forall i :: 0 <= i < |hits| ==>
      r[i] == SearchResult(hits[i].document, hits[i].metadata, 1.0 - hits[i].distance, i + 1)
  {
    seq(|hits|, i requires 0 <= i < |hits| =>
      SearchResult(hits[i].document, hits[i].metadata, 1.0 - hits[i].distance, i + 1))
  }

  lemma RankedStep(hits: seq<Hit>, i: nat)
    requires i < |hits|
    ensures Ranked(hits)[..i + 1]
      == Ranked(hits)[..i] + [SearchResult(hits[i].document, hits[i].metadata, 1.0 - hits[i].distance, i + 1)]
  {
    assert Ranked(hits)[..i + 1] == Ranked(hits)[..i] + [Ranked(hits)[i]];
  }

  /** The list `search_similar_documents` returns: the store's hits in store order,
      ranked from 1, each at least as similar as it is close (`1 - distance`); none
      when the query raises. */
  function SearchResults(b: Backends, query: string, k: int, collection: seq<Record>): (r: seq<SearchResult>)
    ensures b.queryFault(query, k).Some? ==> r == []
    ensures b.queryFault(query, k).None? ==> |r| == |StoreHits(b, query, k, collection)|
    ensures |r| <= if k <= 0 then 0 else k
    ensures forall i :: 0 <= i < |r| ==> r[i].rank == i + 1
    ensures forall i :: 0 <= i < |r| ==> HeldIn(collection, r[i].content, r[i].metadata)
  {
    if b.queryFault(query, k).Some? then [] else Ranked(StoreHits(b, query, k, collection))
  }

  /** A search result as the handler reads it: its content, its metadata's `source`
      and its similarity score, all present. */
  function AsContextDoc(r: SearchResult): (d: ContextDoc)
    ensures ContentOf(d) == r.content && SourceOf(d) == r.metadata.base.Source()
    ensures SimilarityOf(d) == r.similarity
  {
    ContextDoc(Some(r.content), Some(r.metadata.base.Source()), Some(r.similarity))
  }

  function AsContextDocs(results: seq<SearchResult>): (docs: seq<ContextDoc>)
    ensures |docs| == |results|
    ensures forall i :: 0 <= i < |results| ==> docs[i] == AsContextDoc(results[i])
  {
    seq(|results|, i requires 0 <= i < |results| => AsContextDoc(results[i]))
  }

  datatype CollectionStats =
    | Stats(totalChunks: nat, collectionName: string, embeddingModel: string)
    | StatsError(totalChunks: nat, error: string)

  datatype ClearFault = NoFault | DeleteFails(message: string) | RecreateFails(message: string)

  class DocumentProcessor {
    const backends: Backends
    /** The records of the persistent collection, in insertion order. */
    var collection: seq<Record>
    /** The next fresh id. */
    var nextId: nat

    ghost predicate Valid()
      reads this
    {
      (forall i :: 0 <= i < |collection| ==> collection[i].id < nextId) && DistinctIds(collection)
    }

    /** Opens the persistent collection, which may already hold records. */
    constructor (backends: Backends, persisted: seq<Record>)
      requires DistinctIds(persisted)
      ensures Valid()
      ensures this.backends == backends && collection == persisted
    {
      this.backends := backends;
      collection := persisted;
      nextId := MaxIdPlusOne(persisted);
    }

    /** `_store_document_chunks`: one record per chunk, with a fresh id and the file's
        metadata extended by the chunk's index and preview; nothing is stored when
        embedding or adding raises. */
    method StoreChunks(chunks: seq<string>, sourceFile: string, base: BaseMetadata) returns (raised: Option<string>)
      requires Valid()
      modifies this
      ensures Valid()
      ensures raised == backends.storeFault(sourceFile, chunks)
      ensures raised.Some? ==> collection == old(collection) && nextId == old(nextId)
      ensures raised.None? ==> collection == old(collection) + ChunkRecords(backends, chunks, base, old(nextId))
      ensures raised.None? ==> nextId == old(nextId) + |chunks|
    {
      var embeddings := seq(|chunks|, j requires 0 <= j < |chunks| => backends.embed(chunks[j]));
      var metadatas: seq<ChunkMetadata> := [];
      var i := 0;
      while i < |chunks|
        invariant 0 <= i <= |chunks|
        invariant |metadatas| == i
        invariant forall j :: 0 <= j < i ==> metadatas[j] == ChunkMetadata(base, j, Preview(chunks[j]))
      {
        metadatas := metadatas + [ChunkMetadata(base, i, Preview(chunks[i]))];
        i := i + 1;
      }
      raised := backends.storeFault(sourceFile, chunks);
      if raised.None? {
        var firstId := nextId;
        var added := seq(|chunks|, j requires 0 <= j < |chunks| => Record(firstId + j, embeddings[j], chunks[j], metadatas[j]));
        assert added == ChunkRecords(backends, chunks, base, nextId);
        collection := collection + added;
        nextId := nextId + |chunks|;
      }
    }

    /** `process_documents`: every file is extracted, split and stored in turn; a file
        with no text, no chunks or a raised error is counted as failed and the batch
        goes on. */
    method ProcessDocuments(paths: seq<string>, stamp: nat -> string) returns (results: BatchResults)
      requires Valid()
      modifies this
      ensures Valid()
      ensures results == Tally(Reports(backends, paths))
      ensures collection == old(collection) + Written(backends, stamp, Reports(backends, paths), old(nextId))
      ensures nextId == old(nextId) + results.totalChunks
    {
      results := BatchResults(0, 0, 0, []);
      ghost var done: seq<FileReport> := [];
      ghost var written: seq<Record> := [];
      var i := 0;
      while i < |paths|
        invariant 0 <= i <= |paths| && Valid()
        invariant done == Reports(backends, paths[..i])
        invariant written == Written(backends, stamp, done, old(nextId))
        invariant results == Tally(done)
        invariant collection == old(collection) + written
        invariant nextId == old(nextId) + |written|
      {
        ghost var before := collection;
        ghost var start := nextId;
        var now := stamp(i);
        var outcome := ProcessFile(paths[i], now);
        var report := FileReport(paths[i], outcome);
        ghost var added := StepRecords(backends, now, report, start);
        ReportsSnoc(backends, paths, i);
        TallySnoc(done, report);
        WrittenSnoc(backends, stamp, done, report, old(nextId), now, start);
        results := Count(results, report);
        AppendAssociative(old(collection), written, added);
        done := done + [report];
        written := written + added;
        i := i + 1;
      }
      assert paths[..|paths|] == paths;
      WrittenMatchesTotal(backends, stamp, Reports(backends, paths), old(nextId));
    }

    /** One file of `process_documents`: extract, split, store, and report what became
        of it; only a stored file changes the collection. */
    method ProcessFile(path: string, now: string) returns (outcome: FileOutcome)
      requires Valid()
      modifies this
      ensures Valid()
      ensures outcome == Outcome(backends, path)
      ensures collection == old(collection) + StepRecords(backends, now, FileReport(path, outcome), old(nextId))
      ensures nextId == old(nextId) + |StepRecords(backends, now, FileReport(path, outcome), old(nextId))|
    {
      var text := ExtractText(backends, path);
      if text == "" {
        return NoText;
      }
      var split := backends.split(text);
      if split.Failure? {
        return Raised(split.error);
      }
      var chunks := split.value;
      if chunks == [] {
        return NoChunks;
      }
      var raised := StoreChunks(chunks, path, BaseFor(path, now, |chunks|));
      if raised.Some? {
        outcome := Raised(raised.value);
      } else {
        outcome := Stored(chunks);
      }
    }

    /** `search_similar_documents`: builds the result list hit by hit. */
    method SearchSimilarDocuments(query: string, k: Option<int>) returns (results: seq<SearchResult>)
      ensures results == SearchResults(backends, query, EffectiveK(k), collection)
    {
      var kk := EffectiveK(k);
      if backends.queryFault(query, kk).Some? {
        return [];
      }
      var hits := StoreHits(backends, query, kk, collection);
      results := [];
      var i := 0;
      while i < |hits|
        invariant 0 <= i <= |hits|
        invariant results == Ranked(hits)[..i]
      {
        RankedStep(hits, i);
        results := results + [SearchResult(hits[i].document, hits[i].metadata, 1.0 - hits[i].distance, i + 1)];
        i := i + 1;
      }
      assert Ranked(hits)[..|hits|] == Ranked(hits);
    }

    /** `get_collection_stats`: the collection's size, or 0 and the error when counting
        raises. */
    function GetCollectionStats(countFault: Option<string>): (r: CollectionStats)
      reads this
      ensures r.totalChunks == if countFault.None? then |collection| else 0
      ensures r.StatsError? <==> countFault.Some?
      ensures r.Stats? ==> r.collectionName == Config.COLLECTION_NAME && r.embeddingModel == Config.EMBEDDING_MODEL
    {
      match countFault
      case None => Stats(|collection|, Config.COLLECTION_NAME, Config.EMBEDDING_MODEL)
      case Some(e) => StatsError(0, e)
    }

    /** `clear_collection`: deletes and recreates the collection. When deleting raises
        nothing changes; once the delete has happened the records are gone, even if
        recreating then raises. The error propagates to the caller. */
    method ClearCollection(fault: ClearFault) returns (raised: Option<string>)
      requires Valid()
      modifies this
      ensures Valid() && nextId == old(nextId)
      ensures raised.None? <==> fault.NoFault?
      ensures !fault.NoFault? ==> raised == Some(fault.message)
      ensures collection == if fault.DeleteFails? then old(collection) else []
    {
      match fault
      case DeleteFails(e) =>
        raised := Some(e);
      case RecreateFails(e) =>
        collection := [];
        raised := Some(e);
      case NoFault =>
        collection := [];
        raised := None;
    }
  }

  /** Once the collection is empty, a search finds nothing. */
  lemma EmptyCollectionFindsNothing(b: Backends, query: string, k: int)
    ensures StoreHits(b, query, k, []) == []
    ensures SearchResults(b, query, k, []) == []
  {
    var picked := InRange(b.nearest(b.embed(query), []), 0);
    assert picked == [];
  }
}
