/**
 * Building the vector database from a folder of PDFs (`DocumentEmbedder`).
 *
 * Reading and splitting one PDF is an oracle: the run receives, in the order
 * the folder enumeration yields the files, what `process_pdf` returned or
 * that it raised. The embedding model is a function from text to vector.
 */
module Embeddings {
  import opened Wrappers
  import opened Storage

  const DefaultChunkSize: int := 1000
  const DefaultChunkOverlap: int := 200
  const DefaultModelName: string := "all-MiniLM-L6-v2"

  /** The directory `create_faiss_db` creates, whatever database path it was given. */
  const FaissDbDir: Path := ["database", "faiss_db"]

  const NoChunksMessage: string := "No valid chunks were generated from the PDFs"

  /** What `process_pdf` did for one file: returned its chunks, or raised. */
  datatype PdfOutcome = Parsed(chunks: seq<Chunk>) | Raised(reason: string)

  /** The exceptions that escape `create_faiss_db`. */
  datatype IngestError =
    | NoValidChunks(message: string)  // the ValueError raised when nothing was collected
    | StorageFailed(cause: FsError)   // rmtree, mkdir or one of the two writes failed
    | RaggedEmbeddings                // numpy refuses embedding rows of different lengths

  /** The state of the file system after a run, and how the run ended. */
  datatype Run = Run(state: FsState, outcome: Outcome<IngestError>)

  function ChunksOf(o: PdfOutcome): seq<Chunk> {
    if o.Parsed? then o.chunks else []
  }

  /** `all_chunks` after the loop: each file's chunks in turn, nothing for a file that raised. */
  function Collect(outcomes: seq<PdfOutcome>): seq<Chunk> {
    if outcomes == [] then []
    else Collect(outcomes[..|outcomes| - 1]) + ChunksOf(outcomes[|outcomes| - 1])
  }

  /** `embed_documents` over the chunk texts: one vector per chunk, in chunk order. */
  function EmbedAll(embed: string -> Vector, chunks: seq<Chunk>): (vs: seq<Vector>)
    ensures |vs| == |chunks|
    ensures forall i :: 0 <= i < |chunks| ==> vs[i] == embed(chunks[i].pageContent)
  {
    seq(|chunks|, i requires 0 <= i < |chunks| => embed(chunks[i].pageContent))
  }

  /** Every row has the length of the first, so numpy can build a float32 matrix from them. */
  predicate Rectangular(vs: seq<Vector>) {
    forall i :: 0 <= i < |vs| ==> |vs[i]| == |vs[0]|
  }

  /** `faiss.write_index` and then `np.save`, both under the database path. */
  function StoreArtifacts(s: FsState, db: Path, index: Artifact, docs: Artifact): Run {
    match AfterWrite(s, IndexPath(db), index)
    case Failure(e) => Run(s, Fail(StorageFailed(e)))
    case Success(s1) =>
      match AfterWrite(s1, DocumentsPath(db), docs)
      case Failure(e) => Run(s1, Fail(StorageFailed(e)))
      case Success(s2) => Run(s2, Pass)
  }

  /** Embedding the chunks, building the flat L2 index over the vectors, and saving both. */
  function EmbedAndStore(s: FsState, db: Path, chunks: seq<Chunk>, embed: string -> Vector): Run
    requires chunks != []
  {
    var vectors := EmbedAll(embed, chunks);
    if !Rectangular(vectors) then Run(s, Fail(RaggedEmbeddings))
    else StoreArtifacts(s, db, IndexFile(|vectors[0]|, vectors), DocumentStore(chunks))
  }

  /**
   * An ingestion run into `db` that creates the directory `madeDir` before
   * writing. `create_faiss_db` as written passes the fixed `FaissDbDir`.
   */
  function IngestWith(s: FsState, db: Path, outcomes: seq<PdfOutcome>, embed: string -> Vector, madeDir: Path): Run {
    var cleared := if Exists(s, db) then AfterRemoveTree(s, db) else Success(s);
    match cleared
    case Failure(e) => Run(s, Fail(StorageFailed(e)))
    case Success(s1) =>
      var chunks := Collect(outcomes);
      if chunks == [] then Run(s1, Fail(NoValidChunks(NoChunksMessage)))
      else
        match AfterMakeDirs(s1, madeDir)
        case Failure(e) => Run(s1, Fail(StorageFailed(e)))
        case Success(s2) => EmbedAndStore(s2, db, chunks, embed)
  }

  /** `create_faiss_db` as written. */
  function Ingest(s: FsState, db: Path, outcomes: seq<PdfOutcome>, embed: string -> Vector): Run {
    IngestWith(s, db, outcomes, embed, FaissDbDir)
  }

  /** `create_faiss_db` creating the database directory it writes into. */
  function IngestIntended(s: FsState, db: Path, outcomes: seq<PdfOutcome>, embed: string -> Vector): Run {
    IngestWith(s, db, outcomes, embed, db)
  }

  // ---------------------------------------------------------------------------
  // The chunks collected from the files

  /** Collecting over two runs of files is collecting over each in turn. */
  lemma {:induction false} CollectAppend(a: seq<PdfOutcome>, b: seq<PdfOutcome>)
    ensures Collect(a + b) == Collect(a) + Collect(b)
    decreases |b|
  {
    if b != [] {
      var b' := b[..|b| - 1];
      assert (a + b)[..|a + b| - 1] == a + b';
      CollectAppend(a, b');
    } else {
      assert a + b == a;
    }
  }

  /** A single file contributes its own chunks. */
  lemma CollectOne(o: PdfOutcome)
    ensures Collect([o]) == ChunksOf(o)
  {
    assert [o][..0] == [];
  }

  /** A file whose processing raised contributes no chunks and the files after it are still collected. */
  lemma FailedFileContributesNothing(before: seq<PdfOutcome>, reason: string, after: seq<PdfOutcome>)
    ensures Collect(before + [Raised(reason)] + after) == Collect(before) + Collect(after)
  {
    CollectAppend(before + [Raised(reason)], after);
    CollectAppend(before, [Raised(reason)]);
    CollectOne(Raised(reason));
  }

  /** The chunks of file `i` sit together, after those of every earlier file and before those of every later one. */
  lemma {:induction false} CollectPlacesFileChunks(outcomes: seq<PdfOutcome>, i: nat)
    requires i < |outcomes|
    ensures Collect(outcomes) == Collect(outcomes[..i]) + ChunksOf(outcomes[i]) + Collect(outcomes[i + 1..])
  {
    var before, o, after := outcomes[..i], outcomes[i], outcomes[i + 1..];
    assert outcomes == (before + [o]) + after;
    CollectAppend(before + [o], after);
    assert Collect(outcomes) == Collect(before + [o]) + Collect(after);
    CollectAppend(before, [o]);
    CollectOne(o);
  }

  /** A chunk is collected exactly when some file that succeeded produced it. */
  lemma {:induction false} CollectMembership(outcomes: seq<PdfOutcome>, c: Chunk)
    ensures c in Collect(outcomes) <==> exists i :: 0 <= i < |outcomes| && outcomes[i].Parsed? && c in outcomes[i].chunks
  {
    if outcomes != [] {
      var init := outcomes[..|outcomes| - 1];
      CollectMembership(init, c);
      assert forall i :: 0 <= i < |init| ==> init[i] == outcomes[i];
    }
  }

  /** Nothing is collected exactly when every file raised or produced no chunks (no files at all included). */
  lemma {:induction false} CollectEmptyIff(outcomes: seq<PdfOutcome>)
    ensures Collect(outcomes) == [] <==> forall i :: 0 <= i < |outcomes| ==> outcomes[i].Raised? || outcomes[i].chunks == []
  {
    if outcomes != [] {
      var init := outcomes[..|outcomes| - 1];
      CollectEmptyIff(init);
      assert forall i :: 0 <= i < |init| ==> init[i] == outcomes[i];
    }
  }

  // ---------------------------------------------------------------------------
  // What a run does to the file system

  /** The changes a run may make, in the order it makes them; a run performs a prefix of these. */
  function PlannedOps(s: FsState, db: Path, madeDir: Path): seq<FsOp> {
    (if Exists(s, db) then [Removed(db)] else [])
      + [MadeDir(madeDir), Wrote(IndexPath(db)), Wrote(DocumentsPath(db))]
  }

  /**
   * Ordering: an existing database is removed before anything else happens,
   * the directory is made before the index is written, and the index is
   * written before the documents; a run succeeds exactly when it made all
   * of these changes.
   */
  lemma IngestOrder(s: FsState, db: Path, outcomes: seq<PdfOutcome>, embed: string -> Vector, madeDir: Path)
    ensures var r := IngestWith(s, db, outcomes, embed, madeDir);
      exists n :: 0 <= n <= |PlannedOps(s, db, madeDir)| && r.state.trace == s.trace + PlannedOps(s, db, madeDir)[..n]
        && (r.outcome == Pass <==> n == |PlannedOps(s, db, madeDir)|)
  {
    var n := IngestProgress(s, db, outcomes, embed, madeDir);
  }

  /** How many of the planned changes a run made. */
  lemma IngestProgress(s: FsState, db: Path, outcomes: seq<PdfOutcome>, embed: string -> Vector, madeDir: Path)
    returns (n: nat)
    ensures var r := IngestWith(s, db, outcomes, embed, madeDir);
      var ops := PlannedOps(s, db, madeDir);
      n <= |ops| && r.state.trace == s.trace + ops[..n] && (r.outcome == Pass <==> n == |ops|)
  {
    var ops := PlannedOps(s, db, madeDir);
    var removed := if Exists(s, db) then [Removed(db)] else [];
    var k := |removed|;
    var writes := [Wrote(IndexPath(db)), Wrote(DocumentsPath(db))];
    assert ops == removed + [MadeDir(madeDir)] + writes;
    var cleared := if Exists(s, db) then AfterRemoveTree(s, db) else Success(s);
    if cleared.Failure? {
      n := 0;
    } else if Collect(outcomes) == [] {
      n := k;
      assert cleared.value.trace == s.trace + removed;
      assert ops[..k] == removed;
    } else if AfterMakeDirs(cleared.value, madeDir).Failure? {
      n := k;
      assert cleared.value.trace == s.trace + removed;
      assert ops[..k] == removed;
    } else {
      var s2 := AfterMakeDirs(cleared.value, madeDir).value;
      assert s2.trace == s.trace + removed + [MadeDir(madeDir)];
      var m := StoreOrder(s2, db, Collect(outcomes), embed);
      n := k + 1 + m;
      assert ops[..n] == removed + [MadeDir(madeDir)] + writes[..m];
    }
  }

  /** The two writes happen in order, and embedding and storing passes exactly when both were made. */
  lemma StoreOrder(s: FsState, db: Path, chunks: seq<Chunk>, embed: string -> Vector) returns (n: nat)
    requires chunks != []
    ensures var r := EmbedAndStore(s, db, chunks, embed);
      n <= 2 && r.state.trace == s.trace + [Wrote(IndexPath(db)), Wrote(DocumentsPath(db))][..n]
      && (r.outcome == Pass <==> n == 2)
  {
    var writes := [Wrote(IndexPath(db)), Wrote(DocumentsPath(db))];
    var vectors := EmbedAll(embed, chunks);
    if !Rectangular(vectors) {
      n := 0;
    } else {
      var index := IndexFile(|vectors[0]|, vectors);
      match AfterWrite(s, IndexPath(db), index)
      case Failure(_) =>
        n := 0;
      case Success(s1) =>
        if AfterWrite(s1, DocumentsPath(db), DocumentStore(chunks)).Failure? {
          n := 1;
        } else {
          n := 2;
          assert s1.trace + [Wrote(DocumentsPath(db))] == s.trace + writes;
        }
    }
  }

  /** In a well-formed tree nothing lies below a path that does not exist. */
  lemma {:induction false} NothingBelowMissing(s: FsState, dir: Path, q: Path)
    requires Valid(s) && !Exists(s, dir) && Within(dir, q)
    ensures !Exists(s, q)
    decreases |q|
  {
    if q != dir {
      var parent: Path := q[..|q| - 1];
      assert Within(dir, parent);
      NothingBelowMissing(s, dir, parent);
    }
  }

  /** After the clearing step nothing is left at or below the database path. */
  lemma ClearedLeavesNothingBelow(s: FsState, db: Path, q: Path)
    requires Valid(s) && Exists(s, db) ==> AfterRemoveTree(s, db).Success?
    requires Valid(s) && Within(db, q)
    ensures var s1 := if Exists(s, db) then AfterRemoveTree(s, db).value else s;
      !Exists(s1, q)
  {
    if !Exists(s, db) {
      NothingBelowMissing(s, db, q);
    }
  }

  /**
   * A run that ends in the empty-chunks error leaves no database at all:
   * the old one was deleted first and nothing new was written. The error is
   * raised exactly when no chunks were collected and the clearing succeeded.
   */
  lemma EmptyRunLeavesNoDatabase(s: FsState, db: Path, outcomes: seq<PdfOutcome>, embed: string -> Vector, madeDir: Path)
    requires Valid(s)
    ensures var r := IngestWith(s, db, outcomes, embed, madeDir);
      (r.outcome == Fail(NoValidChunks(NoChunksMessage)) <==> Collect(outcomes) == [] && db !in s.files)
      && (r.outcome == Fail(NoValidChunks(NoChunksMessage)) ==>
            (forall q: Path :: Within(db, q) ==> !Exists(r.state, q))
            && (forall q: Path :: q in r.state.files <==> q in s.files && !Within(db, q)))
  {
    var r := IngestWith(s, db, outcomes, embed, madeDir);
    if r.outcome == Fail(NoValidChunks(NoChunksMessage)) {
      forall q: Path | Within(db, q) ensures !Exists(r.state, q) {
        ClearedLeavesNothingBelow(s, db, q);
      }
    }
  }

  /**
   * Whatever step fails after the old database was cleared (no chunks, the
   * directory creation, ragged embeddings, either write), the run leaves no
   * document store at the database path: the old one is gone and no new one
   * was written.
   */
  lemma FailedRunLeavesNoDocuments(s: FsState, db: Path, outcomes: seq<PdfOutcome>, embed: string -> Vector, madeDir: Path)
    requires Valid(s)
    ensures var r := IngestWith(s, db, outcomes, embed, madeDir);
      r.outcome.Fail? ==> DocumentsPath(db) !in r.state.files
  {
    var r := IngestWith(s, db, outcomes, embed, madeDir);
    var docs := DocumentsPath(db);
    assert docs[..|docs| - 1] == db;
    if Exists(s, db) && AfterRemoveTree(s, db).Failure? {
      assert db in s.files && r.state == s;
    } else {
      ClearedLeavesNothingBelow(s, db, docs);
      assert IndexPath(db) != docs by {
        assert IndexPath(db)[|db|] != docs[|db|];
      }
    }
  }

  /**
   * As written, rebuilding an existing database at any path other than
   * `database/faiss_db` or `database` fails and leaves nothing of the old
   * database behind: it was deleted, and nothing is recreated or written
   * below the path.
   */
  lemma AsWrittenLosesOldDatabase(s: FsState, db: Path, outcomes: seq<PdfOutcome>, embed: string -> Vector)
    requires Valid(s) && db in s.dirs && !(db <= FaissDbDir)
    ensures var r := Ingest(s, db, outcomes, embed);
      r.outcome.Fail? && forall q: Path :: Within(db, q) ==> !Exists(r.state, q)
  {
    var r := Ingest(s, db, outcomes, embed);
    AsWrittenSucceedsOnlyAtFaissDbDir(s, db, outcomes, embed);
    var s1 := AfterRemoveTree(s, db).value;
    forall q: Path | Within(db, q) ensures !Exists(r.state, q) {
      ClearedLeavesNothingBelow(s, db, q);
      assert !(q <= FaissDbDir) by {
        assert q[..|db|] == db;
      }
      if Collect(outcomes) != [] && AfterMakeDirs(s1, FaissDbDir).Success? {
        var s2 := AfterMakeDirs(s1, FaissDbDir).value;
        assert db !in s2.dirs;
        assert IndexPath(db)[..|db|] == db;
        assert !ParentIsDir(s2, IndexPath(db));
        assert r.state == s2;
      }
    }
  }

  /**
   * A successful run stores one vector per saved chunk: vector i is the
   * embedding of chunk i's text, the index dimension is the length of the
   * first embedding, and the saved chunks are exactly those collected.
   */
  lemma SuccessfulRunStoresAlignedArtifacts(s: FsState, db: Path, outcomes: seq<PdfOutcome>, embed: string -> Vector, madeDir: Path)
    ensures var r := IngestWith(s, db, outcomes, embed, madeDir);
      var chunks := Collect(outcomes);
      r.outcome == Pass ==>
        chunks != []
        && IndexPath(db) in r.state.files && DocumentsPath(db) in r.state.files
        && r.state.files[DocumentsPath(db)] == DocumentStore(chunks)
        && r.state.files[IndexPath(db)].IndexFile?
        && r.state.files[IndexPath(db)].dimension == |embed(chunks[0].pageContent)|
        && |r.state.files[IndexPath(db)].vectors| == |chunks|
        && (forall i :: 0 <= i < |chunks| ==>
              r.state.files[IndexPath(db)].vectors[i] == embed(chunks[i].pageContent)
              && |r.state.files[IndexPath(db)].vectors[i]| == r.state.files[IndexPath(db)].dimension)
  {
    var r := IngestWith(s, db, outcomes, embed, madeDir);
    if r.outcome == Pass {
      assert IndexPath(db) != DocumentsPath(db) by {
        assert IndexPath(db)[|db|] != DocumentsPath(db)[|db|];
      }
    }
  }

  /** After a successful run the only files at or below the database path are the two new artifacts. */
  lemma SuccessfulRunLeavesNoStaleFiles(s: FsState, db: Path, outcomes: seq<PdfOutcome>, embed: string -> Vector, madeDir: Path)
    requires Valid(s)
    ensures var r := IngestWith(s, db, outcomes, embed, madeDir);
      r.outcome == Pass ==>
        forall q: Path :: q in r.state.files && Within(db, q) ==> q == IndexPath(db) || q == DocumentsPath(db)
  {
    var r := IngestWith(s, db, outcomes, embed, madeDir);
    if r.outcome == Pass {
      forall q: Path | q in r.state.files && Within(db, q)
        ensures q == IndexPath(db) || q == DocumentsPath(db)
      {
        ClearedLeavesNothingBelow(s, db, q);
      }
    }
  }

  /**
   * The directories after `create_faiss_db` are old ones or `database/faiss_db`
   * and its parent, whatever the database path; after a passing run
   * `database/faiss_db` exists.
   */
  lemma OnlyFaissDbDirIsCreated(s: FsState, db: Path, outcomes: seq<PdfOutcome>, embed: string -> Vector)
    ensures forall d: Path :: d in Ingest(s, db, outcomes, embed).state.dirs ==> d in s.dirs || d <= FaissDbDir
    ensures Ingest(s, db, outcomes, embed).outcome == Pass ==> FaissDbDir in Ingest(s, db, outcomes, embed).state.dirs
  {
  }

  /**
   * As written, a run can only succeed when the database path is
   * `database/faiss_db` or `database`: the old database is deleted and only
   * the fixed directory is recreated, so writing under any other path fails.
   */
  lemma AsWrittenSucceedsOnlyAtFaissDbDir(s: FsState, db: Path, outcomes: seq<PdfOutcome>, embed: string -> Vector)
    ensures Ingest(s, db, outcomes, embed).outcome == Pass ==> db <= FaissDbDir
  {
    var r := Ingest(s, db, outcomes, embed);
    if r.outcome == Pass {
      var s1 := if Exists(s, db) then AfterRemoveTree(s, db).value else s;
      assert db !in s1.dirs;
    }
  }

  /** A concrete run: one PDF with one chunk, database path "my_db"; the index write fails for lack of its directory. */
  lemma AsWrittenFailsForOtherDbPath(embed: string -> Vector)
    ensures Ingest(FsState({}, map[], []), ["my_db"], [Parsed([Chunk("text", map[])])], embed).outcome
         == Fail(StorageFailed(NoSuchFileOrDirectory(["my_db", "index.faiss"])))
  {
    var outcomes := [Parsed([Chunk("text", map[])])];
    var s: FsState := FsState({}, map[], []);
    var db: Path := ["my_db"];
    CollectOne(outcomes[0]);
    assert Collect(outcomes) == [Chunk("text", map[])];
    assert ["database"][0] != ["my_db"][0];
    assert !Exists(s, db);
    var s2 := AfterMakeDirs(s, FaissDbDir).value;
    assert db !in s2.dirs;
    assert !ParentIsDir(s2, IndexPath(db));
    var vectors := EmbedAll(embed, Collect(outcomes));
    assert Rectangular(vectors);
    assert AfterWrite(s2, IndexPath(db), IndexFile(|vectors[0]|, vectors)) == Failure(NoSuchFileOrDirectory(IndexPath(db)));
    assert StoreArtifacts(s2, db, IndexFile(|vectors[0]|, vectors), DocumentStore(Collect(outcomes))).outcome
        == Fail(StorageFailed(NoSuchFileOrDirectory(IndexPath(db))));
    assert IngestWith(s, db, outcomes, embed, FaissDbDir).outcome == Fail(StorageFailed(NoSuchFileOrDirectory(IndexPath(db))));
    assert IndexPath(db) == ["my_db", "index.faiss"];
  }

  /**
   * Creating the database directory itself, a run succeeds whenever some
   * chunks were collected, the embeddings have one length and no file stands
   * at the database path or any directory above it.
   */
  lemma IntendedIngestSucceeds(s: FsState, db: Path, outcomes: seq<PdfOutcome>, embed: string -> Vector)
    requires Valid(s)
    requires Collect(outcomes) != [] && Rectangular(EmbedAll(embed, Collect(outcomes)))
    requires forall q: Path :: q <= db ==> q !in s.files
    ensures IngestIntended(s, db, outcomes, embed).outcome == Pass
  {
    var s1 := if Exists(s, db) then AfterRemoveTree(s, db).value else s;
    ClearedLeavesNothingBelow(s, db, IndexPath(db));
    ClearedLeavesNothingBelow(s, db, DocumentsPath(db));
    assert IndexPath(db) != DocumentsPath(db) by {
      assert IndexPath(db)[|db|] != DocumentsPath(db)[|db|];
    }
    var s2 := AfterMakeDirs(s1, db).value;
    assert !(IndexPath(db) <= db) && !(DocumentsPath(db) <= db);
    assert IndexPath(db)[..|db|] == db && DocumentsPath(db)[..|db|] == db;
  }

  class DocumentEmbedder {
    const chunkSize: int
    const chunkOverlap: int
    const modelName: string
    /** The HuggingFace model loaded for `modelName`, as a function from text to vector. */
    const embed: string -> Vector

    /** `DocumentEmbedder()` with the default chunk size, overlap and model name; `embed` is that model. */
    constructor Default(embed: string -> Vector)
      ensures chunkSize == 1000 && chunkOverlap == 200 && modelName == "all-MiniLM-L6-v2" && this.embed == embed
    {
      chunkSize := DefaultChunkSize;
      chunkOverlap := DefaultChunkOverlap;
      modelName := DefaultModelName;
      this.embed := embed;
    }

    constructor (chunkSize: int, chunkOverlap: int, modelName: string, embed: string -> Vector)
      ensures this.chunkSize == chunkSize && this.chunkOverlap == chunkOverlap
      ensures this.modelName == modelName && this.embed == embed
    {
      this.chunkSize := chunkSize;
      this.chunkOverlap := chunkOverlap;
      this.modelName := modelName;
      this.embed := embed;
    }

    /**
     * `create_faiss_db`: delete any database at `dbPath`, collect the chunks
     * of the PDFs that process without raising, refuse an empty collection,
     * create `database/faiss_db`, embed the chunks and write the index and
     * then the documents under `dbPath`.
     */
    method CreateFaissDb(fs: FileSystem, pdfOutcomes: seq<PdfOutcome>, dbPath: Path) returns (r: Outcome<IngestError>)
      modifies fs
      ensures Run(fs.State(), r) == Ingest(old(fs.State()), dbPath, pdfOutcomes, embed)
    {
      if Exists(fs.State(), dbPath) {
        var removed := fs.RemoveTree(dbPath);
        if removed.Fail? {
          return Fail(StorageFailed(removed.error));
        }
      }

      var allChunks: seq<Chunk> := [];
      for i := 0 to |pdfOutcomes|
        invariant allChunks == Collect(pdfOutcomes[..i])
      {
        assert pdfOutcomes[..i + 1][..i] == pdfOutcomes[..i];
        match pdfOutcomes[i]
        case Parsed(chunks) =>
          allChunks := allChunks + chunks;
        case Raised(_) =>
      }
      assert pdfOutcomes[..|pdfOutcomes|] == pdfOutcomes;

      if allChunks == [] {
        return Fail(NoValidChunks(NoChunksMessage));
      }

      var made := fs.MakeDirs(FaissDbDir);
      if made.Fail? {
        return Fail(StorageFailed(made.error));
      }

      var texts := seq(|allChunks|, i requires 0 <= i < |allChunks| => allChunks[i].pageContent);
      var embeddings := seq(|texts|, i requires 0 <= i < |texts| => embed(texts[i]));
      if !Rectangular(embeddings) {
        return Fail(RaggedEmbeddings);
      }
      assert embeddings == EmbedAll(embed, allChunks);
      var dimension := |embeddings[0]|;

      var wroteIndex := fs.Write(IndexPath(dbPath), IndexFile(dimension, embeddings));
      if wroteIndex.Fail? {
        return Fail(StorageFailed(wroteIndex.error));
      }
      var wroteDocs := fs.Write(DocumentsPath(dbPath), DocumentStore(allChunks));
      if wroteDocs.Fail? {
        return Fail(StorageFailed(wroteDocs.error));
      }
      r := Pass;
    }
  }
}
