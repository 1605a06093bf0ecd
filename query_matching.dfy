/**
 * Answering a query against a stored database (`QueryMatcher`).
 *
 * The embedding model is a function from text to vector and the FAISS search
 * is an oracle: given the stored vectors, the query vector and `k`, it returns
 * one row of distances and one row of positions, or raises.
 */
module QueryMatching {
  import opened Wrappers
  import opened Text
  import opened Storage
  import Embeddings

  const DefaultK: int := 5
  const FailurePrefix: string := "Failed to match query: "

  /** What `index.search` did for the single query row. */
  datatype SearchOutcome = Searched(distances: seq<real>, indices: seq<int>) | SearchRaised(reason: string)

  /** The only exception `match_query` lets escape. */
  datatype QueryError = RuntimeError(message: string)

  /** Why the body of `match_query` raised, before the wrapping. */
  datatype Cause =
    | IndexNotFound(path: Path)
    | DocumentStoreNotFound(path: Path)
    | UnreadableIndex(path: Path)
    | UnreadableDocuments(path: Path)
    | SearchFailed(reason: string)
    | IndexOutOfBounds(index: int, size: nat)

  /** A result entry: the chunk text and its score. */
  type Scored = (string, real)

  /** A path written with "/" between its components. */
  function PathString(p: Path): string {
    if |p| == 1 then p[0] else PathString(p[..|p| - 1]) + "/" + p[|p| - 1]
  }

  function CauseMessage(c: Cause): string {
    match c
    case IndexNotFound(p) => "FAISS index not found at " + PathString(p)
    case DocumentStoreNotFound(p) => "Document store not found at " + PathString(p)
    case UnreadableIndex(p) => "could not read " + PathString(p)
    case UnreadableDocuments(p) => "could not read " + PathString(p)
    case SearchFailed(reason) => reason
    case IndexOutOfBounds(i, n) => "index " + IntToDecimal(i) + " is out of bounds for axis 0 with size " + IntToDecimal(n)
  }

  /** The `except` clause: every failure becomes `RuntimeError("Failed to match query: ...")`. */
  function Wrap(c: Cause): QueryError {
    RuntimeError(FailurePrefix + CauseMessage(c))
  }

  /** numpy indexing of the loaded document array: a negative position counts from the end. */
  function DocAt(docs: seq<Chunk>, i: int): (r: Option<Chunk>)
    ensures r.Some? <==> -|docs| <= i < |docs|
    ensures 0 <= i < |docs| ==> r == Some(docs[i])
    ensures -|docs| <= i < 0 ==> r == Some(docs[|docs| + i])
  {
    if 0 <= i < |docs| then Some(docs[i])
    else if -|docs| <= i < 0 then Some(docs[|docs| + i])
    else None
  }

  /** `zip(indices[0], distances[0])`: pairs up to the shorter row. */
  function Zip(indices: seq<int>, distances: seq<real>): (pairs: seq<(int, real)>)
    ensures |pairs| <= |indices| && |pairs| <= |distances|
    ensures |pairs| == |indices| || |pairs| == |distances|
    ensures forall j :: 0 <= j < |pairs| ==> pairs[j] == (indices[j], distances[j])
  {
    var n := if |indices| < |distances| then |indices| else |distances|;
    seq(n, j requires 0 <= j < n => (indices[j], distances[j]))
  }

  /** The loop over the pairs: keep a pair when `idx < len(stored_docs)` and score it `1 - dist`. */
  function Assemble(pairs: seq<(int, real)>, docs: seq<Chunk>): Result<seq<Scored>, Cause> {
    if pairs == [] then Success([])
    else
      match Assemble(pairs[..|pairs| - 1], docs)
      case Failure(c) => Failure(c)
      case Success(acc) =>
        var (idx, dist) := pairs[|pairs| - 1];
        if idx < |docs| then
          match DocAt(docs, idx)
          case None => Failure(IndexOutOfBounds(idx, |docs|))
          case Some(d) => Success(acc + [(d.pageContent, 1.0 - dist)])
        else Success(acc)
  }

  /** One turn of the loop, for the last pair. */
  lemma AssembleStep(pairs: seq<(int, real)>, docs: seq<Chunk>)
    requires pairs != []
    ensures var (idx, dist) := pairs[|pairs| - 1];
      Assemble(pairs, docs)
        == match Assemble(pairs[..|pairs| - 1], docs)
           case Failure(c) => Failure(c)
           case Success(acc) =>
             if idx >= |docs| then Success(acc)
             else if idx < -|docs| then Failure(IndexOutOfBounds(idx, |docs|))
             else Success(acc + [(DocAt(docs, idx).value.pageContent, 1.0 - dist)])
  {
  }

  /** The pairs the guard `idx < len(stored_docs)` lets through, in search order (a reference filter). */
  function KeptPairs(pairs: seq<(int, real)>, size: nat): (kept: seq<(int, real)>)
    ensures |kept| <= |pairs|
    ensures forall p :: p in kept <==> p in pairs && p.0 < size
  {
    if pairs == [] then []
    else
      var last := pairs[|pairs| - 1];
      KeptPairs(pairs[..|pairs| - 1], size) + (if last.0 < size then [last] else [])
  }

  /** The two existence checks and loads, in the order `match_query` makes them: the stored vectors and chunks. */
  function LoadCorpus(s: FsState, db: Path): Result<(seq<Vector>, seq<Chunk>), Cause> {
    var indexPath := IndexPath(db);
    if !Exists(s, indexPath) then Failure(IndexNotFound(indexPath))
    else if indexPath !in s.files || !s.files[indexPath].IndexFile? then Failure(UnreadableIndex(indexPath))
    else
      var docsPath := DocumentsPath(db);
      if !Exists(s, docsPath) then Failure(DocumentStoreNotFound(docsPath))
      else if docsPath !in s.files || !s.files[docsPath].DocumentStore? then Failure(UnreadableDocuments(docsPath))
      else Success((s.files[indexPath].vectors, s.files[docsPath].docs))
  }

  /** The body of `match_query`, inside its `try`. */
  function MatchBody(s: FsState, db: Path, query: string, embedQuery: string -> Vector, k: int,
                     search: (seq<Vector>, Vector, int) -> SearchOutcome): Result<seq<Scored>, Cause>
  {
    match LoadCorpus(s, db)
    case Failure(c) => Failure(c)
    case Success((vectors, docs)) =>
      match search(vectors, embedQuery(query), k)
      case SearchRaised(reason) => Failure(SearchFailed(reason))
      case Searched(distances, indices) => Assemble(Zip(indices, distances), docs)
  }

  /** `match_query`: the body with every failure wrapped. */
  function Match(s: FsState, db: Path, query: string, embedQuery: string -> Vector, k: int,
                 search: (seq<Vector>, Vector, int) -> SearchOutcome): Result<seq<Scored>, QueryError>
  {
    match MatchBody(s, db, query, embedQuery, k, search)
    case Success(r) => Success(r)
    case Failure(c) => Failure(Wrap(c))
  }

  // ---------------------------------------------------------------------------
  // The assembly loop

  /** Once a prefix of the pairs has raised, the whole loop raises the same way. */
  lemma {:induction false} AssembleFailureSticks(pairs: seq<(int, real)>, i: nat, docs: seq<Chunk>)
    requires i <= |pairs| && Assemble(pairs[..i], docs).Failure?
    ensures Assemble(pairs, docs) == Assemble(pairs[..i], docs)
    decreases |pairs| - i
  {
    if i < |pairs| {
      var init := pairs[..|pairs| - 1];
      assert init[..i] == pairs[..i];
      AssembleFailureSticks(init, i, docs);
    } else {
      assert pairs[..i] == pairs;
    }
  }

  /** The loop raises exactly when some position passes the guard but lies below `-len(stored_docs)`. */
  lemma {:induction false} AssembleFailsIffBelowRange(pairs: seq<(int, real)>, docs: seq<Chunk>)
    ensures Assemble(pairs, docs).Failure? <==> exists j :: 0 <= j < |pairs| && pairs[j].0 < -|docs|
  {
    if pairs != [] {
      var init, last := pairs[..|pairs| - 1], pairs[|pairs| - 1];
      AssembleFailsIffBelowRange(init, docs);
      if Assemble(init, docs).Failure? {
        var j :| 0 <= j < |init| && init[j].0 < -|docs|;
        assert pairs[j] == init[j];
      } else {
        forall j | 0 <= j < |pairs| - 1 ensures pairs[j].0 >= -|docs| {
          assert pairs[j] == init[j];
        }
      }
    }
  }

  /** Result `s` is pair `p` scored: the chunk numpy finds at the position, and `1 - dist`. */
  predicate ScoredFrom(docs: seq<Chunk>, p: (int, real), s: Scored) {
    DocAt(docs, p.0).Some? && s == (DocAt(docs, p.0).value.pageContent, 1.0 - p.1)
  }

  /**
   * When the loop does not raise, its results are the kept pairs in search
   * order, each scored as the chunk numpy finds at its position and `1 - dist`.
   */
  lemma {:induction false} AssembleScoresKeptPairs(pairs: seq<(int, real)>, docs: seq<Chunk>)
    requires Assemble(pairs, docs).Success?
    ensures var r := Assemble(pairs, docs).value;
      var kept := KeptPairs(pairs, |docs|);
      |r| == |kept| && forall j :: 0 <= j < |r| ==> ScoredFrom(docs, kept[j], r[j])
  {
    if pairs != [] {
      var init, last := pairs[..|pairs| - 1], pairs[|pairs| - 1];
      AssembleStep(pairs, docs);
      assert Assemble(init, docs).Success?;
      AssembleScoresKeptPairs(init, docs);
      var acc, keptInit := Assemble(init, docs).value, KeptPairs(init, |docs|);
      if last.0 < |docs| {
        var s := (DocAt(docs, last.0).value.pageContent, 1.0 - last.1);
        assert Assemble(pairs, docs).value == acc + [s];
        assert KeptPairs(pairs, |docs|) == keptInit + [last];
        ScoredAppend(docs, keptInit, acc, last, s);
      } else {
        assert Assemble(pairs, docs).value == acc;
        assert KeptPairs(pairs, |docs|) == keptInit;
      }
    }
  }

  /** Appending a scored pair to pointwise-scored sequences keeps them pointwise scored. */
  lemma ScoredAppend(docs: seq<Chunk>, kept: seq<(int, real)>, r: seq<Scored>, p: (int, real), s: Scored)
    requires |r| == |kept| && forall j :: 0 <= j < |r| ==> ScoredFrom(docs, kept[j], r[j])
    requires ScoredFrom(docs, p, s)
    ensures forall j :: 0 <= j < |r| + 1 ==> ScoredFrom(docs, (kept + [p])[j], (r + [s])[j])
  {
    forall j | 0 <= j < |r| + 1 ensures ScoredFrom(docs, (kept + [p])[j], (r + [s])[j]) {
      if j < |r| {
        assert (kept + [p])[j] == kept[j] && (r + [s])[j] == r[j];
      }
    }
  }

  /**
   * When every returned position points into the document array, the loop
   * does not raise and scores every pair, in search order, as the chunk at
   * its position.
   */
  lemma {:induction false} AssembleAllInRange(pairs: seq<(int, real)>, docs: seq<Chunk>)
    requires forall j :: 0 <= j < |pairs| ==> 0 <= pairs[j].0 < |docs|
    ensures Assemble(pairs, docs).Success?
    ensures |Assemble(pairs, docs).value| == |pairs|
    ensures forall j :: 0 <= j < |pairs| ==>
      Assemble(pairs, docs).value[j] == (docs[pairs[j].0].pageContent, 1.0 - pairs[j].1)
  {
    if pairs != [] {
      var init, last := pairs[..|pairs| - 1], pairs[|pairs| - 1];
      assert forall j :: 0 <= j < |init| ==> init[j] == pairs[j];
      AssembleAllInRange(init, docs);
      var acc := Assemble(init, docs).value;
      assert DocAt(docs, last.0) == Some(docs[last.0]);
      assert Assemble(pairs, docs).value == acc + [(docs[last.0].pageContent, 1.0 - last.1)];
    }
  }

  /** The number of results never exceeds the number of pairs the search returned. */
  lemma AssembleLength(pairs: seq<(int, real)>, docs: seq<Chunk>)
    ensures Assemble(pairs, docs).Success? ==> |Assemble(pairs, docs).value| <= |pairs|
  {
    if Assemble(pairs, docs).Success? {
      AssembleScoresKeptPairs(pairs, docs);
    }
  }

  /**
   * The guard has no lower bound: with three chunks, the padding position -1
   * that FAISS returns when `k` exceeds the index size is kept and scored as
   * the last chunk.
   */
  lemma PaddingPositionRepeatsLastChunk(a: Chunk, b: Chunk, c: Chunk, padding: real)
    ensures Assemble([(0, 0.0), (-1, padding)], [a, b, c]) == Success([(a.pageContent, 1.0), (c.pageContent, 1.0 - padding)])
  {
    var pairs := [(0, 0.0), (-1, padding)];
    var first := [(0, 0.0)];
    var docs := [a, b, c];
    assert pairs[..1] == first;
    assert first[..0] == [];
    assert Assemble(first[..0], docs) == Success([]);
    AssembleStep(first, docs);
    assert first[0] == (0, 0.0) && DocAt(docs, 0) == Some(a);
    assert Assemble(first, docs) == Success([] + [(a.pageContent, 1.0 - 0.0)]);
    assert [] + [(a.pageContent, 1.0 - 0.0)] == [(a.pageContent, 1.0)];
    AssembleStep(pairs, docs);
    assert pairs[|pairs| - 1] == (-1, padding) && DocAt(docs, -1) == Some(c);
    assert Assemble(pairs, docs) == Success([(a.pageContent, 1.0)] + [(c.pageContent, 1.0 - padding)]);
    assert [(a.pageContent, 1.0)] + [(c.pageContent, 1.0 - padding)] == [(a.pageContent, 1.0), (c.pageContent, 1.0 - padding)];
  }

  // ---------------------------------------------------------------------------
  // The assembly with the evidently intended guard `0 <= idx < len(stored_docs)`

  function AssembleIntended(pairs: seq<(int, real)>, docs: seq<Chunk>): seq<Scored> {
    if pairs == [] then []
    else
      var (idx, dist) := pairs[|pairs| - 1];
      AssembleIntended(pairs[..|pairs| - 1], docs)
        + (if 0 <= idx < |docs| then [(docs[idx].pageContent, 1.0 - dist)] else [])
  }

  /** The positions of the pairs that point into the document array. */
  function InRange(pairs: seq<(int, real)>, size: nat): set<int> {
    set j | 0 <= j < |pairs| && 0 <= pairs[j].0 < size :: pairs[j].0
  }

  /**
   * No position that points into the document array is returned twice.
   * Out-of-range positions, such as the -1 padding FAISS repeats when `k`
   * exceeds the index size, may repeat.
   */
  predicate DistinctInRange(pairs: seq<(int, real)>, size: nat) {
    forall i, j :: 0 <= i < j < |pairs| && 0 <= pairs[i].0 < size ==> pairs[i].0 != pairs[j].0
  }

  /** The positions 0 to n - 1. */
  function Below(n: nat): (r: set<int>)
    ensures |r| == n
    ensures forall x :: x in r <==> 0 <= x < n
  {
    if n == 0 then {} else Below(n - 1) + {n - 1}
  }

  /** Every result of the corrected loop is the text of a stored chunk. */
  lemma {:induction false} IntendedAssemblyUsesStoredChunks(pairs: seq<(int, real)>, docs: seq<Chunk>)
    ensures var r := AssembleIntended(pairs, docs);
      |r| <= |pairs|
      && forall j :: 0 <= j < |r| ==> exists i :: 0 <= i < |docs| && r[j].0 == docs[i].pageContent
  {
    if pairs != [] {
      AssembleIntendedStep(pairs, docs);
      IntendedAssemblyUsesStoredChunks(pairs[..|pairs| - 1], docs);
    }
  }

  lemma AssembleIntendedStep(pairs: seq<(int, real)>, docs: seq<Chunk>)
    requires pairs != []
    ensures var (idx, dist) := pairs[|pairs| - 1];
      AssembleIntended(pairs, docs) == AssembleIntended(pairs[..|pairs| - 1], docs)
        + (if 0 <= idx < |docs| then [(docs[idx].pageContent, 1.0 - dist)] else [])
  {
  }

  /** Adding a pair adds its position to the in-range set exactly when it points into the array. */
  lemma InRangeStep(pairs: seq<(int, real)>, size: nat)
    requires pairs != []
    ensures var last := pairs[|pairs| - 1];
      InRange(pairs, size) == InRange(pairs[..|pairs| - 1], size) + (if 0 <= last.0 < size then {last.0} else {})
  {
    var init, last := pairs[..|pairs| - 1], pairs[|pairs| - 1];
    var extra: set<int> := if 0 <= last.0 < size then {last.0} else {};
    forall x | x in InRange(pairs, size) ensures x in InRange(init, size) + extra {
      var j :| 0 <= j < |pairs| && 0 <= pairs[j].0 < size && pairs[j].0 == x;
      if j < |init| { assert init[j] == pairs[j]; }
    }
    forall x | x in InRange(init, size) ensures x in InRange(pairs, size) {
      var j :| 0 <= j < |init| && 0 <= init[j].0 < size && init[j].0 == x;
      assert pairs[j] == init[j];
    }
  }

  /** There are no more in-range positions than positions in the array. */
  lemma InRangeBounded(pairs: seq<(int, real)>, size: nat)
    ensures |InRange(pairs, size)| <= size
  {
    var range := Below(size);
    assert InRange(pairs, size) <= range;
    assert range == InRange(pairs, size) + (range - InRange(pairs, size));
  }

  /**
   * When the search reports each stored position at most once (padding may
   * repeat), the corrected loop returns one result per distinct stored
   * position, so never more results than stored chunks.
   */
  lemma {:induction false} IntendedAssemblyCountsPositions(pairs: seq<(int, real)>, docs: seq<Chunk>)
    requires DistinctInRange(pairs, |docs|)
    ensures |AssembleIntended(pairs, docs)| == |InRange(pairs, |docs|)| <= |docs|
  {
    InRangeBounded(pairs, |docs|);
    if pairs != [] {
      var init, last := pairs[..|pairs| - 1], pairs[|pairs| - 1];
      assert DistinctInRange(init, |docs|) by {
        forall i, j | 0 <= i < j < |init| && 0 <= init[i].0 < |docs| ensures init[i].0 != init[j].0 {
          assert init[i] == pairs[i] && init[j] == pairs[j];
        }
      }
      IntendedAssemblyCountsPositions(init, docs);
      AssembleIntendedStep(pairs, docs);
      InRangeStep(pairs, |docs|);
      if 0 <= last.0 < |docs| {
        assert last.0 !in InRange(init, |docs|) by {
          forall j | 0 <= j < |init| && 0 <= init[j].0 < |docs| ensures init[j].0 != last.0 {
            assert init[j] == pairs[j];
          }
        }
      }
    }
  }

  /**
   * A search row padded twice over a three-chunk store: the corrected loop
   * drops both paddings and returns the one stored chunk found.
   */
  lemma RepeatedPaddingIsDropped(a: Chunk, b: Chunk, c: Chunk, d: real, padding: real)
    ensures DistinctInRange([(0, d), (-1, padding), (-1, padding)], 3)
    ensures AssembleIntended([(0, d), (-1, padding), (-1, padding)], [a, b, c]) == [(a.pageContent, 1.0 - d)]
  {
    var pairs := [(0, d), (-1, padding), (-1, padding)];
    var docs := [a, b, c];
    AssembleIntendedStep(pairs, docs);
    AssembleIntendedStep(pairs[..2], docs);
    AssembleIntendedStep(pairs[..1], docs);
    assert pairs[..2][..1] == pairs[..1] && pairs[..1][..0] == pairs[..0];
    assert AssembleIntended(pairs[..1], docs) == [(a.pageContent, 1.0 - d)];
  }

  /** The correction changes nothing when the search returns no negative position. */
  lemma {:induction false} IntendedAgreesOnNonNegativePositions(pairs: seq<(int, real)>, docs: seq<Chunk>)
    requires forall j :: 0 <= j < |pairs| ==> pairs[j].0 >= 0
    ensures Assemble(pairs, docs) == Success(AssembleIntended(pairs, docs))
  {
    if pairs != [] {
      var init := pairs[..|pairs| - 1];
      assert forall j :: 0 <= j < |init| ==> init[j] == pairs[j];
      AssembleIntendedStep(pairs, docs);
      AssembleStep(pairs, docs);
      IntendedAgreesOnNonNegativePositions(init, docs);
      var acc := AssembleIntended(init, docs);
      var last := pairs[|pairs| - 1];
      assert last == pairs[|pairs| - 1] && last.0 >= 0;
      if last.0 < |docs| {
        assert AssembleIntended(pairs, docs) == acc + [(docs[last.0].pageContent, 1.0 - last.1)];
        assert Assemble(pairs, docs) == Success(acc + [(docs[last.0].pageContent, 1.0 - last.1)]);
      } else {
        assert AssembleIntended(pairs, docs) == acc;
      }
    }
  }

  // ---------------------------------------------------------------------------
  // The whole query

  /** A missing index fails the call before the document store is looked at or the query embedded. */
  lemma MissingIndexFailsFirst(s: FsState, db: Path, query: string, embedQuery: string -> Vector, k: int,
                               search: (seq<Vector>, Vector, int) -> SearchOutcome)
    requires !Exists(s, IndexPath(db))
    ensures Match(s, db, query, embedQuery, k, search)
         == Failure(RuntimeError(FailurePrefix + "FAISS index not found at " + PathString(IndexPath(db))))
  {
    assert LoadCorpus(s, db) == Failure(IndexNotFound(IndexPath(db)));
    assert MatchBody(s, db, query, embedQuery, k, search) == Failure(IndexNotFound(IndexPath(db)));
    var p := PathString(IndexPath(db));
    assert FailurePrefix + ("FAISS index not found at " + p) == FailurePrefix + "FAISS index not found at " + p;
  }

  /** With a readable index, a missing document store fails the call before the query is embedded. */
  lemma MissingDocumentsFailBeforeEmbedding(s: FsState, db: Path, query: string, embedQuery: string -> Vector, k: int,
                                            search: (seq<Vector>, Vector, int) -> SearchOutcome)
    requires IndexPath(db) in s.files && s.files[IndexPath(db)].IndexFile?
    requires !Exists(s, DocumentsPath(db))
    ensures Match(s, db, query, embedQuery, k, search)
         == Failure(RuntimeError(FailurePrefix + "Document store not found at " + PathString(DocumentsPath(db))))
  {
    assert LoadCorpus(s, db) == Failure(DocumentStoreNotFound(DocumentsPath(db)));
    assert MatchBody(s, db, query, embedQuery, k, search) == Failure(DocumentStoreNotFound(DocumentsPath(db)));
    var p := PathString(DocumentsPath(db));
    assert FailurePrefix + ("Document store not found at " + p) == FailurePrefix + "Document store not found at " + p;
  }

  /** Every failure of the call is a RuntimeError whose message starts "Failed to match query: ". */
  lemma EveryFailureIsWrapped(s: FsState, db: Path, query: string, embedQuery: string -> Vector, k: int,
                              search: (seq<Vector>, Vector, int) -> SearchOutcome)
    ensures var r := Match(s, db, query, embedQuery, k, search);
      r.Failure? ==> |FailurePrefix| <= |r.error.message| && r.error.message[..|FailurePrefix|] == FailurePrefix
  {
  }

  /**
   * A successful call returned at most one result per pair the search
   * returned, so at most `k` when the search returns `k` pairs, each result
   * scoring its own pair in search order.
   */
  lemma ResultsComeFromSearchPairs(s: FsState, db: Path, query: string, embedQuery: string -> Vector, k: int,
                                   search: (seq<Vector>, Vector, int) -> SearchOutcome)
    ensures var r := Match(s, db, query, embedQuery, k, search);
      r.Success? ==>
        IndexPath(db) in s.files && s.files[IndexPath(db)].IndexFile?
        && DocumentsPath(db) in s.files && s.files[DocumentsPath(db)].DocumentStore?
        && var out := search(s.files[IndexPath(db)].vectors, embedQuery(query), k);
        out.Searched?
        && |r.value| <= |out.indices| && |r.value| <= |out.distances|
        && (|out.indices| == k ==> |r.value| <= k)
        && var docs := s.files[DocumentsPath(db)].docs;
        var kept := KeptPairs(Zip(out.indices, out.distances), |docs|);
        |r.value| == |kept|
        && forall j :: 0 <= j < |r.value| ==>
             DocAt(docs, kept[j].0).Some? && r.value[j] == (DocAt(docs, kept[j].0).value.pageContent, 1.0 - kept[j].1)
  {
    var r := Match(s, db, query, embedQuery, k, search);
    if r.Success? {
      var out := search(s.files[IndexPath(db)].vectors, embedQuery(query), k);
      var docs := s.files[DocumentsPath(db)].docs;
      AssembleScoresKeptPairs(Zip(out.indices, out.distances), docs);
    }
  }

  /**
   * Querying a database whose artifacts load: when the search returns only
   * positions of stored vectors, result j is the chunk the j-th position
   * names, scored `1 - dist`, one result per returned pair.
   */
  lemma QueryOnLoadedCorpus(s: FsState, db: Path, vectors: seq<Vector>, chunks: seq<Chunk>,
                            query: string, embedQuery: string -> Vector, k: int,
                            search: (seq<Vector>, Vector, int) -> SearchOutcome)
    requires LoadCorpus(s, db) == Success((vectors, chunks))
    ensures var out := search(vectors, embedQuery(query), k);
      out.Searched? && (forall j :: 0 <= j < |out.indices| ==> 0 <= out.indices[j] < |chunks|) ==>
        var r := Match(s, db, query, embedQuery, k, search);
        r.Success? && |r.value| == |Zip(out.indices, out.distances)|
        && forall j :: 0 <= j < |r.value| ==>
             r.value[j] == (chunks[out.indices[j]].pageContent, 1.0 - out.distances[j])
  {
    var out := search(vectors, embedQuery(query), k);
    if out.Searched? && (forall j :: 0 <= j < |out.indices| ==> 0 <= out.indices[j] < |chunks|) {
      var pairs := Zip(out.indices, out.distances);
      assert MatchBody(s, db, query, embedQuery, k, search) == Assemble(pairs, chunks);
      AssembleAllInRange(pairs, chunks);
    }
  }

  /**
   * Building with the database directory created and then querying: the
   * call reaches the search, and when the search returns positions of
   * stored vectors, result j is the collected chunk the j-th position
   * names, scored `1 - dist`.
   */
  lemma QueryAfterIntendedIngest(s: FsState, db: Path, outcomes: seq<Embeddings.PdfOutcome>, embed: string -> Vector,
                                 query: string, k: int, search: (seq<Vector>, Vector, int) -> SearchOutcome)
    requires Valid(s)
    requires Embeddings.Collect(outcomes) != []
    requires Embeddings.Rectangular(Embeddings.EmbedAll(embed, Embeddings.Collect(outcomes)))
    requires forall q: Path :: q <= db ==> q !in s.files
    ensures var built := Embeddings.IngestIntended(s, db, outcomes, embed).state;
      var chunks := Embeddings.Collect(outcomes);
      var out := search(Embeddings.EmbedAll(embed, chunks), embed(query), k);
      out.Searched? && (forall j :: 0 <= j < |out.indices| ==> 0 <= out.indices[j] < |chunks|) ==>
        var r := Match(built, db, query, embed, k, search);
        r.Success? && |r.value| == |Zip(out.indices, out.distances)|
        && forall j :: 0 <= j < |r.value| ==>
             r.value[j] == (chunks[out.indices[j]].pageContent, 1.0 - out.distances[j])
  {
    var chunks := Embeddings.Collect(outcomes);
    var built := Embeddings.IngestIntended(s, db, outcomes, embed).state;
    IntendedBuildLoads(s, db, outcomes, embed);
    assert LoadCorpus(built, db) == Success((Embeddings.EmbedAll(embed, chunks), chunks));
    QueryOnLoadedCorpus(built, db, Embeddings.EmbedAll(embed, chunks), chunks, query, embed, k, search);
  }

  /** What the corrected build stores is what the query loads back: the embeddings and the collected chunks. */
  lemma IntendedBuildLoads(s: FsState, db: Path, outcomes: seq<Embeddings.PdfOutcome>, embed: string -> Vector)
    requires Valid(s)
    requires Embeddings.Collect(outcomes) != []
    requires Embeddings.Rectangular(Embeddings.EmbedAll(embed, Embeddings.Collect(outcomes)))
    requires forall q: Path :: q <= db ==> q !in s.files
    ensures LoadCorpus(Embeddings.IngestIntended(s, db, outcomes, embed).state, db)
         == Success((Embeddings.EmbedAll(embed, Embeddings.Collect(outcomes)), Embeddings.Collect(outcomes)))
  {
    Embeddings.IntendedIngestSucceeds(s, db, outcomes, embed);
    Embeddings.SuccessfulRunStoresAlignedArtifacts(s, db, outcomes, embed, db);
    var built := Embeddings.IngestIntended(s, db, outcomes, embed).state;
    var vectors := Embeddings.EmbedAll(embed, Embeddings.Collect(outcomes));
    assert built.files[IndexPath(db)].vectors == vectors;
  }

  class QueryMatcher {
    const modelName: string
    /** The HuggingFace model loaded for `modelName`, as a function from text to vector. */
    const embedQuery: string -> Vector
    const k: int

    /** `QueryMatcher()` with the default model name and `k`; `embedQuery` is that model. */
    constructor Default(embedQuery: string -> Vector)
      ensures modelName == "all-MiniLM-L6-v2" && k == 5 && this.embedQuery == embedQuery
    {
      modelName := Embeddings.DefaultModelName;
      this.embedQuery := embedQuery;
      k := DefaultK;
    }

    constructor (modelName: string, embedQuery: string -> Vector, k: int)
      ensures this.modelName == modelName && this.embedQuery == embedQuery && this.k == k
    {
      this.modelName := modelName;
      this.embedQuery := embedQuery;
      this.k := k;
    }

    /**
     * `match_query`: check for and read the index, check for and load the
     * documents, embed the query, search, and build the scored results in
     * search order; every failure is wrapped as a RuntimeError.
     */
    method MatchQuery(fs: FileSystem, query: string, dbPath: Path, search: (seq<Vector>, Vector, int) -> SearchOutcome)
      returns (r: Result<seq<Scored>, QueryError>)
      ensures r == Match(fs.State(), dbPath, query, embedQuery, k, search)
    {
      ghost var state := fs.State();
      var indexPath := IndexPath(dbPath);
      if !Exists(fs.State(), indexPath) {
        return Failure(Wrap(IndexNotFound(indexPath)));
      }
      if indexPath !in fs.files || !fs.files[indexPath].IndexFile? {
        return Failure(Wrap(UnreadableIndex(indexPath)));
      }
      var index := fs.files[indexPath];

      var docsPath := DocumentsPath(dbPath);
      if !Exists(fs.State(), docsPath) {
        return Failure(Wrap(DocumentStoreNotFound(docsPath)));
      }
      if docsPath !in fs.files || !fs.files[docsPath].DocumentStore? {
        return Failure(Wrap(UnreadableDocuments(docsPath)));
      }
      var storedDocs := fs.files[docsPath].docs;
      assert LoadCorpus(state, dbPath) == Success((index.vectors, storedDocs));

      var queryEmbedding := embedQuery(query);
      var found := search(index.vectors, queryEmbedding, k);
      if found.SearchRaised? {
        return Failure(Wrap(SearchFailed(found.reason)));
      }
      var assembled := AssembleResults(found.indices, found.distances, storedDocs);
      match assembled
      case Success(results) => r := Success(results);
      case Failure(c) => r := Failure(Wrap(c));
    }

    /**
     * The loop over `zip(indices[0], distances[0])`: keeps a pair when
     * `idx < len(stored_docs)` and scores it with numpy's indexing, which
     * raises below `-len(stored_docs)`.
     */
    method AssembleResults(indices: seq<int>, distances: seq<real>, storedDocs: seq<Chunk>)
      returns (r: Result<seq<Scored>, Cause>)
      ensures r == Assemble(Zip(indices, distances), storedDocs)
    {
      ghost var pairs := Zip(indices, distances);
      var n := if |indices| < |distances| then |indices| else |distances|;
      var results: seq<Scored> := [];
      for i := 0 to n
        invariant Assemble(pairs[..i], storedDocs) == Success(results)
      {
        assert pairs[..i + 1][..i] == pairs[..i];
        var idx, dist := indices[i], distances[i];
        if idx < |storedDocs| {
          if idx < -|storedDocs| {
            AssembleFailureSticks(pairs, i + 1, storedDocs);
            return Failure(IndexOutOfBounds(idx, |storedDocs|));
          }
          var doc := if idx >= 0 then storedDocs[idx] else storedDocs[|storedDocs| + idx];
          results := results + [(doc.pageContent, 1.0 - dist)];
        }
      }
      assert pairs[..n] == pairs;
      r := Success(results);
    }
  }
}
