/**
 * The part of the file system that ingestion and querying touch: directories,
 * files holding a FAISS index or a saved document array, and the ordered trace
 * of the changes made to them. A path is a non-empty sequence of components
 * relative to the working directory.
 */
module Storage {
  import opened Wrappers

  type Path = p: seq<string> | |p| > 0 witness ["database"]

  type Vector = seq<real>

  /** A langchain `Document` produced by the text splitter. */
  datatype Chunk = Chunk(pageContent: string, metadata: map<string, string>)

  /** What a file holds: an `index.faiss` written by `faiss.write_index`, a `.npy` array of chunks, or anything else. */
  datatype Artifact =
    | IndexFile(dimension: nat, vectors: seq<Vector>)
    | DocumentStore(docs: seq<Chunk>)
    | OtherFile

  datatype FsOp = Removed(path: Path) | MadeDir(path: Path) | Wrote(path: Path)

  datatype FsError =
    | NotADirectory(path: Path)
    | NoSuchFileOrDirectory(path: Path)
    | FileExists(path: Path)
    | IsADirectory(path: Path)

  datatype FsState = FsState(dirs: set<Path>, files: map<Path, Artifact>, trace: seq<FsOp>)

  const IndexFileName: string := "index.faiss"
  const DocumentsFileName: string := "documents.npy"

  function Child(dir: Path, name: string): Path { dir + [name] }

  function IndexPath(db: Path): Path { Child(db, IndexFileName) }

  function DocumentsPath(db: Path): Path { Child(db, DocumentsFileName) }

  /** `q` is `p` itself or lies somewhere below it. */
  predicate Within(p: Path, q: Path) { p <= q }

  /** `os.path.exists` / `Path.exists`: a directory or a file is there. */
  predicate Exists(s: FsState, p: Path) { p in s.dirs || p in s.files }

  /** The directory that would contain `p` exists (the working directory always does). */
  predicate ParentIsDir(s: FsState, p: Path) {
    |p| == 1 || p[..|p| - 1] in s.dirs
  }

  /** The non-empty prefixes of `p`: the directories `mkdir(parents=True)` must have in place. */
  function Ancestry(p: Path): (r: set<Path>)
    ensures p in r
    ensures forall q: Path :: q in r <==> q <= p
  {
    var r := set i | 1 <= i <= |p| :: p[..i];
    assert p[..|p|] == p;
    forall q: Path | q <= p ensures q in r {
      assert q == p[..|q|];
    }
    forall q | q in r ensures q <= p {
      var i :| 1 <= i <= |p| && q == p[..i];
    }
    r
  }

  /** A well-formed tree: nothing is both a file and a directory, and every entry sits in an existing directory. */
  ghost predicate Valid(s: FsState) {
    (forall p: Path :: p in s.dirs ==> p !in s.files && ParentIsDir(s, p))
    && (forall p: Path :: p in s.files ==> ParentIsDir(s, p))
  }

  /** `shutil.rmtree(p)`: removes a directory and everything below it. */
  function AfterRemoveTree(s: FsState, p: Path): (r: Result<FsState, FsError>)
    ensures r.Failure? <==> p !in s.dirs || p in s.files
    ensures r.Success? ==>
      (forall q: Path :: Exists(r.value, q) <==> Exists(s, q) && !Within(p, q))
      && (forall q: Path :: q in r.value.files ==> q in s.files && r.value.files[q] == s.files[q])
      && (forall q: Path :: q in r.value.dirs <==> q in s.dirs && !Within(p, q))
      && r.value.trace == s.trace + [Removed(p)]
  {
    if p in s.files then Failure(NotADirectory(p))
    else if p !in s.dirs then Failure(NoSuchFileOrDirectory(p))
    else
      Success(FsState(
        set q | q in s.dirs && !Within(p, q),
        map q | q in s.files && !Within(p, q) :: s.files[q],
        s.trace + [Removed(p)]))
  }

  /** `Path(p).mkdir(exist_ok=True, parents=True)`: creates `p` and its missing ancestors, unless a file is in the way. */
  function AfterMakeDirs(s: FsState, p: Path): (r: Result<FsState, FsError>)
    ensures r.Failure? <==> exists q: Path :: q in s.files && q <= p
    ensures r.Success? ==>
      (forall q: Path :: q in r.value.dirs <==> q in s.dirs || q <= p)
      && r.value.files == s.files
      && r.value.trace == s.trace + [MadeDir(p)]
  {
    if p in s.files then Failure(FileExists(p))
    else if exists q: Path :: q in s.files && q <= p then Failure(NotADirectory(p))
    else Success(FsState(s.dirs + Ancestry(p), s.files, s.trace + [MadeDir(p)]))
  }

  /** Writing a whole file: the containing directory must exist and the path must not be a directory. */
  function AfterWrite(s: FsState, p: Path, a: Artifact): (r: Result<FsState, FsError>)
    ensures r.Failure? <==> !ParentIsDir(s, p) || p in s.dirs
    ensures r.Success? ==>
      r.value.dirs == s.dirs
      && p in r.value.files && r.value.files[p] == a
      && (forall q: Path :: q != p ==> (q in r.value.files <==> q in s.files))
      && (forall q: Path :: q != p && q in s.files ==> r.value.files[q] == s.files[q])
      && r.value.trace == s.trace + [Wrote(p)]
  {
    if !ParentIsDir(s, p) then Failure(NoSuchFileOrDirectory(p))
    else if p in s.dirs then Failure(IsADirectory(p))
    else Success(FsState(s.dirs, s.files[p := a], s.trace + [Wrote(p)]))
  }

  /** Removing a subtree keeps the tree well formed. */
  lemma RemoveTreeKeepsValid(s: FsState, p: Path)
    requires Valid(s) && AfterRemoveTree(s, p).Success?
    ensures Valid(AfterRemoveTree(s, p).value)
  {
    var t := AfterRemoveTree(s, p).value;
    forall q | (q in t.files || q in t.dirs) && |q| > 1
      ensures q[..|q| - 1] in t.dirs
    {
      assert q[..|q| - 1] in s.dirs;
      assert Within(p, q[..|q| - 1]) ==> Within(p, q);
    }
  }

  /** Creating directories keeps the tree well formed. */
  lemma MakeDirsKeepsValid(s: FsState, p: Path)
    requires Valid(s) && AfterMakeDirs(s, p).Success?
    ensures Valid(AfterMakeDirs(s, p).value)
  {
    var t := AfterMakeDirs(s, p).value;
    forall q | q in t.dirs && |q| > 1
      ensures q[..|q| - 1] in t.dirs
    {
      if q <= p {
        var parent: Path := q[..|q| - 1];
        assert parent <= p;
      }
    }
  }

  /** Writing a file keeps the tree well formed. */
  lemma WriteKeepsValid(s: FsState, p: Path, a: Artifact)
    requires Valid(s) && AfterWrite(s, p, a).Success?
    ensures Valid(AfterWrite(s, p, a).value)
  {
  }

  /** The file system as the program sees it: its state changes in place. */
  class FileSystem {
    var dirs: set<Path>
    var files: map<Path, Artifact>
    var trace: seq<FsOp>

    function State(): FsState
      reads this
    {
      FsState(dirs, files, trace)
    }

    constructor (s: FsState)
      ensures State() == s
    {
      dirs, files, trace := s.dirs, s.files, s.trace;
    }

    method RemoveTree(p: Path) returns (r: Outcome<FsError>)
      modifies this
      ensures AfterRemoveTree(old(State()), p).Success? ==>
        r == Pass && State() == AfterRemoveTree(old(State()), p).value
      ensures AfterRemoveTree(old(State()), p).Failure? ==>
        r == Fail(AfterRemoveTree(old(State()), p).error) && State() == old(State())
    {
      match AfterRemoveTree(State(), p)
      case Success(s) =>
        dirs, files, trace := s.dirs, s.files, s.trace;
        r := Pass;
      case Failure(e) =>
        r := Fail(e);
    }

    method MakeDirs(p: Path) returns (r: Outcome<FsError>)
      modifies this
      ensures AfterMakeDirs(old(State()), p).Success? ==>
        r == Pass && State() == AfterMakeDirs(old(State()), p).value
      ensures AfterMakeDirs(old(State()), p).Failure? ==>
        r == Fail(AfterMakeDirs(old(State()), p).error) && State() == old(State())
    {
      match AfterMakeDirs(State(), p)
      case Success(s) =>
        dirs, files, trace := s.dirs, s.files, s.trace;
        r := Pass;
      case Failure(e) =>
        r := Fail(e);
    }

    method Write(p: Path, a: Artifact) returns (r: Outcome<FsError>)
      modifies this
      ensures AfterWrite(old(State()), p, a).Success? ==>
        r == Pass && State() == AfterWrite(old(State()), p, a).value
      ensures AfterWrite(old(State()), p, a).Failure? ==>
        r == Fail(AfterWrite(old(State()), p, a).error) && State() == old(State())
    {
      match AfterWrite(State(), p, a)
      case Success(s) =>
        dirs, files, trace := s.dirs, s.files, s.trace;
        r := Pass;
      case Failure(e) =>
        r := Fail(e);
    }
  }
}
