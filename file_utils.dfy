/**
 * The folder helpers used by the upload page: counting the PDF entries of a
 * folder and testing whether a path exists. The application carries two
 * copies of `count_pdf_files` with the same body; both are `CountPdfFiles`.
 *
 * The file system is not consulted here: whether the folder exists and the
 * names `os.listdir` returns are inputs.
 */
module FileUtils {
  import opened Text

  const PdfSuffix: string := ".pdf"

  /** The filter of the list comprehension: the lower-cased name ends with ".pdf". */
  predicate IsPdfName(name: string) {
    EndsWith(Lower(name), PdfSuffix)
  }

  /** The positions of the listing whose names pass the filter. */
  function PdfPositions(entries: seq<string>): set<nat> {
    set i: nat | i < |entries| && IsPdfName(entries[i])
  }

  /** The list comprehension `[f for f in entries if f.lower().endswith('.pdf')]`. */
  function PdfEntries(entries: seq<string>): (r: seq<string>)
    ensures |r| <= |entries|
    ensures forall e :: e in r ==> e in entries && IsPdfName(e)
    ensures forall e :: e in entries && IsPdfName(e) ==> e in r
  {
    if entries == [] then []
    else
      var last := entries[|entries| - 1];
      PdfEntries(entries[..|entries| - 1]) + (if IsPdfName(last) then [last] else [])
  }

  /** `path_exists`: the existence test is the file system's answer, unchanged. */
  predicate PathExists(folderExists: bool) {
    folderExists
  }

  /**
   * `count_pdf_files`: zero for a missing folder, otherwise the number of
   * listing entries whose name passes the case-insensitive ".pdf" test.
   * Entries are not checked to be regular files.
   */
  function CountPdfFiles(folderExists: bool, entries: seq<string>): (n: nat)
    ensures !folderExists ==> n == 0
    ensures n <= |entries|
    ensures folderExists ==> n == |PdfPositions(entries)|
  {
    if !folderExists then 0
    else
      PdfCountMatchesPositions(entries);
      |PdfEntries(entries)|
  }

  /** The comprehension keeps exactly one element per listing position that passes the filter. */
  lemma {:induction false} PdfCountMatchesPositions(entries: seq<string>)
    ensures |PdfEntries(entries)| == |PdfPositions(entries)|
  {
    if entries != [] {
      var init := entries[..|entries| - 1];
      PdfCountMatchesPositions(init);
      PdfPositionsStep(entries);
      assert PdfPositions(init) !! PdfPositionsAt(entries, |init|);
    }
  }

  /** The last position, when its name passes the filter. */
  function PdfPositionsAt(entries: seq<string>, i: nat): set<nat>
    requires i < |entries|
  {
    if IsPdfName(entries[i]) then {i} else {}
  }

  /** Extending the listing by one entry adds at most its own position. */
  lemma PdfPositionsStep(entries: seq<string>)
    requires entries != []
    ensures PdfPositions(entries) == PdfPositions(entries[..|entries| - 1]) + PdfPositionsAt(entries, |entries| - 1)
  {
    var init := entries[..|entries| - 1];
    forall i: nat | i < |init|
      ensures i in PdfPositions(entries) <==> i in PdfPositions(init)
    {
      assert entries[i] == init[i];
    }
  }

  /** Whether a name counts does not depend on the case it is written in. */
  lemma PdfNameIgnoresCase(name: string)
    ensures IsPdfName(Upper(name)) == IsPdfName(name)
    ensures IsPdfName(Lower(name)) == IsPdfName(name)
  {
    CaseMappingsAbsorb(name);
    LowerOfUpperChar('a');
    var l := Lower(name);
    assert Lower(Lower(name)) == l by {
      forall i | 0 <= i < |name| ensures Lower(l)[i] == l[i] { }
    }
  }

  /** Renaming every entry to upper case leaves the count unchanged. */
  lemma CountIgnoresCase(folderExists: bool, entries: seq<string>)
    ensures CountPdfFiles(folderExists, seq(|entries|, i requires 0 <= i < |entries| => Upper(entries[i])))
         == CountPdfFiles(folderExists, entries)
  {
    var upper := seq(|entries|, i requires 0 <= i < |entries| => Upper(entries[i]));
    forall i | 0 <= i < |entries| ensures IsPdfName(upper[i]) == IsPdfName(entries[i]) {
      PdfNameIgnoresCase(entries[i]);
    }
    assert PdfPositions(upper) == PdfPositions(entries);
  }

  /** Adding one entry to the listing adds one to the count exactly when its name passes the filter. */
  lemma CountGrowsByMatchingEntry(entries: seq<string>, name: string)
    ensures CountPdfFiles(true, entries + [name])
         == CountPdfFiles(true, entries) + (if IsPdfName(name) then 1 else 0)
  {
    var all := entries + [name];
    assert all[..|all| - 1] == entries;
    PdfCountMatchesPositions(all);
    PdfCountMatchesPositions(entries);
  }

  /** A nonzero count is only ever reported for a folder that `path_exists` accepts. */
  lemma NonzeroCountMeansFolderExists(folderExists: bool, entries: seq<string>)
    ensures CountPdfFiles(folderExists, entries) > 0 ==> PathExists(folderExists)
    ensures !PathExists(folderExists) ==> CountPdfFiles(folderExists, entries) == 0
  {
  }

  /** Upper- and mixed-case suffixes count, other endings and a bare "pdf" do not. */
  lemma SuffixExamples()
    ensures IsPdfName("A.PDF") && IsPdfName("b.Pdf") && IsPdfName("x.pdf")
    ensures !IsPdfName("x.pdf.bak") && !IsPdfName("pdf") && !IsPdfName("")
  {
    assert Lower("A.PDF") == "a.pdf";
    assert Lower("b.Pdf") == "b.pdf";
    assert Lower("x.pdf") == "x.pdf";
    assert Lower("x.pdf.bak")[5..] == ".bak";
  }
}
