/**
 * The detection front-end of the scanner (analyzer/analyzer.go): a registry of
 * OS analyzers and package analyzers, the selector of the files they need, and
 * the two first-success dispatch loops.
 */
module Analyzer {
  import opened Wrappers

  newtype byte = x: int | 0 <= x < 256

  /** Path of a file in the extracted layer, mapped to its raw content. */
  type FilesMap = map<string, seq<byte>>

  datatype OS = OS(name: string, family: string)

  datatype Package = Package(name: string, version: string, release: string, epoch: int)

  /** Go's zero value `OS{}`. */
  const ZeroOS := OS("", "")

  /**
   * The error values this layer can return. `UnknownOS` and `PkgAnalysis` are
   * the two package-level sentinels; `Failure` is any error an analyzer or the
   * extractor reports; `Wrapped` is `errors.Wrap(cause, context)`.
   */
  datatype Error =
    | UnknownOS
    | PkgAnalysis
    | Failure(message: string)
    | Wrapped(context: string, cause: Error)
  {
    /** The text `Error()` prints. */
    function Message(): string {
      match this
      case UnknownOS => "Unknown OS"
      case PkgAnalysis => "Failed to analyze packages"
      case Failure(m) => m
      case Wrapped(c, e) => c + ": " + e.Message()
    }
  }

  /** An analyzer's answer: a value with a nil error, or a non-nil error. */
  datatype Result<+T> = Ok(value: T) | Err(error: Error)

  /**
   * An OS or package analyzer: the files it declares it needs, and its
   * analysis, a pure function of the extracted files.
   */
  datatype Analyzer<T> = Analyzer(requiredFiles: seq<string>, analyze: FilesMap -> Result<T>)

  type OSAnalyzer = Analyzer<OS>
  type PkgAnalyzer = Analyzer<seq<Package>>

  // ---------------------------------------------------------------------------
  // File selection

  /** Every analyzer's declared files, in registration order, duplicates kept. */
  function DeclaredFiles<T>(analyzers: seq<Analyzer<T>>): seq<string>
  {
    if analyzers == [] then []
    else DeclaredFiles(analyzers[..|analyzers| - 1]) + analyzers[|analyzers| - 1].requiredFiles
  }

  /** The sum of the lengths of the declared file lists. */
  function DeclaredCount<T>(analyzers: seq<Analyzer<T>>): nat
  {
    if analyzers == [] then 0 else |analyzers[0].requiredFiles| + DeclaredCount(analyzers[1..])
  }

  /** Selecting over two registration batches is selecting over each, in order. */
  lemma {:induction false} DeclaredFilesAppend<T>(xs: seq<Analyzer<T>>, ys: seq<Analyzer<T>>)
    ensures DeclaredFiles(xs + ys) == DeclaredFiles(xs) + DeclaredFiles(ys)
    decreases |ys|
  {
    if ys == [] {
      assert xs + ys == xs;
    } else {
      var last := ys[|ys| - 1];
      var init := ys[..|ys| - 1];
      assert (xs + ys)[..|xs + ys| - 1] == xs + init;
      DeclaredFilesAppend(xs, init);
    }
  }

  /** No deduplication: the selection is exactly as long as all declarations together. */
  lemma {:induction false} DeclaredFilesLength<T>(analyzers: seq<Analyzer<T>>)
    ensures |DeclaredFiles(analyzers)| == DeclaredCount(analyzers)
    decreases |analyzers|
  {
    if analyzers != [] {
      DeclaredFilesAppend([analyzers[0]], analyzers[1..]);
      assert [analyzers[0]] + analyzers[1..] == analyzers;
      assert DeclaredFiles([analyzers[0]]) == analyzers[0].requiredFiles by {
        assert [analyzers[0]][..0] == [];
      }
      DeclaredFilesLength(analyzers[1..]);
    }
  }

  /** Completeness: every file any analyzer declares is selected. */
  lemma {:induction false} DeclaredFilesCover<T>(analyzers: seq<Analyzer<T>>, i: int, f: string)
    requires 0 <= i < |analyzers| && f in analyzers[i].requiredFiles
    ensures f in DeclaredFiles(analyzers)
    decreases |analyzers|
  {
    var last := |analyzers| - 1;
    if i < last {
      DeclaredFilesCover(analyzers[..last], i, f);
    }
  }

  /** Soundness: every selected file is declared by some analyzer. */
  lemma {:induction false} DeclaredFilesSound<T>(analyzers: seq<Analyzer<T>>, f: string)
    requires f in DeclaredFiles(analyzers)
    ensures exists i :: 0 <= i < |analyzers| && f in analyzers[i].requiredFiles
    decreases |analyzers|
  {
    var last := |analyzers| - 1;
    if f in analyzers[last].requiredFiles {
    } else {
      DeclaredFilesSound(analyzers[..last], f);
      var i :| 0 <= i < last && f in analyzers[..last][i].requiredFiles;
      assert analyzers[..last][i] == analyzers[i];
    }
  }

  /**
   * The selection built from both lists holds a file exactly when some OS
   * analyzer or some package analyzer declares it.
   */
  lemma SelectionExact(osAnalyzers: seq<OSAnalyzer>, pkgAnalyzers: seq<PkgAnalyzer>, f: string)
    ensures f in DeclaredFiles(osAnalyzers) + DeclaredFiles(pkgAnalyzers)
        <==> (exists i :: 0 <= i < |osAnalyzers| && f in osAnalyzers[i].requiredFiles)
             || (exists i :: 0 <= i < |pkgAnalyzers| && f in pkgAnalyzers[i].requiredFiles)
  {
    if f in DeclaredFiles(osAnalyzers) {
      DeclaredFilesSound(osAnalyzers, f);
    } else if f in DeclaredFiles(pkgAnalyzers) {
      DeclaredFilesSound(pkgAnalyzers, f);
    }
    if i :| 0 <= i < |osAnalyzers| && f in osAnalyzers[i].requiredFiles {
      DeclaredFilesCover(osAnalyzers, i, f);
    } else if i :| 0 <= i < |pkgAnalyzers| && f in pkgAnalyzers[i].requiredFiles {
      DeclaredFilesCover(pkgAnalyzers, i, f);
    }
  }

  // ---------------------------------------------------------------------------
  // First-success dispatch

  /**
   * The position of the analyzer a dispatch loop stops at: the lowest index
   * whose analysis succeeds, or `|analyzers|` when every one fails.
   */
  function FirstOkIndex<T>(analyzers: seq<Analyzer<T>>, filesMap: FilesMap): (k: nat)
    ensures k <= |analyzers|
    ensures k < |analyzers| ==> analyzers[k].analyze(filesMap).Ok?
    ensures forall j :: 0 <= j < k ==> analyzers[j].analyze(filesMap).Err?
    decreases |analyzers|
  {
    if analyzers == [] then 0
    else if analyzers[0].analyze(filesMap).Ok? then 0
    else 1 + FirstOkIndex(analyzers[1..], filesMap)
  }

  /** The value the first successful analyzer returns, if any succeeds. */
  function FirstOk<T>(analyzers: seq<Analyzer<T>>, filesMap: FilesMap): Option<T>
  {
    var k := FirstOkIndex(analyzers, filesMap);
    if k < |analyzers| then Some(analyzers[k].analyze(filesMap).value) else None
  }

  /** First match wins: the result is that of the lowest-index analyzer that succeeds. */
  lemma FirstOkIsLowestSuccess<T>(analyzers: seq<Analyzer<T>>, filesMap: FilesMap, k: int)
    requires 0 <= k < |analyzers| && analyzers[k].analyze(filesMap).Ok?
    requires forall j :: 0 <= j < k ==> analyzers[j].analyze(filesMap).Err?
    ensures FirstOkIndex(analyzers, filesMap) == k
    ensures FirstOk(analyzers, filesMap) == Some(analyzers[k].analyze(filesMap).value)
  {
  }

  /** Exhaustion: no result exactly when every analyzer fails (also when there are none). */
  lemma FirstOkNoneIffAllFail<T>(analyzers: seq<Analyzer<T>>, filesMap: FilesMap)
    ensures FirstOk(analyzers, filesMap).None?
        <==> forall j :: 0 <= j < |analyzers| ==> analyzers[j].analyze(filesMap).Err?
  {
    if k :| 0 <= k < |analyzers| && analyzers[k].analyze(filesMap).Ok? {
      assert FirstOkIndex(analyzers, filesMap) <= k;
    }
  }

  /**
   * Registration order is precedence: over a registry extended by later
   * registrations, an earlier winner still wins, and the later analyzers are
   * consulted only when all the earlier ones fail.
   */
  lemma {:induction false} FirstOkAppend<T>(xs: seq<Analyzer<T>>, ys: seq<Analyzer<T>>, filesMap: FilesMap)
    ensures FirstOk(xs + ys, filesMap)
         == if FirstOk(xs, filesMap).Some? then FirstOk(xs, filesMap) else FirstOk(ys, filesMap)
    decreases |xs|
  {
    if xs == [] {
      assert xs + ys == ys;
    } else if xs[0].analyze(filesMap).Ok? {
      assert (xs + ys)[0] == xs[0];
    } else {
      assert (xs + ys)[0] == xs[0];
      assert (xs + ys)[1..] == xs[1..] + ys;
      FirstOkAppend(xs[1..], ys, filesMap);
      FirstOkShift(xs, filesMap);
      FirstOkShift(xs + ys, filesMap);
    }
  }

  /** Skipping a failing head analyzer does not change the outcome. */
  lemma FirstOkShift<T>(analyzers: seq<Analyzer<T>>, filesMap: FilesMap)
    requires analyzers != [] && analyzers[0].analyze(filesMap).Err?
    ensures FirstOk(analyzers, filesMap) == FirstOk(analyzers[1..], filesMap)
  {
    var k := FirstOkIndex(analyzers[1..], filesMap);
    assert FirstOkIndex(analyzers, filesMap) == 1 + k;
    if k < |analyzers| - 1 {
      assert analyzers[1..][k] == analyzers[1 + k];
    }
  }

  // ---------------------------------------------------------------------------
  // The registry

  /**
   * The two process-wide analyzer lists. Registration appends; it is the only
   * operation that changes them.
   */
  class Registry {
    var osAnalyzers: seq<OSAnalyzer>
    var pkgAnalyzers: seq<PkgAnalyzer>

    /** The lists start out empty (Go's nil slices). */
    constructor ()
      ensures osAnalyzers == [] && pkgAnalyzers == []
    {
      osAnalyzers := [];
      pkgAnalyzers := [];
    }

    method RegisterOSAnalyzer(analyzer: OSAnalyzer)
      modifies this
      ensures osAnalyzers == old(osAnalyzers) + [analyzer]
      ensures pkgAnalyzers == old(pkgAnalyzers)
    {
      osAnalyzers := osAnalyzers + [analyzer];
    }

    method RegisterPkgAnalyzer(analyzer: PkgAnalyzer)
      modifies this
      ensures pkgAnalyzers == old(pkgAnalyzers) + [analyzer]
      ensures osAnalyzers == old(osAnalyzers)
    {
      pkgAnalyzers := pkgAnalyzers + [analyzer];
    }

    /** Every OS analyzer's files, then every package analyzer's, in registration order. */
    method RequiredFilenames() returns (filenames: seq<string>)
      ensures filenames == DeclaredFiles(osAnalyzers) + DeclaredFiles(pkgAnalyzers)
    {
      filenames := [];
      var i := 0;
      while i < |osAnalyzers|
        invariant 0 <= i <= |osAnalyzers|
        invariant filenames == DeclaredFiles(osAnalyzers[..i])
      {
        assert osAnalyzers[..i + 1][..i] == osAnalyzers[..i];
        filenames := filenames + osAnalyzers[i].requiredFiles;
        i := i + 1;
      }
      assert osAnalyzers[..i] == osAnalyzers;
      ghost var osFiles := filenames;
      var j := 0;
      while j < |pkgAnalyzers|
        invariant 0 <= j <= |pkgAnalyzers|
        invariant filenames == osFiles + DeclaredFiles(pkgAnalyzers[..j])
      {
        assert pkgAnalyzers[..j + 1][..j] == pkgAnalyzers[..j];
        filenames := filenames + pkgAnalyzers[j].requiredFiles;
        j := j + 1;
      }
      assert pkgAnalyzers[..j] == pkgAnalyzers;
    }

    /**
     * Extracts the layer, keeping only the required files. `extractFiles`
     * stands for opening `<dir>/layer.tar` and streaming it through the
     * extractor with the given selection.
     */
    method Analyze(extractFiles: seq<string> -> Result<FilesMap>) returns (filesMap: FilesMap, err: Option<Error>)
      ensures match extractFiles(DeclaredFiles(osAnalyzers) + DeclaredFiles(pkgAnalyzers))
              case Ok(m) => filesMap == m && err == None
              case Err(e) => filesMap == map[] && err == Some(Wrapped("Failed to extract files", e))
    {
      var required := RequiredFilenames();
      var extracted := extractFiles(required);
      if extracted.Err? {
        return map[], Some(Wrapped("Failed to extract files", extracted.error));
      }
      return extracted.value, None;
    }

    /**
     * Tries the OS analyzers in registration order and returns the first
     * successful result; `invoked` counts the analyzers that were called.
     */
    method GetOS(filesMap: FilesMap) returns (os: OS, err: Option<Error>, ghost invoked: nat)
      ensures var k := FirstOkIndex(osAnalyzers, filesMap);
              if k < |osAnalyzers|
              then os == osAnalyzers[k].analyze(filesMap).value && err == None && invoked == k + 1
              else os == ZeroOS && err == Some(UnknownOS) && invoked == |osAnalyzers|
      ensures err.Some? <==> forall i :: 0 <= i < |osAnalyzers| ==> osAnalyzers[i].analyze(filesMap).Err?
      ensures FirstOk(osAnalyzers, filesMap) == if err == None then Some(os) else None
    {
      invoked := 0;
      var i := 0;
      while i < |osAnalyzers|
        invariant 0 <= i <= |osAnalyzers| && invoked == i
        invariant forall j :: 0 <= j < i ==> osAnalyzers[j].analyze(filesMap).Err?
      {
        var result := osAnalyzers[i].analyze(filesMap);
        invoked := invoked + 1;
        if result.Ok? {
          FirstOkIsLowestSuccess(osAnalyzers, filesMap, i);
          return result.value, None, invoked;
        }
        i := i + 1;
      }
      FirstOkNoneIffAllFail(osAnalyzers, filesMap);
      return ZeroOS, Some(UnknownOS), invoked;
    }

    /**
     * Tries the package analyzers in registration order and returns the first
     * successful list. When all fail the error is `UnknownOS`, as in the
     * source, not `PkgAnalysis`.
     */
    method GetPackages(filesMap: FilesMap) returns (pkgs: seq<Package>, err: Option<Error>, ghost invoked: nat)
      ensures var k := FirstOkIndex(pkgAnalyzers, filesMap);
              if k < |pkgAnalyzers|
              then pkgs == pkgAnalyzers[k].analyze(filesMap).value && err == None && invoked == k + 1
              else pkgs == [] && err == Some(UnknownOS) && invoked == |pkgAnalyzers|
      ensures err.Some? <==> forall i :: 0 <= i < |pkgAnalyzers| ==> pkgAnalyzers[i].analyze(filesMap).Err?
      ensures FirstOk(pkgAnalyzers, filesMap) == if err == None then Some(pkgs) else None
    {
      invoked := 0;
      var i := 0;
      while i < |pkgAnalyzers|
        invariant 0 <= i <= |pkgAnalyzers| && invoked == i
        invariant forall j :: 0 <= j < i ==> pkgAnalyzers[j].analyze(filesMap).Err?
      {
        var result := pkgAnalyzers[i].analyze(filesMap);
        invoked := invoked + 1;
        if result.Ok? {
          FirstOkIsLowestSuccess(pkgAnalyzers, filesMap, i);
          return result.value, None, invoked;
        }
        i := i + 1;
      }
      FirstOkNoneIffAllFail(pkgAnalyzers, filesMap);
      return [], Some(UnknownOS), invoked;
    }
  }
}
