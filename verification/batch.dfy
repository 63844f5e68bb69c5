/**
 * Input validation shared by both batch scripts: every path that is not a
 * file is reported and dropped; the others are processed in input order.
 */
module Batch {

  /** The paths that are files, in input order; `isFile[i]` is what os.path.isfile said of `files[i]`. */
  function ValidFiles(files: seq<string>, isFile: seq<bool>): seq<string>
    requires |isFile| == |files|
  {
    if files == [] then []
    else
      var n := |files| - 1;
      ValidFiles(files[..n], isFile[..n]) + (if isFile[n] then [files[n]] else [])
  }

  /** The paths that are not files, in input order. */
  function MissingFiles(files: seq<string>, isFile: seq<bool>): seq<string>
    requires |isFile| == |files|
  {
    if files == [] then []
    else
      var n := |files| - 1;
      MissingFiles(files[..n], isFile[..n]) + (if isFile[n] then [] else [files[n]])
  }

  const NoValidFilesMessage := "No valid files to process"

  function NotFoundMessage(path: string): string {
    "File not found: " + path
  }

  /**
   * The ERROR lines of the validation loop: one "File not found" line per
   * missing path, in input order; `line` makes the worker's ERROR event of a message.
   */
  function NotFoundLines<E>(missing: seq<string>, line: string -> E): (events: seq<E>)
    ensures |events| == |missing|
    ensures forall k :: 0 <= k < |missing| ==> events[k] == line(NotFoundMessage(missing[k]))
  {
    seq(|missing|, k requires 0 <= k < |missing| => line(NotFoundMessage(missing[k])))
  }

  /** The validation loop of `run_batch`: keep each path that is a file, set the others aside. */
  method ValidateFiles(files: seq<string>, isFile: seq<bool>) returns (valid: seq<string>, missing: seq<string>)
    requires |isFile| == |files|
    ensures valid == ValidFiles(files, isFile)
    ensures missing == MissingFiles(files, isFile)
  {
    valid, missing := [], [];
    for i := 0 to |files|
      invariant valid == ValidFiles(files[..i], isFile[..i])
      invariant missing == MissingFiles(files[..i], isFile[..i])
    {
      assert files[..i + 1][..i] == files[..i];
      assert isFile[..i + 1][..i] == isFile[..i];
      if isFile[i] {
        valid := valid + [files[i]];
      } else {
        missing := missing + [files[i]];
      }
    }
    assert files[..|files|] == files && isFile[..|files|] == isFile;
  }

  /** Validation splits the input: every path lands in exactly one of the two lists. */
  lemma {:induction false} ValidationPartitions(files: seq<string>, isFile: seq<bool>)
    requires |isFile| == |files|
    ensures multiset(ValidFiles(files, isFile)) + multiset(MissingFiles(files, isFile)) == multiset(files)
  {
    if files != [] {
      var n := |files| - 1;
      var f := files[n];
      ValidationPartitions(files[..n], isFile[..n]);
      assert files == files[..n] + [f];
      assert multiset(files) == multiset(files[..n]) + multiset{f};
      var v, m := ValidFiles(files[..n], isFile[..n]), MissingFiles(files[..n], isFile[..n]);
      if isFile[n] {
        assert multiset(v + [f]) == multiset(v) + multiset{f};
      } else {
        assert multiset(m + [f]) == multiset(m) + multiset{f};
      }
    }
  }

  /** So the two lists together are exactly as long as the input. */
  lemma ValidationSizes(files: seq<string>, isFile: seq<bool>)
    requires |isFile| == |files|
    ensures |ValidFiles(files, isFile)| + |MissingFiles(files, isFile)| == |files|
  {
    ValidationPartitions(files, isFile);
    assert |multiset(ValidFiles(files, isFile)) + multiset(MissingFiles(files, isFile))| == |multiset(files)|;
  }

  /** Every path kept was found to be a file. */
  lemma {:induction false} ValidFilesAreFiles(files: seq<string>, isFile: seq<bool>, f: string)
    requires |isFile| == |files|
    requires f in ValidFiles(files, isFile)
    ensures exists i :: 0 <= i < |files| && files[i] == f && isFile[i]
  {
    var n := |files| - 1;
    if f in ValidFiles(files[..n], isFile[..n]) {
      ValidFilesAreFiles(files[..n], isFile[..n], f);
      var i :| 0 <= i < n && files[..n][i] == f && isFile[..n][i];
      assert files[i] == f && isFile[i];
    } else {
      assert files[n] == f && isFile[n];
    }
  }

  /** Every path reported missing was found not to be a file. */
  lemma {:induction false} MissingFilesAreNotFiles(files: seq<string>, isFile: seq<bool>, f: string)
    requires |isFile| == |files|
    requires f in MissingFiles(files, isFile)
    ensures exists i :: 0 <= i < |files| && files[i] == f && !isFile[i]
  {
    var n := |files| - 1;
    if f in MissingFiles(files[..n], isFile[..n]) {
      MissingFilesAreNotFiles(files[..n], isFile[..n], f);
      var i :| 0 <= i < n && files[..n][i] == f && !isFile[..n][i];
      assert files[i] == f && !isFile[i];
    } else {
      assert files[n] == f && !isFile[n];
    }
  }

  /** When every path is a file, all of them are processed, in input order. */
  lemma {:induction false} AllFilesValid(files: seq<string>, isFile: seq<bool>)
    requires |isFile| == |files|
    requires forall i :: 0 <= i < |isFile| ==> isFile[i]
    ensures ValidFiles(files, isFile) == files
    ensures MissingFiles(files, isFile) == []
  {
    if files != [] {
      var n := |files| - 1;
      AllFilesValid(files[..n], isFile[..n]);
      assert files == files[..n] + [files[n]];
    }
  }
}
