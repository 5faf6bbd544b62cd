/** The two string helpers of the command line front end (src/cli.ts).
    Everything else there reads arguments, expands globs and writes files,
    and is not modelled.
 */
module Cli {
  import opened Text
  import opened Emit

  // ------------------------------------------------------------ base path

  /** `p` is a prefix of every path. */
  predicate CommonPrefix(p: string, files: seq<string>)
  {
    forall k :: 0 <= k < |files| ==> StartsWith(files[k], p)
  }

  /** Some path after the first has no character at `i`, or a different one
      from the first path's. */
  predicate DiffersAt(files: seq<string>, i: nat)
    requires |files| > 0 && i < |files[0]|
  {
    exists k :: 0 < k < |files| && (|files[k]| <= i || files[k][i] != files[0][i])
  }

  /** `getBasePath`: the common prefix of the paths, scanning the first path
      one character at a time until some other path runs out or differs.
      Fewer than two paths have the empty base path. */
  method GetBasePath(files: seq<string>) returns (r: string)
    ensures |files| <= 1 ==> r == ""
    ensures |files| > 1 ==> CommonPrefix(r, files)
    ensures |files| > 1 ==> |r| == |files[0]| || DiffersAt(files, |r|)
  {
    var i := 0;
    if |files| <= 1 {
      return "";
    }
    while i < |files[0]|
      invariant 0 <= i <= |files[0]|
      invariant forall k :: 0 <= k < |files| ==> StartsWith(files[k], files[0][..i])
    {
      // `files.every(...)`: index 0 records the character, every other
      // path must have the same one at `i`; it stops at the first that
      // does not.
      var ch := files[0][i];
      var equal := true;
      var j := 1;
      while j < |files| && equal
        invariant 1 <= j <= |files|
        invariant equal ==> forall k :: 1 <= k < j ==> i < |files[k]| && files[k][i] == ch
        invariant !equal ==> |files[j - 1]| <= i || files[j - 1][i] != ch
        invariant !equal ==> 1 < j
      {
        equal := i < |files[j]| && files[j][i] == ch;
        j := j + 1;
      }
      if !equal {
        assert DiffersAt(files, i) by {
          assert 0 < j - 1 < |files|;
        }
        break;
      }
      forall k | 0 <= k < |files|
        ensures StartsWith(files[k], files[0][..i + 1])
      {
        assert files[0][..i + 1] == files[0][..i] + [ch];
        assert files[k][..i + 1] == files[k][..i] + [files[k][i]];
      }
      i := i + 1;
    }
    r := files[0][..i];
  }

  /** The base path is the longest common prefix: every prefix the paths
      share is a prefix of it. */
  lemma BasePathIsLongest(files: seq<string>, r: string, p: string)
    requires |files| > 1 && CommonPrefix(r, files) && (|r| == |files[0]| || DiffersAt(files, |r|))
    requires CommonPrefix(p, files)
    ensures StartsWith(r, p)
  {
    assert StartsWith(files[0], p) && StartsWith(files[0], r);
    if |p| > |r| {
      var k :| 0 < k < |files| && (|files[k]| <= |r| || files[k][|r|] != files[0][|r|]);
      assert false;
    }
    assert r[..|p|] == files[0][..|p|];
  }

  // ---------------------------------------------------------- folder glob

  /** `/.thrift$/`: any character other than a line terminator, then
      `thrift`, at the end. */
  predicate MatchesThriftEnd(s: string)
  {
    |s| >= 7 && s[|s| - 6..] == "thrift" && !IsLineTerminator(s[|s| - 7])
  }

  /** `getFolderPath`: a path that already names a `.thrift` file is kept,
      a folder gets the glob of every `.thrift` file below it. */
  function GetFolderPath(folder: string): (r: string)
    ensures StartsWith(r, folder)
    ensures MatchesThriftEnd(r)
    ensures MatchesThriftEnd(folder) ==> r == folder
  {
    if folder != [] && MatchesThriftEnd(folder) then folder
    else
      var glob := if EndsWith(folder, "/") then "**/*.thrift" else "/**/*.thrift";
      assert (folder + glob)[|folder + glob| - 6..] == "thrift";
      assert (folder + glob)[|folder + glob| - 7] == '.';
      StartsWithConcat(folder, glob);
      folder + glob
  }

  /** A glob is already a glob. */
  lemma GetFolderPathIdempotent(folder: string)
    ensures GetFolderPath(GetFolderPath(folder)) == GetFolderPath(folder)
  {
  }

  /** The dot of `/.thrift$/` is any character: a name ending in `xthrift`
      is taken for a file and kept as it is. */
  lemma AnyCharBeforeThrift(dir: string, x: char)
    requires !IsLineTerminator(x)
    ensures GetFolderPath(dir + [x] + "thrift") == dir + [x] + "thrift"
  {
    var s := dir + [x] + "thrift";
    assert s[|s| - 6..] == "thrift";
    assert s[|s| - 7] == x;
  }

  /** A folder, with or without its trailing `/`, gets the same glob. */
  lemma FolderGlob(dir: string)
    requires !MatchesThriftEnd(dir) && !EndsWith(dir, "/")
    ensures GetFolderPath(dir + "/") == GetFolderPath(dir)
  {
    var d := dir + "/";
    assert d[|d| - 1] == '/';
    assert !MatchesThriftEnd(d);
    assert EndsWith(d, "/");
    assert d + "**/*.thrift" == dir + "/**/*.thrift";
  }
}
