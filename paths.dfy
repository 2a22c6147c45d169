/**
 * The command-line checks at the start of main (main.cpp:110-138): three paths,
 * each checked for its extension by comparing everything from its last '.' on,
 * and the folder of the frame list, taken up to and including its last '/'.
 */
module Paths {
  import opened Wrappers

  /** The extensions main demands of its three arguments (main.cpp:117, 123, 129). */
  const DataExtension: string := ".dat"
  const FrameListExtension: string := ".bmf"

  /** find_last_of(c): the position of the last c in s, or None for npos. */
  function FindLast(s: string, c: char): (r: Option<nat>)
    ensures r.None? <==> c !in s
    ensures r.Some? ==> r.value < |s| && s[r.value] == c
    ensures r.Some? ==> forall j :: r.value < j < |s| ==> s[j] != c
  {
    if |s| == 0 then None
    else if s[|s| - 1] == c then Some(|s| - 1)
    else
      assert forall j :: 0 <= j < |s| - 1 ==> s[..|s| - 1][j] == s[j];
      FindLast(s[..|s| - 1], c)
  }

  /**
   * The outcome of path.compare(path.find_last_of("."), npos, ext): with no '.',
   * the start position npos is past the end and compare throws out_of_range.
   */
  datatype CheckResult = Accepted | Rejected | OutOfRange

  function CheckExtension(path: string, ext: string): (r: CheckResult)
    ensures r == OutOfRange <==> '.' !in path
    ensures r == Accepted <==>
              exists p :: 0 <= p < |path| && path[p] == '.' && path[p..] == ext
                          && forall j :: p < j < |path| ==> path[j] != '.'
  {
    match FindLast(path, '.')
    case None => OutOfRange
    case Some(p) =>
      assert forall q :: 0 <= q < |path| && path[q] == '.' && (forall j :: q < j < |path| ==> path[j] != '.') ==> q == p;
      if path[p..] == ext then Accepted else Rejected
  }

  /** An extension: one '.' followed by no other '.'. */
  predicate IsExtension(ext: string)
  {
    |ext| >= 1 && ext[0] == '.' && forall j :: 1 <= j < |ext| ==> ext[j] != '.'
  }

  /** For an extension, the check accepts exactly the paths that end with it. */
  lemma CheckExtensionIsSuffixTest(path: string, ext: string)
    requires IsExtension(ext)
    ensures CheckExtension(path, ext) == Accepted <==> |ext| <= |path| && path[|path| - |ext|..] == ext
  {
    if |ext| <= |path| && path[|path| - |ext|..] == ext {
      var p := |path| - |ext|;
      assert path[p] == ext[0] == '.';
      forall j | p < j < |path|
        ensures path[j] != '.'
      {
        assert path[j] == ext[j - p];
      }
    }
  }

  /**
   * The folder of the frame list: everything up to and including the last '/'.
   * With no '/', find_last_of returns npos and npos + 1 wraps round to 0, giving
   * the empty prefix; a prefix equal to the whole path becomes "./".
   */
  function RootDir(path: string): (r: string)
    ensures path == [] || path[|path| - 1] == '/' ==> r == "./"
    ensures path != [] && '/' !in path ==> r == []
    ensures '/' in path && path[|path| - 1] != '/' ==>
              && 0 < |r| < |path| && r == path[..|r|] && r[|r| - 1] == '/'
              && forall j :: |r| <= j < |path| ==> path[j] != '/'
  {
    var cut := match FindLast(path, '/') case None => 0 case Some(p) => p + 1;
    var prefix := path[..cut];
    if prefix == path then "./" else prefix
  }

  /** What main does with its arguments before it reads any file. */
  datatype Startup =
    | Usage                               // not exactly three arguments
    | NotData(path: string)               // a trajectory or partition path without ".dat"
    | NotFrameList(path: string)          // a frame list path without ".bmf"
    | Aborted                             // a path with no '.': compare throws
    | Started(trajectoryPath: string, partitionPath: string, frameListPath: string, rootDir: string)

  /** The check of one argument, as main chains them. */
  function CheckArgument(path: string, ext: string, rejected: Startup, next: Startup): Startup
  {
    match CheckExtension(path, ext)
    case OutOfRange => Aborted
    case Rejected => rejected
    case Accepted => next
  }

  /**
   * main's argument handling (main.cpp:110-138), argv including the program name:
   * exactly four entries, then the three extension checks in order, then the root
   * folder of the frame list.
   */
  function Start(argv: seq<string>): (r: Startup)
    ensures |argv| != 4 ==> r == Usage
    ensures r.Started? <==>
              && |argv| == 4
              && CheckExtension(argv[1], DataExtension) == Accepted
              && CheckExtension(argv[2], DataExtension) == Accepted
              && CheckExtension(argv[3], FrameListExtension) == Accepted
    ensures r.Started? ==>
              r == Started(argv[1], argv[2], argv[3], RootDir(argv[3]))
    ensures r == Aborted ==> exists i :: 1 <= i < |argv| && '.' !in argv[i]
  {
    if |argv| != 4 then Usage
    else
      CheckArgument(argv[1], DataExtension, NotData(argv[1]),
        CheckArgument(argv[2], DataExtension, NotData(argv[2]),
          CheckArgument(argv[3], FrameListExtension, NotFrameList(argv[3]),
            Started(argv[1], argv[2], argv[3], RootDir(argv[3])))))
  }

  /**
   * Once started, the three paths end with their extensions, and the "./" branch
   * meant for frames in the current folder is never taken: the folder is always a
   * proper prefix of the frame list path, and a name without '/' gets the empty
   * folder.
   */
  lemma StartedPathsHaveTheirExtensions(argv: seq<string>)
    requires Start(argv).Started?
    ensures var s := Start(argv);
      && |s.trajectoryPath| >= 4 && s.trajectoryPath[|s.trajectoryPath| - 4..] == DataExtension
      && |s.partitionPath| >= 4 && s.partitionPath[|s.partitionPath| - 4..] == DataExtension
      && |s.frameListPath| >= 4 && s.frameListPath[|s.frameListPath| - 4..] == FrameListExtension
      && |s.rootDir| < |s.frameListPath| && s.rootDir == s.frameListPath[..|s.rootDir|]
      && ('/' !in s.frameListPath ==> s.rootDir == [])
  {
    CheckExtensionIsSuffixTest(argv[1], DataExtension);
    CheckExtensionIsSuffixTest(argv[2], DataExtension);
    CheckExtensionIsSuffixTest(argv[3], FrameListExtension);
    var path := argv[3];
    assert path[|path| - 1] == FrameListExtension[3] == 'f';
  }
}
