/**
 * Locating the plugin binary (findPlugin): the manager's own directory, then the working
 * directory, then the PATH entries in order; the first candidate whose stat does not report
 * "does not exist" wins.
 */
module Resolver {
  import opened Wrappers
  import opened Seqs
  import opened GoLib
  import opened Errors

  /** os.Stat's outcome, as os.IsNotExist classifies it. */
  datatype StatResult = Exists | NotExist | OtherError

  /** What the resolver learns from the host; an operating-system failure carries its message. */
  datatype Host = Host(
    executable: Result<string, string>,     // os.Executable()
    abs: string -> Result<string, string>,  // filepath.Abs
    workingDir: Result<string, string>,     // os.Getwd()
    pathEnv: string,                        // os.Getenv("PATH")
    stat: string -> StatResult)             // os.Stat

  /** A candidate counts as found unless its stat reports that it does not exist. */
  predicate Present(host: Host, path: string)
  {
    host.stat(path) != NotExist
  }

  /** `Present` as a predicate on paths, for searching. */
  function PresentIn(host: Host): string -> bool
  {
    p => Present(host, p)
  }

  /** The directories to search, in order, or the error of the host call that failed first. */
  function SearchDirs(host: Host): Result<seq<string>, Error>
  {
    match host.executable
    case Failure(m) => Failure(SystemError(m))
    case Success(exe) =>
      match host.abs(DirPart(exe))
      case Failure(m) => Failure(SystemError(m))
      case Success(ownDir) =>
        match host.workingDir
        case Failure(m) => Failure(SystemError(m))
        case Success(wd) => Success([ownDir, wd] + Split(host.pathEnv, PathListSeparator))
  }

  function Candidate(dir: string, filename: string): string
  {
    dir + [PathSeparator] + filename
  }

  function Candidates(dirs: seq<string>, filename: string): seq<string>
  {
    seq(|dirs|, i requires 0 <= i < |dirs| => Candidate(dirs[i], filename))
  }

  /** A search: what it returns and the paths it passed to stat, in order. */
  datatype Search = Search(result: Result<string, Error>, probed: seq<string>)

  /** The specification of findPlugin. */
  function Resolution(host: Host, filename: string): Search
  {
    match SearchDirs(host)
    case Failure(e) => Search(Failure(e), [])
    case Success(dirs) =>
      var paths := Candidates(dirs, filename);
      match FirstWhere(paths, PresentIn(host))
      case Some(k) => Search(Success(paths[k]), paths[..k + 1])
      case None => Search(Failure(PluginNotFound), paths)
  }

  /** findPlugin, with the host's answers taken as inputs. */
  method FindPlugin(host: Host, filename: string) returns (r: Result<string, Error>, probed: seq<string>)
    ensures r == Resolution(host, filename).result
    ensures probed == Resolution(host, filename).probed
  {
    probed := [];
    if host.executable.Failure? {
      return Failure(SystemError(host.executable.error)), probed;
    }
    var ownDir := DirPart(host.executable.value);
    var absDir := host.abs(ownDir);
    if absDir.Failure? {
      return Failure(SystemError(absDir.error)), probed;
    }
    if host.workingDir.Failure? {
      return Failure(SystemError(host.workingDir.error)), probed;
    }
    var dirs := [absDir.value, host.workingDir.value];
    var pathDirs := Split(host.pathEnv, PathListSeparator);
    dirs := dirs + pathDirs;
    assert SearchDirs(host) == Success(dirs);
    ghost var paths := Candidates(dirs, filename);
    for i := 0 to |dirs|
      invariant probed == paths[..i]
      invariant forall j :: 0 <= j < i ==> !Present(host, paths[j])
    {
      var fqpn := dirs[i] + [PathSeparator] + filename;
      probed := probed + [fqpn];
      if host.stat(fqpn) != NotExist {
        FirstWhereAt(paths, PresentIn(host), i);
        return Success(fqpn), probed;
      }
    }
    return Failure(PluginNotFound), probed;
  }

  /** A found path is the first present candidate, and no later candidate is examined. */
  lemma FirstHit(host: Host, filename: string)
    requires Resolution(host, filename).result.Success?
    ensures SearchDirs(host).Success?
    ensures var s := Resolution(host, filename);
      && s.probed <= Candidates(SearchDirs(host).value, filename)
      && |s.probed| >= 1
      && s.result.value == s.probed[|s.probed| - 1]
      && Present(host, s.result.value)
      && forall j :: 0 <= j < |s.probed| - 1 ==> !Present(host, s.probed[j])
  {
  }

  /** The plugin is reported missing exactly when every candidate is missing. */
  lemma NotFoundIffAllMissing(host: Host, filename: string)
    ensures Resolution(host, filename).result == Failure(PluginNotFound)
      <==> && SearchDirs(host).Success?
           && forall p :: p in Candidates(SearchDirs(host).value, filename) ==> !Present(host, p)
  {
  }

  /** A failing host call ends the search before any candidate is examined. */
  lemma HostFailureProbesNothing(host: Host, filename: string)
    requires SearchDirs(host).Failure?
    ensures Resolution(host, filename) == Search(Failure(SearchDirs(host).error), [])
  {
  }

  /** The search order: own directory, working directory, then each PATH entry in order. */
  lemma SearchOrder(host: Host, filename: string)
    requires SearchDirs(host).Success?
    ensures var paths := Candidates(SearchDirs(host).value, filename);
      && |paths| == 2 + |Split(host.pathEnv, PathListSeparator)|
      && |paths| >= 3
      && paths[0] == Candidate(host.abs(DirPart(host.executable.value)).value, filename)
      && paths[1] == Candidate(host.workingDir.value, filename)
      && forall i :: 0 <= i < |Split(host.pathEnv, PathListSeparator)| ==>
           paths[i + 2] == Candidate(Split(host.pathEnv, PathListSeparator)[i], filename)
  {
  }

  /** An empty PATH still contributes one candidate: the file in the root directory. */
  lemma EmptyPathSearchesRoot(host: Host, filename: string)
    requires SearchDirs(host).Success? && host.pathEnv == ""
    ensures Candidates(SearchDirs(host).value, filename)[2] == [PathSeparator] + filename
    ensures |Candidates(SearchDirs(host).value, filename)| == 3
  {
  }

  /** Whatever is found is a non-empty path naming the file inside some search directory. */
  lemma FoundPathShape(host: Host, filename: string)
    requires Resolution(host, filename).result.Success?
    ensures var path := Resolution(host, filename).result.value;
      && |path| > |filename|
      && path[|path| - |filename| - 1] == PathSeparator
      && path[|path| - |filename|..] == filename
  {
  }
}
