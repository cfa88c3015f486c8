# Plugin lifecycle of the machine-controller user-data manager

This project models, in Dafny, the manager side of the user-data plugins of the
machine controller (`pkg/userdata/manager/plugin.go`). For one operating system the
manager derives the plugin's binary name (`machine-controller-userdata-<os>`) and its
unix socket (`/tmp/machine-controller-userdata-<os>.sock`), looks for the binary in its
own directory, the working directory and the `PATH` entries, and then either reuses a
plugin already listening on the socket (when its `Ping` reports the same executable),
refuses a foreign one, or removes the stale socket, spawns the binary with
`-address <socket> [-debug]` and polls the socket. Once started, a plugin answers the
user-data call, whose transport error, application error or data is turned into a
`(string, error)` pair.

Every operating-system and network effect is an input: the host's answers
(`os.Executable`, `filepath.Abs`, `os.Getwd`, `PATH`, `os.Stat`) form a `Host`, and
the outcomes of the dial, the Ping, `cmd.Start` and the poll's dials form a `World`.
What the manager asks of the outside world is recorded, in order, as a trace of
effects (`Stat`, `Dial`, `Ping`, `RemoveSocket`, `Spawn`), so that "nothing is
launched" or "no dial happens" are statements about that trace.

Files and modules:

- `wrappers.dfy` (`Wrappers`): `Option` and `Result`.
- `seqs.dfy` (`Seqs`): `FirstWhere`, the first element of a sequence that satisfies a
  predicate; both search loops of the manager stop at such an element.
- `golib.dfy` (`GoLib`): Go's `strings.Split` with a one-character separator, its
  inverse `strings.Join`, and the directory half of `filepath.Split`, with the Unix
  separators `/` and `:`.
- `errors.dfy` (`Errors`): the errors returned to callers and the text of the
  mismatch error.
- `protocol.dfy` (`Protocol`): the outcomes of dials and remote calls, and the
  request and response records of the user-data call. Their declaring package,
  `pkg/userdata/plugin`, is not part of this model; its payload types are opaque here.
- `naming.dfy` (`Naming`): binary name, socket address, launch arguments.
- `resolver.dfy` (`Resolver`): `findPlugin` as the specification `Resolution` and the
  loop `FindPlugin`.
- `plugin.dfy` (`PluginManager`): the specification `Start` of `startPlugin`, the class
  `Plugin` (fields `os`, `debug`, `client`) with `IsRunning`, `AwaitPlugin`,
  `StartPlugin`, `UserData` and `Stop`, and `NewPlugin`.
- `start_properties.dfy` (`StartProperties`): what a start attempt guarantees.

The model follows what the code does, including where that differs from what a
reader of the names and comments would expect:

- A candidate binary counts as found whenever `os.Stat` does not report "does not
  exist"; a permission error or any other stat error also counts as found.
- A listener whose Ping reports an empty executable is neither reused nor refused:
  the manager goes on to launch a new plugin.
- The poll after a launch has its condition inverted. It ends with success at the
  first dial that FAILS and stores that dial's nil client in the handle. A dial that
  succeeds is dropped, and the poll goes on; when every dial succeeds it times out.
  The model keeps this behaviour (`Plugin.AwaitPlugin`,
  `StartProperties.PollSucceedsOnFailedDial`). A consequence is that a plugin started
  through the launch branch is left with no client, so the precondition of
  `Plugin.UserData` (a client is present; Go would dereference a nil pointer) does not
  hold for it.
- `Stop` only closes the client; it does not terminate the plugin process.

## Model

| member | source | states |
|---|---|---|
| `Seqs.FirstWhere` | pkg/userdata/manager/plugin.go:190-197 | the index returned holds the predicate and every earlier element fails it; None exactly when no element holds it |
| `GoLib.Split` | pkg/userdata/manager/plugin.go:187 | splitting always yields at least one piece, so an empty `PATH` still gives one (empty) entry |
| `GoLib.JoinSplit` | pkg/userdata/manager/plugin.go:187 | joining the pieces of `PATH` with `:` gives back `PATH` |
| `GoLib.SplitJoin` | pkg/userdata/manager/plugin.go:187 | splitting the join of separator-free pieces gives back the pieces |
| `GoLib.SplitCount` | pkg/userdata/manager/plugin.go:187 | there is exactly one more `PATH` entry than `:` characters |
| `GoLib.SplitPiecesFree` | pkg/userdata/manager/plugin.go:187 | no `PATH` entry contains the list separator |
| `GoLib.SplitPrefix` | pkg/userdata/manager/plugin.go:187 | a separator-free prefix becomes part of the first piece of what follows |
| `GoLib.DirPart` | pkg/userdata/manager/plugin.go:176 | the own directory is the longest prefix of the executable path that is empty or ends in `/`, with no `/` after it |
| `Errors.MismatchNamesBoth` | pkg/userdata/manager/plugin.go:117 | the mismatch error's text contains the wanted path and, after it, the reported path |
| `Naming.AddressRoundTrip` | pkg/userdata/manager/plugin.go:100-105 | the socket address `"/tmp/" + "machine-controller-userdata-" + os + ".sock"` gives back `os` |
| `Naming.AddressOfOs` | pkg/userdata/manager/plugin.go:100-105 | every address recognised as a plugin socket is the address of the operating system it names |
| `Naming.AddressInjective` | pkg/userdata/manager/plugin.go:100-105 | two operating systems share a socket only if they are the same |
| `Naming.LaunchArgsCarrySettings` | pkg/userdata/manager/plugin.go:122-125 | argv is `-address <socket>` followed by `-debug` exactly when debugging, and has length 2 or 3 accordingly |
| `Resolver.FindPlugin` | pkg/userdata/manager/plugin.go:170-199 | the loop returns what `Resolution` specifies and stats exactly the candidates it specifies, in order |
| `Resolver.FirstHit` | pkg/userdata/manager/plugin.go:190-197 | a found path is the last path statted, it is present, every earlier candidate is missing, and the statted paths are a prefix of the candidates |
| `Resolver.NotFoundIffAllMissing` | pkg/userdata/manager/plugin.go:190-198 | `ErrPluginNotFound` is returned if and only if the host calls succeed and every candidate is missing |
| `Resolver.HostFailureProbesNothing` | pkg/userdata/manager/plugin.go:172-184 | a failing `os.Executable`, `filepath.Abs` or `os.Getwd` is returned before any stat |
| `Resolver.SearchOrder` | pkg/userdata/manager/plugin.go:185-188 | candidates are exactly the own directory, the working directory, then every `PATH` entry in order, and nothing more |
| `Resolver.EmptyPathSearchesRoot` | pkg/userdata/manager/plugin.go:187-191 | with an empty `PATH` there are three candidates, the third being `/` followed by the file name |
| `Resolver.FoundPathShape` | pkg/userdata/manager/plugin.go:191 | a found path is non-empty and ends with `/` followed by the file name |
| `PluginManager.LaunchRunShift` | pkg/userdata/manager/plugin.go:119-148 | proof helper for `StartPlugin`: the launch branch only extends the trace and the stored client of what came before it |
| `PluginManager.Unwrap` | pkg/userdata/manager/plugin.go:86-94 | no error exactly when the call succeeded and `Err` is empty, and then the data is returned; otherwise the data is empty and the error is the transport error or the text of `Err` |
| `PluginManager.Plugin.constructor` | pkg/userdata/manager/plugin.go:48-51 | a new handle has the given OS and debug flag and no client |
| `PluginManager.Plugin.IsRunning` | pkg/userdata/manager/plugin.go:153-166 | a failed dial is no error and reports no executable; a successful dial is stored as the client and is followed by Ping, whose failure is returned and whose reply is the executable |
| `PluginManager.Plugin.AwaitPlugin` | pkg/userdata/manager/plugin.go:140-148 | dials until the first failed dial, which stores the nil client and succeeds; times out, client untouched, when every dial succeeds |
| `PluginManager.Plugin.Launch` | pkg/userdata/manager/plugin.go:119-148 | removes the socket, spawns the binary with the launch arguments, returns a spawn error or the poll's outcome |
| `PluginManager.Plugin.StartPlugin` | pkg/userdata/manager/plugin.go:99-149 | error, effects and new client are those of the specification `Start` |
| `PluginManager.Plugin.UserData` | pkg/userdata/manager/plugin.go:72-95 | the request carries the five arguments unchanged and the answer is unwrapped as `Unwrap` states |
| `PluginManager.Plugin.Stop` | pkg/userdata/manager/plugin.go:60-62 | the close error, if any, is returned as a transport error and nothing else is |
| `PluginManager.NewPlugin` | pkg/userdata/manager/plugin.go:47-56 | a fresh handle for the OS and debug flag when the start succeeds, with the client the start left; otherwise no handle and the start's error |
| `StartProperties.SpawnsAppend` | pkg/userdata/manager/plugin.go:99-149 | proof helper for `AtMostOneSpawn`: spawns of a concatenated trace add up |
| `StartProperties.SpawnsNone` | pkg/userdata/manager/plugin.go:99-149 | proof helper for `AtMostOneSpawn`: a trace without spawn effects counts none |
| `StartProperties.ResolutionFailureStopsEarly` | pkg/userdata/manager/plugin.go:101-104 | a resolution error is returned with only stat effects: no dial, ping, socket removal or launch, and the client is untouched |
| `StartProperties.ReuseIffMatching` | pkg/userdata/manager/plugin.go:107-114 | the start succeeds without removing the socket or spawning if and only if the dial succeeds and Ping reports the resolved path; the dialed client is then kept |
| `StartProperties.RefuseForeignPlugin` | pkg/userdata/manager/plugin.go:115-118 | a different non-empty executable yields the mismatch error naming both paths, and nothing is removed or launched |
| `StartProperties.PingFailurePropagates` | pkg/userdata/manager/plugin.go:107-110 | a Ping failure is returned as it is and nothing is removed or launched |
| `StartProperties.FailedDialLaunches` | pkg/userdata/manager/plugin.go:119-126 | after the stats, a failed dial is followed directly by the socket removal and the spawn of the resolved binary with the launch arguments |
| `StartProperties.AtMostOneSpawn` | pkg/userdata/manager/plugin.go:99-149 | a start attempt spawns at most one process |
| `StartProperties.PollSucceedsOnFailedDial` | pkg/userdata/manager/plugin.go:140-148 | after a launch the start succeeds if and only if some poll dial fails, then leaving the nil client; otherwise it times out |
| `Naming.PluginName` | pkg/userdata/manager/plugin.go:100 | the binary name; `AddressRoundTrip` and `AddressInjective` show the OS is recoverable from the socket built from it |
| `Naming.SocketAddress` | pkg/userdata/manager/plugin.go:105 | the socket address; `AddressRoundTrip`, `AddressOfOs` and `AddressInjective` state it depends only on, and determines, the OS |
| `Naming.LaunchArgs` | pkg/userdata/manager/plugin.go:122-125 | the launch arguments; `LaunchArgsCarrySettings` states their content |
| `Errors.ReuseMismatch` | pkg/userdata/manager/plugin.go:117 | the mismatch error text; `MismatchNamesBoth` states that it names both paths |
| `Resolver.SearchDirs` | pkg/userdata/manager/plugin.go:172-188 | the search directories or the first host error; `SearchOrder` and `HostFailureProbesNothing` state the order and the early exits |
| `Resolver.Resolution` | pkg/userdata/manager/plugin.go:170-199 | the specification of `findPlugin`; `FirstHit`, `NotFoundIffAllMissing` and `FoundPathShape` state what it returns |
| `PluginManager.Start` | pkg/userdata/manager/plugin.go:99-149 | the specification of `startPlugin`; the `StartProperties` lemmas state its guarantees |
| `PluginManager.Negotiate` | pkg/userdata/manager/plugin.go:106-125 | reuse, refuse or launch once a (necessarily non-empty) binary path is found; `ReuseIffMatching`, `RefuseForeignPlugin`, `PingFailurePropagates` and `FailedDialLaunches` state its outcomes |
| `PluginManager.LaunchRun` | pkg/userdata/manager/plugin.go:119-148 | socket removal, spawn and the poll as written; `PollSucceedsOnFailedDial`, `SpawnFollowedByDial` and `SpawnFailureReported` state its outcomes |
| `PluginManager.Plugin.OperatingSystem` | pkg/userdata/manager/plugin.go:66-68 | a getter: it returns the handle's operating system, which is also the one its socket address decodes back to |
| `StartProperties.SpawnFollowedByDial` | pkg/userdata/manager/plugin.go:136-141 | a successful spawn is followed at once by a dial of the plugin's socket: `wait.PollImmediate` tries before it first waits |
| `StartProperties.SpawnFailureReported` | pkg/userdata/manager/plugin.go:136-138 | a failed `cmd.Start` is returned |
| `StartProperties.SocketOfOs` | pkg/userdata/manager/plugin.go:105 | every dial and socket removal targets the socket derived from the handle's operating system |

## Left out

- Process spawning itself: wiring the child's stdout and stderr and setting `Setpgid`
  (`plugin.go:126-138`) are operating-system calls; the model records the spawn request
  with the binary and argv, and takes `cmd.Start`'s error as an input.
- `net/rpc`: dialing the unix socket, `Call` and `Close` are foreign network calls; their
  outcomes are inputs (`DialOutcome`, `PingOutcome`, `CallOutcome`, the close error).
- Timing of `wait.PollImmediate` (20 ms interval, 5 s timeout): wall-clock polling in a
  foreign library. The poll's dials are given as the non-empty sequence of attempts made
  before the deadline (the first attempt comes before any wait); the model fixes neither
  their number nor their spacing.
- The client of a successful poll dial is dropped without being closed (a leaked
  connection); the model does not track open connections.
- `os.Executable`, `filepath.Abs`, `os.Getwd`, `os.Getenv`, `os.Stat` and `os.Remove`:
  their results are inputs, their own failure modes are reduced to "returns an error"
  (and `os.Remove`'s result is ignored, as in the source).
- Payload types (`MachineSpec`, the kubeconfig, `ConfigProvider`, `net.IP`) are opaque
  strings passed through unchanged.
- `Plugin.UserData`, `Plugin.Stop`: a nil client makes Go panic; the model requires a
  client instead of modelling the panic.
- `Plugin.Stop`: the state inside `rpc.Client` (a second close reports that the client is
  already shut down) is not modelled; the close outcome is an input.
- `cmd/userdata/ubuntu/main.go`: flag parsing and the server loop of one plugin, outside
  the manager.
- The `ErrPluginNotFound` variable is declared outside `plugin.go`; its text is not part
  of this model.
- Concurrency: the code has no locks or goroutines and none is modelled.
