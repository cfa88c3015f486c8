/**
 * The plugin handle: reusing a running plugin or launching a fresh one, waiting for it to
 * listen, and unwrapping the answers of its user-data call. Every operating-system and network
 * effect is an outcome taken as input, and the effects the manager requests are recorded, in
 * order, as a trace.
 */
module PluginManager {
  import opened Wrappers
  import opened Seqs
  import opened Errors
  import opened Protocol
  import opened Naming
  import opened Resolver

  /** An effect the manager asks of the operating system or of the network. */
  datatype Effect =
    | Stat(path: string)                        // os.Stat of a candidate binary
    | Dial(address: string)                     // rpc.DialHTTPPath on the plugin socket
    | Ping                                      // the Plugin.Ping call
    | RemoveSocket(address: string)             // os.Remove of a stale socket file
    | Spawn(binary: string, argv: seq<string>)  // exec.Command(binary, argv...).Start()

  /**
   * The dials wait.PollImmediate makes before its deadline, in order. It runs its condition
   * once before it first waits, so there is always at least one.
   */
  type Attempts = s: seq<DialOutcome> | |s| >= 1 witness [DialFailed("")]

  /** The answers the world gives to one start attempt. */
  datatype World = World(
    host: Host,                 // what findPlugin learns
    probe: DialOutcome,         // isRunning's dial
    ping: PingOutcome,          // the reply to Ping, asked only after a successful dial
    spawn: Option<string>,      // cmd.Start's error, if any
    poll: Attempts)             // the dials the poll makes before its deadline

  /**
   * What a start attempt does: the error it returns, the last value it stores in the handle's
   * client field (None when it stores nothing), and the effects it requests.
   */
  datatype Run = Run(err: Option<Error>, stored: Option<Option<Client>>, trace: seq<Effect>)

  function StatTrace(paths: seq<string>): seq<Effect>
  {
    seq(|paths|, i requires 0 <= i < |paths| => Stat(paths[i]))
  }

  function DialTrace(address: string, n: nat): seq<Effect>
  {
    seq(n, _ => Dial(address))
  }

  predicate Refused(d: DialOutcome)
  {
    d.DialFailed?
  }

  /**
   * The launch branch: remove the stale socket, spawn the binary, then poll. The poll keeps
   * the condition as the source writes it: it stops at the first dial that FAILS, storing the
   * nil client of that dial, and it times out when every dial succeeds.
   */
  function LaunchRun(fqpn: string, address: string, debug: bool, w: World,
                     stored: Option<Option<Client>>, trace: seq<Effect>): Run
  {
    var launched := trace + [RemoveSocket(address), Spawn(fqpn, LaunchArgs(address, debug))];
    match w.spawn
    case Some(m) => Run(Some(SystemError(m)), stored, launched)
    case None =>
      match FirstWhere(w.poll, Refused)
      case Some(k) => Run(None, Some(None), launched + DialTrace(address, k + 1))
      case None => Run(Some(WaitTimeout), stored, launched + DialTrace(address, |w.poll|))
  }

  /** The launch branch depends on what came before it only by extending its trace and stored client. */
  lemma LaunchRunShift(fqpn: string, address: string, debug: bool, w: World,
                       stored: Option<Option<Client>>, trace: seq<Effect>)
    ensures var alone := LaunchRun(fqpn, address, debug, w, None, []);
      LaunchRun(fqpn, address, debug, w, stored, trace)
        == Run(alone.err, if alone.stored.Some? then alone.stored else stored, trace + alone.trace)
  {
  }

  /** The specification of startPlugin for a handle of operating system `os`. */
  function Start(os: OperatingSystem, debug: bool, w: World): Run
  {
    var name := PluginName(os);
    var search := Resolution(w.host, name);
    var stats := StatTrace(search.probed);
    match search.result
    case Failure(e) => Run(Some(e), None, stats)
    case Success(fqpn) =>
      FoundPathShape(w.host, name);
      Negotiate(fqpn, SocketAddress(name), debug, w, stats)
  }

  /** What startPlugin does once the binary `fqpn` is found: reuse, refuse or launch. */
  function Negotiate(fqpn: string, address: string, debug: bool, w: World, trace: seq<Effect>): Run
    requires fqpn != ""
  {
    var dialed := trace + [Dial(address)];
    match w.probe
    case DialFailed(_) => LaunchRun(fqpn, address, debug, w, None, dialed)
    case Dialed(c) =>
      var pinged := dialed + [Ping];
      match w.ping
      case PingFailed(m) => Run(Some(TransportError(m)), Some(Some(c)), pinged)
      case PingReply(exe) =>
        if exe == fqpn then Run(None, Some(Some(c)), pinged)
        else if exe != "" then Run(Some(Message(ReuseMismatch(fqpn, exe))), Some(Some(c)), pinged)
        else LaunchRun(fqpn, address, debug, w, Some(Some(c)), pinged)
  }

  /** The client field after a run that started from `before`. */
  function ClientAfter(run: Run, before: Option<Client>): Option<Client>
  {
    if run.stored.Some? then run.stored.value else before
  }

  /** The user-data call's answer as a (data, error) pair. */
  function Unwrap(call: CallOutcome): (r: (string, Option<Error>))
    ensures r.1.None? <==> call.Replied? && call.response.err == ""
    ensures r.1.None? ==> r.0 == call.response.userData
    ensures r.1.Some? ==> r.0 == ""
    ensures call.CallFailed? ==> r.1 == Some(TransportError(call.reason))
    ensures call.Replied? && call.response.err != "" ==> r.1 == Some(Message(call.response.err))
  {
    match call
    case CallFailed(m) => ("", Some(TransportError(m)))
    case Replied(resp) =>
      if resp.err != "" then ("", Some(Message(resp.err)))
      else (resp.userData, None)
  }

  /** The manager's handle on the plugin of one operating system. */
  class Plugin {
    const os: OperatingSystem
    const debug: bool
    var client: Option<Client>  // None is the nil *rpc.Client

    constructor (os: OperatingSystem, debug: bool)
      ensures this.os == os && this.debug == debug && client == None
    {
      this.os := os;
      this.debug := debug;
      client := None;
    }

    /** The operating system this plugin is responsible for: the one its socket is named after. */
    function OperatingSystem(): (r: OperatingSystem)
      ensures r == os
      ensures OsOfAddress(SocketAddress(PluginName(r))) == Some(os)
    {
      AddressRoundTrip(os);
      os
    }

    /**
     * isRunning: dial the socket; a failed dial is not an error and reports no executable.
     * A successful dial is kept as the client, and the Ping reply is the executable reported.
     */
    method IsRunning(address: string, probe: DialOutcome, ping: PingOutcome)
      returns (executable: string, err: Option<Error>, trace: seq<Effect>)
      modifies this
      ensures trace == [Dial(address)] + (if probe.Dialed? then [Ping] else [])
      ensures client == (if probe.Dialed? then Some(probe.client) else old(client))
      ensures probe.DialFailed? ==> executable == "" && err == None
      ensures probe.Dialed? && ping.PingFailed? ==> executable == "" && err == Some(TransportError(ping.reason))
      ensures probe.Dialed? && ping.PingReply? ==> executable == ping.executable && err == None
    {
      trace := [Dial(address)];
      if probe.DialFailed? {
        return "", None, trace;
      }
      client := Some(probe.client);
      trace := trace + [Ping];
      if ping.PingFailed? {
        return "", Some(TransportError(ping.reason)), trace;
      }
      return ping.executable, None, trace;
    }

    /**
     * The poll after a launch (wait.PollImmediate over the dials made before the deadline),
     * with the condition as written: the first FAILED dial stores its nil client and ends the
     * poll with success; a successful dial's client is dropped and the poll goes on.
     */
    method AwaitPlugin(address: string, dials: Attempts)
      returns (err: Option<Error>, trace: seq<Effect>)
      modifies this
      ensures match FirstWhere(dials, Refused)
        case Some(k) => err == None && client == None && trace == DialTrace(address, k + 1)
        case None => err == Some(WaitTimeout) && client == old(client) && trace == DialTrace(address, |dials|)
    {
      trace := [];
      var i := 0;
      while i < |dials|
        invariant 0 <= i <= |dials|
        invariant trace == DialTrace(address, i)
        invariant forall j :: 0 <= j < i ==> !Refused(dials[j])
        invariant client == old(client)
      {
        trace := trace + [Dial(address)];
        if dials[i].DialFailed? {
          client := None;
          FirstWhereAt(dials, Refused, i);
          return None, trace;
        }
        i := i + 1;
      }
      return Some(WaitTimeout), trace;
    }

    /** startPlugin: find the binary, reuse a matching running plugin, or launch a fresh one. */
    method StartPlugin(w: World) returns (err: Option<Error>, trace: seq<Effect>)
      modifies this
      ensures var run := Start(os, debug, w);
        err == run.err && trace == run.trace && client == ClientAfter(run, old(client))
    {
      var name := PluginName(os);
      var found, probed := FindPlugin(w.host, name);
      trace := StatTrace(probed);
      if found.Failure? {
        return Some(found.error), trace;
      }
      var fqpn := found.value;
      FoundPathShape(w.host, name);
      assert fqpn != "";
      var address := SocketAddress(name);
      ghost var stats := trace;
      ghost var run := Negotiate(fqpn, address, debug, w, stats);
      assert Start(os, debug, w) == run;
      var executable, runErr, dialTrace := IsRunning(address, w.probe, w.ping);
      trace := trace + dialTrace;
      ghost var stored := if w.probe.Dialed? then Some(Some(w.probe.client)) else None;
      if runErr.Some? {
        assert run == Run(runErr, stored, trace);
        return runErr, trace;
      }
      if executable == fqpn {
        assert run == Run(None, stored, trace);
        return None, trace;
      }
      if executable != "" {
        assert run == Run(Some(Message(ReuseMismatch(fqpn, executable))), stored, trace);
        return Some(Message(ReuseMismatch(fqpn, executable))), trace;
      }
      ghost var asked := trace;
      if w.probe.DialFailed? {
        assert asked == stats + [Dial(address)];
      } else {
        assert w.ping == PingReply("");
        assert asked == stats + [Dial(address)] + [Ping];
      }
      assert run == LaunchRun(fqpn, address, debug, w, stored, asked);
      assert client == (if stored.Some? then stored.value else old(client));
      ghost var alone := LaunchRun(fqpn, address, debug, w, None, []);
      LaunchRunShift(fqpn, address, debug, w, stored, asked);
      assert run == Run(alone.err, if alone.stored.Some? then alone.stored else stored, asked + alone.trace);
      var launchErr, launchTrace := Launch(fqpn, address, w);
      trace := trace + launchTrace;
      return launchErr, trace;
    }

    /** The launch branch of startPlugin: remove the stale socket, spawn the binary, then poll. */
    method Launch(fqpn: string, address: string, w: World) returns (err: Option<Error>, trace: seq<Effect>)
      modifies this
      ensures var run := LaunchRun(fqpn, address, debug, w, None, []);
        err == run.err && trace == run.trace && client == ClientAfter(run, old(client))
    {
      trace := [RemoveSocket(address)];
      var argv := ["-address", address];
      if debug {
        argv := argv + ["-debug"];
      }
      assert argv == LaunchArgs(address, debug);
      trace := trace + [Spawn(fqpn, argv)];
      if w.spawn.Some? {
        return Some(SystemError(w.spawn.value)), trace;
      }
      var pollErr, attempts := AwaitPlugin(address, w.poll);
      trace := trace + attempts;
      return pollErr, trace;
    }

    /** UserData: send the request over the client and unwrap the plugin's answer. */
    method UserData(spec: MachineSpec, kubeconfig: KubeConfig, ccProvider: ConfigProvider,
                    clusterDNSIPs: seq<IP>, externalCloudProvider: bool,
                    server: UserDataRequest -> CallOutcome)
      returns (data: string, err: Option<Error>)
      requires client.Some?
      ensures (data, err) == Unwrap(server(UserDataRequest(spec, kubeconfig, ccProvider, clusterDNSIPs, externalCloudProvider)))
    {
      var req := UserDataRequest(spec, kubeconfig, ccProvider, clusterDNSIPs, externalCloudProvider);
      var call := server(req);
      if call.CallFailed? {
        return "", Some(TransportError(call.reason));
      }
      if call.response.err != "" {
        return "", Some(Message(call.response.err));
      }
      return call.response.userData, None;
    }

    /** Stop: close the client; the close error, if any, is returned and the handle is left as it is. */
    method Stop(closeFailure: Option<string>) returns (err: Option<Error>)
      requires client.Some?
      ensures closeFailure.None? <==> err.None?
      ensures closeFailure.Some? ==> err == Some(TransportError(closeFailure.value))
    {
      if closeFailure.Some? {
        return Some(TransportError(closeFailure.value));
      }
      return None;
    }
  }

  /** newPlugin: a handle for `os` whose start succeeded, or the start's error. */
  method NewPlugin(os: OperatingSystem, debug: bool, w: World)
    returns (p: Option<Plugin>, err: Option<Error>, trace: seq<Effect>)
    ensures err == Start(os, debug, w).err && trace == Start(os, debug, w).trace
    ensures p.Some? <==> err.None?
    ensures p.Some? ==> fresh(p.value) && p.value.OperatingSystem() == os && p.value.debug == debug
    ensures p.Some? ==> p.value.client == ClientAfter(Start(os, debug, w), None)
  {
    var plugin := new Plugin(os, debug);
    err, trace := plugin.StartPlugin(w);
    if err.Some? {
      return None, err, trace;
    }
    return Some(plugin), None, trace;
  }
}
