/** Properties of a start attempt, stated over its specification. */
module StartProperties {
  import opened Wrappers
  import opened Seqs
  import opened Errors
  import opened Protocol
  import opened Naming
  import opened Resolver
  import opened PluginManager

  /** The number of processes a trace spawns. */
  function Spawns(trace: seq<Effect>): nat
    decreases |trace|
  {
    if trace == [] then 0
    else (if trace[0].Spawn? then 1 else 0) + Spawns(trace[1..])
  }

  lemma {:induction false} SpawnsAppend(a: seq<Effect>, b: seq<Effect>)
    ensures Spawns(a + b) == Spawns(a) + Spawns(b)
    decreases |a|
  {
    if a != [] {
      assert (a + b)[1..] == a[1..] + b;
      SpawnsAppend(a[1..], b);
    } else {
      assert a + b == b;
    }
  }

  /** A trace without a spawn counts no spawn. */
  lemma {:induction false} SpawnsNone(trace: seq<Effect>)
    requires forall i :: 0 <= i < |trace| ==> !trace[i].Spawn?
    ensures Spawns(trace) == 0
    decreases |trace|
  {
    if trace != [] {
      SpawnsNone(trace[1..]);
    }
  }

  /** The trace asks for nothing beyond stat calls. */
  predicate OnlyStats(trace: seq<Effect>)
  {
    forall i :: 0 <= i < |trace| ==> trace[i].Stat?
  }

  /** The trace neither removes the socket nor spawns a process. */
  predicate LaunchFree(trace: seq<Effect>)
  {
    forall i :: 0 <= i < |trace| ==> !trace[i].RemoveSocket? && !trace[i].Spawn?
  }

  /** The branch of startPlugin that launches: no listener, or a listener reporting no executable. */
  predicate Launches(w: World)
  {
    w.probe.DialFailed? || w.ping == PingReply("")
  }

  function Found(os: OperatingSystem, w: World): Result<string, Error>
  {
    Resolution(w.host, PluginName(os)).result
  }

  /** A failed resolution is returned before any dial, ping, socket removal or launch. */
  lemma ResolutionFailureStopsEarly(os: OperatingSystem, debug: bool, w: World)
    requires Found(os, w).Failure?
    ensures var run := Start(os, debug, w);
      && run.err == Some(Found(os, w).error)
      && run.stored.None?
      && OnlyStats(run.trace)
  {
  }

  /** The running plugin is reused, with nothing removed or launched, exactly when it reports the resolved path. */
  lemma ReuseIffMatching(os: OperatingSystem, debug: bool, w: World)
    requires Found(os, w).Success?
    ensures var run := Start(os, debug, w);
      (run.err.None? && LaunchFree(run.trace))
        <==> (w.probe.Dialed? && w.ping == PingReply(Found(os, w).value))
    ensures var run := Start(os, debug, w);
      w.probe.Dialed? && w.ping == PingReply(Found(os, w).value) ==> run.stored == Some(Some(w.probe.client))
  {
    var run := Start(os, debug, w);
    var fqpn := Found(os, w).value;
    var name := PluginName(os);
    var stats := StatTrace(Resolution(w.host, name).probed);
    var address := SocketAddress(name);
    FoundPathShape(w.host, name);
    if Launches(w) && w.spawn.None? && run.err.None? {
      var stored := if w.probe.Dialed? then Some(Some(w.probe.client)) else None;
      var asked := if w.probe.Dialed? then stats + [Dial(address)] + [Ping] else stats + [Dial(address)];
      assert run == LaunchRun(fqpn, address, debug, w, stored, asked);
      var k := FirstWhere(w.poll, Refused);
      assert run.trace[|asked| + 1] == Spawn(fqpn, LaunchArgs(address, debug));
    }
  }

  /** A listener reporting another non-empty executable is refused with an error naming both paths. */
  lemma RefuseForeignPlugin(os: OperatingSystem, debug: bool, w: World)
    requires Found(os, w).Success?
    requires w.probe.Dialed? && w.ping.PingReply?
    requires w.ping.executable != Found(os, w).value && w.ping.executable != ""
    ensures var run := Start(os, debug, w);
      && run.err == Some(Message(ReuseMismatch(Found(os, w).value, w.ping.executable)))
      && run.stored == Some(Some(w.probe.client))
      && LaunchFree(run.trace)
  {
  }

  /** A failed Ping is returned as it is, and nothing is launched. */
  lemma PingFailurePropagates(os: OperatingSystem, debug: bool, w: World)
    requires Found(os, w).Success?
    requires w.probe.Dialed? && w.ping.PingFailed?
    ensures var run := Start(os, debug, w);
      && run.err == Some(TransportError(w.ping.reason))
      && LaunchFree(run.trace)
  {
  }

  /**
   * A failed dial is no error: the stale socket is removed and the binary is spawned with the
   * launch arguments, right after the dial.
   */
  lemma FailedDialLaunches(os: OperatingSystem, debug: bool, w: World)
    requires Found(os, w).Success? && w.probe.DialFailed?
    ensures var run := Start(os, debug, w);
      var probed := Resolution(w.host, PluginName(os)).probed;
      var address := SocketAddress(PluginName(os));
      && |run.trace| >= |probed| + 3
      && run.trace[..|probed| + 3]
           == StatTrace(probed) + [Dial(address), RemoveSocket(address), Spawn(Found(os, w).value, LaunchArgs(address, debug))]
  {
  }

  /** The launch branch adds exactly one spawn to the trace before it. */
  lemma {:induction false} SpawnsLaunch(fqpn: string, address: string, debug: bool, w: World,
                                        stored: Option<Option<Client>>, trace: seq<Effect>)
    ensures Spawns(LaunchRun(fqpn, address, debug, w, stored, trace).trace) == Spawns(trace) + 1
  {
    var launch := [RemoveSocket(address), Spawn(fqpn, LaunchArgs(address, debug))];
    assert launch[1..] == [launch[1]] && [launch[1]][1..] == [];
    assert Spawns([launch[1]]) == 1;
    assert Spawns(launch) == 1;
    SpawnsAppend(trace, launch);
    var n := match FirstWhere(w.poll, Refused) case Some(k) => k + 1 case None => |w.poll|;
    SpawnsNone(DialTrace(address, n));
    SpawnsAppend(trace + launch, DialTrace(address, n));
  }

  /** A start attempt spawns at most one process. */
  lemma {:induction false} AtMostOneSpawn(os: OperatingSystem, debug: bool, w: World)
    ensures Spawns(Start(os, debug, w).trace) <= 1
  {
    var name := PluginName(os);
    var search := Resolution(w.host, name);
    var stats := StatTrace(search.probed);
    SpawnsNone(stats);
    if search.result.Success? {
      var address := SocketAddress(name);
      var dialed := stats + [Dial(address)];
      SpawnsNone(dialed);
      SpawnsNone(dialed + [Ping]);
      if w.probe.DialFailed? {
        SpawnsLaunch(search.result.value, address, debug, w, None, dialed);
      } else {
        SpawnsLaunch(search.result.value, address, debug, w, Some(Some(w.probe.client)), dialed + [Ping]);
      }
    }
  }

  /**
   * After a launch the poll keeps the source's condition: it reports success exactly when
   * some dial FAILS, and then leaves the handle with the nil client; otherwise it times out.
   */
  lemma PollSucceedsOnFailedDial(os: OperatingSystem, debug: bool, w: World)
    requires Found(os, w).Success? && Launches(w) && w.spawn.None?
    ensures var run := Start(os, debug, w);
      && (run.err.None? <==> exists j :: 0 <= j < |w.poll| && Refused(w.poll[j]))
      && (run.err.None? ==> run.stored == Some(None))
      && (run.err.Some? ==> run.err == Some(WaitTimeout))
  {
  }

  /** A successful spawn is followed at once by at least one dial of the plugin's socket. */
  lemma SpawnFollowedByDial(os: OperatingSystem, debug: bool, w: World)
    requires Found(os, w).Success? && Launches(w) && w.spawn.None?
    ensures var run := Start(os, debug, w);
      var address := SocketAddress(PluginName(os));
      var before := |Resolution(w.host, PluginName(os)).probed| + (if w.probe.Dialed? then 2 else 1);
      && |run.trace| >= before + 3
      && run.trace[before + 1] == Spawn(Found(os, w).value, LaunchArgs(address, debug))
      && run.trace[before + 2] == Dial(address)
  {
    var name := PluginName(os);
    var stats := StatTrace(Resolution(w.host, name).probed);
    var address := SocketAddress(name);
    var fqpn := Found(os, w).value;
    FoundPathShape(w.host, name);
    var asked := if w.probe.Dialed? then stats + [Dial(address)] + [Ping] else stats + [Dial(address)];
    var stored := if w.probe.Dialed? then Some(Some(w.probe.client)) else None;
    assert Start(os, debug, w) == LaunchRun(fqpn, address, debug, w, stored, asked);
  }

  /** A failed spawn is returned after the launch is requested. */
  lemma SpawnFailureReported(os: OperatingSystem, debug: bool, w: World)
    requires Found(os, w).Success? && Launches(w) && w.spawn.Some?
    ensures Start(os, debug, w).err == Some(SystemError(w.spawn.value))
  {
  }

  /** Every dial and every socket removal in the trace targets `address`. */
  predicate Targets(trace: seq<Effect>, address: string)
  {
    forall i :: 0 <= i < |trace| && (trace[i].Dial? || trace[i].RemoveSocket?) ==> trace[i].address == address
  }

  lemma TargetsLaunch(fqpn: string, address: string, debug: bool, w: World,
                      stored: Option<Option<Client>>, trace: seq<Effect>)
    requires Targets(trace, address)
    ensures Targets(LaunchRun(fqpn, address, debug, w, stored, trace).trace, address)
  {
    var launched := trace + [RemoveSocket(address), Spawn(fqpn, LaunchArgs(address, debug))];
    assert Targets(launched, address);
    var n := match FirstWhere(w.poll, Refused) case Some(k) => k + 1 case None => |w.poll|;
    assert Targets(launched + DialTrace(address, n), address);
  }

  lemma TargetsNegotiate(fqpn: string, address: string, debug: bool, w: World, stats: seq<Effect>)
    requires fqpn != ""
    requires Targets(stats, address)
    ensures Targets(Negotiate(fqpn, address, debug, w, stats).trace, address)
  {
    var dialed := stats + [Dial(address)];
    assert Targets(dialed, address);
    assert Targets(dialed + [Ping], address);
    if w.probe.DialFailed? {
      TargetsLaunch(fqpn, address, debug, w, None, dialed);
    } else {
      TargetsLaunch(fqpn, address, debug, w, Some(Some(w.probe.client)), dialed + [Ping]);
    }
  }

  /** Every dial and every socket removal of a start attempt targets the socket of its operating system. */
  lemma SocketOfOs(os: OperatingSystem, debug: bool, w: World)
    ensures Targets(Start(os, debug, w).trace, SocketAddress(PluginName(os)))
  {
    var name := PluginName(os);
    var search := Resolution(w.host, name);
    var stats := StatTrace(search.probed);
    assert Targets(stats, SocketAddress(name));
    if search.result.Success? {
      FoundPathShape(w.host, name);
      TargetsNegotiate(search.result.value, SocketAddress(name), debug, w, stats);
    }
  }
}
