/** How the manager names a plugin binary, its socket and its command line. */
module Naming {
  import opened Wrappers
  import opened Protocol

  /** The prefix of every plugin file name. */
  const PluginPrefix: string := "machine-controller-userdata-"

  const SocketDir: string := "/tmp/"
  const SocketSuffix: string := ".sock"

  /** The file name of the plugin binary for an operating system. */
  function PluginName(os: OperatingSystem): string
  {
    PluginPrefix + os
  }

  /** The unix socket a plugin with the given file name listens on. */
  function SocketAddress(name: string): string
  {
    SocketDir + name + SocketSuffix
  }

  /** The operating system whose plugin listens on `address`, if it is a plugin socket at all. */
  function OsOfAddress(address: string): (os: Option<OperatingSystem>)
  {
    var head := SocketDir + PluginPrefix;
    if |address| >= |head| + |SocketSuffix|
       && address[..|head|] == head
       && address[|address| - |SocketSuffix|..] == SocketSuffix
    then Some(address[|head|..|address| - |SocketSuffix|])
    else None
  }

  /** The socket address gives back the operating system it was derived from. */
  lemma AddressRoundTrip(os: OperatingSystem)
    ensures OsOfAddress(SocketAddress(PluginName(os))) == Some(os)
  {
    var head := SocketDir + PluginPrefix;
    var address := SocketAddress(PluginName(os));
    assert address == head + os + SocketSuffix;
    assert address[..|head|] == head;
    assert address[|address| - |SocketSuffix|..] == SocketSuffix;
    assert address[|head|..|address| - |SocketSuffix|] == os;
  }

  /** Every plugin socket address is the address of the operating system it names. */
  lemma AddressOfOs(address: string)
    requires OsOfAddress(address).Some?
    ensures SocketAddress(PluginName(OsOfAddress(address).value)) == address
  {
  }

  /** Distinct operating systems never share a socket. */
  lemma {:induction false} AddressInjective(a: OperatingSystem, b: OperatingSystem)
    ensures SocketAddress(PluginName(a)) == SocketAddress(PluginName(b)) ==> a == b
  {
    AddressRoundTrip(a);
    AddressRoundTrip(b);
  }

  /** The command line of a freshly launched plugin. */
  function LaunchArgs(address: string, debug: bool): seq<string>
  {
    ["-address", address] + (if debug then ["-debug"] else [])
  }

  /** The launch arguments pass the socket address after "-address" and "-debug" exactly when debugging. */
  lemma LaunchArgsCarrySettings(os: OperatingSystem, debug: bool)
    ensures var argv := LaunchArgs(SocketAddress(PluginName(os)), debug);
      && |argv| == (if debug then 3 else 2)
      && argv[0] == "-address" && argv[1] == SocketAddress(PluginName(os))
      && ("-debug" in argv <==> debug)
  {
  }
}
