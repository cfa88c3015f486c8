/**
 * The outcomes of the remote calls the manager makes over the plugin's unix socket, as seen
 * by the manager: a dial either yields a client or fails, and each call either yields the
 * plugin's response or fails in transport. The request and response records follow
 * pkg/userdata/plugin, which is not part of this model; its payload types are opaque here.
 */
module Protocol {

  /** The identity of one *rpc.Client connection. */
  datatype Client = Client(id: nat)

  /** rpc.DialHTTPPath("unix", address, plugin.RPCPath). */
  datatype DialOutcome = Dialed(client: Client) | DialFailed(reason: string)

  /** client.Call("Plugin.Ping", ...): the executable the running plugin was started from. */
  datatype PingOutcome = PingReply(executable: string) | PingFailed(reason: string)

  // Opaque payloads, passed through unchanged.
  type OperatingSystem = string
  type MachineSpec = string
  type KubeConfig = string
  type ConfigProvider = string
  type IP = string

  datatype UserDataRequest = UserDataRequest(
    machineSpec: MachineSpec,
    kubeConfig: KubeConfig,
    cloudConfig: ConfigProvider,
    dnsIPs: seq<IP>,
    externalCloudProvider: bool)

  /** An empty `err` means success. */
  datatype UserDataResponse = UserDataResponse(userData: string, err: string)

  /** client.Call("Plugin.UserData", req, &resp). */
  datatype CallOutcome = Replied(response: UserDataResponse) | CallFailed(reason: string)
}
