/** pkg/plugins/registration/pluginregistration.go: the registration handshake a
    host-side plugin watcher calls on every socket of a plugin. */
module Registration {

  import opened Wrappers

  /** Plugin kinds and the base protocol version advertised by katalyst plugins. */
  const EvictionPlugin: string := "EvictionPlugin"
  const ReporterPlugin: string := "ReporterPlugin"
  const QoSResourcePlugin: string := "QoSResourcePlugin"
  const BaseVersion: string := "v1alpha1"

  /** The handler keeps the identity fixed at construction; it has no other state. */
  datatype RegistrationHandler = RegistrationHandler(
    pluginType: string,
    pluginName: string,
    supportedVersions: seq<string>)

  /** The watcher's PluginInfo message. */
  datatype PluginInfo = PluginInfo(kind: string, name: string, supportedVersions: seq<string>)

  /** The watcher's RegistrationStatus message. */
  datatype RegistrationStatus = RegistrationStatus(pluginRegistered: bool, error: string)

  /** The (empty) RegistrationStatusResponse message. */
  datatype RegistrationStatusResponse = RegistrationStatusResponse

  /** The RPC error type; neither RPC of this handler ever produces one. */
  datatype RpcError = RpcError(message: string)

  datatype Reply<T> = Reply(response: T, err: Option<RpcError>)

  function NewRegistrationHandler(pluginType: string, pluginName: string, supportedVersions: seq<string>)
    : (h: RegistrationHandler)
    ensures h.pluginType == pluginType && h.pluginName == pluginName
    ensures h.supportedVersions == supportedVersions
  {
    RegistrationHandler(pluginType, pluginName, supportedVersions)
  }

  /** GetInfo answers with the handler's identity and never fails. */
  function GetInfo(h: RegistrationHandler): (r: Reply<PluginInfo>)
    ensures r.err.None?
    ensures r.response.kind == h.pluginType && r.response.name == h.pluginName
    ensures r.response.supportedVersions == h.supportedVersions
  {
    Reply(PluginInfo(h.pluginType, h.pluginName, h.supportedVersions), None)
  }

  /** NotifyRegistrationStatus only logs a failed registration (logging is not modelled)
      and always acknowledges with an empty response. */
  function NotifyRegistrationStatus(h: RegistrationHandler, status: RegistrationStatus)
    : (r: Reply<RegistrationStatusResponse>)
    ensures r.err.None? && r.response == RegistrationStatusResponse
  {
    Reply(RegistrationStatusResponse, None)
  }

  /** The three kind strings are pairwise distinct. */
  lemma KindsDistinct()
    ensures EvictionPlugin != ReporterPlugin && ReporterPlugin != QoSResourcePlugin
    ensures EvictionPlugin != QoSResourcePlugin
  {
  }

  /** GetInfo reports exactly what the handler was constructed with. */
  lemma GetInfoRoundTrip(pluginType: string, pluginName: string, supportedVersions: seq<string>)
    ensures GetInfo(NewRegistrationHandler(pluginType, pluginName, supportedVersions))
         == Reply(PluginInfo(pluginType, pluginName, supportedVersions), None)
  {
  }
}
