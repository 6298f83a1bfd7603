/** The plugin capabilities of pkg/plugins/skeleton (eviction.go, reporter.go, qrm.go)
    and the dummy plugins that implement them. */
module Skeleton {

  import opened Wrappers

  /** The plugin RPC services a plugin type can implement. */
  datatype Service = EvictionPluginServer | ReporterPluginServer | ResourcePluginServer

  /** What the registration wrapper can observe of a plugin value: GenericPlugin's
      Name(), the RPC services its type implements, and the result of ResourceName()
      when its type has that method (None when it does not). */
  datatype Plugin = Plugin(name: string, services: set<Service>, resourceName: Option<string>)

  /** The error a plugin's Start or Stop may return. */
  datatype PluginError = PluginError(message: string)

  /** EvictionPlugin: GenericPlugin plus the eviction RPC server. */
  predicate IsEvictionPlugin(p: Plugin) {
    EvictionPluginServer in p.services
  }

  /** ReporterPlugin: GenericPlugin plus the reporter RPC server. */
  predicate IsReporterPlugin(p: Plugin) {
    ReporterPluginServer in p.services
  }

  /** QRMPlugin: GenericPlugin plus the resource-plugin RPC server plus ResourceName(). */
  predicate IsQRMPlugin(p: Plugin) {
    ResourcePluginServer in p.services && p.resourceName.Some?
  }

  const FakeEvictionPluginName: string := "fake-eviction-plugin"
  const FakeReporterPluginName: string := "fake-reporter-plugin"
  const FakeQRMPluginName: string := "fake-qrm-plugin"
  const FakeQRMResourceName: string := "test_resource"

  /** DummyEvictionPlugin, DummyReporterPlugin and DummyQRMPlugin: stateless plugins
      whose methods all return constants. */
  datatype DummyPlugin = DummyEvictionPlugin | DummyReporterPlugin | DummyQRMPlugin {

    function Name(): string {
      match this
      case DummyEvictionPlugin => FakeEvictionPluginName
      case DummyReporterPlugin => FakeReporterPluginName
      case DummyQRMPlugin => FakeQRMPluginName
    }

    /** Start and Stop of every dummy return nil, so any order of calls is tolerated. */
    function Start(): Option<PluginError> {
      None
    }

    function Stop(): Option<PluginError> {
      None
    }

    /** ResourceName() where the type declares it: "" for the eviction dummy,
        "test_resource" for the QRM dummy; the reporter dummy has no such method. */
    function ResourceName(): Option<string> {
      match this
      case DummyEvictionPlugin => Some("")
      case DummyReporterPlugin => None
      case DummyQRMPlugin => Some(FakeQRMResourceName)
    }

    function Services(): set<Service> {
      match this
      case DummyEvictionPlugin => {EvictionPluginServer}
      case DummyReporterPlugin => {ReporterPluginServer}
      case DummyQRMPlugin => {ResourcePluginServer}
    }

    /** The dummy as the wrapper sees it: each dummy has exactly one capability. */
    function AsPlugin(): (p: Plugin)
      ensures p.name == Name() && p.resourceName == ResourceName()
      ensures IsEvictionPlugin(p) <==> this == DummyEvictionPlugin
      ensures IsReporterPlugin(p) <==> this == DummyReporterPlugin
      ensures IsQRMPlugin(p) <==> this == DummyQRMPlugin
    {
      Plugin(Name(), Services(), ResourceName())
    }
  }

  /** The dummies' names are pairwise distinct, and the QRM dummy's resource name
      differs from its plugin name. */
  lemma DummyNames()
    ensures DummyEvictionPlugin.Name() != DummyReporterPlugin.Name()
    ensures DummyReporterPlugin.Name() != DummyQRMPlugin.Name()
    ensures DummyEvictionPlugin.Name() != DummyQRMPlugin.Name()
    ensures DummyQRMPlugin.ResourceName() == Some("test_resource") != Some(DummyQRMPlugin.Name())
  {
  }

  /** Start and Stop of a dummy never fail, whatever was called before. */
  lemma DummyLifecycleNeverFails(d: DummyPlugin)
    ensures d.Start().None? && d.Stop().None?
  {
  }
}
