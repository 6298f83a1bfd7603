/** The state machine of PluginRegistrationWrapper (pkg/plugins/skeleton/generic.go),
    stated as pure functions over the wrapper's state: kind resolution at
    construction, the socket paths, and one start cycle (`start`), stop cycle
    (`stop`), `cleanup` and `serve` at a time.  The operating system and gRPC are
    oracle inputs (Env); the log records every call made into the wrapped plugin,
    the gRPC servers and the filesystem, in order. */
module WrapperSpec {

  import opened Wrappers
  import opened Registration
  import opened Skeleton

  /** watcherapi.ResourcePlugin and qrmpluginapi.Version, from the kubelet
      plugin-registration and resource-plugin APIs. */
  const ResourcePlugin: string := "ResourcePlugin"
  const QRMVersion: string := "v1alpha1"

  datatype PluginKind = EvictionKind | ReporterKind | QRMKind

  datatype ConstructionError = NilPlugin | UnsupportedPluginType(name: string)

  /** The kind and registration identity fixed at construction. */
  datatype Resolution = Resolution(kind: PluginKind, handler: RegistrationHandler)

  /** The type switch of NewRegistrationPluginWrapper: a nil plugin is rejected, then
      the kinds are tried in the order Eviction, Reporter, QRM, and a plugin of none
      of them is rejected with its name.  A QRM plugin registers under
      ResourceName(), the other two under Name(). */
  function Resolve(plugin: Option<Plugin>): (r: Result<Resolution, ConstructionError>)
    ensures plugin.None? ==> r == Err(NilPlugin)
    ensures plugin.Some? ==> var p := plugin.value;
      && (IsEvictionPlugin(p) ==>
            r == Ok(Resolution(EvictionKind, RegistrationHandler(EvictionPlugin, p.name, [BaseVersion]))))
      && (!IsEvictionPlugin(p) && IsReporterPlugin(p) ==>
            r == Ok(Resolution(ReporterKind, RegistrationHandler(ReporterPlugin, p.name, [BaseVersion]))))
      && (!IsEvictionPlugin(p) && !IsReporterPlugin(p) && IsQRMPlugin(p) ==>
            r == Ok(Resolution(QRMKind, RegistrationHandler(ResourcePlugin, p.resourceName.value, [QRMVersion]))))
      && (!IsEvictionPlugin(p) && !IsReporterPlugin(p) && !IsQRMPlugin(p) ==>
            r == Err(UnsupportedPluginType(p.name)))
  {
    match plugin
    case None => Err(NilPlugin)
    case Some(p) =>
      if IsEvictionPlugin(p) then
        Ok(Resolution(EvictionKind, NewRegistrationHandler(EvictionPlugin, p.name, [BaseVersion])))
      else if IsReporterPlugin(p) then
        Ok(Resolution(ReporterKind, NewRegistrationHandler(ReporterPlugin, p.name, [BaseVersion])))
      else if IsQRMPlugin(p) then
        Ok(Resolution(QRMKind, NewRegistrationHandler(ResourcePlugin, p.resourceName.value, [QRMVersion])))
      else
        Err(UnsupportedPluginType(p.name))
  }

  /** path.Join of a directory and a file name (lexical cleaning is not modelled). */
  function JoinPath(dir: string, file: string): string {
    if dir == [] then file
    else if dir[|dir| - 1] == '/' then dir + file
    else dir + "/" + file
  }

  function SocketPath(dir: string, pluginName: string): string {
    JoinPath(dir, pluginName + ".sock")
  }

  /** One socket per registration directory, in order, with no deduplication. */
  function SocketPaths(dirs: seq<string>, pluginName: string): (r: seq<string>)
    ensures |r| == |dirs|
    ensures forall i :: 0 <= i < |dirs| ==> r[i] == SocketPath(dirs[i], pluginName)
  {
    if dirs == [] then []
    else SocketPaths(dirs[..|dirs| - 1], pluginName) + [SocketPath(dirs[|dirs| - 1], pluginName)]
  }

  /** A gRPC server, told apart from all others by the serial number of its creation. */
  datatype GrpcServer = GrpcServer(socket: string, serial: nat)

  /** The calls the wrapper makes into the plugin, the servers and the filesystem. */
  datatype Event =
    | PluginStopCalled
    | PluginStartCalled
    | ServerStopped(server: GrpcServer)
    | SocketRemoved(path: string)
    | Listened(path: string)
    | DialChecked(path: string)

  /** Oracle outcomes for one cycle: net.Listen fails on the paths in listenFails (and,
      as on Unix, wherever the socket file already exists), the dial check fails on
      dialFails, os.Remove fails with an error other than "does not exist" on an
      existing file in removeFails; the plugin's Start and Stop fail as the flags say. */
  datatype Env = Env(
    listenFails: set<string>,
    dialFails: set<string>,
    removeFails: set<string>,
    pluginStartFails: bool,
    pluginStopFails: bool)

  /** The wrapper's mutable state: its `servers` list, the servers that are running,
      the socket files on disk, whether the wrapped plugin is started, the serial
      number the next server gets, and the log. */
  datatype Machine = Machine(
    servers: seq<GrpcServer>,
    live: set<GrpcServer>,
    files: set<string>,
    pluginStarted: bool,
    nextSerial: nat,
    log: seq<Event>)

  datatype StartError = EmptySockets | PluginStartFailed | RemoveFailed(path: string)
                      | ListenFailed(path: string) | DialFailed(path: string)

  datatype StopError = CleanupFailed(path: string) | WrappedStopFailed

  /** A new state together with the error the step returned, if any. */
  datatype Step<E> = Step(m: Machine, err: Option<E>)

  /** Every running server was created before nextSerial. */
  predicate LiveBelow(m: Machine) {
    forall s :: s in m.live ==> s.serial < m.nextSerial
  }

  /** Every server the state knows of was created before nextSerial. */
  predicate SerialsBelow(m: Machine) {
    && LiveBelow(m)
    && (forall i :: 0 <= i < |m.servers| ==> m.servers[i].serial < m.nextSerial)
  }

  function StopEvents(servers: seq<GrpcServer>): seq<Event> {
    if servers == [] then [] else [ServerStopped(servers[0])] + StopEvents(servers[1..])
  }

  function RemoveEvents(socks: seq<string>): seq<Event> {
    if socks == [] then [] else [SocketRemoved(socks[0])] + RemoveEvents(socks[1..])
  }

  /** The log of a serve loop over socks whose listens and dial checks all succeed. */
  function ServeEvents(socks: seq<string>): seq<Event> {
    if socks == [] then [] else [Listened(socks[0]), DialChecked(socks[0])] + ServeEvents(socks[1..])
  }

  /** The servers the serve loop creates for socks, numbered from serial. */
  function NewServers(socks: seq<string>, serial: nat): seq<GrpcServer> {
    if socks == [] then [] else [GrpcServer(socks[0], serial)] + NewServers(socks[1..], serial + 1)
  }

  /** The first index of s whose element is in bad, or |s|. */
  function FirstIndexIn(s: seq<string>, bad: set<string>): (k: nat)
    ensures k <= |s|
    ensures forall i :: 0 <= i < k ==> s[i] !in bad
    ensures k < |s| ==> s[k] in bad
  {
    if s == [] then 0 else if s[0] in bad then 0 else 1 + FirstIndexIn(s[1..], bad)
  }

  /** StopServers: Stop on every server of the list, in order. */
  function StopServers(servers: seq<GrpcServer>, m: Machine): (r: Machine)
    decreases |servers|
  {
    if servers == [] then m
    else StopServers(servers[1..], m.(live := m.live - {servers[0]}, log := m.log + [ServerStopped(servers[0])]))
  }

  /** The removal loop of cleanup: os.Remove on every socket, ignoring "does not
      exist" and returning the path of the first other failure. */
  function RemoveSockets(socks: seq<string>, m: Machine, removeFails: set<string>): Step<string>
    decreases |socks|
  {
    if socks == [] then Step(m, None)
    else
      var s := socks[0];
      var m1 := m.(log := m.log + [SocketRemoved(s)]);
      if s in m.files && s in removeFails then Step(m1, Some(s))
      else RemoveSockets(socks[1..], m1.(files := m.files - {s}), removeFails)
  }

  /** cleanup: forget the servers (without stopping them), then remove the socket files. */
  function CleanupSpec(sockets: seq<string>, m: Machine, env: Env): Step<string> {
    RemoveSockets(sockets, m.(servers := []), env.removeFails)
  }

  /** stop: stop every server, clean up, and only then stop the wrapped plugin. */
  function StopSpec(sockets: seq<string>, m: Machine, env: Env): Step<StopError> {
    var c := CleanupSpec(sockets, StopServers(m.servers, m), env);
    if c.err.Some? then Step(c.m, Some(CleanupFailed(c.err.value)))
    else
      var m3 := c.m.(log := c.m.log + [PluginStopCalled]);
      if env.pluginStopFails then Step(m3, Some(WrappedStopFailed))
      else Step(m3.(pluginStarted := false), None)
  }

  /** The listen/dial loop of serve: a server joins `servers` only after its dial
      check succeeds; the first failure stops that server and ends the loop. */
  function ListenAll(socks: seq<string>, m: Machine, env: Env): Step<StartError>
    decreases |socks|
  {
    if socks == [] then Step(m, None)
    else
      var s := socks[0];
      var m1 := m.(log := m.log + [Listened(s)]);
      if s in env.listenFails || s in m.files then Step(m1, Some(ListenFailed(s)))
      else
        var server := GrpcServer(s, m.nextSerial);
        var m2 := m1.(files := m.files + {s}, live := m.live + {server},
                      nextSerial := m.nextSerial + 1, log := m1.log + [DialChecked(s)]);
        if s in env.dialFails then
          Step(m2.(live := m2.live - {server}, log := m2.log + [ServerStopped(server)]), Some(DialFailed(s)))
        else ListenAll(socks[1..], m2.(servers := m2.servers + [server]), env)
  }

  /** serve: clean up, start with an empty server list, then listen and dial-check. */
  function ServeSpec(sockets: seq<string>, m: Machine, env: Env): Step<StartError> {
    var c := CleanupSpec(sockets, m, env);
    if c.err.Some? then Step(c.m, Some(RemoveFailed(c.err.value)))
    else ListenAll(sockets, c.m.(servers := []), env)
  }

  /** The body of start, before its deferred rollback. */
  function StartBody(sockets: seq<string>, m: Machine, env: Env): Step<StartError> {
    if |sockets| == 0 then Step(m, Some(EmptySockets))
    else
      var m1 := m.(log := m.log + [PluginStopCalled],
                   pluginStarted := if env.pluginStopFails then m.pluginStarted else false);
      var m2 := m1.(log := m1.log + [PluginStartCalled]);
      if env.pluginStartFails then Step(m2, Some(PluginStartFailed))
      else ServeSpec(sockets, m2.(pluginStarted := true), env)
  }

  /** start: any error is followed by a full stop, whose own error is discarded. */
  function StartSpec(sockets: seq<string>, m: Machine, env: Env): Step<StartError> {
    var b := StartBody(sockets, m, env);
    if b.err.None? then b else Step(StopSpec(sockets, b.m, env).m, b.err)
  }
}
