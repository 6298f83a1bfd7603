/** PluginRegistrationWrapper of pkg/plugins/skeleton/generic.go as a class whose
    methods update its fields the way the Go methods do, each proved to take the
    state to what the corresponding function of WrapperSpec says. */
module Wrapper {

  import opened Wrappers
  import opened Registration
  import opened Skeleton
  import opened WrapperSpec
  import WrapperProps

  /** Stop either returns the stop cycle's error or panics: its deferred close of the
      stop and restart channels panics when they were already closed. */
  datatype StopOutcome = Returned(err: Option<StopError>) | Panicked

  /** Restart recovers the panic of sending on a closed restart channel. */
  datatype RestartError = RestartFailed(pluginName: string)

  /** The result of a poll loop: the index of the oracle round at which the cycle
      first succeeded, if any did. */
  datatype Retry = Retry(m: Machine, succeededAt: Option<nat>)

  /** PollImmediateInfinite around start: one start cycle per oracle round until one
      succeeds (the rounds stand for the unbounded retries). */
  function RetryStart(sockets: seq<string>, m: Machine, envs: seq<Env>, i: nat): Retry
    requires i <= |envs|
    decreases |envs| - i
  {
    if i == |envs| then Retry(m, None)
    else
      var s := StartSpec(sockets, m, envs[i]);
      if s.err.None? then Retry(s.m, Some(i)) else RetryStart(sockets, s.m, envs, i + 1)
  }

  /** PollImmediateInfinite around stop. */
  function RetryStop(sockets: seq<string>, m: Machine, envs: seq<Env>, i: nat): Retry
    requires i <= |envs|
    decreases |envs| - i
  {
    if i == |envs| then Retry(m, None)
    else
      var s := StopSpec(sockets, m, envs[i]);
      if s.err.None? then Retry(s.m, Some(i)) else RetryStop(sockets, s.m, envs, i + 1)
  }

  /** Retrying start never accumulates servers: after every failed round the wrapper
      is back to no server, and after the successful one runs one server per socket
      and nothing else. */
  lemma {:induction false} RetryStartLeavesNoOrphans(sockets: seq<string>, m: Machine, envs: seq<Env>, i: nat)
    requires i <= |envs|
    requires m.live == {}
    ensures var r := RetryStart(sockets, m, envs, i);
      && (r.succeededAt.None? ==> r.m.live == {} && (i < |envs| ==> r.m.servers == []))
      && (r.succeededAt.Some? ==>
            && i <= r.succeededAt.value < |envs|
            && |r.m.servers| == |sockets|
            && forall s :: s in r.m.live <==> s in r.m.servers)
    decreases |envs| - i
  {
    if i < |envs| {
      var s := StartSpec(sockets, m, envs[i]);
      WrapperProps.StartIff(sockets, m, envs[i]);
      if s.err.None? {
        WrapperProps.StartSuccess(sockets, m, envs[i]);
        WrapperProps.NewServersAt(sockets, m.nextSerial);
      } else {
        WrapperProps.StartFailureRollsBack(sockets, m, envs[i]);
        RetryStartLeavesNoOrphans(sockets, s.m, envs, i + 1);
      }
    }
  }

  /** Retrying stop from a state without orphans leaves no server running, whether
      or not a round succeeds; a round that succeeds leaves the plugin stopped. */
  lemma {:induction false} RetryStopStopsEverything(sockets: seq<string>, m: Machine, envs: seq<Env>, i: nat)
    requires i <= |envs|
    requires WrapperProps.NoOrphans(m)
    ensures var r := RetryStop(sockets, m, envs, i);
      && (i < |envs| ==> r.m.live == {} && r.m.servers == [])
      && (r.succeededAt.Some? ==> i <= r.succeededAt.value < |envs| && !r.m.pluginStarted)
    decreases |envs| - i
  {
    if i < |envs| {
      var s := StopSpec(sockets, m, envs[i]);
      WrapperProps.StopLeavesNothingRunning(sockets, m, envs[i]);
      WrapperProps.StopCycleState(sockets, m, envs[i]);
      WrapperProps.StopCycleOutcome(sockets, m, envs[i]);
      if s.err.Some? {
        RetryStopStopsEverything(sockets, s.m, envs, i + 1);
      }
    }
  }

  class PluginRegistrationWrapper {
    const plugin: Plugin
    const kind: PluginKind
    /** The embedded registration server. */
    const handler: RegistrationHandler
    const sockets: seq<string>

    var servers: seq<GrpcServer>
    var live: set<GrpcServer>
    var files: set<string>
    var pluginStarted: bool
    var nextSerial: nat
    var log: seq<Event>
    /** stopCh and restartCh have been closed (by Stop). */
    var closed: bool
    /** Restart signals delivered on restartCh. */
    var restartSignals: nat

    function State(): Machine
      reads this
    {
      Machine(servers, live, files, pluginStarted, nextSerial, log)
    }

    /** The identity was resolved from the plugin, as NewRegistrationPluginWrapper does. */
    predicate Resolved() {
      Resolve(Some(plugin)) == Ok(Resolution(kind, handler))
    }

    constructor (plugin: Plugin, kind: PluginKind, handler: RegistrationHandler,
                 sockets: seq<string>, disk: set<string>)
      ensures this.plugin == plugin && this.kind == kind && this.handler == handler
      ensures this.sockets == sockets
      ensures State() == Machine([], {}, disk, false, 0, [])
      ensures !closed && restartSignals == 0
    {
      this.plugin := plugin;
      this.kind := kind;
      this.handler := handler;
      this.sockets := sockets;
      servers := [];
      live := {};
      files := disk;
      pluginStarted := false;
      nextSerial := 0;
      log := [];
      closed := false;
      restartSignals := 0;
    }

    function Name(): string {
      plugin.name
    }

    /** GetInfo of the embedded registration server: a QRM plugin registers as a
        resource plugin under its resource name, the others under their own name. */
    function GetInfo(): (r: Reply<PluginInfo>)
      requires Resolved()
      ensures r.err.None?
      ensures r.response.kind == (match kind
                                  case EvictionKind => EvictionPlugin
                                  case ReporterKind => ReporterPlugin
                                  case QRMKind => ResourcePlugin)
      ensures r.response.name == (if kind == QRMKind then plugin.resourceName.value else Name())
      ensures r.response.supportedVersions == (if kind == QRMKind then [QRMVersion] else [BaseVersion])
    {
      Registration.GetInfo(handler)
    }

    /** cleanup */
    method Cleanup(env: Env) returns (err: Option<string>)
      modifies this`servers, this`files, this`log
      ensures State() == CleanupSpec(sockets, old(State()), env).m
      ensures err == CleanupSpec(sockets, old(State()), env).err
    {
      servers := [];
      var i := 0;
      while i < |sockets|
        invariant 0 <= i <= |sockets|
        invariant RemoveSockets(sockets[i..], State(), env.removeFails) == CleanupSpec(sockets, old(State()), env)
      {
        ghost var m := State();
        assert sockets[i..][1..] == sockets[i + 1..];
        var socket := sockets[i];
        log := log + [SocketRemoved(socket)];
        if socket in files && socket in env.removeFails {
          return Some(socket);
        }
        files := files - {socket};
        i := i + 1;
      }
      return None;
    }

    /** serve */
    method Serve(env: Env) returns (err: Option<StartError>)
      modifies this`servers, this`live, this`files, this`nextSerial, this`log
      ensures State() == ServeSpec(sockets, old(State()), env).m
      ensures err == ServeSpec(sockets, old(State()), env).err
    {
      var e := Cleanup(env);
      if e.Some? {
        return Some(RemoveFailed(e.value));
      }
      servers := [];
      var i := 0;
      while i < |sockets|
        invariant 0 <= i <= |sockets|
        invariant ListenAll(sockets[i..], State(), env) == ServeSpec(sockets, old(State()), env)
      {
        err := ListenOne(i, env);
        if err.Some? {
          return;
        }
        i := i + 1;
      }
      return None;
    }

    /** One round of the loop of serve: listen, create and register the server,
        dial-check it, and keep it only if the check succeeds. */
    method ListenOne(i: nat, env: Env) returns (err: Option<StartError>)
      requires i < |sockets|
      modifies this`servers, this`live, this`files, this`nextSerial, this`log
      ensures err.Some? ==> Step(State(), err) == ListenAll(sockets[i..], old(State()), env)
      ensures err.None? ==> ListenAll(sockets[i + 1..], State(), env) == ListenAll(sockets[i..], old(State()), env)
    {
      assert sockets[i..][1..] == sockets[i + 1..];
      var socket := sockets[i];
      log := log + [Listened(socket)];
      if socket in env.listenFails || socket in files {
        return Some(ListenFailed(socket));
      }
      files := files + {socket};
      var server := GrpcServer(socket, nextSerial);
      nextSerial := nextSerial + 1;
      live := live + {server};
      log := log + [DialChecked(socket)];
      if socket in env.dialFails {
        live := live - {server};
        log := log + [ServerStopped(server)];
        return Some(DialFailed(socket));
      }
      servers := servers + [server];
      return None;
    }

    /** stop */
    method StopCycle(env: Env) returns (err: Option<StopError>)
      modifies this`servers, this`live, this`files, this`pluginStarted, this`log
      ensures State() == StopSpec(sockets, old(State()), env).m
      ensures err == StopSpec(sockets, old(State()), env).err
    {
      var list := servers;
      var i := 0;
      while i < |list|
        invariant 0 <= i <= |list| && servers == list
        invariant StopServers(list[i..], State()) == StopServers(list, old(State()))
      {
        assert list[i..][1..] == list[i + 1..];
        live := live - {list[i]};
        log := log + [ServerStopped(list[i])];
        i := i + 1;
      }
      var e := Cleanup(env);
      if e.Some? {
        return Some(CleanupFailed(e.value));
      }
      log := log + [PluginStopCalled];
      if env.pluginStopFails {
        return Some(WrappedStopFailed);
      }
      pluginStarted := false;
      return None;
    }

    /** start, with its deferred rollback */
    method StartCycle(env: Env) returns (err: Option<StartError>)
      modifies this`servers, this`live, this`files, this`pluginStarted, this`nextSerial, this`log
      ensures State() == StartSpec(sockets, old(State()), env).m
      ensures err == StartSpec(sockets, old(State()), env).err
    {
      if |sockets| == 0 {
        err := Some(EmptySockets);
      } else {
        log := log + [PluginStopCalled];
        if !env.pluginStopFails {
          pluginStarted := false;
        }
        log := log + [PluginStartCalled];
        if env.pluginStartFails {
          err := Some(PluginStartFailed);
        } else {
          pluginStarted := true;
          err := Serve(env);
        }
      }
      if err.Some? {
        var _ := StopCycle(env);
      }
    }

    /** The first loop of the goroutine Start launches: start cycles until one
        succeeds, one oracle round each. */
    method StartWithRetry(envs: seq<Env>) returns (succeededAt: Option<nat>)
      modifies this`servers, this`live, this`files, this`pluginStarted, this`nextSerial, this`log
      ensures State() == RetryStart(sockets, old(State()), envs, 0).m
      ensures succeededAt == RetryStart(sockets, old(State()), envs, 0).succeededAt
    {
      var i := 0;
      while i < |envs|
        invariant 0 <= i <= |envs|
        invariant RetryStart(sockets, State(), envs, i) == RetryStart(sockets, old(State()), envs, 0)
      {
        var err := StartCycle(envs[i]);
        if err.None? {
          return Some(i);
        }
        i := i + 1;
      }
      return None;
    }

    /** The loop of the goroutine that runs after a restart signal: stop cycles until
        one succeeds. */
    method StopWithRetry(envs: seq<Env>) returns (succeededAt: Option<nat>)
      modifies this`servers, this`live, this`files, this`pluginStarted, this`log
      ensures State() == RetryStop(sockets, old(State()), envs, 0).m
      ensures succeededAt == RetryStop(sockets, old(State()), envs, 0).succeededAt
    {
      var i := 0;
      while i < |envs|
        invariant 0 <= i <= |envs|
        invariant RetryStop(sockets, State(), envs, i) == RetryStop(sockets, old(State()), envs, 0)
      {
        var err := StopCycle(envs[i]);
        if err.None? {
          return Some(i);
        }
        i := i + 1;
      }
      return None;
    }

    /** Stop: one stop cycle, then the channels are closed; a second Stop panics. */
    method Stop(env: Env) returns (outcome: StopOutcome)
      modifies this`servers, this`live, this`files, this`pluginStarted, this`log, this`closed
      ensures State() == StopSpec(sockets, old(State()), env).m
      ensures closed
      ensures outcome == if old(closed) then Panicked else Returned(StopSpec(sockets, old(State()), env).err)
    {
      var err := StopCycle(env);
      if closed {
        return Panicked;
      }
      closed := true;
      return Returned(err);
    }

    /** Restart: a signal on restartCh, or an error once Stop has closed it. */
    method Restart() returns (err: Option<RestartError>)
      modifies this`restartSignals
      ensures err.Some? <==> closed
      ensures restartSignals == old(restartSignals) + (if closed then 0 else 1)
    {
      if closed {
        return Some(RestartFailed(Name()));
      }
      restartSignals := restartSignals + 1;
      return None;
    }
  }

  /** NewRegistrationPluginWrapper: resolve the kind, then one socket per registration
      directory.  The socket files already on disk are given as `disk`. */
  method NewRegistrationPluginWrapper(plugin: Option<Plugin>, dirs: seq<string>, disk: set<string>)
    returns (r: Result<PluginRegistrationWrapper, ConstructionError>)
    ensures Resolve(plugin).Err? ==> r == Err(Resolve(plugin).error)
    ensures Resolve(plugin).Ok? ==> r.Ok? && fresh(r.value)
    ensures r.Ok? ==>
      && plugin.Some? && r.value.plugin == plugin.value && r.value.Resolved()
      && r.value.sockets == SocketPaths(dirs, plugin.value.name)
      && r.value.State() == Machine([], {}, disk, false, 0, [])
      && !r.value.closed && r.value.restartSignals == 0
  {
    var res := Resolve(plugin);
    if res.Err? {
      return Err(res.error);
    }
    var p := plugin.value;
    var socks: seq<string> := [];
    var i := 0;
    while i < |dirs|
      invariant 0 <= i <= |dirs|
      invariant socks == SocketPaths(dirs[..i], p.name)
    {
      assert dirs[..i + 1][..i] == dirs[..i];
      socks := socks + [SocketPath(dirs[i], p.name)];
      i := i + 1;
    }
    assert dirs[..i] == dirs;
    var w := new PluginRegistrationWrapper(p, res.value.kind, res.value.handler, socks, disk);
    return Ok(w);
  }
}
