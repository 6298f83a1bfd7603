/** What one start or stop cycle of PluginRegistrationWrapper does, in closed form,
    and the promises built on it: when a start succeeds, that a failed start leaves
    no server behind, the order of the calls into the wrapped plugin. */
module WrapperProps {

  import opened Wrappers
  import opened Skeleton
  import Registration
  import opened WrapperSpec

  lemma PrefixCons(s: seq<string>)
    requires |s| > 0
    ensures forall i :: 1 <= i <= |s| ==> s[..i] == [s[0]] + s[1..][..i - 1]
  {
    forall i | 1 <= i <= |s|
      ensures s[..i] == [s[0]] + s[1..][..i - 1]
    {
      assert s[..i] == [s[0]] + s[1..][..i - 1];
    }
  }

  /** Stopping a list of servers stops exactly those servers, in order, and touches
      nothing else. */
  lemma {:induction false} StopServersEffect(servers: seq<GrpcServer>, m: Machine)
    ensures var r := StopServers(servers, m);
      && r == m.(live := r.live, log := r.log)
      && r.log == m.log + StopEvents(servers)
      && forall s :: s in r.live <==> s in m.live && s !in servers
    decreases |servers|
  {
    if servers != [] {
      var m1 := m.(live := m.live - {servers[0]}, log := m.log + [ServerStopped(servers[0])]);
      StopServersEffect(servers[1..], m1);
      forall s ensures s in servers <==> s == servers[0] || s in servers[1..] {
        assert servers == [servers[0]] + servers[1..];
      }
    }
  }

  /** The removal loop stops at the first socket whose file exists and cannot be
      removed; every socket before it is removed and nothing else changes. */
  lemma {:induction false} RemoveSocketsEffect(socks: seq<string>, m: Machine, bad: set<string>)
    ensures var k := FirstIndexIn(socks, m.files * bad);
      var r := RemoveSockets(socks, m, bad);
      && r.err == (if k < |socks| then Some(socks[k]) else None)
      && r.m == m.(files := r.m.files, log := r.m.log)
      && forall x :: x in r.m.files <==> x in m.files && x !in socks[..k]
    decreases |socks|
  {
    if socks != [] {
      var s := socks[0];
      if !(s in m.files && s in bad) {
        var m2 := m.(log := m.log + [SocketRemoved(s)], files := m.files - {s});
        assert RemoveSockets(socks, m, bad) == RemoveSockets(socks[1..], m2, bad);
        assert m2.files * bad == m.files * bad;
        RemoveSocketsEffect(socks[1..], m2, bad);
        PrefixCons(socks);
      }
    }
  }

  /** How many sockets the removal loop reaches: all of them, or up to and including
      the first whose removal fails. */
  function RemovalsReached(socks: seq<string>, files: set<string>, bad: set<string>): (n: nat)
    ensures n <= |socks|
  {
    var k := FirstIndexIn(socks, files * bad);
    if k < |socks| then k + 1 else k
  }

  /** The removal loop logs one removal per socket it reaches, the failing one included. */
  lemma {:induction false} RemoveSocketsLog(socks: seq<string>, m: Machine, bad: set<string>)
    ensures RemoveSockets(socks, m, bad).m.log == m.log + RemoveEvents(socks[..RemovalsReached(socks, m.files, bad)])
    decreases |socks|, 1
  {
    if socks != [] {
      if !(socks[0] in m.files && socks[0] in bad) {
        RemoveSocketsLogStep(socks, m, bad);
      } else {
        assert RemovalsReached(socks, m.files, bad) == 1;
        assert RemoveEvents(socks[..1]) == [SocketRemoved(socks[0])];
      }
    }
  }

  /** RemoveSocketsLog for a first socket that is removed (or already absent). */
  lemma {:induction false} RemoveSocketsLogStep(socks: seq<string>, m: Machine, bad: set<string>)
    requires |socks| > 0 && !(socks[0] in m.files && socks[0] in bad)
    ensures RemoveSockets(socks, m, bad).m.log == m.log + RemoveEvents(socks[..RemovalsReached(socks, m.files, bad)])
    decreases |socks|, 0
  {
    var s := socks[0];
    var n := RemovalsReached(socks, m.files, bad);
    var m2 := m.(log := m.log + [SocketRemoved(s)], files := m.files - {s});
    var r := RemoveSockets(socks, m, bad);
    assert r == RemoveSockets(socks[1..], m2, bad);
    assert m2.files * bad == m.files * bad;
    RemoveSocketsLog(socks[1..], m2, bad);
    var n' := RemovalsReached(socks[1..], m2.files, bad);
    assert n == n' + 1;
    assert socks[..n][1..] == socks[1..][..n'];
  }

  /** net.Listen on socks[i] fails: on the oracle's say-so, or because its socket
      file exists, having been there before the loop or created earlier in it. */
  predicate ListenFailsAt(socks: seq<string>, env: Env, files: set<string>, i: int)
    requires 0 <= i < |socks|
  {
    socks[i] in env.listenFails || socks[i] in files || socks[i] in socks[..i]
  }

  predicate ServeFailsAt(socks: seq<string>, env: Env, files: set<string>, i: int)
    requires 0 <= i < |socks|
  {
    ListenFailsAt(socks, env, files, i) || socks[i] in env.dialFails
  }

  lemma ServeFailsShift(socks: seq<string>, env: Env, files: set<string>)
    requires |socks| > 0
    ensures forall i :: 1 <= i < |socks| ==>
      && (ListenFailsAt(socks, env, files, i) <==> ListenFailsAt(socks[1..], env, files + {socks[0]}, i - 1))
      && (ServeFailsAt(socks, env, files, i) <==> ServeFailsAt(socks[1..], env, files + {socks[0]}, i - 1))
  {
    PrefixCons(socks);
  }

  /** The index at which the serve loop over socks stops, or |socks|. */
  function FirstServeFailure(socks: seq<string>, env: Env, files: set<string>): (k: nat)
    ensures k <= |socks|
    ensures forall i :: 0 <= i < k ==> !ServeFailsAt(socks, env, files, i)
    ensures k < |socks| ==> ServeFailsAt(socks, env, files, k)
    decreases |socks|
  {
    if socks == [] then 0
    else if socks[0] in env.listenFails || socks[0] in files || socks[0] in env.dialFails then 0
    else
      assert socks[..0] == [];
      ServeFailsShift(socks, env, files);
      1 + FirstServeFailure(socks[1..], env, files + {socks[0]})
  }

  /** The i-th new server serves the i-th socket and has the i-th serial number. */
  lemma {:induction false} NewServersAt(socks: seq<string>, serial: nat)
    ensures |NewServers(socks, serial)| == |socks|
    ensures forall i :: 0 <= i < |socks| ==> NewServers(socks, serial)[i] == GrpcServer(socks[i], serial + i)
    decreases |socks|
  {
    if socks != [] {
      NewServersAt(socks[1..], serial + 1);
    }
  }

  /** One successful listen and dial check, as ListenAll takes it: the state the rest
      of the loop starts from. */
  function AfterServed(s: string, m: Machine): Machine {
    var server := GrpcServer(s, m.nextSerial);
    m.(log := m.log + [Listened(s)] + [DialChecked(s)], files := m.files + {s},
       live := m.live + {server}, nextSerial := m.nextSerial + 1, servers := m.servers + [server])
  }

  /** The serve loop's outcome: it stops at the first socket whose listen or dial
      check fails and reports which of the two failed; a server is numbered for
      every listen that succeeded. */
  lemma {:induction false} ListenAllOutcome(socks: seq<string>, m: Machine, env: Env)
    ensures var k := FirstServeFailure(socks, env, m.files);
      var r := ListenAll(socks, m, env);
      var dialFailed := k < |socks| && !ListenFailsAt(socks, env, m.files, k);
      && r.err == (if k == |socks| then None
                   else if dialFailed then Some(DialFailed(socks[k])) else Some(ListenFailed(socks[k])))
      && r.m.nextSerial == m.nextSerial + k + (if dialFailed then 1 else 0)
      && r.m.pluginStarted == m.pluginStarted
    decreases |socks|
  {
    if socks != [] {
      var s := socks[0];
      if s in env.listenFails || s in m.files {
      } else if s in env.dialFails {
        assert socks[..0] == [];
      } else {
        var m' := AfterServed(s, m);
        var r := ListenAll(socks, m, env);
        var r' := ListenAll(socks[1..], m', env);
        assert r == r';
        ListenAllOutcome(socks[1..], m', env);
        var k := FirstServeFailure(socks, env, m.files);
        var k' := FirstServeFailure(socks[1..], env, m'.files);
        assert k == k' + 1;
        if k < |socks| {
          ServeFailsShift(socks, env, m.files);
          assert ListenFailsAt(socks, env, m.files, k) == ListenFailsAt(socks[1..], env, m'.files, k');
          assert socks[k] == socks[1..][k'];
        }
      }
    }
  }

  /** The servers of the sockets before the first failure join `servers`, in order,
      numbered consecutively. */
  lemma {:induction false} ListenAllServers(socks: seq<string>, m: Machine, env: Env)
    ensures var k := FirstServeFailure(socks, env, m.files);
      ListenAll(socks, m, env).m.servers == m.servers + NewServers(socks[..k], m.nextSerial)
    decreases |socks|
  {
    if socks != [] {
      var s := socks[0];
      if !(s in env.listenFails || s in m.files || s in env.dialFails) {
        var m' := AfterServed(s, m);
        assert ListenAll(socks, m, env) == ListenAll(socks[1..], m', env);
        ListenAllServers(socks[1..], m', env);
        var k := FirstServeFailure(socks, env, m.files);
        assert socks[..k][1..] == socks[1..][..k - 1];
      }
    }
  }

  /** After the serve loop exactly the servers it kept are running, beside those that
      ran before; the server whose dial check failed is stopped again. */
  lemma {:induction false} ListenAllLive(socks: seq<string>, m: Machine, env: Env)
    requires LiveBelow(m)
    ensures var k := FirstServeFailure(socks, env, m.files);
      forall s :: s in ListenAll(socks, m, env).m.live <==> s in m.live || s in NewServers(socks[..k], m.nextSerial)
    decreases |socks|, 1
  {
    if socks != [] {
      var s := socks[0];
      var k := FirstServeFailure(socks, env, m.files);
      if s in env.listenFails || s in m.files {
        assert k == 0;
      } else if s in env.dialFails {
        assert k == 0;
        assert GrpcServer(s, m.nextSerial) !in m.live;
      } else {
        ListenAllLiveStep(socks, m, env);
      }
    }
  }

  /** ListenAllLive for a first socket that is served successfully. */
  lemma {:induction false} ListenAllLiveStep(socks: seq<string>, m: Machine, env: Env)
    requires LiveBelow(m)
    requires |socks| > 0 && !(socks[0] in env.listenFails || socks[0] in m.files || socks[0] in env.dialFails)
    ensures var k := FirstServeFailure(socks, env, m.files);
      forall s :: s in ListenAll(socks, m, env).m.live <==> s in m.live || s in NewServers(socks[..k], m.nextSerial)
    decreases |socks|, 0
  {
    var s := socks[0];
    var k := FirstServeFailure(socks, env, m.files);
    var m' := AfterServed(s, m);
    var r := ListenAll(socks, m, env);
    assert r == ListenAll(socks[1..], m', env);
    assert m'.live == m.live + {GrpcServer(s, m.nextSerial)} && m'.nextSerial == m.nextSerial + 1;
    assert LiveBelow(m');
    ListenAllLive(socks[1..], m', env);
    var k' := FirstServeFailure(socks[1..], env, m'.files);
    assert k == k' + 1;
    assert socks[..k][1..] == socks[1..][..k'];
    var added := NewServers(socks[..k], m.nextSerial);
    var added' := NewServers(socks[1..][..k'], m.nextSerial + 1);
    assert added == [GrpcServer(s, m.nextSerial)] + added';
    forall g ensures g in r.m.live <==> g in m.live || g in added {
      assert g in added <==> g == GrpcServer(s, m.nextSerial) || g in added';
    }
  }

  /** After the serve loop the socket file of every socket that was listened on
      successfully exists. */
  lemma {:induction false} ListenAllFiles(socks: seq<string>, m: Machine, env: Env)
    ensures var k := FirstServeFailure(socks, env, m.files);
      var dialFailed := k < |socks| && !ListenFailsAt(socks, env, m.files, k);
      forall x :: x in ListenAll(socks, m, env).m.files <==>
        x in m.files || x in socks[..k] || (dialFailed && x == socks[k])
    decreases |socks|
  {
    if socks != [] {
      var s := socks[0];
      var k := FirstServeFailure(socks, env, m.files);
      if s in env.listenFails || s in m.files {
        assert k == 0;
      } else if s in env.dialFails {
        assert k == 0;
        assert socks[..0] == [];
      } else {
        var m' := AfterServed(s, m);
        var r := ListenAll(socks, m, env);
        var r' := ListenAll(socks[1..], m', env);
        assert r == r';
        ListenAllFiles(socks[1..], m', env);
        var k' := FirstServeFailure(socks[1..], env, m'.files);
        assert k == k' + 1;
        if k < |socks| {
          ServeFailsShift(socks, env, m.files);
          assert ListenFailsAt(socks, env, m.files, k) == ListenFailsAt(socks[1..], env, m'.files, k');
          assert socks[k] == socks[1..][k'];
        }
        assert socks[..k] == [s] + socks[1..][..k'];
        forall x ensures x in r.m.files <==> x in m.files || x in socks[..k] || (k < |socks| && !ListenFailsAt(socks, env, m.files, k) && x == socks[k]) {
          assert x in socks[..k] <==> x == s || x in socks[1..][..k'];
        }
      }
    }
  }

  /** A serve loop that meets no failure logs a listen and a dial check per socket. */
  lemma {:induction false} ListenAllLog(socks: seq<string>, m: Machine, env: Env)
    requires FirstServeFailure(socks, env, m.files) == |socks|
    ensures ListenAll(socks, m, env).m.log == m.log + ServeEvents(socks)
    decreases |socks|
  {
    if socks != [] {
      var s := socks[0];
      var m' := AfterServed(s, m);
      assert ListenAll(socks, m, env) == ListenAll(socks[1..], m', env);
      ListenAllLog(socks[1..], m', env);
    }
  }

  /** One stop cycle's effect on the servers and the disk: every server is stopped,
      the servers list is emptied, and the socket files are removed up to the first
      removal that fails. */
  lemma StopCycleState(sockets: seq<string>, m: Machine, env: Env)
    ensures var r := StopSpec(sockets, m, env);
      var k := FirstIndexIn(sockets, m.files * env.removeFails);
      && r.m.servers == []
      && (forall s :: s in r.m.live <==> s in m.live && s !in m.servers)
      && (forall x :: x in r.m.files <==> x in m.files && x !in sockets[..k])
      && r.m.nextSerial == m.nextSerial
  {
    var m1 := StopServers(m.servers, m);
    StopServersEffect(m.servers, m);
    RemoveSocketsEffect(sockets, m1.(servers := []), env.removeFails);
  }

  /** One stop cycle's outcome: a failed removal is reported and leaves the plugin
      as it was; otherwise the wrapped plugin's Stop decides. */
  lemma StopCycleOutcome(sockets: seq<string>, m: Machine, env: Env)
    ensures var r := StopSpec(sockets, m, env);
      var k := FirstIndexIn(sockets, m.files * env.removeFails);
      && r.err == (if k < |sockets| then Some(CleanupFailed(sockets[k]))
                   else if env.pluginStopFails then Some(WrappedStopFailed) else None)
      && r.m.pluginStarted == (m.pluginStarted && (k < |sockets| || env.pluginStopFails))
  {
    var m1 := StopServers(m.servers, m);
    StopServersEffect(m.servers, m);
    assert m1.files == m.files && m1.pluginStarted == m.pluginStarted;
    var c0 := m1.(servers := []);
    RemoveSocketsEffect(sockets, c0, env.removeFails);
    var c := CleanupSpec(sockets, m1, env);
    assert c == RemoveSockets(sockets, c0, env.removeFails);
    assert c.m.pluginStarted == m.pluginStarted;
  }

  /** One stop cycle's log: the servers are stopped, then the sockets removed, and the
      wrapped plugin is stopped only if no removal failed. */
  lemma StopCycleLog(sockets: seq<string>, m: Machine, env: Env)
    ensures var k := FirstIndexIn(sockets, m.files * env.removeFails);
      StopSpec(sockets, m, env).m.log
        == m.log + StopEvents(m.servers) + RemoveEvents(sockets[..RemovalsReached(sockets, m.files, env.removeFails)])
           + (if k < |sockets| then [] else [PluginStopCalled])
  {
    var m1 := StopServers(m.servers, m);
    StopServersEffect(m.servers, m);
    assert m1.files == m.files && m1.log == m.log + StopEvents(m.servers);
    var c0 := m1.(servers := []);
    RemoveSocketsEffect(sockets, c0, env.removeFails);
    RemoveSocketsLog(sockets, c0, env.removeFails);
    var c := CleanupSpec(sockets, m1, env);
    assert c == RemoveSockets(sockets, c0, env.removeFails);
  }

  predicate NoDuplicates(s: seq<string>) {
    forall i, j :: 0 <= i < j < |s| ==> s[i] != s[j]
  }

  /** The conditions under which a start cycle succeeds. */
  predicate StartSucceeds(sockets: seq<string>, m: Machine, env: Env) {
    && |sockets| > 0
    && !env.pluginStartFails
    && (forall i :: 0 <= i < |sockets| ==> !(sockets[i] in m.files && sockets[i] in env.removeFails))
    && (forall i :: 0 <= i < |sockets| ==> sockets[i] !in env.listenFails && sockets[i] !in env.dialFails)
    && NoDuplicates(sockets)
  }

  /** The state in which start hands over to serve, once the plugin has started. */
  function Serving(m: Machine): Machine {
    m.(log := m.log + [PluginStopCalled] + [PluginStartCalled], pluginStarted := true)
  }

  /** The state in which serve begins listening, once cleanup has removed every socket. */
  function Cleaned(sockets: seq<string>, m: Machine, env: Env): Machine {
    CleanupSpec(sockets, Serving(m), env).m.(servers := [])
  }

  lemma StartBodyServes(sockets: seq<string>, m: Machine, env: Env)
    requires |sockets| > 0 && !env.pluginStartFails
    ensures StartBody(sockets, m, env) == ServeSpec(sockets, Serving(m), env)
  {
    var m1 := m.(log := m.log + [PluginStopCalled],
                 pluginStarted := if env.pluginStopFails then m.pluginStarted else false);
    var m2 := m1.(log := m1.log + [PluginStartCalled]);
    assert m2.(pluginStarted := true) == Serving(m);
  }

  /** The serve loop after a complete cleanup sees no socket file. */
  lemma CleanedFiles(sockets: seq<string>, m: Machine, env: Env)
    requires FirstIndexIn(sockets, m.files * env.removeFails) == |sockets|
    ensures CleanupSpec(sockets, Serving(m), env).err.None?
    ensures forall x :: x in Cleaned(sockets, m, env).files <==> x in m.files && x !in sockets
    ensures Cleaned(sockets, m, env) == Serving(m).(servers := [], files := Cleaned(sockets, m, env).files,
                                                       log := Cleaned(sockets, m, env).log)
  {
    RemoveSocketsEffect(sockets, Serving(m).(servers := []), env.removeFails);
    assert sockets[..|sockets|] == sockets;
  }

  /** With no socket file on disk, the serve loop fails exactly on a listen or dial
      failure of the oracle or on a repeated socket. */
  lemma ServeSucceedsIff(sockets: seq<string>, env: Env, files: set<string>)
    requires forall i :: 0 <= i < |sockets| ==> sockets[i] !in files
    ensures FirstServeFailure(sockets, env, files) == |sockets| <==>
      && (forall i :: 0 <= i < |sockets| ==> sockets[i] !in env.listenFails && sockets[i] !in env.dialFails)
      && NoDuplicates(sockets)
  {
    var k := FirstServeFailure(sockets, env, files);
    if k < |sockets| {
      assert ServeFailsAt(sockets, env, files, k);
      if sockets[k] in sockets[..k] {
        var i :| 0 <= i < k && sockets[..k][i] == sockets[k];
        assert sockets[i] == sockets[k];
      }
    } else {
      forall i, j | 0 <= i < j < |sockets| ensures sockets[i] != sockets[j] {
        assert !ServeFailsAt(sockets, env, files, j);
        assert sockets[..j][i] == sockets[i];
      }
    }
  }

  /** A start cycle succeeds exactly when there are sockets, the plugin starts, no
      socket file is stuck on disk, every listen and dial check succeeds, and no two
      registration directories give the same socket. */
  lemma {:induction false} StartIff(sockets: seq<string>, m: Machine, env: Env)
    ensures StartSpec(sockets, m, env).err.None? <==> StartSucceeds(sockets, m, env)
  {
    if |sockets| > 0 && !env.pluginStartFails {
      StartBodyServes(sockets, m, env);
      var rf := env.removeFails;
      var c0 := Serving(m).(servers := []);
      RemoveSocketsEffect(sockets, c0, rf);
      assert c0.files == m.files;
      var k := FirstIndexIn(sockets, m.files * rf);
      if k == |sockets| {
        CleanedFiles(sockets, m, env);
        var cm := Cleaned(sockets, m, env);
        ListenAllOutcome(sockets, cm, env);
        ServeSucceedsIff(sockets, env, cm.files);
      }
    }
  }

  /** A successful start cycle: one fresh server per socket, in order, running and
      listed; every socket file exists; the plugin is started. */
  lemma {:induction false} StartSuccess(sockets: seq<string>, m: Machine, env: Env)
    requires LiveBelow(m)
    requires StartSucceeds(sockets, m, env)
    ensures var r := StartSpec(sockets, m, env);
      && r.err.None?
      && r.m.servers == NewServers(sockets, m.nextSerial)
      && r.m.nextSerial == m.nextSerial + |sockets|
      && r.m.pluginStarted
      && (forall s :: s in r.m.live <==> s in m.live || s in r.m.servers)
      && (forall x :: x in r.m.files <==> x in m.files || x in sockets)
  {
    StartIff(sockets, m, env);
    StartBodyServes(sockets, m, env);
    assert Serving(m).(servers := []).files == m.files;
    CleanedFiles(sockets, m, env);
    var cm := Cleaned(sockets, m, env);
    ServeSucceedsIff(sockets, env, cm.files);
    assert sockets[..|sockets|] == sockets;
    ListenAllOutcome(sockets, cm, env);
    ListenAllServers(sockets, cm, env);
    ListenAllLive(sockets, cm, env);
    ListenAllFiles(sockets, cm, env);
  }

  /** The log of a successful start cycle: plugin.Stop, plugin.Start, the removal of
      every socket, then a listen and a dial check per socket, in order. */
  lemma {:induction false} StartSuccessLog(sockets: seq<string>, m: Machine, env: Env)
    requires StartSucceeds(sockets, m, env)
    ensures StartSpec(sockets, m, env).m.log
         == m.log + [PluginStopCalled, PluginStartCalled] + RemoveEvents(sockets) + ServeEvents(sockets)
  {
    StartIff(sockets, m, env);
    StartBodyServes(sockets, m, env);
    var c0 := Serving(m).(servers := []);
    assert c0.files == m.files;
    CleanedFiles(sockets, m, env);
    RemoveSocketsLog(sockets, c0, env.removeFails);
    assert sockets[..|sockets|] == sockets;
    var cm := Cleaned(sockets, m, env);
    ServeSucceedsIff(sockets, env, cm.files);
    ListenAllLog(sockets, cm, env);
  }

  /** Every running server is a listed one. */
  predicate NoOrphans(m: Machine) {
    forall s :: s in m.live ==> s in m.servers
  }

  /** From a state where nothing runs, the body of start leaves no running server
      outside the servers list, whichever way it ends. */
  lemma {:induction false} StartBodyNoOrphans(sockets: seq<string>, m: Machine, env: Env)
    requires m.live == {}
    ensures NoOrphans(StartBody(sockets, m, env).m)
  {
    if |sockets| > 0 && !env.pluginStartFails {
      StartBodyServes(sockets, m, env);
      var c0 := Serving(m).(servers := []);
      RemoveSocketsEffect(sockets, c0, env.removeFails);
      if CleanupSpec(sockets, Serving(m), env).err.None? {
        var cm := Cleaned(sockets, m, env);
        ListenAllServers(sockets, cm, env);
        ListenAllLive(sockets, cm, env);
      }
    }
  }

  /** A stop cycle from a state without orphans leaves no server running. */
  lemma StopLeavesNothingRunning(sockets: seq<string>, m: Machine, env: Env)
    requires NoOrphans(m)
    ensures StopSpec(sockets, m, env).m.live == {}
    ensures StopSpec(sockets, m, env).m.servers == []
  {
    StopCycleState(sockets, m, env);
  }

  /** A start cycle that fails from a state where nothing runs rolls back completely:
      no server is listed or running, and unless a removal failed no socket file is
      left behind. */
  lemma {:induction false} StartFailureRollsBack(sockets: seq<string>, m: Machine, env: Env)
    requires m.live == {}
    requires !StartSucceeds(sockets, m, env)
    ensures var r := StartSpec(sockets, m, env);
      && r.err.Some?
      && r.m.servers == []
      && r.m.live == {}
      && ((forall i :: 0 <= i < |sockets| ==> sockets[i] !in env.removeFails) ==>
            forall i :: 0 <= i < |sockets| ==> sockets[i] !in r.m.files)
  {
    StartIff(sockets, m, env);
    var b := StartBody(sockets, m, env);
    StartBodyNoOrphans(sockets, m, env);
    StopCycleState(sockets, b.m, env);
    assert sockets[..|sockets|] == sockets;
  }

  /** With no socket, start fails before the plugin is started; its rollback stops
      the servers left from before and the plugin. */
  lemma EmptySocketsNeverStartPlugin(m: Machine, env: Env)
    ensures var r := StartSpec([], m, env);
      && r.err == Some(EmptySockets)
      && r.m.log == m.log + StopEvents(m.servers) + [PluginStopCalled]
  {
    StopCycleLog([], m, env);
  }

  /** No call of the log is a listen. */
  predicate NoListen(events: seq<Event>) {
    forall i :: 0 <= i < |events| ==> !events[i].Listened?
  }

  lemma {:induction false} StopEventsNoListen(servers: seq<GrpcServer>)
    ensures NoListen(StopEvents(servers))
    decreases |servers|
  {
    if servers != [] {
      StopEventsNoListen(servers[1..]);
    }
  }

  lemma {:induction false} RemoveEventsNoListen(socks: seq<string>)
    ensures NoListen(RemoveEvents(socks))
    decreases |socks|
  {
    if socks != [] {
      RemoveEventsNoListen(socks[1..]);
    }
  }

  /** Two logs without a listen concatenate to one. */
  lemma NoListenConcat(a: seq<Event>, b: seq<Event>)
    requires NoListen(a) && NoListen(b)
    ensures NoListen(a + b)
  {
    forall i | 0 <= i < |a + b| ensures !(a + b)[i].Listened? {
      if i >= |a| {
        assert (a + b)[i] == b[i - |a|];
      }
    }
  }

  /** When the plugin's Start fails, the wrapper creates no server; the log shows
      plugin.Stop, plugin.Start and then only the rollback: the old servers stopped,
      the sockets removed, and plugin.Stop once more unless a removal failed. */
  lemma PluginStartFailureLog(sockets: seq<string>, m: Machine, env: Env)
    requires |sockets| > 0 && env.pluginStartFails
    ensures var r := StartSpec(sockets, m, env);
      var k := FirstIndexIn(sockets, m.files * env.removeFails);
      && r.err == Some(PluginStartFailed)
      && r.m.nextSerial == m.nextSerial
      && r.m.log == m.log + [PluginStopCalled, PluginStartCalled] + StopEvents(m.servers)
                    + RemoveEvents(sockets[..RemovalsReached(sockets, m.files, env.removeFails)])
                    + (if k < |sockets| then [] else [PluginStopCalled])
  {
    var b := StartBody(sockets, m, env);
    assert b.m.log == m.log + [PluginStopCalled, PluginStartCalled];
    assert b.m.files == m.files && b.m.servers == m.servers && b.m.nextSerial == m.nextSerial;
    StopCycleState(sockets, b.m, env);
    StopCycleLog(sockets, b.m, env);
  }

  /** In particular a failed plugin Start opens no socket. */
  lemma PluginStartFailureServesNothing(sockets: seq<string>, m: Machine, env: Env)
    requires |sockets| > 0 && env.pluginStartFails
    ensures var r := StartSpec(sockets, m, env);
      |r.m.log| >= |m.log| && r.m.log[..|m.log|] == m.log && NoListen(r.m.log[|m.log|..])
  {
    PluginStartFailureLog(sockets, m, env);
    var k := FirstIndexIn(sockets, m.files * env.removeFails);
    var removed := RemoveEvents(sockets[..RemovalsReached(sockets, m.files, env.removeFails)]);
    var last: seq<Event> := if k < |sockets| then [] else [PluginStopCalled];
    StopEventsNoListen(m.servers);
    RemoveEventsNoListen(sockets[..RemovalsReached(sockets, m.files, env.removeFails)]);
    var head := [PluginStopCalled, PluginStartCalled] + StopEvents(m.servers);
    NoListenConcat([PluginStopCalled, PluginStartCalled], StopEvents(m.servers));
    NoListenConcat(head, removed);
    NoListenConcat(head + removed, last);
    var r := StartSpec(sockets, m, env);
    assert r.m.log == m.log + (head + removed + last);
  }

  /** Every start cycle with sockets calls plugin.Stop and then plugin.Start before
      anything else. */
  lemma StopBeforeStart(sockets: seq<string>, m: Machine, env: Env)
    requires |sockets| > 0
    ensures var r := StartSpec(sockets, m, env);
      |r.m.log| >= |m.log| + 2 && r.m.log[..|m.log| + 2] == m.log + [PluginStopCalled, PluginStartCalled]
  {
    var b := StartBody(sockets, m, env);
    var pre := m.log + [PluginStopCalled, PluginStartCalled];
    BodyExtends(sockets, m, env);
    StopCycleLog(sockets, b.m, env);
    var r := StartSpec(sockets, m, env);
    assert r.m.log[..|pre|] == b.m.log[..|pre|];
  }

  /** The body of start appends to the log, after plugin.Stop and plugin.Start. */
  lemma BodyExtends(sockets: seq<string>, m: Machine, env: Env)
    requires |sockets| > 0
    ensures var b := StartBody(sockets, m, env);
      |b.m.log| >= |m.log| + 2 && b.m.log[..|m.log| + 2] == m.log + [PluginStopCalled, PluginStartCalled]
  {
    if !env.pluginStartFails {
      StartBodyServes(sockets, m, env);
      var c0 := Serving(m).(servers := []);
      RemoveSocketsLog(sockets, c0, env.removeFails);
      if CleanupSpec(sockets, Serving(m), env).err.None? {
        ListenAllExtends(sockets, Cleaned(sockets, m, env), env);
      }
    }
  }

  /** The serve loop only appends to the log. */
  lemma {:induction false} ListenAllExtends(socks: seq<string>, m: Machine, env: Env)
    ensures var r := ListenAll(socks, m, env);
      |r.m.log| >= |m.log| && r.m.log[..|m.log|] == m.log
    decreases |socks|
  {
    if socks != [] {
      var s := socks[0];
      if !(s in env.listenFails || s in m.files || s in env.dialFails) {
        var m' := AfterServed(s, m);
        assert ListenAll(socks, m, env) == ListenAll(socks[1..], m', env);
        ListenAllExtends(socks[1..], m', env);
        assert ListenAll(socks, m, env).m.log[..|m'.log|][..|m.log|] == m.log;
      }
    }
  }

  /** A second stop cycle after a successful one changes nothing but the log. */
  lemma StopTwice(sockets: seq<string>, m: Machine, env: Env)
    requires StopSpec(sockets, m, env).err.None?
    ensures var r1 := StopSpec(sockets, m, env);
      var r2 := StopSpec(sockets, r1.m, env);
      r2.err.None? && r2.m == r1.m.(log := r2.m.log)
  {
    var r1 := StopSpec(sockets, m, env);
    StopCycleState(sockets, m, env);
    StopCycleOutcome(sockets, m, env);
    var k := FirstIndexIn(sockets, m.files * env.removeFails);
    assert sockets[..k] == sockets;
    StopCycleState(sockets, r1.m, env);
    StopCycleOutcome(sockets, r1.m, env);
    var r2 := StopSpec(sockets, r1.m, env);
    assert FirstIndexIn(sockets, r1.m.files * env.removeFails) == |sockets|;
    assert r2.m.files == r1.m.files;
    assert r2.m.live == r1.m.live;
  }

  /** The body of start numbers every server it creates from nextSerial upward. */
  lemma {:induction false} StartBodySerialsBelow(sockets: seq<string>, m: Machine, env: Env)
    requires SerialsBelow(m)
    ensures SerialsBelow(StartBody(sockets, m, env).m)
    ensures StartBody(sockets, m, env).m.nextSerial >= m.nextSerial
  {
    if |sockets| > 0 && !env.pluginStartFails {
      StartBodyServes(sockets, m, env);
      var c0 := Serving(m).(servers := []);
      RemoveSocketsEffect(sockets, c0, env.removeFails);
      if CleanupSpec(sockets, Serving(m), env).err.None? {
        var cm := Cleaned(sockets, m, env);
        ListenAllOutcome(sockets, cm, env);
        ListenAllServers(sockets, cm, env);
        ListenAllLive(sockets, cm, env);
        NewServersAt(sockets[..FirstServeFailure(sockets, env, cm.files)], cm.nextSerial);
      }
    }
  }

  /** Start and stop cycles keep every known server numbered below nextSerial, so
      the serial numbers of the servers a cycle creates are new. */
  lemma CyclesKeepSerialsBelow(sockets: seq<string>, m: Machine, env: Env)
    requires SerialsBelow(m)
    ensures SerialsBelow(StartSpec(sockets, m, env).m) && StartSpec(sockets, m, env).m.nextSerial >= m.nextSerial
    ensures SerialsBelow(StopSpec(sockets, m, env).m) && StopSpec(sockets, m, env).m.nextSerial == m.nextSerial
  {
    StartBodySerialsBelow(sockets, m, env);
    StopCycleState(sockets, StartBody(sockets, m, env).m, env);
    StopCycleState(sockets, m, env);
  }

  /** The servers of a successful start are new: none of them was running or listed
      before, and no two of them are the same server. */
  lemma StartServersFresh(sockets: seq<string>, m: Machine, env: Env)
    requires SerialsBelow(m)
    requires StartSucceeds(sockets, m, env)
    ensures var r := StartSpec(sockets, m, env);
      && (forall i :: 0 <= i < |r.m.servers| ==> r.m.servers[i] !in m.live && r.m.servers[i] !in m.servers)
      && (forall i, j :: 0 <= i < j < |r.m.servers| ==> r.m.servers[i] != r.m.servers[j])
  {
    StartSuccess(sockets, m, env);
    NewServersAt(sockets, m.nextSerial);
  }

  /** Two registration directories that are the same directory give the same socket
      path, and the second listen on it fails: such a wrapper never starts. */
  lemma DuplicateDirectoriesNeverStart(dirs: seq<string>, name: string, m: Machine, env: Env, i: nat, j: nat)
    requires i < j < |dirs| && dirs[i] == dirs[j]
    ensures StartSpec(SocketPaths(dirs, name), m, env).err.Some?
  {
    var sockets := SocketPaths(dirs, name);
    StartIff(sockets, m, env);
    assert sockets[i] == sockets[j];
  }

  /** The test QRM plugin registers as a resource plugin under its resource name,
      on a socket named after the plugin. */
  lemma DummyQRMRegistration()
    ensures Resolve(Some(DummyQRMPlugin.AsPlugin()))
         == Ok(Resolution(QRMKind, Registration.RegistrationHandler(ResourcePlugin, "test_resource", [QRMVersion])))
    ensures SocketPaths(["/tmp/reg"], DummyQRMPlugin.Name()) == ["/tmp/reg/fake-qrm-plugin.sock"]
  {
    assert SocketPaths(["/tmp/reg"], DummyQRMPlugin.Name())[0] == "/tmp/reg/fake-qrm-plugin.sock";
  }
}
