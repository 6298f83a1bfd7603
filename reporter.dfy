/** ReporterPluginStub of pkg/plugins/skeleton/reporter.go: a reporter plugin used in
    tests, whose Start and Stop manage a stop channel guarded by a `started` flag. */
module ReporterStub {

  import opened Wrappers
  import opened Skeleton

  /** One report-content entry; its fields belong to the reporter RPC protocol. */
  datatype ReportContent = ReportContent(payload: string)

  /** A Go `chan struct{}` used only as a close-once signal: closing it a second time
      would panic, which the precondition of Close rules out. */
  class StopChannel {
    var closed: bool

    constructor ()
      ensures !closed
    {
      closed := false;
    }

    method Close()
      requires !closed
      modifies this
      ensures closed
    {
      closed := true;
    }
  }

  class ReporterPluginStub {
    var started: bool
    var stop: StopChannel?
    const content: seq<ReportContent>
    const name: string

    /** A started stub owns an open stop channel. */
    ghost predicate Valid()
      reads this, stop
    {
      started ==> stop != null && !stop.closed
    }

    /** NewReporterPluginStub: not started, no stop channel yet. */
    constructor (content: seq<ReportContent>, name: string)
      ensures Valid() && !started && stop == null
      ensures this.content == content && this.name == name
    {
      started := false;
      stop := null;
      this.content := content;
      this.name := name;
    }

    function Name(): string {
      name
    }

    /** GetReportContent returns the content given at construction. */
    function GetReportContent(): (r: Reply)
      ensures r.err.None? && r.content == content
    {
      Reply(content, None)
    }

    /** The stub as the registration wrapper sees it: a reporter plugin only. */
    function AsPlugin(): (p: Plugin)
      ensures p.name == name
      ensures IsReporterPlugin(p) && !IsEvictionPlugin(p) && !IsQRMPlugin(p)
    {
      Plugin(name, {ReporterPluginServer}, None)
    }

    /** Start never fails and leaves the stub started; a fresh stop channel is made
        only when the stub was not started already. */
    method Start() returns (err: Option<PluginError>)
      requires Valid()
      modifies this`started, this`stop
      ensures Valid() && started && err.None?
      ensures old(started) ==> stop == old(stop)
      ensures !old(started) ==> stop != null && fresh(stop)
    {
      if !started {
        stop := new StopChannel();
      }
      started := true;
      err := None;
    }

    /** Stop never fails and leaves the stub stopped; it closes the stop channel only
        when the stub was started, so Stop-before-Start and repeated Stop do nothing. */
    method Stop() returns (err: Option<PluginError>)
      requires Valid()
      modifies this`started, stop
      ensures Valid() && !started && err.None? && stop == old(stop)
      ensures old(started) ==> stop != null && stop.closed
      ensures !old(started) && stop != null ==> stop.closed == old(stop.closed)
    {
      if started {
        stop.Close();
      }
      started := false;
      err := None;
    }
  }

  /** The GetReportContent response together with its RPC error. */
  datatype Reply = Reply(content: seq<ReportContent>, err: Option<PluginError>)

  /** Any sequence of Start (true) and Stop (false) calls on a valid stub keeps it
      valid and never closes a channel twice: every Close call is checked against
      `!closed`.  The stub ends started exactly when the last call was a Start. */
  method RunLifecycle(stub: ReporterPluginStub, calls: seq<bool>)
    requires stub.Valid()
    modifies stub, stub.stop
    ensures stub.Valid()
    ensures calls != [] ==> stub.started == calls[|calls| - 1]
    ensures calls == [] ==> stub.started == old(stub.started)
  {
    var i := 0;
    while i < |calls|
      invariant 0 <= i <= |calls|
      invariant stub.Valid()
      invariant i > 0 ==> stub.started == calls[i - 1]
      invariant i == 0 ==> stub.started == old(stub.started)
      invariant stub.stop != null && stub.stop != old(stub.stop) ==> fresh(stub.stop)
    {
      if calls[i] {
        var _ := stub.Start();
      } else {
        var _ := stub.Stop();
      }
      i := i + 1;
    }
  }
}
