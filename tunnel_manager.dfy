/**
 * TunnelManager as a class whose fields its methods update in place. Each
 * method is proved to move State() exactly as the matching function of
 * TunnelSpec says, so every lemma proved there holds of the object; start,
 * stop and the monitor loop also keep Valid().
 */
module Tunnel {
  import opened Wrappers
  import opened TunnelUrl
  import opened TunnelSpec

  class TunnelManager {
    var process: Proc
    var tunnelUrl: Option<string>
    var binaryPath: Option<string>
    var localPort: int
    var shouldRun: bool
    var monitorTask: bool
    var retryCount: int
    const maxRetries: int
    var stats: Stats
    var events: seq<Event>          // the callbacks fired so far
    ghost var orphaned: nat         // processes left running when their handle was overwritten

    ghost function State(): Tunnel
      reads this
    {
      Tunnel(shouldRun, process, tunnelUrl, binaryPath, localPort, monitorTask, retryCount, maxRetries, stats, events, orphaned)
    }

    ghost predicate Valid()
      reads this
    {
      Inv(State())
    }

    constructor(maxRetries: int := DefaultMaxRetries)
      ensures State() == Initial(maxRetries) && Valid()
    {
      process := NoProcess;
      tunnelUrl := None;
      binaryPath := None;
      localPort := DefaultPort;
      shouldRun := false;
      monitorTask := false;
      retryCount := 0;
      this.maxRetries := maxRetries;
      stats := Stats(None, 0, 0, None);
      events := [];
      orphaned := 0;
      new;
      InitialInv(maxRetries);
    }

    /** _start_tunnel: obtain the binary, spawn it, read stderr until the URL, the end of the stream or the timeout. */
    method StartTunnel(a: Attempt) returns (r: Result<string, string>)
      modifies this
      ensures StartStep(State(), r) == TunnelSpec.StartTunnel(old(State()), a)
    {
      match a.install {
        case Err(e) =>
          return Err(e);
        case Ok(path) =>
          binaryPath := Some(path);
          if a.spawnError.Some? {
            return Err(a.spawnError.value);
          }
          var argv := TunnelArgv(path, localPort);
          orphaned := orphaned + if process.Live? then 1 else 0;
          process := Live(argv, false);
          var o := ScanForUrl(a.stderr);
          match o {
            case Found(u, at) =>
              tunnelUrl := Some(u);
              stats := stats.(connectedAt := Some(a.startedAt + at));
              r := Ok(u);
            case StreamClosed(err, code) =>
              process := Exited(code);
              r := Err(StartupFailedPrefix + err);
            case TimedOut =>
              process := Live(argv, true);
              r := Err(TimeoutMessage);
          }
      }
    }

    /** _stop_process. */
    method StopProcess()
      modifies this
      ensures State() == TunnelSpec.StopProcess(old(State()))
    {
      if !process.NoProcess? {
        process := NoProcess;
      }
    }

    /** One pass of the _reconnect loop body: count the attempt, stop, start, and record the outcome. */
    method RetryOnce(a: Attempt) returns (r: Result<string, string>)
      modifies this
      ensures r == AttemptResult(a)
      ensures var s := TryOnce(old(State()), a);
        State() == if r.Ok? then AfterSuccess(s.next, r.value, old(retryCount) + 1) else AfterFailure(s.next, r.error)
    {
      retryCount := retryCount + 1;
      StopProcess();
      r := StartTunnel(a);
      if r.Ok? {
        stats := stats.(reconnectCount := stats.reconnectCount + 1);
        events := events + [Reconnected(r.value, retryCount)];
        retryCount := 0;
      } else {
        stats := stats.(lastError := Some(r.error));
        events := events + [Error(r.error)];
      }
    }

    /** _reconnect: up to maxRetries attempts; the first success resets retryCount, exhaustion clears shouldRun. */
    method Reconnect(attempts: seq<Attempt>)
      requires |attempts| >= maxRetries
      modifies this
      ensures State() == TunnelSpec.Reconnect(old(State()), attempts)
    {
      retryCount := 0;
      while shouldRun && retryCount < maxRetries
        invariant 0 <= retryCount
        invariant ReconnectLoop(State(), attempts) == TunnelSpec.Reconnect(old(State()), attempts)
        decreases maxRetries - retryCount
      {
        ghost var before := State();
        TryOnceFacts(before, attempts[retryCount]);
        var r := RetryOnce(attempts[retryCount]);
        if r.Ok? {
          return;
        }
      }
      if retryCount >= maxRetries {
        shouldRun := false;
      }
    }

    /** One pass of the _monitor_tunnel loop. */
    method PollOnce(p: Poll)
      requires |p.attempts| >= maxRetries
      modifies this
      ensures State() == PollStep(old(State()), p)
    {
      if p.exit.Some? && process.Live? {
        process := Exited(p.exit.value);
      }
      if process.Exited? {
        stats := stats.(disconnectedCount := stats.disconnectedCount + 1);
        events := events + [Disconnected(ExitReason(process.code))];
        Reconnect(p.attempts);
      }
    }

    /** _monitor_tunnel: poll while shouldRun holds, over the polls the outside world supplies. */
    method Monitor(polls: seq<Poll>)
      requires Valid() && PollsFit(polls, maxRetries)
      modifies this
      ensures State() == TunnelSpec.Monitor(old(State()), polls) && Valid()
    {
      MonitorPreservesInv(State(), polls);
      var i := 0;
      while shouldRun && i < |polls|
        invariant 0 <= i <= |polls|
        invariant TunnelSpec.Monitor(State(), polls[i..]) == TunnelSpec.Monitor(old(State()), polls)
      {
        assert polls[i..][0] == polls[i] && polls[i..][1..] == polls[i + 1..];
        PollKeepsConfig(State(), polls[i]);
        PollOnce(polls[i]);
        i := i + 1;
      }
    }

    /** start: the URL, on_connect and the monitor task, or the exception of _start_tunnel. */
    method Start(port: int, a: Attempt) returns (r: Result<string, string>)
      requires Valid()
      modifies this
      ensures StartStep(State(), r) == TunnelSpec.Start(old(State()), port, a) && Valid()
    {
      StartPreservesInv(State(), port, a);
      localPort := port;
      shouldRun := true;
      r := StartTunnel(a);
      if r.Ok? {
        events := events + [Connected(r.value)];
        monitorTask := true;
      }
    }

    /** stop: cancel the monitor task, stop the process, forget the URL. */
    method Stop()
      requires Valid()
      modifies this
      ensures State() == TunnelSpec.Stop(old(State())) && Valid()
    {
      StopPreservesInv(State());
      shouldRun := false;
      monitorTask := false;
      StopProcess();
      tunnelUrl := None;
    }

    function IsRunning(): (b: bool)
      reads this
      ensures b == TunnelSpec.IsRunning(State())
    {
      process.Live?
    }

    function GetStats(): (v: StatsView)
      reads this
      ensures v == TunnelSpec.GetStats(State())
    {
      StatsView(stats.connectedAt, stats.disconnectedCount, stats.reconnectCount, stats.lastError,
                IsRunning(), tunnelUrl, retryCount)
    }
  }
}
