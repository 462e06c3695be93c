/**
 * The tunnel supervisor's state and what each of its operations does to it,
 * as pure functions: _start_tunnel, _stop_process, _reconnect, one pass of
 * the _monitor_tunnel loop, start, stop, is_running and get_stats. The class
 * in tunnel_manager.dfy is proved to follow these functions; the lemmas here
 * state the retry bound, the counters and the callbacks.
 *
 * There is no state enum: "connected", "reconnecting" and "failed" are read
 * off shouldRun, process, tunnelUrl and retryCount. Callbacks are recorded in
 * an event log, the subprocess and its stderr come from an Attempt oracle,
 * and the process exiting on its own comes from a Poll oracle.
 */
module TunnelSpec {
  import opened Wrappers
  import opened TunnelUrl
  import Text

  const DefaultPort := 8787
  const DefaultMaxRetries := 10
  const LocalUrlPrefix := "http://127.0.0.1:"
  const TimeoutMessage := "Timeout waiting for tunnel URL"
  const StartupFailedPrefix := "Tunnel startup failed: "

  /** The process field: no handle, a handle whose returncode is None, or one that has exited. */
  datatype Proc =
    | NoProcess
    | Live(argv: seq<string>, terminateSent: bool)
    | Exited(code: int)

  /** The callbacks the supervisor fires, in the order it fires them. */
  datatype Event =
    | Connected(url: string)
    | Disconnected(reason: string)
    | Reconnected(url: string, attempt: int)
    | Error(message: string)

  /** The stats dict (uptime_seconds is not modelled). */
  datatype Stats = Stats(connectedAt: Option<nat>, disconnectedCount: nat, reconnectCount: nat, lastError: Option<string>)

  /**
   * What the outside world does during one _start_tunnel: locating or
   * installing the binary (its path, or the message of what it raised), an
   * optional failure to spawn, the clock reading when the wait began, and
   * the stderr lines as they arrive.
   */
  datatype Attempt = Attempt(install: Result<string, string>, spawnError: Option<string>, startedAt: nat, stderr: seq<ReadEvent>)

  /** One poll of the monitor: the exit code if the process died since the last poll, and the reconnection attempts that follow. */
  datatype Poll = Poll(exit: Option<int>, attempts: seq<Attempt>)

  datatype Tunnel = Tunnel(
    shouldRun: bool,
    process: Proc,
    tunnelUrl: Option<string>,
    binaryPath: Option<string>,
    localPort: int,
    monitorTask: bool,
    retryCount: int,
    maxRetries: int,
    stats: Stats,
    events: seq<Event>,
    orphaned: nat)   // live processes whose handle was overwritten without being stopped (bookkeeping of the model)

  datatype StartStep = StartStep(next: Tunnel, result: Result<string, string>)

  datatype StatsView = StatsView(
    connectedAt: Option<nat>, disconnectedCount: nat, reconnectCount: nat, lastError: Option<string>,
    isRunning: bool, tunnelUrl: Option<string>, retryCount: int)

  function Initial(maxRetries: int): Tunnel
  {
    Tunnel(false, NoProcess, None, None, DefaultPort, false, 0, maxRetries, Stats(None, 0, 0, None), [], 0)
  }

  /** The tunnel binary's command line. */
  function TunnelArgv(path: string, port: int): (argv: seq<string>)
    ensures |argv| == 5 && argv[0] == path
  {
    [path, "tunnel", "--url", LocalUrlPrefix + Text.IntToDecimal(port), "--no-autoupdate"]
  }

  /** The local port can be read back from the --url argument. */
  lemma TunnelArgvNamesPort(path: string, port: int)
    ensures var argv := TunnelArgv(path, port);
      argv[2] == "--url" && argv[3][..|LocalUrlPrefix|] == LocalUrlPrefix
      && Text.ParseInt(argv[3][|LocalUrlPrefix|..]) == Some(port)
  {
    var argv := TunnelArgv(path, port);
    assert argv[3][|LocalUrlPrefix|..] == Text.IntToDecimal(port);
    Text.IntRoundTrip(port);
  }

  /** The release download for a platform, as the CLOUDFLARED_URLS table gives it. */
  function DownloadUrl(system: string, machine: string): (r: Option<string>)
    ensures r.Some? <==>
      (system, machine) in {("Darwin", "x86_64"), ("Darwin", "arm64"), ("Linux", "x86_64"), ("Linux", "aarch64"), ("Windows", "AMD64")}
  {
    var base := "https://github.com/cloudflare/cloudflared/releases/latest/download/cloudflared-";
    if (system, machine) == ("Darwin", "x86_64") then Some(base + "darwin-amd64.tgz")
    else if (system, machine) == ("Darwin", "arm64") then Some(base + "darwin-arm64.tgz")
    else if (system, machine) == ("Linux", "x86_64") then Some(base + "linux-amd64")
    else if (system, machine) == ("Linux", "aarch64") then Some(base + "linux-arm64")
    else if (system, machine) == ("Windows", "AMD64") then Some(base + "windows-amd64.exe")
    else None
  }

  function BinaryName(system: string): string
  {
    if system == "Windows" then "cloudflared.exe" else "cloudflared"
  }

  /** What _start_tunnel returns or raises, which depends only on the outside world. */
  function AttemptResult(a: Attempt): Result<string, string>
  {
    match a.install
    case Err(e) => Err(e)
    case Ok(_) =>
      if a.spawnError.Some? then Err(a.spawnError.value)
      else match Scan(a.stderr, 0)
        case Found(u, _) => Ok(u)
        case StreamClosed(err, _) => Err(StartupFailedPrefix + err)
        case TimedOut => Err(TimeoutMessage)
  }

  /**
   * _start_tunnel: obtain the binary, spawn it (the old handle is simply
   * overwritten), wait for the URL. On the URL: record it and connected_at.
   * On the end of stderr: the process has exited. On the timeout: terminate()
   * was sent, the handle stays.
   */
  function StartTunnel(t: Tunnel, a: Attempt): (s: StartStep)
    ensures s.result == AttemptResult(a)
  {
    match a.install
    case Err(e) => StartStep(t, Err(e))
    case Ok(path) =>
      var t1 := t.(binaryPath := Some(path));
      if a.spawnError.Some? then StartStep(t1, Err(a.spawnError.value))
      else
        var t2 := t1.(process := Live(TunnelArgv(path, t.localPort), false),
                      orphaned := t.orphaned + if t.process.Live? then 1 else 0);
        match Scan(a.stderr, 0)
        case Found(u, at) =>
          StartStep(t2.(tunnelUrl := Some(u), stats := t2.stats.(connectedAt := Some(a.startedAt + at))), Ok(u))
        case StreamClosed(err, code) =>
          StartStep(t2.(process := Exited(code)), Err(StartupFailedPrefix + err))
        case TimedOut =>
          StartStep(t2.(process := Live(TunnelArgv(path, t.localPort), true)), Err(TimeoutMessage))
  }

  /** _stop_process: terminate (or kill) and drop the handle; nothing to do without one. */
  function StopProcess(t: Tunnel): Tunnel
  {
    if t.process.NoProcess? then t else t.(process := NoProcess)
  }

  /** One attempt of the reconnection loop: count it, stop the old process, start a new one. */
  function TryOnce(t: Tunnel, a: Attempt): StartStep
  {
    StartTunnel(StopProcess(t.(retryCount := t.retryCount + 1)), a)
  }

  /** A failed attempt: record the error and fire on_error. */
  function AfterFailure(t: Tunnel, e: string): Tunnel
  {
    t.(stats := t.stats.(lastError := Some(e)), events := t.events + [Error(e)])
  }

  /** A successful attempt: count the reconnection, fire on_reconnect, reset the retry counter. */
  function AfterSuccess(t: Tunnel, u: string, attempt: int): Tunnel
  {
    t.(stats := t.stats.(reconnectCount := t.stats.reconnectCount + 1),
       events := t.events + [Reconnected(u, attempt)],
       retryCount := 0)
  }

  /** The while loop of _reconnect, entered with the attempts made so far in retryCount. */
  function ReconnectLoop(t: Tunnel, attempts: seq<Attempt>): Tunnel
    requires 0 <= t.retryCount && |attempts| >= t.maxRetries
    decreases t.maxRetries - t.retryCount
  {
    if t.shouldRun && t.retryCount < t.maxRetries then
      var s := TryOnce(t, attempts[t.retryCount]);
      match s.result
      case Ok(u) => AfterSuccess(s.next, u, t.retryCount + 1)
      case Err(e) => ReconnectLoop(AfterFailure(s.next, e), attempts)
    else if t.retryCount >= t.maxRetries then t.(shouldRun := false)
    else t
  }

  /** _reconnect: at most maxRetries attempts, each on a freshly stopped process. */
  function Reconnect(t: Tunnel, attempts: seq<Attempt>): Tunnel
    requires |attempts| >= t.maxRetries
  {
    ReconnectLoop(t.(retryCount := 0), attempts)
  }

  function ExitReason(code: int): string
  {
    "Process exited (code: " + Text.IntToDecimal(code) + ")"
  }

  /** The process as the poll sees it: a live process may have exited since the last poll. */
  function Observe(t: Tunnel, exit: Option<int>): Tunnel
  {
    if exit.Some? && t.process.Live? then t.(process := Exited(exit.value)) else t
  }

  /** Count the exit and fire on_disconnect with its reason. */
  function Disconnect(t: Tunnel): Tunnel
    requires t.process.Exited?
  {
    t.(stats := t.stats.(disconnectedCount := t.stats.disconnectedCount + 1),
       events := t.events + [Disconnected(ExitReason(t.process.code))])
  }

  /** One pass of the _monitor_tunnel loop: an exited process is counted, reported and reconnected. */
  function PollStep(t: Tunnel, p: Poll): Tunnel
    requires |p.attempts| >= t.maxRetries
  {
    var t1 := Observe(t, p.exit);
    if t1.process.Exited? then Reconnect(Disconnect(t1), p.attempts) else t1
  }

  predicate PollsFit(polls: seq<Poll>, maxRetries: int)
  {
    forall i :: 0 <= i < |polls| ==> |polls[i].attempts| >= maxRetries
  }

  /** The _monitor_tunnel loop over the polls still to come; it ends when shouldRun is cleared. */
  function Monitor(t: Tunnel, polls: seq<Poll>): Tunnel
    requires PollsFit(polls, t.maxRetries)
    decreases |polls|
  {
    if t.shouldRun && polls != [] then
      var t1 := PollStep(t, polls[0]);
      assert t1.maxRetries == t.maxRetries by { PollKeepsConfig(t, polls[0]); }
      Monitor(t1, polls[1..])
    else t
  }

  /** start: set shouldRun, then on a URL fire on_connect and create the monitor task. */
  function Start(t: Tunnel, port: int, a: Attempt): StartStep
  {
    var s := StartTunnel(t.(localPort := port, shouldRun := true), a);
    match s.result
    case Ok(u) => StartStep(s.next.(events := s.next.events + [Connected(u)], monitorTask := true), s.result)
    case Err(_) => s
  }

  /** stop: clear shouldRun, drop the monitor task, stop the process, forget the URL. */
  function Stop(t: Tunnel): Tunnel
  {
    StopProcess(t.(shouldRun := false, monitorTask := false)).(tunnelUrl := None)
  }

  predicate IsRunning(t: Tunnel)
  {
    t.process.Live?
  }

  function GetStats(t: Tunnel): StatsView
  {
    StatsView(t.stats.connectedAt, t.stats.disconnectedCount, t.stats.reconnectCount, t.stats.lastError,
              IsRunning(t), t.tunnelUrl, t.retryCount)
  }

  // ---- counting the callbacks ----

  function Reconnects(evs: seq<Event>): nat
  {
    if evs == [] then 0 else Reconnects(evs[..|evs| - 1]) + if evs[|evs| - 1].Reconnected? then 1 else 0
  }

  function Disconnects(evs: seq<Event>): nat
  {
    if evs == [] then 0 else Disconnects(evs[..|evs| - 1]) + if evs[|evs| - 1].Disconnected? then 1 else 0
  }

  lemma CountAppend(evs: seq<Event>, e: Event)
    ensures Reconnects(evs + [e]) == Reconnects(evs) + if e.Reconnected? then 1 else 0
    ensures Disconnects(evs + [e]) == Disconnects(evs) + if e.Disconnected? then 1 else 0
  {
    assert (evs + [e])[..|evs|] == evs;
  }

  /** The error callbacks of the failed attempts i, ..., j - 1, in order. */
  function FailureRun(attempts: seq<Attempt>, i: nat, j: nat): seq<Event>
    requires i <= j <= |attempts|
    requires forall n :: i <= n < j ==> AttemptResult(attempts[n]).Err?
    decreases j - i
  {
    if i == j then [] else [Error(AttemptResult(attempts[i]).error)] + FailureRun(attempts, i + 1, j)
  }

  /** One error callback per failed attempt, carrying that attempt's message. */
  lemma {:induction false} FailureRunOnePerAttempt(attempts: seq<Attempt>, i: nat, j: nat)
    requires i <= j <= |attempts|
    requires forall n :: i <= n < j ==> AttemptResult(attempts[n]).Err?
    ensures |FailureRun(attempts, i, j)| == j - i
    ensures forall n :: i <= n < j ==> FailureRun(attempts, i, j)[n - i] == Error(AttemptResult(attempts[n]).error)
    decreases j - i
  {
    if i < j {
      FailureRunOnePerAttempt(attempts, i + 1, j);
      var run := FailureRun(attempts, i, j);
      var later := FailureRun(attempts, i + 1, j);
      assert run == [Error(AttemptResult(attempts[i]).error)] + later;
      forall n | i < n < j
        ensures run[n - i] == Error(AttemptResult(attempts[n]).error)
      {
        assert run[n - i] == later[n - (i + 1)];
      }
    }
  }

  // ---- the invariant ----

  /** A callback's URL is a tunnel URL, and a reconnect callback names an attempt in 1..maxRetries. */
  ghost predicate EventOk(e: Event, maxRetries: int)
  {
    (e.Connected? ==> IsTunnelUrl(e.url))
    && (e.Reconnected? ==> IsTunnelUrl(e.url) && 1 <= e.attempt <= maxRetries)
  }

  ghost predicate EventsWellFormed(evs: seq<Event>, maxRetries: int)
  {
    evs == [] || (EventsWellFormed(evs[..|evs| - 1], maxRetries) && EventOk(evs[|evs| - 1], maxRetries))
  }

  /** Every callback in a well-formed log is well formed. */
  lemma {:induction false} EventsWellFormedAll(evs: seq<Event>, maxRetries: int, i: nat)
    requires EventsWellFormed(evs, maxRetries) && i < |evs|
    ensures EventOk(evs[i], maxRetries)
    decreases |evs|
  {
    if i < |evs| - 1 {
      EventsWellFormedAll(evs[..|evs| - 1], maxRetries, i);
    }
  }

  /** What holds of the supervisor between its operations, and inside the reconnection loop except for retryCount. */
  ghost predicate Consistent(t: Tunnel)
  {
    Reconnects(t.events) == t.stats.reconnectCount
    && Disconnects(t.events) == t.stats.disconnectedCount
    && EventsWellFormed(t.events, t.maxRetries)
    && (t.tunnelUrl.Some? ==> IsTunnelUrl(t.tunnelUrl.value) && t.stats.connectedAt.Some?)
    && (t.monitorTask ==> t.tunnelUrl.Some?)
  }

  /**
   * The supervisor's invariant: the counters count the callbacks, every
   * reconnection answered a disconnection, retryCount is 0 unless the retries
   * ran out, and a monitored tunnel has a URL on record.
   */
  ghost predicate Inv(t: Tunnel)
  {
    Consistent(t)
    && t.stats.reconnectCount <= t.stats.disconnectedCount
    && (t.retryCount == 0 || t.retryCount == t.maxRetries)
  }

  lemma InitialInv(maxRetries: int)
    ensures Inv(Initial(maxRetries))
  {
  }

  lemma AppendWellFormed(evs: seq<Event>, e: Event, maxRetries: int)
    requires EventsWellFormed(evs, maxRetries) && EventOk(e, maxRetries)
    ensures EventsWellFormed(evs + [e], maxRetries)
  {
    assert (evs + [e])[..|evs|] == evs;
  }

  lemma StartTunnelFacts(t: Tunnel, a: Attempt)
    ensures var n := StartTunnel(t, a).next;
      n.shouldRun == t.shouldRun && n.monitorTask == t.monitorTask && n.retryCount == t.retryCount
      && n.maxRetries == t.maxRetries && n.events == t.events && n.localPort == t.localPort
      && n.stats.disconnectedCount == t.stats.disconnectedCount
      && n.stats.reconnectCount == t.stats.reconnectCount
      && n.stats.lastError == t.stats.lastError
    ensures StartTunnel(t, a).result.Ok? ==>
      var n := StartTunnel(t, a).next;
      n.tunnelUrl == Some(StartTunnel(t, a).result.value) && IsTunnelUrl(n.tunnelUrl.value)
      && n.stats.connectedAt.Some? && n.process.Live? && !n.process.terminateSent
    ensures StartTunnel(t, a).result.Err? ==>
      StartTunnel(t, a).next.tunnelUrl == t.tunnelUrl && StartTunnel(t, a).next.stats.connectedAt == t.stats.connectedAt
    ensures StartTunnel(t, a).next.orphaned ==
      t.orphaned + if t.process.Live? && a.install.Ok? && a.spawnError.None? then 1 else 0
  {
    if a.install.Ok? && a.spawnError.None? && Scan(a.stderr, 0).Found? {
      ScanFoundFromLine(a.stderr, 0);
    }
  }

  /**
   * How _start_tunnel ends, case by case: it returns exactly when the binary
   * is there, the spawn works and a URL line arrives in time. A failed
   * install or spawn leaves the old handle; the end of stderr leaves the
   * process exited with the stderr text in the message; the timeout sends
   * terminate() to the live process and raises the timeout message.
   */
  lemma StartTunnelOutcomes(t: Tunnel, a: Attempt)
    ensures var s := StartTunnel(t, a);
      (s.result.Ok? <==> a.install.Ok? && a.spawnError.None? && Scan(a.stderr, 0).Found?)
      && (a.install.Err? ==> s.result == Err(a.install.error) && s.next == t)
      && (a.install.Ok? && a.spawnError.Some? ==>
            s.result == Err(a.spawnError.value) && s.next.process == t.process)
    ensures var s := StartTunnel(t, a);
      a.install.Ok? && a.spawnError.None? ==>
        var argv := TunnelArgv(a.install.value, t.localPort);
        match Scan(a.stderr, 0)
        case Found(u, _) => s.result == Ok(u) && s.next.process == Live(argv, false)
        case StreamClosed(err, code) => s.result == Err(StartupFailedPrefix + err) && s.next.process == Exited(code)
        case TimedOut => s.result == Err(TimeoutMessage) && s.next.process == Live(argv, true)
  {
  }

  lemma StartTunnelConsistent(t: Tunnel, a: Attempt)
    requires Consistent(t)
    ensures Consistent(StartTunnel(t, a).next)
  {
    StartTunnelFacts(t, a);
  }

  /** What one attempt of the loop changes: the retry counter and, on success, the URL. */
  lemma TryOnceFacts(t: Tunnel, a: Attempt)
    ensures var s := TryOnce(t, a);
      s.result == AttemptResult(a)
      && s.next.shouldRun == t.shouldRun && s.next.monitorTask == t.monitorTask
      && s.next.retryCount == t.retryCount + 1 && s.next.maxRetries == t.maxRetries
      && s.next.events == t.events && s.next.orphaned == t.orphaned
      && s.next.stats.disconnectedCount == t.stats.disconnectedCount
      && s.next.stats.reconnectCount == t.stats.reconnectCount
      && (s.result.Ok? ==> s.next.tunnelUrl == Some(s.result.value) && IsTunnelUrl(s.result.value)
                           && s.next.stats.connectedAt.Some? && s.next.process.Live?)
      && (s.result.Err? ==> s.next.tunnelUrl == t.tunnelUrl && s.next.stats.connectedAt == t.stats.connectedAt)
  {
    StartTunnelFacts(StopProcess(t.(retryCount := t.retryCount + 1)), a);
  }

  lemma TryOnceConsistent(t: Tunnel, a: Attempt)
    requires Consistent(t)
    ensures Consistent(TryOnce(t, a).next)
  {
    TryOnceFacts(t, a);
  }

  lemma AfterFailureConsistent(t: Tunnel, e: string)
    requires Consistent(t)
    ensures Consistent(AfterFailure(t, e))
  {
    CountAppend(t.events, Error(e));
    AppendWellFormed(t.events, Error(e), t.maxRetries);
  }

  lemma AfterSuccessConsistent(t: Tunnel, u: string, attempt: int)
    requires Consistent(t) && IsTunnelUrl(u) && 1 <= attempt <= t.maxRetries
    ensures Consistent(AfterSuccess(t, u, attempt))
  {
    CountAppend(t.events, Reconnected(u, attempt));
    AppendWellFormed(t.events, Reconnected(u, attempt), t.maxRetries);
  }

  /** The state after a failed attempt of the loop. */
  function NextAfterFailure(t: Tunnel, a: Attempt): Tunnel
    requires AttemptResult(a).Err?
  {
    AfterFailure(TryOnce(t, a).next, AttemptResult(a).error)
  }

  /** A failed attempt hands the loop on to the next attempt, with one more error callback. */
  lemma FailedStep(t: Tunnel, attempts: seq<Attempt>)
    requires t.shouldRun && 0 <= t.retryCount < t.maxRetries <= |attempts|
    requires AttemptResult(attempts[t.retryCount]).Err?
    ensures var e := AttemptResult(attempts[t.retryCount]).error;
      var n := NextAfterFailure(t, attempts[t.retryCount]);
      ReconnectLoop(t, attempts) == ReconnectLoop(n, attempts)
      && n.shouldRun && n.retryCount == t.retryCount + 1 && n.maxRetries == t.maxRetries
      && n.events == t.events + [Error(e)] && n.stats.lastError == Some(e)
      && n.stats.reconnectCount == t.stats.reconnectCount
      && n.stats.disconnectedCount == t.stats.disconnectedCount
      && n.monitorTask == t.monitorTask && n.orphaned == t.orphaned
  {
    TryOnceFacts(t, attempts[t.retryCount]);
  }

  /** The state after a successful attempt of the loop. */
  function NextAfterSuccess(t: Tunnel, a: Attempt): Tunnel
    requires AttemptResult(a).Ok?
  {
    AfterSuccess(TryOnce(t, a).next, AttemptResult(a).value, t.retryCount + 1)
  }

  /** A successful attempt ends the loop with one reconnect callback naming the attempt. */
  lemma SucceededStep(t: Tunnel, attempts: seq<Attempt>)
    requires t.shouldRun && 0 <= t.retryCount < t.maxRetries <= |attempts|
    requires AttemptResult(attempts[t.retryCount]).Ok?
    ensures var u := AttemptResult(attempts[t.retryCount]).value;
      var n := NextAfterSuccess(t, attempts[t.retryCount]);
      ReconnectLoop(t, attempts) == n
      && n.shouldRun && n.retryCount == 0 && n.maxRetries == t.maxRetries
      && n.events == t.events + [Reconnected(u, t.retryCount + 1)]
      && n.tunnelUrl == Some(u) && IsTunnelUrl(u) && n.process.Live?
      && n.stats.reconnectCount == t.stats.reconnectCount + 1
      && n.stats.disconnectedCount == t.stats.disconnectedCount
      && n.monitorTask == t.monitorTask && n.orphaned == t.orphaned
  {
    TryOnceFacts(t, attempts[t.retryCount]);
  }

  lemma NextAfterSuccessConsistent(t: Tunnel, a: Attempt)
    requires Consistent(t) && AttemptResult(a).Ok? && 0 <= t.retryCount < t.maxRetries
    ensures Consistent(NextAfterSuccess(t, a))
  {
    TryOnceFacts(t, a);
    TryOnceConsistent(t, a);
    AfterSuccessConsistent(TryOnce(t, a).next, AttemptResult(a).value, t.retryCount + 1);
  }

  lemma NextAfterFailureConsistent(t: Tunnel, a: Attempt)
    requires Consistent(t) && AttemptResult(a).Err?
    ensures Consistent(NextAfterFailure(t, a))
  {
    TryOnceConsistent(t, a);
    AfterFailureConsistent(TryOnce(t, a).next, AttemptResult(a).error);
  }

  /** The reconnection loop keeps the bookkeeping consistent and answers with at most one reconnection. */
  lemma {:induction false} ReconnectLoopConsistent(t: Tunnel, attempts: seq<Attempt>)
    requires 0 <= t.retryCount && |attempts| >= t.maxRetries
    requires t.retryCount <= t.maxRetries || t.retryCount == 0
    requires !t.shouldRun ==> t.retryCount == 0
    requires Consistent(t)
    ensures var r := ReconnectLoop(t, attempts);
      Consistent(r) && (r.retryCount == 0 || r.retryCount == r.maxRetries)
      && r.maxRetries == t.maxRetries && r.monitorTask == t.monitorTask && r.orphaned == t.orphaned
      && r.stats.disconnectedCount == t.stats.disconnectedCount
      && t.stats.reconnectCount <= r.stats.reconnectCount <= t.stats.reconnectCount + 1
    decreases t.maxRetries - t.retryCount
  {
    if t.shouldRun && t.retryCount < t.maxRetries {
      var a := attempts[t.retryCount];
      if AttemptResult(a).Ok? {
        SucceededStep(t, attempts);
        NextAfterSuccessConsistent(t, a);
      } else {
        var t1 := NextAfterFailure(t, a);
        FailedStep(t, attempts);
        NextAfterFailureConsistent(t, a);
        ReconnectLoopConsistent(t1, attempts);
      }
    } else if t.retryCount >= t.maxRetries {
      assert ReconnectLoop(t, attempts) == t.(shouldRun := false);
    }
  }

  lemma PollKeepsConfig(t: Tunnel, p: Poll)
    requires |p.attempts| >= t.maxRetries
    ensures PollStep(t, p).maxRetries == t.maxRetries
  {
    var t1 := Observe(t, p.exit);
    if t1.process.Exited? {
      ReconnectLoopKeepsConfig(Disconnect(t1).(retryCount := 0), p.attempts);
    }
  }

  lemma {:induction false} ReconnectLoopKeepsConfig(t: Tunnel, attempts: seq<Attempt>)
    requires 0 <= t.retryCount && |attempts| >= t.maxRetries
    ensures ReconnectLoop(t, attempts).maxRetries == t.maxRetries
    decreases t.maxRetries - t.retryCount
  {
    if t.shouldRun && t.retryCount < t.maxRetries {
      if AttemptResult(attempts[t.retryCount]).Ok? {
        SucceededStep(t, attempts);
      } else {
        FailedStep(t, attempts);
        ReconnectLoopKeepsConfig(NextAfterFailure(t, attempts[t.retryCount]), attempts);
      }
    }
  }

  lemma DisconnectConsistent(t: Tunnel)
    requires Consistent(t) && t.process.Exited?
    ensures Consistent(Disconnect(t))
  {
    var d := Disconnected(ExitReason(t.process.code));
    CountAppend(t.events, d);
    AppendWellFormed(t.events, d, t.maxRetries);
  }

  /** A poll keeps the invariant: one disconnection, then at most one reconnection. */
  lemma PollPreservesInv(t: Tunnel, p: Poll)
    requires Inv(t) && |p.attempts| >= t.maxRetries
    ensures Inv(PollStep(t, p)) && PollStep(t, p).orphaned == t.orphaned
    ensures PollStep(t, p).monitorTask == t.monitorTask
  {
    var t1 := Observe(t, p.exit);
    if t1.process.Exited? {
      var t2 := Disconnect(t1);
      assert Consistent(t1);
      DisconnectConsistent(t1);
      assert PollStep(t, p) == ReconnectLoop(t2.(retryCount := 0), p.attempts);
      ReconnectLoopConsistent(t2.(retryCount := 0), p.attempts);
    } else {
      assert PollStep(t, p) == t1;
    }
  }

  /** The monitor loop keeps the invariant, whatever the polls bring. */
  lemma {:induction false} MonitorPreservesInv(t: Tunnel, polls: seq<Poll>)
    requires Inv(t) && PollsFit(polls, t.maxRetries)
    ensures Inv(Monitor(t, polls)) && Monitor(t, polls).orphaned == t.orphaned
    decreases |polls|
  {
    if t.shouldRun && polls != [] {
      PollPreservesInv(t, polls[0]);
      PollKeepsConfig(t, polls[0]);
      MonitorPreservesInv(PollStep(t, polls[0]), polls[1..]);
    }
  }

  /** start keeps the invariant; it orphans the old process only if that one was still running. */
  lemma StartPreservesInv(t: Tunnel, port: int, a: Attempt)
    requires Inv(t)
    ensures Inv(Start(t, port, a).next)
    ensures Start(t, port, a).next.orphaned ==
      t.orphaned + if t.process.Live? && a.install.Ok? && a.spawnError.None? then 1 else 0
  {
    var t0 := t.(localPort := port, shouldRun := true);
    StartTunnelFacts(t0, a);
    StartTunnelConsistent(t0, a);
    var s := StartTunnel(t0, a);
    if s.result.Ok? {
      CountAppend(s.next.events, Connected(s.result.value));
      AppendWellFormed(s.next.events, Connected(s.result.value), t.maxRetries);
    }
  }

  lemma StopPreservesInv(t: Tunnel)
    requires Inv(t)
    ensures Inv(Stop(t)) && Stop(t).orphaned == t.orphaned
  {
  }

  /**
   * What get_stats reports of a supervisor in its invariant: counters equal to
   * the callbacks fired, no more reconnections than disconnections, a retry
   * count of 0 unless the retries ran out, and a URL only with a tunnel URL
   * and a connection time on record.
   */
  lemma StatsReportCallbacks(t: Tunnel)
    requires Inv(t)
    ensures var v := GetStats(t);
      v.reconnectCount == Reconnects(t.events) && v.disconnectedCount == Disconnects(t.events)
      && v.reconnectCount <= v.disconnectedCount
      && (v.retryCount == 0 || v.retryCount == t.maxRetries)
      && v.isRunning == t.process.Live? && v.tunnelUrl == t.tunnelUrl
      && (v.tunnelUrl.Some? ==> IsTunnelUrl(v.tunnelUrl.value) && v.connectedAt.Some?)
  {
  }

  // ---- what start, a reconnection, a poll and stop promise ----

  /**
   * start fires on_connect exactly once with the URL and creates the monitor
   * task only when _start_tunnel returns; when it raises, neither happens and
   * no URL is recorded, though shouldRun stays set.
   */
  lemma StartOutcome(t: Tunnel, port: int, a: Attempt)
    ensures var s := Start(t, port, a);
      s.result == AttemptResult(a) && s.next.shouldRun && s.next.localPort == port
      && (s.result.Ok? ==>
            s.next.events == t.events + [Connected(s.result.value)] && s.next.monitorTask
            && s.next.tunnelUrl == Some(s.result.value) && IsTunnelUrl(s.result.value))
      && (s.result.Err? ==>
            s.next.events == t.events && s.next.monitorTask == t.monitorTask && s.next.tunnelUrl == t.tunnelUrl)
  {
    StartTunnelFacts(t.(localPort := port, shouldRun := true), a);
  }

  /**
   * When attempt k is the first that succeeds, the reconnection makes k + 1
   * attempts: on_error for each failure, then one on_reconnect with the new
   * URL and the attempt number k + 1; reconnect_count rises by one and
   * retryCount is back to 0.
   */
  lemma {:induction false} ReconnectLoopSucceeds(t: Tunnel, attempts: seq<Attempt>, k: nat)
    requires t.shouldRun && 0 <= t.retryCount <= k < t.maxRetries <= |attempts|
    requires AttemptResult(attempts[k]).Ok?
    requires forall j :: t.retryCount <= j < k ==> AttemptResult(attempts[j]).Err?
    ensures var r := ReconnectLoop(t, attempts);
      var u := AttemptResult(attempts[k]).value;
      r.shouldRun && r.retryCount == 0 && r.tunnelUrl == Some(u) && r.process.Live?
      && r.stats.reconnectCount == t.stats.reconnectCount + 1
      && r.stats.disconnectedCount == t.stats.disconnectedCount
      && r.events == t.events + FailureRun(attempts, t.retryCount, k) + [Reconnected(u, k + 1)]
    decreases k - t.retryCount
  {
    if t.retryCount == k {
      SucceededStep(t, attempts);
      assert t.events + FailureRun(attempts, k, k) == t.events;
    } else {
      var e := AttemptResult(attempts[t.retryCount]).error;
      var t1 := NextAfterFailure(t, attempts[t.retryCount]);
      FailedStep(t, attempts);
      ReconnectLoopSucceeds(t1, attempts, k);
      var later := FailureRun(attempts, t.retryCount + 1, k);
      assert FailureRun(attempts, t.retryCount, k) == [Error(e)] + later;
      assert t1.events + later == t.events + FailureRun(attempts, t.retryCount, k);
    }
  }

  lemma ReconnectSucceeds(t: Tunnel, attempts: seq<Attempt>, k: nat)
    requires t.shouldRun && k < t.maxRetries <= |attempts|
    requires AttemptResult(attempts[k]).Ok?
    requires forall j :: 0 <= j < k ==> AttemptResult(attempts[j]).Err?
    ensures var r := Reconnect(t, attempts);
      var u := AttemptResult(attempts[k]).value;
      r.shouldRun && r.retryCount == 0 && r.tunnelUrl == Some(u) && r.process.Live?
      && r.stats.reconnectCount == t.stats.reconnectCount + 1
      && r.stats.disconnectedCount == t.stats.disconnectedCount
      && r.events == t.events + FailureRun(attempts, 0, k) + [Reconnected(u, k + 1)]
  {
    ReconnectLoopSucceeds(t.(retryCount := 0), attempts, k);
  }

  /**
   * When every attempt fails the loop makes exactly maxRetries of them,
   * records the last error and clears shouldRun...
   */
  lemma {:induction false} ReconnectLoopExhausted(t: Tunnel, attempts: seq<Attempt>)
    requires t.shouldRun && 0 <= t.retryCount <= t.maxRetries <= |attempts|
    requires forall j :: t.retryCount <= j < t.maxRetries ==> AttemptResult(attempts[j]).Err?
    ensures var r := ReconnectLoop(t, attempts);
      !r.shouldRun && r.retryCount == t.maxRetries
      && r.stats.reconnectCount == t.stats.reconnectCount
      && r.stats.disconnectedCount == t.stats.disconnectedCount
      && r.stats.lastError == if t.retryCount < t.maxRetries then Some(AttemptResult(attempts[t.maxRetries - 1]).error) else t.stats.lastError
    decreases t.maxRetries - t.retryCount
  {
    if t.retryCount < t.maxRetries {
      FailedStep(t, attempts);
      ReconnectLoopExhausted(NextAfterFailure(t, attempts[t.retryCount]), attempts);
    } else {
      assert ReconnectLoop(t, attempts) == t.(shouldRun := false);
    }
  }

  /** ... and fires on_error once for each failed attempt, in order. */
  lemma {:induction false} ReconnectLoopFailureLog(t: Tunnel, attempts: seq<Attempt>)
    requires t.shouldRun && 0 <= t.retryCount <= t.maxRetries <= |attempts|
    requires forall j :: t.retryCount <= j < t.maxRetries ==> AttemptResult(attempts[j]).Err?
    ensures ReconnectLoop(t, attempts).events == t.events + FailureRun(attempts, t.retryCount, t.maxRetries)
    decreases t.maxRetries - t.retryCount
  {
    if t.retryCount < t.maxRetries {
      var e := AttemptResult(attempts[t.retryCount]).error;
      var t1 := NextAfterFailure(t, attempts[t.retryCount]);
      FailedStep(t, attempts);
      ReconnectLoopFailureLog(t1, attempts);
      var later := FailureRun(attempts, t.retryCount + 1, t.maxRetries);
      assert FailureRun(attempts, t.retryCount, t.maxRetries) == [Error(e)] + later;
      assert t1.events + later == t.events + FailureRun(attempts, t.retryCount, t.maxRetries);
    } else {
      assert ReconnectLoop(t, attempts) == t.(shouldRun := false);
    }
  }

  /** _reconnect when every attempt fails: maxRetries attempts (none if it is negative), the last error on record, shouldRun cleared. */
  lemma ReconnectExhausted(t: Tunnel, attempts: seq<Attempt>)
    requires t.shouldRun && |attempts| >= t.maxRetries
    requires forall j :: 0 <= j < t.maxRetries ==> AttemptResult(attempts[j]).Err?
    ensures var r := Reconnect(t, attempts);
      !r.shouldRun && r.retryCount == (if t.maxRetries < 0 then 0 else t.maxRetries)
      && r.stats.reconnectCount == t.stats.reconnectCount
      && r.stats.disconnectedCount == t.stats.disconnectedCount
      && r.stats.lastError == if t.maxRetries > 0 then Some(AttemptResult(attempts[t.maxRetries - 1]).error) else t.stats.lastError
  {
    var t0 := t.(retryCount := 0);
    assert Reconnect(t, attempts) == ReconnectLoop(t0, attempts);
    if t.maxRetries < 0 {
      assert ReconnectLoop(t0, attempts) == t0.(shouldRun := false);
    } else {
      ReconnectLoopExhausted(t0, attempts);
    }
  }

  /** ... and its callbacks are one on_error per attempt, in order. */
  lemma ReconnectExhaustedLog(t: Tunnel, attempts: seq<Attempt>)
    requires t.shouldRun && 0 <= t.maxRetries <= |attempts|
    requires forall j :: 0 <= j < t.maxRetries ==> AttemptResult(attempts[j]).Err?
    ensures Reconnect(t, attempts).events == t.events + FailureRun(attempts, 0, t.maxRetries)
  {
    var t0 := t.(retryCount := 0);
    assert Reconnect(t, attempts) == ReconnectLoop(t0, attempts);
    ReconnectLoopFailureLog(t0, attempts);
  }

  /** A poll that finds the process exited counts it once and fires on_disconnect before anything else. */
  lemma PollReportsExit(t: Tunnel, p: Poll)
    requires |p.attempts| >= t.maxRetries
    requires Observe(t, p.exit).process.Exited?
    ensures var r := PollStep(t, p);
      var code := Observe(t, p.exit).process.code;
      r.stats.disconnectedCount == t.stats.disconnectedCount + 1
      && |r.events| > |t.events| && r.events[..|t.events| + 1] == t.events + [Disconnected(ExitReason(code))]
  {
    var t1 := Observe(t, p.exit);
    ReconnectLoopPrefix(Disconnect(t1).(retryCount := 0), p.attempts);
  }

  lemma {:induction false} ReconnectLoopPrefix(t: Tunnel, attempts: seq<Attempt>)
    requires 0 <= t.retryCount && |attempts| >= t.maxRetries
    ensures var r := ReconnectLoop(t, attempts);
      |t.events| <= |r.events| && r.events[..|t.events|] == t.events
      && r.stats.disconnectedCount == t.stats.disconnectedCount
    decreases t.maxRetries - t.retryCount
  {
    if t.shouldRun && t.retryCount < t.maxRetries {
      if AttemptResult(attempts[t.retryCount]).Ok? {
        SucceededStep(t, attempts);
        assert ReconnectLoop(t, attempts).events[..|t.events|] == t.events;
      } else {
        var t1 := NextAfterFailure(t, attempts[t.retryCount]);
        FailedStep(t, attempts);
        ReconnectLoopPrefix(t1, attempts);
        assert t1.events[..|t.events|] == t.events;
      }
    }
  }

  /** A poll that finds the process alive changes nothing. */
  lemma PollWhileAlive(t: Tunnel, p: Poll)
    requires |p.attempts| >= t.maxRetries
    requires !Observe(t, p.exit).process.Exited?
    ensures PollStep(t, p) == t
  {
  }

  /**
   * Once the retries run out the monitor loop ends: the polls after the one
   * that exhausted them are never looked at.
   */
  lemma MonitorEndsAfterExhaustion(t: Tunnel, polls: seq<Poll>)
    requires t.shouldRun && polls != [] && PollsFit(polls, t.maxRetries)
    requires Observe(t, polls[0].exit).process.Exited?
    requires forall j :: 0 <= j < t.maxRetries ==> AttemptResult(polls[0].attempts[j]).Err?
    ensures !Monitor(t, polls).shouldRun
    ensures Monitor(t, polls) == PollStep(t, polls[0])
  {
    var t1 := Observe(t, polls[0].exit);
    ReconnectExhausted(Disconnect(t1), polls[0].attempts);
    PollKeepsConfig(t, polls[0]);
  }

  /**
   * stop leaves nothing running, whatever the state: no process, no monitor
   * task, no URL, shouldRun cleared, counters and callbacks untouched; and a
   * second stop changes nothing.
   */
  lemma StopClears(t: Tunnel)
    ensures var r := Stop(t);
      !r.shouldRun && !r.monitorTask && r.process == NoProcess && r.tunnelUrl == None && !IsRunning(r)
      && r.stats == t.stats && r.events == t.events && r.retryCount == t.retryCount
    ensures Stop(Stop(t)) == Stop(t)
  {
  }
}
