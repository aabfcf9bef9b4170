/**
 * The supervisor of the single `llama-server` child: `start_model`,
 * `stop_model`, `get_status` and the health decision of
 * `check_llama_health`, over the globals `current_process`,
 * `current_model`, `start_time`, `request_count` and `process_logs`.
 *
 * The operating system, the network and the clock are inputs: each call
 * receives the outcome of the process operation it would perform, the
 * result of the port probe, the integer clock reading and one timestamp
 * string per log line.  `StopStep`, `StartStep` and `StatusStep` say what
 * each call returns and what state it leaves; the class `Supervisor`
 * performs the same calls on mutable fields and is proved to agree with
 * them.
 */
module Control {
  import opened Wrappers
  import opened Configuration
  import opened LaunchArgs
  import opened OutputReader
  import opened Logs

  /** The handle of a spawned child; only its pid is observable. */
  datatype Proc = Proc(pid: int)

  /** The globals, with `process_logs` as the list of its entries, oldest first. */
  datatype State = State(
    process: Option<Proc>,
    model: Option<string>,
    startTime: Option<int>,
    requestCount: nat,
    logs: seq<string>)

  /** An exception that escapes the operation (and the HTTP handler). */
  datatype Exception = KeyError(key: string) | Failure(message: string)

  /** An operation either returns its reply or raises. */
  datatype Outcome<R> = Returned(reply: R) | Raised(exception: Exception)

  /** What a call produced together with the state it left behind. */
  datatype Step<R> = Step(outcome: Outcome<R>, next: State)

  /** `kill()` followed by the second `wait()`, after the graceful wait timed out. */
  datatype KillOutcome = Killed | KillFails(message: string)

  /** SIGTERM followed by `wait(timeout=10)`. */
  datatype WaitOutcome = Exits | TimesOut(kill: KillOutcome) | WaitFails(message: string)

  /** `subprocess.Popen(cmd, ...)`. */
  datatype SpawnOutcome = Spawned(pid: int) | BinaryNotFound | SpawnFails(message: string)

  /** `current_process.poll()`. */
  datatype PollOutcome = StillRunning | ExitedWith(code: int)

  /** `sock.connect_ex((llama_host, llama_port))`: an error number, or an exception. */
  datatype ConnectOutcome = Connected(code: int) | ConnectFails(message: string)

  datatype Health = Healthy | Unhealthy(reason: string)

  datatype StopReply = NoModelRunning | Stopped(model: string, name: string) | StopFailed(error: string)

  datatype StartReply = Started(model: string, name: string, pid: int) | StartFailed(error: string)

  datatype StatusReply =
    | Idle(requestCount: nat)
    | Exited(code: int, requestCount: nat)
    | Running(model: string, name: string, pid: int, uptime: int, health: Health, requestCount: nat)

  /**
   * What holds between calls: the server only runs with a configuration
   * free of validation errors; a process, its model and its start time are
   * recorded together, the model is one the configuration lists, and the
   * buffer is within its bound.
   */
  ghost predicate Inv(c: Config, s: State) {
    && Complete(c)
    && (s.process.None? <==> s.model.None?)
    && (s.process.None? <==> s.startTime.None?)
    && (s.model.Some? ==> HasModel(c, s.model.value))
    && |s.logs| <= Capacity
  }

  /** `CONFIG["models"][id]["name"]`; `None` where that lookup raises `KeyError`. */
  function NameOf(c: Config, id: string): Option<string>
    requires HasModel(c, id)
  {
    var fields := ModelOf(c, id).fields;
    if "name" in fields then Some(fields["name"]) else None
  }

  /** The name `stop_model` reports: an empty id is falsy and reads as "Unknown". */
  function StoppedName(c: Config, id: string): Option<string>
    requires HasModel(c, id)
  {
    if id == "" then Some("Unknown") else NameOf(c, id)
  }

  /** `' '.join(words)`. */
  function JoinWords(words: seq<string>): string {
    if |words| == 0 then ""
    else if |words| == 1 then words[0]
    else JoinWords(words[..|words| - 1]) + " " + words[|words| - 1]
  }

  /** The state after the `finally` clause of `stop_model`: the slot is empty. */
  function Released(s: State): State {
    s.(process := None, model := None, startTime := None)
  }

  /**
   * Whether `stop_model()` lets an exception escape: with a process held,
   * the name lookup raises `KeyError`, or the kill escalation after a
   * timeout fails.
   */
  predicate StopRaises(c: Config, s: State, wait: WaitOutcome)
    requires Inv(c, s)
  {
    s.process.Some? && (StoppedName(c, s.model.value).None? || (wait.TimesOut? && wait.kill.KillFails?))
  }

  /**
   * `stop_model()`.  With no process it is a no-op.  Otherwise the name
   * lookup comes first (a `KeyError` there escapes before anything
   * changes), then the "Stopping" line; whatever the wait does the slot is
   * emptied, and only a stop that completes appends the "Stopped" line.
   */
  function StopStep(c: Config, s: State, wait: WaitOutcome, tsStopping: string, tsStopped: string)
    : (r: Step<StopReply>)
    requires Inv(c, s)
    ensures Inv(c, r.next)
    ensures s.process.None? ==> r == Step(Returned(NoModelRunning), s)
    ensures r.outcome == Raised(KeyError("name")) ==> r.next == s
    ensures s.process.Some? && r.outcome != Raised(KeyError("name")) ==> r.next == Released(r.next)
    ensures r.next.requestCount == s.requestCount
    ensures s.process.Some? && r.outcome.Returned? ==>
              r.outcome.reply.Stopped? || r.outcome.reply.StopFailed?
    ensures r.outcome.Returned? && r.outcome.reply.Stopped? ==>
              && s.model == Some(r.outcome.reply.model)
              && r.next.logs == Window(Window(s.logs + [Stamp(tsStopping, "Stopping " + r.outcome.reply.name + "...")])
                                       + [Stamp(tsStopped, "Stopped " + r.outcome.reply.name)])
    ensures r.outcome.Raised? <==> StopRaises(c, s, wait)
    ensures s.process.Some? ==> (r.outcome == Raised(KeyError("name")) <==> StoppedName(c, s.model.value).None?)
    ensures s.process.Some? && StoppedName(c, s.model.value).Some? ==>
              var name := StoppedName(c, s.model.value).value;
              var stopping := Released(s).(logs := Window(s.logs + [Stamp(tsStopping, "Stopping " + name + "...")]));
              && (wait == Exits || wait == TimesOut(Killed) ==>
                    r == Step(Returned(Stopped(s.model.value, name)),
                              stopping.(logs := Window(stopping.logs + [Stamp(tsStopped, "Stopped " + name)]))))
              && (wait.WaitFails? ==> r == Step(Returned(StopFailed(wait.message)), stopping))
              && (wait.TimesOut? && wait.kill.KillFails? ==> r == Step(Raised(Failure(wait.kill.message)), stopping))
  {
    if s.process.None? then Step(Returned(NoModelRunning), s)
    else
      var id := s.model.value;
      match StoppedName(c, id)
      case None => Step(Raised(KeyError("name")), s)
      case Some(name) =>
        var stopping := Released(s.(logs := Window(s.logs + [Stamp(tsStopping, "Stopping " + name + "...")])));
        match wait
        case Exits =>
          Step(Returned(Stopped(id, name)), stopping.(logs := Window(stopping.logs + [Stamp(tsStopped, "Stopped " + name)])))
        case TimesOut(Killed) =>
          Step(Returned(Stopped(id, name)), stopping.(logs := Window(stopping.logs + [Stamp(tsStopped, "Stopped " + name)])))
        case TimesOut(KillFails(message)) => Step(Raised(Failure(message)), stopping)
        case WaitFails(message) => Step(Returned(StopFailed(message)), stopping)
  }

  lemma WindowTwo(a: string, b: string)
    ensures Window(Window([] + [a]) + [b]) == [a, b]
  {
    assert [] + [a] == [a];
    assert [a] + [b] == [a, b];
  }

  /** The buffer right after `start_model` has logged its two lines. */
  function StartLines(c: Config, id: string, name: string, tsStarting: string, tsCommand: string): seq<string>
    requires Complete(c) && HasModel(c, id)
  {
    [Stamp(tsStarting, "Starting " + name + "..."), CommandLine(c, id, tsCommand)]
  }

  /** The "Command" log line: the launch command joined with single spaces. */
  function CommandLine(c: Config, id: string, timestamp: string): string
    requires Complete(c) && HasModel(c, id)
  {
    Stamp(timestamp, "Command: " + JoinWords(LlamaArgs(c, id)))
  }

  /** `build_llama_args(model_id)` rendered into the "Command" log line. */
  method BuildCommandLine(c: Config, id: string, timestamp: string) returns (line: string)
    requires Complete(c) && HasModel(c, id)
    ensures line == CommandLine(c, id, timestamp)
  {
    var cmd := BuildLlamaArgs(c, id);
    line := Stamp(timestamp, "Command: " + JoinWords(cmd));
  }

  /** The state `start_model` spawns from: any old process stopped, the buffer cleared. */
  function Before(c: Config, s: State, wait: WaitOutcome, tsStopping: string, tsStopped: string): (r: Step<StopReply>)
    requires Inv(c, s)
    ensures Inv(c, r.next) && r.next.requestCount == s.requestCount
    ensures r.outcome.Returned? ==> r.next.process.None?
    ensures r.outcome.Raised? <==> StopRaises(c, s, wait)
    ensures !StopRaises(c, s, wait) ==> r.next == Released(r.next) && r.next == Released(s).(logs := r.next.logs)
  {
    if s.process.Some? then StopStep(c, s, wait, tsStopping, tsStopped) else Step(Returned(NoModelRunning), s)
  }

  /**
   * The `try` block of `start_model`, entered with the two lines logged
   * and no process held: only a successful spawn records a process.
   */
  function SpawnStep(c: Config, s: State, id: string, name: string, spawn: SpawnOutcome, now: int)
    : (r: Step<StartReply>)
    requires Inv(c, s) && HasModel(c, id) && s.process.None?
    ensures Inv(c, r.next) && r.next.requestCount == s.requestCount && r.next.logs == s.logs
    ensures r.outcome.Returned?
    ensures r.outcome.reply.Started? ==>
              && spawn == Spawned(r.outcome.reply.pid)
              && r.outcome.reply.model == id && r.outcome.reply.name == name
              && r.next.process == Some(Proc(r.outcome.reply.pid))
              && r.next.model == Some(id) && r.next.startTime == Some(now)
    ensures r.outcome.reply.StartFailed? ==> !spawn.Spawned? && r.next == s
    ensures spawn == BinaryNotFound ==>
              r.outcome.reply == StartFailed("llama-server not found at " + c.paths.value["llama_server"])
    ensures spawn.Spawned? ==> r.outcome.reply == Started(id, name, spawn.pid)
    ensures spawn.SpawnFails? ==> r.outcome.reply == StartFailed(spawn.message)
  {
    match spawn
    case Spawned(pid) =>
      Step(Returned(Started(id, name, pid)), s.(process := Some(Proc(pid)), model := Some(id), startTime := Some(now)))
    case BinaryNotFound =>
      Step(Returned(StartFailed("llama-server not found at " + c.paths.value["llama_server"])), s)
    case SpawnFails(message) => Step(Returned(StartFailed(message)), s)
  }

  /**
   * The part of `start_model` after the old process is gone: clear the
   * buffer, look the name up (a `KeyError` escapes with the buffer already
   * empty), log the two lines and spawn.
   */
  function LaunchStep(c: Config, s: State, id: string, tsStarting: string, tsCommand: string, spawn: SpawnOutcome, now: int)
    : (r: Step<StartReply>)
    requires Inv(c, s) && HasModel(c, id) && s.process.None?
    ensures Inv(c, r.next)
    ensures r.next.requestCount == s.requestCount
    ensures r.outcome.Raised? <==> NameOf(c, id).None?
    ensures r.outcome.Raised? ==> r == Step(Raised(KeyError("name")), s.(logs := []))
    ensures r.outcome.Returned? ==>
              && NameOf(c, id).Some?
              && r.next.logs == StartLines(c, id, NameOf(c, id).value, tsStarting, tsCommand)
              && r == SpawnStep(c, s.(logs := r.next.logs), id, NameOf(c, id).value, spawn, now)
  {
    var cleared := s.(logs := []);
    match NameOf(c, id)
    case None => Step(Raised(KeyError("name")), cleared)
    case Some(name) => SpawnStep(c, cleared.(logs := StartLines(c, id, name, tsStarting, tsCommand)), id, name, spawn, now)
  }

  /**
   * `start_model(model_id)`.  An unknown id is refused before anything
   * happens.  A known id stops the running process (an exception from the
   * stop escapes), clears the buffer, logs the "Starting" and "Command"
   * lines and spawns; only a successful spawn records a process.
   */
  function StartStep(
    c: Config, s: State, id: string, wait: WaitOutcome, tsStopping: string, tsStopped: string,
    tsStarting: string, tsCommand: string, spawn: SpawnOutcome, now: int)
    : (r: Step<StartReply>)
    requires Inv(c, s)
    ensures Inv(c, r.next)
    ensures r.next.requestCount == s.requestCount
    ensures !HasModel(c, id) ==> r == Step(Returned(StartFailed("Unknown model: " + id)), s)
    ensures HasModel(c, id) && s.process.Some? && StoppedName(c, s.model.value).None? ==>
              r == Step(Raised(KeyError("name")), s)
    ensures HasModel(c, id) && r.outcome.Returned? ==>
              && NameOf(c, id).Some?
              && r.next.logs == StartLines(c, id, NameOf(c, id).value, tsStarting, tsCommand)
    ensures r.outcome.Returned? && r.outcome.reply.Started? ==>
              && spawn == Spawned(r.outcome.reply.pid)
              && r.outcome.reply.model == id && Some(r.outcome.reply.name) == NameOf(c, id)
              && r.next.process == Some(Proc(r.outcome.reply.pid))
              && r.next.model == Some(id) && r.next.startTime == Some(now)
    ensures HasModel(c, id) && r.outcome.Returned? && r.outcome.reply.StartFailed? ==>
              && !spawn.Spawned?
              && r.next == Released(r.next)
    ensures spawn == BinaryNotFound && HasModel(c, id) && r.outcome.Returned? ==>
              r.outcome.reply == StartFailed("llama-server not found at " + c.paths.value["llama_server"])
    ensures HasModel(c, id) && s.process.Some? && StoppedName(c, s.model.value).Some?
            && wait.TimesOut? && wait.kill.KillFails? ==>
              r == Step(Raised(Failure(wait.kill.message)),
                        Released(s).(logs := Window(s.logs + [Stamp(tsStopping, "Stopping " + StoppedName(c, s.model.value).value + "...")])))
    ensures HasModel(c, id) && !StopRaises(c, s, wait) ==> (r.outcome.Raised? <==> NameOf(c, id).None?)
    ensures HasModel(c, id) && !StopRaises(c, s, wait) && NameOf(c, id).None? ==>
              r == Step(Raised(KeyError("name")), Released(s).(logs := []))
    ensures HasModel(c, id) && !StopRaises(c, s, wait) && NameOf(c, id).Some? ==>
              var name := NameOf(c, id).value;
              var logged := Released(s).(logs := StartLines(c, id, name, tsStarting, tsCommand));
              && (spawn.Spawned? ==>
                    r == Step(Returned(Started(id, name, spawn.pid)),
                              logged.(process := Some(Proc(spawn.pid)), model := Some(id), startTime := Some(now))))
              && (spawn == BinaryNotFound ==>
                    r == Step(Returned(StartFailed("llama-server not found at " + c.paths.value["llama_server"])), logged))
              && (spawn.SpawnFails? ==> r == Step(Returned(StartFailed(spawn.message)), logged))
  {
    if !HasModel(c, id) then Step(Returned(StartFailed("Unknown model: " + id)), s)
    else
      var stopped := Before(c, s, wait, tsStopping, tsStopped);
      if stopped.outcome.Raised? then Step(Raised(stopped.outcome.exception), stopped.next)
      else LaunchStep(c, stopped.next, id, tsStarting, tsCommand, spawn, now)
  }

  /**
   * `check_llama_health()`: without a process it reports "not_running"
   * without probing; otherwise the server is healthy exactly when the
   * probe connects (result 0).
   */
  function HealthCheck(process: Option<Proc>, connect: ConnectOutcome): (r: Health)
    ensures process.None? ==> r == Unhealthy("not_running")
    ensures process.Some? ==> (r == Healthy <==> connect == Connected(0))
    ensures process.Some? && connect.Connected? && connect.code != 0 ==> r == Unhealthy("port_not_responding")
    ensures process.Some? && connect.ConnectFails? ==> r == Unhealthy(connect.message)
  {
    if process.None? then Unhealthy("not_running")
    else match connect
      case Connected(code) => if code == 0 then Healthy else Unhealthy("port_not_responding")
      case ConnectFails(message) => Unhealthy(message)
  }

  /** `int(time.time() - start_time) if start_time else 0` on an integer clock. */
  function Uptime(startTime: Option<int>, now: int): int {
    match startTime
    case Some(t) => if t != 0 then now - t else 0
    case None => 0
  }

  /**
   * `get_status()`: counts the request, then reports on the slot without
   * ever changing it, not even when the process has exited.
   */
  function StatusStep(c: Config, s: State, poll: PollOutcome, connect: ConnectOutcome, now: int)
    : (r: Step<StatusReply>)
    requires Inv(c, s)
    ensures r.next == s.(requestCount := s.requestCount + 1)
    ensures Inv(c, r.next)
    ensures s.process.None? ==> r.outcome == Returned(Idle(s.requestCount + 1))
    ensures s.process.Some? && poll.ExitedWith? ==> r.outcome == Returned(Exited(poll.code, s.requestCount + 1))
    ensures r.outcome.Returned? && r.outcome.reply.Running? ==>
              && poll == StillRunning
              && s.process == Some(Proc(r.outcome.reply.pid))
              && s.model == Some(r.outcome.reply.model)
              && r.outcome.reply.health == HealthCheck(s.process, connect)
              && r.outcome.reply.requestCount == s.requestCount + 1
              && Some(r.outcome.reply.name) == NameOf(c, s.model.value)
              && r.outcome.reply.uptime == Uptime(s.startTime, now)
    ensures s.process.Some? && poll == StillRunning ==> (r.outcome.Raised? <==> NameOf(c, s.model.value).None?)
    ensures s.process.Some? && poll == StillRunning && NameOf(c, s.model.value).Some? ==>
              r.outcome == Returned(Running(s.model.value, NameOf(c, s.model.value).value, s.process.value.pid,
                                            Uptime(s.startTime, now), HealthCheck(s.process, connect),
                                            s.requestCount + 1))
    ensures r.outcome.Raised? ==> r.outcome.exception == KeyError("name")
  {
    var counted := s.(requestCount := s.requestCount + 1);
    if s.process.None? then Step(Returned(Idle(counted.requestCount)), counted)
    else match poll
      case ExitedWith(code) => Step(Returned(Exited(code, counted.requestCount)), counted)
      case StillRunning =>
        var uptime := Uptime(s.startTime, now);
        var health := HealthCheck(s.process, connect);
        match NameOf(c, s.model.value)
        case None => Step(Raised(KeyError("name")), counted)
        case Some(name) =>
          Step(Returned(Running(s.model.value, name, s.process.value.pid, uptime, health, counted.requestCount)), counted)
  }

  /**
   * Stopping is idempotent: once a stop has got past the name lookup, the
   * slot is empty and every further stop is a no-op answered with
   * "No model running".
   */
  lemma StopIdempotent(
    c: Config, s: State, first: WaitOutcome, second: WaitOutcome,
    ts1: string, ts2: string, ts3: string, ts4: string)
    requires Inv(c, s)
    requires StopStep(c, s, first, ts1, ts2).outcome != Raised(KeyError("name"))
    ensures var after := StopStep(c, s, first, ts1, ts2).next;
            StopStep(c, after, second, ts3, ts4) == Step(Returned(NoModelRunning), after)
  {
    var after := StopStep(c, s, first, ts1, ts2).next;
    assert after.process.None?;
  }

  /**
   * A process that was just started and then stops gracefully is reported
   * as stopped under the id and name its start returned, and its slot is
   * empty again.
   */
  lemma StartThenStop(
    c: Config, s: State, id: string, wait: WaitOutcome, ts1: string, ts2: string,
    tsStarting: string, tsCommand: string, pid: int, now: int, ts3: string, ts4: string)
    requires Inv(c, s) && HasModel(c, id) && id != ""
    requires StartStep(c, s, id, wait, ts1, ts2, tsStarting, tsCommand, Spawned(pid), now).outcome.Returned?
    ensures var started := StartStep(c, s, id, wait, ts1, ts2, tsStarting, tsCommand, Spawned(pid), now);
            && started.outcome.reply.Started?
            && var stopped := StopStep(c, started.next, Exits, ts3, ts4);
               && stopped.outcome == Returned(Stopped(id, started.outcome.reply.name))
               && stopped.next == Released(stopped.next)
  {
    var started := StartStep(c, s, id, wait, ts1, ts2, tsStarting, tsCommand, Spawned(pid), now);
    assert HasModel(c, id);
    assert started.next.model == Some(id);
  }

  /**
   * The supervisor as the program holds it: the globals as fields, the
   * configuration fixed at start-up and the shared log buffer.
   */
  class Supervisor {
    const config: Config
    const logs: LogBuffer
    var process: Option<Proc>
    var model: Option<string>
    var startTime: Option<int>
    var requestCount: nat

    function Current(): State
      reads this, logs
    {
      State(process, model, startTime, requestCount, logs.entries)
    }

    ghost predicate Valid()
      reads this, logs
    {
      logs.Valid() && Inv(config, Current())
    }

    /** The module-level initial values, under a configuration that passed validation. */
    constructor (c: Config)
      requires Complete(c)
      ensures Valid() && config == c
      ensures Current() == State(None, None, None, 0, [])
    {
      config := c;
      logs := new LogBuffer();
      process := None;
      model := None;
      startTime := None;
      requestCount := 0;
    }

    /** `stop_model()`. */
    method Stop(wait: WaitOutcome, tsStopping: string, tsStopped: string) returns (result: Outcome<StopReply>)
      requires Valid()
      modifies this, logs
      ensures Valid()
      ensures Step(result, Current()) == StopStep(config, old(Current()), wait, tsStopping, tsStopped)
    {
      ghost var s0 := Current();
      if process.None? {
        return Returned(NoModelRunning);
      }
      var id := model.value;
      var name: string;
      if id == "" {
        name := "Unknown";
      } else {
        var fields := ModelOf(config, id).fields;
        if "name" !in fields {
          return Raised(KeyError("name"));
        }
        name := fields["name"];
      }
      assert StoppedName(config, id) == Some(name);
      var stoppingLine := Stamp(tsStopping, "Stopping " + name + "...");
      logs.Append(stoppingLine);
      ghost var stopping := Released(s0.(logs := Window(s0.logs + [stoppingLine])));
      var failure: Option<Outcome<StopReply>> := None;
      match wait {
        case Exits =>
        case TimesOut(Killed) =>
        case TimesOut(KillFails(message)) =>
          failure := Some(Raised(Failure(message)));
        case WaitFails(message) =>
          failure := Some(Returned(StopFailed(message)));
      }
      // the `finally` clause
      process := None;
      model := None;
      startTime := None;
      assert Current() == stopping;
      if failure.Some? {
        assert StopStep(config, s0, wait, tsStopping, tsStopped) == Step(failure.value, stopping);
        return failure.value;
      }
      var stoppedLine := Stamp(tsStopped, "Stopped " + name);
      logs.Append(stoppedLine);
      assert Current() == stopping.(logs := Window(stopping.logs + [stoppedLine]));
      return Returned(Stopped(id, name));
    }

    /** `start_model(model_id)`. */
    method Start(
      id: string, wait: WaitOutcome, tsStopping: string, tsStopped: string,
      tsStarting: string, tsCommand: string, spawn: SpawnOutcome, now: int)
      returns (result: Outcome<StartReply>)
      requires Valid()
      modifies this, logs
      ensures Valid()
      ensures Step(result, Current())
           == StartStep(config, old(Current()), id, wait, tsStopping, tsStopped, tsStarting, tsCommand, spawn, now)
    {
      if !HasModel(config, id) {
        return Returned(StartFailed("Unknown model: " + id));
      }
      if process.Some? {
        var stopped := Stop(wait, tsStopping, tsStopped);
        if stopped.Raised? {
          return Raised(stopped.exception);
        }
      }
      result := Launch(id, tsStarting, tsCommand, spawn, now);
    }

    /** `start_model` from `process_logs.clear()` on, with no process held. */
    method Launch(id: string, tsStarting: string, tsCommand: string, spawn: SpawnOutcome, now: int)
      returns (result: Outcome<StartReply>)
      requires Valid() && HasModel(config, id) && process.None?
      modifies this, logs
      ensures Valid()
      ensures Step(result, Current()) == LaunchStep(config, old(Current()), id, tsStarting, tsCommand, spawn, now)
    {
      ghost var s0 := Current();
      logs.Clear();
      var fields := ModelOf(config, id).fields;
      var command := BuildCommandLine(config, id, tsCommand);
      if "name" !in fields {
        assert Current() == s0.(logs := []);
        return Raised(KeyError("name"));
      }
      var name := fields["name"];
      var starting := Stamp(tsStarting, "Starting " + name + "...");
      ghost var lines := StartLines(config, id, name, tsStarting, tsCommand);
      assert lines == [starting, command];
      WindowTwo(starting, command);
      logs.Append(starting);
      logs.Append(command);
      ghost var logged := s0.(logs := lines);
      assert Current() == logged;
      assert LaunchStep(config, s0, id, tsStarting, tsCommand, spawn, now) == SpawnStep(config, logged, id, name, spawn, now);
      result := Spawn(id, name, spawn, now);
    }

    /** The `try` block of `start_model`. */
    method Spawn(id: string, name: string, spawn: SpawnOutcome, now: int) returns (result: Outcome<StartReply>)
      requires Valid() && HasModel(config, id) && process.None?
      modifies this
      ensures Valid()
      ensures Step(result, Current()) == SpawnStep(config, old(Current()), id, name, spawn, now)
    {
      match spawn {
        case Spawned(pid) =>
          process := Some(Proc(pid));
          model := Some(id);
          startTime := Some(now);
          return Returned(Started(id, name, pid));
        case BinaryNotFound =>
          return Returned(StartFailed("llama-server not found at " + config.paths.value["llama_server"]));
        case SpawnFails(message) =>
          return Returned(StartFailed(message));
      }
    }

    /** `get_status()`. */
    method Status(poll: PollOutcome, connect: ConnectOutcome, now: int) returns (result: Outcome<StatusReply>)
      requires Valid()
      modifies this
      ensures Valid()
      ensures Step(result, Current()) == StatusStep(config, old(Current()), poll, connect, now)
    {
      requestCount := requestCount + 1;
      if process.None? {
        return Returned(Idle(requestCount));
      }
      match poll {
        case ExitedWith(code) =>
          return Returned(Exited(code, requestCount));
        case StillRunning =>
      }
      var uptime := Uptime(startTime, now);
      var health := HealthCheck(process, connect);
      var fields := ModelOf(config, model.value).fields;
      if "name" !in fields {
        return Raised(KeyError("name"));
      }
      return Returned(Running(model.value, fields["name"], process.value.pid, uptime, health, requestCount));
    }

    /** `get_logs(lines)` on the current buffer. */
    function RecentLogs(lines: int): (r: seq<string>)
      reads this, logs
      ensures lines >= 1 ==> |r| == Min(lines, |logs.entries|)
      ensures lines >= 1 ==> r == logs.entries[|logs.entries| - |r|..]
    {
      GetLogs(logs.entries, lines)
    }
  }
}
