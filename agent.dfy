/** The launch agent for runs without a debugger: an object that holds the
    launch configuration, the device serial (which the Android strategy may
    overwrite) and the registry of teardown actions that its launch fills.
    Each method changes the agent's state exactly as the matching function
    of `LaunchPlan` changes a `Run`. */
module Agent {
  import opened LaunchTypes
  import opened LaunchPlan
  import Text

  /** Taking the first of the remaining calls, when it returns, leaves the
      rest of them to do. */
  lemma Advance(r: Run, r': Run, todo: seq<Event>, o: Oracle)
    requires r.outcome.Ok? && |todo| > 0 && todo[0] !in o.failing
    requires r' == Step(r, todo[0], o)
    ensures r'.outcome.Ok?
    ensures Perform(r', todo[1..], o) == Perform(r, todo, o)
  {
  }

  /** When the first of the remaining calls throws, the attempt ends with it. */
  lemma Stop(r: Run, todo: seq<Event>, o: Oracle)
    requires r.outcome.Ok? && |todo| > 0 && todo[0] in o.failing
    ensures Perform(r, todo, o) == Call(r, todo[0], o)
  {
  }

  class NoDebugLaunchAgent {
    /** The launch configuration, apart from the device serial. */
    const config: Config
    /** Whether the host runs macOS. */
    const isMacOS: bool
    /** The host's line separator. */
    const newLine: string
    /** The device serial of the configuration. */
    var serial: string
    /** The registry of teardown actions, in the order they were added. */
    var disposables: seq<Teardown>
    /** The external calls made so far. */
    ghost var trace: seq<Event>

    /** The agent's state as a running attempt. */
    ghost function Current(): Run
      reads this
    {
      Run(serial, trace, disposables, Ok)
    }

    constructor (config: Config, isMacOS: bool, newLine: string, serial: string)
      ensures this.config == config && this.isMacOS == isMacOS && this.newLine == newLine
      ensures Current() == Start(serial)
    {
      this.config := config;
      this.isMacOS := isMacOS;
      this.newLine := newLine;
      this.serial := serial;
      disposables := [];
      trace := [];
    }

    /** Make the external call `e`; it returns normally unless the oracle
        makes it throw. */
    method Invoke(e: Event, o: Oracle) returns (ok: bool)
      modifies this`trace
      ensures trace == old(trace) + [e]
      ensures ok == (e !in o.failing)
    {
      trace := trace + [e];
      ok := e !in o.failing;
    }

    /** Make the call `e`, which acquires nothing, as the next of the calls
        `todo` that lead to the state `goal`: when it throws, the agent is in
        that state; when it returns, the rest of the calls lead there. */
    method Attempt(e: Event, o: Oracle, ghost calls: seq<Event>, ghost i: nat, ghost goal: Run) returns (ok: bool)
      requires i < |calls| && calls[i] == e && !Acquires(e) && Perform(Current(), calls[i..], o) == goal
      modifies this`trace
      ensures trace == old(trace) + [e] && ok == (e !in o.failing)
      ensures !ok ==> Run(serial, trace, disposables, ToolFailed(e)) == goal
      ensures ok ==> Perform(Current(), calls[i + 1..], o) == goal
    {
      ghost var r := Current();
      ghost var todo := calls[i..];
      assert todo[1..] == calls[i + 1..];
      ok := Invoke(e, o);
      if !ok {
        Stop(r, todo, o);
      } else {
        Advance(r, Step(r, e, o), todo, o);
      }
    }

    /** Make the call `e`, which acquires a resource, as the next of the
        calls `todo` that lead to `goal`: when it throws, the agent is in that
        state; when it returns, the rest of the calls lead there once the
        resource's teardown is registered. */
    method Acquire(e: Event, o: Oracle, ghost calls: seq<Event>, ghost i: nat, ghost goal: Run) returns (ok: bool)
      requires i < |calls| && calls[i] == e && Acquires(e) && Perform(Current(), calls[i..], o) == goal
      modifies this`trace
      ensures trace == old(trace) + [e] && ok == (e !in o.failing)
      ensures !ok ==> Run(serial, trace, disposables, ToolFailed(e)) == goal
      ensures ok ==> Perform(Current().(teardowns := disposables + [ReleaseOf(e)]), calls[i + 1..], o) == goal
    {
      ghost var r := Current();
      ghost var todo := calls[i..];
      assert todo[1..] == calls[i + 1..];
      ok := Invoke(e, o);
      if !ok {
        Stop(r, todo, o);
      } else {
        Advance(r, Step(r, e, o), todo, o);
      }
    }

    /** Boot the emulator `name` and read back the serial it reports. */
    method RunEmulator(name: string, o: Oracle) returns (ok: bool, s: string)
      modifies this`trace
      ensures trace == old(trace) + [EmulatorRun(name)]
      ensures ok == (EmulatorRun(name) !in o.failing) && s == o.emulatorSerial
    {
      ok := Invoke(EmulatorRun(name), o);
      s := o.emulatorSerial;
    }

    /** Run the open tool on `path` and wait for it to exit. */
    method RunOpenTool(path: string, o: Oracle) returns (ok: bool, result: ProcessResult)
      modifies this`trace
      ensures trace == old(trace) + [OpenTool(path)]
      ensures ok == (OpenTool(path) !in o.failing) && result == o.openResult
    {
      ok := Invoke(OpenTool(path), o);
      result := o.openResult;
    }

    /** Show `message` to the user as important output of the session. */
    method Notify(message: string)
      modifies this`trace
      ensures trace == old(trace) + [Important(message)]
    {
      trace := trace + [Important(message)];
    }

    /** Launch: run the strategy of each device flag that is set, in the
        order Android, iPhone, Mac Catalyst, Windows; a strategy that fails
        ends the launch. */
    method Launch(o: Oracle) returns (outcome: Outcome)
      modifies this
      ensures Run(serial, trace, disposables, outcome)
              == LaunchRun(config, isMacOS, newLine, o, old(Current()))
    {
      outcome := Ok;
      if config.device.isAndroid {
        outcome := LaunchAndroid(o);
        if !outcome.Ok? { return; }
      }
      if config.device.isIPhone {
        outcome := LaunchAppleMobile(o);
        if !outcome.Ok? { return; }
      }
      if config.device.isMacCatalyst {
        outcome := LaunchMacCatalyst(o);
        if !outcome.Ok? { return; }
      }
      if config.device.isWindows {
        outcome := LaunchWindows(o);
      }
    }

    /** Connect: without a debugger there is nothing to attach. */
    method Connect()
      ensures serial == old(serial) && disposables == old(disposables) && trace == old(trace)
    {
    }

    method LaunchAppleMobile(o: Oracle) returns (outcome: Outcome)
      modifies this
      ensures Run(serial, trace, disposables, outcome)
              == AppleMobileLaunch(config, isMacOS, o, old(Current()))
    {
      ghost var goal := AppleMobileLaunch(config, isMacOS, o, Current());
      if isMacOS {
        if config.device.isEmulator {
          ghost var calls := [DebugSim(serial, config.programPath, config.debugPort)];
          assert calls[0..] == calls;
          var ok := Acquire(DebugSim(serial, config.programPath, config.debugPort), o, calls, 0, goal);
          if !ok {
            return ToolFailed(DebugSim(serial, config.programPath, config.debugPort));
          }
          var appProcess := Process(DebugSim(serial, config.programPath, config.debugPort));
          disposables := disposables + [Terminate(appProcess)];
        } else {
          ghost var calls := [TcpTunnel(serial, config.reloadHostPort), InstallDev(serial, config.programPath),
                             DebugDev(serial, config.programPath, config.debugPort)];
          assert calls[0..] == calls;
          var ok := Acquire(TcpTunnel(serial, config.reloadHostPort), o, calls, 0, goal);
          if !ok {
            return ToolFailed(TcpTunnel(serial, config.reloadHostPort));
          }
          var hotReloadPortForwarding := Process(TcpTunnel(serial, config.reloadHostPort));
          disposables := disposables + [Terminate(hotReloadPortForwarding)];
          ok := Attempt(InstallDev(serial, config.programPath), o, calls, 1, goal);
          if !ok {
            return ToolFailed(InstallDev(serial, config.programPath));
          }
          ok := Acquire(DebugDev(serial, config.programPath, config.debugPort), o, calls, 2, goal);
          if !ok {
            return ToolFailed(DebugDev(serial, config.programPath, config.debugPort));
          }
          var appProcess := Process(DebugDev(serial, config.programPath, config.debugPort));
          disposables := disposables + [Terminate(appProcess)];
        }
      } else {
        ghost var calls := [Proxy(serial, config.reloadHostPort), Installer(serial, config.programPath)];
        ghost var installed := Perform(Current(), calls, o);
        assert calls[0..] == calls;
        var ok := Acquire(Proxy(serial, config.reloadHostPort), o, calls, 0, installed);
        if !ok {
          return ToolFailed(Proxy(serial, config.reloadHostPort));
        }
        var forwardingProcess := Process(Proxy(serial, config.reloadHostPort));
        disposables := disposables + [Terminate(forwardingProcess)];
        ok := Attempt(Installer(serial, config.programPath), o, calls, 1, installed);
        if !ok {
          return ToolFailed(Installer(serial, config.programPath));
        }
        Notify(TapMessage);
      }
      outcome := Ok;
    }

    method LaunchMacCatalyst(o: Oracle) returns (outcome: Outcome)
      modifies this
      ensures Run(serial, trace, disposables, outcome)
              == MacCatalystLaunch(config, newLine, o, old(Current()))
    {
      var ok, result := RunOpenTool(config.programPath, o);
      if !ok {
        return ToolFailed(OpenTool(config.programPath));
      }
      if !result.success {
        return ProtocolError(Text.Join(result.stderr, newLine));
      }
      outcome := Ok;
    }

    method LaunchWindows(o: Oracle) returns (outcome: Outcome)
      modifies this
      ensures Run(serial, trace, disposables, outcome) == WindowsLaunch(config, o, old(Current()))
    {
      ghost var calls := [StartProcess(config.programPath)];
      assert calls[0..] == calls;
      var ok := Acquire(StartProcess(config.programPath), o, calls, 0, WindowsLaunch(config, o, Current()));
      if !ok {
        return ToolFailed(StartProcess(config.programPath));
      }
      var process := Process(StartProcess(config.programPath));
      disposables := disposables + [Terminate(process)];
      outcome := Ok;
    }

    method LaunchAndroid(o: Oracle) returns (outcome: Outcome)
      modifies this
      ensures Run(serial, trace, disposables, outcome) == AndroidLaunch(config, o, old(Current()))
    {
      AndroidPlan(config, o, Current());
      if config.device.isEmulator {
        var ok, s := RunEmulator(config.device.name, o);
        if !ok {
          return ToolFailed(EmulatorRun(config.device.name));
        }
        serial := s;
      }
      outcome := DeployAndroid(o, Perform(Current(), AndroidCalls(config, serial), o));
    }

    /** The Android calls once the serial is settled: forward the hot-reload
        port and register its removal, and uninstall the app when asked to;
        then install and start it. The source does all of this inside one
        method; `DeployAndroid`, `InstallAndStart` and `StartApp` split it
        only to keep each method's proof small. */
    method DeployAndroid(o: Oracle, ghost goal: Run) returns (outcome: Outcome)
      requires goal == Perform(Current(), AndroidCalls(config, serial), o)
      modifies this`trace, this`disposables
      ensures Run(serial, trace, disposables, outcome) == goal
    {
      var applicationId := config.applicationId;
      ghost var calls := AndroidCalls(config, serial);
      assert calls[0..] == calls;
      var ok := Acquire(Forward(serial, config.reloadHostPort), o, calls, 0, goal);
      if !ok {
        return ToolFailed(Forward(serial, config.reloadHostPort));
      }
      disposables := disposables + [RemoveForward(serial)];
      if config.uninstallApp {
        ok := Attempt(Uninstall(serial, applicationId), o, calls, 1, goal);
        if !ok {
          return ToolFailed(Uninstall(serial, applicationId));
        }
        assert calls[2..] == InstallCalls(config, serial);
      } else {
        assert calls[1..] == InstallCalls(config, serial);
      }
      outcome := InstallAndStart(o, goal);
    }

    /** Install the app and push its assemblies; then start it. */
    method InstallAndStart(o: Oracle, ghost goal: Run) returns (outcome: Outcome)
      requires goal == Perform(Current(), InstallCalls(config, serial), o)
      modifies this`trace, this`disposables
      ensures Run(serial, trace, disposables, outcome) == goal
    {
      var applicationId := config.applicationId;
      ghost var calls := InstallCalls(config, serial);
      assert calls[0..] == calls;
      var ok := Attempt(Install(serial, config.programPath), o, calls, 0, goal);
      if !ok {
        return ToolFailed(Install(serial, config.programPath));
      }
      ok := Attempt(PushAssemblies(serial, config.assetsPath, applicationId), o, calls, 1, goal);
      if !ok {
        return ToolFailed(PushAssemblies(serial, config.assetsPath, applicationId));
      }
      assert calls[2..] == StartCalls(config, serial);
      outcome := StartApp(o, goal);
    }

    /** Launch the app and flush the log, then stream the log with a process
        whose termination is registered. */
    method StartApp(o: Oracle, ghost goal: Run) returns (outcome: Outcome)
      requires goal == Perform(Current(), StartCalls(config, serial), o)
      modifies this`trace, this`disposables
      ensures Run(serial, trace, disposables, outcome) == goal
    {
      ghost var calls := StartCalls(config, serial);
      assert calls[0..] == calls;
      var ok := Attempt(LaunchApp(serial, config.applicationId), o, calls, 0, goal);
      if !ok {
        return ToolFailed(LaunchApp(serial, config.applicationId));
      }
      ok := Attempt(Flush(serial), o, calls, 1, goal);
      if !ok {
        return ToolFailed(Flush(serial));
      }
      ok := Acquire(Logcat(serial), o, calls, 2, goal);
      if !ok {
        return ToolFailed(Logcat(serial));
      }
      var logcatProcess := Process(Logcat(serial));
      disposables := disposables + [Terminate(logcatProcess)];
      outcome := Ok;
    }
  }
}
