/** The values a launch attempt works with: the configuration it is given,
    the calls it makes to external tools (recorded as events), the process
    handles those tools return, the teardown actions it registers, and how
    it ends. */
module LaunchTypes {

  /** The device part of the launch configuration. The four kind flags are
      independent booleans, as in the source; nothing forces exactly one of
      them to be set. The serial is not here: the agent keeps it as a
      mutable field, because the Android strategy overwrites it. */
  datatype Device = Device(
    isAndroid: bool,
    isIPhone: bool,
    isMacCatalyst: bool,
    isWindows: bool,
    isEmulator: bool,
    name: string)

  /** The immutable part of the launch configuration. `applicationId` is the
      value the configuration's application-name lookup yields. */
  datatype Config = Config(
    device: Device,
    programPath: string,
    assetsPath: string,
    applicationId: string,
    debugPort: int,
    reloadHostPort: int,
    uninstallApp: bool)

  /** One call the launch makes to an external tool (or to the debug session,
      for `Important`), with the serial, path and port it passes. */
  datatype Event =
    // Android emulator runner and device bridge
    | EmulatorRun(name: string)
    | Forward(serial: string, port: int)
    | Uninstall(serial: string, appId: string)
    | Install(serial: string, path: string)
    | PushAssemblies(serial: string, assetsPath: string, appId: string)
    | LaunchApp(serial: string, appId: string)
    | Flush(serial: string)
    | Logcat(serial: string)
    // Apple mobile launcher (macOS host) and device tool (other hosts)
    | DebugSim(serial: string, path: string, port: int)
    | TcpTunnel(serial: string, port: int)
    | InstallDev(serial: string, path: string)
    | DebugDev(serial: string, path: string, port: int)
    | Proxy(serial: string, port: int)
    | Installer(serial: string, path: string)
    | Important(message: string)
    // Mac Catalyst open tool, run to completion
    | OpenTool(path: string)
    // Windows: the program itself, started and left running
    | StartProcess(path: string)

  /** An abstract process handle: it stands for the process that the call
      `launchedBy` started. */
  datatype Process = Process(launchedBy: Event)

  /** A teardown action held by the agent's registry. */
  datatype Teardown =
    | RemoveForward(serial: string)
    | Terminate(process: Process)

  /** What the Mac Catalyst open tool reports once it has exited. */
  datatype ProcessResult = ProcessResult(success: bool, stderr: seq<string>)

  /** How the external world answers: which calls throw, which serial the
      emulator runner reports, and what the open tool returns. */
  datatype Oracle = Oracle(
    failing: set<Event>,
    emulatorSerial: string,
    openResult: ProcessResult)

  /** How a launch attempt ends: normally, with the exception a tool call
      raised, or with the protocol error built from the open tool's stderr. */
  datatype Outcome =
    | Ok
    | ToolFailed(call: Event)
    | ProtocolError(message: string)

  /** The observable state of an attempt: the device serial, the calls made
      so far, the registered teardowns, and whether it is still running. */
  datatype Run = Run(
    serial: string,
    events: seq<Event>,
    teardowns: seq<Teardown>,
    outcome: Outcome)

  /** A fresh attempt: nothing called, nothing registered. */
  function Start(serial: string): Run {
    Run(serial, [], [], Ok)
  }

  datatype Platform = Android | IPhone | MacCatalyst | Windows

  /** The strategy that makes a call. */
  function PlatformOf(e: Event): Platform {
    match e
    case EmulatorRun(_) => Android
    case Forward(_, _) => Android
    case Uninstall(_, _) => Android
    case Install(_, _) => Android
    case PushAssemblies(_, _, _) => Android
    case LaunchApp(_, _) => Android
    case Flush(_) => Android
    case Logcat(_) => Android
    case DebugSim(_, _, _) => IPhone
    case TcpTunnel(_, _) => IPhone
    case InstallDev(_, _) => IPhone
    case DebugDev(_, _, _) => IPhone
    case Proxy(_, _) => IPhone
    case Installer(_, _) => IPhone
    case Important(_) => IPhone
    case OpenTool(_) => MacCatalyst
    case StartProcess(_) => Windows
  }

  /** The position of a strategy in the order `Launch` tries them. */
  function Rank(p: Platform): nat {
    match p
    case Android => 0
    case IPhone => 1
    case MacCatalyst => 2
    case Windows => 3
  }

  /** The device flag that selects a strategy. */
  predicate Selected(d: Device, p: Platform) {
    match p
    case Android => d.isAndroid
    case IPhone => d.isIPhone
    case MacCatalyst => d.isMacCatalyst
    case Windows => d.isWindows
  }

  /** The calls that are addressed to a device by its serial. */
  predicate HasSerial(e: Event) {
    !(e.EmulatorRun? || e.Important? || e.OpenTool? || e.StartProcess?)
  }

  /** The calls that leave an OS resource behind when they succeed: a port
      forward, or a process that keeps running. The emulator is deliberately
      left running, so booting it is not one of them. */
  predicate Acquires(e: Event) {
    e.Forward? || e.Logcat? || e.DebugSim? || e.TcpTunnel? || e.DebugDev?
    || e.Proxy? || e.StartProcess?
  }

  /** The teardown that gives back what a successful acquiring call took. */
  function ReleaseOf(e: Event): Teardown
    requires Acquires(e)
  {
    if e.Forward? then RemoveForward(e.serial) else Terminate(Process(e))
  }
}
