# NoDebugLaunchAgent, modelled in Dafny

Without a debugger, the agent launches an application on a target device. `Launch` checks four
device-kind flags in a fixed order: Android, iPhone, Mac Catalyst, Windows. For each flag that
is set, it runs that platform's strategy. Each strategy is a straight-line series of calls to
external tools: the Android debug bridge, the emulator runner, the Apple mono launcher, the
iDevice tools, the open tool and a process runner. A call that throws aborts the rest of the
launch.

Each acquired resource can be one of two things: a forwarded port, or a process left running. After
acquiring one, the strategy adds a teardown action to the agent's `Disposables` registry. The
Android strategy can also overwrite the device serial in place. It does so with the serial of an
emulator it has just booted.

The model has two layers.

* **`Agent.NoDebugLaunchAgent`** (`agent.dfy`) is a class that mirrors the source's methods.
  * Its mutable fields are the device `serial` and the registry `disposables`.
  * The external calls it has made are kept in a ghost `trace`.
  * Each external tool is an uninterpreted operation. It appends an `Event` to the trace, with the serial, path and port it was given. The `Oracle` input decides whether that call throws.
  * Each strategy method ensures that the new serial, trace, registry and outcome are exactly what the matching specification function computes from the old state.
* **Specification functions** (`plan.dfy`, module `LaunchPlan`) work on a `Run` value.
  * A `Run` holds the serial, the events so far, the registered teardowns and the outcome.
  * `Perform` makes a list of calls and registers each teardown right after its acquiring call returns. It stops at the first call that throws.
  * `PerformResult` states its closed form:
    * the calls made are the prefix up to and including the first that throws;
    * the teardowns are those of the acquiring calls that returned;
    * the outcome is the call that threw.

The remaining files prove what the source promises about these functions:

* `strategies.dfy`: each strategy taken alone.
* `registry.dfy`: the teardown registry, whatever step the launch stops at.
* `dispatch.dfy`: the dispatch order of `Launch`.
* `text.dfy`: the line join behind the Mac Catalyst error message, with its inverse, a split on a one-character separator.

Source paths below are relative to the repository root. The core file is
`src/DotNet.Meteor.Debug/Agents/NoDebugLaunchAgent.cs`.

## Model

| member | source | states |
|---|---|---|
| Agent.NoDebugLaunchAgent.constructor | src/DotNet.Meteor.Debug/Agents/NoDebugLaunchAgent.cs:11 | A new agent keeps its configuration, host flag and line separator. It starts with the given serial, an empty registry and no calls made. |
| Agent.NoDebugLaunchAgent.Launch | src/DotNet.Meteor.Debug/Agents/NoDebugLaunchAgent.cs:12-21 | After `Launch`, the agent's serial, calls, registry and outcome are exactly `LaunchRun` of its state before. Each strategy runs when its flag is set, in the order Android, iPhone, Mac Catalyst, Windows, and a failing strategy ends the launch. |
| Agent.NoDebugLaunchAgent.Connect | src/DotNet.Meteor.Debug/Agents/NoDebugLaunchAgent.cs:22 | `Connect` leaves the serial, the registry and the trace unchanged. |
| Agent.NoDebugLaunchAgent.LaunchAppleMobile | src/DotNet.Meteor.Debug/Agents/NoDebugLaunchAgent.cs:24-42 | The new state is exactly `AppleMobileLaunch` of the old state. Each teardown is added right after its acquiring call returns. |
| Agent.NoDebugLaunchAgent.LaunchMacCatalyst | src/DotNet.Meteor.Debug/Agents/NoDebugLaunchAgent.cs:43-50 | The new state is exactly `MacCatalystLaunch` of the old state. The open tool's failure report becomes a protocol error carrying the joined stderr lines. |
| Agent.NoDebugLaunchAgent.LaunchWindows | src/DotNet.Meteor.Debug/Agents/NoDebugLaunchAgent.cs:51-55 | The new state is exactly `WindowsLaunch` of the old state: one process start, then its termination registered. |
| Agent.NoDebugLaunchAgent.LaunchAndroid | src/DotNet.Meteor.Debug/Agents/NoDebugLaunchAgent.cs:56-59 | The new state is exactly `AndroidLaunch` of the old state. For an emulator, the serial is overwritten with the booted emulator's serial before any bridge call. |
| Agent.NoDebugLaunchAgent.DeployAndroid | src/DotNet.Meteor.Debug/Agents/NoDebugLaunchAgent.cs:61-65 | Once the serial is settled, the state reached is exactly `Perform` of the Android calls. The forward's removal is registered right after the forward returns, and the uninstall is made only when the flag asks for it. |
| Agent.NoDebugLaunchAgent.InstallAndStart | src/DotNet.Meteor.Debug/Agents/NoDebugLaunchAgent.cs:67-69 | The install and the assembly push, then the start calls, reach exactly `Perform` of those calls. |
| Agent.NoDebugLaunchAgent.StartApp | src/DotNet.Meteor.Debug/Agents/NoDebugLaunchAgent.cs:71-75 | The launch, the flush and the log stream reach exactly `Perform` of those calls. The log stream's termination is registered last. |
| Agent.NoDebugLaunchAgent.Invoke | src/DotNet.Meteor.Debug/Agents/NoDebugLaunchAgent.cs:61 | An external tool call: the call, with the serial, path and port it is given, is appended to the trace as exactly one event. It returns normally exactly when the oracle does not make that call throw. Every tool call of the strategies (lines 27, 30, 32, 33, 37, 39, 53, 61, 65, 67, 69, 71, 72, 74) goes through it. |
| Agent.NoDebugLaunchAgent.Acquire | src/DotNet.Meteor.Debug/Agents/NoDebugLaunchAgent.cs:61-62 | An acquiring call is recorded, and it returns exactly when the oracle lets it. When it throws, the agent is in the planned end state. When it returns, the rest of the plan reaches that state once the call's teardown is registered. |
| Agent.NoDebugLaunchAgent.Attempt | src/DotNet.Meteor.Debug/Agents/NoDebugLaunchAgent.cs:67 | The same for a call that acquires nothing: when it returns, the rest of the plan reaches the end state unchanged. |
| Agent.NoDebugLaunchAgent.RunEmulator | src/DotNet.Meteor.Debug/Agents/NoDebugLaunchAgent.cs:59 | Booting the emulator is recorded with the device name. It returns the serial the emulator reports. |
| Agent.NoDebugLaunchAgent.RunOpenTool | src/DotNet.Meteor.Debug/Agents/NoDebugLaunchAgent.cs:44-46 | The open tool is run on the program path and waited for. It returns the oracle's process result. |
| Agent.NoDebugLaunchAgent.Notify | src/DotNet.Meteor.Debug/Agents/NoDebugLaunchAgent.cs:40 | The important message is recorded as exactly one event. |
| LaunchPlan.PerformResult | src/DotNet.Meteor.Debug/Agents/NoDebugLaunchAgent.cs:61-75 | A series of calls with early abort makes exactly the calls up to and including the first that throws. It registers exactly the teardowns of the acquiring calls that returned, in call order. It fails with the call that threw, or succeeds. The serial is unchanged. |
| LaunchPlan.AndroidLaunch | src/DotNet.Meteor.Debug/Agents/NoDebugLaunchAgent.cs:56-76 | The Android strategy only appends calls and registrations. A physical device keeps its serial and makes a prefix of the Android calls. For an emulator, the boot comes first; a failing boot ends the strategy with nothing registered; a successful boot sets the serial the emulator reports, then makes a prefix of the Android calls with that serial. |
| LaunchPlan.AppleMobileLaunch | src/DotNet.Meteor.Debug/Agents/NoDebugLaunchAgent.cs:24-42 | The Apple mobile strategy keeps the serial and only appends to the calls and the registry. |
| LaunchPlan.MacCatalystLaunch | src/DotNet.Meteor.Debug/Agents/NoDebugLaunchAgent.cs:43-50 | Mac Catalyst makes exactly one open-tool call and registers nothing. It fails with that call when the call throws. It returns normally when the tool reports success, and otherwise fails with a protocol error: the stderr lines joined by the host's line separator. |
| LaunchPlan.WindowsLaunch | src/DotNet.Meteor.Debug/Agents/NoDebugLaunchAgent.cs:51-55 | Windows makes exactly one process start for the program path and no other call. When it returns, exactly one teardown is registered: the termination of that process. When it throws, nothing is registered. |
| Text.Join | src/DotNet.Meteor.Debug/Agents/NoDebugLaunchAgent.cs:49 | No lines give the empty message. The message starts with the first line, and its length is the lines' total length plus one separator between each two lines. |
| Text.Split | src/DotNet.Meteor.Debug/Agents/NoDebugLaunchAgent.cs:49 | The inverse of the join: the pieces between separators, at least one, none containing the separator. |
| Text.SplitJoin | src/DotNet.Meteor.Debug/Agents/NoDebugLaunchAgent.cs:49 | Splitting the joined message gives back the stderr lines when none of them contains the separator character. |
| Text.JoinSplit | src/DotNet.Meteor.Debug/Agents/NoDebugLaunchAgent.cs:49 | Joining the pieces of a split gives back the string. |
| Strategies.AndroidCallsRun | src/DotNet.Meteor.Debug/Agents/NoDebugLaunchAgent.cs:61-75 | Every Android call made addresses the settled serial, and none is an uninstall when the flag is clear. A completed run has made all the calls, and registered the forward's removal and then the log stream's termination. A failed run fails with one of the Android calls and leaves only the forward's removal registered, or nothing when the forward threw. |
| Strategies.AndroidCallsAddressed | src/DotNet.Meteor.Debug/Agents/NoDebugLaunchAgent.cs:61-74 | Each planned Android call belongs to Android and is keyed by the settled serial. No call is an uninstall when the flag is clear. |
| Strategies.AndroidCallsShape | src/DotNet.Meteor.Debug/Agents/NoDebugLaunchAgent.cs:61-75 | There are seven Android calls with the uninstall flag set and six without. The forward comes first and the log stream last. Every call between them neither forwards nor acquires. |
| Strategies.AndroidCallsComplete | src/DotNet.Meteor.Debug/Agents/NoDebugLaunchAgent.cs:61-75 | A completed run makes every Android call. It registers exactly two teardowns: the forward's removal first, the log stream's termination last. |
| Strategies.AndroidReleasesBefore | src/DotNet.Meteor.Debug/Agents/NoDebugLaunchAgent.cs:61-72 | The calls before any call other than the log stream leave exactly the forward's removal registered. Before the forward, they leave nothing. |
| Strategies.AndroidCallsFailure | src/DotNet.Meteor.Debug/Agents/NoDebugLaunchAgent.cs:61-75 | A failed run fails with a tool call from the plan. It leaves nothing registered when the forward threw, and only the forward's removal otherwise. |
| Strategies.AndroidSerial | src/DotNet.Meteor.Debug/Agents/NoDebugLaunchAgent.cs:58-74 | After a successful emulator boot, the serial is the one the emulator reported. For a physical device, the serial is unchanged. Every Android call except the boot is keyed by that final serial. |
| Strategies.AndroidCompleteRun | src/DotNet.Meteor.Debug/Agents/NoDebugLaunchAgent.cs:58-75 | A completed Android run makes exactly these calls, in order: the boot (for an emulator), the forward, the uninstall exactly when asked for, the install, the push, the launch, the flush, the log stream. It registers the forward's removal, then the log stream's termination. |
| Strategies.AndroidFailure | src/DotNet.Meteor.Debug/Agents/NoDebugLaunchAgent.cs:58-75 | A failed Android run fails with the call that threw: a call the oracle makes throw, and the last call made. It leaves nothing registered when that call was the boot or the forward, and exactly the forward's removal otherwise. |
| Strategies.AndroidUninstall | src/DotNet.Meteor.Debug/Agents/NoDebugLaunchAgent.cs:61-65 | With the flag clear, no uninstall is made. With the flag set and a completed run, the uninstall for the application id comes right after the forward. |
| Strategies.PerformMakesGivenCalls | src/DotNet.Meteor.Debug/Agents/NoDebugLaunchAgent.cs:24-75 | Every call made is one of the planned calls, and the result is never a protocol error. |
| Strategies.AppleMobilePlatform | src/DotNet.Meteor.Debug/Agents/NoDebugLaunchAgent.cs:24-42 | Every call of the Apple mobile strategy belongs to it, and the strategy never ends with a protocol error. |
| Strategies.AppleSimulator | src/DotNet.Meteor.Debug/Agents/NoDebugLaunchAgent.cs:26-28 | A simulator on macOS gets exactly one debug launch. Its termination is the only registration, made when the launch returns. |
| Strategies.AppleDevice | src/DotNet.Meteor.Debug/Agents/NoDebugLaunchAgent.cs:29-35 | A device on macOS gets the tunnel, the install and the debug launch, in that order. A completed run registers the tunnel's termination, then the app's. A failing install leaves only the tunnel's. A failing debug launch, after the tunnel and the install returned, has made all three calls and leaves only the tunnel's. A failing tunnel leaves nothing. |
| Strategies.AppleOtherHost | src/DotNet.Meteor.Debug/Agents/NoDebugLaunchAgent.cs:36-41 | On another host: no debug launch and no tunnel. The run completes exactly when the proxy and the installer both return. It then makes the proxy, the installer and one important message, and registers only the proxy's termination. A failed run emits no message. A failing installer still leaves the proxy's termination registered. |
| Strategies.MacCatalystErrorLines | src/DotNet.Meteor.Debug/Agents/NoDebugLaunchAgent.cs:48-49 | The error of a failing open tool is a protocol error. Splitting its message on the separator gives back the stderr lines. |
| Strategies.MacCatalystTwoLines | src/DotNet.Meteor.Debug/Agents/NoDebugLaunchAgent.cs:49 | The stderr lines `A` and `B` give the message `A`, the separator, `B`. |
| Registry.PerformAccounted | src/DotNet.Meteor.Debug/Agents/NoDebugLaunchAgent.cs:61-75 | A series of calls with early abort keeps the registry exact. Exact means it holds one teardown per acquiring call that returned, in call order, and a call that threw is the last call made. |
| Registry.CallAccounted | src/DotNet.Meteor.Debug/Agents/NoDebugLaunchAgent.cs:59 | A call that acquires nothing keeps the registry exact. |
| Registry.AndroidAccounted | src/DotNet.Meteor.Debug/Agents/NoDebugLaunchAgent.cs:56-76 | The Android strategy keeps the registry exact. |
| Registry.AppleMobileAccounted | src/DotNet.Meteor.Debug/Agents/NoDebugLaunchAgent.cs:24-42 | The Apple mobile strategy keeps the registry exact. |
| Registry.MacCatalystAccounted | src/DotNet.Meteor.Debug/Agents/NoDebugLaunchAgent.cs:43-50 | The Mac Catalyst strategy keeps the registry exact. |
| Registry.LaunchRunAccounted | src/DotNet.Meteor.Debug/Agents/NoDebugLaunchAgent.cs:12-21 | `Launch` keeps the registry exact, from any running state that is exact. |
| Registry.LaunchAccounted | src/DotNet.Meteor.Debug/Agents/NoDebugLaunchAgent.cs:12-21 | From a fresh agent, whatever step the launch stops at, the registry holds exactly the teardowns of the acquiring calls that returned, in call order, and none for the call that threw. |
| Dispatch.AndroidStep | src/DotNet.Meteor.Debug/Agents/NoDebugLaunchAgent.cs:13-14 | The Android step adds only Android calls, adds some when its flag is set, and changes nothing when it is clear. It never ends with a protocol error. |
| Dispatch.AppleMobileStep | src/DotNet.Meteor.Debug/Agents/NoDebugLaunchAgent.cs:15-16 | The same for the iPhone step. |
| Dispatch.MacCatalystStep | src/DotNet.Meteor.Debug/Agents/NoDebugLaunchAgent.cs:17-18 | The same for the Mac Catalyst step, without the protocol-error clause. |
| Dispatch.WindowsStep | src/DotNet.Meteor.Debug/Agents/NoDebugLaunchAgent.cs:19-20 | The same for the Windows step. |
| Dispatch.LaunchSteps | src/DotNet.Meteor.Debug/Agents/NoDebugLaunchAgent.cs:12-21 | `Launch` is four strategy steps, each taken only after the previous one returned. The first failing step ends it. Only the Mac Catalyst step can end it with a protocol error. |
| Dispatch.StepKeepsOrder | src/DotNet.Meteor.Debug/Agents/NoDebugLaunchAgent.cs:12-21 | One more step keeps the calls in strategy order and from selected strategies only. It keeps every strategy that has run, and adds its own when selected. |
| Dispatch.StepsOrder | src/DotNet.Meteor.Debug/Agents/NoDebugLaunchAgent.cs:12-21 | Four steps make their calls strategy by strategy, only for selected strategies. When all four return, every selected strategy has run. |
| Dispatch.LaunchOrder | src/DotNet.Meteor.Debug/Agents/NoDebugLaunchAgent.cs:12-21 | `Launch` only appends calls. They come only from strategies whose flag is set, strategy by strategy in the order Android, iPhone, Mac Catalyst, Windows. When `Launch` returns normally, every selected strategy has run. |
| Dispatch.LaunchSingleStrategy | src/DotNet.Meteor.Debug/Agents/NoDebugLaunchAgent.cs:12-21 | With exactly one flag set, `Launch` is exactly that flag's strategy. |
| Dispatch.LaunchStopsAtMacCatalystError | src/DotNet.Meteor.Debug/Agents/NoDebugLaunchAgent.cs:17-20 | A protocol error from `Launch` comes only from Mac Catalyst. It carries the joined stderr lines. The open tool is the last call made, and no Windows process is started. |

## Left out

- The external tools' real behaviour is not modelled: the Android debug bridge, the emulator runner, fast deployment, the mono launcher, the iDevice tools, the SDK locator and the process runner. Each tool call is an event in the trace. The `Oracle` input decides whether it throws, which serial the emulator reports, and what the open tool's process result is.
- Locating the open tool, quoting the program path and building `FileInfo` are folded into the single `OpenTool` and `StartProcess` calls. A failure in any of them counts as that call throwing.
- Process handles are abstract. `Process(e)` names the call `e` that started the process.
- Draining the registry and terminating a handle belong to the base agent and the process runner, which are not part of this model. The model states which teardowns are registered, in what order. It says nothing about how they are run.
- The forward's removal reads the device serial when it runs, not when it is registered. The model records the serial at registration. Within one `Launch` on a fresh agent the two agree, because nothing in that launch writes the serial after line 59. Writes by other code are not part of this model.
- Agent.NoDebugLaunchAgent.Launch: a second `Launch` on the same agent with an emulator rewrites the serial, and an earlier forward's removal reads that new serial. The model keeps the first serial in that removal.
- The debug session, the process logger and the soft-debugger session are not modelled, apart from the important message. That message is recorded as an event, and it never throws.
- `GetApplicationName()`, `RuntimeSystem.IsMacOS` and `Environment.NewLine` are inputs to the model: `Config.applicationId`, `isMacOS` and `newLine`.
- The push of assemblies is modelled with the device serial. The source passes the whole device.
- The push and the uninstall are meant to be best-effort, but the code catches neither. The model follows the code: like every other call, they throw when the oracle says so, and a throw aborts the launch.
- The four device-kind flags are independent booleans, as in the code. A correct configuration sets exactly one of them. `Dispatch.LaunchSingleStrategy` covers that case, and `Dispatch.LaunchOrder` covers any combination.
- On a physical Apple device, the code registers the tunnel's teardown before the app's, and the model proves that order. Registering the app's teardown before the tunnel's is not modelled.
- The emulator is booted whenever the device is an emulator, as in the code. Booting only an emulator that is not already running is not modelled.
- Concurrency is not modelled: the tunnel, proxy, log stream and app processes keep running after the launch returns.
- Text.SplitJoin: the round trip is proved for a one-character line separator only, such as `"\n"`. With a two-character separator such as `"\r\n"`, it is stated only through `Text.Join`'s length contract.
- Strategies.MacCatalystErrorLines: this is stated for a one-character line separator, for the same reason.
