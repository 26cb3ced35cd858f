/** What one launch attempt does, as functions from the attempt's state
    before a step to its state after it. Each external call is recorded as an
    event; a call that throws ends the attempt (no later step runs) and stays
    recorded as the last event. */
module LaunchPlan {
  import opened LaunchTypes
  import Text

  /** The message shown once the app is installed on an iPhone from a host
      that cannot start it. */
  const TapMessage := "Application installed on device. Please tap on the app icon to run it."

  /** Make the call `e`; the oracle decides whether it throws. */
  function Call(r: Run, e: Event, o: Oracle): Run
    requires r.outcome.Ok?
  {
    r.(events := r.events + [e], outcome := if e in o.failing then ToolFailed(e) else Ok)
  }

  /** Make the call `e` and, when it returns and has acquired a resource,
      register the teardown that gives the resource back. */
  function Step(r: Run, e: Event, o: Oracle): Run
    requires r.outcome.Ok?
  {
    var r1 := Call(r, e, o);
    if r1.outcome.Ok? && Acquires(e) then r1.(teardowns := r1.teardowns + [ReleaseOf(e)]) else r1
  }

  /** The teardowns that the calls, all returned, leave registered: one per
      acquiring call, in the order of the calls. */
  function Releases(calls: seq<Event>): (ts: seq<Teardown>)
    ensures |ts| <= |calls|
  {
    if |calls| == 0 then []
    else (if Acquires(calls[0]) then [ReleaseOf(calls[0])] else []) + Releases(calls[1..])
  }

  /** The index of the first call the oracle makes throw, or the number of
      calls when none does. */
  function FirstFailing(calls: seq<Event>, o: Oracle): (k: nat)
    ensures k <= |calls|
    ensures forall i | 0 <= i < k :: calls[i] !in o.failing
    ensures k < |calls| ==> calls[k] in o.failing
  {
    if |calls| == 0 then 0
    else if calls[0] in o.failing then 0
    else 1 + FirstFailing(calls[1..], o)
  }

  /** How many of the calls are made: all of them, or those up to and
      including the first that throws. */
  function Attempted(calls: seq<Event>, o: Oracle): nat {
    var k := FirstFailing(calls, o);
    if k < |calls| then k + 1 else k
  }

  /** Make the calls one after another, registering each teardown right after
      its acquiring call returns, and stop at the first call that throws. */
  function Perform(r: Run, calls: seq<Event>, o: Oracle): Run
    requires r.outcome.Ok?
    decreases |calls|
  {
    if |calls| == 0 then r
    else
      var r1 := Step(r, calls[0], o);
      if !r1.outcome.Ok? then r1 else Perform(r1, calls[1..], o)
  }

  /** What `Perform` leaves behind: the calls made are a prefix, up to and
      including the first that throws; only the calls that returned have
      their teardowns registered; and the attempt fails with the call that
      threw. */
  lemma {:induction false} PerformResult(r: Run, calls: seq<Event>, o: Oracle)
    requires r.outcome.Ok?
    ensures var r' := Perform(r, calls, o);
      var k := FirstFailing(calls, o);
      && r'.serial == r.serial
      && r'.events == r.events + calls[..Attempted(calls, o)]
      && r'.teardowns == r.teardowns + Releases(calls[..k])
      && r'.outcome == (if k < |calls| then ToolFailed(calls[k]) else Ok)
    decreases |calls|
  {
    if |calls| > 0 {
      var r1 := Step(r, calls[0], o);
      if r1.outcome.Ok? {
        var rest := calls[1..];
        var head := if Acquires(calls[0]) then [ReleaseOf(calls[0])] else [];
        PerformResult(r1, rest, o);
        var k, n := FirstFailing(rest, o), Attempted(rest, o);
        assert FirstFailing(calls, o) == k + 1 && Attempted(calls, o) == n + 1;
        PrefixCons(calls, n);
        PrefixCons(calls, k);
        ReleasesCons(calls[0], rest[..k]);
        assert r1.events == r.events + [calls[0]] && r1.teardowns == r.teardowns + head;
        ConcatAssoc(r.events, [calls[0]], rest[..n]);
        ConcatAssoc(r.teardowns, head, Releases(rest[..k]));
      } else {
        assert calls[..1] == [calls[0]];
      }
    }
  }

  lemma ConcatAssoc<T>(a: seq<T>, b: seq<T>, c: seq<T>)
    ensures a + b + c == a + (b + c)
  {
  }

  lemma PrefixOfAppend<T>(a: seq<T>, b: seq<T>)
    ensures (a + b)[..|a|] == a
  {
  }

  /** A prefix of a non-empty sequence is its head followed by a prefix of
      its tail. */
  lemma PrefixCons(s: seq<Event>, n: nat)
    requires n < |s|
    ensures s[..n + 1] == [s[0]] + s[1..][..n]
  {
  }

  /** The teardowns of calls made one after the other: the first call's,
      then the rest's. */
  lemma ReleasesCons(e: Event, rest: seq<Event>)
    ensures Releases([e] + rest) == (if Acquires(e) then [ReleaseOf(e)] else []) + Releases(rest)
  {
    assert ([e] + rest)[1..] == rest;
  }


  // ---------------------------------------------------------------------
  // Android

  /** The Android calls from the install on: install, push the assemblies,
      then the start calls. */
  function InstallCalls(c: Config, s: string): seq<Event> {
    [Install(s, c.programPath), PushAssemblies(s, c.assetsPath, c.applicationId)] + StartCalls(c, s)
  }

  /** The last Android calls: launch, flush, stream the log. */
  function StartCalls(c: Config, s: string): seq<Event> {
    [LaunchApp(s, c.applicationId), Flush(s), Logcat(s)]
  }

  /** The calls of the Android strategy once the serial `s` is settled:
      forward the hot-reload port, uninstall when asked to, install, push the
      assemblies, launch, flush, stream the log. */
  function AndroidCalls(c: Config, s: string): seq<Event> {
    var forward := Forward(s, c.reloadHostPort);
    if c.uninstallApp then [forward, Uninstall(s, c.applicationId)] + InstallCalls(c, s)
    else [forward] + InstallCalls(c, s)
  }

  /** The Android strategy: for an emulator, boot it and take the serial it
      reports; then make the Android calls with that serial. */
  function AndroidLaunch(c: Config, o: Oracle, r: Run): (r': Run)
    requires r.outcome.Ok?
    ensures r.events < r'.events && r.teardowns <= r'.teardowns
    ensures !c.device.isEmulator ==>
      r'.serial == r.serial &&
      r'.events == r.events + AndroidCalls(c, r.serial)[..Attempted(AndroidCalls(c, r.serial), o)]
    ensures c.device.isEmulator ==>
      r'.events[|r.events|] == EmulatorRun(c.device.name) &&
      if EmulatorRun(c.device.name) in o.failing then
        r' == r.(events := r.events + [EmulatorRun(c.device.name)],
                 outcome := ToolFailed(EmulatorRun(c.device.name)))
      else
        r'.serial == o.emulatorSerial &&
        r'.events == r.events + [EmulatorRun(c.device.name)]
                     + AndroidCalls(c, o.emulatorSerial)[..Attempted(AndroidCalls(c, o.emulatorSerial), o)]
  {
    var r1 := if c.device.isEmulator then Call(r, EmulatorRun(c.device.name), o) else r;
    if !r1.outcome.Ok? then r1
    else
      var s := if c.device.isEmulator then o.emulatorSerial else r.serial;
      PerformResult(r1.(serial := s), AndroidCalls(c, s), o);
      Perform(r1.(serial := s), AndroidCalls(c, s), o)
  }

  /** The Android strategy once the emulator, if any, is booted: the
      Android calls with the serial then in force. */
  lemma AndroidPlan(c: Config, o: Oracle, r: Run)
    requires r.outcome.Ok?
    ensures var boot := EmulatorRun(c.device.name);
      && (!c.device.isEmulator ==>
            AndroidLaunch(c, o, r) == Perform(r, AndroidCalls(c, r.serial), o))
      && (c.device.isEmulator && boot in o.failing ==>
            AndroidLaunch(c, o, r) == Call(r, boot, o))
      && (c.device.isEmulator && boot !in o.failing ==>
            AndroidLaunch(c, o, r)
            == Perform(Call(r, boot, o).(serial := o.emulatorSerial), AndroidCalls(c, o.emulatorSerial), o))
  {
  }

  // ---------------------------------------------------------------------
  // iPhone

  /** The Apple mobile strategy. On a macOS host: a simulator gets one debug
      launch; a physical device gets a tunnel for the hot-reload port, an
      install and a debug launch. On any other host: a proxy for the
      hot-reload port, an install, and a message asking the user to start
      the app by hand. */
  function AppleMobileLaunch(c: Config, isMacOS: bool, o: Oracle, r: Run): (r': Run)
    requires r.outcome.Ok?
    ensures r.events < r'.events && r.teardowns <= r'.teardowns
    ensures r'.serial == r.serial
  {
    var s := r.serial;
    if isMacOS then
      if c.device.isEmulator then
        PerformResult(r, [DebugSim(s, c.programPath, c.debugPort)], o);
        Perform(r, [DebugSim(s, c.programPath, c.debugPort)], o)
      else
        PerformResult(r, [TcpTunnel(s, c.reloadHostPort), InstallDev(s, c.programPath),
                          DebugDev(s, c.programPath, c.debugPort)], o);
        Perform(r, [TcpTunnel(s, c.reloadHostPort), InstallDev(s, c.programPath),
                    DebugDev(s, c.programPath, c.debugPort)], o)
    else
      PerformResult(r, [Proxy(s, c.reloadHostPort), Installer(s, c.programPath)], o);
      var r1 := Perform(r, [Proxy(s, c.reloadHostPort), Installer(s, c.programPath)], o);
      if r1.outcome.Ok? then r1.(events := r1.events + [Important(TapMessage)]) else r1
  }

  // ---------------------------------------------------------------------
  // Mac Catalyst

  /** The Mac Catalyst strategy: run the open tool on the program and wait for
      it; when it reports failure, fail with its stderr lines joined by the
      host's line separator. Nothing is registered. */
  function MacCatalystLaunch(c: Config, newLine: string, o: Oracle, r: Run): (r': Run)
    requires r.outcome.Ok?
    ensures r'.serial == r.serial && r'.teardowns == r.teardowns
    ensures r'.events == r.events + [OpenTool(c.programPath)]
    ensures r'.outcome ==
      if OpenTool(c.programPath) in o.failing then ToolFailed(OpenTool(c.programPath))
      else if o.openResult.success then Ok
      else ProtocolError(Text.Join(o.openResult.stderr, newLine))
  {
    var r1 := Call(r, OpenTool(c.programPath), o);
    if r1.outcome.Ok? && !o.openResult.success
    then r1.(outcome := ProtocolError(Text.Join(o.openResult.stderr, newLine)))
    else r1
  }

  // ---------------------------------------------------------------------
  // Windows

  /** The Windows strategy: start the program and register its termination. */
  function WindowsLaunch(c: Config, o: Oracle, r: Run): (r': Run)
    requires r.outcome.Ok?
    ensures r'.serial == r.serial
    ensures r'.events == r.events + [StartProcess(c.programPath)]
    ensures StartProcess(c.programPath) in o.failing ==>
      r'.teardowns == r.teardowns && r'.outcome == ToolFailed(StartProcess(c.programPath))
    ensures StartProcess(c.programPath) !in o.failing ==>
      r'.teardowns == r.teardowns + [Terminate(Process(StartProcess(c.programPath)))] &&
      r'.outcome.Ok?
  {
    PerformResult(r, [StartProcess(c.programPath)], o);
    Perform(r, [StartProcess(c.programPath)], o)
  }

  // ---------------------------------------------------------------------
  // Dispatch

  /** `Launch`: try the strategies in the order Android, iPhone, Mac
      Catalyst, Windows, each one whose device flag is set, until one
      fails. */
  function LaunchRun(c: Config, isMacOS: bool, newLine: string, o: Oracle, r: Run): Run
    requires r.outcome.Ok?
  {
    var d := c.device;
    var r1 := if d.isAndroid then AndroidLaunch(c, o, r) else r;
    if !r1.outcome.Ok? then r1
    else
      var r2 := if d.isIPhone then AppleMobileLaunch(c, isMacOS, o, r1) else r1;
      if !r2.outcome.Ok? then r2
      else
        var r3 := if d.isMacCatalyst then MacCatalystLaunch(c, newLine, o, r2) else r2;
        if !r3.outcome.Ok? then r3
        else if d.isWindows then WindowsLaunch(c, o, r3) else r3
  }
}
