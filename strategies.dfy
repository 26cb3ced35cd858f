/** Properties of each platform strategy taken alone: which calls it makes,
    in what order and with which serial, and which teardowns it leaves
    registered, on success and on each kind of failure. */
module Strategies {
  import opened LaunchTypes
  import opened LaunchPlan
  import Registry
  import Text

  // ---------------------------------------------------------------------
  // Android

  /** The Android calls with a settled serial `s`, made from a running
      attempt: every call made addresses `s`; no uninstall is made when the
      flag is clear; a run that completes registers the forward's removal and
      then the log stream's termination; a run that fails registers nothing
      when the forward threw and only the forward's removal otherwise. */
  lemma AndroidCallsRun(c: Config, s: string, o: Oracle, r: Run)
    requires r.outcome.Ok?
    ensures var r' := Perform(r, AndroidCalls(c, s), o);
      && r'.serial == r.serial
      && (forall i | |r.events| <= i < |r'.events| ::
            PlatformOf(r'.events[i]) == Android && HasSerial(r'.events[i]) &&
            r'.events[i].serial == s && (!c.uninstallApp ==> !r'.events[i].Uninstall?))
      && (r'.outcome.Ok? ==>
            r'.events == r.events + AndroidCalls(c, s) &&
            r'.teardowns == r.teardowns + [RemoveForward(s), Terminate(Process(Logcat(s)))])
      && (!r'.outcome.Ok? ==>
            r'.outcome.ToolFailed? && r'.outcome.call in AndroidCalls(c, s) &&
            r'.teardowns == r.teardowns +
              (if r'.outcome.call.Forward? then [] else [RemoveForward(s)]))
  {
    PerformResult(r, AndroidCalls(c, s), o);
    AndroidRunAddressed(c, s, o, r);
    if Perform(r, AndroidCalls(c, s), o).outcome.Ok? {
      AndroidCallsComplete(c, s, o, r);
    } else {
      AndroidCallsFailure(c, s, o, r);
    }
  }

  /** Every call `Perform` makes is one of the calls it was given, and it
      never ends with a protocol error. */
  lemma PerformMakesGivenCalls(r: Run, calls: seq<Event>, o: Oracle)
    requires r.outcome.Ok?
    ensures var r' := Perform(r, calls, o);
      && (forall i | |r.events| <= i < |r'.events| :: r'.events[i] in calls)
      && !r'.outcome.ProtocolError?
  {
    PerformResult(r, calls, o);
    var r' := Perform(r, calls, o);
    assert forall i | |r.events| <= i < |r'.events| :: r'.events[i] == calls[i - |r.events|];
  }

  /** Each planned Android call is addressed to the settled serial, and none
      is an uninstall when the flag is clear. */
  lemma AndroidCallsAddressed(c: Config, s: string)
    ensures forall e | e in AndroidCalls(c, s) ::
      PlatformOf(e) == Android && HasSerial(e) && e.serial == s &&
      (!c.uninstallApp ==> !e.Uninstall?)
  {
  }

  lemma AndroidRunAddressed(c: Config, s: string, o: Oracle, r: Run)
    requires r.outcome.Ok?
    ensures var r' := Perform(r, AndroidCalls(c, s), o);
      forall i | |r.events| <= i < |r'.events| ::
        PlatformOf(r'.events[i]) == Android && HasSerial(r'.events[i]) &&
        r'.events[i].serial == s && (!c.uninstallApp ==> !r'.events[i].Uninstall?)
  {
    PerformMakesGivenCalls(r, AndroidCalls(c, s), o);
    AndroidCallsAddressed(c, s);
  }

  lemma AndroidCallsComplete(c: Config, s: string, o: Oracle, r: Run)
    requires r.outcome.Ok? && Perform(r, AndroidCalls(c, s), o).outcome.Ok?
    ensures var r' := Perform(r, AndroidCalls(c, s), o);
      r'.events == r.events + AndroidCalls(c, s) &&
      r'.teardowns == r.teardowns + [RemoveForward(s), Terminate(Process(Logcat(s)))]
  {
    var calls := AndroidCalls(c, s);
    PerformResult(r, calls, o);
    var forward := Forward(s, c.reloadHostPort);
    var deploy := [Install(s, c.programPath), PushAssemblies(s, c.assetsPath, c.applicationId),
                   LaunchApp(s, c.applicationId), Flush(s)];
    var mid := if c.uninstallApp then [Uninstall(s, c.applicationId)] + deploy else deploy;
    assert calls == [forward] + mid + [Logcat(s)];
    assert calls[..|calls|] == calls;
    assert forall i | 0 <= i < |mid| :: !Acquires(mid[i]);
    Registry.ReleasesNone(mid);
    Registry.ReleasesAppend([forward], mid);
    Registry.ReleasesAppend([forward] + mid, [Logcat(s)]);
    assert FirstFailing(calls, o) == |calls|;
    ReleasesOne(forward);
    ReleasesOne(Logcat(s));
    assert Releases(calls) == [RemoveForward(s)] + [] + [Terminate(Process(Logcat(s)))];
  }

  /** A single acquiring call leaves exactly its own teardown. */
  lemma ReleasesOne(e: Event)
    requires Acquires(e)
    ensures Releases([e]) == [ReleaseOf(e)]
  {
    assert [e][1..] == [];
  }

  /** The shape of the Android calls: the forward first, the log stream
      last, and between them calls that neither forward nor acquire. */
  lemma AndroidCallsShape(c: Config, s: string)
    ensures var calls := AndroidCalls(c, s);
      && |calls| == (if c.uninstallApp then 7 else 6)
      && calls[0] == Forward(s, c.reloadHostPort)
      && calls[|calls| - 1] == Logcat(s)
      && forall i | 1 <= i < |calls| - 1 :: !Acquires(calls[i]) && !calls[i].Forward?
  {
    var tail := InstallCalls(c, s);
    assert |tail| == 5 && tail[4] == Logcat(s);
    assert forall i | 0 <= i < 4 :: !Acquires(tail[i]) && !tail[i].Forward?;
  }

  /** The Android calls before the one at index `k`, other than the log
      stream, leave only the forward's removal to release, or nothing when
      `k` is 0. */
  lemma AndroidReleasesBefore(c: Config, s: string, k: nat)
    requires k < |AndroidCalls(c, s)|
    ensures Releases(AndroidCalls(c, s)[..k]) ==
      if k == 0 then [] else [RemoveForward(s)]
  {
    var calls := AndroidCalls(c, s);
    AndroidCallsShape(c, s);
    if k > 0 {
      var rest := calls[1..k];
      assert calls[..k] == [calls[0]] + rest;
      assert forall i | 0 <= i < |rest| :: rest[i] == calls[i + 1];
      Registry.ReleasesNone(rest);
      Registry.ReleasesAppend([calls[0]], rest);
      ReleasesOne(calls[0]);
    } else {
      assert calls[..k] == [];
    }
  }

  lemma AndroidCallsFailure(c: Config, s: string, o: Oracle, r: Run)
    requires r.outcome.Ok? && !Perform(r, AndroidCalls(c, s), o).outcome.Ok?
    ensures var r' := Perform(r, AndroidCalls(c, s), o);
      r'.outcome.ToolFailed? && r'.outcome.call in AndroidCalls(c, s) &&
      r'.teardowns == r.teardowns + (if r'.outcome.call.Forward? then [] else [RemoveForward(s)])
  {
    var calls := AndroidCalls(c, s);
    PerformResult(r, calls, o);
    AndroidCallsShape(c, s);
    var k := FirstFailing(calls, o);
    AndroidReleasesBefore(c, s, k);
    assert calls[k].Forward? <==> k == 0;
  }

  /** Serial rewrite: when an emulator is booted, the serial it reports
      replaces the device serial before the port forward; every later bridge
      call uses the final serial, and for a physical device that is the
      serial the attempt started with. */
  lemma AndroidSerial(c: Config, o: Oracle, r: Run)
    requires r.outcome.Ok?
    ensures var r' := AndroidLaunch(c, o, r);
      && (c.device.isEmulator && EmulatorRun(c.device.name) !in o.failing ==>
            r'.serial == o.emulatorSerial)
      && (!c.device.isEmulator ==> r'.serial == r.serial)
      && (forall i | |r.events| <= i < |r'.events| ::
            PlatformOf(r'.events[i]) == Android &&
            (r'.events[i].EmulatorRun? || (HasSerial(r'.events[i]) && r'.events[i].serial == r'.serial)))
  {
    if c.device.isEmulator {
      var r1 := Call(r, EmulatorRun(c.device.name), o);
      if r1.outcome.Ok? {
        AndroidCallsRun(c, o.emulatorSerial, o, r1.(serial := o.emulatorSerial));
      }
    } else {
      AndroidCallsRun(c, r.serial, o, r);
    }
  }

  /** Android order: a run that completes makes the forward, the uninstall
      exactly when it is asked for, the install, the assembly push, the
      launch, the flush and the log stream, in that order, after booting the
      emulator if there is one, and registers exactly two teardowns: the
      forward's removal first, the log stream's termination last. */
  lemma AndroidCompleteRun(c: Config, o: Oracle, r: Run)
    requires r.outcome.Ok? && AndroidLaunch(c, o, r).outcome.Ok?
    ensures var r' := AndroidLaunch(c, o, r); var s := r'.serial;
      && r'.events == r.events
        + (if c.device.isEmulator then [EmulatorRun(c.device.name)] else [])
        + [Forward(s, c.reloadHostPort)]
        + (if c.uninstallApp then [Uninstall(s, c.applicationId)] else [])
        + [Install(s, c.programPath), PushAssemblies(s, c.assetsPath, c.applicationId),
           LaunchApp(s, c.applicationId), Flush(s), Logcat(s)]
      && r'.teardowns == r.teardowns + [RemoveForward(s), Terminate(Process(Logcat(s)))]
  {
    AndroidPlan(c, o, r);
    var boot := if c.device.isEmulator then [EmulatorRun(c.device.name)] else [];
    var r1 := if c.device.isEmulator then Call(r, EmulatorRun(c.device.name), o) else r;
    var s := if c.device.isEmulator then o.emulatorSerial else r.serial;
    PerformResult(r1.(serial := s), AndroidCalls(c, s), o);
    AndroidCallsRun(c, s, o, r1.(serial := s));
    var forward := [Forward(s, c.reloadHostPort)];
    var uninstall := if c.uninstallApp then [Uninstall(s, c.applicationId)] else [];
    var deploy := [Install(s, c.programPath), PushAssemblies(s, c.assetsPath, c.applicationId),
                   LaunchApp(s, c.applicationId), Flush(s), Logcat(s)];
    assert AndroidCalls(c, s) == forward + uninstall + deploy;
    assert r1.events == r.events + boot;
    ConcatAssoc(r.events + boot, forward + uninstall, deploy);
    ConcatAssoc(r.events + boot, forward, uninstall);
  }

  /** Android registrations on failure: a failure in the emulator boot or in
      the forward leaves nothing registered; a failure in any later step
      leaves exactly the forward's removal. */
  lemma AndroidFailure(c: Config, o: Oracle, r: Run)
    requires r.outcome.Ok? && !AndroidLaunch(c, o, r).outcome.Ok?
    ensures var r' := AndroidLaunch(c, o, r);
      && r'.outcome.ToolFailed?
      && r'.outcome.call in o.failing
      && |r'.events| > 0 && r'.events[|r'.events| - 1] == r'.outcome.call
      && r'.teardowns == r.teardowns +
           (if r'.outcome.call.EmulatorRun? || r'.outcome.call.Forward? then []
            else [RemoveForward(r'.serial)])
  {
    AndroidPlan(c, o, r);
    var r1 := if c.device.isEmulator then Call(r, EmulatorRun(c.device.name), o) else r;
    if r1.outcome.Ok? {
      var s := if c.device.isEmulator then o.emulatorSerial else r.serial;
      var calls := AndroidCalls(c, s);
      AndroidCallsRun(c, s, o, r1.(serial := s));
      AndroidCallsAddressed(c, s);
      PerformResult(r1.(serial := s), calls, o);
      var k := FirstFailing(calls, o);
      assert calls[..k + 1][k] == calls[k];
    }
  }

  /** Uninstall only when asked for: no uninstall call is made when the flag
      is clear, and a run that completes with the flag set has made one,
      right after the forward. */
  lemma AndroidUninstall(c: Config, o: Oracle, r: Run)
    requires r.outcome.Ok?
    ensures var r' := AndroidLaunch(c, o, r);
      && (!c.uninstallApp ==> forall i | |r.events| <= i < |r'.events| :: !r'.events[i].Uninstall?)
      && (c.uninstallApp && r'.outcome.Ok? ==>
            var at := |r.events| + (if c.device.isEmulator then 1 else 0);
            r'.events[at].Forward? && r'.events[at + 1] == Uninstall(r'.serial, c.applicationId))
  {
    AndroidPlan(c, o, r);
    if c.device.isEmulator {
      var r1 := Call(r, EmulatorRun(c.device.name), o);
      if r1.outcome.Ok? {
        var es := o.emulatorSerial;
        AndroidCallsRun(c, es, o, r1.(serial := es));
        var r' := AndroidLaunch(c, o, r);
        if c.uninstallApp && r'.outcome.Ok? {
          var calls := AndroidCalls(c, es);
          assert r'.events == r.events + [EmulatorRun(c.device.name)] + calls;
          assert r'.events[|r.events| + 1] == calls[0];
          assert r'.events[|r.events| + 2] == calls[1];
        }
      }
    } else {
      PerformResult(r, AndroidCalls(c, r.serial), o);
      AndroidCallsRun(c, r.serial, o, r);
    }
  }

  // ---------------------------------------------------------------------
  // iPhone

  /** Every call the Apple mobile strategy makes belongs to it, and it
      never ends with a protocol error. */
  lemma AppleMobilePlatform(c: Config, isMacOS: bool, o: Oracle, r: Run)
    requires r.outcome.Ok?
    ensures var r' := AppleMobileLaunch(c, isMacOS, o, r);
      && (forall i | |r.events| <= i < |r'.events| :: PlatformOf(r'.events[i]) == IPhone)
      && !r'.outcome.ProtocolError?
  {
    var s := r.serial;
    if isMacOS {
      if c.device.isEmulator {
        PerformMakesGivenCalls(r, [DebugSim(s, c.programPath, c.debugPort)], o);
      } else {
        PerformMakesGivenCalls(r, [TcpTunnel(s, c.reloadHostPort), InstallDev(s, c.programPath),
                                   DebugDev(s, c.programPath, c.debugPort)], o);
      }
    } else {
      PerformMakesGivenCalls(r, [Proxy(s, c.reloadHostPort), Installer(s, c.programPath)], o);
    }
  }

  /** Simulator on a macOS host: one debug launch, and its termination
      registered when it returns. */
  lemma AppleSimulator(c: Config, o: Oracle, r: Run)
    requires r.outcome.Ok? && c.device.isEmulator
    ensures var r' := AppleMobileLaunch(c, true, o, r);
      var app := DebugSim(r.serial, c.programPath, c.debugPort);
      && r'.events == r.events + [app]
      && r'.teardowns == r.teardowns + (if app in o.failing then [] else [Terminate(Process(app))])
  {
    var app := DebugSim(r.serial, c.programPath, c.debugPort);
    PerformResult(r, [app], o);
    assert [app][..1] == [app];
  }

  /** Physical device on a macOS host: the tunnel, the install and the debug
      launch in that order; a run that completes registers the tunnel's
      termination, then the app's. A failing install or debug launch leaves
      only the tunnel's; a failing tunnel leaves nothing. */
  lemma AppleDevice(c: Config, o: Oracle, r: Run)
    requires r.outcome.Ok? && !c.device.isEmulator
    ensures var r' := AppleMobileLaunch(c, true, o, r);
      var s := r.serial;
      var tunnel := TcpTunnel(s, c.reloadHostPort);
      var install := InstallDev(s, c.programPath);
      var app := DebugDev(s, c.programPath, c.debugPort);
      && (r'.outcome.Ok? ==>
            r'.events == r.events + [tunnel, install, app] &&
            r'.teardowns == r.teardowns + [Terminate(Process(tunnel)), Terminate(Process(app))])
      && (tunnel !in o.failing && install in o.failing ==>
            r'.outcome == ToolFailed(install) &&
            r'.events == r.events + [tunnel, install] &&
            r'.teardowns == r.teardowns + [Terminate(Process(tunnel))])
      && (tunnel !in o.failing && install !in o.failing && app in o.failing ==>
            r'.outcome == ToolFailed(app) &&
            r'.events == r.events + [tunnel, install, app] &&
            r'.teardowns == r.teardowns + [Terminate(Process(tunnel))])
      && (tunnel in o.failing ==>
            r'.outcome == ToolFailed(tunnel) && r'.teardowns == r.teardowns)
  {
    var s := r.serial;
    var calls := [TcpTunnel(s, c.reloadHostPort), InstallDev(s, c.programPath),
                  DebugDev(s, c.programPath, c.debugPort)];
    PerformResult(r, calls, o);
    assert calls[..3] == calls;
    assert calls[..2] == [calls[0], calls[1]];
    assert calls[..1] == [calls[0]];
    Registry.ReleasesAppend([calls[0], calls[1]], [calls[2]]);
    Registry.ReleasesAppend([calls[0]], [calls[1]]);
    assert [calls[0], calls[1]] + [calls[2]] == calls;
    assert [calls[0]] + [calls[1]] == [calls[0], calls[1]];
  }

  /** A host that is not macOS: a proxy for the hot-reload port, then the
      install-only tool, then exactly one important message, and only if the
      install returned; no debug launch and no tunnel. */
  lemma AppleOtherHost(c: Config, o: Oracle, r: Run)
    requires r.outcome.Ok?
    ensures var r' := AppleMobileLaunch(c, false, o, r);
      var s := r.serial;
      var proxy := Proxy(s, c.reloadHostPort);
      var installer := Installer(s, c.programPath);
      && (forall i | |r.events| <= i < |r'.events| ::
            !(r'.events[i].DebugSim? || r'.events[i].DebugDev? || r'.events[i].TcpTunnel?))
      && (r'.outcome.Ok? <==> proxy !in o.failing && installer !in o.failing)
      && (r'.outcome.Ok? ==>
            r'.events == r.events + [proxy, installer, Important(TapMessage)] &&
            r'.teardowns == r.teardowns + [Terminate(Process(proxy))])
      && (!r'.outcome.Ok? ==>
            forall i | |r.events| <= i < |r'.events| :: !r'.events[i].Important?)
      && (proxy !in o.failing && installer in o.failing ==>
            r'.teardowns == r.teardowns + [Terminate(Process(proxy))])
  {
    var s := r.serial;
    var calls := [Proxy(s, c.reloadHostPort), Installer(s, c.programPath)];
    PerformResult(r, calls, o);
    assert calls[..2] == calls;
    assert calls[..1] == [calls[0]];
  }

  // ---------------------------------------------------------------------
  // Mac Catalyst

  /** The stderr lines in the Mac Catalyst error: split on a one-character
      line separator, the message gives back the captured lines, provided none
      of them contains that character. */
  lemma MacCatalystErrorLines(c: Config, nl: char, o: Oracle, r: Run)
    requires r.outcome.Ok?
    requires OpenTool(c.programPath) !in o.failing && !o.openResult.success
    requires |o.openResult.stderr| > 0
    requires forall i | 0 <= i < |o.openResult.stderr| :: nl !in o.openResult.stderr[i]
    ensures var r' := MacCatalystLaunch(c, [nl], o, r);
      r'.outcome.ProtocolError? && Text.Split(r'.outcome.message, nl) == o.openResult.stderr
  {
    Text.SplitJoin(o.openResult.stderr, nl);
  }

  /** Two stderr lines give the first line, the separator, the second. */
  lemma MacCatalystTwoLines(c: Config, newLine: string, o: Oracle, r: Run)
    requires r.outcome.Ok?
    requires OpenTool(c.programPath) !in o.failing
    requires o.openResult == ProcessResult(false, ["A", "B"])
    ensures MacCatalystLaunch(c, newLine, o, r).outcome == ProtocolError("A" + newLine + "B")
  {
    assert ["A", "B"][1..] == ["B"];
  }
}
