/** The teardown registry: after any launch attempt, however far it got, the
    registry holds exactly the teardowns of the resources acquired so far. */
module Registry {
  import opened LaunchTypes
  import opened LaunchPlan

  /** Releasing a concatenation releases each part in turn. */
  lemma {:induction false} ReleasesAppend(a: seq<Event>, b: seq<Event>)
    ensures Releases(a + b) == Releases(a) + Releases(b)
  {
    if |a| == 0 {
      assert a + b == b;
    } else {
      var head := if Acquires(a[0]) then [ReleaseOf(a[0])] else [];
      assert (a + b)[0] == a[0] && (a + b)[1..] == a[1..] + b;
      ReleasesAppend(a[1..], b);
      ConcatAssoc(head, Releases(a[1..]), Releases(b));
    }
  }

  /** Calls that acquire nothing leave nothing to release. */
  lemma {:induction false} ReleasesNone(calls: seq<Event>)
    requires forall i | 0 <= i < |calls| :: !Acquires(calls[i])
    ensures Releases(calls) == []
  {
    if |calls| > 0 {
      ReleasesNone(calls[1..]);
    }
  }

  /** The calls of an attempt that returned: all of them, except the last
      when the attempt failed because that call threw. */
  function Completed(r: Run): seq<Event> {
    if r.outcome.ToolFailed? && |r.events| > 0 then r.events[..|r.events| - 1] else r.events
  }

  /** The registry holds exactly one teardown per acquiring call that
      returned, in the order of the calls; a call that threw is the last one
      made. */
  predicate Accounted(r: Run) {
    && r.teardowns == Releases(Completed(r))
    && (r.outcome.ToolFailed? ==> |r.events| > 0 && r.events[|r.events| - 1] == r.outcome.call)
  }

  /** Making calls with `Perform` keeps the registry accounted for. */
  lemma PerformAccounted(r: Run, calls: seq<Event>, o: Oracle)
    requires r.outcome.Ok? && Accounted(r)
    ensures Accounted(Perform(r, calls, o))
  {
    PerformResult(r, calls, o);
    var r' := Perform(r, calls, o);
    var k := FirstFailing(calls, o);
    ReleasesAppend(r.events, calls[..k]);
    if k < |calls| {
      assert calls[..k + 1] == calls[..k] + [calls[k]];
      ConcatAssoc(r.events, calls[..k], [calls[k]]);
      PrefixOfAppend(r.events + calls[..k], [calls[k]]);
    } else {
      assert calls[..k] == calls;
    }
  }

  /** A call that acquires nothing keeps the registry accounted for. */
  lemma CallAccounted(r: Run, e: Event, o: Oracle)
    requires r.outcome.Ok? && Accounted(r) && !Acquires(e)
    ensures Accounted(Call(r, e, o))
  {
    ReleasesAppend(r.events, [e]);
    assert (r.events + [e])[..|r.events|] == r.events;
  }

  lemma AndroidAccounted(c: Config, o: Oracle, r: Run)
    requires r.outcome.Ok? && Accounted(r)
    ensures Accounted(AndroidLaunch(c, o, r))
  {
    if c.device.isEmulator {
      CallAccounted(r, EmulatorRun(c.device.name), o);
      var r1 := Call(r, EmulatorRun(c.device.name), o);
      if r1.outcome.Ok? {
        PerformAccounted(r1.(serial := o.emulatorSerial), AndroidCalls(c, o.emulatorSerial), o);
      }
    } else {
      PerformAccounted(r, AndroidCalls(c, r.serial), o);
    }
  }

  lemma AppleMobileAccounted(c: Config, isMacOS: bool, o: Oracle, r: Run)
    requires r.outcome.Ok? && Accounted(r)
    ensures Accounted(AppleMobileLaunch(c, isMacOS, o, r))
  {
    var s := r.serial;
    if isMacOS {
      if c.device.isEmulator {
        PerformAccounted(r, [DebugSim(s, c.programPath, c.debugPort)], o);
      } else {
        PerformAccounted(r, [TcpTunnel(s, c.reloadHostPort), InstallDev(s, c.programPath),
                             DebugDev(s, c.programPath, c.debugPort)], o);
      }
    } else {
      var calls := [Proxy(s, c.reloadHostPort), Installer(s, c.programPath)];
      PerformAccounted(r, calls, o);
      var r1 := Perform(r, calls, o);
      if r1.outcome.Ok? {
        CallAccounted(r1, Important(TapMessage), o.(failing := {}));
      }
    }
  }

  lemma MacCatalystAccounted(c: Config, newLine: string, o: Oracle, r: Run)
    requires r.outcome.Ok? && Accounted(r)
    ensures Accounted(MacCatalystLaunch(c, newLine, o, r))
  {
    CallAccounted(r, OpenTool(c.programPath), o);
    ReleasesAppend(r.events, [OpenTool(c.programPath)]);
  }

  /** Whatever step a launch attempt stops at, its registry holds exactly the
      teardowns of the resources acquired so far, one per acquiring call that
      returned and in the order of those calls, and none for the call that
      threw. */
  lemma LaunchAccounted(c: Config, isMacOS: bool, newLine: string, o: Oracle, serial: string)
    ensures var r := LaunchRun(c, isMacOS, newLine, o, Start(serial));
      && r.teardowns == Releases(Completed(r))
      && (r.outcome.ToolFailed? ==> |r.events| > 0 && r.events[|r.events| - 1] == r.outcome.call)
  {
    LaunchRunAccounted(c, isMacOS, newLine, o, Start(serial));
  }

  lemma LaunchRunAccounted(c: Config, isMacOS: bool, newLine: string, o: Oracle, r0: Run)
    requires r0.outcome.Ok? && Accounted(r0)
    ensures Accounted(LaunchRun(c, isMacOS, newLine, o, r0))
  {
    var d := c.device;
    var r1 := if d.isAndroid then AndroidLaunch(c, o, r0) else r0;
    if d.isAndroid { AndroidAccounted(c, o, r0); }
    assert Accounted(r1);
    if r1.outcome.Ok? {
      var r2 := if d.isIPhone then AppleMobileLaunch(c, isMacOS, o, r1) else r1;
      if d.isIPhone { AppleMobileAccounted(c, isMacOS, o, r1); }
      assert Accounted(r2);
      if r2.outcome.Ok? {
        var r3 := if d.isMacCatalyst then MacCatalystLaunch(c, newLine, o, r2) else r2;
        if d.isMacCatalyst { MacCatalystAccounted(c, newLine, o, r2); }
        assert Accounted(r3);
        if r3.outcome.Ok? && d.isWindows {
          PerformAccounted(r3, [StartProcess(c.programPath)], o);
        }
      }
    }
  }
}
