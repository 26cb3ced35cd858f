/** Properties of `Launch` as a whole: which strategies it runs, in what
    order, and where it stops. */
module Dispatch {
  import opened LaunchTypes
  import opened LaunchPlan
  import Strategies
  import Text

  /** Only the flag of platform `p` is set. */
  predicate OnlySelected(d: Device, p: Platform) {
    && d.isAndroid == (p == Android)
    && d.isIPhone == (p == IPhone)
    && d.isMacCatalyst == (p == MacCatalyst)
    && d.isWindows == (p == Windows)
  }

  /** The calls come in the order of their strategies. */
  predicate Ranked(es: seq<Event>) {
    forall i, j | 0 <= i < j < |es| :: Rank(PlatformOf(es[i])) <= Rank(PlatformOf(es[j]))
  }

  /** No call comes from a strategy later than rank `n`. */
  predicate Within(es: seq<Event>, n: nat) {
    forall i | 0 <= i < |es| :: Rank(PlatformOf(es[i])) <= n
  }

  /** Every call comes from strategy `p`. */
  predicate Only(es: seq<Event>, p: Platform) {
    forall i | 0 <= i < |es| :: PlatformOf(es[i]) == p
  }

  /** Strategy `p` made some call. */
  predicate Ran(es: seq<Event>, p: Platform) {
    exists i | 0 <= i < |es| :: PlatformOf(es[i]) == p
  }

  /** The calls an attempt made after the state `r`. */
  function Added(r: Run, r': Run): seq<Event>
    requires |r.events| <= |r'.events|
  {
    r'.events[|r.events|..]
  }

  /** Calls of strategy `p` appended to calls from strategies no later than
      `p` keep the order. */
  lemma RankedAppend(a: seq<Event>, b: seq<Event>, p: Platform)
    requires Ranked(a) && Within(a, Rank(p)) && Only(b, p)
    ensures Ranked(a + b) && Within(a + b, Rank(p))
  {
  }

  /** One strategy's step of `Launch`: the calls it adds after `r` are all
      its own, and it adds some when it runs. */
  predicate StrategyStep(r: Run, r': Run, p: Platform, selected: bool) {
    && r.events <= r'.events
    && Only(Added(r, r'), p)
    && (selected ==> |r'.events| > |r.events|)
    && (!selected ==> r' == r)
  }

  lemma AndroidStep(c: Config, o: Oracle, r: Run)
    requires r.outcome.Ok?
    ensures StrategyStep(r, if c.device.isAndroid then AndroidLaunch(c, o, r) else r,
                         Android, c.device.isAndroid)
    ensures c.device.isAndroid ==> !AndroidLaunch(c, o, r).outcome.ProtocolError?
  {
    if c.device.isAndroid {
      Strategies.AndroidSerial(c, o, r);
      if !AndroidLaunch(c, o, r).outcome.Ok? {
        Strategies.AndroidFailure(c, o, r);
      }
    }
  }

  lemma AppleMobileStep(c: Config, isMacOS: bool, o: Oracle, r: Run)
    requires r.outcome.Ok?
    ensures StrategyStep(r, if c.device.isIPhone then AppleMobileLaunch(c, isMacOS, o, r) else r,
                         IPhone, c.device.isIPhone)
    ensures c.device.isIPhone ==> !AppleMobileLaunch(c, isMacOS, o, r).outcome.ProtocolError?
  {
    if c.device.isIPhone {
      Strategies.AppleMobilePlatform(c, isMacOS, o, r);
    }
  }

  lemma MacCatalystStep(c: Config, newLine: string, o: Oracle, r: Run)
    requires r.outcome.Ok?
    ensures StrategyStep(r, if c.device.isMacCatalyst then MacCatalystLaunch(c, newLine, o, r) else r,
                         MacCatalyst, c.device.isMacCatalyst)
  {
  }

  lemma WindowsStep(c: Config, o: Oracle, r: Run)
    requires r.outcome.Ok?
    ensures StrategyStep(r, if c.device.isWindows then WindowsLaunch(c, o, r) else r,
                         Windows, c.device.isWindows)
    ensures c.device.isWindows ==> !WindowsLaunch(c, o, r).outcome.ProtocolError?
  {
  }

  /** With exactly one device flag set, `Launch` is exactly that flag's
      strategy. */
  lemma LaunchSingleStrategy(c: Config, isMacOS: bool, newLine: string, o: Oracle, r: Run)
    requires r.outcome.Ok?
    ensures OnlySelected(c.device, Android) ==>
      LaunchRun(c, isMacOS, newLine, o, r) == AndroidLaunch(c, o, r)
    ensures OnlySelected(c.device, IPhone) ==>
      LaunchRun(c, isMacOS, newLine, o, r) == AppleMobileLaunch(c, isMacOS, o, r)
    ensures OnlySelected(c.device, MacCatalyst) ==>
      LaunchRun(c, isMacOS, newLine, o, r) == MacCatalystLaunch(c, newLine, o, r)
    ensures OnlySelected(c.device, Windows) ==>
      LaunchRun(c, isMacOS, newLine, o, r) == WindowsLaunch(c, o, r)
  {
  }

  /** The state `Launch` ends in, given the state after each strategy step:
      the first step that fails ends the attempt. */
  function Finish(r1: Run, r2: Run, r3: Run, r4: Run): Run {
    if !r1.outcome.Ok? then r1
    else if !r2.outcome.Ok? then r2
    else if !r3.outcome.Ok? then r3
    else r4
  }

  /** `Launch` as four strategy steps, each taken after the previous one
      returned normally. */
  lemma LaunchSteps(c: Config, isMacOS: bool, newLine: string, o: Oracle, r: Run)
    returns (r1: Run, r2: Run, r3: Run, r4: Run)
    requires r.outcome.Ok?
    ensures LaunchRun(c, isMacOS, newLine, o, r) == Finish(r1, r2, r3, r4)
    ensures StrategyStep(r, r1, Android, c.device.isAndroid)
    ensures r1.outcome.Ok? ==> StrategyStep(r1, r2, IPhone, c.device.isIPhone)
    ensures r1.outcome.Ok? && r2.outcome.Ok? ==>
      StrategyStep(r2, r3, MacCatalyst, c.device.isMacCatalyst)
    ensures r1.outcome.Ok? && r2.outcome.Ok? && r3.outcome.Ok? ==>
      StrategyStep(r3, r4, Windows, c.device.isWindows)
    ensures !r1.outcome.ProtocolError? && (r1.outcome.Ok? ==> !r2.outcome.ProtocolError?)
    ensures r1.outcome.Ok? && r2.outcome.Ok? && r3.outcome.Ok? ==> !r4.outcome.ProtocolError?
    ensures r1.outcome.Ok? && r2.outcome.Ok? && r3.outcome.ProtocolError? ==>
      c.device.isMacCatalyst && r3 == MacCatalystLaunch(c, newLine, o, r2)
  {
    var d := c.device;
    r1 := if d.isAndroid then AndroidLaunch(c, o, r) else r;
    AndroidStep(c, o, r);
    r2, r3, r4 := r1, r1, r1;
    if r1.outcome.Ok? {
      r2 := if d.isIPhone then AppleMobileLaunch(c, isMacOS, o, r1) else r1;
      AppleMobileStep(c, isMacOS, o, r1);
      r3, r4 := r2, r2;
      if r2.outcome.Ok? {
        r3 := if d.isMacCatalyst then MacCatalystLaunch(c, newLine, o, r2) else r2;
        MacCatalystStep(c, newLine, o, r2);
        r4 := r3;
        if r3.outcome.Ok? {
          r4 := if d.isWindows then WindowsLaunch(c, o, r3) else r3;
          WindowsStep(c, o, r3);
        }
      }
    }
  }

  /** The calls made since `r0` come strategy by strategy, none later than
      rank `n`, and only from selected strategies. */
  predicate OrderedSince(r0: Run, r: Run, n: nat, d: Device) {
    && r0.events <= r.events
    && Ranked(Added(r0, r))
    && Within(Added(r0, r), n)
    && (forall i | 0 <= i < |Added(r0, r)| :: Selected(d, PlatformOf(Added(r0, r)[i])))
  }

  /** One more strategy step keeps the calls in order, keeps every strategy
      that has run, and adds the step's own strategy when it is selected. */
  lemma StepKeepsOrder(d: Device, r0: Run, r: Run, r': Run, p: Platform)
    requires OrderedSince(r0, r, Rank(p), d)
    requires StrategyStep(r, r', p, Selected(d, p))
    ensures OrderedSince(r0, r', Rank(p), d)
    ensures forall q | Ran(Added(r0, r), q) :: Ran(Added(r0, r'), q)
    ensures Selected(d, p) ==> Ran(Added(r0, r'), p)
  {
    var a := Added(r0, r);
    var b := Added(r, r');
    assert Added(r0, r') == a + b;
    RankedAppend(a, b, p);
    if Selected(d, p) {
      assert (a + b)[|a|] == b[0];
    }
    forall q | Ran(a, q) ensures Ran(a + b, q) {
      var i :| 0 <= i < |a| && PlatformOf(a[i]) == q;
      assert (a + b)[i] == a[i];
    }
  }

  /** A lower bound on the rank carries over to a higher one. */
  lemma OrderedWeaken(r0: Run, r: Run, n: nat, m: nat, d: Device)
    requires OrderedSince(r0, r, n, d) && n <= m
    ensures OrderedSince(r0, r, m, d)
  {
  }

  /** Four strategy steps make their calls strategy by strategy, only for
      the selected strategies, and, when all return, for every one of them. */
  lemma StepsOrder(d: Device, r: Run, r1: Run, r2: Run, r3: Run, r4: Run)
    requires r.outcome.Ok?
    requires StrategyStep(r, r1, Android, d.isAndroid)
    requires r1.outcome.Ok? ==> StrategyStep(r1, r2, IPhone, d.isIPhone)
    requires r1.outcome.Ok? && r2.outcome.Ok? ==> StrategyStep(r2, r3, MacCatalyst, d.isMacCatalyst)
    requires r1.outcome.Ok? && r2.outcome.Ok? && r3.outcome.Ok? ==>
      StrategyStep(r3, r4, Windows, d.isWindows)
    ensures var r' := Finish(r1, r2, r3, r4);
      && OrderedSince(r, r', Rank(Windows), d)
      && (r'.outcome.Ok? ==> forall p | Selected(d, p) :: Ran(Added(r, r'), p))
  {
    assert Added(r, r) == [];
    StepKeepsOrder(d, r, r, r1, Android);
    OrderedWeaken(r, r1, Rank(Android), Rank(Windows), d);
    if r1.outcome.Ok? {
      OrderedWeaken(r, r1, Rank(Android), Rank(IPhone), d);
      StepKeepsOrder(d, r, r1, r2, IPhone);
      OrderedWeaken(r, r2, Rank(IPhone), Rank(Windows), d);
      if r2.outcome.Ok? {
        OrderedWeaken(r, r2, Rank(IPhone), Rank(MacCatalyst), d);
        StepKeepsOrder(d, r, r2, r3, MacCatalyst);
        OrderedWeaken(r, r3, Rank(MacCatalyst), Rank(Windows), d);
        if r3.outcome.Ok? {
          StepKeepsOrder(d, r, r3, r4, Windows);
          if r4.outcome.Ok? {
            forall p | Selected(d, p) ensures Ran(Added(r, r4), p) {
              match p
              case Android =>
              case IPhone =>
              case MacCatalyst =>
              case Windows =>
            }
          }
        }
      }
    }
  }

  /** Launch order: the calls `Launch` makes come only from strategies whose
      flag is set, strategy by strategy in the order Android, iPhone, Mac
      Catalyst, Windows; when it returns normally every selected strategy has
      run. */
  lemma LaunchOrder(c: Config, isMacOS: bool, newLine: string, o: Oracle, r: Run)
    requires r.outcome.Ok?
    ensures var r' := LaunchRun(c, isMacOS, newLine, o, r);
      && r.events <= r'.events
      && var added := r'.events[|r.events|..];
         && Ranked(added)
         && (forall i | 0 <= i < |added| :: Selected(c.device, PlatformOf(added[i])))
         && (r'.outcome.Ok? ==> forall p | Selected(c.device, p) :: Ran(added, p))
  {
    var r1, r2, r3, r4 := LaunchSteps(c, isMacOS, newLine, o, r);
    StepsOrder(c.device, r, r1, r2, r3, r4);
    assert Added(r, Finish(r1, r2, r3, r4)) == Finish(r1, r2, r3, r4).events[|r.events|..];
  }

  /** No Windows process has been started since `r0`. */
  predicate NoStartSince(r0: Run, r: Run) {
    && r0.events <= r.events
    && forall i | |r0.events| <= i < |r.events| :: !r.events[i].StartProcess?
  }

  /** A step of a strategy other than Windows starts no Windows process. */
  lemma StepStartsNothing(r0: Run, r: Run, r': Run, p: Platform, selected: bool)
    requires NoStartSince(r0, r)
    requires StrategyStep(r, r', p, selected) && p != Windows
    ensures NoStartSince(r0, r')
  {
    forall i | |r0.events| <= i < |r'.events| ensures !r'.events[i].StartProcess? {
      if i >= |r.events| {
        assert r'.events[i] == Added(r, r')[i - |r.events|];
      }
    }
  }

  /** A Mac Catalyst error ends the launch: it is the joined stderr of the
      open tool, the open tool's call is the last call made, and no Windows
      process is started after it. */
  lemma LaunchStopsAtMacCatalystError(c: Config, isMacOS: bool, newLine: string, o: Oracle, r: Run)
    requires r.outcome.Ok?
    ensures var r' := LaunchRun(c, isMacOS, newLine, o, r);
      r'.outcome.ProtocolError? ==>
        && c.device.isMacCatalyst
        && r'.outcome.message == Text.Join(o.openResult.stderr, newLine)
        && |r'.events| > |r.events|
        && r'.events[|r'.events| - 1] == OpenTool(c.programPath)
        && forall i | |r.events| <= i < |r'.events| :: !r'.events[i].StartProcess?
  {
    var r1, r2, r3, r4 := LaunchSteps(c, isMacOS, newLine, o, r);
    if r1.outcome.Ok? && r2.outcome.Ok? && r3.outcome.ProtocolError? {
      StepStartsNothing(r, r, r1, Android, c.device.isAndroid);
      StepStartsNothing(r, r1, r2, IPhone, c.device.isIPhone);
      assert r3.events == r2.events + [OpenTool(c.programPath)];
    }
  }
}
