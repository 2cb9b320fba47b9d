/** ui/main_window_callback.go: the one-click start. `validateAutoStartConfig`
    gates it; `autoStart` then runs seven steps in order under a deferred
    clean-up. The outside world of every step is given in an `AutoEnv`. */
module AutoStart {

  import opened Wrappers
  import opened Text
  import opened Os
  import opened Errors
  import opened Lkit
  import opened Capture
  import opened ObsControl
  import opened LiveCompanion
  import MouseClick
  import OC = ObsConfig

  // -----------------------------------------------------------------------
  // validateAutoStartConfig (lines 457-501)

  /** The four configured paths, as stored (untrimmed). */
  datatype PathConfig = PathConfig(companion: string, obsLaunch: string, obsConfig: string, script: string)

  function PathOf(cfg: PathConfig, t: Tool): string {
    match t
    case Companion => cfg.companion
    case ObsLaunch => cfg.obsLaunch
    case ObsConfig => cfg.obsConfig
    case Script => cfg.script
  }

  /** One path's check: non-empty once trimmed, then the untrimmed path
      must not be reported missing by `os.Stat`. */
  function PathProblem(cfg: PathConfig, stat: StatFn, t: Tool): Option<Error> {
    var p := PathOf(cfg, t);
    if TrimSpace(p) == "" then Some(PathNotConfigured(t))
    else if IsNotExist(stat(p)) then Some(FileNotFound(t, p))
    else None
  }

  /** The checks in the order they are made. */
  function Problems(cfg: PathConfig, stat: StatFn): seq<Option<Error>> {
    [PathProblem(cfg, stat, Companion), PathProblem(cfg, stat, ObsLaunch),
     PathProblem(cfg, stat, Tool.ObsConfig), PathProblem(cfg, stat, Script)]
  }

  function FirstProblem(ps: seq<Option<Error>>): Option<Error> {
    if ps == [] then None
    else if ps[0].Some? then ps[0]
    else FirstProblem(ps[1..])
  }

  /** The first failing check in list order is reported, and nothing is
      reported when every check passes. */
  lemma {:induction false} FirstProblemSpec(ps: seq<Option<Error>>)
    ensures FirstProblem(ps).None? <==> forall i :: 0 <= i < |ps| ==> ps[i].None?
    ensures FirstProblem(ps).Some? ==>
      exists i :: 0 <= i < |ps| && FirstProblem(ps) == ps[i] && forall j :: 0 <= j < i ==> ps[j].None?
  {
    if ps != [] && ps[0].None? {
      var tail := ps[1..];
      FirstProblemSpec(tail);
      assert forall i :: 1 <= i < |ps| ==> ps[i] == tail[i - 1];
      if FirstProblem(tail).Some? {
        var i :| 0 <= i < |tail| && FirstProblem(tail) == tail[i] && forall j :: 0 <= j < i ==> tail[j].None?;
        assert ps[i + 1] == tail[i];
      }
    }
  }

  /** Each check reports the tool it is about, and a missing file only
      for a path that is set. */
  lemma PathProblemNamesTool(cfg: PathConfig, stat: StatFn, t: Tool)
    ensures PathProblem(cfg, stat, t).Some? ==>
      PathProblem(cfg, stat, t).value.tool == t
      && (PathProblem(cfg, stat, t).value.FileNotFound? ==>
            TrimSpace(PathOf(cfg, t)) != "" && stat(PathOf(cfg, t)).NotFound?)
      && (PathProblem(cfg, stat, t).value.PathNotConfigured? ==> TrimSpace(PathOf(cfg, t)) == "")
  {
  }

  /** `validateAutoStartConfig`; `listed` is the process listing seen by
      its `isOBSRunning`. */
  method ValidateAutoStartConfig(cfg: PathConfig, stat: StatFn, listed: Result<seq<Proc>, string>)
    returns (err: Option<Error>)
    ensures FirstProblem(Problems(cfg, stat)).Some? ==> err == FirstProblem(Problems(cfg, stat))
    ensures FirstProblem(Problems(cfg, stat)).None? ==>
      err == (if ObsPid(listed) != -1 then Some(ObsRunningBeforeAutoStart) else None)
  {
    err := CheckPaths(cfg, stat);
    if err.Some? {
      return;
    }
    var pid := IsObsRunning(listed);
    if pid != -1 {
      return Some(ObsRunningBeforeAutoStart);
    }
    return None;
  }

  /** The four path blocks of `validateAutoStartConfig`. */
  method CheckPaths(cfg: PathConfig, stat: StatFn) returns (err: Option<Error>)
    ensures err == FirstProblem(Problems(cfg, stat))
  {
    FirstOfFour(PathProblem(cfg, stat, Companion), PathProblem(cfg, stat, ObsLaunch),
                PathProblem(cfg, stat, Tool.ObsConfig), PathProblem(cfg, stat, Script));
    err := CheckPath(cfg, stat, Companion);
    if err.Some? {
      return;
    }
    err := CheckPath(cfg, stat, ObsLaunch);
    if err.Some? {
      return;
    }
    err := CheckPath(cfg, stat, Tool.ObsConfig);
    if err.Some? {
      return;
    }
    err := CheckPath(cfg, stat, Script);
  }

  lemma FirstOfFour(a: Option<Error>, b: Option<Error>, c: Option<Error>, d: Option<Error>)
    ensures FirstProblem([a, b, c, d]) == if a.Some? then a else if b.Some? then b else if c.Some? then c else d
  {
    assert [a, b, c, d][1..] == [b, c, d];
    assert [b, c, d][1..] == [c, d];
    assert [c, d][1..] == [d];
    assert [d][1..] == [];
    assert FirstProblem([d]) == d;
    assert FirstProblem([c, d]) == if c.Some? then c else d;
    assert FirstProblem([b, c, d]) == if b.Some? then b else if c.Some? then c else d;
  }

  /** One block of `validateAutoStartConfig`. */
  method CheckPath(cfg: PathConfig, stat: StatFn, t: Tool) returns (err: Option<Error>)
    ensures err == PathProblem(cfg, stat, t)
  {
    var p := PathOf(cfg, t);
    if TrimSpace(p) == "" {
      return Some(PathNotConfigured(t));
    }
    if IsNotExist(stat(p)) {
      return Some(FileNotFound(t, p));
    }
    return None;
  }

  // -----------------------------------------------------------------------
  // The all-found signal (lines 562-568)

  /** The `onGetAll` closure: `channelClosed` guards `close(onGetAll)`;
      `closes` counts the closes performed. */
  class AllFoundSignal {
    var channelClosed: bool
    var closes: nat

    ghost predicate Valid()
      reads this
    {
      closes == if channelClosed then 1 else 0
    }

    constructor ()
      ensures Valid() && !channelClosed && closes == 0
    {
      channelClosed, closes := false, 0;
    }

    method Fire()
      requires Valid()
      modifies this
      ensures Valid() && channelClosed && closes == 1
    {
      if !channelClosed {
        channelClosed := true;
        closes := closes + 1;
      }
    }

    /** However often the callback runs, the channel is closed at most
        once, and exactly once if it ran at all. */
    method FireTimes(n: nat)
      requires Valid()
      modifies this
      ensures Valid() && closes <= 1
      ensures closes == (if n > 0 || old(channelClosed) then 1 else 0)
    {
      var i := 0;
      while i < n
        invariant 0 <= i <= n && Valid()
        invariant channelClosed == (i > 0 || old(channelClosed))
      {
        Fire();
        i := i + 1;
      }
    }
  }

  // -----------------------------------------------------------------------
  // startCaptureForAuto (lines 635-666)

  /** As written: the error callback's parameter is also named `err`, so
      its assignment never reaches the variable the function returns.
      Even when StartCapture reports an error the result is nil. */
  method StartCaptureForAutoAsWritten(s: Session, found: Result<seq<Device>, string>, allow: seq<string>)
    returns (err: Option<Error>, outcome: StartOutcome)
    requires s.Valid()
    modifies s
    ensures s.Valid() && s.capturing && s.stop == Open
    ensures s.handles == old(s.handles) && s.closed == old(s.closed)
    ensures outcome == StartOutcomeOf(found, allow)
    ensures err == None
    ensures found.Failure? ==> outcome.Reported? && err == None
  {
    s.Begin();
    err := None;
    outcome := StartCapture(found, allow);
    if outcome.Reported? {
      var shadowed := Some(CaptureError(outcome.error));  // assigned to the callback's own parameter
    }
  }

  /** Corrected: the reported error is wrapped and returned. */
  method StartCaptureForAuto(s: Session, found: Result<seq<Device>, string>, allow: seq<string>)
    returns (err: Option<Error>, outcome: StartOutcome)
    requires s.Valid()
    modifies s
    ensures s.Valid() && s.capturing && s.stop == Open
    ensures s.handles == old(s.handles) && s.closed == old(s.closed)
    ensures outcome == StartOutcomeOf(found, allow)
    ensures err == (if outcome.Reported? then Some(CaptureError(outcome.error)) else None)
    ensures err.None? <==> found.Success? && Selection(found.value, allow) != []
  {
    s.Begin();
    err := None;
    outcome := StartCapture(found, allow);
    if outcome.Reported? {
      err := Some(CaptureError(outcome.error));
    }
  }

  // -----------------------------------------------------------------------
  // autoStart (lines 533-632)

  datatype Step =
    | LaunchCompanion | StartCaptureStep | ClickStartLive | WaitForStreamInfo
    | ImportObsConfig | LaunchObs | CloseCompanion

  const Pipeline: seq<Step> := [LaunchCompanion, StartCaptureStep, ClickStartLive, WaitForStreamInfo,
                                 ImportObsConfig, LaunchObs, CloseCompanion]

  /** The progress-bar value (in sevenths) shown when a step begins; the
      wait shows none. */
  function ProgressOf(st: Step): seq<nat> {
    match st
    case LaunchCompanion => [1]
    case StartCaptureStep => [2]
    case ClickStartLive => [3]
    case WaitForStreamInfo => []
    case ImportObsConfig => [4]
    case LaunchObs => [5]
    case CloseCompanion => [6]
  }

  function Progress(steps: seq<Step>): seq<nat> {
    if steps == [] then [] else Progress(steps[..|steps| - 1]) + ProgressOf(steps[|steps| - 1])
  }

  /** The values the bar takes over the whole flow. */
  const Labels: seq<nat> := [1, 2, 3, 4, 5, 6]

  /** How many values a run of the first k steps shows. */
  function Shown(k: nat): nat {
    if k >= 4 then k - 1 else k
  }

  lemma {:induction false} ProgressTable(k: nat)
    requires k <= 7
    ensures Progress(Pipeline[..k]) == Labels[..Shown(k)]
  {
    if k > 0 {
      ProgressTable(k - 1);
      assert Pipeline[..k][..k - 1] == Pipeline[..k - 1];
    }
  }

  /** The bar only moves forward, stays within 1..6 before success, and a
      run of k steps shows one value per step except the wait. */
  lemma ProgressIncreasing(k: nat)
    requires k <= 7
    ensures var p := Progress(Pipeline[..k]);
      && (forall i, j :: 0 <= i < j < |p| ==> p[i] < p[j])
      && (forall i :: 0 <= i < |p| ==> 1 <= p[i] <= 6)
      && |p| == Shown(k)
  {
    ProgressTable(k);
  }

  /** The outside world of one run of the flow. */
  datatype AutoEnv = AutoEnv(
    paths: PathConfig, stat: StatFn,
    // step 1
    isAdmin: bool, companionLaunchErr: Option<string>,
    // step 2
    devices: Result<seq<Device>, string>, allow: seq<string>,
    // step 3
    startFocus: FocusResult, startTool: Result<AutoResult, string>, startDrv: MouseClick.Driver,
    // step 4: whether the all-found signal came before the 20 second timeout
    streamInfoArrived: bool,
    // step 5: the text fields as the capture callbacks left them
    serverText: string, keyText: string, importListing: Result<seq<Proc>, string>, serviceFile: OC.ConfigFile,
    // step 6
    launchListing: Result<seq<Proc>, string>, obsFocus: FocusResult, obsLaunchErr: Option<string>,
    // step 7
    closeFocus: FocusResult, closeTool: Result<AutoResult, string>, closeDrv: MouseClick.Driver,
    confirmTool: Result<AutoResult, string>, confirmDrv: MouseClick.Driver)

  /** The error each step hands to `autoStart`, as a function of the outside
      world. Steps 2 and 5 use the corrected `startCaptureForAuto` and
      `WriteOBSConfig` (see README, "Findings"). */
  function StepError(st: Step, env: AutoEnv): Option<Error> {
    match st
    case LaunchCompanion => StartLiveError(env.paths.companion, env.stat, env.companionLaunchErr)
    case StartCaptureStep =>
      (match StartOutcomeOf(env.devices, env.allow)
       case Reported(e) => Some(CaptureError(e))
       case Started(_) => None)
    case ClickStartLive => ClickStartLiveError(env.startFocus, env.startTool, env.startDrv)
    case WaitForStreamInfo => if env.streamInfoArrived then None else Some(StreamInfoTimeout)
    case ImportObsConfig =>
      (match ImportError(env.serverText, env.keyText, env.paths.obsConfig, env.importListing, env.serviceFile)
       case Some(e) => Some(ImportFailed(e))
       case None => None)
    case LaunchObs => StartObsError(false, env.paths.obsLaunch, env.stat, env.launchListing, env.obsFocus, env.obsLaunchErr)
    case CloseCompanion =>
      CloseCompanionError(env.closeFocus, env.closeTool, env.closeDrv, env.confirmTool, env.confirmDrv)
  }

  /** The run of steps k up to n, the error of step i being `errs(i)`:
      every step that runs records its error, and the first failure ends
      the run. */
  function Run(errs: nat -> Option<Error>, k: nat, n: nat): seq<Option<Error>>
    requires k <= n
    decreases n - k
  {
    if k == n then []
    else if errs(k).Some? then [errs(k)]
    else [errs(k)] + Run(errs, k + 1, n)
  }

  lemma RunUnfold(errs: nat -> Option<Error>, k: nat, n: nat)
    requires k < n
    ensures Run(errs, k, n) == [errs(k)] + (if errs(k).None? then Run(errs, k + 1, n) else [])
  {
  }

  /** A run holds one outcome per step that ran, in order; every outcome
      is its step's error; every step but the last succeeded, and the run
      stops early only at a failure. It reaches the end without a failure
      exactly when no step fails. */
  lemma {:induction false} RunSpec(errs: nat -> Option<Error>, k: nat, n: nat)
    requires k <= n
    ensures var r := Run(errs, k, n);
      && (k < n ==> 1 <= |r|) && |r| <= n - k
      && (forall i :: 0 <= i < |r| ==> r[i] == errs(k + i))
      && (forall i :: 0 <= i < |r| - 1 ==> r[i].None?)
      && (k + |r| < n ==> r[|r| - 1].Some?)
      && ((forall i :: k <= i < n ==> errs(i).None?) <==> k + |r| == n && (r == [] || r[|r| - 1].None?))
    decreases n - k
  {
    if k < n {
      RunSpec(errs, k + 1, n);
      if errs(k).None? {
        var t := Run(errs, k + 1, n);
        assert Run(errs, k, n) == [errs(k)] + t;
        assert forall i :: 1 <= i < |t| + 1 ==> ([errs(k)] + t)[i] == t[i - 1];
      }
    }
  }

  /** The error of each step of the flow, by position. */
  function StepErrors(env: AutoEnv): nat -> Option<Error> {
    (i: nat) => if i < |Pipeline| then StepError(Pipeline[i], env) else None
  }

  /** The flow from step k on. */
  function RunFrom(env: AutoEnv, k: nat): seq<Option<Error>>
    requires k <= |Pipeline|
    decreases |Pipeline| - k
  {
    if k == |Pipeline| then []
    else
      var e := StepError(Pipeline[k], env);
      if e.Some? then [e] else [e] + RunFrom(env, k + 1)
  }

  lemma RunFromUnfold(env: AutoEnv, k: nat)
    requires k < |Pipeline|
    ensures RunFrom(env, k) ==
      [StepError(Pipeline[k], env)] + (if StepError(Pipeline[k], env).None? then RunFrom(env, k + 1) else [])
  {
  }

  /** The flow is a run whose step errors are those of the pipeline. */
  lemma {:induction false} RunFromIsRun(env: AutoEnv, k: nat)
    requires k <= |Pipeline|
    ensures RunFrom(env, k) == Run(StepErrors(env), k, |Pipeline|)
    decreases |Pipeline| - k
  {
    if k < |Pipeline| {
      RunFromIsRun(env, k + 1);
    }
  }

  /** No step fails. */
  predicate ErrorFree(env: AutoEnv) {
    forall i :: 0 <= i < |Pipeline| ==> StepError(Pipeline[i], env).None?
  }

  /** The flow runs the steps in pipeline order; every outcome is its
      step's error; every step but the last succeeded, and the flow stops
      early only at a failure. */
  lemma FlowSpec(env: AutoEnv)
    ensures var r := RunFrom(env, 0);
      && 1 <= |r| <= |Pipeline|
      && (forall i :: 0 <= i < |r| ==> r[i] == StepError(Pipeline[i], env))
      && (forall i :: 0 <= i < |r| - 1 ==> r[i].None?)
      && (|r| < |Pipeline| ==> r[|r| - 1].Some?)
  {
    RunFromIsRun(env, 0);
    RunSpec(StepErrors(env), 0, |Pipeline|);
  }

  /** The flow completes without a failure exactly when no step fails. */
  lemma FlowCompletes(env: AutoEnv)
    ensures var r := RunFrom(env, 0);
      ErrorFree(env) <==> |r| == |Pipeline| && r[|r| - 1].None?
  {
    RunFromIsRun(env, 0);
    RunSpec(StepErrors(env), 0, |Pipeline|);
    assert ErrorFree(env) <==> forall i :: 0 <= i < |Pipeline| ==> StepErrors(env)(i).None?;
  }

  // Each step as `autoStart` calls it.

  method LaunchCompanionStep(env: AutoEnv) returns (e: Option<Error>)
    ensures e == StepError(LaunchCompanion, env)
  {
    var extra;
    e, extra := StartLiveCompanion(false, env.paths.companion, env.stat, env.isAdmin, env.companionLaunchErr);
  }

  method ClickStartLiveStep(env: AutoEnv) returns (e: Option<Error>)
    ensures e == StepError(ClickStartLive, env)
  {
    var extra;
    e, extra := SimulateClickStartLive(env.paths.script, env.startFocus, env.startTool, env.startDrv);
  }

  /** Step 5 wraps whatever `importOBSConfigForAuto` reports. */
  method ImportStep(env: AutoEnv) returns (e: Option<Error>)
    ensures e == StepError(ImportObsConfig, env)
    ensures e.Some? ==> e.value.ImportFailed?
  {
    var ie := ImportErrorOf(env);
    e := if ie.Some? then Some(ImportFailed(ie.value)) else None;
  }

  /** `importOBSConfigForAuto`, keeping only its error. */
  method ImportErrorOf(env: AutoEnv) returns (ie: Option<Error>)
    ensures ie == ImportError(env.serverText, env.keyText, env.paths.obsConfig, env.importListing, env.serviceFile)
  {
    var written;
    ie, written := ImportForAuto(env.serverText, env.keyText, env.paths.obsConfig, env.importListing, env.serviceFile);
  }

  method LaunchObsStep(env: AutoEnv) returns (e: Option<Error>)
    ensures e == StepError(LaunchObs, env)
  {
    var extra;
    e, extra := StartObs(false, env.paths.obsLaunch, env.stat, env.launchListing, env.obsFocus, env.obsLaunchErr);
  }

  method CloseCompanionStep(env: AutoEnv) returns (e: Option<Error>)
    ensures e == StepError(CloseCompanion, env)
  {
    var extra;
    e, extra := CloseLiveCompanionForAuto(env.paths.script, env.closeFocus, env.closeTool, env.closeDrv,
                                          env.confirmTool, env.confirmDrv);
  }

  /** Step 2, through the corrected `startCaptureForAuto`. */
  method CaptureStep(s: Session, env: AutoEnv) returns (e: Option<Error>, outcome: StartOutcome)
    requires s.Valid()
    modifies s
    ensures s.Valid() && s.capturing && s.stop == Open
    ensures s.handles == old(s.handles) && s.closed == old(s.closed)
    ensures e == StepError(StartCaptureStep, env)
    ensures e.None? <==> env.devices.Success? && Selection(env.devices.value, env.allow) != []
  {
    e, outcome := StartCaptureForAuto(s, env.devices, env.allow);
  }

  /** Steps 1 to 3 (launch the companion, start capture, click start);
      past three successful steps the run goes on with `RunFrom(env, 3)`. */
  method EarlySteps(s: Session, env: AutoEnv) returns (outcomes: seq<Option<Error>>, progress: seq<nat>)
    requires s.Valid()
    modifies s
    ensures s.Valid()
    ensures 1 <= |outcomes| <= 3 && progress == Labels[..|outcomes|]
    ensures |outcomes| == 1 ==> s.capturing == old(s.capturing) && s.stop == old(s.stop)
    ensures |outcomes| >= 2 ==> s.capturing && s.stop == Open
    ensures s.handles == old(s.handles) && s.closed == old(s.closed)
    ensures outcomes + (if |outcomes| == 3 && outcomes[2].None? then RunFrom(env, 3) else []) == RunFrom(env, 0)
  {
    RunFromUnfold(env, 0);
    RunFromUnfold(env, 1);
    RunFromUnfold(env, 2);
    progress := [1];
    var e1 := LaunchCompanionStep(env);
    outcomes := [e1];
    if e1.Some? {
      return;
    }
    progress := progress + [2];
    var e2, _ := CaptureStep(s, env);
    outcomes := outcomes + [e2];
    if e2.Some? {
      return;
    }
    progress := progress + [3];
    var e3 := ClickStartLiveStep(env);
    outcomes := outcomes + [e3];
  }

  /** Steps 4 to 7 (wait, import, launch OBS, close the companion). */
  method LateSteps(env: AutoEnv) returns (outcomes: seq<Option<Error>>, progress: seq<nat>)
    ensures 1 <= |outcomes| <= 4 && outcomes == RunFrom(env, 3)
    ensures progress == Labels[3..Shown(3 + |outcomes|)]
  {
    RunFromUnfold(env, 3);
    RunFromUnfold(env, 4);
    RunFromUnfold(env, 5);
    RunFromUnfold(env, 6);
    var e4 := if env.streamInfoArrived then None else Some(StreamInfoTimeout);
    outcomes, progress := [e4], [];
    if e4.Some? {
      return;
    }
    progress := progress + [4];
    var e5 := ImportStep(env);
    outcomes := outcomes + [e5];
    if e5.Some? {
      return;
    }
    progress := progress + [5];
    var e6 := LaunchObsStep(env);
    outcomes := outcomes + [e6];
    if e6.Some? {
      return;
    }
    progress := progress + [6];
    var e7 := CloseCompanionStep(env);
    outcomes := outcomes + [e7];
  }

  /** The steps of `autoStart` before its deferred function: `outcomes`
      holds the error of each step that ran. */
  method RunSteps(s: Session, env: AutoEnv) returns (outcomes: seq<Option<Error>>, progress: seq<nat>)
    requires s.Valid()
    modifies s
    ensures s.Valid()
    ensures 1 <= |outcomes| <= 7 && outcomes == RunFrom(env, 0)
    ensures progress == Labels[..Shown(|outcomes|)]
    ensures |outcomes| == 1 ==> s.capturing == old(s.capturing) && s.stop == old(s.stop)
    ensures |outcomes| >= 2 ==> s.capturing && s.stop == Open
    ensures s.handles == old(s.handles) && s.closed == old(s.closed)
  {
    outcomes, progress := EarlySteps(s, env);
    if |outcomes| == 3 && outcomes[2].None? {
      var late, lateProgress := LateSteps(env);
      assert Labels[..3] + Labels[3..Shown(3 + |late|)] == Labels[..Shown(3 + |late|)];
      outcomes, progress := outcomes + late, progress + lateProgress;
    }
  }

  /** `autoStart` with its deferred clean-up and `onSuccess`. `ran` are the
      steps that ran; `shown` is the error handed to the error dialog. */
  method AutoStart(s: Session, env: AutoEnv)
    returns (ran: seq<Step>, outcomes: seq<Option<Error>>, shown: Option<Error>, succeeded: bool, progress: seq<nat>)
    requires s.Valid()
    modifies s
    ensures s.Valid() && !s.capturing
    // the run is the one `RunFrom` describes
    ensures outcomes == RunFrom(env, 0)
    // the steps run in the fixed order and none runs after the first failure
    ensures 1 <= |ran| <= 7 && ran == Pipeline[..|ran|] && |outcomes| == |ran|
    ensures forall i :: 0 <= i < |ran| - 1 ==> outcomes[i].None?
    // every outcome is its step's error, so the run is decided by the outside world
    ensures forall i :: 0 <= i < |ran| ==> outcomes[i] == StepError(ran[i], env)
    // exactly one terminal outcome
    ensures succeeded <==> shown.None?
    ensures succeeded <==> |ran| == 7 && outcomes[6].None?
    ensures succeeded <==> ErrorFree(env)
    ensures !succeeded ==> shown == outcomes[|ran| - 1] && shown.Some?
    ensures progress == Progress(ran) + (if succeeded then [7] else [])
    // capture is stopped on both paths once it was started
    ensures |ran| >= 2 || old(s.capturing) ==> s.stop == Closed && s.handles == []
    ensures |ran| >= 2 || old(s.capturing) ==> s.closed == old(s.closed) + old(s.handles)
  {
    var steps;
    outcomes, steps := RunSteps(s, env);
    FlowSpec(env);
    FlowCompletes(env);
    ran := Pipeline[..|outcomes|];
    ProgressTable(|outcomes|);
    var last := outcomes[|outcomes| - 1];
    if last.Some? {
      // deferred: progressError != nil
      s.StopCapturing();
      shown, succeeded := last, false;
      progress := steps;
      return;
    }
    // onSuccess
    s.StopCapturing();
    shown, succeeded := None, true;
    progress := steps + [7];
  }

  /** The wait is the only step decided by the stream information alone:
      a run without it never succeeds. */
  lemma WaitDecides(env: AutoEnv)
    ensures |RunFrom(env, 0)| >= 4 ==> (RunFrom(env, 0)[3].None? <==> env.streamInfoArrived)
    ensures !env.streamInfoArrived ==> !ErrorFree(env)
  {
    FlowSpec(env);
    FlowCompletes(env);
    assert Pipeline[3] == WaitForStreamInfo;
  }
}
