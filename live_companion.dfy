/** ui/main_window_live.go: launching the streaming companion app and
    clicking its buttons through the external automation helper. The
    copies in ui/main_window_callback.go (lines 340-383, 669-750) make the
    same calls; only a sleep length differs. */
module LiveCompanion {

  import opened Wrappers
  import opened Text
  import opened Os
  import opened Errors
  import opened Lkit
  import MouseClick

  const CompanionTitle := "直播伴侣"

  /** How the companion is started: the path itself, or `powershell` with
      these arguments (an elevated start). */
  datatype Command = Direct(path: string) | PowerShell(args: seq<string>)

  /** The command line an unelevated process uses to ask for elevation. */
  function RunAsCommand(path: string): string {
    "Start-Process -FilePath '" + path + "' -Verb RunAs"
  }

  /** The error `startLiveCompanion` returns. */
  function StartLiveError(companionPath: string, stat: StatFn, launchErr: Option<string>): Option<Error> {
    var p := TrimSpace(companionPath);
    if p == "" then Some(PathNotConfigured(Companion))
    else if IsNotExist(stat(p)) then Some(FileNotFound(Companion, p))
    else if launchErr.Some? then Some(LaunchFailed(Companion, launchErr.value))
    else None
  }

  /** `startLiveCompanion(check)`: its running-instance guard is commented
      out, so `check` plays no part. `launchErr` is the result of
      `cmd.Start()`. */
  method StartLiveCompanion(check: bool, companionPath: string, stat: StatFn, isAdmin: bool,
                            launchErr: Option<string>)
    returns (err: Option<Error>, started: Option<Command>)
    ensures var p := TrimSpace(companionPath);
      && (p == "" ==> err == Some(PathNotConfigured(Companion)) && started == None)
      && (p != "" && IsNotExist(stat(p)) ==> err == Some(FileNotFound(Companion, p)) && started == None)
      && (p != "" && !IsNotExist(stat(p)) ==>
            && started == Some(if isAdmin then Direct(p) else PowerShell(["-Command", RunAsCommand(p)]))
            && err == (if launchErr.Some? then Some(LaunchFailed(Companion, launchErr.value)) else None))
    ensures err == StartLiveError(companionPath, stat, launchErr)
  {
    var liveCompanionPath := TrimSpace(companionPath);
    if liveCompanionPath == "" {
      return Some(PathNotConfigured(Companion)), None;
    }
    if IsNotExist(stat(liveCompanionPath)) {
      return Some(FileNotFound(Companion, liveCompanionPath)), None;
    }
    if isAdmin {
      started := Some(Direct(liveCompanionPath));
    } else {
      var powershellCmd := RunAsCommand(liveCompanionPath);
      started := Some(PowerShell(["-Command", powershellCmd]));
    }
    if launchErr.Some? {
      return Some(LaunchFailed(Companion, launchErr.value)), started;
    }
    return None, started;
  }

  /** The elevated command quotes the path verbatim between the fixed
      prefix and suffix, so the path can be read back from it. */
  lemma RunAsCommandShape(p: string)
    ensures var c := RunAsCommand(p);
      && |c| == |p| + 38
      && c[..25] == "Start-Process -FilePath '"
      && c[25..25 + |p|] == p
      && c[25 + |p|..] == "' -Verb RunAs"
  {
  }

  /** The fields of `AutoResult` the callers read. */
  datatype AutoResult = AutoResult(success: bool, error: string, centerX: int, centerY: int)

  /** What the caller does with the outside world, in order. */
  datatype Action =
    | BringToFront(title: string)
    | RunAutoTool(exe: string, args: seq<string>)
    | Mouse(calls: seq<MouseClick.MouseCall>)

  function ToolArgs(control: string, kind: string): seq<string> {
    ["--app", CompanionTitle, "--control", control, "--type", kind]
  }

  const StartLiveArgs := ToolArgs("开始直播", "Text")
  const CloseArgs := ToolArgs("关闭", "Button")
  const ConfirmArgs := ToolArgs("确定", "Button")

  /** The error of one locate-and-click round naming `control`. */
  function RoundResult(tool: Result<AutoResult, string>, drv: MouseClick.Driver, control: Control): Option<Error> {
    if tool.Failure? then Some(LocateToolFailed(control, tool.error))
    else if !tool.value.success then Some(LocateRejected(control, tool.value.error))
    else
      var clickErr := MouseClick.LeftClickError(tool.value.centerX, tool.value.centerY, drv);
      if clickErr.Some? then Some(ClickFailed(control, clickErr.value)) else None
  }

  /** The error `simulateClickStartLive` returns. */
  function ClickStartLiveError(focus: FocusResult, tool: Result<AutoResult, string>, drv: MouseClick.Driver): Option<Error> {
    if !Focused(focus) then Some(CompanionFocusFailed(focus.err))
    else RoundResult(tool, drv, StartLiveButton)
  }

  /** The error `closeLiveCompanionForAuto` returns. */
  function CloseCompanionError(focus: FocusResult, closeTool: Result<AutoResult, string>, closeDrv: MouseClick.Driver,
                               confirmTool: Result<AutoResult, string>, confirmDrv: MouseClick.Driver): Option<Error>
  {
    if !Focused(focus) then Some(CompanionFocusFailed(focus.err))
    else if RoundResult(closeTool, closeDrv, CloseButton).Some? then RoundResult(closeTool, closeDrv, CloseButton)
    else RoundResult(confirmTool, confirmDrv, CloseButton)
  }

  /** One locate-and-click round: run the helper, require `Success`, then
      left-click the centre it reports. Errors name `control`. */
  method LocateAndClick(exe: string, args: seq<string>, control: Control,
                        tool: Result<AutoResult, string>, drv: MouseClick.Driver)
    returns (err: Option<Error>, actions: seq<Action>)
    ensures actions != [] && actions[0] == RunAutoTool(exe, args)
    ensures tool.Failure? ==> err == Some(LocateToolFailed(control, tool.error)) && |actions| == 1
    ensures tool.Success? && !tool.value.success ==>
      err == Some(LocateRejected(control, tool.value.error)) && |actions| == 1
    ensures tool.Success? && tool.value.success ==>
      var click := MouseClick.Click(tool.value.centerX, tool.value.centerY, "left", drv);
      && actions == [RunAutoTool(exe, args), Mouse(click.1)]
      && err == (if click.0.Some? then Some(ClickFailed(control, click.0.value)) else None)
    ensures err.None? <==> RoundOk(tool, drv)
    ensures err.Some? ==> RoundError(err.value, control)
    ensures err == RoundResult(tool, drv, control)
  {
    actions := [RunAutoTool(exe, args)];
    if tool.Failure? {
      return Some(LocateToolFailed(control, tool.error)), actions;
    }
    var result := tool.value;
    if !result.success {
      return Some(LocateRejected(control, result.error)), actions;
    }
    var clickErr, calls := MouseClick.SimulateLeftClick(result.centerX, result.centerY, drv);
    MouseClick.LeftClickErrorIsClick(result.centerX, result.centerY, drv);
    actions := actions + [Mouse(calls)];
    if clickErr.Some? {
      return Some(ClickFailed(control, clickErr.value)), actions;
    }
    return None, actions;
  }

  /** `simulateClickStartLive`: focus, locate, click; the first failure ends it. */
  method SimulateClickStartLive(scriptPath: string, focus: FocusResult,
                                tool: Result<AutoResult, string>, drv: MouseClick.Driver)
    returns (err: Option<Error>, actions: seq<Action>)
    ensures actions != [] && actions[0] == BringToFront(CompanionTitle)
    ensures !Focused(focus) ==> err == Some(CompanionFocusFailed(focus.err)) && actions == [BringToFront(CompanionTitle)]
    ensures Focused(focus) ==>
      |actions| >= 2 && actions[1] == RunAutoTool(TrimSpace(scriptPath), StartLiveArgs)
    ensures err.None? <==> Focused(focus) && RoundOk(tool, drv)
    ensures err.Some? && Focused(focus) ==> RoundError(err.value, StartLiveButton)
    ensures err == ClickStartLiveError(focus, tool, drv)
  {
    actions := [BringToFront(CompanionTitle)];
    if focus.err.Some? || !focus.success {
      return Some(CompanionFocusFailed(focus.err)), actions;
    }
    var autoExePath := TrimSpace(scriptPath);
    var more;
    err, more := LocateAndClick(autoExePath, StartLiveArgs, StartLiveButton, tool, drv);
    actions := actions + more;
  }

  /** `closeLiveCompanionForAuto`: one focus, then the "关闭" round and the
      "确定" round; the first failure ends it. Both rounds report with the
      close button's messages, as the source does. */
  method CloseLiveCompanionForAuto(scriptPath: string, focus: FocusResult,
                                   closeTool: Result<AutoResult, string>, closeDrv: MouseClick.Driver,
                                   confirmTool: Result<AutoResult, string>, confirmDrv: MouseClick.Driver)
    returns (err: Option<Error>, actions: seq<Action>)
    ensures actions != [] && actions[0] == BringToFront(CompanionTitle)
    ensures !Focused(focus) ==> err == Some(CompanionFocusFailed(focus.err)) && |actions| == 1
    ensures Focused(focus) ==> |actions| >= 2 && actions[1] == RunAutoTool(TrimSpace(scriptPath), CloseArgs)
    ensures RoundOk(closeTool, closeDrv) && Focused(focus) ==>
      |actions| >= 4 && actions[3] == RunAutoTool(TrimSpace(scriptPath), ConfirmArgs)
    ensures !RoundOk(closeTool, closeDrv) ==> |actions| <= 3
    ensures err.None? <==> Focused(focus) && RoundOk(closeTool, closeDrv) && RoundOk(confirmTool, confirmDrv)
    ensures err.Some? && Focused(focus) ==> RoundError(err.value, CloseButton)
    ensures err == CloseCompanionError(focus, closeTool, closeDrv, confirmTool, confirmDrv)
  {
    actions := [BringToFront(CompanionTitle)];
    if focus.err.Some? || !focus.success {
      return Some(CompanionFocusFailed(focus.err)), actions;
    }
    var autoExePath := TrimSpace(scriptPath);
    var first;
    err, first := LocateAndClick(autoExePath, CloseArgs, CloseButton, closeTool, closeDrv);
    actions := actions + first;
    if err.Some? {
      return;
    }
    var second;
    err, second := LocateAndClick(autoExePath, ConfirmArgs, CloseButton, confirmTool, confirmDrv);
    actions := actions + second;
  }

  /** An error of a locate-and-click round, naming `control`. */
  predicate RoundError(e: Error, control: Control) {
    (e.LocateToolFailed? || e.LocateRejected? || e.ClickFailed?) && e.control == control
  }

  /** One locate-and-click round succeeds. */
  predicate RoundOk(tool: Result<AutoResult, string>, drv: MouseClick.Driver) {
    tool.Success? && tool.value.success && MouseClick.Click(tool.value.centerX, tool.value.centerY, "left", drv).0.None?
  }
}
