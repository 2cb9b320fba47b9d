/** ui/main_window_obs.go: whether OBS runs, launching it, and the guards
    in front of importing the stream settings. The copies of these
    functions in ui/main_window_callback.go (lines 166-179, 207-262,
    396-431, 694-707) make the same decisions; only the settings field
    path differs. */
module ObsControl {

  import opened Wrappers
  import opened Text
  import opened Os
  import opened Errors
  import opened Lkit
  import opened ObsConfig

  /** The names `isOBSRunning` looks for, 64-bit first. */
  const ObsProcesses: seq<string> := ["obs64.exe", "obs32.exe"]

  /** The pid `isOBSRunning` reports for a process listing. */
  function ObsPid(listed: Result<seq<Proc>, string>): int {
    if listed.Failure? then -1
    else if LastPid(listed.value, "obs64.exe") > 0 then LastPid(listed.value, "obs64.exe")
    else if LastPid(listed.value, "obs32.exe") > 0 then LastPid(listed.value, "obs32.exe")
    else -1
  }

  /** isOBSRunning gives -1 or a positive pid; a positive pid belongs to a
      readable process named obs64.exe (preferred) or obs32.exe in any
      case; -1 means the listing failed or no such process has a positive pid. */
  lemma ObsPidSpec(listed: Result<seq<Proc>, string>)
    ensures ObsPid(listed) == -1 || ObsPid(listed) > 0
    ensures ObsPid(listed) > 0 ==>
      && listed.Success?
      && exists i :: 0 <= i < |listed.value| && listed.value[i].pid == ObsPid(listed)
           && (NameMatches(listed.value[i], "obs64.exe") || NameMatches(listed.value[i], "obs32.exe"))
    ensures listed.Success? && LastPid(listed.value, "obs64.exe") > 0 ==>
      ObsPid(listed) == LastPid(listed.value, "obs64.exe")
    ensures listed.Success? && (forall i :: 0 <= i < |listed.value| && listed.value[i].pid > 0 ==>
                                 !NameMatches(listed.value[i], "obs64.exe") && !NameMatches(listed.value[i], "obs32.exe")) ==>
      ObsPid(listed) == -1
  {
    if listed.Success? {
      var ps := listed.value;
      LastPidIsLastMatch(ps, "obs64.exe");
      LastPidIsLastMatch(ps, "obs32.exe");
    }
  }

  method IsObsRunning(listed: Result<seq<Proc>, string>) returns (pid: int)
    ensures pid == ObsPid(listed)
  {
    var pids, err := IsProcessRunning(listed, ObsProcesses);
    if err.Some? {
      return -1;
    }
    if pids[0] > 0 {
      return pids[0];
    }
    if pids[1] > 0 {
      return pids[1];
    }
    return -1;
  }

  /** The error `startOBS(check)` returns. */
  function StartObsError(check: bool, obsLaunchPath: string, stat: StatFn, listed: Result<seq<Proc>, string>,
                         focus: FocusResult, launchErr: Option<string>): Option<Error>
  {
    var p := TrimSpace(obsLaunchPath);
    if p == "" then Some(PathNotConfigured(ObsLaunch))
    else if IsNotExist(stat(p)) then Some(FileNotFound(ObsLaunch, p))
    else if ObsPid(listed) != -1 then
      if !Focused(focus) then Some(ObsFocusFailed(focus.err))
      else if check then Some(ObsAlreadyRunning) else None
    else if launchErr.Some? then Some(LaunchFailed(ObsLaunch, launchErr.value))
    else None
  }

  /** `startOBS(check)`. `stat` answers `os.Stat`, `listed` the process
      listing, `focus` the result of BringWindowToFront("OBS"), `launchErr`
      the result of starting the process. `launched` says whether a start
      was attempted. */
  method StartObs(check: bool, obsLaunchPath: string, stat: StatFn, listed: Result<seq<Proc>, string>,
                  focus: FocusResult, launchErr: Option<string>)
    returns (err: Option<Error>, launched: bool)
    ensures var p := TrimSpace(obsLaunchPath);
      && (p == "" ==> err == Some(PathNotConfigured(ObsLaunch)) && !launched)
      && (p != "" && IsNotExist(stat(p)) ==> err == Some(FileNotFound(ObsLaunch, p)) && !launched)
      && (p != "" && !IsNotExist(stat(p)) && ObsPid(listed) != -1 ==>
            && !launched
            && err == (if !Focused(focus) then Some(ObsFocusFailed(focus.err))
                       else if check then Some(ObsAlreadyRunning) else None))
      && (p != "" && !IsNotExist(stat(p)) && ObsPid(listed) == -1 ==>
            launched && err == (if launchErr.Some? then Some(LaunchFailed(ObsLaunch, launchErr.value)) else None))
    ensures err == StartObsError(check, obsLaunchPath, stat, listed, focus, launchErr)
  {
    var obsPath := TrimSpace(obsLaunchPath);
    if obsPath == "" {
      return Some(PathNotConfigured(ObsLaunch)), false;
    }
    if IsNotExist(stat(obsPath)) {
      return Some(FileNotFound(ObsLaunch, obsPath)), false;
    }
    var pid := IsObsRunning(listed);
    if pid != -1 {
      if focus.err.Some? || !focus.success {
        return Some(ObsFocusFailed(focus.err)), false;
      }
      if check {
        return Some(ObsAlreadyRunning), false;
      }
      return None, false;
    }
    if launchErr.Some? {
      return Some(LaunchFailed(ObsLaunch, launchErr.value)), true;
    }
    return None, true;
  }

  /** What `handleImportOBS` does next: an info dialog for missing stream
      info or config path, the offer to close a running OBS, or the
      confirmation that leads to WriteOBSConfig with these trimmed values. */
  datatype ImportStep =
    | AskForStreamInfo
    | AskForConfigPath
    | OfferToCloseObs(pid: int)
    | ConfirmWrite(configPath: string, server: string, key: string)

  /** The guard chain of `handleImportOBS`; its `for pid != -1` loop
      returns in its first round, so it is a test. */
  function ImportDecision(serverText: string, keyText: string, obsConfigPath: string, obsPid: int): (r: ImportStep)
    ensures (TrimSpace(serverText) == "" || TrimSpace(keyText) == "") <==> r == AskForStreamInfo
    ensures r == AskForConfigPath <==>
      TrimSpace(serverText) != "" && TrimSpace(keyText) != "" && TrimSpace(obsConfigPath) == ""
    ensures r.OfferToCloseObs? <==>
      TrimSpace(serverText) != "" && TrimSpace(keyText) != "" && TrimSpace(obsConfigPath) != "" && obsPid != -1
    ensures r.ConfirmWrite? ==>
      r == ConfirmWrite(TrimSpace(obsConfigPath), TrimSpace(serverText), TrimSpace(keyText))
      && r.server != "" && r.key != "" && r.configPath != "" && obsPid == -1
  {
    var serverAddr, streamKey := TrimSpace(serverText), TrimSpace(keyText);
    if serverAddr == "" || streamKey == "" then AskForStreamInfo
    else
      var obsConfig := TrimSpace(obsConfigPath);
      if obsConfig == "" then AskForConfigPath
      else if obsPid != -1 then OfferToCloseObs(obsPid)
      else ConfirmWrite(obsConfig, serverAddr, streamKey)
  }

  /** The error `importOBSConfigForAuto` returns. */
  function ImportError(serverText: string, keyText: string, obsConfigPath: string,
                       listed: Result<seq<Proc>, string>, file: ConfigFile): Option<Error>
  {
    if TrimSpace(serverText) == "" || TrimSpace(keyText) == "" then Some(StreamInfoIncomplete)
    else if ObsPid(listed) != -1 then Some(ObsRunningDuringImport)
    else WriteError(TrimSpace(obsConfigPath), file)
  }

  /** `importOBSConfigForAuto`: incomplete stream info is reported before
      the OBS check, and only then is the file written, with WriteOBSConfig's
      outcome for the trimmed values. */
  method ImportForAuto(serverText: string, keyText: string, obsConfigPath: string,
                       listed: Result<seq<Proc>, string>, file: ConfigFile)
    returns (err: Option<Error>, written: Option<Object>)
    ensures (TrimSpace(serverText) == "" || TrimSpace(keyText) == "") ==>
      err == Some(StreamInfoIncomplete) && written == None
    ensures TrimSpace(serverText) != "" && TrimSpace(keyText) != "" && ObsPid(listed) != -1 ==>
      err == Some(ObsRunningDuringImport) && written == None
    ensures TrimSpace(serverText) != "" && TrimSpace(keyText) != "" && ObsPid(listed) == -1 ==>
      && err == WriteError(TrimSpace(obsConfigPath), file)
      && (written.Some? <==> ReachesEncoder(file))
      && (written.Some? ==> Updated(Decoded(file), written.value, TrimSpace(serverText), TrimSpace(keyText)))
    ensures err == ImportError(serverText, keyText, obsConfigPath, listed, file)
    ensures err.None? ==> written.Some?
  {
    var serverAddr, streamKey := TrimSpace(serverText), TrimSpace(keyText);
    if serverAddr == "" || streamKey == "" {
      return Some(StreamInfoIncomplete), None;
    }
    var pid := IsObsRunning(listed);
    if pid != -1 {
      return Some(ObsRunningDuringImport), None;
    }
    err, written := WriteOBSConfig(TrimSpace(obsConfigPath), serverAddr, streamKey, file);
  }
}
