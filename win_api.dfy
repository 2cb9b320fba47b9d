/** lkit/win_api.go: the later `BringWindowToFront`. Its window search is
    the callback of lkit/lkit.go (lines 91-109 here), so
    `Lkit.EnumerateWindows` serves both. */
module WinApi {

  import opened Wrappers
  import opened Errors
  import opened Lkit

  /** `BringWindowToFront` of lkit/win_api.go: enumeration failure is
      reported only when EnumWindows returns 0 and no window was stored;
      otherwise the stored handle, 0 when none was found, is restored and
      brought to the foreground. */
  method BringWindowToFront(windowTitle: string, ws: seq<Window>, apiFailed: bool,
                            restores: nat -> bool, foregrounds: nat -> bool)
    returns (ok: bool, err: Option<Error>, calls: seq<WinCall>)
    ensures windowTitle == "" ==> !ok && err == Some(EmptyWindowTitle) && calls == []
    ensures windowTitle != "" && FirstChosen(ws, windowTitle).None? && apiFailed ==>
      !ok && err == Some(EnumWindowsFailed) && calls == []
    ensures windowTitle != "" && (FirstChosen(ws, windowTitle).Some? || !apiFailed) ==>
      var h := if FirstChosen(ws, windowTitle).Some? then ws[FirstChosen(ws, windowTitle).value].hwnd as nat else 0;
      var title := if FirstChosen(ws, windowTitle).Some? then ws[FirstChosen(ws, windowTitle).value].text.value else "";
      && calls == [ShowWindow(h, SW_RESTORE)] + (if restores(h) then [] else [ShowWindow(h, SW_SHOW)])
                   + [SetForegroundWindow(h)]
      && (ok <==> foregrounds(h))
      && err == (if ok then None else Some(ForegroundFailed(title)))
  {
    if windowTitle == "" {
      return false, Some(EmptyWindowTitle), [];
    }
    var targetHwnd, foundTitle, ret, _ := EnumerateWindows(ws, windowTitle, apiFailed);
    if ret == 0 && targetHwnd == 0 {
      return false, Some(EnumWindowsFailed), [];
    }
    calls := [ShowWindow(targetHwnd, SW_RESTORE)];
    if !restores(targetHwnd) {
      calls := calls + [ShowWindow(targetHwnd, SW_SHOW)];
    }
    calls := calls + [SetForegroundWindow(targetHwnd)];
    if !foregrounds(targetHwnd) {
      return false, Some(ForegroundFailed(foundTitle)), calls;
    }
    return true, None, calls;
  }
}
