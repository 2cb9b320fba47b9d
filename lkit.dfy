/** lkit/lkit.go: process lookup by name, the window search behind
    `BringWindowToFront`, and `SliceToStrList`. Win32 and gopsutil are
    replaced by their observable results, passed in as values. */
module Lkit {

  import opened Wrappers
  import opened Text
  import opened Errors

  // -----------------------------------------------------------------------
  // IsProcessRunning (lines 100-120)

  /** A running process as `process.Processes` lists it; `name` is the
      result of `p.Name()`. */
  datatype Proc = Proc(pid: int, name: Result<string, string>)

  predicate NameMatches(p: Proc, target: string) {
    p.name.Success? && EqualFold(p.name.value, target)
  }

  /** The slot of one target: the pid of the last listed process with a
      readable name equal to the target up to case, else 0. */
  function LastPid(procs: seq<Proc>, target: string): int {
    if procs == [] then 0
    else if NameMatches(procs[|procs| - 1], target) then procs[|procs| - 1].pid
    else LastPid(procs[..|procs| - 1], target)
  }

  /** LastPid is the pid of the last matching process; it is 0 when no
      process matches. */
  lemma {:induction false} LastPidIsLastMatch(procs: seq<Proc>, target: string)
    ensures (forall i :: 0 <= i < |procs| ==> !NameMatches(procs[i], target)) ==> LastPid(procs, target) == 0
    ensures (exists i :: 0 <= i < |procs| && NameMatches(procs[i], target)) ==>
      exists i :: 0 <= i < |procs| && NameMatches(procs[i], target)
        && LastPid(procs, target) == procs[i].pid
        && forall j :: i < j < |procs| ==> !NameMatches(procs[j], target)
  {
    if procs != [] && !NameMatches(procs[|procs| - 1], target) {
      var init := procs[..|procs| - 1];
      LastPidIsLastMatch(init, target);
      assert forall i :: 0 <= i < |init| ==> init[i] == procs[i];
      if exists i :: 0 <= i < |procs| && NameMatches(procs[i], target) {
        var k :| 0 <= k < |procs| && NameMatches(procs[k], target);
        assert k < |init| && NameMatches(init[k], target);
      }
    }
  }

  /** `IsProcessRunning(targets...)`: one slot per target in the order
      given. An enumeration error gives an empty slice with the error. */
  method IsProcessRunning(listed: Result<seq<Proc>, string>, targets: seq<string>)
    returns (ret: seq<int>, err: Option<string>)
    ensures listed.Failure? ==> ret == [] && err == Some(listed.error)
    ensures listed.Success? ==>
      err == None && |ret| == |targets|
      && forall j :: 0 <= j < |targets| ==> ret[j] == LastPid(listed.value, targets[j])
  {
    if listed.Failure? {
      return [], Some(listed.error);
    }
    var processes := listed.value;
    var slots := new int[|targets|](_ => 0);
    var i := 0;
    while i < |processes|
      invariant 0 <= i <= |processes|
      invariant forall j :: 0 <= j < slots.Length ==> slots[j] == LastPid(processes[..i], targets[j])
    {
      var p := processes[i];
      assert processes[..i + 1][..i] == processes[..i];
      if p.name.Failure? {
        i := i + 1;
        continue;
      }
      var name := p.name.value;
      var index := 0;
      while index < |targets|
        invariant 0 <= index <= |targets|
        invariant forall j :: 0 <= j < index ==> slots[j] == LastPid(processes[..i + 1], targets[j])
        invariant forall j :: index <= j < slots.Length ==> slots[j] == LastPid(processes[..i], targets[j])
      {
        if EqualFold(name, targets[index]) {
          slots[index] := p.pid;
        }
        index := index + 1;
      }
      i := i + 1;
    }
    assert processes[..i] == processes;
    return slots[..], None;
  }

  // -----------------------------------------------------------------------
  // The window search of BringWindowToFront (lines 241-266)

  type Hwnd = n: nat | n > 0 witness 1

  /** A top-level window in EnumWindows order: `text` is what
      GetWindowTextW reads (None when it returns 0). */
  datatype Window = Window(hwnd: Hwnd, text: Option<string>, visible: bool)

  /** The callback's test: a readable, non-empty, visible title containing the search string. */
  predicate Chosen(w: Window, windowTitle: string) {
    w.text.Some? && w.text.value != "" && Contains(w.text.value, windowTitle) && w.visible
  }

  /** The index of the first chosen window. */
  function FirstChosen(ws: seq<Window>, windowTitle: string): (r: Option<nat>)
    ensures r.Some? ==>
      r.value < |ws| && Chosen(ws[r.value], windowTitle)
      && forall j :: 0 <= j < r.value ==> !Chosen(ws[j], windowTitle)
    ensures r.None? ==> forall j :: 0 <= j < |ws| ==> !Chosen(ws[j], windowTitle)
  {
    if ws == [] then None
    else if Chosen(ws[0], windowTitle) then Some(0)
    else match FirstChosen(ws[1..], windowTitle)
      case None => None
      case Some(k) => Some(k + 1)
  }

  /** `EnumWindows` driving the callback: the callback stores the handle
      and title of the first chosen window and returns 0, which stops the
      enumeration. `apiFailed` is an EnumWindows failure of its own.
      EnumWindows returns 0 when the callback stopped it or when it failed.
      The callbacks that ran are returned as `visited`. */
  method EnumerateWindows(ws: seq<Window>, windowTitle: string, apiFailed: bool)
    returns (targetHwnd: nat, foundTitle: string, ret: int, visited: nat)
    ensures FirstChosen(ws, windowTitle).None? ==>
      targetHwnd == 0 && foundTitle == "" && visited == |ws| && ret == (if apiFailed then 0 else 1)
    ensures FirstChosen(ws, windowTitle).Some? ==>
      var k := FirstChosen(ws, windowTitle).value;
      targetHwnd == ws[k].hwnd && foundTitle == ws[k].text.value && visited == k + 1 && ret == 0
  {
    targetHwnd, foundTitle := 0, "";
    var i := 0;
    while i < |ws|
      invariant 0 <= i <= |ws|
      invariant forall j :: 0 <= j < i ==> !Chosen(ws[j], windowTitle)
    {
      var w := ws[i];
      if w.text.Some? {
        var title := w.text.value;
        if title != "" && Contains(title, windowTitle) && w.visible {
          targetHwnd, foundTitle := w.hwnd, title;
          return targetHwnd, foundTitle, 0, i + 1;
        }
      }
      i := i + 1;
    }
    visited := i;
    ret := if apiFailed then 0 else 1;
  }

  /** A Win32 call the function makes after the search. */
  datatype WinCall = ShowWindow(hwnd: nat, cmd: int) | SetForegroundWindow(hwnd: nat)

  const SW_SHOW := 5
  const SW_RESTORE := 9

  /** `BringWindowToFront` of lkit/lkit.go. `restores` and `foregrounds`
      say whether ShowWindow(h, SW_RESTORE) and SetForegroundWindow(h)
      succeed. */
  method BringWindowToFront(windowTitle: string, ws: seq<Window>, apiFailed: bool,
                            restores: nat -> bool, foregrounds: nat -> bool)
    returns (ok: bool, err: Option<Error>, calls: seq<WinCall>)
    ensures windowTitle == "" ==> !ok && err == Some(EmptyWindowTitle) && calls == []
    ensures windowTitle != "" && FirstChosen(ws, windowTitle).Some? ==>
      !ok && err == Some(EnumWindowsFailed) && calls == []
    ensures windowTitle != "" && FirstChosen(ws, windowTitle).None? ==>
      !ok && calls == [] && err == Some(if apiFailed then EnumWindowsFailed else WindowNotFound(windowTitle))
  {
    if windowTitle == "" {
      return false, Some(EmptyWindowTitle), [];
    }
    var targetHwnd, foundTitle, ret, _ := EnumerateWindows(ws, windowTitle, apiFailed);
    if ret == 0 {
      return false, Some(EnumWindowsFailed), [];
    }
    if targetHwnd == 0 {
      return false, Some(WindowNotFound(windowTitle)), [];
    }
    calls := [ShowWindow(targetHwnd, SW_RESTORE)];
    if !restores(targetHwnd) {
      calls := calls + [ShowWindow(targetHwnd, SW_SHOW)];
    }
    calls := calls + [SetForegroundWindow(targetHwnd)];
    if !foregrounds(targetHwnd) {
      return false, Some(ForegroundFailed(foundTitle)), calls;
    }
    return true, None, calls;
  }

  /** The `(bool, error)` pair a caller receives from BringWindowToFront;
      callers treat `err != nil || !success` as failure. */
  datatype FocusResult = FocusResult(success: bool, err: Option<Error>)

  predicate Focused(f: FocusResult) {
    f.success && f.err.None?
  }

  // -----------------------------------------------------------------------
  // SliceToStrList (lines 30-36)

  /** The list `SliceToStrList` builds: `show` stands for `fmt.Sprint`. */
  function StrList<T>(v: seq<T>, show: T -> string): (r: seq<string>)
    ensures |r| == |v|
  {
    if v == [] then [] else StrList(v[..|v| - 1], show) + [show(v[|v| - 1])]
  }

  /** Element i of the list is the rendering of element i of the input. */
  lemma {:induction false} StrListPointwise<T>(v: seq<T>, show: T -> string)
    ensures forall i :: 0 <= i < |v| ==> StrList(v, show)[i] == show(v[i])
  {
    if v != [] {
      StrListPointwise(v[..|v| - 1], show);
    }
  }

  /** Rendering distributes over concatenation. */
  lemma {:induction false} StrListAppend<T>(u: seq<T>, v: seq<T>, show: T -> string)
    ensures StrList(u + v, show) == StrList(u, show) + StrList(v, show)
  {
    if v == [] {
      assert u + v == u;
    } else {
      assert (u + v)[..|u + v| - 1] == u + v[..|v| - 1];
      StrListAppend(u, v[..|v| - 1], show);
    }
  }

  method SliceToStrList<T>(v: seq<T>, show: T -> string) returns (res: seq<string>)
    ensures res == StrList(v, show)
  {
    res := [];
    for i := 0 to |v|
      invariant res == StrList(v[..i], show)
    {
      assert v[..i + 1][..i] == v[..i];
      res := res + [show(v[i])];
    }
    assert v[..|v|] == v;
  }
}
