/** lkit/mouse_click.go: a mouse click as SetCursorPos followed by two
    SendInput calls. Whether each Win32 call succeeds is given by a
    `Driver`; the sleeps between the calls are left out. */
module MouseClick {

  import opened Wrappers
  import opened Text
  import opened Errors

  const MOUSEEVENTF_LEFTDOWN := 0x0002
  const MOUSEEVENTF_LEFTUP := 0x0004
  const MOUSEEVENTF_RIGHTDOWN := 0x0008
  const MOUSEEVENTF_RIGHTUP := 0x0010

  /** A call made to Win32: the cursor move, or one SendInput with its flags. */
  datatype MouseCall = SetCursorPos(x: int, y: int) | SendInput(flags: int)

  /** Whether SetCursorPos and the two SendInput calls report success. */
  datatype Driver = Driver(moveOk: bool, downOk: bool, upOk: bool)

  /** The down and up flags of a button name, compared after lower-casing. */
  function ButtonFlags(button: string): Option<(int, int)> {
    var b := ToLower(button);
    if b == "left" || b == "" then Some((MOUSEEVENTF_LEFTDOWN, MOUSEEVENTF_LEFTUP))
    else if b == "right" then Some((MOUSEEVENTF_RIGHTDOWN, MOUSEEVENTF_RIGHTUP))
    else None
  }

  /** "left" and "" in any letter case press the left button, "right" the
      right one; no other name is accepted. */
  lemma ButtonFlagsSpec(button: string)
    ensures ButtonFlags(button) == Some((2, 4)) <==> ToLower(button) == "left" || button == ""
    ensures ButtonFlags(button) == Some((8, 16)) <==> ToLower(button) == "right"
    ensures ButtonFlags(button).None? <==> ToLower(button) !in {"left", "", "right"}
    ensures ButtonFlags("LEFT") == Some((2, 4)) && ButtonFlags("Right") == Some((8, 16))
  {
    assert ToLower("LEFT") == "left";
    assert ToLower("Right") == "right";
  }

  /** The outcome of a click: the error returned and the calls made. */
  function Click(x: int, y: int, button: string, drv: Driver): (Option<Error>, seq<MouseCall>) {
    if x < 0 || y < 0 then (Some(NegativeCoordinates(x, y)), [])
    else if !drv.moveOk then (Some(CursorMoveFailed), [SetCursorPos(x, y)])
    else match ButtonFlags(button)
      case None => (Some(UnsupportedButton(button)), [SetCursorPos(x, y)])
      case Some((down, up)) => Press(x, y, down, up, drv)
  }

  /** The two SendInput calls after a successful move. */
  function Press(x: int, y: int, down: int, up: int, drv: Driver): (Option<Error>, seq<MouseCall>) {
    if !drv.downOk then (Some(MouseDownFailed), [SetCursorPos(x, y), SendInput(down)])
    else if !drv.upOk then (Some(MouseUpFailed), [SetCursorPos(x, y), SendInput(down), SendInput(up)])
    else (None, [SetCursorPos(x, y), SendInput(down), SendInput(up)])
  }

  /** What a click promises: negative coordinates fail before any call;
      otherwise the cursor moves first; an unknown button fails after the
      move with no input sent; the button's down flag is sent before its up
      flag, and a failed down sends no up; success means all three calls succeeded. */
  lemma ClickSpec(x: int, y: int, button: string, drv: Driver)
    ensures var (err, calls) := Click(x, y, button, drv);
      && ((x < 0 || y < 0) <==> calls == [])
      && (calls != [] ==> calls[0] == SetCursorPos(x, y))
      && (x >= 0 && y >= 0 && drv.moveOk && ButtonFlags(button).None? ==>
            err == Some(UnsupportedButton(button)) && |calls| == 1)
      && (forall i :: 1 <= i < |calls| ==> calls[i].SendInput?)
      && (|calls| >= 2 ==> calls[1] == SendInput(ButtonFlags(button).value.0))
      && (|calls| == 3 ==> calls[2] == SendInput(ButtonFlags(button).value.1))
      && (err.None? <==> x >= 0 && y >= 0 && ButtonFlags(button).Some? && drv == Driver(true, true, true))
      && (err == Some(MouseDownFailed) ==> |calls| == 2)
  {
  }

  /** The error of a left click, without the button-name lookup. */
  function LeftClickError(x: int, y: int, drv: Driver): Option<Error> {
    if x < 0 || y < 0 then Some(NegativeCoordinates(x, y))
    else if !drv.moveOk then Some(CursorMoveFailed)
    else if !drv.downOk then Some(MouseDownFailed)
    else if !drv.upOk then Some(MouseUpFailed)
    else None
  }

  /** LeftClickError is the error of `Click` with the button "left". */
  lemma LeftClickErrorIsClick(x: int, y: int, drv: Driver)
    ensures LeftClickError(x, y, drv) == Click(x, y, "left", drv).0
  {
    assert ToLower("left") == "left";
  }

  method SimulateMouseClick(x: int, y: int, button: string, drv: Driver)
    returns (err: Option<Error>, calls: seq<MouseCall>)
    ensures err == Click(x, y, button, drv).0 && calls == Click(x, y, button, drv).1
  {
    if x < 0 || y < 0 {
      return Some(NegativeCoordinates(x, y)), [];
    }
    calls := [SetCursorPos(x, y)];
    if !drv.moveOk {
      return Some(CursorMoveFailed), calls;
    }
    var flags := ButtonFlags(button);
    if flags.None? {
      return Some(UnsupportedButton(button)), calls;
    }
    var downFlag, upFlag := flags.value.0, flags.value.1;
    assert Click(x, y, button, drv) == Press(x, y, downFlag, upFlag, drv);
    calls := calls + [SendInput(downFlag)];
    if !drv.downOk {
      return Some(MouseDownFailed), calls;
    }
    calls := calls + [SendInput(upFlag)];
    if !drv.upOk {
      return Some(MouseUpFailed), calls;
    }
    return None, calls;
  }

  method SimulateLeftClick(x: int, y: int, drv: Driver) returns (err: Option<Error>, calls: seq<MouseCall>)
    ensures err == Click(x, y, "left", drv).0 && calls == Click(x, y, "left", drv).1
  {
    err, calls := SimulateMouseClick(x, y, "left", drv);
  }

  method SimulateRightClick(x: int, y: int, drv: Driver) returns (err: Option<Error>, calls: seq<MouseCall>)
    ensures err == Click(x, y, "right", drv).0 && calls == Click(x, y, "right", drv).1
  {
    err, calls := SimulateMouseClick(x, y, "right", drv);
  }
}
