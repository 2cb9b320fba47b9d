/** config/find_file.go: searching every fixed or removable drive for a
    file by name. GetLogicalDrives, GetDriveTypeW and the directory walk
    are given as values; the goroutines and the 15 second timeout are
    replaced by the order in which the drive searches finish. */
module FindFile {

  import opened Wrappers
  import opened Text

  // -----------------------------------------------------------------------
  // getAllDrives and isDriveAccessible (lines 51-89)

  const DRIVE_REMOVABLE := 2
  const DRIVE_FIXED := 3

  /** `isDriveAccessible`, on the value GetDriveTypeW returns. */
  predicate Accessible(driveType: int) {
    driveType == DRIVE_FIXED || driveType == DRIVE_REMOVABLE
  }

  /** The root `"X:\"` of the i-th drive letter. */
  function DrivePath(i: nat): (p: string)
    requires i < 26
    ensures |p| == 3 && p[0] == ('A' as int + i) as char && p[1..] == ":\\"
  {
    [('A' as int + i) as char] + ":\\"
  }

  predicate BitSet(mask: bv64, i: nat)
    requires i < 64
  {
    mask & (1 << i) != 0
  }

  /** The drives among the first n letters whose bit is set and whose type
      is accessible, in letter order. */
  function DrivesBelow(mask: bv64, driveType: string -> int, n: nat): (r: seq<string>)
    requires n <= 26
    ensures |r| <= n
  {
    if n == 0 then []
    else
      DrivesBelow(mask, driveType, n - 1)
      + if BitSet(mask, n - 1) && Accessible(driveType(DrivePath(n - 1))) then [DrivePath(n - 1)] else []
  }

  /** What `getAllDrives` returns. */
  function Drives(mask: bv64, driveType: string -> int): seq<string> {
    if mask == 0 then [] else DrivesBelow(mask, driveType, 26)
  }

  method GetAllDrives(mask: bv64, driveType: string -> int) returns (drives: seq<string>)
    ensures drives == Drives(mask, driveType)
  {
    drives := [];
    if mask == 0 {
      return;
    }
    for i := 0 to 26
      invariant drives == DrivesBelow(mask, driveType, i)
    {
      if mask & (1 << i) != 0 {
        var drivePath := DrivePath(i);
        if Accessible(driveType(drivePath)) {
          drives := drives + [drivePath];
        }
      }
    }
  }

  /** The letters listed among the first n are exactly those with the bit
      set and an accessible type, each once, in ascending letter order. */
  lemma {:induction false} DrivesBelowSpec(mask: bv64, driveType: string -> int, n: nat)
    requires n <= 26
    ensures var r := DrivesBelow(mask, driveType, n);
      && (forall k :: 0 <= k < |r| ==> |r[k]| == 3 && r[k][1..] == ":\\" && 'A' <= r[k][0] < ('A' as int + n) as char)
      && (forall j, k :: 0 <= j < k < |r| ==> r[j][0] < r[k][0])
      && (forall i :: 0 <= i < n ==>
            (DrivePath(i) in r <==> BitSet(mask, i) && Accessible(driveType(DrivePath(i)))))
  {
    if n > 0 {
      DrivesBelowSpec(mask, driveType, n - 1);
      var r0 := DrivesBelow(mask, driveType, n - 1);
      assert forall i :: 0 <= i < n - 1 ==> DrivePath(i) != DrivePath(n - 1) by {
        forall i | 0 <= i < n - 1 ensures DrivePath(i) != DrivePath(n - 1) {
          assert DrivePath(i)[0] != DrivePath(n - 1)[0];
        }
      }
    }
  }

  /** getAllDrives lists `"X:\"` for letter i iff bit i is set and the
      drive is accessible, in ascending letter order, at most 26 drives;
      a zero mask gives none. */
  lemma DrivesSpec(mask: bv64, driveType: string -> int)
    ensures mask == 0 ==> Drives(mask, driveType) == []
    ensures |Drives(mask, driveType)| <= 26
    ensures forall k :: 0 <= k < |Drives(mask, driveType)| ==> |Drives(mask, driveType)[k]| == 3
    ensures forall j, k :: 0 <= j < k < |Drives(mask, driveType)| ==>
      Drives(mask, driveType)[j][0] < Drives(mask, driveType)[k][0]
    ensures forall i :: 0 <= i < 26 ==>
      (DrivePath(i) in Drives(mask, driveType) <==> BitSet(mask, i) && Accessible(driveType(DrivePath(i))))
  {
    DrivesBelowSpec(mask, driveType, 26);
    if mask == 0 {
      forall i | 0 <= i < 26 ensures !BitSet(mask, i) { }
    }
  }

  /** Bits 26 and above of the mask play no part. */
  lemma {:induction false} HighBitsIgnored(mask: bv64, driveType: string -> int, n: nat)
    requires n <= 26
    ensures DrivesBelow(mask, driveType, n) == DrivesBelow(mask & 0x3FF_FFFF, driveType, n)
  {
    if n > 0 {
      HighBitsIgnored(mask, driveType, n - 1);
      LowBitKept(mask, n - 1);
    }
  }

  lemma LowBitKept(mask: bv64, i: nat)
    requires i < 26
    ensures BitSet(mask, i) == BitSet(mask & 0x3FF_FFFF, i)
  {
  }

  // -----------------------------------------------------------------------
  // searchFileInDrive (lines 91-121)

  /** One call of the WalkDir callback: an entry, or an error; `permission`
      says whether `os.IsPermission` holds for it. */
  datatype WalkStep = Entry(path: string, name: string, isDir: bool) | WalkError(permission: bool)

  predicate Matches(s: WalkStep, fileName: string) {
    s.Entry? && !s.isDir && EqualFold(s.name, fileName)
  }

  /** The steps the walk gets through: up to, not including, the first
      error that is not a permission error, which ends the walk. */
  function Walked(steps: seq<WalkStep>): (r: seq<WalkStep>)
    ensures |r| <= |steps| && r == steps[..|r|]
    ensures forall i :: 0 <= i < |r| ==> !(r[i].WalkError? && !r[i].permission)
    ensures |r| < |steps| ==> steps[|r|].WalkError? && !steps[|r|].permission
  {
    if steps == [] then []
    else if steps[0].WalkError? && !steps[0].permission then []
    else [steps[0]] + Walked(steps[1..])
  }

  /** The path of the last matching step, or "". */
  function LastMatch(steps: seq<WalkStep>, fileName: string): string {
    if steps == [] then ""
    else if Matches(steps[|steps| - 1], fileName) then steps[|steps| - 1].path
    else LastMatch(steps[..|steps| - 1], fileName)
  }

  /** What `searchFileInDrive` returns (cancellation aside). */
  function SearchResult(steps: seq<WalkStep>, fileName: string): string {
    LastMatch(Walked(steps), fileName)
  }

  method SearchFileInDrive(steps: seq<WalkStep>, fileName: string) returns (result: string, walkErr: bool)
    ensures result == SearchResult(steps, fileName)
    ensures walkErr <==> |Walked(steps)| < |steps|
  {
    result := "";
    walkErr := false;
    var i := 0;
    while i < |steps|
      invariant 0 <= i <= |steps|
      invariant i <= |Walked(steps)|
      invariant steps[..i] == Walked(steps)[..i]
      invariant result == LastMatch(steps[..i], fileName)
    {
      var s := steps[i];
      if s.WalkError? {
        if s.permission {
          assert steps[..i + 1][..i] == steps[..i];
          i := i + 1;
          continue;
        }
        walkErr := true;
        break;
      }
      assert steps[..i + 1][..i] == steps[..i];
      if !s.isDir && EqualFold(s.name, fileName) {
        result := s.path;
      }
      i := i + 1;
    }
    if !walkErr {
      assert steps[..i] == steps;
    }
  }

  /** A non-empty result is the path of a matching file the walk reached,
      and no later reached step matches; "" means none matched. */
  lemma {:induction false} LastMatchSpec(steps: seq<WalkStep>, fileName: string)
    ensures (forall i :: 0 <= i < |steps| && Matches(steps[i], fileName) ==> steps[i].path != "") ==>
      (LastMatch(steps, fileName) == "" <==> forall i :: 0 <= i < |steps| ==> !Matches(steps[i], fileName))
    ensures (exists i :: 0 <= i < |steps| && Matches(steps[i], fileName)) ==>
      exists i :: 0 <= i < |steps| && Matches(steps[i], fileName)
        && LastMatch(steps, fileName) == steps[i].path
        && forall j :: i < j < |steps| ==> !Matches(steps[j], fileName)
  {
    if steps != [] {
      var init := steps[..|steps| - 1];
      LastMatchSpec(init, fileName);
      assert forall i :: 0 <= i < |init| ==> init[i] == steps[i];
      if !Matches(steps[|steps| - 1], fileName) && exists i :: 0 <= i < |steps| && Matches(steps[i], fileName) {
        var k :| 0 <= k < |steps| && Matches(steps[k], fileName);
        assert k < |init| && Matches(init[k], fileName);
      }
    }
  }

  /** A permission error anywhere in the walk changes nothing. */
  lemma {:induction false} PermissionErrorIgnored(before: seq<WalkStep>, after: seq<WalkStep>, fileName: string)
    ensures SearchResult(before + [WalkError(true)] + after, fileName) == SearchResult(before + after, fileName)
  {
    WalkedSkip(before, after);
    if |Walked(before)| == |before| {
      assert Walked(before) == before;
      LastMatchAppend(before, [WalkError(true)], Walked(after), fileName);
    }
  }

  lemma WalkedSkip(before: seq<WalkStep>, after: seq<WalkStep>)
    ensures |Walked(before)| == |before| ==>
      Walked(before + [WalkError(true)] + after) == before + [WalkError(true)] + Walked(after)
      && Walked(before + after) == before + Walked(after)
    ensures |Walked(before)| < |before| ==>
      Walked(before + [WalkError(true)] + after) == Walked(before) && Walked(before + after) == Walked(before)
  {
    assert before + [WalkError(true)] + after == before + ([WalkError(true)] + after);
    WalkedConcat(before, [WalkError(true)] + after);
    WalkedConcat(before, after);
    assert ([WalkError(true)] + after)[1..] == after;
  }

  /** Walking a concatenation: the walk goes on into the second part only
      if it got through the whole first part. */
  lemma {:induction false} WalkedConcat(u: seq<WalkStep>, v: seq<WalkStep>)
    ensures |Walked(u)| == |u| ==> Walked(u + v) == u + Walked(v)
    ensures |Walked(u)| < |u| ==> Walked(u + v) == Walked(u)
  {
    if u == [] {
      assert u + v == v;
    } else {
      assert (u + v)[0] == u[0];
      assert (u + v)[1..] == u[1..] + v;
      WalkedConcat(u[1..], v);
      if !(u[0].WalkError? && !u[0].permission) {
        assert [u[0]] + u[1..] == u;
      }
    }
  }

  lemma {:induction false} LastMatchAppend(w: seq<WalkStep>, mid: seq<WalkStep>, tail: seq<WalkStep>, fileName: string)
    requires forall i :: 0 <= i < |mid| ==> mid[i].WalkError?
    ensures LastMatch(w + mid + tail, fileName) == LastMatch(w + tail, fileName)
  {
    if tail == [] {
      assert w + mid + tail == w + mid;
      assert w + tail == w;
      LastMatchSkipErrors(w, mid, fileName);
    } else {
      var t0 := tail[..|tail| - 1];
      assert (w + mid + tail)[..|w + mid + tail| - 1] == w + mid + t0;
      assert (w + tail)[..|w + tail| - 1] == w + t0;
      assert (w + mid + tail)[|w + mid + tail| - 1] == tail[|tail| - 1] == (w + tail)[|w + tail| - 1];
      LastMatchAppend(w, mid, t0, fileName);
    }
  }

  lemma {:induction false} LastMatchSkipErrors(w: seq<WalkStep>, mid: seq<WalkStep>, fileName: string)
    requires forall i :: 0 <= i < |mid| ==> mid[i].WalkError?
    ensures LastMatch(w + mid, fileName) == LastMatch(w, fileName)
  {
    if mid == [] {
      assert w + mid == w;
    } else {
      var m0 := mid[..|mid| - 1];
      assert (w + mid)[..|w + mid| - 1] == w + m0;
      assert (w + mid)[|w + mid| - 1] == mid[|mid| - 1];
      LastMatchSkipErrors(w, m0, fileName);
    }
  }

  // -----------------------------------------------------------------------
  // FindFileInAllDrives (lines 16-49)

  /** The result of the race: the first search, in finishing order, that
      found something; "" when none did before the timeout. `finished`
      lists the drive indices whose search ended before the timeout, in
      the order they ended. A search that finds nothing sends nothing. */
  function FirstFound(results: seq<string>, finished: seq<nat>): string {
    if finished == [] then ""
    else if finished[0] < |results| && results[finished[0]] != "" then results[finished[0]]
    else FirstFound(results, finished[1..])
  }

  /** The result of each drive's search, drive by drive. */
  function DriveResults(drives: seq<string>, walks: string -> seq<WalkStep>, fileName: string): (r: seq<string>)
    ensures |r| == |drives| && forall i :: 0 <= i < |drives| ==> r[i] == SearchResult(walks(drives[i]), fileName)
  {
    seq(|drives|, i requires 0 <= i < |drives| => SearchResult(walks(drives[i]), fileName))
  }

  method FindFileInAllDrives(mask: bv64, driveType: string -> int, walks: string -> seq<WalkStep>,
                             fileName: string, finished: seq<nat>)
    returns (found: string)
    ensures Drives(mask, driveType) == [] ==> found == ""
    ensures Drives(mask, driveType) != [] ==>
      found == FirstFound(DriveResults(Drives(mask, driveType), walks, fileName), finished)
  {
    var drives := GetAllDrives(mask, driveType);
    if |drives| == 0 {
      return "";
    }
    var results := [];
    for k := 0 to |drives|
      invariant |results| == k
      invariant forall i :: 0 <= i < k ==> results[i] == SearchResult(walks(drives[i]), fileName)
    {
      var r, _ := SearchFileInDrive(walks(drives[k]), fileName);
      results := results + [r];
    }
    assert results == DriveResults(drives, walks, fileName);
    found := "";
    var j := 0;
    while j < |finished|
      invariant 0 <= j <= |finished|
      invariant FirstFound(results, finished) == FirstFound(results, finished[j..])
    {
      if finished[j] < |results| && results[finished[j]] != "" {
        found := results[finished[j]];
        return;
      }
      assert finished[j..][1..] == finished[j + 1..];
      j := j + 1;
    }
  }

  /** The race yields "" or the result of some drive's search, and that
      result is never "" when it comes from a drive. */
  lemma {:induction false} FirstFoundIsSomeResult(results: seq<string>, finished: seq<nat>)
    ensures FirstFound(results, finished) == ""
      || exists i :: 0 <= i < |results| && results[i] == FirstFound(results, finished)
    ensures (forall i :: 0 <= i < |results| ==> results[i] == "") ==> FirstFound(results, finished) == ""
  {
    if finished != [] {
      FirstFoundIsSomeResult(results, finished[1..]);
    }
  }
}
