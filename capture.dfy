/** capture/capture.go: the capture session (the process-wide flag, stop
    signal and handle list of config/config.go), the choice of network
    devices, and the per-packet matching rule of a capture worker.
    Go's `regexp` is not modelled: a `Regex` is any function giving
    `FindStringSubmatch(payload)` for a pattern, `[]` standing for nil. */
module Capture {

  import opened Wrappers
  import opened Text
  import opened Errors
  import S = Settings

  type Regex = (string, string) -> seq<string>

  /** A `pcap.Interface`, as far as the selection looks at it. */
  datatype Device = Device(name: string, description: string)

  /** A callback invocation of a worker: `onServerFound(url)` or `onStreamKeyFound(key)`. */
  datatype Event = ServerFound(url: string) | StreamKeyFound(key: string)

  type Handle = nat

  /** `config.StopCapture`: nil before the first start, then an open or a
      closed channel. */
  datatype Signal = NilSignal | Open | Closed

  // -----------------------------------------------------------------------
  // Device selection (StartCapture, lines 43-56)

  /** The descriptions the automatic choice skips (case-sensitive). */
  predicate Denied(d: Device) {
    Contains(d.description, "Bluetooth") || Contains(d.description, "loopback")
  }

  predicate Eligible(d: Device, allow: seq<string>) {
    if allow == [] then !Denied(d) else d.description in allow
  }

  /** The devices kept from `all`, by a filter over the list. */
  function Selection(all: seq<Device>, allow: seq<string>): (r: seq<Device>)
    ensures |r| <= |all|
  {
    if all == [] then []
    else
      var init := Selection(all[..|all| - 1], allow);
      if Eligible(all[|all| - 1], allow) then init + [all[|all| - 1]] else init
  }

  /** The positions in `all` of the devices kept, in ascending order. */
  function EligibleIndices(all: seq<Device>, allow: seq<string>): (r: seq<nat>)
    ensures |r| <= |all|
    ensures forall i :: 0 <= i < |r| ==> r[i] < |all|
  {
    if all == [] then []
    else
      var init := EligibleIndices(all[..|all| - 1], allow);
      if Eligible(all[|all| - 1], allow) then init + [|all| - 1] else init
  }

  /** The selection is exactly the eligible devices of `all`, in the order
      of `all`: the i-th selected device sits at the i-th eligible position,
      positions increase, and a position is listed iff its device is eligible. */
  lemma {:induction false} SelectionInOrder(all: seq<Device>, allow: seq<string>)
    ensures var r, ix := Selection(all, allow), EligibleIndices(all, allow);
      && |ix| == |r|
      && (forall i :: 0 <= i < |r| ==> r[i] == all[ix[i]])
      && (forall i, j :: 0 <= i < j < |ix| ==> ix[i] < ix[j])
      && (forall k :: 0 <= k < |all| ==> (Eligible(all[k], allow) <==> k in ix))
  {
    if all != [] {
      var init := all[..|all| - 1];
      SelectionInOrder(init, allow);
      var ix0 := EligibleIndices(init, allow);
      assert forall k :: 0 <= k < |init| ==> all[k] == init[k];
      assert forall i :: 0 <= i < |ix0| ==> ix0[i] < |init|;
    }
  }

  /** Two consequences: with an empty allow-list the selection keeps
      precisely the devices whose description mentions neither "Bluetooth"
      nor "loopback"; otherwise precisely those whose description is listed,
      and names listed for no device add nothing. */
  lemma SelectionMembers(all: seq<Device>, allow: seq<string>, d: Device)
    ensures allow == [] ==> (d in Selection(all, allow) <==> d in all && !Denied(d))
    ensures allow != [] ==> (d in Selection(all, allow) <==> d in all && d.description in allow)
  {
    SelectionInOrder(all, allow);
    var r, ix := Selection(all, allow), EligibleIndices(all, allow);
    if d in r {
      var i :| 0 <= i < |r| && r[i] == d;
      assert all[ix[i]] == d;
    }
    if d in all && Eligible(d, allow) {
      var k :| 0 <= k < |all| && all[k] == d;
      var i :| 0 <= i < |ix| && ix[i] == k;
      assert r[i] == d;
    }
  }

  /** `SelectDevices` is the loop of StartCapture that appends to `devices`. */
  method SelectDevices(all: seq<Device>, allow: seq<string>) returns (devices: seq<Device>)
    ensures devices == Selection(all, allow)
  {
    devices := [];
    var i := 0;
    while i < |all|
      invariant 0 <= i <= |all|
      invariant devices == Selection(all[..i], allow)
    {
      assert all[..i + 1][..i] == all[..i];
      if |allow| == 0 {
        if Contains(all[i].description, "Bluetooth") || Contains(all[i].description, "loopback") {
          i := i + 1;
          continue;
        }
        devices := devices + [all[i]];
        i := i + 1;
        continue;
      }
      if all[i].description in allow {
        devices := devices + [all[i]];
      }
      i := i + 1;
    }
    assert all[..i] == all;
  }

  /** A worked example: the allow-list ["Wi-Fi"] picks the
      Wi-Fi device only; an empty allow-list drops the Bluetooth adapter. */
  lemma SelectionExample()
    ensures var eth, wlan, bt := Device("eth0", "Ethernet"), Device("wlan0", "Wi-Fi"), Device("bt0", "Bluetooth Adapter");
      && Selection([eth, wlan], ["Wi-Fi"]) == [wlan]
      && Selection([eth, wlan, bt], []) == [eth, wlan]
  {
    var eth, wlan, bt := Device("eth0", "Ethernet"), Device("wlan0", "Wi-Fi"), Device("bt0", "Bluetooth Adapter");
    assert OccursAt(bt.description, "Bluetooth", 0);
    assert !Contains(eth.description, "loopback") by {
      forall i | 0 <= i <= |eth.description| ensures !OccursAt(eth.description, "loopback", i) {
        if i == 0 { assert eth.description[0] != "loopback"[0]; }
      }
    }
    assert !Eligible(eth, ["Wi-Fi"]) && Eligible(wlan, ["Wi-Fi"]);
    assert Eligible(eth, []) && Eligible(wlan, []) && !Eligible(bt, []);
    assert [eth, wlan, bt][..2] == [eth, wlan];
    assert [eth, wlan][..1] == [eth];
    assert [eth][..0] == [];
    assert Selection([eth], []) == [eth];
    assert Selection([eth, wlan], []) == [eth, wlan];
    assert Selection([eth], ["Wi-Fi"]) == [];
  }

  function Names(ds: seq<Device>): (r: seq<string>)
    ensures |r| == |ds| && forall i :: 0 <= i < |ds| ==> r[i] == ds[i].name
  {
    seq(|ds|, i requires 0 <= i < |ds| => ds[i].name)
  }

  /** What StartCapture does: report through `onError`, or start one worker
      per selected device (the names it passes to `captureDevice`). */
  datatype StartOutcome = Reported(error: Error) | Started(workers: seq<string>)

  /** `StartCapture`, given the result of `pcap.FindAllDevs` and the
      configured allow-list. */
  method StartCapture(found: Result<seq<Device>, string>, allow: seq<string>) returns (r: StartOutcome)
    ensures found.Failure? ==> r == Reported(DeviceListFailed(found.error))
    ensures found.Success? && Selection(found.value, allow) == [] ==> r == Reported(NoUsableInterface)
    ensures found.Success? && Selection(found.value, allow) != [] ==>
      r == Started(Names(Selection(found.value, allow)))
  {
    if found.Failure? {
      return Reported(DeviceListFailed(found.error));
    }
    var devices := SelectDevices(found.value, allow);
    if |devices| == 0 {
      return Reported(NoUsableInterface);
    }
    var workers := [];
    for k := 0 to |devices|
      invariant workers == Names(devices[..k])
    {
      workers := workers + [devices[k].name];
    }
    assert devices[..|devices|] == devices;
    return Started(workers);
  }

  // -----------------------------------------------------------------------
  // The matching rule of captureDevice (lines 103-151)

  /** The server pattern in use: the configured one unless it is empty. */
  function ServerPattern(cur: S.Settings): (p: string)
    ensures cur.serverRegex == [] ==> p == S.DefaultServerRegex
    ensures cur.serverRegex != [] ==> p == cur.serverRegex
  {
    if |cur.serverRegex| == 0 then S.DefaultServerRegex else cur.serverRegex
  }

  /** The key patterns tried, in order: the default, then the configured one
      when it is non-empty and differs from the default. */
  function KeyPatterns(cur: S.Settings): (ps: seq<string>)
    ensures 1 <= |ps| <= 2 && ps[0] == S.DefaultStreamKeyRegex
    ensures |ps| == 2 <==> cur.streamKeyRegex != [] && cur.streamKeyRegex != S.DefaultStreamKeyRegex
    ensures |ps| == 2 ==> ps[1] == cur.streamKeyRegex
  {
    [S.DefaultStreamKeyRegex]
    + if |cur.streamKeyRegex| > 0 && cur.streamKeyRegex != S.DefaultStreamKeyRegex
      then [cur.streamKeyRegex] else []
  }

  /** A payload is examined only if it contains "rtmp://" once lower-cased. */
  predicate Examined(payload: Option<string>) {
    payload.Some? && Contains(ToLower(payload.value), "rtmp://")
  }

  /** The server step as the source writes it: `len(matches) >= 1` guards
      `matches[1]`, which is out of range for a pattern without a group. */
  datatype ServerStep = NoServer | Server(url: string) | IndexOutOfRange

  function ServerStepAsWritten(matches: seq<string>): ServerStep {
    if |matches| >= 1 then
      if |matches| >= 2 then Server(matches[1]) else IndexOutOfRange
    else NoServer
  }

  /** A configured server pattern without a capturing group, such as
      `rtmp://\S+`, matches with one submatch and makes the worker panic;
      a one-element match is the only one that does. */
  lemma GrouplessServerPatternPanics(matches: seq<string>)
    ensures ServerStepAsWritten(matches) == IndexOutOfRange <==> |matches| == 1
    ensures ServerStepAsWritten(["rtmp://push-rtmp-a.douyincdn.com/thirdgame"]) == IndexOutOfRange
  {
  }

  /** The corrected guard, `len(matches) >= 2` as on the key side: group 1
      is reported when the match has a group, and a group-less match is
      ignored instead of crashing. */
  function ServerEvents(matches: seq<string>): (r: seq<Event>)
    ensures |matches| >= 2 ==> r == [ServerFound(matches[1])]
    ensures |matches| < 2 ==> r == []
  {
    if |matches| >= 2 then [ServerFound(matches[1])] else []
  }

  /** Both guards agree unless the match has exactly one element. */
  lemma ServerGuardsAgree(matches: seq<string>)
    requires |matches| != 1
    ensures ServerStepAsWritten(matches) != IndexOutOfRange
    ensures ServerEvents(matches) == (if ServerStepAsWritten(matches).Server? then [ServerFound(ServerStepAsWritten(matches).url)] else [])
  {
  }

  /** The key reported for a payload: group 1 of the first pattern whose
      match has at least two submatches. */
  function FirstKey(patterns: seq<string>, payload: string, rx: Regex): Option<string> {
    if patterns == [] then None
    else if |rx(patterns[0], payload)| >= 2 then Some(rx(patterns[0], payload)[1])
    else FirstKey(patterns[1..], payload, rx)
  }

  /** FirstKey picks the first pattern that yields a group and no other. */
  lemma {:induction false} FirstKeyIsFirstMatch(patterns: seq<string>, payload: string, rx: Regex)
    ensures FirstKey(patterns, payload, rx).None? <==>
      forall i :: 0 <= i < |patterns| ==> |rx(patterns[i], payload)| < 2
    ensures FirstKey(patterns, payload, rx).Some? ==>
      exists i :: 0 <= i < |patterns| && |rx(patterns[i], payload)| >= 2
        && FirstKey(patterns, payload, rx).value == rx(patterns[i], payload)[1]
        && forall j :: 0 <= j < i ==> |rx(patterns[j], payload)| < 2
  {
    if patterns != [] && |rx(patterns[0], payload)| < 2 {
      var tail := patterns[1..];
      FirstKeyIsFirstMatch(tail, payload, rx);
      assert forall i :: 1 <= i < |patterns| ==> patterns[i] == tail[i - 1];
      if FirstKey(tail, payload, rx).Some? {
        var i :| 0 <= i < |tail| && |rx(tail[i], payload)| >= 2
          && FirstKey(tail, payload, rx).value == rx(tail[i], payload)[1]
          && forall j :: 0 <= j < i ==> |rx(tail[j], payload)| < 2;
        assert patterns[i + 1] == tail[i];
      }
    }
  }

  /** The loop over `streamPatterns` with its `break`. */
  method MatchKey(patterns: seq<string>, payload: string, rx: Regex) returns (key: Option<string>)
    ensures key == FirstKey(patterns, payload, rx)
  {
    var i := 0;
    while i < |patterns|
      invariant 0 <= i <= |patterns|
      invariant FirstKey(patterns, payload, rx) == FirstKey(patterns[i..], payload, rx)
    {
      var matches := rx(patterns[i], payload);
      if |matches| >= 2 {
        return Some(matches[1]);
      }
      assert patterns[i..][1..] == patterns[i + 1..];
      i := i + 1;
    }
    return None;
  }

  /** The callbacks one packet triggers. */
  function PacketEvents(payload: Option<string>, cur: S.Settings, rx: Regex): seq<Event> {
    if !Examined(payload) then []
    else
      ServerEvents(rx(ServerPattern(cur), payload.value))
      + match FirstKey(KeyPatterns(cur), payload.value, rx)
        case None => []
        case Some(k) => [StreamKeyFound(k)]
  }

  /** What one packet can trigger: nothing unless it is examined; then
      `onServerFound` with group 1 of the server match if it has a group,
      followed by at most one `onStreamKeyFound`, with the key FirstKey picks. */
  lemma PacketEventsShape(payload: Option<string>, cur: S.Settings, rx: Regex)
    ensures var r := PacketEvents(payload, cur, rx);
      && (!Examined(payload) ==> r == [])
      && (Examined(payload) ==>
            var m := rx(ServerPattern(cur), payload.value);
            var k := FirstKey(KeyPatterns(cur), payload.value, rx);
            && (|m| >= 2 <==> (r != [] && r[0].ServerFound?))
            && (|m| >= 2 ==> r[0] == ServerFound(m[1]))
            && (k.None? <==> forall e :: e in r ==> e.ServerFound?)
            && (k.Some? ==> r[|r| - 1] == StreamKeyFound(k.value))
            && |r| <= 2)
  {
    var r := PacketEvents(payload, cur, rx);
    if Examined(payload) {
      var k := FirstKey(KeyPatterns(cur), payload.value, rx);
      if k.Some? {
        assert r[|r| - 1] in r;
      }
    }
  }

  /** An empty configured server pattern behaves exactly as the default. */
  lemma EmptyServerPatternIsDefault(payload: Option<string>, cur: S.Settings, rx: Regex)
    ensures PacketEvents(payload, cur.(serverRegex := ""), rx)
         == PacketEvents(payload, cur.(serverRegex := S.DefaultServerRegex), rx)
  {
  }

  /** The callbacks of a sequence of packets, in arrival order. */
  function Trace(packets: seq<Option<string>>, cur: S.Settings, rx: Regex): seq<Event> {
    if packets == [] then []
    else Trace(packets[..|packets| - 1], cur, rx) + PacketEvents(packets[|packets| - 1], cur, rx)
  }

  /** The worker keeps no state between packets: the events of two runs of
      packets are the events of each, one after the other. */
  lemma {:induction false} TraceAppend(ps: seq<Option<string>>, qs: seq<Option<string>>, cur: S.Settings, rx: Regex)
    ensures Trace(ps + qs, cur, rx) == Trace(ps, cur, rx) + Trace(qs, cur, rx)
  {
    if qs == [] {
      assert ps + qs == ps;
    } else {
      var q0 := qs[..|qs| - 1];
      assert (ps + qs)[..|ps + qs| - 1] == ps + q0;
      assert (ps + qs)[|ps + qs| - 1] == qs[|qs| - 1];
      TraceAppend(ps, q0, cur, rx);
    }
  }

  /** No "found" latch: a packet that matches again is reported again. */
  lemma RepeatedMatchReportedAgain(ps: seq<Option<string>>, p: Option<string>, cur: S.Settings, rx: Regex)
    requires Examined(p) && |rx(ServerPattern(cur), p.value)| >= 2
    ensures var url := rx(ServerPattern(cur), p.value)[1];
      multiset(Trace(ps + [p, p], cur, rx))[ServerFound(url)]
        >= multiset(Trace(ps, cur, rx))[ServerFound(url)] + 2
  {
    TraceAppend(ps, [p, p], cur, rx);
    TraceAppend([p], [p], cur, rx);
    assert [p] + [p] == [p, p];
    assert Trace([p], cur, rx) == PacketEvents(p, cur, rx);
  }

  /** Every callback comes from one examined packet. */
  lemma {:induction false} EventsComeFromExaminedPackets(ps: seq<Option<string>>, cur: S.Settings, rx: Regex, e: Event)
    requires e in Trace(ps, cur, rx)
    ensures exists i :: 0 <= i < |ps| && Examined(ps[i]) && e in PacketEvents(ps[i], cur, rx)
  {
    var init := ps[..|ps| - 1];
    if e in Trace(init, cur, rx) {
      EventsComeFromExaminedPackets(init, cur, rx, e);
      var i :| 0 <= i < |init| && Examined(init[i]) && e in PacketEvents(init[i], cur, rx);
      assert ps[i] == init[i];
    } else {
      assert e in PacketEvents(ps[|ps| - 1], cur, rx);
    }
  }

  // -----------------------------------------------------------------------
  // The session state

  class Session {
    var capturing: bool        // config.IsCapturing
    var stop: Signal           // config.StopCapture
    var handles: seq<Handle>   // config.Handles
    var closed: seq<Handle>    // every handle.Close() performed, in order
    var abandoned: nat         // open stop signals replaced without being closed

    /** The flag is set exactly while the current stop signal is open. */
    ghost predicate Valid()
      reads this
    {
      capturing <==> stop == Open
    }

    constructor ()
      ensures Valid()
      ensures !capturing && stop == NilSignal && handles == [] && closed == [] && abandoned == 0
    {
      capturing, stop, handles, closed, abandoned := false, NilSignal, [], [], 0;
    }

    /** The start half the callers perform before `StartCapture`:
        `IsCapturing = true; StopCapture = make(chan struct{})`. A signal
        that was still open is dropped without being closed. */
    method Begin()
      requires Valid()
      modifies this
      ensures Valid()
      ensures capturing && stop == Open
      ensures handles == old(handles) && closed == old(closed)
      ensures abandoned == old(abandoned) + (if old(capturing) then 1 else 0)
    {
      if stop == Open {
        abandoned := abandoned + 1;
      }
      capturing := true;
      stop := Open;
    }

    /** `StopCapturing`. Closing a closed or nil channel panics in Go; the
        assertion shows the flag guard rules that out. */
    method StopCapturing()
      requires Valid()
      modifies this
      ensures Valid()
      ensures !capturing
      ensures old(capturing) ==> stop == Closed && handles == [] && closed == old(closed) + old(handles)
      ensures !old(capturing) ==> stop == old(stop) && handles == old(handles) && closed == old(closed)
      ensures abandoned == old(abandoned)
    {
      if capturing {
        capturing := false;
        assert stop == Open;
        stop := Closed;
        var i := 0;
        while i < |handles|
          invariant 0 <= i <= |handles|
          invariant closed == old(closed) + handles[..i]
          invariant handles == old(handles) && !capturing && stop == Closed && abandoned == old(abandoned)
        {
          closed := closed + [handles[i]];
          i := i + 1;
        }
        assert handles[..i] == handles;
        handles := [];
      }
    }

    /** Calling `StopCapturing` a second time changes nothing. */
    method StopTwice()
      requires Valid()
      modifies this
      ensures Valid() && !capturing
      ensures old(capturing) ==> stop == Closed && handles == [] && closed == old(closed) + old(handles)
      ensures !old(capturing) ==> stop == old(stop) && handles == old(handles) && closed == old(closed)
    {
      StopCapturing();
      ghost var afterFirst := closed;
      StopCapturing();
      assert closed == afterFirst;
    }

    /** `handleCapture`: the capture button starts a session when none is
        running and stops the running one otherwise. */
    method HandleCapture(found: Result<seq<Device>, string>, cur: S.Settings) returns (started: Option<StartOutcome>)
      requires Valid()
      modifies this
      ensures Valid()
      ensures !old(capturing) ==>
        capturing && stop == Open && handles == old(handles) && closed == old(closed)
        && started == Some(StartOutcomeOf(found, cur.networkInterfaces))
      ensures old(capturing) ==>
        !capturing && stop == Closed && handles == [] && started == None
        && closed == old(closed) + old(handles)
    {
      if !capturing {
        Begin();
        var r := StartCapture(found, cur.networkInterfaces);
        return Some(r);
      }
      StopCapturing();
      return None;
    }

    /** The packet loop of `captureDevice`: each round first looks at the
        stop signal and leaves once it is closed. `packets` are the reads
        made before the signal is seen: `None` for a read error or a packet
        without application layer, else the payload. The server side uses
        the corrected guard of `ServerEvents` (see README, "Findings"). */
    method ScanPackets(packets: seq<Option<string>>, cur: S.Settings, rx: Regex) returns (events: seq<Event>)
      ensures stop == Closed ==> events == []
      ensures stop != Closed ==> events == Trace(packets, cur, rx)
    {
      events := [];
      var i := 0;
      while i < |packets|
        invariant 0 <= i <= |packets|
        invariant stop == Closed ==> i == 0 && events == []
        invariant stop != Closed ==> events == Trace(packets[..i], cur, rx)
      {
        if stop == Closed {
          return;
        }
        var packet := packets[i];
        assert packets[..i + 1] == packets[..i] + [packet];
        i := i + 1;
        if packet.None? {
          continue;
        }
        var payload := packet.value;
        if Contains(ToLower(payload), "rtmp://") {
          var serverRegexCompile := cur.serverRegex;
          if |serverRegexCompile| == 0 {
            serverRegexCompile := S.DefaultServerRegex;
          }
          var matches := rx(serverRegexCompile, payload);
          if |matches| >= 2 {
            events := events + [ServerFound(matches[1])];
          }
          var key := MatchKey(KeyPatterns(cur), payload, rx);
          if key.Some? {
            events := events + [StreamKeyFound(key.value)];
          }
        }
      }
      assert packets[..i] == packets;
    }

    /** `captureDevice`: a worker whose handle does not open does nothing;
        otherwise it registers its handle, scans packets if the "tcp" filter
        was accepted, and closes its handle when it returns (the deferred
        close). The interleaving with a concurrent `StopCapturing` is not
        modelled, and the scan uses the corrected server guard. */
    method CaptureDevice(device: Option<Handle>, filterOk: bool, packets: seq<Option<string>>,
                         cur: S.Settings, rx: Regex)
      returns (events: seq<Event>)
      requires Valid()
      modifies this
      ensures Valid()
      ensures capturing == old(capturing) && stop == old(stop) && abandoned == old(abandoned)
      ensures device.None? ==> events == [] && handles == old(handles) && closed == old(closed)
      ensures device.Some? ==>
        && handles == old(handles) + [device.value]
        && closed == old(closed) + [device.value]
        && events == (if filterOk && stop != Closed then Trace(packets, cur, rx) else [])
    {
      if device.None? {
        return [];
      }
      var handle := device.value;
      handles := handles + [handle];
      events := [];
      if filterOk {
        events := ScanPackets(packets, cur, rx);
      }
      closed := closed + [handle];
    }
  }

  /** StartCapture as a function, for the contracts of callers. */
  function StartOutcomeOf(found: Result<seq<Device>, string>, allow: seq<string>): StartOutcome {
    if found.Failure? then Reported(DeviceListFailed(found.error))
    else if Selection(found.value, allow) == [] then Reported(NoUsableInterface)
    else Started(Names(Selection(found.value, allow)))
  }
}
