/** The RemoteDesktop portal (src/remote_desktop.rs): device selection, the
    screen-cast sources it shares, stream start-up and the single hand-out
    of the EIS client socket. Its restore-data codec, source-type rule and
    thread start-up are the ScreenCast portal's. */
module RemoteDesktop {
  import opened Wrappers
  import W = Wayland
  import SC = ScreenCastDialog
  import SCN = ScreenCast
  import P = Portal

  const DEVICE_KEYBOARD: bv32 := 1
  const DEVICE_POINTER: bv32 := 2
  const DEVICE_TOUCHSCREEN: bv32 := 4

  /** The `AvailableDeviceTypes` property and the interface version. */
  const AVAILABLE_DEVICE_TYPES: bv32 := DEVICE_KEYBOARD | DEVICE_POINTER
  const VERSION: nat := 2

  const EIS_UNAVAILABLE: string := "EIS connection unavailable"

  /** What a stream reports: its position (outputs only), its size and its
      source type. */
  datatype StreamProps = StreamProps(position: Option<(int, int)>, size: (int, int), sourceType: bv32)

  class SessionData {
    var deviceTypes: bv32
    var threads: seq<SCN.Thread<StreamProps>>
    var cursorMode: Option<nat>
    var multiple: bool
    var sourceTypes: bv32
    var persisted: Option<SCN.Persisted>
    var eisClient: Option<nat>
    var closed: bool

    /** `SessionData::default()`. */
    constructor()
      ensures deviceTypes == 0 && threads == [] && cursorMode == None && !multiple
      ensures sourceTypes == 0 && persisted == None && eisClient == None && !closed
    {
      deviceTypes := 0;
      threads := [];
      cursorMode := None;
      multiple := false;
      sourceTypes := 0;
      persisted := None;
      eisClient := None;
      closed := false;
    }

    /** `SessionData::close`: stop every thread, drop the EIS client socket,
        mark closed. */
    method Close() returns (stopped: seq<SCN.Thread<StreamProps>>)
      modifies this
      ensures stopped == old(threads) && threads == [] && eisClient == None && closed
      ensures deviceTypes == old(deviceTypes) && cursorMode == old(cursorMode) && multiple == old(multiple)
      ensures sourceTypes == old(sourceTypes) && persisted == old(persisted)
    {
      stopped := threads;
      threads := [];
      eisClient := None;
      closed := true;
    }
  }

  /** `rsplit('/').next()`: the text after the last slash (all of it when
      there is none); the `"remote"` fallback cannot be reached. */
  function SessionId(handle: string): (id: string)
    ensures '/' !in id
    ensures |id| <= |handle| && id == handle[|handle| - |id|..]
    ensures |id| < |handle| ==> handle[|handle| - |id| - 1] == '/'
  {
    if handle == [] then []
    else if handle[|handle| - 1] == '/' then []
    else
      var init := handle[..|handle| - 1];
      assert handle == init + [handle[|handle| - 1]];
      SessionIdStep(init, handle[|handle| - 1], SessionId(init));
      SessionId(init) + [handle[|handle| - 1]]
  }

  /** A character other than '/' extends the last segment by one. */
  lemma SessionIdStep(init: string, c: char, rest: string)
    requires c != '/' && '/' !in rest
    requires |rest| <= |init| && rest == init[|init| - |rest|..]
    requires |rest| < |init| ==> init[|init| - |rest| - 1] == '/'
    ensures var h := init + [c];
      var id := rest + [c];
      '/' !in id && |id| <= |h| && id == h[|h| - |id|..]
      && (|id| < |h| ==> h[|h| - |id| - 1] == '/')
  {
    var h := init + [c];
    assert h[|h| - |rest| - 1..] == init[|init| - |rest|..] + [c];
  }

  /** `create_session`: a registration error is answered Other; otherwise
      the session id is the handle's last path segment. */
  method CreateSession(server: P.ObjectServer, sessionHandle: string, registrationFails: bool)
    returns (r: P.PortalResponse<string>, data: SessionData)
    modifies server
    ensures fresh(data) && data.threads == [] && data.eisClient == None && !data.closed
    ensures registrationFails ==> r == P.Other && server.registered == old(server.registered)
    ensures !registrationFails ==>
      r == P.Success(SessionId(sessionHandle))
      && server.registered == old(server.registered) + {(sessionHandle, P.SessionInterface)}
  {
    data := new SessionData();
    if registrationFails {
      return P.Other, data;
    }
    var _ := server.At(sessionHandle, P.SessionInterface);
    r := P.Success(SessionId(sessionHandle));
  }

  /** The device types a request selects: keyboard and pointer unless it
      names some, and never a bit beyond the three known ones. */
  function DeviceTypes(types: Option<bv32>): (r: bv32)
    ensures r & 0xffff_fff8 == 0
    ensures types.None? ==> r == DEVICE_KEYBOARD | DEVICE_POINTER
    ensures types.Some? ==> r & types.value == r
    ensures types.Some? ==> r | (types.value & 0xffff_fff8) == types.value
  {
    (if types.Some? then types.value else DEVICE_KEYBOARD | DEVICE_POINTER)
    & (DEVICE_KEYBOARD | DEVICE_POINTER | DEVICE_TOUCHSCREEN)
  }

  /** `select_devices`: Other when the session is unknown; otherwise record
      the device types and any recognised restore data. */
  method SelectDevices(session: SessionData?, types: Option<bv32>, restoreData: Option<SCN.RestoreData>)
    returns (resp: P.PortalResponse<()>)
    modifies session
    ensures session == null ==> resp == P.Other
    ensures session != null ==>
      resp == P.Success(())
      && session.deviceTypes == DeviceTypes(types)
      && session.persisted == SCN.AfterRestore(old(session.persisted), restoreData)
      && session.threads == old(session.threads) && session.sourceTypes == old(session.sourceTypes)
      && session.eisClient == old(session.eisClient) && session.closed == old(session.closed)
  {
    if session == null {
      return P.Other;
    }
    session.deviceTypes := DeviceTypes(types);
    if restoreData.Some? {
      var parsed := SCN.FromRestoreData(restoreData.value);
      if parsed.Ok? {
        session.persisted := Some(parsed.value);
      }
    }
    resp := P.Success(());
  }

  /** `select_sources`: the ScreenCast rule on this portal's session. */
  method SelectSources(session: SessionData?, options: SCN.SelectSourcesOptions) returns (resp: P.PortalResponse<()>)
    modifies session
    ensures session == null ==> resp == P.Other
    ensures session != null ==>
      resp == P.Success(())
      && session.cursorMode == options.cursorMode
      && session.multiple == (options.multiple == Some(true))
      && session.sourceTypes == SCN.NormalizeSourceTypes(options.types)
      && session.persisted == SCN.AfterRestore(old(session.persisted), options.restoreData)
      && session.deviceTypes == old(session.deviceTypes) && session.threads == old(session.threads)
      && session.eisClient == old(session.eisClient) && session.closed == old(session.closed)
  {
    if session == null {
      return P.Other;
    }
    session.cursorMode := options.cursorMode;
    session.multiple := if options.multiple.Some? then options.multiple.value else false;
    session.sourceTypes := SCN.NormalizeSourceTypes(options.types);
    if options.restoreData.Some? {
      var parsed := SCN.FromRestoreData(options.restoreData.value);
      if parsed.Ok? {
        session.persisted := Some(parsed.value);
      }
    }
    resp := P.Success(());
  }

  // ---------------------------------------------------------------------
  // Start

  function Area(g: W.Geometry): int
  {
    g.width * g.height
  }

  /** `max_by_key(width * height)`: a geometry of largest area, the last
      one among equals. */
  function LargestArea(gs: seq<W.Geometry>): (r: Option<W.Geometry>)
    ensures r.None? <==> gs == []
    ensures r.Some? ==> forall k | 0 <= k < |gs| :: Area(gs[k]) <= Area(r.value)
    ensures r.Some? ==> exists i | 0 <= i < |gs| ::
      gs[i] == r.value && forall k | i < k < |gs| :: Area(gs[k]) < Area(r.value)
  {
    if gs == [] then None
    else
      var n := |gs| - 1;
      var rest := LargestArea(gs[..n]);
      if rest.None? || Area(rest.value) <= Area(gs[n]) then
        Some(gs[n])
      else
        assert forall k | 0 <= k < n :: gs[..n][k] == gs[k];
        Some(rest.value)
  }

  /** The properties of an output's stream: the output's logical position
      and size (size (0, 0) when unknown); an output without info reports
      position (0, 0) and size (0, 0). */
  function OutputProps(infos: map<W.Output, W.OutputInfo>, o: W.Output): (p: StreamProps)
    ensures p.sourceType == SCN.SOURCE_TYPE_MONITOR
    ensures p.position.Some? <==> (o !in infos || infos[o].logicalPosition.Some?)
    ensures o in infos ==> p.position == infos[o].logicalPosition
    ensures o in infos && infos[o].logicalSize.Some? ==> p.size == infos[o].logicalSize.value
    ensures o !in infos || infos[o].logicalSize.None? ==> p.size == (0, 0)
    ensures o !in infos ==> p.position == Some((0, 0))
  {
    if o in infos then
      var info := infos[o];
      StreamProps(info.logicalPosition, if info.logicalSize.Some? then info.logicalSize.value else (0, 0),
                  SCN.SOURCE_TYPE_MONITOR)
    else StreamProps(Some((0, 0)), (0, 0), SCN.SOURCE_TYPE_MONITOR)
  }

  /** The properties of a window's stream: no position, and the size of its
      largest geometry ((0, 0) for an unknown window or one without any). */
  function ToplevelProps(infos: seq<W.ToplevelInfo>, t: W.Toplevel): (p: StreamProps)
    ensures p.position.None? && p.sourceType == SCN.SOURCE_TYPE_WINDOW
    ensures SCN.FindByHandle(infos, t).None? ==> p.size == (0, 0)
    ensures SCN.FindByHandle(infos, t).Some? ==>
      var gs := SCN.FindByHandle(infos, t).value.geometry;
      (gs == [] ==> p.size == (0, 0))
      && (gs != [] ==> exists i | 0 <= i < |gs| :: p.size == (gs[i].width, gs[i].height)
                         && forall k | 0 <= k < |gs| :: Area(gs[k]) <= gs[i].width * gs[i].height)
  {
    var info := SCN.FindByHandle(infos, t);
    var size := if info.Some? then
      (var g := LargestArea(info.value.geometry); if g.Some? then (g.value.width, g.value.height) else (0, 0))
    else (0, 0);
    StreamProps(None, size, SCN.SOURCE_TYPE_WINDOW)
  }

  /** The streams to start, in order: each output, then each toplevel. */
  function StreamRequests(infos: map<W.Output, W.OutputInfo>, toplevels: seq<W.ToplevelInfo>,
                          c: SC.CaptureSources): (reqs: seq<(W.CaptureSource, StreamProps)>)
    ensures |reqs| == |c.outputs| + |c.toplevels|
    ensures forall i | 0 <= i < |c.outputs| :: reqs[i] == (W.OutputSource(c.outputs[i]), OutputProps(infos, c.outputs[i]))
    ensures forall j | 0 <= j < |c.toplevels| ::
      reqs[|c.outputs| + j] == (W.ToplevelSource(c.toplevels[j]), ToplevelProps(toplevels, c.toplevels[j]))
  {
    seq(|c.outputs|, i requires 0 <= i < |c.outputs| =>
      (W.OutputSource(c.outputs[i]), OutputProps(infos, c.outputs[i])))
    + seq(|c.toplevels|, j requires 0 <= j < |c.toplevels| =>
      (W.ToplevelSource(c.toplevels[j]), ToplevelProps(toplevels, c.toplevels[j])))
  }

  datatype StartResult = StartResult(devices: bv32, streams: seq<(nat, StreamProps)>,
                                     persistMode: Option<nat>, restoreData: Option<SCN.RestoreData>)

  /** A started remote-desktop session reports monitor streams for the
      selected outputs, then window streams without a position for the
      selected toplevels. */
  lemma StreamsDescribeSelection(infos: map<W.Output, W.OutputInfo>, toplevels: seq<W.ToplevelInfo>,
                                 c: SC.CaptureSources, spawn: SCN.Spawner<StreamProps>, overlay: bool)
    requires SCN.AllStarted(StreamRequests(infos, toplevels, c), spawn, overlay)
    ensures var s := SCN.Streams(SCN.Started(StreamRequests(infos, toplevels, c), spawn, overlay));
      |s| == |c.outputs| + |c.toplevels|
      && (forall i | 0 <= i < |c.outputs| :: s[i].1.sourceType == SCN.SOURCE_TYPE_MONITOR)
      && (forall j | |c.outputs| <= j < |s| :: s[j].1.sourceType == SCN.SOURCE_TYPE_WINDOW && s[j].1.position.None?)
  {
    SCN.StartedAll(StreamRequests(infos, toplevels, c), spawn, overlay);
  }

  /** The task `start` runs inside `Request::run`. The consent prompt is
      always shown when there is a session and an output, whatever restore
      data the session holds; it offers screen sharing when any source type
      is set. `eisPair` is the client end of the EIS socket pair, if one
      could be created. */
  method Start(session: SessionData?, infos: map<W.Output, W.OutputInfo>, toplevels: seq<W.ToplevelInfo>,
               outputs: seq<W.Output>, prompt: Option<SC.CaptureSources>,
               spawn: SCN.Spawner<StreamProps>, eisPair: Option<nat>)
    returns (resp: P.PortalResponse<StartResult>, prompted: bool, includeScreencast: bool,
             stopped: seq<SCN.Thread<StreamProps>>)
    modifies session
    ensures session == null || outputs == [] ==> resp == P.Other && !prompted && stopped == []
    ensures session != null ==>
      session.closed == old(session.closed) && session.persisted == old(session.persisted)
      && session.deviceTypes == old(session.deviceTypes)
    ensures session != null && outputs != [] ==>
      var overlay := SCN.OverlayCursor(old(session.cursorMode));
      var reqs := if prompt.Some? then StreamRequests(infos, toplevels, prompt.value) else [];
      var started := SCN.Started(reqs, spawn, overlay);
      prompted && (includeScreencast <==> old(session.sourceTypes) != 0)
      && (prompt.None? ==> resp == P.Cancelled && stopped == [])
      && (prompt.Some? && !SCN.AllStarted(reqs, spawn, overlay) ==> resp == P.Other && stopped == started)
      && (prompt.Some? && SCN.AllStarted(reqs, spawn, overlay) && old(session.closed) ==>
            resp == P.Cancelled && stopped == started)
      && (prompt.Some? && SCN.AllStarted(reqs, spawn, overlay) && !old(session.closed) ==>
            stopped == [] && session.threads == started && session.eisClient == eisPair
            && resp == P.Success(StartResult(old(session.deviceTypes), SCN.Streams(started), None, None)))
    ensures session != null && !resp.Success? ==>
      session.threads == old(session.threads) && session.eisClient == old(session.eisClient)
    ensures resp.Success? ==> resp.results.restoreData.None? && resp.results.persistMode.None?
  {
    stopped := [];
    prompted := false;
    includeScreencast := false;
    if session == null {
      return P.Other, false, false, [];
    }
    var deviceTypes := session.deviceTypes;
    var cursorMode := if session.cursorMode.Some? then session.cursorMode.value else SCN.CURSOR_MODE_HIDDEN;
    var sourceTypes := session.sourceTypes;
    if outputs == [] {
      return P.Other, false, false, [];
    }

    prompted := true;
    includeScreencast := sourceTypes != 0;
    if prompt.None? {
      return P.Cancelled, prompted, includeScreencast, [];
    }
    var captureSources := prompt.value;

    var overlay := cursorMode == SCN.CURSOR_MODE_EMBEDDED;
    var started, failed := SCN.StartThreads(StreamRequests(infos, toplevels, captureSources), spawn, overlay);
    if failed {
      return P.Other, prompted, includeScreencast, started;
    }
    if session.closed {
      return P.Cancelled, prompted, includeScreencast, started;
    }

    var streams := SCN.Streams(started);
    session.threads := started;
    session.eisClient := eisPair;
    resp := P.Success(StartResult(deviceTypes, streams, None, None));
  }

  /** `ConnectToEIS`: the client socket is handed out at most once, and
      never for an unknown or closed session. */
  method ConnectToEis(session: SessionData?) returns (r: Result<nat, string>)
    modifies session
    ensures session == null ==> r == Err(EIS_UNAVAILABLE)
    ensures session != null && old(session.closed) ==> r == Err(EIS_UNAVAILABLE) && session.eisClient == old(session.eisClient)
    ensures session != null && !old(session.closed) ==>
      session.eisClient == None
      && (old(session.eisClient).Some? ==> r == Ok(old(session.eisClient).value))
      && (old(session.eisClient).None? ==> r == Err(EIS_UNAVAILABLE))
    ensures session != null ==>
      session.threads == old(session.threads) && session.closed == old(session.closed)
      && session.deviceTypes == old(session.deviceTypes)
  {
    if session == null {
      return Err(EIS_UNAVAILABLE);
    }
    if session.closed {
      return Err(EIS_UNAVAILABLE);
    }
    var fd := session.eisClient;
    session.eisClient := None;
    r := if fd.Some? then Ok(fd.value) else Err(EIS_UNAVAILABLE);
  }
}
