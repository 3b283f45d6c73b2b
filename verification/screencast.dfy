/** The ScreenCast portal (src/screencast.rs): per-session options, the
    restore data that lets a later session skip the prompt, and stream
    start-up. A screencast thread (`ScreencastThread::new`) is an outcome
    given by `spawn`: the PipeWire node id, or an error. */
module ScreenCast {
  import opened Wrappers
  import W = Wayland
  import SC = ScreenCastDialog
  import P = Portal

  const CURSOR_MODE_HIDDEN: nat := 1
  const CURSOR_MODE_EMBEDDED: nat := 2
  const CURSOR_MODE_METADATA: nat := 4

  const SOURCE_TYPE_MONITOR: bv32 := 1
  const SOURCE_TYPE_WINDOW: bv32 := 2
  const SOURCE_TYPE_VIRTUAL: bv32 := 4

  /** The `AvailableSourceTypes` and `AvailableCursorModes` properties. */
  const AVAILABLE_SOURCE_TYPES: bv32 := SOURCE_TYPE_MONITOR | SOURCE_TYPE_WINDOW
  const AVAILABLE_CURSOR_MODES: nat := 3

  // ---------------------------------------------------------------------
  // Persisted capture sources

  /** Output names and toplevel identifiers, which survive a restart. */
  datatype Persisted = Persisted(outputs: seq<string>, toplevels: seq<string>)

  /** What the Wayland helper knows: output infos, the output currently
      carrying a name, and the toplevel list. */
  datatype Compositor = Compositor(outputInfos: map<W.Output, W.OutputInfo>,
                                   outputForName: map<string, W.Output>,
                                   toplevels: seq<W.ToplevelInfo>)

  /** The first toplevel info for a handle (`find` on the list). */
  function FindByHandle(infos: seq<W.ToplevelInfo>, h: W.Toplevel): (r: Option<W.ToplevelInfo>)
    ensures r.Some? ==> r.value in infos && r.value.foreignToplevel == h
    ensures r.None? ==> forall k | 0 <= k < |infos| :: infos[k].foreignToplevel != h
  {
    if infos == [] then None
    else if infos[0].foreignToplevel == h then Some(infos[0])
    else FindByHandle(infos[1..], h)
  }

  /** The first toplevel info with an identifier. */
  function FindByIdentifier(infos: seq<W.ToplevelInfo>, id: string): (r: Option<W.ToplevelInfo>)
    ensures r.Some? ==> r.value in infos && r.value.identifier == id
    ensures r.None? ==> forall k | 0 <= k < |infos| :: infos[k].identifier != id
  {
    if infos == [] then None
    else if infos[0].identifier == id then Some(infos[0])
    else FindByIdentifier(infos[1..], id)
  }

  predicate HasName(comp: Compositor, o: W.Output)
  {
    o in comp.outputInfos && comp.outputInfos[o].name.Some?
  }

  /** The reference definition of `from_capture_sources`: every output's
      name and every toplevel's identifier, or nothing if one is missing. */
  function PersistSources(comp: Compositor, c: SC.CaptureSources): Option<Persisted>
  {
    if (forall i | 0 <= i < |c.outputs| :: HasName(comp, c.outputs[i]))
       && (forall j | 0 <= j < |c.toplevels| :: FindByHandle(comp.toplevels, c.toplevels[j]).Some?)
    then Some(Persisted(
      seq(|c.outputs|, i requires 0 <= i < |c.outputs| && HasName(comp, c.outputs[i]) =>
        comp.outputInfos[c.outputs[i]].name.value),
      seq(|c.toplevels|, j requires 0 <= j < |c.toplevels| && FindByHandle(comp.toplevels, c.toplevels[j]).Some? =>
        FindByHandle(comp.toplevels, c.toplevels[j]).value.identifier)))
    else None
  }

  /** The reference definition of `to_capture_sources`: every name's output
      and every identifier's toplevel, or nothing if one is unresolved. */
  function ResolvePersisted(comp: Compositor, p: Persisted): Option<SC.CaptureSources>
  {
    if (forall i | 0 <= i < |p.outputs| :: p.outputs[i] in comp.outputForName)
       && (forall j | 0 <= j < |p.toplevels| :: FindByIdentifier(comp.toplevels, p.toplevels[j]).Some?)
    then Some(SC.CaptureSources(
      seq(|p.outputs|, i requires 0 <= i < |p.outputs| && p.outputs[i] in comp.outputForName =>
        comp.outputForName[p.outputs[i]]),
      seq(|p.toplevels|, j requires 0 <= j < |p.toplevels| && FindByIdentifier(comp.toplevels, p.toplevels[j]).Some? =>
        FindByIdentifier(comp.toplevels, p.toplevels[j]).value.foreignToplevel)))
    else None
  }

  /** `PersistedCaptureSources::from_capture_sources`: two loops that push,
      returning early on the first missing name or toplevel. */
  method FromCaptureSources(comp: Compositor, c: SC.CaptureSources) returns (r: Option<Persisted>)
    ensures r == PersistSources(comp, c)
  {
    var outputs: seq<string> := [];
    var i := 0;
    while i < |c.outputs|
      invariant 0 <= i <= |c.outputs|
      invariant |outputs| == i
      invariant forall k | 0 <= k < i :: HasName(comp, c.outputs[k]) && outputs[k] == comp.outputInfos[c.outputs[k]].name.value
    {
      var o := c.outputs[i];
      if o !in comp.outputInfos || comp.outputInfos[o].name.None? {
        assert !HasName(comp, c.outputs[i]);
        return None;
      }
      outputs := outputs + [comp.outputInfos[o].name.value];
      i := i + 1;
    }
    var toplevels: seq<string> := [];
    var j := 0;
    while j < |c.toplevels|
      invariant 0 <= j <= |c.toplevels|
      invariant |toplevels| == j
      invariant forall k | 0 <= k < j :: FindByHandle(comp.toplevels, c.toplevels[k]).Some?
                  && toplevels[k] == FindByHandle(comp.toplevels, c.toplevels[k]).value.identifier
    {
      var info := FindByHandle(comp.toplevels, c.toplevels[j]);
      if info.None? {
        return None;
      }
      toplevels := toplevels + [info.value.identifier];
      j := j + 1;
    }
    r := Some(Persisted(outputs, toplevels));
    assert outputs == PersistSources(comp, c).value.outputs;
    assert toplevels == PersistSources(comp, c).value.toplevels;
  }

  /** `PersistedCaptureSources::to_capture_sources`. */
  method ToCaptureSources(comp: Compositor, p: Persisted) returns (r: Option<SC.CaptureSources>)
    ensures r == ResolvePersisted(comp, p)
  {
    var outputs: seq<W.Output> := [];
    var i := 0;
    while i < |p.outputs|
      invariant 0 <= i <= |p.outputs|
      invariant |outputs| == i
      invariant forall k | 0 <= k < i :: p.outputs[k] in comp.outputForName && outputs[k] == comp.outputForName[p.outputs[k]]
    {
      if p.outputs[i] !in comp.outputForName {
        return None;
      }
      outputs := outputs + [comp.outputForName[p.outputs[i]]];
      i := i + 1;
    }
    var toplevels: seq<W.Toplevel> := [];
    var j := 0;
    while j < |p.toplevels|
      invariant 0 <= j <= |p.toplevels|
      invariant |toplevels| == j
      invariant forall k | 0 <= k < j :: FindByIdentifier(comp.toplevels, p.toplevels[k]).Some?
                  && toplevels[k] == FindByIdentifier(comp.toplevels, p.toplevels[k]).value.foreignToplevel
    {
      var info := FindByIdentifier(comp.toplevels, p.toplevels[j]);
      if info.None? {
        return None;
      }
      toplevels := toplevels + [info.value.foreignToplevel];
      j := j + 1;
    }
    r := Some(SC.CaptureSources(outputs, toplevels));
    assert outputs == ResolvePersisted(comp, p).value.outputs;
    assert toplevels == ResolvePersisted(comp, p).value.toplevels;
  }

  /** Resolution is all-or-nothing: it fails exactly when some name or
      identifier is unknown, and otherwise keeps order and length. */
  lemma ResolvePersistedAllOrNothing(comp: Compositor, p: Persisted)
    ensures ResolvePersisted(comp, p).None? <==>
      (exists i | 0 <= i < |p.outputs| :: p.outputs[i] !in comp.outputForName)
      || (exists j | 0 <= j < |p.toplevels| :: FindByIdentifier(comp.toplevels, p.toplevels[j]).None?)
    ensures ResolvePersisted(comp, p).Some? ==>
      var c := ResolvePersisted(comp, p).value;
      |c.outputs| == |p.outputs| && |c.toplevels| == |p.toplevels|
      && (forall i | 0 <= i < |p.outputs| :: c.outputs[i] == comp.outputForName[p.outputs[i]])
      && (forall j | 0 <= j < |p.toplevels| :: c.toplevels[j] == FindByIdentifier(comp.toplevels, p.toplevels[j]).value.foreignToplevel)
  {
  }

  /** When the compositor maps each selected output's name back to it and
      each selected toplevel's identifier back to it, persisting then
      resolving gives the selection back. */
  lemma PersistThenResolve(comp: Compositor, c: SC.CaptureSources)
    requires forall i | 0 <= i < |c.outputs| ::
      HasName(comp, c.outputs[i])
      && comp.outputInfos[c.outputs[i]].name.value in comp.outputForName
      && comp.outputForName[comp.outputInfos[c.outputs[i]].name.value] == c.outputs[i]
    requires forall j | 0 <= j < |c.toplevels| ::
      FindByHandle(comp.toplevels, c.toplevels[j]).Some?
      && FindByIdentifier(comp.toplevels, FindByHandle(comp.toplevels, c.toplevels[j]).value.identifier).Some?
      && FindByIdentifier(comp.toplevels, FindByHandle(comp.toplevels, c.toplevels[j]).value.identifier).value.foreignToplevel == c.toplevels[j]
    ensures PersistSources(comp, c).Some?
    ensures ResolvePersisted(comp, PersistSources(comp, c).value) == Some(c)
  {
    var p := PersistSources(comp, c).value;
    var r := ResolvePersisted(comp, p);
    assert r.Some?;
    assert r.value.outputs == c.outputs;
    assert r.value.toplevels == c.toplevels;
  }

  // ---------------------------------------------------------------------
  // Restore data

  /** The D-Bus values restore data carries. */
  datatype Variant = VString(s: string) | VU32(n: nat) | VArray(items: seq<Variant>) | VStruct(fields: seq<Variant>)

  /** The `(suv)` restore data: vendor, version and a variant. */
  datatype RestoreData = RestoreData(vendor: string, version: nat, data: Variant)

  const VENDOR: string := "COSMIC"
  const RESTORE_VERSION: nat := 1

  function StringArray(xs: seq<string>): (v: Variant)
    ensures v.VArray? && |v.items| == |xs|
  {
    VArray(seq(|xs|, i requires 0 <= i < |xs| => VString(xs[i])))
  }

  function Strings(items: seq<Variant>): Option<seq<string>>
  {
    if items == [] then Some([])
    else match (items[0], Strings(items[1..]))
      case (VString(s), Some(rest)) => Some([s] + rest)
      case _ => None
  }

  function StringsOf(v: Variant): Option<seq<string>>
  {
    if v.VArray? then Strings(v.items) else None
  }

  /** `From<PersistedCaptureSources> for RestoreData`. */
  function ToRestoreData(p: Persisted): (rd: RestoreData)
    ensures rd.vendor == VENDOR && rd.version == RESTORE_VERSION
  {
    RestoreData(VENDOR, RESTORE_VERSION, VStruct([StringArray(p.outputs), StringArray(p.toplevels)]))
  }

  /** `TryFrom<&RestoreData> for PersistedCaptureSources`: the vendor and
      version must be COSMIC and 1, and the data a structure of two string
      arrays. */
  function FromRestoreData(rd: RestoreData): (r: Result<Persisted, ()>)
    ensures r.Ok? ==> rd.vendor == VENDOR && rd.version == RESTORE_VERSION
  {
    if (rd.vendor, rd.version) != (VENDOR, RESTORE_VERSION) then Err(())
    else match rd.data
      case VStruct(fields) =>
        if |fields| != 2 then Err(())
        else (match (StringsOf(fields[0]), StringsOf(fields[1]))
          case (Some(outputs), Some(toplevels)) => Ok(Persisted(outputs, toplevels))
          case _ => Err(()))
      case _ => Err(())
  }

  lemma {:induction false} StringsRoundTrip(xs: seq<string>)
    ensures Strings(StringArray(xs).items) == Some(xs)
  {
    if xs != [] {
      StringsRoundTrip(xs[1..]);
      assert StringArray(xs).items[1..] == StringArray(xs[1..]).items;
      assert [xs[0]] + xs[1..] == xs;
    }
  }

  /** Restore data the portal hands out is accepted back unchanged. */
  lemma RestoreRoundTrip(p: Persisted)
    ensures FromRestoreData(ToRestoreData(p)) == Ok(p)
  {
    StringsRoundTrip(p.outputs);
    StringsRoundTrip(p.toplevels);
  }

  // ---------------------------------------------------------------------
  // Sessions

  /** A running screencast thread: its PipeWire node, what it captures and
      the stream properties it reports (here the source type; the remote
      desktop portal adds position and size). */
  datatype Thread<Props> = Thread(nodeId: nat, source: W.CaptureSource, props: Props)

  /** `ScreencastThread::new` for a source, the cursor overlay flag and the
      stream properties. */
  type Spawner<!Props> = (W.CaptureSource, bool, Props) -> Result<nat, string>

  class SessionData {
    var threads: seq<Thread<bv32>>
    var cursorMode: Option<nat>
    var multiple: bool
    var sourceTypes: bv32
    var persisted: Option<Persisted>
    var closed: bool

    /** `SessionData::default()`. */
    constructor()
      ensures threads == [] && cursorMode == None && !multiple && sourceTypes == 0
      ensures persisted == None && !closed
    {
      threads := [];
      cursorMode := None;
      multiple := false;
      sourceTypes := 0;
      persisted := None;
      closed := false;
    }

    /** `SessionData::close`: stop every thread, forget them, mark closed. */
    method Close() returns (stopped: seq<Thread<bv32>>)
      modifies this
      ensures stopped == old(threads) && threads == [] && closed
      ensures cursorMode == old(cursorMode) && multiple == old(multiple)
      ensures sourceTypes == old(sourceTypes) && persisted == old(persisted)
    {
      stopped := threads;
      threads := [];
      closed := true;
    }
  }

  /** `create_session`: register a Session object over fresh session data.
      A registration error panics (`unwrap`). */
  method CreateSession(server: P.ObjectServer, sessionHandle: string, registrationFails: bool)
    returns (r: Outcome<P.PortalResponse<string>>, data: SessionData)
    modifies server
    ensures fresh(data) && data.threads == [] && !data.closed && data.persisted == None
    ensures registrationFails ==> r == Panicked && server.registered == old(server.registered)
    ensures !registrationFails ==>
      r == Returned(P.Success("foo"))
      && server.registered == old(server.registered) + {(sessionHandle, P.SessionInterface)}
  {
    data := new SessionData();
    if registrationFails {
      return Panicked, data;
    }
    var _ := server.At(sessionHandle, P.SessionInterface);
    r := Returned(P.Success("foo"));
  }

  /** `from_bits_truncate(types.unwrap_or(0))`, with an empty set replaced
      by Monitor. */
  function NormalizeSourceTypes(types: Option<bv32>): (r: bv32)
    ensures r != 0 && r & 0xffff_fff8 == 0
    ensures types.Some? && types.value & 7 != 0 ==> r == types.value & 7
    ensures types.None? || types.value & 7 == 0 ==> r == SOURCE_TYPE_MONITOR
  {
    var known := if types.Some? then types.value & (SOURCE_TYPE_MONITOR | SOURCE_TYPE_WINDOW | SOURCE_TYPE_VIRTUAL) else 0;
    if known == 0 then SOURCE_TYPE_MONITOR else known
  }

  datatype SelectSourcesOptions = SelectSourcesOptions(types: Option<bv32>, multiple: Option<bool>,
                                                       cursorMode: Option<nat>, restoreData: Option<RestoreData>,
                                                       persistMode: Option<nat>)

  /** The persisted sources after a request carrying `restoreData`: replaced
      by what it decodes to, kept if it is absent or not recognised. */
  function AfterRestore(current: Option<Persisted>, restoreData: Option<RestoreData>): (r: Option<Persisted>)
    ensures restoreData.None? ==> r == current
    ensures restoreData.Some? && (restoreData.value.vendor != VENDOR || restoreData.value.version != RESTORE_VERSION) ==> r == current
    ensures restoreData.Some? && FromRestoreData(restoreData.value).Ok? ==>
      r == Some(FromRestoreData(restoreData.value).value)
    ensures restoreData.Some? && FromRestoreData(restoreData.value).Err? ==> r == current
  {
    if restoreData.Some? && FromRestoreData(restoreData.value).Ok? then Some(FromRestoreData(restoreData.value).value)
    else current
  }

  /** `select_sources`: Other when the session is unknown (`session` is
      null); otherwise record the options. */
  method SelectSources(session: SessionData?, options: SelectSourcesOptions) returns (resp: P.PortalResponse<()>)
    modifies session
    ensures session == null ==> resp == P.Other
    ensures session != null ==>
      resp == P.Success(())
      && session.cursorMode == options.cursorMode
      && session.multiple == (options.multiple == Some(true))
      && session.sourceTypes == NormalizeSourceTypes(options.types)
      && session.persisted == AfterRestore(old(session.persisted), options.restoreData)
      && session.threads == old(session.threads) && session.closed == old(session.closed)
  {
    if session == null {
      return P.Other;
    }
    session.cursorMode := options.cursorMode;
    session.multiple := if options.multiple.Some? then options.multiple.value else false;
    session.sourceTypes := NormalizeSourceTypes(options.types);
    if options.restoreData.Some? {
      var parsed := FromRestoreData(options.restoreData.value);
      if parsed.Ok? {
        session.persisted := Some(parsed.value);
      }
    }
    resp := P.Success(());
  }

  // ---------------------------------------------------------------------
  // Start

  datatype StartResult = StartResult(streams: seq<(nat, bv32)>, persistMode: Option<nat>,
                                     restoreData: Option<RestoreData>)

  /** The streams to start, in `FuturesOrdered` order: every output as a
      monitor, then every toplevel as a window. */
  function StreamRequests(c: SC.CaptureSources): (reqs: seq<(W.CaptureSource, bv32)>)
    ensures |reqs| == |c.outputs| + |c.toplevels|
    ensures forall i | 0 <= i < |c.outputs| :: reqs[i] == (W.OutputSource(c.outputs[i]), SOURCE_TYPE_MONITOR)
    ensures forall j | 0 <= j < |c.toplevels| ::
      reqs[|c.outputs| + j] == (W.ToplevelSource(c.toplevels[j]), SOURCE_TYPE_WINDOW)
  {
    seq(|c.outputs|, i requires 0 <= i < |c.outputs| => (W.OutputSource(c.outputs[i]), SOURCE_TYPE_MONITOR))
    + seq(|c.toplevels|, j requires 0 <= j < |c.toplevels| => (W.ToplevelSource(c.toplevels[j]), SOURCE_TYPE_WINDOW))
  }

  /** The threads that started, in request order. */
  function Started<Props>(reqs: seq<(W.CaptureSource, Props)>, spawn: Spawner<Props>, overlay: bool): seq<Thread<Props>>
  {
    if reqs == [] then []
    else
      var rest := Started(reqs[..|reqs| - 1], spawn, overlay);
      var (source, props) := reqs[|reqs| - 1];
      match spawn(source, overlay, props)
      case Ok(node) => rest + [Thread(node, source, props)]
      case Err(_) => rest
  }

  predicate AllStarted<Props>(reqs: seq<(W.CaptureSource, Props)>, spawn: Spawner<Props>, overlay: bool)
  {
    forall i | 0 <= i < |reqs| :: spawn(reqs[i].0, overlay, reqs[i].1).Ok?
  }

  /** When every thread starts, the started list matches the requests one
      for one. */
  lemma {:induction false} StartedAll<Props>(reqs: seq<(W.CaptureSource, Props)>, spawn: Spawner<Props>, overlay: bool)
    requires AllStarted(reqs, spawn, overlay)
    ensures |Started(reqs, spawn, overlay)| == |reqs|
    ensures forall i | 0 <= i < |reqs| ::
      Started(reqs, spawn, overlay)[i] == Thread(spawn(reqs[i].0, overlay, reqs[i].1).value, reqs[i].0, reqs[i].1)
  {
    if reqs != [] {
      var n := |reqs| - 1;
      assert AllStarted(reqs[..n], spawn, overlay) by {
        forall i | 0 <= i < n ensures spawn(reqs[..n][i].0, overlay, reqs[..n][i].1).Ok? {
          assert reqs[..n][i] == reqs[i];
        }
      }
      StartedAll(reqs[..n], spawn, overlay);
    }
  }

  function Streams<Props>(threads: seq<Thread<Props>>): (s: seq<(nat, Props)>)
    ensures |s| == |threads|
  {
    seq(|threads|, i requires 0 <= i < |threads| => (threads[i].nodeId, threads[i].props))
  }

  /** The streams of a successful start: one per selected output (source
      type 1) and then one per selected toplevel (source type 2), each with
      the node its thread reported. */
  lemma StreamsInSelectionOrder(c: SC.CaptureSources, spawn: Spawner<bv32>, overlay: bool)
    requires AllStarted(StreamRequests(c), spawn, overlay)
    ensures var s := Streams(Started(StreamRequests(c), spawn, overlay));
      |s| == |c.outputs| + |c.toplevels|
      && (forall i | 0 <= i < |c.outputs| ::
            s[i] == (spawn(W.OutputSource(c.outputs[i]), overlay, SOURCE_TYPE_MONITOR).value, SOURCE_TYPE_MONITOR))
      && (forall j | 0 <= j < |c.toplevels| ::
            s[|c.outputs| + j] == (spawn(W.ToplevelSource(c.toplevels[j]), overlay, SOURCE_TYPE_WINDOW).value, SOURCE_TYPE_WINDOW))
  {
    StartedAll(StreamRequests(c), spawn, overlay);
  }

  /** Whether the cursor is drawn into the frames. */
  function OverlayCursor(cursorMode: Option<nat>): (overlay: bool)
    ensures overlay <==> cursorMode == Some(CURSOR_MODE_EMBEDDED)
  {
    (if cursorMode.Some? then cursorMode.value else CURSOR_MODE_HIDDEN) == CURSOR_MODE_EMBEDDED
  }

  /** The sources `start` captures: the persisted ones if they still
      resolve, else the prompt's answer. */
  function Chosen(comp: Compositor, persisted: Option<Persisted>, prompt: Option<SC.CaptureSources>)
    : Option<SC.CaptureSources>
  {
    var resolved := if persisted.Some? then ResolvePersisted(comp, persisted.value) else None;
    if resolved.Some? then resolved else prompt
  }

  /** Start every stream, in order; remember whether any failed. */
  method StartThreads<Props>(reqs: seq<(W.CaptureSource, Props)>, spawn: Spawner<Props>, overlay: bool)
    returns (started: seq<Thread<Props>>, failed: bool)
    ensures started == Started(reqs, spawn, overlay)
    ensures failed <==> !AllStarted(reqs, spawn, overlay)
  {
    started := [];
    failed := false;
    var i := 0;
    while i < |reqs|
      invariant 0 <= i <= |reqs|
      invariant started == Started(reqs[..i], spawn, overlay)
      invariant failed <==> !AllStarted(reqs[..i], spawn, overlay)
    {
      var (source, props) := reqs[i];
      var res := spawn(source, overlay, props);
      if res.Ok? {
        started := started + [Thread(res.value, source, props)];
      } else {
        failed := true;
      }
      assert reqs[..i + 1][..i] == reqs[..i];
      i := i + 1;
    }
    assert reqs[..i] == reqs;
  }

  /** The persisted sources if they still resolve, else the prompt's
      answer; `prompted` says whether the dialog had to be shown. */
  method ChooseSources(comp: Compositor, persisted: Option<Persisted>, prompt: Option<SC.CaptureSources>)
    returns (chosen: Option<SC.CaptureSources>, prompted: bool)
    ensures chosen == Chosen(comp, persisted, prompt)
    ensures prompted <==> (persisted.None? || ResolvePersisted(comp, persisted.value).None?)
  {
    var resolved: Option<SC.CaptureSources> := None;
    if persisted.Some? {
      resolved := ToCaptureSources(comp, persisted.value);
    }
    prompted := resolved.None?;
    chosen := if resolved.Some? then resolved else prompt;
  }

  /** The task `start` runs inside `Request::run` (whose abort path is
      `Portal.RunRequest`). `session` is null when the session is unknown,
      `outputs` the helper's output list, `prompt` the dialog's answer if it
      is shown. `stopped` lists the threads this call stops. */
  method Start(session: SessionData?, comp: Compositor, outputs: seq<W.Output>,
               prompt: Option<SC.CaptureSources>, spawn: Spawner<bv32>)
    returns (resp: P.PortalResponse<StartResult>, prompted: bool, stopped: seq<Thread<bv32>>)
    modifies session
    ensures session == null || outputs == [] ==> resp == P.Other && !prompted && stopped == []
    ensures session != null ==> session.closed == old(session.closed) && session.persisted == old(session.persisted)
    ensures session != null && outputs != [] ==>
      var resolved := if old(session.persisted).Some? then ResolvePersisted(comp, old(session.persisted).value) else None;
      var chosen := Chosen(comp, old(session.persisted), prompt);
      var overlay := OverlayCursor(old(session.cursorMode));
      var started := if chosen.Some? then Started(StreamRequests(chosen.value), spawn, overlay) else [];
      (prompted <==> resolved.None?)
      && (chosen.None? ==> resp == P.Cancelled && stopped == [])
      && (chosen.Some? && !AllStarted(StreamRequests(chosen.value), spawn, overlay) ==>
            resp == P.Other && stopped == started)
      && (chosen.Some? && AllStarted(StreamRequests(chosen.value), spawn, overlay) && old(session.closed) ==>
            resp == P.Cancelled && stopped == started)
      && (chosen.Some? && AllStarted(StreamRequests(chosen.value), spawn, overlay) && !old(session.closed) ==>
            stopped == []
            && session.threads == started
            && resp == P.Success(StartResult(Streams(started), None,
                 var persisted := PersistSources(comp, chosen.value);
                 if persisted.Some? then Some(ToRestoreData(persisted.value)) else None)))
    ensures session != null && !(resp.Success?) ==> session.threads == old(session.threads)
  {
    stopped := [];
    prompted := false;
    if session == null {
      return P.Other, false, [];
    }
    var cursorMode := if session.cursorMode.Some? then session.cursorMode.value else CURSOR_MODE_HIDDEN;
    var persisted := session.persisted;

    if outputs == [] {
      return P.Other, false, [];
    }

    var chosen;
    chosen, prompted := ChooseSources(comp, persisted, prompt);
    if chosen.None? {
      return P.Cancelled, prompted, [];
    }
    var captureSources := chosen.value;

    var overlay := cursorMode == CURSOR_MODE_EMBEDDED;
    var started, failed := StartThreads(StreamRequests(captureSources), spawn, overlay);

    if failed {
      return P.Other, prompted, started;
    }
    if session.closed {
      return P.Cancelled, prompted, started;
    }

    var streams := Streams(started);
    session.threads := started;
    var restore := FromCaptureSources(comp, captureSources);
    resp := P.Success(StartResult(streams, None, if restore.Some? then Some(ToRestoreData(restore.value)) else None));
  }
}
