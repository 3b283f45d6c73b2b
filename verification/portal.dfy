/** The portal's shared plumbing: response codes, the Request and Session
    objects on the D-Bus object server, and the Settings interface.
    The object server is a set of (object path, interface) registrations;
    signals and hooks it runs are appended to an effects log so that their
    order can be stated. */
module Portal {
  import opened Wrappers

  // ---------------------------------------------------------------------
  // Response codes

  const PORTAL_RESPONSE_SUCCESS: nat := 0
  const PORTAL_RESPONSE_CANCELLED: nat := 1
  const PORTAL_RESPONSE_OTHER: nat := 2

  datatype PortalResponse<T> = Success(results: T) | Cancelled | Other

  /** The second member of the serialised `(ua{sv})` pair: the payload of a
      success, or the empty dictionary sent with the other two codes. */
  datatype Body<T> = Payload(value: T) | EmptyDict

  datatype Wire<T> = Wire(code: nat, body: Body<T>)

  function Serialize<T>(r: PortalResponse<T>): (w: Wire<T>)
    ensures w.code <= PORTAL_RESPONSE_OTHER
    ensures w.body.Payload? <==> r.Success?
    ensures r.Success? ==> w == Wire(PORTAL_RESPONSE_SUCCESS, Payload(r.results))
    ensures r.Cancelled? ==> w == Wire(PORTAL_RESPONSE_CANCELLED, EmptyDict)
    ensures r.Other? ==> w == Wire(PORTAL_RESPONSE_OTHER, EmptyDict)
  {
    match r
    case Success(res) => Wire(PORTAL_RESPONSE_SUCCESS, Payload(res))
    case Cancelled => Wire(PORTAL_RESPONSE_CANCELLED, EmptyDict)
    case Other => Wire(PORTAL_RESPONSE_OTHER, EmptyDict)
  }

  /** What the frontend reads back from a serialised response. */
  function Deserialize<T>(w: Wire<T>): Option<PortalResponse<T>>
  {
    match w
    case Wire(0, Payload(res)) => Some(Success(res))
    case Wire(1, EmptyDict) => Some(Cancelled)
    case Wire(2, EmptyDict) => Some(Other)
    case _ => None
  }

  lemma SerializeRoundTrip<T>(r: PortalResponse<T>)
    ensures Deserialize(Serialize(r)) == Some(r)
  {
  }

  lemma SerializeInjective<T>(r1: PortalResponse<T>, r2: PortalResponse<T>)
    requires Serialize(r1) == Serialize(r2)
    ensures r1 == r2
  {
    SerializeRoundTrip(r1);
    SerializeRoundTrip(r2);
  }

  // ---------------------------------------------------------------------
  // Object server

  datatype Interface = RequestInterface | SessionInterface

  datatype Effect =
    | ClosedSignal(path: string)
    | Unregistered(path: string, iface: Interface)
    | CancelHookRan(path: string)
    | CloseCallbackRan(callback: nat)

  class ObjectServer {
    var registered: set<(string, Interface)>
    var effects: seq<Effect>

    constructor()
      ensures registered == {} && effects == []
    {
      registered := {};
      effects := [];
    }

    /** `object_server().at`: registers an object unless one with the same
        interface is already served at that path. */
    method At(path: string, iface: Interface) returns (added: bool)
      modifies this`registered
      ensures added <==> (path, iface) !in old(registered)
      ensures registered == old(registered) + {(path, iface)}
    {
      added := (path, iface) !in registered;
      registered := registered + {(path, iface)};
    }

    /** `object_server().remove`: unregisters the object, if any. */
    method Remove(path: string, iface: Interface) returns (removed: bool)
      modifies this
      ensures removed <==> (path, iface) in old(registered)
      ensures registered == old(registered) - {(path, iface)}
      ensures effects == old(effects) + (if removed then [Unregistered(path, iface)] else [])
    {
      removed := (path, iface) in registered;
      registered := registered - {(path, iface)};
      if removed {
        effects := effects + [Unregistered(path, iface)];
      }
    }

    /** `session_interface`: the lookup succeeds only for a served session. */
    predicate HasSession(handle: string)
      reads this
    {
      (handle, SessionInterface) in registered
    }
  }

  // ---------------------------------------------------------------------
  // Request

  /** The `Request` object: its `Close` method aborts the running task. */
  class Request {
    var aborted: bool

    constructor()
      ensures !aborted
    {
      aborted := false;
    }

    method Close()
      modifies this
      ensures aborted
    {
      aborted := true;
    }
  }

  /** `Request::run`. `taskResponse` is what the task answers if it runs to
      completion; `closeArrives` says whether the frontend called `Close` on
      the request while the task was awaited. */
  method RunRequest<T>(server: ObjectServer, handle: string, taskResponse: PortalResponse<T>,
                       closeArrives: bool)
    returns (resp: PortalResponse<T>)
    modifies server
    ensures resp == if closeArrives then Cancelled else taskResponse
    ensures server.registered == old(server.registered) - {(handle, RequestInterface)}
    ensures server.effects == old(server.effects) + [Unregistered(handle, RequestInterface)]
                              + (if closeArrives then [CancelHookRan(handle)] else [])
  {
    var request := new Request();
    var _ := server.At(handle, RequestInterface);
    // The task is awaited here; a `Close` call on the request aborts it.
    if closeArrives {
      request.Close();
    }
    var _ := server.Remove(handle, RequestInterface);
    if !request.aborted {
      resp := taskResponse;
    } else {
      server.effects := server.effects + [CancelHookRan(handle)];
      resp := Cancelled;
    }
  }

  // ---------------------------------------------------------------------
  // Session

  /** A `Session` object served at `path`. The close callback is a closure
      over the portal's session data; here it is identified by a number and
      running it is recorded in the effects log. */
  class Session {
    const path: string
    var closeCallback: Option<nat>

    constructor(path: string, callback: nat)
      ensures this.path == path && closeCallback == Some(callback)
    {
      this.path := path;
      closeCallback := Some(callback);
    }

    /** `Session::close`: emit `Closed`, unregister, then take and run the
        callback. */
    method Close(server: ObjectServer)
      modifies this, server
      ensures closeCallback == None
      ensures server.registered == old(server.registered) - {(path, SessionInterface)}
      ensures server.effects ==
        old(server.effects) + [ClosedSignal(path)]
        + (if (path, SessionInterface) in old(server.registered) then [Unregistered(path, SessionInterface)] else [])
        + (if old(closeCallback).Some? then [CloseCallbackRan(old(closeCallback).value)] else [])
    {
      server.effects := server.effects + [ClosedSignal(path)];
      var _ := server.Remove(path, SessionInterface);
      var cb := closeCallback;
      closeCallback := None;
      if cb.Some? {
        server.effects := server.effects + [CloseCallbackRan(cb.value)];
      }
    }
  }

  // ---------------------------------------------------------------------
  // Settings

  const APPEARANCE_NAMESPACE: string := "org.freedesktop.appearance"
  const COLOR_SCHEME_KEY: string := "color-scheme"
  const ACCENT_COLOR_KEY: string := "accent-color"
  const CONTRAST_KEY: string := "contrast"

  datatype ColorScheme = NoPreference | PreferDark | PreferLight
  datatype Contrast = NoPreference | High

  function ColorSchemeCode(c: ColorScheme): (v: nat)
    ensures v <= 2
  {
    match c
    case NoPreference => 0
    case PreferDark => 1
    case PreferLight => 2
  }

  function ContrastCode(c: Contrast): (v: nat)
    ensures v <= 1
  {
    match c
    case NoPreference => 0
    case High => 1
  }

  lemma CodesInjective(a: ColorScheme, b: ColorScheme, c: Contrast, d: Contrast)
    ensures ColorSchemeCode(a) == ColorSchemeCode(b) ==> a == b
    ensures ContrastCode(c) == ContrastCode(d) ==> c == d
  {
  }

  /** A settings value. The accent colour is floating point; the model keeps
      only whether its conversion to a D-Bus value succeeded. */
  datatype Value = U32(n: nat) | AccentColor(colour: nat)

  datatype Settings = Settings(colorScheme: ColorScheme, contrast: Contrast, accent: Result<Value, string>)

  /** `Settings::new` from the system theme's two flags. */
  function NewSettings(isHighContrast: bool, isDark: bool, accent: Result<Value, string>): (s: Settings)
    ensures s.colorScheme != ColorScheme.NoPreference
    ensures s.colorScheme == ColorScheme.PreferDark <==> isDark
    ensures s.contrast == Contrast.High <==> isHighContrast
    ensures s.accent == accent
  {
    Settings(if isDark then PreferDark else PreferLight,
             if isHighContrast then High else Contrast.NoPreference,
             accent)
  }

  /** `read_one`. */
  function ReadOne(s: Settings, namespace: string, key: string): (r: Result<Value, string>)
    ensures r.Ok? ==> namespace == APPEARANCE_NAMESPACE
    ensures namespace == APPEARANCE_NAMESPACE && key == COLOR_SCHEME_KEY ==> r == Ok(U32(ColorSchemeCode(s.colorScheme)))
    ensures namespace == APPEARANCE_NAMESPACE && key == CONTRAST_KEY ==> r == Ok(U32(ContrastCode(s.contrast)))
    ensures key !in {COLOR_SCHEME_KEY, CONTRAST_KEY, ACCENT_COLOR_KEY} ==> r == Err("Unknown namespace or key")
  {
    if namespace == APPEARANCE_NAMESPACE && key == COLOR_SCHEME_KEY then Ok(U32(ColorSchemeCode(s.colorScheme)))
    else if namespace == APPEARANCE_NAMESPACE && key == CONTRAST_KEY then Ok(U32(ContrastCode(s.contrast)))
    else if namespace == APPEARANCE_NAMESPACE && key == ACCENT_COLOR_KEY then s.accent
    else Err("Unknown namespace or key")
  }

  /** `read_all`: a namespace list, defaulting to the appearance namespace,
      becomes a dictionary of dictionaries; only the appearance namespace has
      entries, and each entry is what `ReadOne` answers for it. */
  method ReadAll(s: Settings, namespaces: seq<string>) returns (m: map<string, map<string, Value>>)
    ensures forall ns :: ns in m <==> ns in (if namespaces == [] then [APPEARANCE_NAMESPACE] else namespaces)
    ensures forall ns | ns in m && ns != APPEARANCE_NAMESPACE :: m[ns] == map[]
    ensures forall ns, key | ns in m && key in m[ns] :: ReadOne(s, ns, key) == Ok(m[ns][key])
    ensures APPEARANCE_NAMESPACE in m ==>
      forall key | ReadOne(s, APPEARANCE_NAMESPACE, key).Ok? :: key in m[APPEARANCE_NAMESPACE]
  {
    var names := namespaces;
    if names == [] {
      names := [APPEARANCE_NAMESPACE];
    }
    m := map[];
    var i := 0;
    while i < |names|
      invariant 0 <= i <= |names|
      invariant forall ns :: ns in m <==> ns in names[..i]
      invariant forall ns | ns in m && ns != APPEARANCE_NAMESPACE :: m[ns] == map[]
      invariant forall ns, key | ns in m && key in m[ns] :: ReadOne(s, ns, key) == Ok(m[ns][key])
      invariant APPEARANCE_NAMESPACE in m ==>
        forall key | ReadOne(s, APPEARANCE_NAMESPACE, key).Ok? :: key in m[APPEARANCE_NAMESPACE]
    {
      var ns := names[i];
      var inner: map<string, Value> := map[];
      if ns != APPEARANCE_NAMESPACE {
        m := m[ns := inner];
      } else {
        inner := inner[COLOR_SCHEME_KEY := U32(ColorSchemeCode(s.colorScheme))];
        inner := inner[CONTRAST_KEY := U32(ContrastCode(s.contrast))];
        if s.accent.Ok? {
          inner := inner[ACCENT_COLOR_KEY := s.accent.value];
        }
        m := m[APPEARANCE_NAMESPACE := inner];
      }
      assert names[..i + 1] == names[..i] + [ns];
      i := i + 1;
    }
    assert names[..i] == names;
  }
}
