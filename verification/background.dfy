/** The Background portal (src/background.rs) and its configured default
    (cosmic-portal-config/src/background.rs): classifying running apps,
    the notification policy and the map of open permission prompts. */
module Background {
  import opened Wrappers
  import P = Portal

  // ---------------------------------------------------------------------
  // Configuration

  /** `PermissionDialog`: what to do when an app asks to run in the
      background. */
  datatype PermissionDialog = AllowAll | DenyAll | Ask

  const DEFAULT_PERMISSION_DIALOG: PermissionDialog := Ask

  // ---------------------------------------------------------------------
  // Wire values

  datatype AppStatus = BackgroundStatus | Running | Active

  datatype PermissionResponse = Deny | Allow | AllowOnce

  /** The `u` each status is sent as. */
  function AppStatusCode(s: AppStatus): (n: nat)
    ensures n <= 2
  {
    match s
    case BackgroundStatus => 0
    case Running => 1
    case Active => 2
  }

  /** The `u` each permission response is sent as. */
  function PermissionResponseCode(r: PermissionResponse): (n: nat)
    ensures n <= 2
  {
    match r
    case Deny => 0
    case Allow => 1
    case AllowOnce => 2
  }

  /** Distinct values are sent as distinct codes. */
  lemma WireCodesInjective(s: AppStatus, t: AppStatus, r: PermissionResponse, q: PermissionResponse)
    ensures AppStatusCode(s) == AppStatusCode(t) ==> s == t
    ensures PermissionResponseCode(r) == PermissionResponseCode(q) ==> r == q
  {
  }

  // ---------------------------------------------------------------------
  // GetAppState

  /** The states a toplevel can report. */
  datatype ToplevelState = Maximized | Minimized | Activated | Fullscreen

  datatype Toplevel = Toplevel(appId: string, states: seq<ToplevelState>)

  datatype AppState = AppState(appId: string, status: AppStatus)

  /** Active when activated, Running when it reports any other state,
      Background when it reports none. */
  function Classify(states: seq<ToplevelState>): (s: AppStatus)
    ensures s == Active <==> Activated in states
    ensures s == Running <==> states != [] && Activated !in states
    ensures s == BackgroundStatus <==> states == []
  {
    if Activated in states then Active
    else if states != [] then Running
    else BackgroundStatus
  }

  /** `get_app_state`: one entry per toplevel, in order. */
  function GetAppState(toplevels: seq<Toplevel>): (r: seq<AppState>)
    ensures |r| == |toplevels|
    ensures forall i | 0 <= i < |r| :: r[i].appId == toplevels[i].appId
    ensures forall i | 0 <= i < |r| :: (r[i].status == Active <==> Activated in toplevels[i].states)
    ensures forall i | 0 <= i < |r| :: (r[i].status == BackgroundStatus <==> toplevels[i].states == [])
  {
    seq(|toplevels|, i requires 0 <= i < |toplevels| => AppState(toplevels[i].appId, Classify(toplevels[i].states)))
  }

  // ---------------------------------------------------------------------
  // NotifyBackground

  /** `notify_background`: a configured Allow or Deny answers at once; Ask
      shows a prompt and returns its reply, or Other when the prompt could
      not be handed over or its channel closed without a reply. */
  function NotifyBackground(defaultPerm: PermissionDialog, sent: bool,
                            reply: Option<P.PortalResponse<PermissionResponse>>)
    : (r: P.PortalResponse<PermissionResponse>)
    ensures defaultPerm == AllowAll ==> r == P.Success(Allow)
    ensures defaultPerm == DenyAll ==> r == P.Success(Deny)
    ensures defaultPerm == Ask && sent && reply.Some? ==> r == reply.value
    ensures defaultPerm == Ask && (!sent || reply.None?) ==> r == P.Other
  {
    match defaultPerm
    case AllowAll => P.Success(Allow)
    case DenyAll => P.Success(Deny)
    case Ask => if sent && reply.Some? then reply.value else P.Other
  }

  /** With the default configuration the user is always asked. */
  lemma DefaultAsks(sent: bool, reply: Option<P.PortalResponse<PermissionResponse>>)
    ensures sent && reply.Some? ==> NotifyBackground(DEFAULT_PERMISSION_DIALOG, sent, reply) == reply.value
    ensures !sent || reply.None? ==> NotifyBackground(DEFAULT_PERMISSION_DIALOG, sent, reply) == P.Other
  {
  }

  /** `enable_autostart` is not implemented: it reports `enable` back. */
  function EnableAutostart(appId: string, enable: bool, commandline: seq<string>, flags: nat): (r: bool)
    ensures r == enable
  {
    enable
  }

  // ---------------------------------------------------------------------
  // Prompts

  type WindowId = nat

  /** A prompt: the request it answers (its reply channel) and the app. */
  datatype Args = Args(request: nat, appId: string)

  datatype Msg = Response(id: WindowId, choice: PermissionResponse) | Cancel(id: WindowId)

  /** The background part of the portal application's state. A reply of
      None means the channel was dropped unanswered, which the requester
      sees as Other. */
  class Prompts {
    var prompts: map<WindowId, Args>
    var replies: map<nat, Option<P.PortalResponse<PermissionResponse>>>

    /** Open prompts are unanswered and answer distinct requests. */
    ghost predicate Valid()
      reads this
    {
      (forall id | id in prompts :: prompts[id].request !in replies)
      && (forall id1, id2 | id1 in prompts && id2 in prompts && id1 != id2 ::
            prompts[id1].request != prompts[id2].request)
    }

    constructor()
      ensures Valid() && prompts == map[] && replies == map[]
    {
      prompts := map[];
      replies := map[];
    }

    /** `update_args`: store the prompt under its window, replacing (and so
        dropping the channel of) an earlier prompt for the same window. */
    method UpdateArgs(id: WindowId, args: Args)
      requires Valid()
      requires args.request !in replies
      requires forall w | w in prompts :: prompts[w].request != args.request
      modifies this
      ensures Valid()
      ensures prompts == old(prompts)[id := args]
      ensures replies == if id in old(prompts) then old(replies)[old(prompts)[id].request := None] else old(replies)
    {
      if id in prompts {
        replies := replies[prompts[id].request := None];
      }
      prompts := prompts[id := args];
    }

    /** `update_msg`: a response or a cancel removes the window's prompt and
        answers it with Success(choice) or Cancelled; an unknown window
        changes nothing. */
    method UpdateMsg(msg: Msg)
      requires Valid()
      modifies this
      ensures Valid()
      ensures msg.id !in old(prompts) ==> prompts == old(prompts) && replies == old(replies)
      ensures msg.id in old(prompts) ==>
        prompts == old(prompts) - {msg.id}
        && replies == old(replies)[old(prompts)[msg.id].request :=
             Some(if msg.Response? then P.Success(msg.choice) else P.Cancelled)]
    {
      if msg.id !in prompts {
        return;
      }
      var args := prompts[msg.id];
      prompts := prompts - {msg.id};
      match msg {
        case Response(_, choice) =>
          replies := replies[args.request := Some(P.Success(choice))];
        case Cancel(_) =>
          replies := replies[args.request := Some(P.Cancelled)];
      }
    }
  }
}
