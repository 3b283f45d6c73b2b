/** The remote-desktop consent dialog (src/remote_desktop_dialog.rs). Its
    selection type and toggle rule are the screen-cast dialog's; it adds the
    requested device types, an input-only mode without screen sharing, and
    Allow/Deny in place of Share/Cancel. */
module RemoteDesktopDialog {
  import opened Wrappers
  import W = Wayland
  import SC = ScreenCastDialog

  const DEVICE_KEYBOARD: bv32 := 1
  const DEVICE_POINTER: bv32 := 2
  const DEVICE_TOUCHSCREEN: bv32 := 4

  datatype Chip = KeyboardChip | PointerChip | TouchscreenChip

  function Rank(c: Chip): nat
  {
    match c
    case KeyboardChip => 0
    case PointerChip => 1
    case TouchscreenChip => 2
  }

  /** `permission_chips`: one chip per requested device bit, in the order
      keyboard, pointer, touchscreen. */
  method PermissionChips(deviceTypes: bv32) returns (items: seq<Chip>)
    ensures KeyboardChip in items <==> deviceTypes & DEVICE_KEYBOARD != 0
    ensures PointerChip in items <==> deviceTypes & DEVICE_POINTER != 0
    ensures TouchscreenChip in items <==> deviceTypes & DEVICE_TOUCHSCREEN != 0
    ensures forall i, j | 0 <= i < j < |items| :: Rank(items[i]) < Rank(items[j])
  {
    items := [];
    if deviceTypes & DEVICE_KEYBOARD != 0 {
      items := items + [KeyboardChip];
    }
    if deviceTypes & DEVICE_POINTER != 0 {
      items := items + [PointerChip];
    }
    if deviceTypes & DEVICE_TOUCHSCREEN != 0 {
      items := items + [TouchscreenChip];
    }
  }

  /** What `show_remote_desktop_prompt` returns: None when the prompt could
      not be handed to the application or the reply channel closed without
      a value, otherwise the reply. */
  function PromptResult(sent: bool, received: Option<Option<SC.CaptureSources>>): (r: Option<SC.CaptureSources>)
    ensures r.Some? <==> sent && received.Some? && received.value.Some?
    ensures r.Some? ==> r == received.value
  {
    if !sent then None
    else if received.None? then None
    else received.value
  }

  datatype Args = Args(request: nat, sessionHandle: string, deviceTypes: bv32, includeScreencast: bool,
                       multiple: bool, sourceTypes: bv32, captureSources: SC.CaptureSources)

  datatype Msg =
    | ActivateTab(position: nat)
    | SelectOutput(output: W.Output)
    | SelectToplevel(toplevel: W.Toplevel)
    | Allow
    | Deny

  /** The remote-desktop part of the portal application's state. */
  class Dialog {
    var args: Option<Args>
    var surfaceOpen: bool
    var tabs: seq<SC.Tab>
    var activeTab: Option<nat>
    var replies: map<nat, Option<SC.CaptureSources>>

    ghost predicate Valid()
      reads this
    {
      (args.Some? ==> args.value.request !in replies)
      && surfaceOpen == args.Some?
      && (args.Some? && !args.value.multiple ==> SC.Size(args.value.captureSources) <= 1)
    }

    constructor()
      ensures Valid() && args == None && replies == map[] && tabs == []
    {
      args := None;
      surfaceOpen := false;
      tabs := [];
      activeTab := None;
      replies := map[];
    }

    /** Allow is enabled for an input-only request, or once something is
        selected. */
    predicate AllowEnabled()
      reads this
    {
      args.Some? && (!args.value.includeScreencast || !SC.IsEmpty(args.value.captureSources))
    }

    /** `update_msg`. */
    method UpdateMsg(msg: Msg)
      requires Valid()
      modifies this
      ensures Valid()
      ensures old(args).None? ==> args == old(args) && replies == old(replies) && surfaceOpen == old(surfaceOpen)
      ensures old(args).Some? && (msg.SelectOutput? || msg.SelectToplevel?) ==>
        var a := old(args).value;
        replies == old(replies)
        && args == Some(a.(captureSources :=
             if msg.SelectOutput? then SC.ToggleOutput(a.captureSources, a.multiple, msg.output)
             else SC.ToggleToplevel(a.captureSources, a.multiple, msg.toplevel)))
      ensures old(args).Some? && msg.Allow? ==>
        args == None && !surfaceOpen
        && replies == old(replies)[old(args).value.request := Some(old(args).value.captureSources)]
      ensures old(args).Some? && msg.Deny? ==>
        args == None && !surfaceOpen && replies == old(replies)[old(args).value.request := None]
      ensures msg.ActivateTab? ==> args == old(args) && replies == old(replies)
    {
      if args.None? {
        return;
      }
      var a := args.value;
      match msg {
        case ActivateTab(position) =>
          if position < |tabs| {
            activeTab := Some(position);
          }
        case SelectOutput(o) =>
          if !a.multiple {
            SC.SingleSelectionBound(a.captureSources, o, 0);
          }
          args := Some(a.(captureSources := SC.ToggleOutput(a.captureSources, a.multiple, o)));
        case SelectToplevel(t) =>
          if !a.multiple {
            SC.SingleSelectionBound(a.captureSources, 0, t);
          }
          args := Some(a.(captureSources := SC.ToggleToplevel(a.captureSources, a.multiple, t)));
        case Allow =>
          args := None;
          replies := replies[a.request := Some(a.captureSources)];
          surfaceOpen := false;
        case Deny =>
          args := None;
          replies := replies[a.request := None];
          surfaceOpen := false;
      }
    }

    /** `update_args`: a pending request is answered None and its surface
        reused. Tabs exist only when screen sharing is included, Outputs
        before Windows. */
    method UpdateArgs(newArgs: Args) returns (createdSurface: bool)
      requires Valid()
      requires newArgs.request !in replies
      requires args.Some? ==> newArgs.request != args.value.request
      requires !newArgs.multiple ==> SC.Size(newArgs.captureSources) <= 1
      modifies this
      ensures Valid()
      ensures createdSurface <==> old(args).None?
      ensures args == Some(newArgs)
      ensures replies == if old(args).Some? then old(replies)[old(args).value.request := None] else old(replies)
      ensures tabs == if newArgs.includeScreencast then SC.TabsFor(newArgs.sourceTypes) else []
      ensures activeTab == if tabs == [] then None else Some(0)
    {
      createdSurface := args.None?;
      if args.Some? {
        replies := replies[args.value.request := None];
      }
      surfaceOpen := true;
      tabs := [];
      activeTab := None;
      if newArgs.includeScreencast {
        tabs := SC.TabsFor(newArgs.sourceTypes);
        activeTab := if tabs == [] then None else Some(0);
      }
      args := Some(newArgs);
    }

    /** `cancel`: only a pending request of the same session is answered
        None and its surface destroyed. */
    method CancelSession(sessionHandle: string) returns (destroyedSurface: bool)
      requires Valid()
      modifies this
      ensures Valid()
      ensures destroyedSurface <==> old(args).Some? && old(args).value.sessionHandle == sessionHandle
      ensures destroyedSurface ==> args == None && replies == old(replies)[old(args).value.request := None]
      ensures !destroyedSurface ==> args == old(args) && replies == old(replies) && surfaceOpen == old(surfaceOpen)
    {
      destroyedSurface := args.Some? && args.value.sessionHandle == sessionHandle;
      if destroyedSurface {
        replies := replies[args.value.request := None];
        args := None;
        surfaceOpen := false;
      }
    }
  }
}
