/** The access dialog (src/access.rs): one pending request slot, the
    surface shown for it and the single reply each request receives. */
module Access {
  import opened Wrappers
  import P = Portal

  /** A choice offered by the caller: its id, its (id, label) options, its
      label and its initial selection. */
  datatype ChoiceOffer = ChoiceOffer(id: string, options: seq<(string, string)>, caption: string, initial: string)

  datatype Options = Options(modal: Option<bool>, denyLabel: Option<string>, grantLabel: Option<string>,
                             icon: Option<string>, choices: Option<seq<ChoiceOffer>>)

  /** `AccessDialogResult`: the (choice id, option id) pairs. */
  datatype AccessResult = AccessResult(choices: seq<(string, string)>)

  /** A request: its reply channel (`request`), title and options. */
  datatype Args = Args(request: nat, appId: string, title: string, options: Options)

  datatype Surface = ModalWindow | LayerSurface

  /** `get_surface` and `destroy_surface` both pick the surface kind by
      `modal`, absent meaning false. */
  function SurfaceOf(a: Args): (s: Surface)
    ensures s == ModalWindow <==> a.options.modal == Some(true)
  {
    if a.options.modal.Some? && a.options.modal.value then ModalWindow else LayerSurface
  }

  /** `access_dialog`: the reply, or Cancelled if the channel closed without
      one (which is also what a failed hand-off to the application leads
      to, since the sender is dropped with the event). */
  function AccessDialog(sent: bool, reply: Option<P.PortalResponse<AccessResult>>)
    : (r: P.PortalResponse<AccessResult>)
    ensures sent && reply.Some? ==> r == reply.value
    ensures !sent || reply.None? ==> r == P.Cancelled
  {
    if sent && reply.Some? then reply.value else P.Cancelled
  }

  datatype Msg = Allow | Cancel | Choice(i: nat, j: nat)

  /** The access part of the portal application's state. */
  class Dialog {
    var args: Option<Args>
    /** `access_choices`: the selected option, if any, and the labels. */
    var choices: seq<(Option<nat>, seq<string>)>
    var surface: Option<Surface>
    var replies: map<nat, P.PortalResponse<AccessResult>>

    /** The pending request has no reply yet, and the open surface is the
        one its options ask for. */
    ghost predicate Valid()
      reads this
    {
      (args.Some? ==> args.value.request !in replies && surface == Some(SurfaceOf(args.value)))
      && (args.None? ==> surface.None?)
    }

    constructor()
      ensures Valid() && args == None && choices == [] && replies == map[]
    {
      args := None;
      choices := [];
      surface := None;
      replies := map[];
    }

    /** `update_msg`. Allow and Cancel take the pending request (a panic
        when there is none), answer it and destroy its surface; Choice
        writes one entry of `access_choices` (a panic without a pending
        request or with an index out of range). */
    method UpdateMsg(msg: Msg) returns (panicked: bool, destroyed: Option<Surface>)
      requires Valid()
      modifies this
      ensures Valid()
      ensures panicked <==> old(args).None? || (msg.Choice? && msg.i >= |old(choices)|)
      ensures panicked ==> args == old(args) && choices == old(choices) && replies == old(replies) && destroyed.None?
      ensures !panicked && !msg.Choice? ==>
        args == None && destroyed == old(surface) && choices == old(choices)
        && replies == old(replies)[old(args).value.request :=
             if msg.Allow? then P.Success(AccessResult([])) else P.Cancelled]
      ensures !panicked && msg.Choice? ==>
        args == old(args) && replies == old(replies) && destroyed.None?
        && |choices| == |old(choices)|
        && choices[msg.i] == (Some(msg.j), old(choices)[msg.i].1)
        && forall k | 0 <= k < |choices| && k != msg.i :: choices[k] == old(choices)[k]
    {
      panicked := false;
      destroyed := None;
      if args.None? {
        return true, None;
      }
      var a := args.value;
      match msg {
        case Allow =>
          args := None;
          replies := replies[a.request := P.Success(AccessResult([]))];
          destroyed := surface;
          surface := None;
        case Cancel =>
          args := None;
          replies := replies[a.request := P.Cancelled];
          destroyed := surface;
          surface := None;
        case Choice(i, j) =>
          if i >= |choices| {
            return true, None;
          }
          choices := choices[i := (Some(j), choices[i].1)];
      }
    }

    /** `update_args`: a pending request is answered Cancelled and its
        surface destroyed; a surface for the new request is created. */
    method UpdateArgs(newArgs: Args) returns (destroyed: Option<Surface>, created: Surface)
      requires Valid()
      requires newArgs.request !in replies
      requires args.Some? ==> newArgs.request != args.value.request
      modifies this
      ensures Valid()
      ensures args == Some(newArgs) && created == SurfaceOf(newArgs) && choices == old(choices)
      ensures destroyed == old(surface)
      ensures replies == if old(args).Some? then old(replies)[old(args).value.request := P.Cancelled] else old(replies)
    {
      destroyed := surface;
      if args.Some? {
        replies := replies[args.value.request := P.Cancelled];
      }
      created := SurfaceOf(newArgs);
      surface := Some(created);
      args := Some(newArgs);
    }
  }
}
