/** The screen-cast consent dialog (src/screencast_dialog.rs): one pending
    request slot, the selection the user is building, and the reply each
    request receives. A reply channel is a write-once slot in `replies`,
    keyed by the request it answers. */
module ScreenCastDialog {
  import opened Wrappers
  import W = Wayland

  /** What the user picked: outputs and toplevels, in the order picked. */
  datatype CaptureSources = CaptureSources(outputs: seq<W.Output>, toplevels: seq<W.Toplevel>)

  function Size(c: CaptureSources): nat
  {
    |c.outputs| + |c.toplevels|
  }

  /** `CaptureSources::is_empty`. */
  predicate IsEmpty(c: CaptureSources)
  {
    c.outputs == [] && c.toplevels == []
  }

  lemma IsEmptyIffNoneSelected(c: CaptureSources)
    ensures IsEmpty(c) <==> Size(c) == 0
  {
  }

  const EMPTY_SOURCES := CaptureSources([], [])

  /** `iter().position(..)`: the index of the first occurrence. */
  function IndexOf<T(==)>(s: seq<T>, x: T): (i: nat)
    requires x in s
    ensures i < |s| && s[i] == x && x !in s[..i]
  {
    if s[0] == x then 0
    else
      assert s == [s[0]] + s[1..];
      var j := IndexOf(s[1..], x);
      assert s[..j + 1] == [s[0]] + s[1..][..j];
      j + 1
  }

  /** `iter().position(..)` followed by `remove(idx)`. */
  function RemoveFirst<T(==)>(s: seq<T>, x: T): (r: seq<T>)
    requires x in s
    ensures |r| == |s| - 1
    ensures exists i | 0 <= i < |s| :: s[i] == x && x !in s[..i] && r == s[..i] + s[i + 1..]
  {
    var i := IndexOf(s, x);
    s[..i] + s[i + 1..]
  }

  /** `Msg::SelectOutput`: an already selected output is removed; otherwise,
      without `multiple`, a non-empty selection is cleared (outputs and
      toplevels) before the output is appended. */
  function ToggleOutput(c: CaptureSources, multiple: bool, o: W.Output): (r: CaptureSources)
    ensures o in c.outputs ==> r.toplevels == c.toplevels && r.outputs == RemoveFirst(c.outputs, o)
    ensures o !in c.outputs && (multiple || IsEmpty(c)) ==> r == c.(outputs := c.outputs + [o])
    ensures o !in c.outputs && !multiple && !IsEmpty(c) ==> r == CaptureSources([o], [])
  {
    if o in c.outputs then c.(outputs := RemoveFirst(c.outputs, o))
    else
      var base := if !multiple && !IsEmpty(c) then EMPTY_SOURCES else c;
      base.(outputs := base.outputs + [o])
  }

  /** `Msg::SelectToplevel`: the same rule for toplevels. */
  function ToggleToplevel(c: CaptureSources, multiple: bool, t: W.Toplevel): (r: CaptureSources)
    ensures t in c.toplevels ==> r.outputs == c.outputs && r.toplevels == RemoveFirst(c.toplevels, t)
    ensures t !in c.toplevels && (multiple || IsEmpty(c)) ==> r == c.(toplevels := c.toplevels + [t])
    ensures t !in c.toplevels && !multiple && !IsEmpty(c) ==> r == CaptureSources([], [t])
  {
    if t in c.toplevels then c.(toplevels := RemoveFirst(c.toplevels, t))
    else
      var base := if !multiple && !IsEmpty(c) then EMPTY_SOURCES else c;
      base.(toplevels := base.toplevels + [t])
  }

  /** Without `multiple` a selection of at most one item stays that way. */
  lemma SingleSelectionBound(c: CaptureSources, o: W.Output, t: W.Toplevel)
    requires Size(c) <= 1
    ensures Size(ToggleOutput(c, false, o)) <= 1
    ensures Size(ToggleToplevel(c, false, t)) <= 1
  {
  }

  /** With `multiple`, selecting an unselected item twice restores the
      selection. */
  lemma {:induction false} ToggleTwiceRestores(c: CaptureSources, o: W.Output, t: W.Toplevel)
    ensures o !in c.outputs ==> ToggleOutput(ToggleOutput(c, true, o), true, o) == c
    ensures t !in c.toplevels ==> ToggleToplevel(ToggleToplevel(c, true, t), true, t) == c
  {
    if o !in c.outputs {
      RemoveLastAppended(c.outputs, o);
    }
    if t !in c.toplevels {
      RemoveLastAppended(c.toplevels, t);
    }
  }

  lemma RemoveLastAppended<T>(s: seq<T>, x: T)
    requires x !in s
    ensures RemoveFirst(s + [x], x) == s
  {
    assert (s + [x])[..|s|] == s;
  }

  /** What `show_screencast_prompt` returns: the reply, if the request
      reached the application (`sent`) and the channel delivered one; a
      closed subscription channel makes `send(..).unwrap()` panic, and a
      channel closed without a reply makes `recv().unwrap()` panic. */
  function PromptResult(sent: bool, received: Option<Option<CaptureSources>>): (r: Outcome<Option<CaptureSources>>)
    ensures r.Panicked? <==> !sent || received.None?
    ensures sent && received.Some? ==> r == Returned(received.value)
  {
    if !sent then Panicked
    else
      match received
      case None => Panicked
      case Some(reply) => Returned(reply)
  }

  datatype Tab = Outputs | Windows

  const SOURCE_TYPE_MONITOR: bv32 := 1
  const SOURCE_TYPE_WINDOW: bv32 := 2

  /** The tabs for the requested source types: Outputs for monitors,
      then Windows for windows. */
  function TabsFor(sourceTypes: bv32): (tabs: seq<Tab>)
    ensures Outputs in tabs <==> sourceTypes & SOURCE_TYPE_MONITOR != 0
    ensures Windows in tabs <==> sourceTypes & SOURCE_TYPE_WINDOW != 0
    ensures |tabs| <= 2 && (|tabs| == 2 ==> tabs == [Outputs, Windows])
  {
    (if sourceTypes & SOURCE_TYPE_MONITOR != 0 then [Outputs] else [])
    + (if sourceTypes & SOURCE_TYPE_WINDOW != 0 then [Windows] else [])
  }

  /** A prompt: which request it answers (its reply channel), the session,
      the selection rule, the source types and the selection so far. */
  datatype Args = Args(request: nat, sessionHandle: string, multiple: bool, sourceTypes: bv32,
                       captureSources: CaptureSources)

  datatype Msg =
    | ActivateTab(position: nat)
    | SelectOutput(output: W.Output)
    | SelectToplevel(toplevel: W.Toplevel)
    | Share
    | Cancel

  /** The screen-cast part of the portal application's state. */
  class Dialog {
    var args: Option<Args>
    var surfaceOpen: bool
    var tabs: seq<Tab>
    var activeTab: Option<nat>
    var replies: map<nat, Option<CaptureSources>>

    /** The pending request has not been answered, the surface is open
        exactly while a request is pending, and a single-selection prompt
        holds at most one item. */
    ghost predicate Valid()
      reads this
    {
      (args.Some? ==> args.value.request !in replies)
      && surfaceOpen == args.Some?
      && (args.Some? && !args.value.multiple ==> Size(args.value.captureSources) <= 1)
    }

    constructor()
      ensures Valid() && args == None && replies == map[] && tabs == []
    {
      args := None;
      surfaceOpen := false;
      tabs := [];
      activeTab := None;
      replies := map[];
    }

    /** The share button is enabled only for a non-empty selection. */
    predicate ShareEnabled()
      reads this
    {
      args.Some? && !IsEmpty(args.value.captureSources)
    }

    /** `update_msg`. */
    method UpdateMsg(msg: Msg)
      requires Valid()
      modifies this
      ensures Valid()
      ensures old(args).None? ==> args == old(args) && replies == old(replies) && surfaceOpen == old(surfaceOpen)
      ensures old(args).Some? && (msg.SelectOutput? || msg.SelectToplevel?) ==>
        var a := old(args).value;
        replies == old(replies)
        && args == Some(a.(captureSources :=
             if msg.SelectOutput? then ToggleOutput(a.captureSources, a.multiple, msg.output)
             else ToggleToplevel(a.captureSources, a.multiple, msg.toplevel)))
      ensures old(args).Some? && msg.Share? ==>
        args == None && !surfaceOpen
        && replies == old(replies)[old(args).value.request := Some(old(args).value.captureSources)]
      ensures old(args).Some? && msg.Cancel? ==>
        args == None && !surfaceOpen && replies == old(replies)[old(args).value.request := None]
      ensures msg.ActivateTab? ==> args == old(args) && replies == old(replies)
    {
      if args.None? {
        return;
      }
      var a := args.value;
      match msg {
        case ActivateTab(position) =>
          if position < |tabs| {
            activeTab := Some(position);
          }
        case SelectOutput(o) =>
          if !a.multiple {
            SingleSelectionBound(a.captureSources, o, 0);
          }
          args := Some(a.(captureSources := ToggleOutput(a.captureSources, a.multiple, o)));
        case SelectToplevel(t) =>
          if !a.multiple {
            SingleSelectionBound(a.captureSources, 0, t);
          }
          args := Some(a.(captureSources := ToggleToplevel(a.captureSources, a.multiple, t)));
        case Share =>
          args := None;
          replies := replies[a.request := Some(a.captureSources)];
          surfaceOpen := false;
        case Cancel =>
          args := None;
          replies := replies[a.request := None];
          surfaceOpen := false;
      }
    }

    /** `update_args`: a pending request is answered None and its surface
        reused; otherwise a surface is created. The tabs follow the new
        request's source types and the first is activated. */
    method UpdateArgs(newArgs: Args) returns (createdSurface: bool)
      requires Valid()
      requires newArgs.request !in replies
      requires args.Some? ==> newArgs.request != args.value.request
      requires !newArgs.multiple ==> Size(newArgs.captureSources) <= 1
      modifies this
      ensures Valid()
      ensures createdSurface <==> old(args).None?
      ensures args == Some(newArgs)
      ensures replies == if old(args).Some? then old(replies)[old(args).value.request := None] else old(replies)
      ensures tabs == TabsFor(newArgs.sourceTypes)
      ensures activeTab == if tabs == [] then None else Some(0)
    {
      createdSurface := args.None?;
      if args.Some? {
        replies := replies[args.value.request := None];
      }
      surfaceOpen := true;
      tabs := TabsFor(newArgs.sourceTypes);
      activeTab := if tabs == [] then None else Some(0);
      args := Some(newArgs);
    }

    /** `cancel`: only a pending request of the same session is answered
        None and its surface destroyed. */
    method CancelSession(sessionHandle: string) returns (destroyedSurface: bool)
      requires Valid()
      modifies this
      ensures Valid()
      ensures destroyedSurface <==> old(args).Some? && old(args).value.sessionHandle == sessionHandle
      ensures destroyedSurface ==> args == None && replies == old(replies)[old(args).value.request := None]
      ensures !destroyedSurface ==> args == old(args) && replies == old(replies) && surfaceOpen == old(surfaceOpen)
    {
      destroyedSurface := args.Some? && args.value.sessionHandle == sessionHandle;
      if destroyedSurface {
        replies := replies[args.value.request := None];
        args := None;
        surfaceOpen := false;
      }
    }
  }
}
