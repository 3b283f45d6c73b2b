/** The Screenshot portal (src/screenshot.rs): the outputs a screenshot can
    use, the bounds of a non-interactive capture, the interactive dialog's
    first selection and the messages of that dialog, ending in exactly one
    reply per request. Captured images are opaque numbers; whether a
    capture, a PNG encoding or a file write succeeds is an input. */
module Screenshot {
  import opened Wrappers
  import W = Wayland
  import opened ScreenshotRect
  import RS = RectangleSelection
  import A = App
  import PC = PortalConfig
  import P = Portal

  const VERSION: nat := 2

  /** The `uri` the reply carries. */
  datatype ScreenshotResult = ScreenshotResult(uri: string)

  const FILE_URI_PREFIX: string := "file:///"
  const CLIPBOARD_URI: string := "clipboard:///"

  // ---------------------------------------------------------------------
  // Outputs

  /** `Output`: an output that has a name, a position and a size. */
  datatype NamedOutput = NamedOutput(output: W.Output, logicalPosition: (int, int), logicalSize: (int, int),
                                     name: string)

  /** One step of the loop in `screenshot`: an output without info, name,
      position or size is skipped. */
  function UsableOutput(infos: map<W.Output, W.OutputInfo>, o: W.Output): (r: Option<NamedOutput>)
    ensures r.Some? <==> o in infos && A.Complete(infos[o])
    ensures r.Some? ==>
      r.value.output == o && Some(r.value.name) == infos[o].name
      && Some(r.value.logicalPosition) == infos[o].logicalPosition
      && Some(r.value.logicalSize) == infos[o].logicalSize
  {
    if o in infos && A.Complete(infos[o]) then
      var info := infos[o];
      Some(NamedOutput(o, info.logicalPosition.value, info.logicalSize.value, info.name.value))
    else None
  }

  /** The outputs `screenshot` works with, in the helper's order; there are
      none exactly when no output has complete info. */
  method UsableOutputs(outputs: seq<W.Output>, infos: map<W.Output, W.OutputInfo>) returns (r: seq<NamedOutput>)
    ensures r == FilterMap(outputs, o => UsableOutput(infos, o))
    ensures |r| <= |outputs|
    ensures r == [] <==> forall i | 0 <= i < |outputs| :: !(outputs[i] in infos && A.Complete(infos[outputs[i]]))
  {
    r := Collect(outputs, o => UsableOutput(infos, o));
    FilterMapMembership(outputs, o => UsableOutput(infos, o), NamedOutput(0, (0, 0), (0, 0), ""));
  }

  // ---------------------------------------------------------------------
  // Non-interactive capture

  /** The rectangle of a captured output; the right and bottom edges use
      saturating addition. */
  function CaptureRect(o: NamedOutput): (r: Rect)
    ensures r.left == o.logicalPosition.0 && r.top == o.logicalPosition.1
    ensures r.right == SaturatingAdd(o.logicalPosition.0, o.logicalSize.0)
    ensures r.bottom == SaturatingAdd(o.logicalPosition.1, o.logicalSize.1)
  {
    Rect(o.logicalPosition.0, o.logicalPosition.1,
         SaturatingAdd(o.logicalPosition.0, o.logicalSize.0), SaturatingAdd(o.logicalPosition.1, o.logicalSize.1))
  }

  /** The accumulated bounds: None before the first rectangle, then the
      rectangle itself, then the hull with each further one. They hold
      every rectangle. */
  function Bounds(rects: seq<Rect>): (b: Option<Rect>)
    ensures b.None? <==> rects == []
    ensures b.Some? ==> forall i | 0 <= i < |rects| :: Contains(b.value, rects[i])
  {
    if rects == [] then None
    else
      var n := |rects| - 1;
      var prev := Bounds(rects[..n]);
      assert forall i | 0 <= i < n :: rects[..n][i] == rects[i];
      if prev.None? then Some(rects[n]) else Some(Hull(prev.value, rects[n]))
  }

  /** The bounds are the smallest such rectangle: any rectangle holding
      every output holds them. */
  lemma {:induction false} BoundsSmallest(rects: seq<Rect>, c: Rect)
    requires rects != []
    requires forall i | 0 <= i < |rects| :: Contains(c, rects[i])
    ensures Contains(c, Bounds(rects).value)
  {
    var n := |rects| - 1;
    if n > 0 {
      assert forall i | 0 <= i < n :: rects[..n][i] == rects[i];
      BoundsSmallest(rects[..n], c);
    }
  }

  /** `screenshot_inner`: capture each output in turn, stopping at the
      first failed capture, then write the combined image to a temporary
      file. On success `frames` are the outputs' rectangles in order and
      `bounds` their bounds (the default rectangle when there are none). */
  method ScreenshotInner(outputs: seq<NamedOutput>, captured: seq<bool>, written: bool, tempPath: string)
    returns (r: Result<string, string>, bounds: Rect, frames: seq<Rect>)
    requires |captured| == |outputs|
    ensures r.Ok? <==> (forall i | 0 <= i < |outputs| :: captured[i]) && written
    ensures r.Ok? ==> r.value == tempPath
    ensures r.Ok? ==>
      |frames| == |outputs| && (forall i | 0 <= i < |outputs| :: frames[i] == CaptureRect(outputs[i]))
      && bounds == (if outputs == [] then ZERO else Bounds(frames).value)
  {
    var boundsOpt: Option<Rect> := None;
    frames := [];
    for i := 0 to |outputs|
      invariant |frames| == i
      invariant forall k | 0 <= k < i :: frames[k] == CaptureRect(outputs[k]) && captured[k]
      invariant boundsOpt == Bounds(frames)
    {
      if !captured[i] {
        return Err("shm screencopy failed"), ZERO, frames;
      }
      var rect := CaptureRect(outputs[i]);
      match boundsOpt {
        case Some(b) =>
          boundsOpt := Some(Rect(Min(b.left, rect.left), Min(b.top, rect.top),
                                 Max(b.right, rect.right), Max(b.bottom, rect.bottom)));
        case None =>
          boundsOpt := Some(rect);
      }
      assert (frames + [rect])[..i] == frames;
      frames := frames + [rect];
    }
    bounds := if boundsOpt.Some? then boundsOpt.value else ZERO;
    if !written {
      return Err("failed to write the image"), bounds, frames;
    }
    r := Ok(tempPath);
  }

  // ---------------------------------------------------------------------
  // The interactive dialog's arguments

  /** What the dialog has selected. */
  datatype Choice = Output(name: string) | Rectangle(rect: Rect, drag: RS.DragState)
                  | Window(output: string, index: Option<nat>)

  /** `From<&Choice> for config::screenshot::Choice`: the kind, with the
      output's name. */
  function ConfigChoice(c: Choice): (r: PC.Choice)
    ensures r.Output? <==> c.Output?
    ensures r.Rectangle? <==> c.Rectangle?
    ensures c.Output? ==> r.output == Some(c.name)
  {
    match c
    case Output(name) => PC.Output(Some(name))
    case Rectangle(_, _) => PC.Rectangle
    case Window(_, _) => PC.Window
  }

  datatype Action = ReturnPath | SaveToClipboard | SaveToPictures | SaveToDocuments | ChooseFolder
                  | ChoiceAction(choice: Choice)

  /** The action sent with the arguments: SaveToClipboard when the caller
      asked to choose the destination, ReturnPath otherwise. */
  function InitialAction(chooseDestination: Option<bool>): (a: Action)
    ensures a == SaveToClipboard <==> chooseDestination == Some(true)
    ensures a != SaveToClipboard ==> a == ReturnPath
  {
    if chooseDestination.Some? && chooseDestination.value then SaveToClipboard else ReturnPath
  }

  predicate HasOutputNamed(outputs: seq<NamedOutput>, name: string)
  {
    exists i | 0 <= i < |outputs| :: outputs[i].name == name
  }

  /** The first selection: a saved output that is still present, else the
      first output; a rectangle at the saved one (or the default), not
      being dragged; a window on the first output, none chosen yet. */
  function InitialChoice(saved: PC.Choice, lastRectangle: Option<Rect>, outputs: seq<NamedOutput>): (c: Choice)
    requires outputs != []
    ensures saved.Output? && saved.output.Some? && HasOutputNamed(outputs, saved.output.value) ==>
      c == Output(saved.output.value)
    ensures saved.Output? && !(saved.output.Some? && HasOutputNamed(outputs, saved.output.value)) ==>
      c == Output(outputs[0].name)
    ensures saved.Rectangle? && lastRectangle.Some? ==> c == Rectangle(lastRectangle.value, RS.DEFAULT_DRAG_STATE)
    ensures saved.Rectangle? && lastRectangle.None? ==> c == Rectangle(ZERO, RS.DEFAULT_DRAG_STATE)
    ensures saved.Window? ==> c == Window(outputs[0].name, None)
    ensures c.Output? ==> HasOutputNamed(outputs, c.name)
  {
    match saved
    case Output(name) =>
      if name.Some? && HasOutputNamed(outputs, name.value) then Output(name.value) else Output(outputs[0].name)
    case Rectangle =>
      Rectangle(if lastRectangle.Some? then lastRectangle.value else ZERO, RS.DEFAULT_DRAG_STATE)
    case Window => Window(outputs[0].name, None)
  }

  datatype ScreenshotOptions = ScreenshotOptions(modal: Option<bool>, interactive: Option<bool>,
                                                 chooseDestination: Option<bool>)

  /** `Args`: the request (its reply channel), the images by output name,
      the window images by output name, the selection, where to save and
      the action. */
  datatype Args = Args(request: nat, appId: string, options: ScreenshotOptions,
                       outputImages: map<string, nat>, toplevelImages: map<string, seq<nat>>,
                       choice: Choice, location: PC.ImageSaveLocation, action: Action)

  /** The arguments `screenshot` sends to the dialog, from the stored
      screenshot settings. */
  function ArgsFor(request: nat, appId: string, options: ScreenshotOptions, outputs: seq<NamedOutput>,
                   saved: PC.Screenshot,
                   outputImages: map<string, nat>, toplevelImages: map<string, seq<nat>>): (a: Args)
    requires outputs != []
    ensures a.request == request && a.options == options
    ensures a.choice == InitialChoice(saved.choice, saved.lastRectangle, outputs)
    ensures a.location == saved.saveLocation && a.action == InitialAction(options.chooseDestination)
  {
    Args(request, appId, options, outputImages, toplevelImages,
         InitialChoice(saved.choice, saved.lastRectangle, outputs), saved.saveLocation,
         InitialAction(options.chooseDestination))
  }

  /** `screenshot`: no usable output is Other; an interactive request
      answers with the dialog's reply (Other when it could not be handed
      over, Cancelled when the channel closed unanswered); otherwise the
      temporary file's URI, or Other when the capture failed. */
  function ScreenshotCall(outputs: seq<NamedOutput>, options: ScreenshotOptions, sent: bool,
                          reply: Option<P.PortalResponse<ScreenshotResult>>,
                          inner: Result<string, string>): (r: P.PortalResponse<ScreenshotResult>)
    ensures outputs == [] ==> r == P.Other
    ensures outputs != [] && options.interactive == Some(true) ==>
      (!sent ==> r == P.Other) && (sent && reply.Some? ==> r == reply.value)
      && (sent && reply.None? ==> r == P.Cancelled)
    ensures outputs != [] && options.interactive != Some(true) ==>
      (inner.Err? ==> r == P.Other) && (inner.Ok? ==> r == P.Success(ScreenshotResult(FILE_URI_PREFIX + inner.value)))
  {
    if outputs == [] then P.Other
    else if options.interactive.Some? && options.interactive.value then
      if !sent then P.Other else if reply.Some? then reply.value else P.Cancelled
    else if inner.Err? then P.Other
    else P.Success(ScreenshotResult(FILE_URI_PREFIX + inner.value))
  }

  // ---------------------------------------------------------------------
  // Capturing the selection

  /** `get_img_path`: no file for the clipboard; otherwise the file the
      environment provides (`dir`), which is None when no directory could
      be found or created. */
  function ImagePath(location: PC.ImageSaveLocation, dir: Option<string>): (p: Option<string>)
    ensures location == PC.Clipboard ==> p.None?
    ensures location != PC.Clipboard ==> p == dir
  {
    if location == PC.Clipboard then None else dir
  }

  /** Whether a capture succeeds as src/screenshot.rs:643-646 writes it:
      for an output saved to a file, a failed save is logged but the
      capture still counts as a success. `saveOk` is the outcome of the one
      save (to the file or to the clipboard buffer) the capture performs. */
  predicate SucceededAsWritten(choice: Choice, images: map<string, nat>, toplevels: map<string, seq<nat>>,
                               path: Option<string>, saveOk: bool)
  {
    match choice
    case Output(name) => name in images && (path.Some? || saveOk)
    case Rectangle(r, _) => Dimensions(r).Some? && saveOk
    case Window(o, index) => index.Some? && o in toplevels && index.value < |toplevels[o]| && saveOk
  }

  /** Whether a capture succeeds, with a failed save of an output counted
      as a failure, as every other kind of selection does. */
  predicate Succeeded(choice: Choice, images: map<string, nat>, toplevels: map<string, seq<nat>>,
                      path: Option<string>, saveOk: bool)
  {
    match choice
    case Output(name) => name in images && saveOk
    case Rectangle(r, _) => Dimensions(r).Some? && saveOk
    case Window(o, index) => index.Some? && o in toplevels && index.value < |toplevels[o]| && saveOk
  }

  /** The reply to a capture: the file's URI, or the clipboard URI when
      there is no file, on success; Other otherwise. */
  function CaptureResponse(success: bool, path: Option<string>): (r: P.PortalResponse<ScreenshotResult>)
    ensures r.Success? <==> success
    ensures success && path.Some? ==> r == P.Success(ScreenshotResult(FILE_URI_PREFIX + path.value))
    ensures success && path.None? ==> r == P.Success(ScreenshotResult(CLIPBOARD_URI))
    ensures !success ==> r == P.Other
  {
    if success && path.Some? then P.Success(ScreenshotResult(FILE_URI_PREFIX + path.value))
    else if success then P.Success(ScreenshotResult(CLIPBOARD_URI))
    else P.Other
  }

  /** As written, an output whose PNG could not be written to its file is
      still reported as a success, with the URI of the missing file. */
  lemma OutputSaveFailureReportedAsWritten()
    ensures var images := map["DP-1" := 0];
      var path := Some("/home/user/Pictures/Screenshots/Screenshot.png");
      SucceededAsWritten(Output("DP-1"), images, map[], path, false)
      && CaptureResponse(SucceededAsWritten(Output("DP-1"), images, map[], path, false), path)
         == P.Success(ScreenshotResult(FILE_URI_PREFIX + path.value))
      && CaptureResponse(Succeeded(Output("DP-1"), images, map[], path, false), path) == P.Other
  {
  }

  /** The two differ only on that case; with the correction a reported
      success means the one save succeeded and something was selected. */
  lemma SucceededCorrection(choice: Choice, images: map<string, nat>, toplevels: map<string, seq<nat>>,
                            path: Option<string>, saveOk: bool)
    ensures SucceededAsWritten(choice, images, toplevels, path, saveOk) != Succeeded(choice, images, toplevels, path, saveOk)
      <==> choice.Output? && choice.name in images && path.Some? && !saveOk
    ensures Succeeded(choice, images, toplevels, path, saveOk) ==> saveOk
    ensures Succeeded(choice, images, toplevels, path, saveOk) && choice.Window? ==> choice.index.Some?
  {
  }

  /** Location index 0, 1 and 2 select Clipboard, Pictures and Documents;
      any other index keeps the current location. */
  function LocationOf(index: nat, current: PC.ImageSaveLocation): (l: PC.ImageSaveLocation)
    ensures index <= 2 ==> PC.LocationIndex(l) == index
    ensures index > 2 ==> l == current
  {
    if index == PC.LocationIndex(PC.Clipboard) then PC.Clipboard
    else if index == PC.LocationIndex(PC.Pictures) then PC.Pictures
    else if index == PC.LocationIndex(PC.Documents) then PC.Documents
    else current
  }

  const DEFAULT_WALLPAPER: string := "/usr/share/backgrounds/pop/kate-hazen-COSMIC-desktop-wallpaper.png"

  /** The wallpaper of the first entry for the output's name, else the
      default wallpaper. */
  function WallpaperFor(name: string, wallpapers: seq<(string, string)>): (w: string)
    ensures (forall i | 0 <= i < |wallpapers| :: wallpapers[i].0 != name) ==> w == DEFAULT_WALLPAPER
    ensures (exists i | 0 <= i < |wallpapers| :: wallpapers[i].0 == name) ==>
      exists i | 0 <= i < |wallpapers| :: wallpapers[i].0 == name && w == wallpapers[i].1
        && forall k | 0 <= k < i :: wallpapers[k].0 != name
  {
    if wallpapers == [] then DEFAULT_WALLPAPER
    else if wallpapers[0].0 == name then wallpapers[0].1
    else
      var w := WallpaperFor(name, wallpapers[1..]);
      assert forall i | 1 <= i < |wallpapers| :: wallpapers[1..][i - 1] == wallpapers[i];
      w
  }

  function WindowIds(outputs: seq<A.OutputState>): (ids: seq<nat>)
    ensures |ids| == |outputs| && forall i | 0 <= i < |outputs| :: ids[i] == outputs[i].id
  {
    seq(|outputs|, i requires 0 <= i < |outputs| => outputs[i].id)
  }

  /** The screenshot part of the portal application's state; the rest of
      `CosmicPortal` (outputs, previous rectangle, active output, stored
      configuration) is the `App.Portal` each message works on. A reply of
      None means the channel was dropped unanswered, which the requester
      sees as Cancelled. */
  class Dialog {
    var args: Option<Args>
    var replies: map<nat, Option<P.PortalResponse<ScreenshotResult>>>
    /** Every capture written to the clipboard, oldest first. */
    var clipboard: seq<Choice>

    /** The pending request has no reply yet. */
    ghost predicate Valid()
      reads this
    {
      args.Some? ==> args.value.request !in replies
    }

    constructor()
      ensures Valid() && args.None? && replies == map[] && clipboard == []
    {
      args := None;
      replies := map[];
      clipboard := [];
    }

    /** `Msg::Capture`: every output's surface is destroyed; the pending
        request, if any, is taken and answered with the capture's outcome,
        and a success without a file goes to the clipboard. */
    method Capture(portal: A.Portal, dir: Option<string>, saveOk: bool) returns (destroyed: seq<nat>)
      requires Valid()
      modifies this
      ensures Valid()
      ensures destroyed == WindowIds(portal.outputs)
      ensures old(args).None? ==> args.None? && replies == old(replies) && clipboard == old(clipboard)
      ensures old(args).Some? ==>
        var a := old(args).value;
        var path := ImagePath(a.location, dir);
        var success := Succeeded(a.choice, a.outputImages, a.toplevelImages, path, saveOk);
        args.None?
        && replies == old(replies)[a.request := Some(CaptureResponse(success, path))]
        && clipboard == old(clipboard) + (if success && path.None? then [a.choice] else [])
    {
      destroyed := WindowIds(portal.outputs);
      if args.None? {
        return;
      }
      var a := args.value;
      args := None;
      var path := ImagePath(a.location, dir);
      var success := true;
      match a.choice {
        case Output(name) =>
          if name in a.outputImages {
            if !saveOk {
              success := false;
            } else if path.None? {
              clipboard := clipboard + [a.choice];
            }
          } else {
            success := false;
          }
        case Rectangle(r, _) =>
          if Dimensions(r).Some? {
            if !saveOk {
              success := false;
            } else if path.None? {
              clipboard := clipboard + [a.choice];
            }
          } else {
            success := false;
          }
        case Window(o, index) =>
          if index.Some? && o in a.toplevelImages && index.value < |a.toplevelImages[o]| {
            if !saveOk {
              success := false;
            } else if path.None? {
              clipboard := clipboard + [a.choice];
            }
          } else {
            success := false;
          }
      }
      replies := replies[a.request := Some(CaptureResponse(success, path))];
    }

    /** `Msg::Cancel`: every output's surface is destroyed and the pending
        request, if any, is taken and answered Cancelled. */
    method Cancel(portal: A.Portal) returns (destroyed: seq<nat>)
      requires Valid()
      modifies this
      ensures Valid() && clipboard == old(clipboard)
      ensures destroyed == WindowIds(portal.outputs)
      ensures old(args).None? ==> args.None? && replies == old(replies)
      ensures old(args).Some? ==> args.None? && replies == old(replies)[old(args).value.request := Some(P.Cancelled)]
    {
      destroyed := WindowIds(portal.outputs);
      if args.None? {
        return;
      }
      var a := args.value;
      args := None;
      replies := replies[a.request := Some(P.Cancelled)];
    }

    /** `Msg::Choice`: the selection becomes the pending one; a rectangle
        becomes the previous rectangle and the rectangle to remember, and
        any other selection keeps the stored one; the settings to store
        carry the kind of selection and the stored save location. */
    method ChoiceMsg(portal: A.Portal, c: Choice) returns (published: PC.Screenshot)
      requires Valid()
      modifies this`args, portal`prevRectangle
      ensures Valid()
      ensures old(args).Some? ==> args == Some(old(args).value.(choice := c))
      ensures old(args).None? ==> args.None?
      ensures c.Rectangle? ==> portal.prevRectangle == Some(c.rect) && published.lastRectangle == Some(c.rect)
      ensures !c.Rectangle? ==>
        portal.prevRectangle == old(portal.prevRectangle) && published.lastRectangle == portal.config.screenshot.lastRectangle
      ensures published.saveLocation == portal.config.screenshot.saveLocation && published.choice == ConfigChoice(c)
    {
      var last := portal.config.screenshot.lastRectangle;
      if c.Rectangle? {
        portal.prevRectangle := Some(c.rect);
        last := Some(c.rect);
      }
      if args.Some? {
        args := Some(args.value.(choice := c));
      }
      published := PC.Screenshot(portal.config.screenshot.saveLocation, ConfigChoice(c), last);
    }

    /** `Msg::OutputChanged`: with a pending request and a known output the
        selection becomes that output (by the name of its first entry); the
        output becomes the active one in any case. */
    method OutputChanged(portal: A.Portal, o: W.Output)
      requires Valid()
      modifies this`args, portal`activeOutput
      ensures Valid()
      ensures portal.activeOutput == Some(o)
      ensures old(args).Some? && A.FindOutput(portal.outputs, o).Some? ==>
        args == Some(old(args).value.(choice := Output(portal.outputs[A.FindOutput(portal.outputs, o).value].name)))
      ensures old(args).None? || A.FindOutput(portal.outputs, o).None? ==> args == old(args)
    {
      var k := A.FindOutput(portal.outputs, o);
      if args.Some? && k.Some? {
        args := Some(args.value.(choice := Output(portal.outputs[k.value].name)));
      }
      portal.activeOutput := Some(o);
    }

    /** `Msg::WindowChosen`: select the window, then capture. */
    method WindowChosen(portal: A.Portal, name: string, i: nat, dir: Option<string>, saveOk: bool)
      returns (destroyed: seq<nat>)
      requires Valid()
      modifies this
      ensures Valid()
      ensures destroyed == WindowIds(portal.outputs)
      ensures old(args).None? ==> args.None? && replies == old(replies) && clipboard == old(clipboard)
      ensures old(args).Some? ==>
        var a := old(args).value;
        var path := ImagePath(a.location, dir);
        var success := Succeeded(Window(name, Some(i)), a.outputImages, a.toplevelImages, path, saveOk);
        args.None?
        && replies == old(replies)[a.request := Some(CaptureResponse(success, path))]
        && clipboard == old(clipboard) + (if success && path.None? then [Window(name, Some(i))] else [])
    {
      if args.Some? {
        args := Some(args.value.(choice := Window(name, Some(i))));
      }
      destroyed := Capture(portal, dir, saveOk);
    }

    /** `Msg::Location`: with a pending request, set its save location by
        index and publish the settings to store; the stored choice is taken
        out of the portal's configuration on the way. */
    method Location(portal: A.Portal, index: nat) returns (published: Option<PC.Screenshot>)
      requires Valid()
      modifies this`args, portal`config
      ensures Valid()
      ensures old(args).None? ==> args.None? && published.None? && portal.config == old(portal.config)
      ensures old(args).Some? ==>
        var loc := LocationOf(index, old(args).value.location);
        var stored := old(portal.config).screenshot.choice;
        args == Some(old(args).value.(location := loc))
        && published == Some(PC.Screenshot(loc, stored, old(portal.config).screenshot.lastRectangle))
        && portal.config.screenshot.saveLocation == old(portal.config).screenshot.saveLocation
        && portal.config.screenshot.lastRectangle == old(portal.config).screenshot.lastRectangle
        && portal.config.background == old(portal.config).background
        && (stored.Output? ==> portal.config.screenshot.choice == PC.Output(None))
        && (!stored.Output? ==> portal.config.screenshot.choice == stored)
    {
      if args.None? {
        return None;
      }
      var loc := LocationOf(index, args.value.location);
      args := Some(args.value.(location := loc));
      var taken, rest := PC.TakeChoice(portal.config.screenshot.choice);
      portal.config := portal.config.(screenshot := portal.config.screenshot.(choice := rest));
      published := Some(PC.Screenshot(loc, taken, portal.config.screenshot.lastRectangle));
    }

    /** `update_args`. When the number of outputs and of output images
        differ the arguments are dropped (their requester sees Cancelled).
        Otherwise every output gets its wallpaper as background, an earlier
        pending request is dropped the same way and replaced, and surfaces
        are created for every output only when none was pending. */
    method UpdateArgs(portal: A.Portal, a: Args, wallpapers: seq<(string, string)>) returns (created: seq<nat>)
      requires Valid()
      requires a.request !in replies
      requires args.Some? ==> a.request != args.value.request
      modifies this`args, this`replies, portal`outputs
      ensures Valid()
      ensures |portal.outputs| == |old(portal.outputs)|
      ensures |old(portal.outputs)| != |a.outputImages| ==>
        args == old(args) && replies == old(replies)[a.request := None] && created == []
        && portal.outputs == old(portal.outputs)
      ensures |old(portal.outputs)| == |a.outputImages| ==>
        args == Some(a)
        && (old(args).None? ==> replies == old(replies) && created == WindowIds(portal.outputs))
        && (old(args).Some? ==> replies == old(replies)[old(args).value.request := None] && created == [])
        && forall i | 0 <= i < |portal.outputs| ::
             portal.outputs[i] == old(portal.outputs)[i].(bgSource := Some(WallpaperFor(old(portal.outputs)[i].name, wallpapers)))
    {
      if |portal.outputs| != |a.outputImages| {
        replies := replies[a.request := None];
        return [];
      }
      var outs := portal.outputs;
      var updated: seq<A.OutputState> := [];
      for i := 0 to |outs|
        invariant |updated| == i
        invariant forall k | 0 <= k < i :: updated[k] == outs[k].(bgSource := Some(WallpaperFor(outs[k].name, wallpapers)))
      {
        updated := updated + [outs[i].(bgSource := Some(WallpaperFor(outs[i].name, wallpapers)))];
      }
      portal.outputs := updated;
      created := [];
      if args.Some? {
        replies := replies[args.value.request := None];
      } else {
        created := WindowIds(portal.outputs);
      }
      args := Some(a);
    }
  }
}
