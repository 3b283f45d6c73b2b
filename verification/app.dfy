/** The portal's application state (src/app.rs): the list of outputs kept
    from Wayland output events, the initial rectangle of the interactive
    screenshot, the stored configuration and the dark-mode notification. */
module App {
  import opened Wrappers
  import W = Wayland
  import opened ScreenshotRect
  import PC = PortalConfig

  const U32_LIMIT: nat := 0x1_0000_0000

  /** `w as u32` on an i32: the value modulo 2^32. */
  function AsU32(w: int): (n: nat)
    ensures n < U32_LIMIT
  {
    w % U32_LIMIT
  }

  /** `n as i32` on a u32: values from 2^31 up wrap to negatives. */
  function AsI32(n: nat): (w: int)
    requires n < U32_LIMIT
    ensures I32_MIN <= w <= I32_MAX
    ensures (w - n) % U32_LIMIT == 0
  {
    if n > I32_MAX then n - U32_LIMIT else n
  }

  /** The two casts undo each other on i32 values, so an output's size
      comes back as it was reported. */
  lemma CastRoundTrip(w: int)
    requires I32_MIN <= w <= I32_MAX
    ensures AsI32(AsU32(w)) == w
  {
  }

  /** `OutputState`: one output the portal can show a surface on. */
  datatype OutputState = OutputState(output: W.Output, id: nat, name: string, logicalSize: (nat, nat),
                                     logicalPos: (int, int), hasPointer: bool, bgSource: Option<string>)

  datatype OutputEvent = Created(info: Option<W.OutputInfo>) | Removed | InfoUpdate(update: W.OutputInfo) | OtherEvent

  /** The info names the output and gives its size and position. */
  predicate Complete(info: W.OutputInfo)
  {
    info.name.Some? && info.logicalSize.Some? && info.logicalPosition.Some?
  }

  /** The entry pushed for a new output, under a fresh window id. */
  function NewState(o: W.Output, id: nat, info: W.OutputInfo): (s: OutputState)
    requires Complete(info)
    ensures s.output == o && s.id == id && s.name == info.name.value
    ensures s.logicalPos == info.logicalPosition.value && !s.hasPointer && s.bgSource.None?
    ensures s.logicalSize == (AsU32(info.logicalSize.value.0), AsU32(info.logicalSize.value.1))
    ensures 0 <= info.logicalSize.value.0 < U32_LIMIT && 0 <= info.logicalSize.value.1 < U32_LIMIT ==>
      s.logicalSize == info.logicalSize.value
    ensures info.logicalSize.value.0 < 0 <= info.logicalSize.value.0 + U32_LIMIT ==> s.logicalSize.0 == info.logicalSize.value.0 + U32_LIMIT
  {
    OutputState(o, id, info.name.value, (AsU32(info.logicalSize.value.0), AsU32(info.logicalSize.value.1)),
                info.logicalPosition.value, false, None)
  }

  /** `retain(|o| o.output != output)`: the other entries, in order (see
      `RetainCounts` and `RetainAppend`). */
  function Retain(outs: seq<OutputState>, o: W.Output): (r: seq<OutputState>)
    ensures |r| <= |outs|
    ensures forall i | 0 <= i < |r| :: r[i].output != o && r[i] in outs
    ensures forall i | 0 <= i < |outs| :: outs[i].output != o ==> outs[i] in r
  {
    if outs == [] then []
    else if outs[0].output == o then Retain(outs[1..], o)
    else [outs[0]] + Retain(outs[1..], o)
  }

  /** Every entry of another output is kept as often as it occurs, and
      none for `o`. */
  lemma {:induction false} RetainCounts(outs: seq<OutputState>, o: W.Output)
    ensures forall x :: multiset(Retain(outs, o))[x] == if x.output == o then 0 else multiset(outs)[x]
  {
    if outs != [] {
      assert outs == [outs[0]] + outs[1..];
      RetainCounts(outs[1..], o);
    }
  }

  /** Retaining works entry by entry, so the kept entries stay in their
      order. */
  lemma {:induction false} RetainAppend(a: seq<OutputState>, b: seq<OutputState>, o: W.Output)
    ensures Retain(a + b, o) == Retain(a, o) + Retain(b, o)
  {
    if a == [] {
      assert a + b == b;
    } else {
      assert (a + b)[0] == a[0] && (a + b)[1..] == a[1..] + b;
      RetainAppend(a[1..], b, o);
    }
  }

  /** The index of the first entry for `o`. */
  function FindOutput(outs: seq<OutputState>, o: W.Output): (r: Option<nat>)
    ensures r.None? <==> forall i | 0 <= i < |outs| :: outs[i].output != o
    ensures r.Some? ==>
      r.value < |outs| && outs[r.value].output == o && forall i | 0 <= i < r.value :: outs[i].output != o
  {
    if outs == [] then None
    else if outs[0].output == o then Some(0)
    else
      var r := FindOutput(outs[1..], o);
      if r.None? then None else Some(r.value + 1)
  }

  /** The output list after an event for output `o`, `id` being the fresh
      window id an added entry gets. */
  function OutputsAfter(outs: seq<OutputState>, e: OutputEvent, o: W.Output, id: nat): (r: seq<OutputState>)
    ensures e.Created? && e.info.Some? && Complete(e.info.value) ==> r == outs + [NewState(o, id, e.info.value)]
    ensures e.Removed? ==> r == Retain(outs, o)
    ensures e.InfoUpdate? && Complete(e.update) && FindOutput(outs, o).None? ==>
      r == outs + [NewState(o, id, e.update)]
    ensures e.InfoUpdate? && Complete(e.update) && FindOutput(outs, o).Some? ==>
      var k := FindOutput(outs, o).value;
      |r| == |outs|
      && r[k].name == e.update.name.value && r[k].logicalPos == e.update.logicalPosition.value
      && r[k].logicalSize == (AsU32(e.update.logicalSize.value.0), AsU32(e.update.logicalSize.value.1))
      && r[k].output == o && r[k].id == outs[k].id && r[k].bgSource == outs[k].bgSource
      && forall i | 0 <= i < |r| && i != k :: r[i] == outs[i]
    ensures e.Created? && (e.info.None? || !Complete(e.info.value)) ==> r == outs
    ensures e.InfoUpdate? && !Complete(e.update) ==> r == outs
    ensures e.OtherEvent? ==> r == outs
  {
    match e
    case Created(info) =>
      if info.Some? && Complete(info.value) then outs + [NewState(o, id, info.value)] else outs
    case Removed => Retain(outs, o)
    case InfoUpdate(info) =>
      if !Complete(info) then outs
      else
        var k := FindOutput(outs, o);
        if k.None? then outs + [NewState(o, id, info)]
        else
          var entry := NewState(o, id, info);
          outs[k.value := outs[k.value].(name := entry.name, logicalSize := entry.logicalSize,
                                          logicalPos := entry.logicalPos)]
    case OtherEvent => outs
  }

  /** After a removal no entry is left for the output and every other
      entry stays. */
  lemma RemovedDropsEveryEntry(outs: seq<OutputState>, o: W.Output, id: nat, x: OutputState)
    ensures x in OutputsAfter(outs, Removed, o, id) <==> x in outs && x.output != o
  {
  }

  /** The logical rectangle an entry covers. */
  function OutputRect(s: OutputState): Rect
    requires s.logicalSize.0 < U32_LIMIT && s.logicalSize.1 < U32_LIMIT
  {
    Rect(s.logicalPos.0, s.logicalPos.1,
         s.logicalPos.0 + AsI32(s.logicalSize.0), s.logicalPos.1 + AsI32(s.logicalSize.1))
  }

  predicate SizesInRange(outs: seq<OutputState>)
  {
    forall i | 0 <= i < |outs| :: outs[i].logicalSize.0 < U32_LIMIT && outs[i].logicalSize.1 < U32_LIMIT
  }

  /** Every entry an event leaves has u32 sizes: new and updated entries
      get theirs from `AsU32`, and the others were already there. */
  lemma SizesStayInRange(outs: seq<OutputState>, e: OutputEvent, o: W.Output, id: nat)
    requires SizesInRange(outs)
    ensures SizesInRange(OutputsAfter(outs, e, o, id))
  {
    var r := OutputsAfter(outs, e, o, id);
    forall i | 0 <= i < |r|
      ensures r[i].logicalSize.0 < U32_LIMIT && r[i].logicalSize.1 < U32_LIMIT
    {
      if e.Removed? {
        assert r[i] in outs;
      }
    }
  }

  /** The box around every output, grown from the zero rectangle: it holds
      the origin and every output. */
  function BoxAround(outs: seq<OutputState>): (b: Rect)
    requires SizesInRange(outs)
    ensures Contains(b, ZERO)
    ensures forall i | 0 <= i < |outs| :: Contains(b, OutputRect(outs[i]))
  {
    if outs == [] then ZERO
    else
      var n := |outs| - 1;
      assert SizesInRange(outs[..n]);
      var prev := BoxAround(outs[..n]);
      assert forall i | 0 <= i < n :: outs[..n][i] == outs[i];
      Hull(prev, OutputRect(outs[n]))
  }

  /** Nothing smaller does: any rectangle holding the origin and every
      output holds the box. */
  lemma {:induction false} BoxAroundSmallest(outs: seq<OutputState>, c: Rect)
    requires SizesInRange(outs)
    requires Contains(c, ZERO)
    requires forall i | 0 <= i < |outs| :: Contains(c, OutputRect(outs[i]))
    ensures Contains(c, BoxAround(outs))
  {
    if outs != [] {
      var n := |outs| - 1;
      assert forall i | 0 <= i < n :: outs[..n][i] == outs[i];
      BoxAroundSmallest(outs[..n], c);
    }
  }

  /** The part of `CosmicPortal` that src/app.rs maintains. */
  class Portal {
    var outputs: seq<OutputState>
    var prevRectangle: Option<Rect>
    var activeOutput: Option<W.Output>
    var config: PC.Config
    /** Whether a configuration handler could be opened. */
    var hasConfigHandler: bool
    /** Whether the portal's event sender has arrived. */
    var hasTx: bool

    /** Every entry's size is a u32. */
    ghost predicate Valid()
      reads this
    {
      SizesInRange(outputs)
    }

    constructor(config: PC.Config, hasConfigHandler: bool)
      ensures Valid()
      ensures outputs == [] && prevRectangle.None? && activeOutput.None? && !hasTx
      ensures this.config == config && this.hasConfigHandler == hasConfigHandler
    {
      outputs := [];
      prevRectangle := None;
      activeOutput := None;
      this.config := config;
      this.hasConfigHandler := hasConfigHandler;
      hasTx := false;
    }

    /** The loop that grows the zero rectangle over every output. */
    method BoundingRect() returns (rect: Rect)
      requires Valid()
      ensures rect == BoxAround(outputs)
    {
      rect := ZERO;
      for i := 0 to |outputs|
        invariant SizesInRange(outputs[..i])
        invariant rect == BoxAround(outputs[..i])
      {
        assert outputs[..i + 1][..i] == outputs[..i];
        var s := outputs[i];
        rect := Rect(Min(rect.left, s.logicalPos.0), Min(rect.top, s.logicalPos.1),
                     Max(rect.right, s.logicalPos.0 + AsI32(s.logicalSize.0)),
                     Max(rect.bottom, s.logicalPos.1 + AsI32(s.logicalSize.1)));
      }
      assert outputs[..|outputs|] == outputs;
    }

    /** `update` on `Msg::Output`: apply the event to the output list, then,
        if there is no previous rectangle yet, set it to the box around
        every output; once set it is not recomputed. */
    method OutputEventUpdate(e: OutputEvent, o: W.Output, freshId: nat)
      requires Valid()
      modifies this
      ensures Valid()
      ensures outputs == OutputsAfter(old(outputs), e, o, freshId)
      ensures old(prevRectangle).None? ==> prevRectangle == Some(BoxAround(outputs))
      ensures old(prevRectangle).Some? ==> prevRectangle == old(prevRectangle)
      ensures config == old(config) && activeOutput == old(activeOutput) && hasTx == old(hasTx)
      ensures hasConfigHandler == old(hasConfigHandler)
    {
      SizesStayInRange(outputs, e, o, freshId);
      outputs := OutputsAfter(outputs, e, o, freshId);
      if prevRectangle.None? {
        var rect := BoundingRect();
        prevRectangle := Some(rect);
      }
    }

    /** `ConfigSetScreenshot`: store the screenshot settings through the
        configuration handler; without a handler nothing is stored. */
    method ConfigSetScreenshot(s: PC.Screenshot)
      modifies this`config
      ensures hasConfigHandler ==> config == old(config).(screenshot := s)
      ensures !hasConfigHandler ==> config == old(config)
    {
      if hasConfigHandler {
        config := config.(screenshot := s);
      }
    }

    /** The portal's `Init` event hands over the event sender. */
    method ReceiveSender()
      modifies this`hasTx
      ensures hasTx
    {
      hasTx := true;
    }

    /** `ConfigSubUpdate`: an external change replaces the whole
        configuration. */
    method ConfigSubUpdate(c: PC.Config)
      modifies this`config
      ensures config == c
    {
      config := c;
    }

    /** `system_theme_mode_update`: the IsDark event sent, if any. It is
        sent only when dark mode changed, and only once the sender exists. */
    method SystemThemeModeUpdate(wasDark: bool, isDark: bool) returns (sent: Option<bool>)
      ensures sent.Some? <==> wasDark != isDark && hasTx
      ensures sent.Some? ==> sent.value == isDark
    {
      if isDark != wasDark && hasTx {
        sent := Some(isDark);
      } else {
        sent := None;
      }
    }
  }
}
