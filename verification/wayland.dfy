/** The Wayland helper (src/wayland/mod.rs): the list of outputs, their
    info, which toplevels are shown on which output, dmabuf modifier
    handling and the checks around a shared-memory capture. Compositor
    events and answers are inputs; proxies are compared by identity, so
    they are plain numbers here. */
module Wayland {
  import opened Wrappers

  type Output = nat
  type Toplevel = nat
  type WorkspaceHandle = nat

  datatype OutputInfo = OutputInfo(name: Option<string>, logicalPosition: Option<(int, int)>,
                                   logicalSize: Option<(int, int)>)

  datatype Geometry = Geometry(x: int, y: int, width: int, height: int)

  datatype ToplevelInfo = ToplevelInfo(foreignToplevel: Toplevel, identifier: string,
                                       workspace: seq<WorkspaceHandle>, output: seq<Output>,
                                       geometry: seq<Geometry>)

  datatype Workspace = Workspace(handle: WorkspaceHandle, active: bool)

  /** What the toplevel-info and workspace protocols currently report:
      every toplevel handle with its info (if it has arrived) and the
      workspace groups. */
  datatype ToplevelState = ToplevelState(toplevels: seq<(Toplevel, Option<ToplevelInfo>)>,
                                         workspaceGroups: seq<seq<Workspace>>)

  datatype CaptureSource = OutputSource(output: Output) | ToplevelSource(toplevel: Toplevel)

  // ---------------------------------------------------------------------
  // Toplevels per output

  /** The filter of `update_output_toplevels` as written: some workspace w
      and some workspace x of the toplevel with `x != w` or `w` inactive. */
  predicate ShownAsWritten(info: ToplevelInfo, groups: seq<seq<Workspace>>)
  {
    exists i, j, k | 0 <= i < |groups| && 0 <= j < |groups[i]| && 0 <= k < |info.workspace| ::
      info.workspace[k] != groups[i][j].handle || !groups[i][j].active
  }

  /** The filter as intended: the toplevel is on some active workspace. */
  predicate OnActiveWorkspace(info: ToplevelInfo, groups: seq<seq<Workspace>>)
  {
    exists i, j | 0 <= i < |groups| && 0 <= j < |groups[i]| ::
      groups[i][j].active && groups[i][j].handle in info.workspace
  }

  /** The filter_map stage: the (outputs, toplevel) pairs of the toplevels
      that have info and pass `keep`, in order. */
  function ShownPairs(ts: seq<(Toplevel, Option<ToplevelInfo>)>, keep: ToplevelInfo -> bool)
    : (r: seq<(seq<Output>, Toplevel)>)
    ensures |r| <= |ts|
    ensures forall p | p in r :: exists i | 0 <= i < |ts| ::
      ts[i].1.Some? && keep(ts[i].1.value) && p == (ts[i].1.value.output, ts[i].0)
    ensures forall i | 0 <= i < |ts| && ts[i].1.Some? && keep(ts[i].1.value) ::
      (ts[i].1.value.output, ts[i].0) in r
  {
    if ts == [] then []
    else
      var rest := ShownPairs(ts[..|ts| - 1], keep);
      assert forall i | 0 <= i < |ts| - 1 :: ts[..|ts| - 1][i] == ts[i];
      var (t, info) := ts[|ts| - 1];
      if info.Some? && keep(info.value) then rest + [(info.value.output, t)] else rest
  }

  /** A toplevel alone on the only workspace, which is active, is dropped by
      the filter as written although it is on an active workspace. */
  lemma ShownAsWrittenDropsActive()
    ensures var groups := [[Workspace(0, true)]];
            var info := ToplevelInfo(7, "app", [0], [1], []);
            !ShownAsWritten(info, groups) && OnActiveWorkspace(info, groups)
  {
    var groups: seq<seq<Workspace>> := [[Workspace(0, true)]];
    var info := ToplevelInfo(7, "app", [0], [1], []);
    assert groups[0][0].active && groups[0][0].handle in info.workspace;
  }

  /** A toplevel only on an inactive workspace is kept by the filter as
      written. */
  lemma ShownAsWrittenKeepsInactive()
    ensures var groups := [[Workspace(0, true), Workspace(1, false)]];
            var info := ToplevelInfo(7, "app", [1], [1], []);
            ShownAsWritten(info, groups) && !OnActiveWorkspace(info, groups)
  {
    var groups: seq<seq<Workspace>> := [[Workspace(0, true), Workspace(1, false)]];
    var info := ToplevelInfo(7, "app", [1], [1], []);
    assert info.workspace[0] != groups[0][0].handle;
  }

  /** The pairs `update_output_toplevels` folds, with the filter as
      intended. */
  function ShownOnActive(state: ToplevelState): seq<(seq<Output>, Toplevel)>
  {
    ShownPairs(state.toplevels, info => OnActiveWorkspace(info, state.workspaceGroups))
  }

  function Count(os: seq<Output>, o: Output): (n: nat)
    ensures n <= |os|
  {
    if os == [] then 0 else Count(os[..|os| - 1], o) + (if os[|os| - 1] == o then 1 else 0)
  }

  function Repeat(t: Toplevel, n: nat): (r: seq<Toplevel>)
    ensures |r| == n
  {
    if n == 0 then [] else Repeat(t, n - 1) + [t]
  }

  /** The reference definition of the fold: the toplevels listed under `o`,
      in order, once per occurrence of `o` in each toplevel's output list. */
  function ToplevelsOn(pairs: seq<(seq<Output>, Toplevel)>, o: Output): seq<Toplevel>
  {
    if pairs == [] then []
    else ToplevelsOn(pairs[..|pairs| - 1], o) + Repeat(pairs[|pairs| - 1].1, Count(pairs[|pairs| - 1].0, o))
  }

  function Listed(m: map<Output, seq<Toplevel>>, o: Output): seq<Toplevel>
  {
    if o in m then m[o] else []
  }

  /** One step of the fold: push `t` under each output of `os`, creating
      the entry when it is missing. */
  method PushUnderEach(m0: map<Output, seq<Toplevel>>, os: seq<Output>, t: Toplevel)
    returns (m: map<Output, seq<Toplevel>>)
    ensures forall o :: o in m <==> o in m0 || o in os
    ensures forall o :: Listed(m, o) == Listed(m0, o) + Repeat(t, Count(os, o))
  {
    m := m0;
    var j := 0;
    while j < |os|
      invariant 0 <= j <= |os|
      invariant forall o :: o in m <==> o in m0 || o in os[..j]
      invariant forall o :: Listed(m, o) == Listed(m0, o) + Repeat(t, Count(os[..j], o))
    {
      var o := os[j];
      forall p
        ensures Listed(m[o := Listed(m, o) + [t]], p) == Listed(m0, p) + Repeat(t, Count(os[..j] + [o], p))
      {
        PushStep(m, m0, os[..j], o, t, p);
      }
      assert os[..j + 1] == os[..j] + [o];
      m := m[o := Listed(m, o) + [t]];
      j := j + 1;
    }
    assert os[..j] == os;
  }

  /** Appending an output counts it once more. */
  lemma CountSnoc(os: seq<Output>, x: Output, o: Output)
    ensures Count(os + [x], o) == Count(os, o) + (if x == o then 1 else 0)
  {
    assert (os + [x])[..|os|] == os;
  }

  /** Pushing `t` under `o` extends the listing of `o` by one more
      repetition and leaves every other output's listing alone. */
  lemma PushStep(m: map<Output, seq<Toplevel>>, m0: map<Output, seq<Toplevel>>, done: seq<Output>,
                 o: Output, t: Toplevel, p: Output)
    requires Listed(m, p) == Listed(m0, p) + Repeat(t, Count(done, p))
    ensures Listed(m[o := Listed(m, o) + [t]], p) == Listed(m0, p) + Repeat(t, Count(done + [o], p))
  {
    CountSnoc(done, o, p);
    if p == o {
      assert Repeat(t, Count(done, p) + 1) == Repeat(t, Count(done, p)) + [t];
    }
  }

  /** The fold of `update_output_toplevels`: each toplevel is pushed under
      every output of its output list. */
  method GroupToplevels(pairs: seq<(seq<Output>, Toplevel)>) returns (m: map<Output, seq<Toplevel>>)
    ensures forall o :: o in m <==> exists i :: 0 <= i < |pairs| && o in pairs[i].0
    ensures forall o :: Listed(m, o) == ToplevelsOn(pairs, o)
  {
    m := map[];
    var i := 0;
    while i < |pairs|
      invariant 0 <= i <= |pairs|
      invariant forall o :: o in m <==> exists k :: 0 <= k < i && o in pairs[k].0
      invariant forall o :: Listed(m, o) == ToplevelsOn(pairs[..i], o)
    {
      m := PushUnderEach(m, pairs[i].0, pairs[i].1);
      assert pairs[..i + 1][..i] == pairs[..i];
      i := i + 1;
    }
    assert pairs[..i] == pairs;
  }

  lemma {:induction false} CountPositive(os: seq<Output>, o: Output)
    ensures Count(os, o) > 0 <==> o in os
  {
    if os != [] {
      CountPositive(os[..|os| - 1], o);
      assert os == os[..|os| - 1] + [os[|os| - 1]];
    }
  }

  lemma {:induction false} InRepeat(t: Toplevel, n: nat, u: Toplevel)
    ensures u in Repeat(t, n) <==> n > 0 && u == t
  {
    if n > 0 {
      InRepeat(t, n - 1, u);
    }
  }

  /** A toplevel is listed under `o` exactly when `o` is one of its outputs. */
  lemma {:induction false} ToplevelsOnMembership(pairs: seq<(seq<Output>, Toplevel)>, o: Output, t: Toplevel)
    ensures t in ToplevelsOn(pairs, o) <==> exists i :: 0 <= i < |pairs| && pairs[i].1 == t && o in pairs[i].0
  {
    if pairs != [] {
      var n := |pairs| - 1;
      ToplevelsOnMembership(pairs[..n], o, t);
      InRepeat(pairs[n].1, Count(pairs[n].0, o), t);
      CountPositive(pairs[n].0, o);
      if t in ToplevelsOn(pairs, o) && t !in ToplevelsOn(pairs[..n], o) {
        assert pairs[n].1 == t && o in pairs[n].0;
      }
      if exists i :: 0 <= i < |pairs| && pairs[i].1 == t && o in pairs[i].0 {
        var i :| 0 <= i < |pairs| && pairs[i].1 == t && o in pairs[i].0;
        if i < n {
          assert pairs[..n][i] == pairs[i];
        }
      }
    }
  }

  /** A toplevel is listed under `o` exactly when it has info, sits on an
      active workspace and has `o` among its outputs. */
  lemma ListedIffOnActiveWorkspace(state: ToplevelState, o: Output, t: Toplevel)
    ensures t in ToplevelsOn(ShownOnActive(state), o) <==>
      exists i | 0 <= i < |state.toplevels| ::
        state.toplevels[i].0 == t && state.toplevels[i].1.Some?
        && OnActiveWorkspace(state.toplevels[i].1.value, state.workspaceGroups)
        && o in state.toplevels[i].1.value.output
  {
    var pairs := ShownOnActive(state);
    ToplevelsOnMembership(pairs, o, t);
    if t in ToplevelsOn(pairs, o) {
      var k :| 0 <= k < |pairs| && pairs[k].1 == t && o in pairs[k].0;
      assert pairs[k] in pairs;
    }
    if exists i | 0 <= i < |state.toplevels| ::
         state.toplevels[i].0 == t && state.toplevels[i].1.Some?
         && OnActiveWorkspace(state.toplevels[i].1.value, state.workspaceGroups)
         && o in state.toplevels[i].1.value.output {
      var i :| 0 <= i < |state.toplevels| &&
         state.toplevels[i].0 == t && state.toplevels[i].1.Some?
         && OnActiveWorkspace(state.toplevels[i].1.value, state.workspaceGroups)
         && o in state.toplevels[i].1.value.output;
      var p := (state.toplevels[i].1.value.output, t);
      assert p in pairs;
      var k :| 0 <= k < |pairs| && pairs[k] == p;
    }
  }

  // ---------------------------------------------------------------------
  // The helper's state

  class WaylandHelper {
    var outputs: seq<Output>
    var outputInfos: map<Output, OutputInfo>
    var outputToplevels: map<Output, seq<Toplevel>>

    constructor()
      ensures outputs == [] && outputInfos == map[] && outputToplevels == map[]
    {
      outputs := [];
      outputInfos := map[];
      outputToplevels := map[];
    }

    /** `output_info`. */
    function OutputInfoOf(o: Output): (r: Option<OutputInfo>)
      reads this
      ensures r.Some? <==> o in outputInfos
      ensures r.Some? ==> r.value == outputInfos[o]
    {
      if o in outputInfos then Some(outputInfos[o]) else None
    }

    /** `set_output_info`: Some inserts or overwrites, None removes. */
    method SetOutputInfo(o: Output, info: Option<OutputInfo>)
      modifies this`outputInfos
      ensures info.Some? ==> outputInfos == old(outputInfos)[o := info.value]
      ensures info.None? ==> outputInfos == old(outputInfos) - {o}
      ensures OutputInfoOf(o) == info
      ensures forall p | p != o :: OutputInfoOf(p) == old(OutputInfoOf(p))
    {
      if info.Some? {
        outputInfos := outputInfos[o := info.value];
      } else {
        outputInfos := outputInfos - {o};
      }
    }

    /** `update_output_toplevels`, with the workspace filter as intended
        (see `ShownAsWritten` for the filter as written). */
    method UpdateOutputToplevels(state: ToplevelState)
      modifies this`outputToplevels
      ensures forall o :: Listed(outputToplevels, o) == ToplevelsOn(ShownOnActive(state), o)
    {
      outputToplevels := GroupToplevels(ShownOnActive(state));
    }

    /** `new_output`: record the output's info and append it. */
    method NewOutput(o: Output, info: Option<OutputInfo>, state: ToplevelState)
      modifies this
      ensures outputs == old(outputs) + [o]
      ensures OutputInfoOf(o) == info
      ensures forall p | p != o :: OutputInfoOf(p) == old(OutputInfoOf(p))
      ensures forall p :: Listed(outputToplevels, p) == ToplevelsOn(ShownOnActive(state), p)
    {
      SetOutputInfo(o, info);
      outputs := outputs + [o];
      UpdateOutputToplevels(state);
    }

    /** `update_output`: refresh the output's info only. */
    method UpdateOutput(o: Output, info: Option<OutputInfo>, state: ToplevelState)
      modifies this
      ensures outputs == old(outputs)
      ensures OutputInfoOf(o) == info
      ensures forall p | p != o :: OutputInfoOf(p) == old(OutputInfoOf(p))
      ensures forall p :: Listed(outputToplevels, p) == ToplevelsOn(ShownOnActive(state), p)
    {
      SetOutputInfo(o, info);
      UpdateOutputToplevels(state);
    }

    /** `output_destroyed`: forget the info, then remove the first equal
        output; the `unwrap` panics when the output is not listed. */
    method OutputDestroyed(o: Output, state: ToplevelState) returns (panicked: bool)
      modifies this
      ensures OutputInfoOf(o) == None
      ensures forall p | p != o :: OutputInfoOf(p) == old(OutputInfoOf(p))
      ensures panicked <==> o !in old(outputs)
      ensures panicked ==> outputs == old(outputs) && outputToplevels == old(outputToplevels)
      ensures !panicked ==> forall p :: Listed(outputToplevels, p) == ToplevelsOn(ShownOnActive(state), p)
      ensures !panicked ==> exists i | 0 <= i < |old(outputs)| ::
        old(outputs)[i] == o && o !in old(outputs)[..i] && outputs == old(outputs)[..i] + old(outputs)[i + 1..]
    {
      SetOutputInfo(o, None);
      var idx := FirstIndex(outputs, o);
      if idx.None? {
        panicked := true;
        return;
      }
      panicked := false;
      outputs := outputs[..idx.value] + outputs[idx.value + 1..];
      UpdateOutputToplevels(state);
    }
  }

  /** `iter().position(|x| x == o)`. */
  function FirstIndex(s: seq<Output>, o: Output): (r: Option<nat>)
    ensures r.None? <==> o !in s
    ensures r.Some? ==> r.value < |s| && s[r.value] == o && o !in s[..r.value]
  {
    if s == [] then None
    else if s[0] == o then Some(0)
    else
      var r := FirstIndex(s[1..], o);
      if r.None? then None
      else
        assert s[..r.value + 1] == [s[0]] + s[1..][..r.value];
        Some(r.value + 1)
  }

  // ---------------------------------------------------------------------
  // Dmabuf

  datatype DmabufFormat = DmabufFormat(format: nat, modifier: bv64)

  /** The 64-bit modifier split into the two 32-bit halves sent with
      `zwp_linux_buffer_params_v1.add` of the linux-dmabuf-unstable-v1
      protocol. */
  function SplitModifier(modifier: bv64): (r: (bv32, bv32))
    ensures ((r.0 as bv64) << 32) | (r.1 as bv64) == modifier
  {
    (((modifier >> 32) as bv32), ((modifier & 0xffff_ffff) as bv32))
  }

  function Flatten(tranches: seq<seq<nat>>): (r: seq<nat>)
  {
    if tranches == [] then [] else Flatten(tranches[..|tranches| - 1]) + tranches[|tranches| - 1]
  }

  /** `feedback_formats`: the table entries named by the tranche indices, in
      order; an index past the table is skipped. */
  function FeedbackFormats(indices: seq<nat>, table: seq<DmabufFormat>): seq<DmabufFormat>
  {
    if indices == [] then []
    else
      var rest := FeedbackFormats(indices[..|indices| - 1], table);
      var k := indices[|indices| - 1];
      if k < |table| then rest + [table[k]] else rest
  }

  /** `modifiers_for_format`. */
  function ModifiersForFormat(tranches: seq<seq<nat>>, table: seq<DmabufFormat>, format: nat): seq<bv64>
  {
    MatchingModifiers(FeedbackFormats(Flatten(tranches), table), format)
  }

  function MatchingModifiers(formats: seq<DmabufFormat>, format: nat): seq<bv64>
  {
    if formats == [] then []
    else
      var rest := MatchingModifiers(formats[..|formats| - 1], format);
      var f := formats[|formats| - 1];
      if f.format == format then rest + [f.modifier] else rest
  }

  lemma {:induction false} FlattenMembership(tranches: seq<seq<nat>>, k: nat)
    ensures k in Flatten(tranches) <==> exists i | 0 <= i < |tranches| :: k in tranches[i]
  {
    if tranches != [] {
      var n := |tranches| - 1;
      FlattenMembership(tranches[..n], k);
      if exists i | 0 <= i < |tranches| :: k in tranches[i] {
        var i :| 0 <= i < |tranches| && k in tranches[i];
        if i < n {
          assert tranches[..n][i] == tranches[i];
        }
      }
    }
  }

  lemma {:induction false} FeedbackFormatsMembership(indices: seq<nat>, table: seq<DmabufFormat>, f: DmabufFormat)
    ensures f in FeedbackFormats(indices, table) <==> exists k | k in indices :: k < |table| && table[k] == f
  {
    if indices != [] {
      var n := |indices| - 1;
      FeedbackFormatsMembership(indices[..n], table, f);
      assert indices == indices[..n] + [indices[n]];
    }
  }

  lemma {:induction false} MatchingModifiersMembership(formats: seq<DmabufFormat>, format: nat, m: bv64)
    ensures m in MatchingModifiers(formats, format) <==> DmabufFormat(format, m) in formats
  {
    if formats != [] {
      var n := |formats| - 1;
      MatchingModifiersMembership(formats[..n], format, m);
      assert formats == formats[..n] + [formats[n]];
    }
  }

  /** A modifier is offered for `format` exactly when some tranche names an
      in-range table entry with that format and modifier. */
  lemma ModifiersForFormatMembership(tranches: seq<seq<nat>>, table: seq<DmabufFormat>, format: nat, m: bv64)
    ensures m in ModifiersForFormat(tranches, table, format) <==>
      exists i, k | 0 <= i < |tranches| && k in tranches[i] :: k < |table| && table[k] == DmabufFormat(format, m)
  {
    MatchingModifiersMembership(FeedbackFormats(Flatten(tranches), table), format, m);
    FeedbackFormatsMembership(Flatten(tranches), table, DmabufFormat(format, m));
    forall k ensures k in Flatten(tranches) <==> exists i | 0 <= i < |tranches| :: k in tranches[i] {
      FlattenMembership(tranches, k);
    }
  }

  // ---------------------------------------------------------------------
  // Shared-memory capture

  /** `wl_shm::Format::Abgr8888`, the DRM fourcc 'AB24'. */
  const FORMAT_ABGR8888: nat := 0x3432_4241

  datatype BufferType = WlShm | Dmabuf

  /** A buffer the compositor offers; width, height and stride are u32. */
  datatype BufferInfo = BufferInfo(kind: BufferType, format: nat, width: nat, height: nat, stride: nat)

  datatype ShmImage = ShmImage(width: nat, height: nat)

  predicate IsShmAbgr(b: BufferInfo)
  {
    b.kind == WlShm && b.format == FORMAT_ABGR8888
  }

  /** The first offered buffer that is shared memory in ABGR8888. */
  function FindShmBuffer(infos: seq<BufferInfo>): (r: Option<nat>)
    ensures r.None? <==> forall k | 0 <= k < |infos| :: !IsShmAbgr(infos[k])
    ensures r.Some? ==> r.value < |infos| && IsShmAbgr(infos[r.value])
                        && forall k | 0 <= k < r.value :: !IsShmAbgr(infos[k])
  {
    if infos == [] then None
    else if IsShmAbgr(infos[0]) then Some(0)
    else
      var r := FindShmBuffer(infos[1..]);
      if r.None? then None
      else
        assert forall k | 1 <= k <= r.value :: infos[k] == infos[1..][k - 1];
        Some(r.value + 1)
  }

  /** `stride * height` in u32 arithmetic, which wraps in a release build. */
  function BufferLen(b: BufferInfo): (n: nat)
    ensures n < 0x1_0000_0000
  {
    (b.stride * b.height) % 0x1_0000_0000
  }

  /** The checks of `capture_source_shm_fd`. `infos` is what the compositor
      offered, `len` the caller's buffer length, `ready` whether the
      compositor answered `ready` rather than `failed`. */
  function CaptureSourceShmFd(infos: seq<BufferInfo>, len: Option<nat>, ready: bool): (r: Outcome<Option<ShmImage>>)
    ensures r.Panicked? <==> forall k | 0 <= k < |infos| :: !IsShmAbgr(infos[k])
    ensures r.Returned? ==>
      var b := infos[FindShmBuffer(infos).value];
      (r.value.Some? <==> ready && (len.None? || len.value == BufferLen(b)))
      && (r.value.Some? ==> r.value.value == ShmImage(b.width, b.height))
  {
    match FindShmBuffer(infos)
    case None => Panicked
    case Some(i) =>
      var b := infos[i];
      if len.Some? && len.value != BufferLen(b) then Returned(None)
      else if ready then Returned(Some(ShmImage(b.width, b.height)))
      else Returned(None)
  }
}
