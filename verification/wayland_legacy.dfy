/** The earlier Wayland helper (src/wayland.rs): a plain list of outputs and a
    shared-memory capture of a whole output. It shares the buffer types of
    the later helper, whose capture checks are the same. */
module WaylandLegacy {
  import opened Wrappers
  import W = Wayland

  class WaylandHelper {
    var outputs: seq<W.Output>

    constructor()
      ensures outputs == []
    {
      outputs := [];
    }

    /** `new_output`: append the output. */
    method NewOutput(o: W.Output)
      modifies this
      ensures outputs == old(outputs) + [o]
    {
      outputs := outputs + [o];
    }

    /** `update_output` does nothing. */
    method UpdateOutput(o: W.Output)
      ensures outputs == old(outputs)
    {
    }

    /** `output_destroyed`: remove the first equal output; the `unwrap`
        panics when the output is not listed. */
    method OutputDestroyed(o: W.Output) returns (panicked: bool)
      modifies this
      ensures panicked <==> o !in old(outputs)
      ensures panicked ==> outputs == old(outputs)
      ensures !panicked ==> exists i | 0 <= i < |old(outputs)| ::
        old(outputs)[i] == o && o !in old(outputs)[..i] && outputs == old(outputs)[..i] + old(outputs)[i + 1..]
    {
      var idx := W.FirstIndex(outputs, o);
      if idx.None? {
        panicked := true;
        return;
      }
      panicked := false;
      outputs := outputs[..idx.value] + outputs[idx.value + 1..];
    }
  }

  /** `capture_output_shm_fd`: the first shared-memory ABGR8888 buffer is
      used (none is a panic); a supplied length must equal stride * height;
      an image comes back only when the compositor answered `ready`. */
  function CaptureOutputShmFd(infos: seq<W.BufferInfo>, len: Option<nat>, ready: bool)
    : (r: Outcome<Option<W.ShmImage>>)
    ensures r.Panicked? <==> W.FindShmBuffer(infos).None?
    ensures r.Returned? && len.Some? && len.value != W.BufferLen(infos[W.FindShmBuffer(infos).value]) ==>
      r.value.None?
    ensures r.Returned? && !ready ==> r.value.None?
    ensures r.Returned? ==>
      var b := infos[W.FindShmBuffer(infos).value];
      (r.value.Some? <==> ready && (len.None? || len.value == W.BufferLen(b)))
    ensures r.Returned? && r.value.Some? ==>
      var b := infos[W.FindShmBuffer(infos).value];
      W.IsShmAbgr(b) && r.value.value == W.ShmImage(b.width, b.height)
  {
    W.CaptureSourceShmFd(infos, len, ready)
  }
}
