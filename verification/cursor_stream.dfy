/** The cursor image stream (src/wayland/cursor_stream.rs). Each poll may
    (re)allocate the shared-memory buffer, read a finished frame, and issue
    the next capture. What the compositor advertised, how the pending frame
    resolved and the mapped buffer's bytes are inputs of a poll. */
module CursorStream {
  import opened Wrappers

  datatype State = WaitingForFormats | Capturing(capture: nat)

  /** The shared-memory buffer: its size and the stride it was created with. */
  datatype Buffer = Buffer(width: nat, height: nat, stride: nat)

  /** How the receiver of the current capture polls: nothing yet, a value
      (a captured frame, or a failure the compositor reported, which is
      read like a frame), or the sender dropped without a value. */
  datatype FramePoll = FramePending | FrameReady | FrameCancelled

  datatype Image = Image(width: nat, height: nat, pixels: seq<bv8>)

  datatype Poll = Pending | Ready(image: Option<Image>)

  /** `width * 4` in u32 arithmetic. */
  function Stride(width: nat): (s: nat)
    ensures s < 0x1_0000_0000
    ensures width * 4 < 0x1_0000_0000 ==> s == width * 4
  {
    (width * 4) % 0x1_0000_0000
  }

  /** Bytes 0 and 2 of every `chunks_mut(4)` chunk exchanged; a final
      chunk shorter than three bytes is left as it is. */
  function Swapped(s: seq<bv8>): (r: seq<bv8>)
    ensures |r| == |s|
  {
    if |s| < 3 then s
    else if |s| == 3 then [s[2], s[1], s[0]]
    else [s[2], s[1], s[0], s[3]] + Swapped(s[4..])
  }

  /** Whole chunks are swapped independently of what follows them. */
  lemma {:induction false} SwappedAppend(a: seq<bv8>, b: seq<bv8>)
    requires |a| % 4 == 0
    ensures Swapped(a + b) == Swapped(a) + Swapped(b)
  {
    if a == [] {
      assert a + b == b;
    } else {
      assert (a + b)[4..] == a[4..] + b;
      SwappedAppend(a[4..], b);
    }
  }

  lemma {:induction false} SwappedInvolution(s: seq<bv8>)
    ensures Swapped(Swapped(s)) == s
  {
    if |s| > 3 {
      var r := Swapped(s);
      assert r[4..] == Swapped(s[4..]);
      SwappedInvolution(s[4..]);
      assert s == s[..4] + s[4..];
    }
  }

  lemma {:induction false} SwappedKeepsGreenAlpha(s: seq<bv8>, i: nat)
    requires i < |s| && (i % 4 == 1 || i % 4 == 3)
    ensures Swapped(s)[i] == s[i]
  {
    if i >= 4 {
      SwappedKeepsGreenAlpha(s[4..], i - 4);
    }
  }

  /** Bytes 0 and 2 of every chunk of three or four bytes are exchanged. */
  lemma {:induction false} SwappedExchangesRedBlue(s: seq<bv8>, i: nat)
    requires i % 4 == 0 && i + 2 < |s|
    ensures Swapped(s)[i] == s[i + 2] && Swapped(s)[i + 2] == s[i]
  {
    if i >= 4 {
      SwappedExchangesRedBlue(s[4..], i - 4);
    }
  }

  /** One chunk of three or four bytes swapped in place extends the swapped
      prefix by that chunk. */
  lemma SwapStep(orig: seq<bv8>, start: nat, end: nat)
    requires start % 4 == 0 && start + 3 <= end <= |orig|
    requires end == if start + 4 <= |orig| then start + 4 else |orig|
    ensures (Swapped(orig[..start]) + orig[start..])[start := orig[start + 2]][start + 2 := orig[start]]
         == Swapped(orig[..end]) + orig[end..]
  {
    var chunk, rest := orig[start..end], orig[end..];
    var swapped := orig[start..][0 := orig[start + 2]][2 := orig[start]];
    assert chunk[0 := orig[start + 2]][2 := orig[start]] == Swapped(chunk);
    assert swapped == Swapped(chunk) + rest;
    assert orig[..end] == orig[..start] + chunk;
    SwappedAppend(orig[..start], chunk);
  }

  /** A final chunk of one or two bytes is left as it is. */
  lemma ShortTail(orig: seq<bv8>, start: nat)
    requires start % 4 == 0 && start < |orig| < start + 3
    ensures Swapped(orig[..start]) + orig[start..] == Swapped(orig)
  {
    assert orig[..start] + orig[start..] == orig;
    SwappedAppend(orig[..start], orig[start..]);
  }

  /** Where the chunk starting at `start` ends, as a remainder modulo 4. */
  lemma ChunkEnd(start: nat, n: nat)
    requires start % 4 == 0 && start < n
    ensures start + 4 <= n ==> (start + 4) % 4 == 0
    ensures n < start + 4 ==> n % 4 == n - start
  {
  }

  /** BGRA to RGBA on the copied bytes, one `chunks_mut(4)` chunk at a time;
      `swap(2, 0)` on a final chunk of one or two bytes panics. */
  method SwapBgraToRgba(bytes: array<bv8>) returns (panicked: bool)
    modifies bytes
    ensures panicked <==> bytes.Length % 4 == 1 || bytes.Length % 4 == 2
    ensures bytes[..] == Swapped(old(bytes[..]))
  {
    ghost var orig := bytes[..];
    var n := bytes.Length;
    var start := 0;
    while start < n
      invariant start <= n
      invariant start % 4 == 0 || (start == n && n % 4 == 3)
      invariant bytes[..] == Swapped(orig[..start]) + orig[start..]
    {
      var end := if start + 4 <= n then start + 4 else n;
      ChunkEnd(start, n);
      if end - start < 3 {
        // the last chunk has one or two bytes: `swap(2, 0)` is out of bounds
        ShortTail(orig, start);
        return true;
      }
      ghost var before := bytes[..];
      bytes[start], bytes[start + 2] := bytes[start + 2], bytes[start];
      assert bytes[..] == before[start := before[start + 2]][start + 2 := before[start]];
      SwapStep(orig, start, end);
      start := end;
    }
    assert orig[..start] == orig;
    panicked := false;
  }

  class CursorStream {
    var state: State
    var buffer: Option<Buffer>
    /** Number of captures issued so far; also names the next receiver. */
    var captures: nat

    /** A capture is only pending while a buffer exists. */
    ghost predicate Valid()
      reads this
    {
      state.Capturing? ==> buffer.Some?
    }

    /** `CursorStream::new`. */
    constructor()
      ensures Valid()
      ensures state == WaitingForFormats && buffer == None && captures == 0
    {
      state := WaitingForFormats;
      buffer := None;
      captures := 0;
    }

    /** Whether the advertised buffer size calls for a new buffer. */
    static predicate NeedsBuffer(buffer: Option<Buffer>, advertised: Option<(nat, nat)>)
    {
      advertised.Some? && (buffer.None? || (buffer.value.width, buffer.value.height) != advertised.value)
    }

    /** `poll_next`. `advertised` is the buffer size the compositor
        advertised (if it did), `frame` how the pending capture's receiver
        polls, and `mapped` the bytes read from the buffer. */
    method PollNext(advertised: Option<(nat, nat)>, frame: FramePoll, mapped: seq<bv8>)
      returns (r: Outcome<Poll>)
      requires Valid()
      modifies this
      ensures Valid()
      ensures buffer == if NeedsBuffer(old(buffer), advertised)
                        then Some(Buffer(advertised.value.0, advertised.value.1, Stride(advertised.value.0)))
                        else old(buffer)
      // the state a reallocation leaves, before the receiver is polled
      ensures var s0 := if NeedsBuffer(old(buffer), advertised) then WaitingForFormats else old(state);
        if s0.Capturing? && frame == FramePending then
          r == Returned(Pending) && state == s0 && captures == old(captures)
        else if s0.Capturing? && frame == FrameReady then
          captures == old(captures) && state == s0
          && (r.Panicked? <==> |mapped| % 4 == 1 || |mapped| % 4 == 2)
          && (r.Returned? ==> r.value == Ready(
                if |mapped| >= buffer.value.width * buffer.value.height * 4
                then Some(Image(buffer.value.width, buffer.value.height, Swapped(mapped)))
                else None))
        else if buffer.Some? then
          r == Returned(Pending) && state == Capturing(old(captures)) && captures == old(captures) + 1
        else
          r == Returned(Pending) && state == s0 && captures == old(captures)
    {
      if NeedsBuffer(buffer, advertised) {
        var (width, height) := advertised.value;
        buffer := Some(Buffer(width, height, Stride(width)));
        state := WaitingForFormats;
      }

      if state.Capturing? {
        match frame {
          case FrameReady =>
            var b := buffer.value;
            var bytes := new bv8[|mapped|](i requires 0 <= i < |mapped| => mapped[i]);
            assert bytes[..] == mapped;
            var panicked := SwapBgraToRgba(bytes);
            if panicked {
              return Panicked;
            }
            var image := if |mapped| >= b.width * b.height * 4
                         then Some(Image(b.width, b.height, bytes[..])) else None;
            return Returned(Ready(image));
          case FrameCancelled =>
            // the dropped sender is ignored and a new capture is issued below
          case FramePending =>
            return Returned(Pending);
        }
      }

      if buffer.Some? {
        state := Capturing(captures);
        captures := captures + 1;
      }
      r := Returned(Pending);
    }
  }
}
