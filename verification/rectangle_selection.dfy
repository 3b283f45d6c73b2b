/** The rectangle-selection widget of the interactive screenshot
    (src/widget/rectangle_selection.rs): dragging an edge or a corner of
    the selected rectangle, reflecting the drag direction when the pointer
    crosses the opposite side. Pointer positions arrive as whole logical
    coordinates and the hit test on the handles is an input. */
module RectangleSelection {
  import Wrappers
  import opened ScreenshotRect

  /** What is being dragged: nothing, a corner or an edge. */
  datatype DragState = None | NW | N | NE | E | SE | S | SW | W

  const DEFAULT_DRAG_STATE: DragState := None

  /** The `u8` discriminant of each state. */
  function Code(s: DragState): (n: nat)
    ensures n <= 8
  {
    match s
    case None => 0 case NW => 1 case N => 2 case NE => 3 case E => 4
    case SE => 5 case S => 6 case SW => 7 case W => 8
  }

  /** `DragState::from(u8)`: the state with that discriminant; above 8 it
      is `unreachable!`, a panic. */
  function FromU8(n: nat): (r: Wrappers.Outcome<DragState>)
    requires n < 256
    ensures r.Panicked? <==> n > 8
    ensures r.Returned? ==> Code(r.value) == n
  {
    match n
    case 0 => Wrappers.Returned(None)
    case 1 => Wrappers.Returned(NW)
    case 2 => Wrappers.Returned(N)
    case 3 => Wrappers.Returned(NE)
    case 4 => Wrappers.Returned(E)
    case 5 => Wrappers.Returned(SE)
    case 6 => Wrappers.Returned(S)
    case 7 => Wrappers.Returned(SW)
    case 8 => Wrappers.Returned(W)
    case _ => Wrappers.Panicked
  }

  /** Every state survives the trip through its discriminant. */
  lemma FromCode(s: DragState)
    ensures FromU8(Code(s)) == Wrappers.Returned(s)
  {
  }

  predicate IsCorner(s: DragState) { s == NW || s == NE || s == SE || s == SW }

  predicate IsVertical(s: DragState) { s == N || s == S }

  predicate IsHorizontal(s: DragState) { s == E || s == W }

  /** The point of reflection: the edges opposite the dragged ones (an
      unused coordinate is 0). */
  function Reflection(s: DragState, prev: Rect): (r: (int, int))
    ensures s == NW || s == SW || s == W ==> r.0 == prev.right
    ensures s == NE || s == SE || s == E ==> r.0 == prev.left
    ensures s == NW || s == NE || s == N ==> r.1 == prev.bottom
    ensures s == SW || s == SE || s == S ==> r.1 == prev.top
  {
    match s
    case None => (0, 0)
    case NW => (prev.right, prev.bottom)
    case N => (0, prev.bottom)
    case NE => (prev.left, prev.bottom)
    case E => (prev.left, 0)
    case SE => (prev.left, prev.top)
    case S => (0, prev.top)
    case SW => (prev.right, prev.top)
    case W => (prev.right, 0)
  }

  /** The state after a drag to (dx, dy): a corner takes the quadrant of
      the drag point around the reflection point (keeping the old corner on
      a tie), an edge takes the side of the point. */
  function NextState(prev: DragState, r: (int, int), dx: int, dy: int): (s: DragState)
    ensures IsCorner(prev) ==> IsCorner(s)
    ensures IsVertical(prev) ==> IsVertical(s) && (s == N <==> dy < r.1)
    ensures IsHorizontal(prev) ==> IsHorizontal(s) && (s == E <==> dx > r.0)
    ensures prev == None ==> s == None
  {
    if IsCorner(prev) then
      if dx < r.0 && dy < r.1 then NW
      else if dx > r.0 && dy > r.1 then SE
      else if dx > r.0 && dy < r.1 then NE
      else if dx < r.0 && dy > r.1 then SW
      else prev
    else if IsVertical(prev) then (if dy < r.1 then N else S)
    else if IsHorizontal(prev) then (if dx > r.0 then E else W)
    else None
  }

  /** The rectangle spanned by the drag point and the reflection point for
      the new state; an edge drag keeps the other two edges. */
  function Spanned(s: DragState, r: (int, int), prev: Rect, dx: int, dy: int): (q: Rect)
    ensures IsCorner(s) ==>
      ((q.left, q.right) == (dx, r.0) || (q.left, q.right) == (r.0, dx))
      && ((q.top, q.bottom) == (dy, r.1) || (q.top, q.bottom) == (r.1, dy))
    ensures IsVertical(s) ==>
      q.left == prev.left && q.right == prev.right
      && ((q.top, q.bottom) == (dy, r.1) || (q.top, q.bottom) == (r.1, dy))
    ensures IsHorizontal(s) ==>
      q.top == prev.top && q.bottom == prev.bottom
      && ((q.left, q.right) == (dx, r.0) || (q.left, q.right) == (r.0, dx))
    ensures s == None ==> q == prev
  {
    match s
    case NW => Rect(dx, dy, r.0, r.1)
    case NE => Rect(r.0, dy, dx, r.1)
    case SE => Rect(r.0, r.1, dx, dy)
    case SW => Rect(dx, r.1, r.0, dy)
    case N => Rect(prev.left, dy, prev.right, r.1)
    case E => Rect(r.0, prev.top, dx, prev.bottom)
    case S => Rect(prev.left, r.1, prev.right, dy)
    case W => Rect(dx, prev.top, r.0, prev.bottom)
    case None => prev
  }

  /** The (state, rectangle) pair a drag to the global point (dx, dy)
      produces; in state None there is no drag. */
  function Drag(state: DragState, prev: Rect, dx: int, dy: int): (d: (DragState, Rect))
    ensures state == None <==> d.0 == None
    ensures state == None ==> d.1 == prev
  {
    if state == None then (state, prev)
    else
      var r := Reflection(state, prev);
      var s := NextState(state, r, dx, dy);
      (s, Spanned(s, r, prev, dx, dy))
  }

  /** A corner drag stays a corner drag; when the drag point is strictly
      off both reflection lines the rectangle is well ordered and keeps
      the reflection point as one of its corners. */
  lemma CornerDrag(state: DragState, prev: Rect, dx: int, dy: int)
    requires IsCorner(state)
    ensures IsCorner(Drag(state, prev, dx, dy).0)
    ensures var r := Reflection(state, prev);
      var q := Drag(state, prev, dx, dy).1;
      dx != r.0 && dy != r.1 ==>
        q.left < q.right && q.top < q.bottom
        && (q.left == r.0 || q.right == r.0) && (q.top == r.1 || q.bottom == r.1)
        && (q.left == dx || q.right == dx) && (q.top == dy || q.bottom == dy)
  {
  }

  /** On a tie with a reflection line the corner is kept. */
  lemma CornerTieKeepsState(state: DragState, prev: Rect, dx: int, dy: int)
    requires IsCorner(state)
    requires dx == Reflection(state, prev).0 || dy == Reflection(state, prev).1
    ensures Drag(state, prev, dx, dy).0 == state
  {
  }

  /** An N or S drag stays N or S and keeps the left and right edges; an E
      or W drag stays E or W and keeps the top and bottom edges. */
  lemma EdgeDrag(state: DragState, prev: Rect, dx: int, dy: int)
    ensures IsVertical(state) ==>
      var (s, q) := Drag(state, prev, dx, dy);
      IsVertical(s) && q.left == prev.left && q.right == prev.right
    ensures IsHorizontal(state) ==>
      var (s, q) := Drag(state, prev, dx, dy);
      IsHorizontal(s) && q.top == prev.top && q.bottom == prev.bottom
  {
  }

  /** What the widget sends: (drag state, rectangle). */
  type Published = (DragState, Rect)

  datatype DataSourceEvent = DndFinished | Cancelled | DndDropPerformed | OtherSource

  /** The events the widget reacts to. `inside` says whether the pointer is
      over the widget; `hit` is the handle under the pointer. */
  datatype Event =
    | DndEnter(x: int, y: int, inside: bool)
    | DndMotion(x: int, y: int, inside: bool)
    | DropPerformed
    | OtherOffer
    | DataSource(source: DataSourceEvent)
    | LeftPress(inside: bool, hit: DragState, px: int, py: int)
    | OtherMouse(inside: bool)
    | OtherEvent

  class Selection {
    var outputRect: Rect
    var selection: Rect
    var dragState: DragState
    /** Every message published through the shell, oldest first. */
    var published: seq<Published>

    constructor(outputRect: Rect, selection: Rect, dragState: DragState)
      ensures this.outputRect == outputRect && this.selection == selection
      ensures this.dragState == dragState && published == []
    {
      this.outputRect := outputRect;
      this.selection := selection;
      this.dragState := dragState;
      published := [];
    }

    /** `handle_drag_pos`: the drag point (x, y) is local to the output and
        is made global by the output's left and top edges; the new state
        and rectangle are stored and published. */
    method HandleDragPos(x: int, y: int)
      modifies this
      ensures outputRect == old(outputRect)
      ensures old(dragState) == None ==>
        selection == old(selection) && dragState == None && published == old(published)
      ensures old(dragState) != None ==>
        (dragState, selection) == Drag(old(dragState), old(selection), outputRect.left + x, outputRect.top + y)
        && published == old(published) + [(dragState, selection)]
    {
      var prev := selection;
      var dx := outputRect.left + x;
      var dy := outputRect.top + y;
      var prevState := dragState;
      if prevState == None {
        return;
      }
      var r := Reflection(prevState, prev);
      var newState := NextState(prevState, r, dx, dy);
      var newRect := Spanned(newState, r, prev, dx, dy);
      selection := newRect;
      dragState := newState;
      published := published + [(newState, newRect)];
    }

    /** Forget the drag and republish the current rectangle. */
    method Reset()
      modifies this
      ensures dragState == None
      ensures selection == old(selection) && outputRect == old(outputRect)
      ensures published == old(published) + [(None, selection)]
    {
      dragState := None;
      published := published + [(None, selection)];
    }

    /** `on_event`; the result says whether the event was captured.
        Drag-and-drop offers are ignored while nothing is dragged; a drop,
        or a finished, cancelled or dropped drag source, resets the drag;
        a left press outside every handle starts a one-unit south-east
        drag at the pointer, on a handle it starts dragging that handle. */
    method OnEvent(e: Event) returns (captured: bool)
      modifies this
      ensures outputRect == old(outputRect)
      ensures (e.DndEnter? || e.DndMotion?) && old(dragState) != None && e.inside ==>
        captured
        && (dragState, selection) == Drag(old(dragState), old(selection), outputRect.left + e.x, outputRect.top + e.y)
        && published == old(published) + [(dragState, selection)]
      ensures (e.DndEnter? || e.DndMotion?) && (old(dragState) == None || !e.inside) ==>
        !captured && selection == old(selection) && dragState == old(dragState) && published == old(published)
      ensures e.OtherOffer? ==>
        !captured && selection == old(selection) && dragState == old(dragState) && published == old(published)
      ensures e.DropPerformed? ==>
        captured == (old(dragState) != None)
        && selection == old(selection)
        && (old(dragState) != None ==> dragState == None && published == old(published) + [(None, selection)])
      ensures e.DataSource? ==>
        !captured && selection == old(selection)
        && (e.source != OtherSource ==> dragState == None && published == old(published) + [(None, selection)])
        && (e.source == OtherSource ==> dragState == old(dragState) && published == old(published))
      ensures e.LeftPress? && e.inside ==>
        captured && selection == old(selection)
        && (e.hit == None ==>
              var gx := e.px + outputRect.left;
              var gy := e.py + outputRect.top;
              dragState == SE && published == old(published) + [(SE, Rect(gx, gy, gx + 1, gy + 1))])
        && (e.hit != None ==> dragState == e.hit && published == old(published) + [(e.hit, selection)])
      ensures (e.LeftPress? || e.OtherMouse?) && !e.inside ==>
        !captured && selection == old(selection) && dragState == old(dragState) && published == old(published)
      ensures e.OtherMouse? && e.inside ==>
        captured && selection == old(selection) && dragState == old(dragState) && published == old(published)
      ensures e.OtherEvent? ==>
        !captured && selection == old(selection) && dragState == old(dragState) && published == old(published)
    {
      match e {
        case DndEnter(x, y, inside) =>
          if dragState == None || !inside {
            return false;
          }
          HandleDragPos(x, y);
          captured := true;
        case DndMotion(x, y, inside) =>
          if dragState == None || !inside {
            return false;
          }
          HandleDragPos(x, y);
          captured := true;
        case DropPerformed =>
          if dragState == None {
            return false;
          }
          Reset();
          captured := true;
        case OtherOffer =>
          captured := false;
        case DataSource(source) =>
          if source != OtherSource {
            Reset();
          }
          captured := false;
        case LeftPress(inside, hit, px, py) =>
          if !inside {
            return false;
          }
          if hit == None {
            var gx := px + outputRect.left;
            var gy := py + outputRect.top;
            dragState := SE;
            published := published + [(SE, Rect(gx, gy, gx + 1, gy + 1))];
          } else {
            dragState := hit;
            published := published + [(hit, selection)];
          }
          captured := true;
        case OtherMouse(inside) =>
          captured := inside;
        case OtherEvent =>
          captured := false;
      }
    }
  }
}
