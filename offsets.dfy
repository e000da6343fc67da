/**
 * The drag-offset reducer (src/reducers/dragOffset.js): a pure state transition over six nullable
 * points, plus the two offsets derived from them on demand.
 *
 * The reducer's callers tell states apart by object identity, so a state is an `OffsetRef`: the
 * record's contents together with the identity of the object that holds them.
 */
module Offsets {
  import opened Wrappers

  /** A point in client or page coordinates (JavaScript numbers, taken as integers). */
  datatype Point = Point(x: int, y: int)

  /** A nullable point. */
  type Offset = Option<Point>

  datatype OffsetState = OffsetState(
    initialSourceClientOffset: Offset,
    initialClientOffset: Offset,
    clientOffset: Offset,
    clientOffsetUntilToTop: Offset,
    pageOffset: Offset,
    pageOffsetUntilToTop: Offset)

  /** Which object holds a state: the one shared `initialState` constant, or an object the reducer built. */
  datatype Identity = Initial | Allocated(serial: nat)

  /** A reference to a state object: its identity and its contents. */
  datatype OffsetRef = OffsetRef(id: Identity, offsets: OffsetState)

  const InitialOffsets := OffsetState(None, None, None, None, None, None)

  /** The module's `initialState` constant, returned on END_DRAG and DROP. */
  const InitialState := OffsetRef(Initial, InitialOffsets)

  /** The actions the reducer distinguishes; `Other` stands for every other action type. */
  datatype Action =
    | BeginDrag(clientOffset: Offset, sourceClientOffset: Offset, clientOffsetUntilToTop: Offset,
                pageOffset: Offset, pageOffsetUntilToTop: Offset)
    | Hover(clientOffset: Offset, clientOffsetUntilToTop: Offset, pageOffset: Offset,
            pageOffsetUntilToTop: Offset)
    | EndDrag
    | Drop
    | Other

  /**
   * `areOffsetsEqual`: the same reference (for null, both null), or both present with equal
   * coordinates. On values this is exactly equality.
   */
  function AreOffsetsEqual(a: Offset, b: Offset): (r: bool)
    ensures r <==> a == b
  {
    match (a, b)
    case (None, None) => true
    case (Some(p), Some(q)) => p.x == q.x && p.y == q.y
    case _ => false
  }

  function Add(p: Point, q: Point): Point {
    Point(p.x + q.x, p.y + q.y)
  }

  /**
   * `getDifferenceFromInitialOffset`: how far the pointer has moved since the drag began; null as
   * soon as either point is.
   */
  function GetDifferenceFromInitialOffset(s: OffsetState): (r: Offset)
    ensures r.Some? <==> s.clientOffset.Some? && s.initialClientOffset.Some?
    ensures r.Some? ==> Add(s.initialClientOffset.value, r.value) == s.clientOffset.value
  {
    if s.clientOffset.None? || s.initialClientOffset.None? then None
    else
      var client, initial := s.clientOffset.value, s.initialClientOffset.value;
      Some(Point(client.x - initial.x, client.y - initial.y))
  }

  /**
   * `getSourceClientOffset`: where the dragged source is now, i.e. its initial position moved by
   * the pointer's displacement; null as soon as any of the three points is.
   */
  function GetSourceClientOffset(s: OffsetState): (r: Offset)
    ensures r.Some? <==>
      s.clientOffset.Some? && s.initialClientOffset.Some? && s.initialSourceClientOffset.Some?
    ensures r.Some? ==>
      r == Some(Add(s.initialSourceClientOffset.value, GetDifferenceFromInitialOffset(s).value))
  {
    if s.clientOffset.None? || s.initialClientOffset.None? || s.initialSourceClientOffset.None? then
      None
    else
      var client, initial, source :=
        s.clientOffset.value, s.initialClientOffset.value, s.initialSourceClientOffset.value;
      Some(Point(client.x + source.x - initial.x, client.y + source.y - initial.y))
  }

  /**
   * The `dragOffset` reducer. `serial` numbers the identity an object literal built by this call would
   * get; a new object is never the input object.
   */
  function DragOffset(state: OffsetRef, action: Action, serial: nat): (r: OffsetRef)
    requires state.id != Allocated(serial)
    // BEGIN_DRAG: a new object whose initial and current client offsets are both the action's.
    ensures action.BeginDrag? ==>
      r.id == Allocated(serial) && r.id != state.id &&
      r.offsets.initialClientOffset == r.offsets.clientOffset == action.clientOffset &&
      r.offsets.initialSourceClientOffset == action.sourceClientOffset &&
      r.offsets.clientOffsetUntilToTop == action.clientOffsetUntilToTop &&
      r.offsets.pageOffset == action.pageOffset &&
      r.offsets.pageOffsetUntilToTop == action.pageOffsetUntilToTop
    // ... so right after it the pointer has not moved and the source is where it started.
    ensures action.BeginDrag? && action.clientOffset.Some? ==>
      GetDifferenceFromInitialOffset(r.offsets) == Some(Point(0, 0))
    ensures action.BeginDrag? && action.clientOffset.Some? && action.sourceClientOffset.Some? ==>
      GetSourceClientOffset(r.offsets) == action.sourceClientOffset
    // HOVER to the stored client offset: the identical input object, page offsets notwithstanding.
    ensures action.Hover? && state.offsets.clientOffset == action.clientOffset ==> r == state
    // HOVER elsewhere: a new object; the initial offsets are kept, the other four replaced.
    ensures action.Hover? && state.offsets.clientOffset != action.clientOffset ==>
      r.id == Allocated(serial) && r.id != state.id &&
      r.offsets == state.offsets.(clientOffset := action.clientOffset,
                                  clientOffsetUntilToTop := action.clientOffsetUntilToTop,
                                  pageOffset := action.pageOffset,
                                  pageOffsetUntilToTop := action.pageOffsetUntilToTop)
    // After any HOVER the stored client offset is the action's.
    ensures action.Hover? ==> r.offsets.clientOffset == action.clientOffset
    // END_DRAG and DROP: the shared all-null constant, whatever came before.
    ensures action.EndDrag? || action.Drop? ==> r == InitialState
    // Any other action: the input object unchanged.
    ensures action.Other? ==> r == state
  {
    match action
    case BeginDrag(clientOffset, sourceClientOffset, clientOffsetUntilToTop, pageOffset, pageOffsetUntilToTop) =>
      OffsetRef(Allocated(serial), OffsetState(
        initialSourceClientOffset := sourceClientOffset,
        initialClientOffset := clientOffset,
        clientOffset := clientOffset,
        clientOffsetUntilToTop := clientOffsetUntilToTop,
        pageOffset := pageOffset,
        pageOffsetUntilToTop := pageOffsetUntilToTop))
    case Hover(clientOffset, clientOffsetUntilToTop, pageOffset, pageOffsetUntilToTop) =>
      if AreOffsetsEqual(state.offsets.clientOffset, clientOffset) then state
      else
        OffsetRef(Allocated(serial), state.offsets.(
          clientOffset := clientOffset,
          clientOffsetUntilToTop := clientOffsetUntilToTop,
          pageOffset := pageOffset,
          pageOffsetUntilToTop := pageOffsetUntilToTop))
    case EndDrag => InitialState
    case Drop => InitialState
    case Other => state
  }

  /**
   * HOVER is idempotent: a second, identical HOVER returns the object the first produced, so
   * two identical hovers leave the same state and identity as one.
   */
  lemma HoverIdempotent(state: OffsetRef, action: Action, serial1: nat, serial2: nat)
    requires action.Hover?
    requires state.id != Allocated(serial1)
    requires DragOffset(state, action, serial1).id != Allocated(serial2)
    ensures DragOffset(DragOffset(state, action, serial1), action, serial2) == DragOffset(state, action, serial1)
  {
    var once := DragOffset(state, action, serial1);
    assert AreOffsetsEqual(once.offsets.clientOffset, action.clientOffset);
  }
}
