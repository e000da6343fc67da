/**
 * The drag-and-drop monitor (src/DragDropMonitor.js): read-only queries over one snapshot of the
 * drag operation, and the listener lists that the store's change notifications are fanned out to.
 *
 * The store itself is not modelled: the snapshot a query reads and the state id a notification
 * carries are passed in. The collaborators whose code is elsewhere (the handler registry,
 * `matchesType`, `areDirty`, the handlers' own callbacks) are parameters.
 */
module Monitor {
  import opened Wrappers
  import opened Offsets

  type HandlerId = string

  /** A drag item type: a string or a Symbol. */
  datatype ItemType = Named(name: string) | Symbol(key: nat)

  /** What a target was registered to accept: one item type or several. */
  datatype TargetType = Single(itemType: ItemType) | AnyOf(itemTypes: seq<ItemType>)

  /** A reference to a plain object produced by a handler (the dragged item, a drop result). */
  type ObjectRef = nat

  /** The `dragOperation` part of the store's state. */
  datatype DragOperation = DragOperation(
    itemType: Option<ItemType>,
    item: Option<ObjectRef>,
    sourceId: Option<HandlerId>,
    targetIds: seq<HandlerId>,
    dropResult: Option<ObjectRef>,
    didDrop: bool,
    isSourcePublic: bool)

  /** A registered source's callbacks, as they answer for the current snapshot. */
  datatype SourceHandler = SourceHandler(canDrag: HandlerId -> bool, isDragging: HandlerId -> bool)

  /** A registered target's callback, as it answers for the current snapshot. */
  datatype TargetHandler = TargetHandler(canDrop: HandlerId -> bool)

  /**
   * The code the monitor calls but that lives elsewhere: the handler registry's lookups
   * (`getSource(id, includePinned)`, `getTarget`, `getSourceType`, `getTargetType`) and
   * `matchesType`.
   */
  datatype Collaborators = Collaborators(
    getSource: (HandlerId, bool) -> Option<SourceHandler>,
    getTarget: HandlerId -> Option<TargetHandler>,
    getSourceType: HandlerId -> ItemType,
    getTargetType: HandlerId -> TargetType,
    matchesType: (TargetType, ItemType) -> bool)

  /** The failed `invariant` checks, one per message. */
  datatype MonitorError =
    | SourceNotFound       // 'Expected to find a valid source.'
    | TargetNotFound       // 'Expected to find a valid target.'
    | ListenerNotFunction  // 'listener must be a function.'
    | HandlerIdsNotArray   // 'handlerIds, when specified, must be an array of strings.'
    | OptionsNotObject     // the TypeError of destructuring a null `options`

  // ---------------------------------------------------------------------------------------------
  // Queries

  /** JavaScript truthiness of an item type: every Symbol is truthy, the empty string is not. */
  predicate IsTruthy(t: ItemType) {
    match t
    case Named(name) => |name| > 0
    case Symbol(_) => true
  }

  /** `isDragging`: `Boolean(getItemType())`. */
  function IsDragging(op: DragOperation): (r: bool)
    ensures r <==> op.itemType.Some? && op.itemType.value != Named("")
  {
    op.itemType.Some? && IsTruthy(op.itemType.value)
  }

  /** `canDragSource`: fails for an unknown source; never while a drag is in progress. */
  function CanDragSource(op: DragOperation, env: Collaborators, sourceId: HandlerId): (r: Result<bool, MonitorError>)
    ensures r.Failure? <==> env.getSource(sourceId, false).None?
    ensures r.Failure? ==> r.error == SourceNotFound
    ensures IsDragging(op) ==> r != Success(true)
    ensures r == Success(true) <==>
      env.getSource(sourceId, false).Some? && !IsDragging(op) &&
      env.getSource(sourceId, false).value.canDrag(sourceId)
  {
    match env.getSource(sourceId, false)
    case None => Failure(SourceNotFound)
    case Some(source) =>
      if IsDragging(op) then Success(false)
      else Success(source.canDrag(sourceId))
  }

  /** `canDropOnTarget`: fails for an unknown target; false unless dragging and not yet dropped. */
  function CanDropOnTarget(op: DragOperation, env: Collaborators, targetId: HandlerId): (r: Result<bool, MonitorError>)
    ensures r.Failure? <==> env.getTarget(targetId).None?
    ensures r.Failure? ==> r.error == TargetNotFound
    ensures !IsDragging(op) || op.didDrop ==> r != Success(true)
    ensures r == Success(true) <==>
      env.getTarget(targetId).Some? && IsDragging(op) && !op.didDrop &&
      env.matchesType(env.getTargetType(targetId), op.itemType.value) &&
      env.getTarget(targetId).value.canDrop(targetId)
  {
    match env.getTarget(targetId)
    case None => Failure(TargetNotFound)
    case Some(target) =>
      if !IsDragging(op) || op.didDrop then Success(false)
      else
        var targetType := env.getTargetType(targetId);
        var draggedItemType := op.itemType.value;
        Success(env.matchesType(targetType, draggedItemType) && target.canDrop(targetId))
  }

  /**
   * `isDraggingSource`: looks the source up including pinned ones; true only while dragging a
   * public source whose type is strictly the dragged item's type, and then as the source says.
   */
  function IsDraggingSource(op: DragOperation, env: Collaborators, sourceId: HandlerId): (r: Result<bool, MonitorError>)
    ensures r.Failure? <==> env.getSource(sourceId, true).None?
    ensures r.Failure? ==> r.error == SourceNotFound
    ensures r == Success(true) <==>
      env.getSource(sourceId, true).Some? && IsDragging(op) && op.isSourcePublic &&
      op.itemType == Some(env.getSourceType(sourceId)) &&
      env.getSource(sourceId, true).value.isDragging(sourceId)
  {
    match env.getSource(sourceId, true)
    case None => Failure(SourceNotFound)
    case Some(source) =>
      if !IsDragging(op) || !op.isSourcePublic then Success(false)
      else
        var sourceType := env.getSourceType(sourceId);
        if Some(sourceType) != op.itemType then Success(false)
        else Success(source.isDragging(sourceId))
  }

  /** `Array.prototype.indexOf`: the first position of `x` in `s`, or -1. */
  function IndexOf<X(==)>(s: seq<X>, x: X): (i: int)
    ensures -1 <= i < |s|
    ensures i == -1 <==> x !in s
    ensures 0 <= i ==> s[i] == x && x !in s[..i]
  {
    if s == [] then -1
    else if s[0] == x then 0
    else
      var j := IndexOf(s[1..], x);
      if j == -1 then -1
      else
        assert s[..j + 1] == [s[0]] + s[1..][..j];
        j + 1
  }

  /**
   * `isOverTarget`: false unless dragging an item the target's type matches over a non-empty
   * hover list. Deep: the target is anywhere in the list. Shallow: its first occurrence is the
   * last entry, the topmost hovered target.
   */
  function IsOverTarget(op: DragOperation, env: Collaborators, targetId: HandlerId, shallow: bool): (r: bool)
    ensures r ==> IsDragging(op) && env.matchesType(env.getTargetType(targetId), op.itemType.value)
    ensures !shallow ==>
      (r <==> IsDragging(op) && env.matchesType(env.getTargetType(targetId), op.itemType.value) &&
              targetId in op.targetIds)
    ensures shallow ==>
      (r <==> IsDragging(op) && env.matchesType(env.getTargetType(targetId), op.itemType.value) &&
              |op.targetIds| > 0 && op.targetIds[|op.targetIds| - 1] == targetId &&
              targetId !in op.targetIds[..|op.targetIds| - 1])
  {
    if !IsDragging(op) then false
    else
      var targetType := env.getTargetType(targetId);
      var draggedItemType := op.itemType.value;
      if !env.matchesType(targetType, draggedItemType) then false
      else
        var targetIds := op.targetIds;
        if |targetIds| == 0 then false
        else
          var index := IndexOf(targetIds, targetId);
          if shallow then index == |targetIds| - 1
          else index > -1
  }

  /**
   * With a duplicate-free hover list, the last hovered target is the one and only target that is
   * shallowly over, as long as its type matches the dragged item.
   */
  lemma ShallowOverIsTopmost(op: DragOperation, env: Collaborators, targetId: HandlerId)
    requires IsDragging(op) && |op.targetIds| > 0 && Distinct(op.targetIds)
    ensures var top := op.targetIds[|op.targetIds| - 1];
      IsOverTarget(op, env, targetId, true) <==>
      targetId == top && env.matchesType(env.getTargetType(top), op.itemType.value)
  {
    var n := |op.targetIds|;
    var below := op.targetIds[..n - 1];
    if targetId == op.targetIds[n - 1] {
      forall k | 0 <= k < |below| ensures below[k] != targetId {
        assert below[k] == op.targetIds[k];
      }
    }
  }

  /** `getClientOffset(untilToTopWin)`. */
  function GetClientOffset(dragOffset: OffsetRef, untilToTopWin: bool): Offset {
    if untilToTopWin then dragOffset.offsets.clientOffsetUntilToTop else dragOffset.offsets.clientOffset
  }

  /** `getPageOffset(untilToTopWin)`. */
  function GetPageOffset(dragOffset: OffsetRef, untilToTopWin: bool): Offset {
    if untilToTopWin then dragOffset.offsets.pageOffsetUntilToTop else dragOffset.offsets.pageOffset
  }

  /**
   * What the offset accessors report right after a BEGIN_DRAG: the action's offsets, no
   * displacement, and the source at its initial position.
   */
  lemma OffsetAccessorsAfterBeginDrag(state: OffsetRef, action: Action, serial: nat)
    requires action.BeginDrag? && state.id != Allocated(serial)
    ensures var s := DragOffset(state, action, serial);
      GetClientOffset(s, false) == s.offsets.initialClientOffset == action.clientOffset &&
      GetClientOffset(s, true) == action.clientOffsetUntilToTop &&
      GetPageOffset(s, false) == action.pageOffset &&
      GetPageOffset(s, true) == action.pageOffsetUntilToTop &&
      s.offsets.initialSourceClientOffset == action.sourceClientOffset &&
      (action.clientOffset.Some? ==> GetDifferenceFromInitialOffset(s.offsets) == Some(Point(0, 0))) &&
      (action.clientOffset.Some? && action.sourceClientOffset.Some? ==>
         GetSourceClientOffset(s.offsets) == action.sourceClientOffset)
  {
  }

  /** After END_DRAG or DROP every offset accessor reports null. */
  lemma OffsetAccessorsAfterEnd(state: OffsetRef, action: Action, serial: nat)
    requires (action.EndDrag? || action.Drop?) && state.id != Allocated(serial)
    ensures var s := DragOffset(state, action, serial);
      GetClientOffset(s, false).None? && GetClientOffset(s, true).None? &&
      GetPageOffset(s, false).None? && GetPageOffset(s, true).None? &&
      s.offsets.initialClientOffset.None? && s.offsets.initialSourceClientOffset.None? &&
      GetSourceClientOffset(s.offsets).None? && GetDifferenceFromInitialOffset(s.offsets).None?
  {
  }

  // ---------------------------------------------------------------------------------------------
  // Notification

  /** The identity of a listener function. */
  type Callback = nat

  /** The `listener` argument of a subscription: a function, or any other value. */
  datatype ListenerArg = Function(cb: Callback) | NotAFunction

  /** The `handlerIds` option of a state-change subscription. */
  datatype HandlerIdsArg = Undefined | Array(ids: seq<HandlerId>) | NotAnArray

  /**
   * The `options` argument of a state-change subscription: left out (it defaults to `{}`),
   * `null` (which cannot be destructured), or a value whose `handlerIds` property is given.
   */
  datatype OptionsArg = Omitted | Null | Given(handlerIds: HandlerIdsArg)

  /** A `{ handlerIds, cb }` entry of the state-change listener list; its identity is the object's. */
  class StateChangeListener {
    const handlerIds: Option<seq<HandlerId>>
    const cb: Callback

    constructor (handlerIds: Option<seq<HandlerId>>, cb: Callback)
      ensures this.handlerIds == handlerIds && this.cb == cb
    {
      this.handlerIds := handlerIds;
      this.cb := cb;
    }
  }

  predicate Distinct<X(==)>(s: seq<X>) {
    forall i, j :: 0 <= i < j < |s| ==> s[i] != s[j]
  }

  /** The tail of a duplicate-free list is duplicate-free and lacks the head. */
  lemma DistinctTail<X>(s: seq<X>)
    requires Distinct(s) && s != []
    ensures Distinct(s[1..]) && s[0] !in s[1..]
  {
    forall i, j | 0 <= i < j < |s| - 1 ensures s[1..][i] != s[1..][j] {
      assert s[1..][i] == s[i + 1] && s[1..][j] == s[j + 1];
    }
    forall k | 0 <= k < |s| - 1 ensures s[1..][k] != s[0] {
      assert s[1..][k] == s[k + 1];
    }
  }

  /** `s` without its entries equal to `e`, the others kept in order. */
  function Without<X(==)>(s: seq<X>, e: X): (r: seq<X>)
    ensures e !in s ==> r == s
  {
    if s == [] then []
    else if s[0] == e then Without(s[1..], e)
    else [s[0]] + Without(s[1..], e)
  }

  /** `Without` removes `e` and keeps every other entry; it keeps a list duplicate-free. */
  lemma {:induction false} WithoutMembers<X>(s: seq<X>, e: X)
    ensures forall x :: x in Without(s, e) <==> x in s && x != e
    ensures Distinct(s) ==> Distinct(Without(s, e))
  {
    if s != [] {
      WithoutMembers(s[1..], e);
      if Distinct(s) {
        DistinctTail(s);
        if s[0] != e {
          var r := [s[0]] + Without(s[1..], e);
          forall i, j | 0 <= i < j < |r| ensures r[i] != r[j] {
            assert r[j] == Without(s[1..], e)[j - 1] && r[j] in Without(s[1..], e);
            if i > 0 {
              assert r[i] == Without(s[1..], e)[i - 1];
            }
          }
        }
      }
    }
  }

  /** `Without` distributes over concatenation. */
  lemma {:induction false} WithoutConcat<X>(a: seq<X>, b: seq<X>, e: X)
    ensures Without(a + b, e) == Without(a, e) + Without(b, e)
  {
    if a == [] {
      assert a + b == b;
    } else {
      assert (a + b)[1..] == a[1..] + b;
      WithoutConcat(a[1..], b, e);
    }
  }

  /** Splicing out the first occurrence of an entry of a duplicate-free list removes just that entry. */
  lemma SpliceIsWithout<X>(s: seq<X>, e: X)
    requires Distinct(s) && e in s
    ensures s[..IndexOf(s, e)] + s[IndexOf(s, e) + 1..] == Without(s, e)
  {
    var i := IndexOf(s, e);
    var before, after := s[..i], s[i + 1..];
    assert s == before + [e] + after;
    assert e !in after by {
      forall k | 0 <= k < |after| ensures after[k] != e {
        assert after[k] == s[i + 1 + k];
      }
    }
    WithoutConcat(before + [e], after, e);
    WithoutConcat(before, [e], e);
  }

  /**
   * Whether a listener is picked when the store's state id moves from `prevStateId` to
   * `currentStateId`: on a step of exactly one only if its handler ids are dirty, otherwise always.
   */
  predicate Fires<D>(l: StateChangeListener, currentStateId: int, prevStateId: int, dirtyHandlerIds: D,
                     areDirty: (D, Option<seq<HandlerId>>) -> bool)
  {
    currentStateId == prevStateId + 1 ==> areDirty(dirtyHandlerIds, l.handlerIds)
  }

  /** The listeners that fire, in list order. */
  function Picked<D>(ls: seq<StateChangeListener>, currentStateId: int, prevStateId: int, dirtyHandlerIds: D,
                     areDirty: (D, Option<seq<HandlerId>>) -> bool): (r: seq<StateChangeListener>)
    ensures |r| <= |ls|
    ensures currentStateId != prevStateId + 1 ==> r == ls
  {
    if ls == [] then []
    else
      var rest := Picked(ls[1..], currentStateId, prevStateId, dirtyHandlerIds, areDirty);
      if Fires(ls[0], currentStateId, prevStateId, dirtyHandlerIds, areDirty) then [ls[0]] + rest else rest
  }

  /** A listener is picked exactly when it is in the list and fires. */
  lemma {:induction false} PickedMembers<D>(ls: seq<StateChangeListener>, currentStateId: int,
      prevStateId: int, dirtyHandlerIds: D, areDirty: (D, Option<seq<HandlerId>>) -> bool)
    ensures forall k :: 0 <= k < |Picked(ls, currentStateId, prevStateId, dirtyHandlerIds, areDirty)| ==>
      Picked(ls, currentStateId, prevStateId, dirtyHandlerIds, areDirty)[k] in ls &&
      Fires(Picked(ls, currentStateId, prevStateId, dirtyHandlerIds, areDirty)[k],
            currentStateId, prevStateId, dirtyHandlerIds, areDirty)
    ensures forall k :: 0 <= k < |ls| && Fires(ls[k], currentStateId, prevStateId, dirtyHandlerIds, areDirty) ==>
      ls[k] in Picked(ls, currentStateId, prevStateId, dirtyHandlerIds, areDirty)
  {
    if ls != [] {
      var r := Picked(ls, currentStateId, prevStateId, dirtyHandlerIds, areDirty);
      var rest := Picked(ls[1..], currentStateId, prevStateId, dirtyHandlerIds, areDirty);
      PickedMembers(ls[1..], currentStateId, prevStateId, dirtyHandlerIds, areDirty);
      forall k | 0 <= k < |r|
        ensures r[k] in ls && Fires(r[k], currentStateId, prevStateId, dirtyHandlerIds, areDirty)
      {
        if r != rest && k > 0 {
          assert r[k] == rest[k - 1];
        }
        if r == rest || k > 0 {
          var m := if r == rest then k else k - 1;
          assert r[k] == rest[m] && rest[m] in ls[1..];
          var i :| 0 <= i < |ls| - 1 && ls[1..][i] == rest[m];
          assert ls[i + 1] == r[k];
        }
      }
      forall k | 0 <= k < |ls| && Fires(ls[k], currentStateId, prevStateId, dirtyHandlerIds, areDirty)
        ensures ls[k] in r
      {
        if k > 0 {
          assert ls[k] == ls[1..][k - 1];
        }
      }
    }
  }

  /** In a duplicate-free list, an entry after the head sits one further than in the tail. */
  lemma IndexOfInTail<X>(s: seq<X>, x: X)
    requires Distinct(s) && s != [] && x in s[1..]
    ensures IndexOf(s, x) == IndexOf(s[1..], x) + 1 >= 1
  {
    DistinctTail(s);
  }

  /** The picked listeners keep their registration order. */
  lemma {:induction false} PickedInRegistrationOrder<D>(ls: seq<StateChangeListener>, currentStateId: int,
      prevStateId: int, dirtyHandlerIds: D, areDirty: (D, Option<seq<HandlerId>>) -> bool)
    requires Distinct(ls)
    ensures forall i, j :: 0 <= i < j < |Picked(ls, currentStateId, prevStateId, dirtyHandlerIds, areDirty)| ==>
      IndexOf(ls, Picked(ls, currentStateId, prevStateId, dirtyHandlerIds, areDirty)[i]) <
      IndexOf(ls, Picked(ls, currentStateId, prevStateId, dirtyHandlerIds, areDirty)[j])
  {
    if ls != [] {
      var r := Picked(ls, currentStateId, prevStateId, dirtyHandlerIds, areDirty);
      var rest := Picked(ls[1..], currentStateId, prevStateId, dirtyHandlerIds, areDirty);
      DistinctTail(ls);
      PickedMembers(ls[1..], currentStateId, prevStateId, dirtyHandlerIds, areDirty);
      PickedInRegistrationOrder(ls[1..], currentStateId, prevStateId, dirtyHandlerIds, areDirty);
      forall i, j | 0 <= i < j < |r| ensures IndexOf(ls, r[i]) < IndexOf(ls, r[j]) {
        if r == [ls[0]] + rest {
          assert r[j] == rest[j - 1] && rest[j - 1] in ls[1..];
          IndexOfInTail(ls, rest[j - 1]);
          if i > 0 {
            assert r[i] == rest[i - 1] && rest[i - 1] in ls[1..];
            IndexOfInTail(ls, rest[i - 1]);
          }
        } else {
          assert rest[i] in ls[1..] && rest[j] in ls[1..];
          IndexOfInTail(ls, rest[i]);
          IndexOfInTail(ls, rest[j]);
        }
      }
    }
  }

  /** Picking over a list extended by one listener extends the picked list by it, if it fires. */
  lemma {:induction false} PickedAppend<D>(ls: seq<StateChangeListener>, l: StateChangeListener,
      currentStateId: int, prevStateId: int, dirtyHandlerIds: D,
      areDirty: (D, Option<seq<HandlerId>>) -> bool)
    ensures Picked(ls + [l], currentStateId, prevStateId, dirtyHandlerIds, areDirty) ==
      Picked(ls, currentStateId, prevStateId, dirtyHandlerIds, areDirty) +
      (if Fires(l, currentStateId, prevStateId, dirtyHandlerIds, areDirty) then [l] else [])
  {
    if ls == [] {
      assert [l][1..] == [];
    } else {
      assert (ls + [l])[1..] == ls[1..] + [l];
      PickedAppend(ls[1..], l, currentStateId, prevStateId, dirtyHandlerIds, areDirty);
    }
  }

  function Callbacks(ls: seq<StateChangeListener>): (r: seq<Callback>)
    ensures |r| == |ls| && forall i :: 0 <= i < |ls| ==> r[i] == ls[i].cb
  {
    if ls == [] then [] else [ls[0].cb] + Callbacks(ls[1..])
  }

  /**
   * Calling `cbs` in order, stopping at the first call that throws: the callbacks that ran (the
   * one that threw included) and whether one threw. `throws(k)` says whether the call at position
   * `k` of this run throws, so one function listed twice may return on one call and throw on the other.
   */
  function RunUntilThrow(cbs: seq<Callback>, throws: nat -> bool): (r: (seq<Callback>, bool))
    ensures r.0 <= cbs
    ensures r.1 <==> exists k :: 0 <= k < |cbs| && throws(k)
    ensures r.1 ==> |r.0| > 0 && throws(|r.0| - 1)
    ensures forall k :: 0 <= k < |r.0| - 1 ==> !throws(k)
    ensures !r.1 ==> r.0 == cbs
  {
    if cbs == [] then ([], false)
    else
      var before := RunUntilThrow(cbs[..|cbs| - 1], throws);
      if before.1 then before
      else (cbs, throws(|cbs| - 1))
  }

  /**
   * The selection loop of `observeStateChange`: over a copy of the listener list, collect the
   * callbacks of the listeners that fire.
   */
  method PickListeners<D>(snapshot: seq<StateChangeListener>, currentStateId: int, prevStateId: int,
                          dirtyHandlerIds: D, areDirty: (D, Option<seq<HandlerId>>) -> bool)
    returns (listeners: seq<Callback>)
    ensures listeners == Callbacks(Picked(snapshot, currentStateId, prevStateId, dirtyHandlerIds, areDirty))
  {
    listeners := [];
    var i := 0;
    while i < |snapshot|
      invariant 0 <= i <= |snapshot|
      invariant listeners == Callbacks(Picked(snapshot[..i], currentStateId, prevStateId, dirtyHandlerIds, areDirty))
    {
      var listener := snapshot[i];
      assert snapshot[..i + 1] == snapshot[..i] + [listener];
      PickedAppend(snapshot[..i], listener, currentStateId, prevStateId, dirtyHandlerIds, areDirty);
      ghost var before := Picked(snapshot[..i], currentStateId, prevStateId, dirtyHandlerIds, areDirty);
      if currentStateId == prevStateId + 1 {
        if areDirty(dirtyHandlerIds, listener.handlerIds) {
          assert Callbacks(before + [listener]) == Callbacks(before) + [listener.cb];
          listeners := listeners + [listener.cb];
        }
      } else {
        assert Callbacks(before + [listener]) == Callbacks(before) + [listener.cb];
        listeners := listeners + [listener.cb];
      }
      i := i + 1;
    }
    assert snapshot[..i] == snapshot;
  }

  /** With no throw before position `k` and one at `k`, the run stops right after `k`. */
  lemma {:induction false} RunStopsAtFirstThrow(cbs: seq<Callback>, throws: nat -> bool, k: nat)
    requires k < |cbs| && throws(k)
    requires forall m :: 0 <= m < k ==> !throws(m)
    ensures RunUntilThrow(cbs, throws) == (cbs[..k + 1], true)
  {
    var n := |cbs|;
    if k == n - 1 {
      assert cbs[..k + 1] == cbs;
    } else {
      RunStopsAtFirstThrow(cbs[..n - 1], throws, k);
      assert cbs[..n - 1][..k + 1] == cbs[..k + 1];
    }
  }

  /**
   * The invocation loop of `observeStateChange`: call each picked callback in order; a throw
   * ends the loop and is reported to the caller.
   */
  method CallInOrder(listeners: seq<Callback>, throws: nat -> bool) returns (invoked: seq<Callback>, threw: bool)
    ensures (invoked, threw) == RunUntilThrow(listeners, throws)
  {
    invoked, threw := [], false;
    var k := 0;
    while k < |listeners| && !threw
      invariant 0 <= k <= |listeners|
      invariant !threw ==> invoked == listeners[..k] && forall m :: 0 <= m < k ==> !throws(m)
      invariant threw ==> (invoked, threw) == RunUntilThrow(listeners, throws)
    {
      invoked := invoked + [listeners[k]];
      assert listeners[..k + 1] == listeners[..k] + [listeners[k]];
      if throws(k) {
        RunStopsAtFirstThrow(listeners, throws, k);
        threw := true;
      }
      k := k + 1;
    }
    if !threw {
      assert invoked == listeners;
    }
  }

  /** A listener of offset changes: fires when the `dragOffset` object is a different one. */
  class OffsetChangeListener {
    const listener: Callback
    var previousState: OffsetRef

    constructor (listener: Callback, current: OffsetRef)
      ensures this.listener == listener && previousState == current
    {
      this.listener := listener;
      previousState := current;
    }

    /** `handleChange`: records and reports a new `dragOffset` object, ignores the same one. */
    method HandleChange(nextState: OffsetRef) returns (fired: bool)
      modifies this`previousState
      ensures fired <==> OffsetChanged(old(previousState), nextState)
      ensures previousState == if fired then nextState else old(previousState)
    {
      if nextState.id == previousState.id {
        return false;
      }
      previousState := nextState;
      fired := true;
    }
  }

  /** Whether an offset listener that last saw `previous` fires on `next`: a different object. */
  predicate OffsetChanged(previous: OffsetRef, next: OffsetRef) {
    previous.id != next.id
  }

  /**
   * An offset listener fires on a BEGIN_DRAG, on a HOVER that moves the client offset, and on an
   * END_DRAG or DROP unless the state already was the initial one; never otherwise.
   */
  lemma OffsetListenerFiresOnReduction(state: OffsetRef, action: Action, serial: nat)
    requires state.id != Allocated(serial)
    ensures OffsetChanged(state, DragOffset(state, action, serial)) <==>
      match action
      case BeginDrag(_, _, _, _, _) => true
      case Hover(clientOffset, _, _, _) => state.offsets.clientOffset != clientOffset
      case EndDrag => state.id != Initial
      case Drop => state.id != Initial
      case Other => false
  {
  }

  /** The monitor's own mutable state: the state-change listener list and the last seen state id. */
  class DragDropMonitor {
    var stateChangeListeners: seq<StateChangeListener>
    var prevStateId: int

    /** Each entry object is in the list at most once. */
    ghost predicate Valid()
      reads this
    {
      Distinct(stateChangeListeners)
    }

    /** `observeStateChange` at construction: no listeners, and the store's current state id. */
    constructor (initialStateId: int)
      ensures Valid()
      ensures stateChangeListeners == [] && prevStateId == initialStateId
    {
      stateChangeListeners := [];
      prevStateId := initialStateId;
    }

    /**
     * The store subscription of `observeStateChange`: on a new state id, pick the listeners to
     * fire from the list as it stands, call them in order, and record the id even if one throws.
     */
    method HandleStoreChange<D>(currentStateId: int, dirtyHandlerIds: D,
                                areDirty: (D, Option<seq<HandlerId>>) -> bool,
                                throws: nat -> bool)
      returns (invoked: seq<Callback>, threw: bool)
      modifies this`prevStateId
      ensures prevStateId == currentStateId
      ensures currentStateId == old(prevStateId) ==> invoked == [] && !threw
      ensures currentStateId != old(prevStateId) ==>
        (invoked, threw) ==
        RunUntilThrow(Callbacks(Picked(stateChangeListeners, currentStateId, old(prevStateId),
                                       dirtyHandlerIds, areDirty)), throws)
    {
      if currentStateId == prevStateId {
        return [], false;
      }
      var listeners := PickListeners(stateChangeListeners, currentStateId, prevStateId, dirtyHandlerIds, areDirty);
      invoked, threw := CallInOrder(listeners, throws);
      prevStateId := currentStateId;
    }

    /**
     * `subscribeToStateChange`: destructures `options`, checks the listener and `handlerIds`, then
     * appends one new entry, without looking for an equal one already in the list.
     */
    method SubscribeToStateChange(listener: ListenerArg, options: OptionsArg)
      returns (r: Result<StateChangeListener, MonitorError>)
      requires Valid()
      modifies this`stateChangeListeners
      ensures Valid()
      ensures options.Null? ==> r == Failure(OptionsNotObject)
      ensures !options.Null? && listener.NotAFunction? ==> r == Failure(ListenerNotFunction)
      ensures !options.Null? && listener.Function? && options.Given? && options.handlerIds.NotAnArray? ==>
        r == Failure(HandlerIdsNotArray)
      ensures r.Failure? ==> stateChangeListeners == old(stateChangeListeners)
      ensures r.Success? <==>
        !options.Null? && listener.Function? && !(options.Given? && options.handlerIds.NotAnArray?)
      ensures r.Success? ==>
        fresh(r.value) && r.value.cb == listener.cb &&
        r.value.handlerIds == (if options.Given? && options.handlerIds.Array? then Some(options.handlerIds.ids) else None) &&
        stateChangeListeners == old(stateChangeListeners) + [r.value]
    {
      if options.Null? {
        return Failure(OptionsNotObject);
      }
      var handlerIds := if options.Given? then options.handlerIds else Undefined;
      if listener.NotAFunction? {
        return Failure(ListenerNotFunction);
      }
      if handlerIds.NotAnArray? {
        return Failure(HandlerIdsNotArray);
      }
      var entry := new StateChangeListener(if handlerIds.Array? then Some(handlerIds.ids) else None, listener.cb);
      stateChangeListeners := stateChangeListeners + [entry];
      r := Success(entry);
    }

    /**
     * The unsubscribe function returned for `entry`: removes that entry if it is still listed,
     * keeping the others in order; otherwise does nothing.
     */
    method Unsubscribe(entry: StateChangeListener)
      requires Valid()
      modifies this`stateChangeListeners
      ensures Valid()
      ensures stateChangeListeners == Without(old(stateChangeListeners), entry)
      ensures entry !in stateChangeListeners
      ensures entry !in old(stateChangeListeners) ==> stateChangeListeners == old(stateChangeListeners)
    {
      var index := IndexOf(stateChangeListeners, entry);
      WithoutMembers(stateChangeListeners, entry);
      if index >= 0 {
        SpliceIsWithout(stateChangeListeners, entry);
        stateChangeListeners := stateChangeListeners[..index] + stateChangeListeners[index + 1..];
      }
    }

    /** `subscribeToOffsetChange`: checks its argument, then listens from the current `dragOffset`. */
    method SubscribeToOffsetChange(listener: ListenerArg, current: OffsetRef)
      returns (r: Result<OffsetChangeListener, MonitorError>)
      ensures listener.NotAFunction? <==> r == Failure(ListenerNotFunction)
      ensures r.Success? <==> listener.Function?
      ensures r.Success? ==>
        fresh(r.value) && r.value.listener == listener.cb && r.value.previousState == current
    {
      if listener.NotAFunction? {
        return Failure(ListenerNotFunction);
      }
      var handler := new OffsetChangeListener(listener.cb, current);
      r := Success(handler);
    }
  }
}
