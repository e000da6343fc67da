# dnd-core: drag offsets and the drag-and-drop monitor

This project models two parts of dnd-core, the backend-independent core of a drag-and-drop library.

- **The drag-offset reducer** (`src/reducers/dragOffset.js`). Module `Offsets`. It is a pure
  transition function over six nullable points. The points are the initial client offset of the
  source, the initial client offset of the pointer, and the current client and page offsets with
  their "until to top" variants. It is driven by BEGIN_DRAG, HOVER, END_DRAG, DROP and any other
  action. It also holds the two derived offsets: the source's current client offset and the
  pointer's displacement since the drag began.
- **The monitor** (`src/DragDropMonitor.js`). Module `Monitor`. It has two parts:
  - read-only queries over one snapshot of the drag operation: `canDragSource`,
    `canDropOnTarget`, `isDragging`, `isDraggingSource`, `isOverTarget` and the accessors;
  - the listener bookkeeping that the store's change notifications go through: the state-change
    listener list with its last seen state id, subscription and unsubscription, and offset-change
    listeners that fire when the offset object changes identity.

Callers of the reducer tell offset states apart by object identity. A HOVER that does not move
the pointer returns the very same object, and the offset listeners compare objects with `===`. So
a state is an `OffsetRef`: an `Identity` (the shared `initialState` constant, or an object the
reducer built, numbered by a serial) together with its contents. The reducer takes the serial
that a newly built object would get. It requires only that this serial is not the input's own
identity, which is what allocating a new object guarantees.

The monitor's collaborators whose code is not part of this model are parameters. The handler
registry's lookups and `matchesType` are gathered in `Monitor.Collaborators`. The handlers'
`canDrag`, `canDrop` and `isDragging` callbacks are fields of the `SourceHandler` and
`TargetHandler` values that those lookups return. All of these are plain functions that answer
for the current snapshot. `areDirty` is an argument of `Picked`, `PickListeners` and
`HandleStoreChange`. The store is not modelled. The snapshot a query reads, and the
state id and dirty handler ids a notification carries, are passed in explicitly.

Two behaviours of the code are worth stating directly:

- Subscribing the same listener twice adds two entries (src/DragDropMonitor.js:58-62), and
  `SubscribeToStateChange` does the same.
- `isDragging` tests `Boolean(itemType)` (src/DragDropMonitor.js:118), so an empty-string item
  type counts as not dragging. `IsDragging` states this.

## Model

| member | source | states |
|---|---|---|
| `Offsets.AreOffsetsEqual` | src/reducers/dragOffset.js:12-22 | Two nullable points are "equal" exactly when both are null or both are present with the same coordinates. So the relation is reflexive and symmetric, and false when exactly one side is null. |
| `Offsets.GetDifferenceFromInitialOffset` | src/reducers/dragOffset.js:65-74 | Null exactly when the client offset or the initial client offset is null. Otherwise it is the displacement that takes the initial client offset to the current one. |
| `Offsets.GetSourceClientOffset` | src/reducers/dragOffset.js:54-63 | Null exactly when any of the client, initial client or initial source client offsets is null. Otherwise it is the initial source offset moved by the pointer's displacement. |
| `Offsets.DragOffset` | src/reducers/dragOffset.js:24-51 | BEGIN_DRAG builds a new object. Its initial and current client offsets are the action's, and its initial source offset is the action's source offset. For non-null offsets, the displacement is then (0,0) and the source offset equals the initial source offset. A HOVER to the stored client offset returns the identical input object, even when the page offsets differ. Any other HOVER builds a new object that keeps both initial offsets and replaces exactly the client, page and until-to-top offsets. END_DRAG and DROP return the shared all-null `initialState` whatever came before. Any other action returns the input object. |
| `Offsets.HoverIdempotent` | src/reducers/dragOffset.js:35-45 | Applying the same HOVER twice gives the same object (identity and contents) as applying it once. |
| `Monitor.IsDragging` | src/DragDropMonitor.js:117-119 | A drag is in progress exactly when an item type is set and it is not the empty string. |
| `Monitor.CanDragSource` | src/DragDropMonitor.js:92-101 | Fails exactly when the source is not registered. It is never true while dragging. Otherwise it is the source's `canDrag`. |
| `Monitor.CanDropOnTarget` | src/DragDropMonitor.js:103-115 | Fails exactly when the target is not registered. It is false when not dragging or after a drop. Otherwise it is true exactly when the target's type matches the dragged item type and the target's `canDrop` holds. |
| `Monitor.IsDraggingSource` | src/DragDropMonitor.js:121-136 | Fails exactly when the source (pinned ones included) is not found. It is true only when dragging a public source whose type is strictly equal to the dragged item type, and then exactly when the source's `isDragging` says so. |
| `Monitor.IndexOf` | src/DragDropMonitor.js:155 | `indexOf` returns -1 exactly when the element is absent. Otherwise it returns a position holding the element with no earlier occurrence. |
| `Monitor.IsOverTarget` | src/DragDropMonitor.js:138-161 | False when not dragging or when the target's type does not match. Deep mode: true exactly when the target occurs in the hover list. Shallow mode: true exactly when the target is the last entry of a non-empty hover list and does not occur earlier in it. Together these give that shallow-over implies deep-over. |
| `Monitor.ShallowOverIsTopmost` | src/DragDropMonitor.js:150-160 | With a duplicate-free, non-empty hover list, a target is shallowly over exactly when it is the last (topmost) entry and its type matches. |
| `Monitor.OffsetAccessorsAfterBeginDrag` | src/DragDropMonitor.js:191-217 | Right after BEGIN_DRAG, these accessors report the action's offsets: `getClientOffset`, `getPageOffset` (both with and without `untilToTopWin`), `getInitialClientOffset` and `getInitialSourceClientOffset`. The displacement is (0,0) and the source offset is the initial source offset. |
| `Monitor.OffsetAccessorsAfterEnd` | src/DragDropMonitor.js:191-217 | After END_DRAG or DROP, every offset accessor and both derived offsets report null. |
| `Monitor.StateChangeListener.constructor` | src/DragDropMonitor.js:58-61 | An entry records the subscription's handler ids and callback. |
| `Monitor.WithoutMembers` | src/DragDropMonitor.js:64-69 | Removing an entry keeps every other entry and only those, and keeps a duplicate-free list duplicate-free. |
| `Monitor.SpliceIsWithout` | src/DragDropMonitor.js:65-67 | In a duplicate-free list, splicing out the entry at its `indexOf` position removes just that entry and keeps the others in order. |
| `Monitor.Picked` | src/DragDropMonitor.js:26-35 | The listeners picked are at most those listed. When the state id did not advance by exactly one, every listener is picked. |
| `Monitor.PickedMembers` | src/DragDropMonitor.js:28-34 | A listener is picked exactly when it is listed and, on a step of exactly one, `areDirty` holds for its handler ids. |
| `Monitor.PickedInRegistrationOrder` | src/DragDropMonitor.js:26-40 | The picked listeners keep their registration order. |
| `Monitor.RunUntilThrow` | src/DragDropMonitor.js:37-43 | Calling callbacks in order runs a prefix of them. Whether a call throws is given per call position, so the same function listed twice may return once and throw once. It reports a throw exactly when some call throws. The last call run is the first that throws. When none throws, all run. |
| `Monitor.PickListeners` | src/DragDropMonitor.js:26-35 | The selection loop collects exactly the callbacks of the picked listeners, in list order. |
| `Monitor.CallInOrder` | src/DragDropMonitor.js:37-41 | The invocation loop calls the picked callbacks in order and stops at the first that throws. |
| `Monitor.DragDropMonitor.constructor` | src/DragDropMonitor.js:15-18 | A new monitor has no state-change listeners and has seen the store's current state id. |
| `Monitor.DragDropMonitor.HandleStoreChange` | src/DragDropMonitor.js:19-44 | When the state id is unchanged, no listener fires. Otherwise the picked listeners of the list as it stood fire in registration order, up to the first that throws. Either way the last seen state id becomes the current one. |
| `Monitor.DragDropMonitor.SubscribeToStateChange` | src/DragDropMonitor.js:47-63 | A null `options` fails with the destructuring TypeError before anything else is checked. An omitted `options` defaults to no `handlerIds`. Then it rejects a non-function listener, and `handlerIds` that is neither undefined nor an array. Every failure leaves the list unchanged. Otherwise it appends exactly one new entry at the end, even if an equal one is already listed. |
| `Monitor.DragDropMonitor.Unsubscribe` | src/DragDropMonitor.js:64-69 | Removes exactly its own entry and keeps the others in order. When the entry is no longer listed, it changes nothing, so a second call is a no-op. |
| `Monitor.DragDropMonitor.SubscribeToOffsetChange` | src/DragDropMonitor.js:72-78 | Fails exactly for a non-function listener. It succeeds exactly for a function listener and then returns a new offset listener that starts from the current offset object. |
| `Monitor.OffsetChangeListener.HandleChange` | src/DragDropMonitor.js:79-87 | Fires exactly when the offset object is a different one from the last seen, and only then records it. |
| `Monitor.OffsetListenerFiresOnReduction` | src/DragDropMonitor.js:79-87 | Across one reduction, an offset listener fires on BEGIN_DRAG and on a HOVER that moves the client offset. On END_DRAG or DROP it fires unless the state already was `initialState`. It never fires on a HOVER to the same point or on any other action. |

The drag-operation accessors `getItemType`, `getItem`, `getSourceId`, `getTargetIds`,
`getDropResult`, `didDrop` and `isSourcePublic` (src/DragDropMonitor.js:163-189) are the field
selectors of `Monitor.DragOperation`. `getInitialClientOffset` and `getInitialSourceClientOffset`
are the field selectors of `Offsets.OffsetState`. `getClientOffset` and `getPageOffset` are the
helper functions `Monitor.GetClientOffset` and `Monitor.GetPageOffset`. `getSourceClientOffset`
and `getDifferenceFromInitialOffset` apply the `Offsets` functions to the current offset state.

## Left out

- Store plumbing: `store.getState()` and `store.subscribe` (src/DragDropMonitor.js:9-19, 78, 89).
  Snapshots, state ids and dirty handler ids are inputs. The unsubscribe function that
  `store.subscribe` returns for an offset listener belongs to the store.
- The handler registry, `matchesType` and `areDirty` are not part of this model. They are
  parameters (`Monitor.Collaborators` and the `areDirty` argument). What the registry's
  `getSourceType` and `getTargetType` do for unknown ids is theirs to define.
- The bodies of the handler callbacks (`canDrag`, `canDrop`, `isDragging`) and of the listener
  callbacks. A listener callback is modelled only by whether each of its calls throws. Callbacks that subscribe
  or unsubscribe during a notification are not modelled. The selection is still made before any
  callback runs, as in the source.
- The `invariant` error messages. Each failed check is a `MonitorError` value instead of an
  exception.
- The contents of a `handlerIds` array are not checked by the source. The model takes them as
  handler ids.
- The source stores the caller's `handlerIds` array by reference (src/DragDropMonitor.js:58-61),
  so a later change to that array changes what `areDirty` sees at line 29. The model stores a
  copy of the ids as a sequence, so it does not capture that aliasing.
- `Monitor.IsOverTarget` takes the `shallow` flag instead of the `options` object. A null
  `options` argument, which makes the source throw a TypeError while destructuring
  (src/DragDropMonitor.js:139), is not modelled.
- JavaScript's `null` and `undefined` are both `None`. So `areOffsetsEqual(null, undefined)`,
  which is falsy in the source, is true in the model.
- Object identity of offset states is modelled by serials, and the reducer only requires a new
  serial to differ from its input's. Callers must never reuse a serial: the model does not tie a
  serial to one set of contents. An offset listener whose last-seen object had the reused serial
  would then not fire, although a newly built object in the source is distinct from every live one.
- Offsets are integers. Floating-point coordinates (NaN, rounding) are not modelled.
- The reducer's default argument `state = initialState` is not modelled. Callers pass
  `Offsets.InitialState` for the first call.
- The test file modules/__tests__/DragDropManager-test.js exercises the manager, the registry and
  the drag-operation reducer. None of these is part of this model.
