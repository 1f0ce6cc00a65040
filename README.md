# Drag-and-drop quote list: a Dafny model

The demo shows a list of quotation cards that the user reorders, by dragging
with the pointer or with per-card "up" and "down" buttons that drive a
programmatic drag. This project models the parts of it that carry logic:

- `reorder`, which moves one quote from a source index to a destination index
  (module `Reordering`, file `reorder.dfy`): a sequence specification
  `Reordered` built from `RemoveAt` and `InsertAt`, an independent index map
  `SourceIndex`, and the method `Reorder`, which copies the input array and
  changes the copy with two splices the way the source does;
- the `App` component's state and drag handlers (module `App`, file
  `app.dfy`): a class `AppState` whose fields are the `quotes`, `isDragging`
  and `isControlDragging` state cells and the sensor-API ref, with methods
  for `onDragStart`, `onDragEnd`, `lift` and the sensor registration; its
  invariant `Valid()` says that the list always holds the quotes it started
  with;
- the card's helpers (module `QuoteItem`, file `quote_item.dfy`): the colour
  rules, the inline-style merge and the keyboard `move`, modelled as the
  ordered trace of actions it issues;
- the drag-and-drop library's interface (module `Dnd`, file `dnd.dfy`): drop
  results, the sensor API and the lift actions as datatypes. Calls into the
  library (`tryGetLock`, `snapLift`) are oracle function fields of those
  datatypes, chosen by whoever builds the value.

`null` and `undefined` become `Option.None` (module `Options`).

## Model

| member | source | states |
|---|---|---|
| `Reordering.RemoveAt` | src/App.tsx:79 | Taking index `i` out leaves one element fewer; elements before `i` stay put and those after it move one place left. |
| `Reordering.InsertAt` | src/App.tsx:80 | Inserting at `i` adds one element, which sits at `i`; elements before `i` stay put and those from `i` on move one place right. |
| `Reordering.Reordered` | src/App.tsx:77-83 | The specification of `reorder` on sequences: the element at `startIndex` taken out and inserted back at `endIndex`; the result has the input's length (its other properties are the lemmas below). |
| `Reordering.ReorderedIsIndexMap` | src/App.tsx:77-83 | The reordered list has the input's length and holds at each position `k` the input element at `SourceIndex(start, end, k)`: the moved element at `end`, the elements in between shifted by one towards `start`, the rest unchanged. |
| `Reordering.ReorderedIsPermutation` | src/App.tsx:79-80 | For in-range indices the result keeps the length and is a permutation (the same multiset) of the input. |
| `Reordering.ReorderedLandsAndKeepsOrder` | src/App.tsx:79-80 | The element from `startIndex` lands at `endIndex`, and removing it from the result gives the input with `startIndex` removed, so all other elements keep their relative order. |
| `Reordering.ReorderedUndo` | src/App.tsx:77-83 | Reordering back from `endIndex` to `startIndex` restores the input. |
| `Reordering.ReorderedInPlace` | src/App.tsx:77-83 | Reordering from an index to itself returns the input. |
| `Reordering.SpliceRemove` | src/App.tsx:79 | `splice(i, 1)` in place: returns the element at `i`, and the first `len - 1` slots become the old first `len` slots with index `i` removed. |
| `Reordering.SpliceInsert` | src/App.tsx:80 | `splice(i, 0, x)` in place: the first `len + 1` slots become the old first `len` slots with `x` inserted at `i`. |
| `Reordering.Reorder` | src/App.tsx:77-83 | Returns a new array equal to `Reordered` of the input, and leaves the input array unchanged. |
| `App.AppState.constructor` | src/App.tsx:86-90 | Starts with the given quotes, both drag flags false and no sensor API. |
| `App.AppState.UseSensor` | src/App.tsx:92-94 | Registering the sensor stores its API and changes nothing else. |
| `App.AppState.OnDragStart` | src/App.tsx:149 | Starting a drag sets `isDragging` and changes nothing else. |
| `App.AppState.Lift` | src/App.tsx:96-119 | Returns nothing exactly when a drag is in progress, no sensor API is registered, or the lock is refused, and then leaves `isControlDragging` alone; otherwise sets `isControlDragging` and returns the actions of the snap lift on the granted lock. Nothing else changes. |
| `App.AppState.OnDragEnd` | src/App.tsx:121-144 | Clears both drag flags; a drop without destination or onto the source index keeps the very same quotes array; any other drop replaces it with a new array equal to the reorder from source index to destination index. The list stays a permutation of the initial quotes. |
| `App.LiftDuringPointerDrag` | src/App.tsx:98-100 | After the library reports a drag start, `isDragging` is set, and `lift` is refused, leaving `isControlDragging`, the quotes array and the sensor API unchanged. |
| `App.DropAndDropBack` | src/App.tsx:135-141 | A drop followed by the reverse drop restores the list and leaves both drag flags cleared and the sensor API unchanged. |
| `QuoteItem.GetBackgroundColor` | src/quote-item.tsx:17-31 | White whenever the card is dragged, regardless of grouping; blue exactly when not dragged and grouped over; grey exactly when neither. |
| `QuoteItem.GetBorderColor` | src/quote-item.tsx:33-34 | Red exactly when the card is dragged, transparent exactly when it is not. |
| `QuoteItem.GetStyle` | src/quote-item.tsx:148-157 | Without an override returns the draggable style unchanged; with one returns a style whose keys are the union of both, taking the override's value where it has the key and the draggable style's value elsewhere. |
| `QuoteItem.GetStyleIdempotent` | src/quote-item.tsx:153-156 | Merging the same override into an already merged style changes nothing. |
| `QuoteItem.GetStyleEmptyOverride` | src/quote-item.tsx:153-156 | An empty override yields exactly the draggable style (an empty style when the library gave none). |
| `QuoteItem.Move` | src/quote-item.tsx:186-205 | Calls `lift` with the card's own quote id when `lift` is given; issues nothing when `lift` is absent or refuses; otherwise issues exactly a move in the requested direction and then a drop, both on the lifted session, so a drop is last and issued once. |

## Left out

- src/quote-list.tsx is not part of this model: it only renders the list, and its background colour is the same constant in every branch.
- Styling, layout and the JSX trees, `React.memo`, and the `useState`/`useRef`/`useCallback` mechanics: the hook state is modelled as plain fields that a handler updates immediately.
- `QuoteItem.Move`: the 300 ms `delay` between actions and the awaiting of promises are reduced to the order of the actions in the trace.
- The drag-and-drop library: `tryGetLock` and `snapLift` are oracles, and the effect of the issued actions (which in the library later reach `onDragStart` and `onDragEnd`) is not modelled. The second argument of `tryGetLock` (a no-op stop callback) is left out.
- `App.AppState.Lift`: in the source the callback captures `isDragging` when it is created; the model reads the current value.
- Console logging, the contents of the sample `data` array, the unused `authorColors` parameters, and the card's author, avatar and accessibility text.
- `Reordering.Reorder` and `App.AppState.OnDragEnd` require in-range indices where a reorder happens; JavaScript's `splice` clamps out-of-range indices, which the library never supplies.
- `DropResult` carries only the draggable id, source and destination; the library's `reason`, `mode`, `type` and `combine` fields are not read by the source.
- `QuoteItem.GetBackgroundColor` takes `isGroupedOver` as a boolean; the optional prop's `undefined` behaves as `false`.
- `QuoteItem.GetStyle`: a style is a map, so the key order of the spread object is not modelled; CSS values are strings or numbers (numbers as reals, not floating point).
- `QuoteItem.Move` takes `lift` as a given pure function of the quote id; it is not connected to `App.AppState.Lift`, the stateful callback the list passes down to each card, so the model does not show that a keyboard move sets `isControlDragging`.
