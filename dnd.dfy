/** The parts of the drag-and-drop library's interface that the demo uses.
    The library itself is not modelled: every value it produces reaches the
    model as a datatype value, and every call into it is an oracle, a
    function field chosen by whoever builds the value. */
module Dnd {
  import opened Options

  /** Where a draggable sits: the list it is in and its position there. */
  datatype DraggableLocation = DraggableLocation(droppableId: string, index: nat)

  /** What the library reports when a drag ends. `destination` is absent
      when the item was dropped outside every list. */
  datatype DropResult = DropResult(
    draggableId: string,
    source: DraggableLocation,
    destination: Option<DraggableLocation>)

  /** The handle of one programmatic drag: the session that its `moveUp`,
      `moveDown` and `drop` actions act on. */
  datatype SnapDragActions = SnapDragActions(session: nat)

  /** What a granted lock offers; `snapLift` starts a snapping drag. */
  datatype PreDragActions = PreDragActions(snapLift: () -> SnapDragActions)

  /** The sensor API the library hands to a registered sensor.
      `tryGetLock(draggableId)` either grants the drag lock on that
      draggable or refuses it. */
  datatype SensorApi = SensorApi(tryGetLock: string -> Option<PreDragActions>)

  /** The value of one inline CSS property: a string or a number. */
  datatype CssValue = Text(text: string) | Number(number: real)

  /** Inline CSS as a property-to-value map. */
  type Style = map<string, CssValue>

  /** The draggable props the library provides; their inline style is optional. */
  datatype DraggableProps = DraggableProps(style: Option<Style>)

  datatype DraggableProvided = DraggableProvided(draggableProps: DraggableProps)
}
