/** The state and drag handlers of the `App` component in src/App.tsx. The
    component's state cells and its sensor ref become fields; each handler
    becomes a method that updates them. */
module App {
  import opened Options
  import opened Dnd
  import opened Reordering
  import opened QuoteItem

  class AppState {
    /** The `quotes` state: an array that a drop replaces by a new one and
        never changes in place. */
    var quotes: array<Quote>
    /** Set while a drag of any kind is in progress. */
    var isDragging: bool
    /** Set while a drag started by the keyboard controls is in progress. */
    var isControlDragging: bool
    /** `sensorAPIRef.current`: the sensor API, once the sensor is registered. */
    var sensorApi: Option<SensorApi>
    /** The quotes the component started with. */
    ghost var initialQuotes: seq<Quote>

    /** Whatever the drags did, the list holds the quotes it started with. */
    ghost predicate Valid()
      reads this, quotes
    {
      multiset(quotes[..]) == multiset(initialQuotes)
    }

    /** The initial render: `useState(data)`, two `useState(false)` and an
        empty `useRef`. */
    constructor (data: seq<Quote>)
      ensures Valid()
      ensures fresh(quotes) && quotes[..] == data && initialQuotes == data
      ensures !isDragging && !isControlDragging && sensorApi.None?
    {
      var initial := new Quote[|data|](i requires 0 <= i < |data| => data[i]);
      assert initial[..] == data;
      quotes := initial;
      isDragging, isControlDragging := false, false;
      sensorApi := None;
      initialQuotes := data;
    }

    /** `useSensor`: the library registers the sensor by handing it its API. */
    method UseSensor(api: SensorApi)
      modifies this`sensorApi
      ensures sensorApi == Some(api)
    {
      sensorApi := Some(api);
    }

    /** `onDragStart`: a drag has begun. */
    method OnDragStart()
      modifies this`isDragging
      ensures isDragging
    {
      isDragging := true;
    }

    /** `lift(quoteId)`: try to start a keyboard drag of the quote. It is
        refused while a drag is in progress, when no sensor is registered and
        when the sensor refuses the lock; then nothing changes. Otherwise the
        controls take over the drag and the snapping drag's actions are
        returned. */
    method Lift(quoteId: string) returns (actions: Option<SnapDragActions>)
      modifies this`isControlDragging
      ensures actions.None? <==>
        old(isDragging) || sensorApi.None? || sensorApi.value.tryGetLock(quoteId).None?
      ensures actions.None? ==> isControlDragging == old(isControlDragging)
      ensures actions.Some? ==>
        isControlDragging && actions.value == sensorApi.value.tryGetLock(quoteId).value.snapLift()
    {
      if isDragging {
        return None;
      }
      if sensorApi.None? {
        return None;
      }
      var preDrag := sensorApi.value.tryGetLock(quoteId);
      if preDrag.None? {
        return None;
      }
      isControlDragging := true;
      return Some(preDrag.value.snapLift());
    }

    /** `onDragEnd(result)`: the drag is over. A drop outside the list or
        back onto its own index keeps the list; any other drop moves the
        dragged quote from the source index to the destination index. */
    method OnDragEnd(result: DropResult)
      requires Valid()
      requires result.destination.Some? && result.destination.value.index != result.source.index ==>
        result.source.index < quotes.Length && result.destination.value.index < quotes.Length
      modifies this
      ensures Valid()
      ensures !isDragging && !isControlDragging
      ensures sensorApi == old(sensorApi) && initialQuotes == old(initialQuotes)
      ensures result.destination.None? || result.destination.value.index == result.source.index ==>
        quotes == old(quotes)
      ensures result.destination.Some? && result.destination.value.index != result.source.index ==>
        fresh(quotes) &&
        quotes[..] == Reordered(old(quotes[..]), result.source.index, result.destination.value.index)
    {
      isDragging := false;
      isControlDragging := false;
      if result.destination.None? {
        return;
      }
      if result.destination.value.index == result.source.index {
        return;
      }
      ReorderedIsPermutation(quotes[..], result.source.index, result.destination.value.index);
      var newQuotes := Reorder(quotes, result.source.index, result.destination.value.index);
      quotes := newQuotes;
    }
  }

  /** A pointer drag blocks the keyboard controls: once the library has
      reported the start of a drag, `lift` is refused and leaves the control
      flag alone. */
  method LiftDuringPointerDrag(app: AppState, quoteId: string) returns (actions: Option<SnapDragActions>)
    modifies app
    ensures actions.None?
    ensures app.isDragging
    ensures app.isControlDragging == old(app.isControlDragging)
    ensures app.quotes == old(app.quotes) && app.sensorApi == old(app.sensorApi)
  {
    app.OnDragStart();
    actions := app.Lift(quoteId);
  }

  /** Dropping a quote somewhere and then dragging it back from where it
      landed to where it came from restores the list. */
  method DropAndDropBack(app: AppState, first: DropResult)
    requires app.Valid()
    requires first.destination.Some? && first.destination.value.index != first.source.index
    requires first.source.index < app.quotes.Length && first.destination.value.index < app.quotes.Length
    modifies app
    ensures app.Valid()
    ensures app.quotes[..] == old(app.quotes[..])
    ensures !app.isDragging && !app.isControlDragging
    ensures app.sensorApi == old(app.sensorApi)
  {
    var back := DropResult(first.draggableId, first.destination.value, Some(first.source));
    ghost var before := app.quotes[..];
    app.OnDragEnd(first);
    app.OnDragEnd(back);
    ReorderedUndo(before, first.source.index, first.destination.value.index);
  }
}
