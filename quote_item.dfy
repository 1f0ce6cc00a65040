/** The quote card of src/quote-item.tsx: the colour rules behind its styled
    container, the merge of its inline style, and the keyboard `move` that
    drives a programmatic drag. */
module QuoteItem {
  import opened Options
  import opened Dnd

  /** One entry of the sample data; the card reads its `id`. */
  datatype Quote = Quote(id: string, content: string, author: string)

  /** Background of the card: white while it is dragged, blue while another
      card is grouped over it, grey otherwise. */
  function GetBackgroundColor(isDragging: bool, isGroupedOver: bool): (color: string)
    ensures isDragging ==> color == "white"
    ensures color == "blue" <==> !isDragging && isGroupedOver
    ensures color == "grey" <==> !isDragging && !isGroupedOver
  {
    if isDragging then "white"
    else if isGroupedOver then "blue"
    else "grey"
  }

  /** Border of the card: red while it is dragged, transparent otherwise. */
  function GetBorderColor(isDragging: bool): (color: string)
    ensures color == "red" <==> isDragging
    ensures color == "transparent" <==> !isDragging
  {
    if isDragging then "red" else "transparent"
  }

  /** The keys of an optional style; an absent style spreads nothing. */
  function StyleKeys(style: Option<Style>): (keys: set<string>)
  {
    if style.Some? then style.value.Keys else {}
  }

  /** The inline style of the card: the library's draggable style when no
      override is given, otherwise both spread into one object with the
      override's properties winning. */
  function GetStyle(provided: DraggableProvided, style: Option<Style>): (r: Option<Style>)
    ensures style.None? ==> r == provided.draggableProps.style
    ensures style.Some? ==> r.Some? && r.value.Keys == StyleKeys(provided.draggableProps.style) + style.value.Keys
    ensures style.Some? ==> forall key :: key in style.value ==> r.value[key] == style.value[key]
    ensures style.Some? && provided.draggableProps.style.Some? ==>
      forall key :: key in provided.draggableProps.style.value && key !in style.value ==>
        r.value[key] == provided.draggableProps.style.value[key]
  {
    if style.None? then provided.draggableProps.style
    else Some(provided.draggableProps.style.GetOr(map[]) + style.value)
  }

  /** Merging the same override a second time changes nothing. */
  lemma GetStyleIdempotent(provided: DraggableProvided, style: Option<Style>)
    ensures GetStyle(DraggableProvided(DraggableProps(GetStyle(provided, style))), style) == GetStyle(provided, style)
  {
    if style.Some? {
      var once := GetStyle(provided, style).value;
      var twice := GetStyle(DraggableProvided(DraggableProps(Some(once))), style).value;
      assert twice.Keys == once.Keys;
      assert forall key :: key in once ==> twice[key] == once[key];
      assert twice == once;
    }
  }

  /** With an empty override the result holds exactly the draggable style. */
  lemma GetStyleEmptyOverride(provided: DraggableProvided)
    ensures GetStyle(provided, Some(map[])) == Some(provided.draggableProps.style.GetOr(map[]))
  {
    var base := provided.draggableProps.style.GetOr(map[]);
    assert base + map[] == base;
  }

  /** The direction of a keyboard move. */
  datatype Direction = Up | Down

  /** A drag action issued on the session it came from. */
  datatype Action =
    | MoveUp(on: SnapDragActions)
    | MoveDown(on: SnapDragActions)
    | Drop(on: SnapDragActions)

  /** `move(type)`: lifts the card through `lift`, then issues one move in
      the given direction and a drop, in that order. `trace` is the sequence
      of actions issued (the delays between them are left out), and
      `liftedWith` the argument `lift` was called with, if it was called:
      the call below passes that same value, and the postconditions on
      `trace`, stated in terms of `lift.value(quote.id)`, pin the call down. */
  method Move(quote: Quote, lift: Option<string -> Option<SnapDragActions>>, direction: Direction)
    returns (trace: seq<Action>, liftedWith: Option<string>)
    ensures lift.None? ==> trace == [] && liftedWith == None
    ensures lift.Some? ==> liftedWith == Some(quote.id)
    ensures lift.Some? && lift.value(quote.id).None? ==> trace == []
    ensures lift.Some? && lift.value(quote.id).Some? ==>
      var actions := lift.value(quote.id).value;
      trace == [if direction == Up then MoveUp(actions) else MoveDown(actions), Drop(actions)]
    ensures trace != [] ==> trace[|trace| - 1].Drop? && forall i :: 0 <= i < |trace| - 1 ==> !trace[i].Drop?
  {
    trace, liftedWith := [], None;
    if lift.None? {
      return;
    }
    var quoteId := quote.id;
    liftedWith := Some(quoteId);
    var actions := lift.value(quoteId);
    if actions.None? {
      return;
    }
    var session := actions.value;
    if direction == Up {
      trace := trace + [MoveUp(session)];
    }
    if direction == Down {
      trace := trace + [MoveDown(session)];
    }
    trace := trace + [Drop(session)];
  }
}
