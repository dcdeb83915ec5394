/**
 * The records the widget reads from the board, the decision the load step
 * takes on them, and the guard that triggers a load.
 */
module Records {
  import opened Wrappers

  /** Column holding the parent item's timeline. */
  const ParentTimelineColumnId := "timerange_mkzc2yy4"
  /** Column a subitem's timeline is written to. */
  const SubitemTimelineColumnId := "timerange_mkzck13j"
  /** Text of the alert shown when the parent timeline cannot be read. */
  const EmptyTimelineAlert := "Parent timeline is empty"

  /** A column value `{id, value}`; `value` is JSON text, or null. */
  datatype Column = Column(id: string, value: Option<string>)

  datatype Subitem = Subitem(id: string, name: string, columnValues: seq<Column>)

  /** The fetched item: its own column values and its subitems in server order. */
  datatype Item = Item(columnValues: seq<Column>, subitems: seq<Subitem>)

  /** What the read query resolves to, or the API call rejecting. */
  datatype Response = Items(items: seq<Item>) | ApiError

  /** The host's session context; `itemId` may be missing. */
  datatype Context = Context(itemId: Option<int>)

  /** The `{from, to}` value of a timeline column. */
  datatype TimelineValue = TimelineValue(from: string, to: string)

  /**
   * What one load decides: the new parent range and subitem list, an alert
   * (state untouched), or a rejection of the async load (state untouched).
   */
  datatype LoadOutcome<D> =
    | Loaded(start: D, end: D, subitems: seq<Subitem>)
    | Alerted(message: string)
    | Rejected

  /** `i` is the index of the first column whose id is `id`. */
  ghost predicate FirstWithId(cols: seq<Column>, id: string, i: int) {
    && 0 <= i < |cols|
    && cols[i].id == id
    && forall j :: 0 <= j < i ==> cols[j].id != id
  }

  /** `cols.find(col => col.id === id)`. */
  function FindColumn(cols: seq<Column>, id: string): (r: Option<Column>)
    ensures r.None? <==> forall i :: 0 <= i < |cols| ==> cols[i].id != id
    ensures r.Some? ==> exists i :: FirstWithId(cols, id, i) && cols[i] == r.value
    ensures r.Some? ==> forall i :: FirstWithId(cols, id, i) ==> cols[i] == r.value
    decreases |cols|
  {
    if cols == [] then None
    else if cols[0].id == id then
      assert FirstWithId(cols, id, 0);
      Some(cols[0])
    else
      var r := FindColumn(cols[1..], id);
      assert r.Some? ==> exists i :: FirstWithId(cols[1..], id, i) && cols[1..][i] == r.value;
      assert forall i :: FirstWithId(cols[1..], id, i) ==> FirstWithId(cols, id, i + 1);
      assert forall i :: FirstWithId(cols, id, i) ==> i > 0 && FirstWithId(cols[1..], id, i - 1);
      r
  }

  /** JavaScript truthiness of a column's `value`: neither null nor the empty string. */
  predicate IsTruthy(value: Option<string>)
    ensures IsTruthy(value) <==> value != None && value != Some("")
  {
    value.Some? && value.value != ""
  }

  /**
   * `timelineColumn?.value` when it is truthy: the JSON text of the parent
   * timeline, or None when the column is missing or empty.
   */
  function TimelineText(item: Item): (r: Option<string>)
    ensures r.Some? <==>
      exists i :: FirstWithId(item.columnValues, ParentTimelineColumnId, i) && IsTruthy(item.columnValues[i].value)
    ensures r.Some? ==> r.value != ""
    ensures r.Some? ==>
      forall i :: FirstWithId(item.columnValues, ParentTimelineColumnId, i) ==> item.columnValues[i].value == r
  {
    match FindColumn(item.columnValues, ParentTimelineColumnId)
    case None => None
    case Some(col) => if IsTruthy(col.value) then col.value else None
  }

  /**
   * The load step on an already fetched response. `parse` is `JSON.parse`
   * (None when it throws) and `newDate` is `new Date(...)`.
   */
  function LoadResult<D>(res: Response, parse: string -> Option<TimelineValue>, newDate: string -> D): (r: LoadOutcome<D>)
    ensures res.ApiError? || |res.items| == 0 ==> r.Rejected?
    ensures r.Loaded? <==>
      && res.Items? && |res.items| > 0
      && exists i ::
        && FirstWithId(res.items[0].columnValues, ParentTimelineColumnId, i)
        && IsTruthy(res.items[0].columnValues[i].value)
        && parse(res.items[0].columnValues[i].value.value).Some?
    ensures r.Rejected? <==>
      || res.ApiError? || |res.items| == 0
      || exists i ::
        && FirstWithId(res.items[0].columnValues, ParentTimelineColumnId, i)
        && IsTruthy(res.items[0].columnValues[i].value)
        && parse(res.items[0].columnValues[i].value.value).None?
    ensures r.Alerted? <==>
      && res.Items? && |res.items| > 0
      && forall i :: FirstWithId(res.items[0].columnValues, ParentTimelineColumnId, i) ==> !IsTruthy(res.items[0].columnValues[i].value)
    ensures r.Alerted? ==> r.message == EmptyTimelineAlert
    ensures r.Loaded? ==>
      && res.Items? && |res.items| > 0
      && r.subitems == res.items[0].subitems
      && exists i, tl ::
        && FirstWithId(res.items[0].columnValues, ParentTimelineColumnId, i)
        && IsTruthy(res.items[0].columnValues[i].value)
        && parse(res.items[0].columnValues[i].value.value) == Some(tl)
        && r.start == newDate(tl.from) && r.end == newDate(tl.to)
  {
    if res.ApiError? || |res.items| == 0 then Rejected
    else
      var item := res.items[0];
      match TimelineText(item)
      case None => Alerted(EmptyTimelineAlert)
      case Some(text) =>
        match parse(text)
        case None => Rejected
        case Some(tl) => Loaded(newDate(tl.from), newDate(tl.to), item.subitems)
  }

  /** `!context?.itemId`: the load runs only for a context carrying a non-zero item id. */
  function LoadTarget(context: Option<Context>): (target: Option<int>)
    ensures target.Some? <==> context.Some? && context.value.itemId.Some? && context.value.itemId.value != 0
    ensures target.Some? ==> target.value == context.value.itemId.value && target.value != 0
  {
    match context
    case None => None
    case Some(ctx) =>
      match ctx.itemId
      case None => None
      case Some(id) => if id == 0 then None else Some(id)
  }
}
