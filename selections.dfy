/**
 * The per-subitem selection map, the save gate on it, and the `{from, to}`
 * value a save writes.
 */
module Selections {
  import opened Wrappers
  import opened IsoDate
  import opened Records

  /** A picker selection `{start, end}`; either end may still be null. */
  datatype Selection<D> = Selection(start: Option<D>, end: Option<D>)

  /** The write a save issues: `change_column_value(item_id, column_id, value)`. */
  datatype ColumnWrite = ColumnWrite(itemId: string, columnId: string, value: TimelineValue)

  /** The host notice shown after a write resolves. */
  datatype Notice = Notice(message: string, kind: string)

  const SavedNotice := Notice("Timeline updated", "success")

  /**
   * The picker's `onChange`: `prev => ({...prev, [id]: {start, end}})`.
   * Exactly the key `id` is written; every other entry is kept.
   */
  function Select<D>(prev: map<string, Selection<D>>, id: string, start: Option<D>, end: Option<D>): (next: map<string, Selection<D>>)
    ensures next.Keys == prev.Keys + {id}
    ensures id in next && next[id] == Selection(start, end)
    ensures forall k :: k in prev && k != id ==> next[k] == prev[k]
  {
    prev[id := Selection(start, end)]
  }

  /** `!dates?.start || !dates?.end` with `dates = selectedDates[id]`: save does nothing. */
  predicate SaveRejects<D>(selected: map<string, Selection<D>>, id: string)
    ensures !SaveRejects(selected, id) <==> id in selected && selected[id].start.Some? && selected[id].end.Some?
  {
    id !in selected || selected[id].start.None? || selected[id].end.None?
  }

  /**
   * `{from: start.toISOString().split("T")[0], to: end.toISOString().split("T")[0]}`,
   * with `toIso` standing for `toISOString`.
   */
  function EncodeRange<D>(start: D, end: D, toIso: D -> string): (v: TimelineValue)
    ensures v.from <= toIso(start) && 'T' !in v.from
    ensures v.to <= toIso(end) && 'T' !in v.to
    ensures |v.from| < |toIso(start)| ==> toIso(start)[|v.from|] == 'T'
    ensures |v.to| < |toIso(end)| ==> toIso(end)[|v.to|] == 'T'
  {
    TimelineValue(DatePart(toIso(start)), DatePart(toIso(end)))
  }

  /** For timestamps in `toISOString` shape both encoded ends are `YYYY-MM-DD` calendar dates. */
  lemma EncodeRangeGivesCalendarDates<D>(start: D, end: D, toIso: D -> string)
    requires IsIsoTimestamp(toIso(start)) && IsIsoTimestamp(toIso(end))
    ensures EncodeRange(start, end, toIso).from == toIso(start)[..10]
    ensures EncodeRange(start, end, toIso).to == toIso(end)[..10]
    ensures IsCalendarDate(EncodeRange(start, end, toIso).from) && IsCalendarDate(EncodeRange(start, end, toIso).to)
  {
  }

  /** The write `saveSubitemTimeline(id)` issues, or None when it returns early. */
  function SaveRequest<D>(selected: map<string, Selection<D>>, id: string, toIso: D -> string): (w: Option<ColumnWrite>)
    ensures w.None? <==> SaveRejects(selected, id)
    ensures w.Some? ==> w.value.itemId == id && w.value.columnId == SubitemTimelineColumnId
    ensures w.Some? ==> w.value.value == EncodeRange(selected[id].start.value, selected[id].end.value, toIso)
  {
    if SaveRejects(selected, id) then None
    else
      var dates := selected[id];
      Some(ColumnWrite(id, SubitemTimelineColumnId, EncodeRange(dates.start.value, dates.end.value, toIso)))
  }

  /** A selection change for `id` gates and encodes the save for `id` from the new pair alone. */
  lemma SelectThenSave<D>(prev: map<string, Selection<D>>, id: string, start: Option<D>, end: Option<D>, toIso: D -> string)
    ensures SaveRequest(Select(prev, id, start, end), id, toIso).None? <==> start.None? || end.None?
    ensures start.Some? && end.Some? ==>
      SaveRequest(Select(prev, id, start, end), id, toIso)
        == Some(ColumnWrite(id, SubitemTimelineColumnId, EncodeRange(start.value, end.value, toIso)))
  {
  }

  /** A selection change for `id` leaves the save of every other subitem as it was. */
  lemma SelectIsolatesOtherSaves<D>(prev: map<string, Selection<D>>, id: string, other: string,
                                    start: Option<D>, end: Option<D>, toIso: D -> string)
    requires other != id
    ensures SaveRequest(Select(prev, id, start, end), other, toIso) == SaveRequest(prev, other, toIso)
  {
  }

  /** Changes for two different subitems commute; a repeated change for one subitem keeps the last. */
  lemma SelectCommutes<D>(m: map<string, Selection<D>>, a: string, b: string,
                          s1: Option<D>, e1: Option<D>, s2: Option<D>, e2: Option<D>)
    ensures a != b ==> Select(Select(m, a, s1, e1), b, s2, e2) == Select(Select(m, b, s2, e2), a, s1, e1)
    ensures Select(Select(m, a, s1, e1), a, s2, e2) == Select(m, a, s2, e2)
  {
  }
}
