/**
 * The `App` component: its state hooks become fields, its handlers become
 * methods. The monday API and the host are outside: a fetched response and a
 * write outcome come in as parameters, a write and a notice go out as results.
 */
module Widget {
  import opened Wrappers
  import opened Records
  import opened Selections
  import opened Rendering

  class App<D> {
    var context: Option<Context>
    var parentStart: Option<D>
    var parentEnd: Option<D>
    var subitems: seq<Subitem>
    var selectedDates: map<string, Selection<D>>

    /** The hooks' initial values: no context, no parent range, no subitems, no selections. */
    constructor ()
      ensures context.None? && parentStart.None? && parentEnd.None?
      ensures subitems == [] && selectedDates == map[]
      ensures View().Loading?
    {
      context := None;
      parentStart := None;
      parentEnd := None;
      subitems := [];
      selectedDates := map[];
    }

    /** What the component currently renders. */
    function View(): (v: View<D>)
      reads this
      ensures v.Loading? <==> parentStart.None? || parentEnd.None?
      ensures v.Ready? ==> v.parentStart == parentStart.value && v.parentEnd == parentEnd.value
      ensures v.Ready? ==> |v.cards| == |subitems|
      ensures v.Ready? ==> forall i :: 0 <= i < |subitems| ==>
        && v.cards[i].id == subitems[i].id
        && v.cards[i].minDate == parentStart.value
        && v.cards[i].maxDate == parentEnd.value
        && (v.cards[i].saveDisabled <==> SaveRejects(selectedDates, subitems[i].id))
    {
      Render(parentStart, parentEnd, subitems, selectedDates)
    }

    /**
     * `loadParentAndSubitems` once `monday.api` has resolved to `res`: find the
     * parent timeline column, stop on a missing or empty value, otherwise set
     * the parent range and replace the subitem list.
     */
    method LoadParentAndSubitems(res: Response, parse: string -> Option<TimelineValue>, newDate: string -> D)
      returns (outcome: LoadOutcome<D>)
      modifies this`parentStart, this`parentEnd, this`subitems
      ensures outcome == LoadResult(res, parse, newDate)
      ensures outcome.Loaded? ==>
        && parentStart == Some(outcome.start)
        && parentEnd == Some(outcome.end)
        && subitems == outcome.subitems
      ensures !outcome.Loaded? ==>
        && parentStart == old(parentStart)
        && parentEnd == old(parentEnd)
        && subitems == old(subitems)
    {
      if res.ApiError? || |res.items| == 0 {
        // `res.data.items[0]` is missing: the async load rejects
        return Rejected;
      }
      var item := res.items[0];
      var timelineColumn := FindColumn(item.columnValues, ParentTimelineColumnId);
      if timelineColumn.None? || !IsTruthy(timelineColumn.value.value) {
        return Alerted(EmptyTimelineAlert);
      }
      var timeline := parse(timelineColumn.value.value.value);
      if timeline.None? {
        // `JSON.parse` throws
        return Rejected;
      }
      parentStart := Some(newDate(timeline.value.from));
      parentEnd := Some(newDate(timeline.value.to));
      subitems := item.subitems;
      outcome := Loaded(parentStart.value, parentEnd.value, subitems);
    }

    /**
     * A context event: store the context, then run the load effect, which
     * fetches `fetch(itemId)` only when the context carries an item id.
     */
    method ReceiveContext(ctx: Context, fetch: int -> Response, parse: string -> Option<TimelineValue>,
                          newDate: string -> D)
      returns (outcome: Option<LoadOutcome<D>>)
      modifies this`context, this`parentStart, this`parentEnd, this`subitems
      ensures context == Some(ctx)
      ensures outcome.None? <==> LoadTarget(Some(ctx)).None?
      ensures outcome.Some? ==> outcome.value == LoadResult(fetch(LoadTarget(Some(ctx)).value), parse, newDate)
      ensures outcome.Some? && outcome.value.Loaded? ==>
        && parentStart == Some(outcome.value.start)
        && parentEnd == Some(outcome.value.end)
        && subitems == outcome.value.subitems
      ensures outcome.None? || !outcome.value.Loaded? ==>
        && parentStart == old(parentStart)
        && parentEnd == old(parentEnd)
        && subitems == old(subitems)
    {
      context := Some(ctx);
      var target := LoadTarget(context);
      if target.None? {
        return None;
      }
      var result := LoadParentAndSubitems(fetch(target.value), parse, newDate);
      outcome := Some(result);
    }

    /** The picker's `onChange` on the card of subitem `id`. */
    method ChangeSelection(id: string, start: Option<D>, end: Option<D>)
      modifies this`selectedDates
      ensures selectedDates == Select(old(selectedDates), id, start, end)
    {
      selectedDates := Select(selectedDates, id, start, end);
    }

    /**
     * `saveSubitemTimeline(subitemId)`. Returns the write it issues (None when
     * the selection is incomplete) and the notice shown once the write
     * resolves; `writeSucceeds` is whether `monday.api` resolves. It changes no
     * field of the component.
     */
    method SaveSubitemTimeline(subitemId: string, toIso: D -> string, writeSucceeds: bool)
      returns (write: Option<ColumnWrite>, notice: Option<Notice>)
      ensures write == SaveRequest(selectedDates, subitemId, toIso)
      ensures write.None? <==> SaveRejects(selectedDates, subitemId)
      ensures notice.Some? <==> write.Some? && writeSucceeds
      ensures notice.Some? ==> notice.value == SavedNotice
    {
      write, notice := None, None;
      if subitemId !in selectedDates {
        return;
      }
      var dates := selectedDates[subitemId];
      if dates.start.None? || dates.end.None? {
        return;
      }
      var value := EncodeRange(dates.start.value, dates.end.value, toIso);
      write := Some(ColumnWrite(subitemId, SubitemTimelineColumnId, value));
      if writeSucceeds {
        notice := Some(SavedNotice);
      }
    }
  }

  /**
   * Scenario: a load, a full selection for one subitem and a save. The
   * parent range bounds every card, only the selected card's button is
   * enabled, the save writes that subitem's timeline column, and the
   * selection survives the save.
   */
  method LoadSelectSave<D>(res: Response, parse: string -> Option<TimelineValue>, newDate: string -> D,
                           toIso: D -> string, start: D, end: D)
  {
    var app := new App<D>();
    var outcome := app.LoadParentAndSubitems(res, parse, newDate);
    if !outcome.Loaded? || |app.subitems| == 0 {
      assert !outcome.Loaded? ==> app.View().Loading?;
      return;
    }
    var id := app.subitems[0].id;
    assert app.View().Ready? && app.View().cards[0].saveDisabled;
    app.ChangeSelection(id, Some(start), Some(end));
    assert !app.View().cards[0].saveDisabled;
    assert app.View().cards[0].minDate == outcome.start;
    var write, notice := app.SaveSubitemTimeline(id, toIso, true);
    assert write == Some(ColumnWrite(id, SubitemTimelineColumnId, EncodeRange(start, end, toIso)));
    assert notice == Some(SavedNotice);
    assert app.selectedDates[id] == Selection(Some(start), Some(end));
  }
}
