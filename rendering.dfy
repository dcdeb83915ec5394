/**
 * What the component renders: "Loading" until both parent dates are set,
 * then one card per subitem, each with a range picker bounded by the parent
 * range and a Save button.
 */
module Rendering {
  import opened Wrappers
  import opened Records
  import opened Selections

  /** One subitem card: its picker's value and bounds and whether Save is disabled. */
  datatype Card<D> = Card(
    id: string,
    name: string,
    startDate: Option<D>,
    endDate: Option<D>,
    minDate: D,
    maxDate: D,
    saveDisabled: bool)

  datatype View<D> =
    | Loading
    | Ready(parentStart: D, parentEnd: D, cards: seq<Card<D>>)

  /** `selectedDates[id] || {}`. */
  function RangeFor<D>(selected: map<string, Selection<D>>, id: string): (range: Selection<D>)
    ensures id in selected ==> range == selected[id]
    ensures id !in selected ==> range.start.None? && range.end.None?
    ensures ButtonDisabled(range) <==> SaveRejects(selected, id)
  {
    if id in selected then selected[id] else Selection(None, None)
  }

  /** `!range.start || !range.end`. */
  predicate ButtonDisabled<D>(range: Selection<D>)
    ensures !ButtonDisabled(range) <==> range.start.Some? && range.end.Some?
  {
    range.start.None? || range.end.None?
  }

  /** The card of one subitem: its name, its stored selection or none, the shared bounds and the button state. */
  function CardFor<D>(s: Subitem, selected: map<string, Selection<D>>, minDate: D, maxDate: D): (c: Card<D>)
    ensures c.id == s.id && c.name == s.name
    ensures c.minDate == minDate && c.maxDate == maxDate
    ensures c.startDate == RangeFor(selected, s.id).start && c.endDate == RangeFor(selected, s.id).end
    ensures c.saveDisabled <==> SaveRejects(selected, s.id)
  {
    var range := RangeFor(selected, s.id);
    Card(s.id, s.name, range.start, range.end, minDate, maxDate, ButtonDisabled(range))
  }

  /** `subitems.map(subitem => ...)`: the cards, one per subitem in list order. */
  function Cards<D>(subitems: seq<Subitem>, selected: map<string, Selection<D>>, minDate: D, maxDate: D): (cards: seq<Card<D>>)
    ensures |cards| == |subitems|
    ensures forall i :: 0 <= i < |subitems| ==>
      && cards[i].id == subitems[i].id
      && cards[i].name == subitems[i].name
      && cards[i].minDate == minDate
      && cards[i].maxDate == maxDate
    ensures forall i :: 0 <= i < |subitems| ==>
      && cards[i].startDate == RangeFor(selected, subitems[i].id).start
      && cards[i].endDate == RangeFor(selected, subitems[i].id).end
      && (cards[i].saveDisabled <==> SaveRejects(selected, subitems[i].id))
    decreases |subitems|
  {
    if subitems == [] then []
    else [CardFor(subitems[0], selected, minDate, maxDate)] + Cards(subitems[1..], selected, minDate, maxDate)
  }

  /** The component's render: the Loading/Ready decision and the cards. */
  function Render<D>(parentStart: Option<D>, parentEnd: Option<D>, subitems: seq<Subitem>,
                     selected: map<string, Selection<D>>): (v: View<D>)
    ensures v.Loading? <==> parentStart.None? || parentEnd.None?
    ensures v.Ready? ==> v.parentStart == parentStart.value && v.parentEnd == parentEnd.value
    ensures v.Ready? ==> |v.cards| == |subitems|
    ensures v.Ready? ==> v.cards == Cards(subitems, selected, parentStart.value, parentEnd.value)
    ensures v.Ready? ==> forall i :: 0 <= i < |subitems| ==>
      && v.cards[i].id == subitems[i].id
      && v.cards[i].minDate == parentStart.value
      && v.cards[i].maxDate == parentEnd.value
  {
    if parentStart.None? || parentEnd.None? then Loading
    else Ready(parentStart.value, parentEnd.value, Cards(subitems, selected, parentStart.value, parentEnd.value))
  }

  /** Every rendered card shares the same bounds, whatever the number of subitems. */
  lemma SameBoundsOnEveryCard<D>(parentStart: Option<D>, parentEnd: Option<D>, subitems: seq<Subitem>,
                                 selected: map<string, Selection<D>>, i: int, j: int)
    requires Render(parentStart, parentEnd, subitems, selected).Ready?
    requires 0 <= i < |subitems| && 0 <= j < |subitems|
    ensures Render(parentStart, parentEnd, subitems, selected).cards[i].minDate
         == Render(parentStart, parentEnd, subitems, selected).cards[j].minDate
    ensures Render(parentStart, parentEnd, subitems, selected).cards[i].maxDate
         == Render(parentStart, parentEnd, subitems, selected).cards[j].maxDate
  {
  }

  /** A card's Save button is disabled exactly when pressing it would write nothing. */
  lemma ButtonAgreesWithSave<D>(parentStart: Option<D>, parentEnd: Option<D>, subitems: seq<Subitem>,
                                selected: map<string, Selection<D>>, toIso: D -> string, i: int)
    requires Render(parentStart, parentEnd, subitems, selected).Ready?
    requires 0 <= i < |subitems|
    ensures Render(parentStart, parentEnd, subitems, selected).cards[i].saveDisabled
        <==> SaveRequest(selected, subitems[i].id, toIso).None?
  {
  }

  /**
   * Choosing a full range for one subitem enables that card's Save button and
   * leaves every other card's picker value and button as they were.
   */
  lemma SelectEnablesOnlyItsCard<D>(subitems: seq<Subitem>, selected: map<string, Selection<D>>,
                                    minDate: D, maxDate: D, id: string, start: D, end: D, i: int)
    requires 0 <= i < |subitems|
    ensures var after := Cards(subitems, Select(selected, id, Some(start), Some(end)), minDate, maxDate);
            var before := Cards(subitems, selected, minDate, maxDate);
            if subitems[i].id == id then
              !after[i].saveDisabled && after[i].startDate == Some(start) && after[i].endDate == Some(end)
            else
              after[i] == before[i]
  {
  }
}
