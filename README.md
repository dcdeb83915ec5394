# Restricted subitem timeline: a Dafny model

This project models the record-handling layer of the monday.com board widget
"Restricted Subitem Timeline" (`src/App.js`). The widget reads a parent
item's timeline column. It then shows one date-range picker per subitem,
bounded by the parent range, and writes a chosen range back to the subitem's
own timeline column.

The model has six modules:

- `Wrappers`: `Option`, which stands for JavaScript `null`/`undefined`.
- `IsoDate`: the `iso.split("T")[0]` extraction. `Split` is JavaScript's
  `split` on one character, proved to be undone by `Join`. `DatePart` is its
  first piece. For a `toISOString`-shaped timestamp that piece is the
  calendar date `YYYY-MM-DD` (extended form, ISO 8601:2004 section 5.2.1.1).
- `Records`: the fetched records (`Column`, `Subitem`, `Item`, `Response`)
  and the two column ids. It also holds the column `find`, the
  empty-value guard, the outcome of one load (`LoadResult`) and the
  `!context?.itemId` guard.
- `Selections`: the per-subitem selection map and its functional update. It
  also holds the save gate and the `{from, to}` value a save writes.
- `Rendering`: the Loading/Ready decision and the cards, with their bounds
  and their Save buttons.
- `Widget`: the component as a class `App<D>`. Its fields are the hooks
  (`context`, `parentStart`, `parentEnd`, `subitems`, `selectedDates`). Its
  methods are the handlers. Each method is proved against the functions
  above.

Dates are an abstract type parameter `D`. Three host operations come in as
function parameters: `new Date(text)` (`newDate`), `toISOString` (`toIso`)
and `JSON.parse` (`parse`, which gives None when it throws). The response of
the read query comes in as a `Response` value. Whether the write resolves
comes in as a `writeSucceeds` flag. The write and the success notice go out
as results.

Facts about the code that the model keeps as they are:

- Partial selections are stored. After the first click the picker reports
  `[start, null]`, and `onChange` stores `{start, end: null}`. Only the Save
  gate treats the pair as incomplete.
- The encoding takes the UTC `toISOString()` text up to its first `T`, so the
  stored day can differ from the local day. No day-stable round trip is
  claimed.
- A missing parent column and an empty one lead to the same alert. A
  response without an item, a rejected API call and a `JSON.parse` failure
  all end the async load with no state change and no message (`Rejected`).
- A failed write is not reported. The success notice appears only when the
  write resolves.

## Model

| member | source | states |
|---|---|---|
| `IsoDate.Split` | src/App.js:76-77 | `split` on one character gives at least one piece. No piece contains the separator, and joining the pieces with it gives back the input. |
| `IsoDate.DatePart` | src/App.js:76-77 | `split("T")[0]` is a prefix of the timestamp and contains no `T`. It is followed by a `T` unless it is the whole string. |
| `IsoDate.DatePartUnique` | src/App.js:76-77 | Those three properties determine the result: any such prefix is exactly `DatePart`, the text before the first `T`. |
| `IsoDate.DatePartOfIsoTimestamp` | src/App.js:76-77 | On a `YYYY-MM-DDTHH:mm:ss.sssZ` timestamp the extracted part is its first ten characters, a `YYYY-MM-DD` calendar date. |
| `Records.FindColumn` | src/App.js:54-56 | `find` gives None exactly when no column has the id. Otherwise it gives the column at the first index with that id. |
| `Records.TimelineText` | src/App.js:52-58 | A value is present exactly when the first column with id `timerange_mkzc2yy4` has a value that is neither null nor empty. That value is then the one returned. |
| `Records.IsTruthy` | src/App.js:58 | A column value passes the `!timelineColumn?.value` test exactly when it is neither null nor the empty string. |
| `Records.LoadResult` | src/App.js:48-67 | A rejected call or a missing item rejects. The result is an alert ("Parent timeline is empty") exactly when the first parent timeline column is missing, null or empty. It is `Loaded` exactly when that column is non-empty and its text parses, and `Rejected` exactly when the call fails, no item comes back or the text does not parse. A successful load takes the parent range from the parsed `from`/`to` of that column and takes the fetched subitem list unchanged. |
| `Records.LoadTarget` | src/App.js:22-25 | A load is triggered exactly when the context is present and carries a non-zero `itemId`, and it is for that id. |
| `Selections.Select` | src/App.js:128-133 | The update writes key `id` with `{start, end}` and adds no other key. Every other entry keeps its value. |
| `Selections.SelectCommutes` | src/App.js:128-133 | Updates for two different subitems commute. A second update for the same subitem overrides the first. |
| `Selections.SaveRejects` | src/App.js:72-73 | The guard on `!dates?.start` or `!dates?.end` lets a save through exactly when the subitem has a stored selection with both a start and an end. |
| `Selections.EncodeRange` | src/App.js:75-78 | The value has exactly `from` and `to`. Each is the prefix of the corresponding ISO string before its first `T`, so it contains no `T`. |
| `Selections.EncodeRangeGivesCalendarDates` | src/App.js:75-78 | For `toISOString`-shaped input both `from` and `to` are `YYYY-MM-DD` calendar dates, the first ten characters of each timestamp. |
| `Selections.SaveRequest` | src/App.js:71-92 | A save writes nothing exactly when the subitem has no selection or lacks a start or an end. Otherwise it writes that subitem's column `timerange_mkzck13j` with the encoded range. |
| `Selections.SelectThenSave` | src/App.js:71-78 | After a selection change for `id`, saving `id` is gated and encoded by the new pair alone. |
| `Selections.SelectIsolatesOtherSaves` | src/App.js:128-133 | A selection change for one subitem never changes what saving another subitem would write. |
| `Rendering.RangeFor` | src/App.js:116 | `selectedDates[subitem.id]`, defaulting to `{}`, is the stored selection when there is one, and otherwise a selection with neither end. Its button state agrees with the save guard for that id. |
| `Rendering.ButtonDisabled` | src/App.js:139 | `disabled` on `!range.start` or `!range.end`: the button is enabled exactly when the range has both a start and an end. |
| `Rendering.CardFor` | src/App.js:116-144 | One card carries the subitem's id and name, its stored selection or none, the given min and max bounds, and a button disabled exactly when the save guard rejects. |
| `Rendering.Cards` | src/App.js:115-146 | There is one card per subitem, in server order, with its id and name. Every card has the same min and max bounds and shows the stored selection, or none. Its button is disabled exactly when a save would be rejected. |
| `Rendering.Render` | src/App.js:99-127 | The view is Loading exactly when either parent date is unset. Otherwise it is Ready with the parent range and exactly the cards of `Cards`: one per subitem, with `minDate = parentStart`, `maxDate = parentEnd` on every card. |
| `Rendering.SameBoundsOnEveryCard` | src/App.js:126-127 | Any two rendered cards have equal minimum and equal maximum dates. |
| `Rendering.ButtonAgreesWithSave` | src/App.js:139 | A card's Save button is disabled exactly when `saveSubitemTimeline` for its subitem would issue no write. |
| `Rendering.SelectEnablesOnlyItsCard` | src/App.js:128-139 | A full selection for one subitem enables that card's button and shows the range there. Every other card stays exactly as it was. |
| `Widget.App.constructor` | src/App.js:8-12 | Initially there is no context, no parent dates, no subitems and no selection, and the view is Loading. |
| `Widget.App.View` | src/App.js:99-146 | The component's current render is Loading exactly when either parent date field is unset. Otherwise it shows one card per subitem of the `subitems` field, bounded by the parent fields, with a button disabled exactly when saving that subitem would be rejected. |
| `Widget.App.LoadParentAndSubitems` | src/App.js:28-68 | The outcome is `LoadResult`. On success the fields take the new range and list. On an alert or a rejection the parent dates and the subitem list keep their values. The selections are never touched. |
| `Widget.App.ReceiveContext` | src/App.js:15-25 | The context is stored. A load runs exactly when the guard lets it through, for the context's item id. Without a load the parent range and subitems are unchanged. |
| `Widget.App.ChangeSelection` | src/App.js:128-133 | `selectedDates` becomes the old map with exactly one entry overwritten. |
| `Widget.App.SaveSubitemTimeline` | src/App.js:71-97 | The write issued is `SaveRequest` of the current selections. The notice "Timeline updated"/"success" appears exactly when a write was issued and resolved. The method modifies no field, so the selection survives the save. |

## Left out

- `src/index.js` is not part of this model: it only mounts the component.
- The monday SDK calls (`monday.listen`, `monday.api`, `monday.execute`) are I/O. Their results are parameters and their requests are results.
- The GraphQL query and mutation text are left out. So is the `JSON.stringify` text embedded in the mutation. The write is the structured `ColumnWrite`.
- JavaScript `Date` semantics are left out: parsing, time zones, `toISOString`, and the `RangeError` that `toISOString` throws on an invalid date. Dates are abstract and their operations are parameters.
- `JSON.parse` is an abstract `parse` to `{from, to}`. A parsed object that lacks `from` or `to` (giving `new Date(undefined)`) is not distinguished.
- The context's `itemId` is an integer whose only falsy value is 0. String ids and `NaN` are not modelled.
- `alert` and the notice are results, not displayed. `toDateString`, the markup and the date picker's internal range logic are left out.
- Async interleaving is left out: overlapping saves, loads racing each other, repeated context events. Each handler runs to completion on its inputs.
