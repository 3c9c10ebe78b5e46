# Filterable, paginated link list — a Dafny model

The repository is a single React component (`src/index.js`). It lists named links
from a static dataset. A text input filters the list by name, and a "Load More"
button reveals the filtered list five records at a time. Changing the filter
resets the list to its first page.

The model has four modules:

- `Text` (`text.dfy`): ASCII lower-casing (`LowerChar`, `Lower`) and substring
  containment (`Contains`). These stand in for `toLowerCase` and `includes`.
- `Filter` (`filter.dfy`): the `Record` entity and the filter predicate `ByText`
  (`byText`, line 40). It also holds the filter step `Matches` (`R.filter`,
  line 62) and the lemmas about both. `Positions` gives an independent account
  of which dataset positions survive the filter.
- `Pagination` (`pagination.dfy`): `Take` (`R.take`, line 64) and `Paginate`.
  `Paginate` yields the visible prefix and the Load More test
  `currentPagination < listLength` (line 72). In the source, `listLength` is
  captured through `R.tap` (line 63). Here it is a named value computed from
  the filtered list.
- `App` (`app.dfy`): the component's state machine. It has the state
  `(filterText, revealed)`, the events `FilterInput`/`LoadMore`, the transition
  function `Step` and its iteration `Run`. `View` composes filtering and
  pagination. The class `ListView` holds the two state cells that the source
  overwrites through `useState`. Its methods `HandleFilterUpdate`,
  `HandleLoadMoreClick` and `Render` are each proved equal to `Step` or `View`.

## Where the code and its own documentation disagree

The comment at `src/index.js:21` says the filter is case-insensitive. Line 40
lower-cases only the record's name and searches it for the query exactly as
typed. The model follows the code. The consequences are proved:

- `Filter.NameCaseIrrelevant`: the case of a name never matters.
- `Filter.UpperCaseQueryKeepsNothing`: a query containing an upper-case ASCII
  letter keeps no record at all.
- `Filter.AgreesWithDocumentedFilterIff`: the code agrees with the documented
  filter on every record exactly when the query has no upper-case letter. The
  documented filter lower-cases both sides.
- `Filter.QueryCaseMatters` gives a concrete case. "Alpha" is listed for the
  query "al" but not for "Al".

## Model

| member | source | states |
|---|---|---|
| `Text.Lower` | src/index.js:40 | The lower-cased name has the same length as the name. Each character is lower-cased, and no upper-case ASCII letter remains. |
| `Filter.Matches` | src/index.js:62 | The filtered list is no longer than the dataset. A record is in it iff the record is in the dataset and its lower-cased name contains the query. |
| `Filter.Positions` | src/index.js:62 | The kept positions are valid, strictly increasing dataset indices. A position is kept iff the record there matches. |
| `Filter.MatchesSelectsPositions` | src/index.js:62 | The filtered list is the records at the kept positions, one for one and in order. So it is an order-preserving subsequence of the dataset holding exactly the matching records. |
| `Filter.MatchesEmptyIff` | src/index.js:62 | The filter keeps nothing iff no record of the dataset matches. |
| `Filter.MatchesKeepsAllMatching` | src/index.js:62 | Filtering a list whose records all match returns that list unchanged. |
| `Filter.EmptyQueryKeepsAll` | src/index.js:40 | The empty query keeps the whole dataset in order, as the requirement at line 22 asks. |
| `Filter.MatchesIdempotent` | src/index.js:62 | Filtering the filtered list again with the same query gives the same list. |
| `Filter.NameCaseIrrelevant` | src/index.js:40 | Two records whose names differ only in letter case are both kept or both dropped, for every query. |
| `Filter.UpperCaseQueryKeepsNothing` | src/index.js:40 | A query containing an upper-case ASCII letter keeps no record. |
| `Filter.AgreesWithDocumentedFilterIff` | src/index.js:40 | The filter as written agrees on every record with the case-insensitive filter promised at line 21 iff the query has no upper-case letter. |
| `Filter.QueryCaseMatters` | src/index.js:40 | "Alpha" is kept for the query "al" and dropped for "Al". |
| `Pagination.Take` | src/index.js:64 | The visible list is a prefix of the filtered list, of length min(revealed, filtered length). |
| `Pagination.Paginate` | src/index.js:61-72 | The visible list is the first min(revealed, filtered length) filtered records. Load More is shown iff some filtered record is not visible. |
| `Pagination.PaginateMonotone` | src/index.js:64 | Revealing more keeps the earlier visible list as a prefix and appends exactly the next filtered records. Load More shown for the larger count implies it was shown for the smaller. |
| `App.Step` | src/index.js:47-53 | Each handler keeps "revealed is a positive multiple of 5". A change of filter text resets revealed to 5. Load More keeps the filter text and raises revealed. |
| `App.RunKeepsInv` | src/index.js:43-53 | Any sequence of events keeps revealed a positive multiple of the page size. |
| `App.ReachableStatesKeepInv` | src/index.js:43-53 | Every state reachable from the mount state `("", 5)` has revealed ≥ 5 and a multiple of 5. |
| `App.FilterInputResets` | src/index.js:47-50 | Filter input leads to the same state whatever the prior state was, with revealed exactly 5. |
| `App.LoadMoreExtendsView` | src/index.js:52-53 | After Load More, the earlier visible list is a prefix of the new one. When the button was shown, at least one more record becomes visible. |
| `App.NoMatchShowsNothing` | src/index.js:61-74 | A filter matching no record renders an empty list and no Load More button. |
| `App.UpperCaseFilterShowsNothing` | src/index.js:72 | A filter text containing an upper-case letter renders an empty list and no Load More button. |
| `App.OfferedRunStaysBounded` | src/index.js:72-73 | Suppose Load More is clicked only while the button is shown. Then revealed stays at one page or below the match count plus one page. |
| `App.SessionRevealsAtMostOnePagePastMatches` | src/index.js:72-73 | In every session from mount where Load More is clicked only while shown, revealed never runs a whole page past the matches. |
| `App.TwelveRecordSession` | src/index.js:43-74 | With twelve records and no filter, the list shows 5 with Load More, then 10 with Load More, then all 12 without it. Both clicks were offered. |
| `App.ListView.constructor` | src/index.js:43-45 | Mounting starts with the empty filter text and one page revealed. |
| `App.ListView.HandleFilterUpdate` | src/index.js:47-50 | Sets the filter text to the new input and revealed to exactly 5. This is `Step` with `FilterInput`. |
| `App.ListView.HandleLoadMoreClick` | src/index.js:52-53 | Adds exactly 5 to revealed and leaves the filter text unchanged. This is `Step` with `LoadMore`. The invariant is kept. |
| `App.ListView.Render` | src/index.js:55-74 | Renders exactly `View` of the current state. Every visible record is a matching record of the dataset. Load More is shown iff revealed is below the match count. |

## Left out

- Rendering: the JSX for the input, list, links and button, and the `key`
  prop, are not modelled (src/index.js:57-79). Neither is `render` into the DOM.
  `Render` returns the visible records and the Load More flag instead.
- The DOM event object: `HandleFilterUpdate` takes the new text directly
  rather than `event.target.value`.
- The contents of `./data` are not part of this model. The dataset is an
  arbitrary, immutable `seq<Record>`.
- Text.Lower: lower-cases ASCII 'A'..'Z' only. Full Unicode `toLowerCase` can
  change non-ASCII letters and the length of a text, and that is not captured.
- A record without a `name` field (a `TypeError` in the source) is not
  representable, because every `Record` has a name.
- Ramda internals: `R.filter` and `R.take` are modelled by their results.
  `R.take` with a negative count returns everything. That is not modelled:
  the revealed count is a `nat`, and the state machine keeps it at least 5.
- React's `useState` batching and event-loop scheduling are not modelled. Each
  handler is one atomic transition. The initial `listLength = data.length`
  (line 55) is always overwritten before use, so it is not modelled.
- Filtering by a field other than `name` is not modelled. The code hard-codes
  `name`, although reuse with another key is a stated bonus requirement.
