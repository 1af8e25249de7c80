# Lunaria dashboard: derived state, notifications and dialogs

A Dafny model of the client-side core of the Lunaria "mining entries"
dashboard (`components/Dashboard.tsx`). A signed-in user keeps a collection of
entries: links to faucet, mining and staking sites. The dashboard derives two
things from that collection:

- **The card list.** A case-insensitive search over name, description and
  tags, then a category filter, where `"favorites"` is a pseudo-category,
  then a stable sort by one of six keys.
- **The summary figures.** Total entries, distinct categories, favourites
  and total clicks.

Beside the derived state it keeps:

- **A notification list.** Each entry's id is the push time. A timer removes
  each id 5000 ms after its push.
- **Six dialog flags with their payloads.** These are the entry being
  edited, the pending confirmation and the share target.
- **A collection share code.** It is created once per user: a random
  ten-digit number, stored in the settings store.

Modules, leaves first:

- `Wrappers`: `Option`.
- `Text`: `toLowerCase` for ASCII and Latin-1 letters; `includes`, proved equal to "occurs at some
  position"; and `LexCompare`, a three-way code-point comparison that stands
  in for `localeCompare`, proved antisymmetric, transitive and zero only on
  equal strings.
- `Sequences`: `filter`, characterised by multiplicities, plus
  concatenation and idempotence.
- `Entries`: the entry record, `click_count || 0` and the click-count update
  of `openMiningPage`.
- `Sorting`: the six comparators and a stable insertion sort. The sort is
  proved to return a sorted result that is a permutation of its input.
  Stability is stated as follows: for every entry `x`, the entries tied
  with `x` appear in the output in the same order as in the input.
- `FilterSort`: the filter record, `handleFilterChange`'s update and the
  view pipeline, with its membership, order and stability theorems.
- `StatsAggregator`: the four figures. They are characterised one appended
  entry at a time, bounded, and shown to change by exactly one click when an
  entry is opened.
- `Notifications`: push and expiry, and the lemmas about them: round trip,
  idempotence, commutation and same-millisecond collisions.
- `Modals`: the flag record, the whole-record write `Only` and the spread
  write `With`. A lemma shows that spread writes do not keep dialogs
  mutually exclusive.
- `ShareCode`: the 10-digit code, its decimal spelling with a parse round
  trip, and get-or-create.
- `DashboardState`: the component's state as a class. It has one method per
  handler that changes the modelled state, and `Valid()` ties the displayed list and stats to the entries
  and filters.

Time and randomness are parameters: `now` is the integer millisecond clock,
and `offset` is the floored random part of the share code. The backing store
appears only as its answers. `LoadData` receives the fetched rows, or `None`
when the query failed. `LoadCollectionShareCode` receives the stored setting
and returns the value to write back.

Behaviour of `components/Dashboard.tsx` worth knowing:

- **Unknown sort key.** A `sortBy` that matches none of the `case` labels
  (331-338) leaves the filtered order as it is.
- **Failed load.** `getEntries` answers `[]` on an error, so the collection
  becomes empty.
- **Search term.** It is lower-cased but not trimmed (323-324).
- **Dialog exclusion.** It holds only for whole-record writes. A spread open
  leaves other dialogs open (`Modals.SpreadOpenKeepsOthersOpen`).
- **Notification ids.** They are the push time (275), so two pushes in the
  same millisecond share an id and are removed together
  (`Notifications.SameMillisecondExpiresTogether`).

## Model

| member | source | states |
|---|---|---|
| `Text.ContainsIff` | components/Dashboard.tsx:325 | the computed `includes` holds exactly when the term occurs at some position of the lower-cased text |
| `Text.ToLower` | components/Dashboard.tsx:324-325 | keeps the length (`toLowerCase` for ASCII and Latin-1 capitals); otherwise no contract of its own; its meaning is carried by the rows citing the same lines, through `FilterSort.SearchKeepsExactly` |
| `Text.Contains` | components/Dashboard.tsx:325 | `includes`; no contract of its own; its meaning is carried by the rows citing the same lines, through `Text.ContainsIff` |
| `Text.LexCompare` | components/Dashboard.tsx:334-335 | the stand-in for `localeCompare` only ever answers -1, 0 or 1 |
| `Text.LexCompareZero` | components/Dashboard.tsx:334-335 | the name/category comparison reports a tie exactly for equal strings |
| `Text.LexCompareFlip` | components/Dashboard.tsx:334-335 | swapping the two strings flips the sign of the comparison |
| `Text.LexCompareTrans` | components/Dashboard.tsx:334-335 | the string comparison is transitive, so the name and category sorts are well defined |
| `Sequences.Filter` | components/Dashboard.tsx:325-329 | `filter` never grows the list |
| `Sequences.FilterMultiset` | components/Dashboard.tsx:325-329 | `filter` keeps every element that passes exactly as often as the input holds it and drops every other element |
| `Sequences.FilterConcat` | components/Dashboard.tsx:325-329 | `filter` keeps the relative order of the kept elements: it distributes over concatenation |
| `Entries.ClickUpdate` | components/Dashboard.tsx:392-395 | without a URL (null or empty) nothing is written; otherwise the written count is one more than `click_count` read as 0 when absent |
| `Entries.Clicked` | components/Dashboard.tsx:395 | the entry after the update; no contract of its own; its meaning is carried by `Entries.ClickedCountsOneMore` and `StatsAggregator.StatsAfterClick` |
| `Entries.ClicksOrZero` | components/Dashboard.tsx:337 | `click_count` read as 0 when absent (also 346 and 395); no contract of its own; its meaning is carried by the rows citing the same lines, through `Entries.ClickUpdate` and `Sorting.SortedMeaning` |
| `Entries.HasUrl` | components/Dashboard.tsx:393 | a missing or empty `url`; no contract of its own; its meaning is carried by the rows citing the same lines, through `Entries.ClickUpdate` |
| `Entries.ClickedCountsOneMore` | components/Dashboard.tsx:395 | after the update the displayed count is one higher, `last_opened` is the click time, and every other field is unchanged |
| `Sorting.CompareFlip` | components/Dashboard.tsx:331-338 | each of the six comparators is antisymmetric |
| `Sorting.Compare` | components/Dashboard.tsx:332-337 | the six comparators; no contract of its own; its meaning is carried by the rows citing the same lines: `Sorting.CompareFlip`, `Sorting.CompareTrans`, `Sorting.SortedMeaning` |
| `Sorting.CompareTrans` | components/Dashboard.tsx:331-338 | each of the six comparators is transitive |
| `Sorting.TieRefl` | components/Dashboard.tsx:331-338 | under each comparator every entry is tied with itself |
| `Sorting.TieSym` | components/Dashboard.tsx:331-338 | under each comparator a tie is symmetric |
| `Sorting.TieTrans` | components/Dashboard.tsx:331-338 | under each comparator ties are transitive; with the two rows above, ties form an equivalence |
| `Sorting.Insert` | components/Dashboard.tsx:331-338 | inserting adds exactly the one element to the multiset of the list |
| `Sorting.InsertSorted` | components/Dashboard.tsx:331-338 | inserting into a sorted list keeps it sorted |
| `Sorting.SortBy` | components/Dashboard.tsx:331-338 | the sort returns a permutation of its input |
| `Sorting.SortBySorted` | components/Dashboard.tsx:331-338 | the sort's result is ordered by the key's comparator |
| `Sorting.InsertStable` | components/Dashboard.tsx:331-338 | insertion passes the new element only over elements strictly below it, so no tie class is reordered |
| `Sorting.SortByStable` | components/Dashboard.tsx:331-338 | stability: for every entry, the entries tied with it keep their input order |
| `Sorting.SortedMeaning` | components/Dashboard.tsx:332-337 | sorted means: newest has `created_at` non-increasing, oldest non-decreasing, mostClicked `click_count` read as 0 when absent non-increasing, favorites every favourite before every non-favourite, name/category lexicographically non-decreasing |
| `FilterSort.WithFilter` | components/Dashboard.tsx:401-402 | the chosen filter takes the new value and the other two keep theirs |
| `FilterSort.ParseSortKey` | components/Dashboard.tsx:331-338 | the `case` labels of the sort `switch`; no contract of its own; its meaning is carried by the rows citing the same lines, through `FilterSort.FilteredEntriesOrder` |
| `FilterSort.MatchesSearch` | components/Dashboard.tsx:325 | the search test; no contract of its own; its meaning is carried by the rows citing the same lines, through `FilterSort.SearchKeepsExactly` |
| `FilterSort.InCategory` | components/Dashboard.tsx:328-329 | the category test; no contract of its own; its meaning is carried by the rows citing the same lines, through `FilterSort.CategoryKeepsExactly` |
| `FilterSort.Filtered` | components/Dashboard.tsx:322-330 | the search step, then the category step; no contract of its own; its meaning is carried by `FilterSort.FilteredEntriesContents`, `FilterSort.SearchKeepsExactly` and `FilterSort.CategoryKeepsExactly` |
| `FilterSort.FilteredEntries` | components/Dashboard.tsx:321-340 | the view pipeline; no contract of its own; its meaning is carried by the rows citing the same lines: `FilterSort.FilteredEntriesContents`, `FilterSort.FilteredEntriesOrder`, `FilterSort.FilteredEntriesStable` |
| `FilterSort.FilteredEntriesContents` | components/Dashboard.tsx:321-340 | the view contains each entry that passes search and category exactly as often as the input does, and nothing else: no entry is invented or duplicated |
| `FilterSort.UnfilteredIsPermutation` | components/Dashboard.tsx:321-340 | with empty search and empty category the view is a permutation of the entries |
| `FilterSort.SearchKeepsExactly` | components/Dashboard.tsx:323-326 | a non-empty search keeps an entry iff the lower-cased term occurs in the lower-cased name, in the description when present, or in some tag when tags are present |
| `FilterSort.CategoryKeepsExactly` | components/Dashboard.tsx:327-330 | category "favorites" keeps exactly the favourites; any other non-empty category exactly the entries stored under it; independent of the sort key |
| `FilterSort.FilteredEntriesOrder` | components/Dashboard.tsx:331-338 | the order of the view for each of the six keys, and an unrecognised key returns the filtered list unchanged |
| `FilterSort.FilteredEntriesStable` | components/Dashboard.tsx:331-338 | entries tied under the selected key appear in the view in their filtered input order |
| `FilterSort.EmptyView` | components/Dashboard.tsx:321-340 | an empty collection gives an empty view under any filters |
| `FilterSort.FaucetsExample` | components/Dashboard.tsx:332-337 | two faucets with 5 and 1 clicks, the second newer: mostClicked shows the first first, newest shows the second first |
| `FilterSort.DescriptionMatchExample` | components/Dashboard.tsx:323-326 | a search for "faucet" keeps "Mining Pool" through its description "best faucet site" |
| `StatsAggregator.CategorySet` | components/Dashboard.tsx:344 | the distinct categories; no contract of its own; its meaning is carried by `StatsAggregator.StatsSnoc` and `StatsAggregator.DistinctCategoriesExample` |
| `StatsAggregator.ReduceClicks` | components/Dashboard.tsx:346 | the left fold of the click counts; no contract of its own; its meaning is carried by `StatsAggregator.ReduceClicksSnoc` |
| `StatsAggregator.ComputeStats` | components/Dashboard.tsx:342-348 | the four figures; no contract of its own; its meaning is carried by the rows citing the same lines: `StatsAggregator.StatsEmpty`, `StatsAggregator.StatsSnoc`, `StatsAggregator.StatsBounds` |
| `StatsAggregator.StatsEmpty` | components/Dashboard.tsx:342-348 | no entries give all four figures zero |
| `StatsAggregator.ReduceClicksSnoc` | components/Dashboard.tsx:346 | the click `reduce` over one more entry adds that entry's `click_count` read as 0 when absent |
| `StatsAggregator.StatsSnoc` | components/Dashboard.tsx:342-348 | one more entry adds one to the total, one to the categories iff its category is new, one to favourites iff it is a favourite, and its clicks to the clicks |
| `StatsAggregator.StatsBounds` | components/Dashboard.tsx:342-348 | categories and favourites never exceed the total, a non-empty collection has a category, and non-negative counts give a non-negative clicks total |
| `StatsAggregator.StatsAfterClick` | components/Dashboard.tsx:392-395 | opening an entry with a URL raises the clicks figure by exactly one and leaves the other three unchanged |
| `StatsAggregator.DistinctCategoriesExample` | components/Dashboard.tsx:344 | categories mining, mining, staking count as two |
| `Notifications.RemoveId` | components/Dashboard.tsx:277-279 | expiry of id k keeps exactly the notifications whose id is not k |
| `Notifications.RemoveIdConcat` | components/Dashboard.tsx:278 | expiry keeps the survivors in their order |
| `Notifications.RemoveIdKeepsOthers` | components/Dashboard.tsx:278 | expiry of an id nobody has leaves the list unchanged |
| `Notifications.ExpireTwice` | components/Dashboard.tsx:277-279 | a second expiry of the same id is a no-op |
| `Notifications.ExpiriesCommute` | components/Dashboard.tsx:277-279 | two timers give the same list whichever fires first |
| `Notifications.PushThenExpire` | components/Dashboard.tsx:274-280 | with a fresh id, push followed by its expiry restores the list exactly |
| `Notifications.ExpireOtherKeepsNewest` | components/Dashboard.tsx:274-280 | another id's expiry keeps the newest push at the end |
| `Notifications.SameMillisecondExpiresTogether` | components/Dashboard.tsx:275 | two pushes in the same millisecond share an id and one expiry removes both |
| `Modals.Only` | components/Dashboard.tsx:435 | a whole-record write leaves exactly the named flag true |
| `Modals.With` | components/Dashboard.tsx:526 | a spread write sets the named flag and leaves the other five unchanged |
| `Modals.SpreadCounts` | components/Dashboard.tsx:587 | a spread open adds at most one visible dialog, a spread close removes at most one, and from all-closed a spread open equals the whole-record one |
| `Modals.SpreadOpenKeepsOthersOpen` | components/Dashboard.tsx:538 | after the whole-record confirm, a spread share open leaves two dialogs visible |
| `Modals.CollectionTarget` | components/Dashboard.tsx:434 | the whole-collection share payload; no contract of its own; its meaning is carried by `DashboardState.Dashboard.HandleShareAll` |
| `ShareCode.DecimalString` | components/Dashboard.tsx:313 | `toString` of a number is a non-empty string of decimal digits |
| `ShareCode.DecimalRoundTrip` | components/Dashboard.tsx:313 | reading the digits back gives the number |
| `ShareCode.DecimalLength` | components/Dashboard.tsx:313 | a number in [10^(d-1), 10^d) has exactly d digits |
| `ShareCode.NewCode` | components/Dashboard.tsx:313 | a new code lies in [1000000000, 9999999999] |
| `ShareCode.NewCodeHasTenDigits` | components/Dashboard.tsx:313 | a new code is spelled with exactly ten digits that read back as the code |
| `ShareCode.IsSet` | components/Dashboard.tsx:310 | the truthiness test of a stored code (also 433); no contract of its own; its meaning is carried by `ShareCode.Resolve` and `DashboardState.Dashboard.HandleShareAll` |
| `ShareCode.Resolve` | components/Dashboard.tsx:308-316 | a stored non-empty code is reused and nothing is written; otherwise a new ten-digit code is used and written back; the code is never empty |
| `DashboardState.Dashboard.constructor` | components/Dashboard.tsx:253-266 | initial state: no entries, zero stats, all dialogs closed, no payloads, no notifications, filters `{'', '', 'newest'}` |
| `DashboardState.Dashboard.ShowNotification` | components/Dashboard.tsx:274-276 | the new notification, id `now`, is appended and the others keep their order |
| `DashboardState.Dashboard.ExpireNotification` | components/Dashboard.tsx:277-279 | the timer removes every notification with the id and keeps the rest in order |
| `DashboardState.Dashboard.LoadData` | components/Dashboard.tsx:282-295 | fetched rows replace the entries; a failed fetch adds one error notification and empties them; the view and stats are recomputed |
| `DashboardState.Dashboard.HandleFilterChange` | components/Dashboard.tsx:401-402 | only the named filter changes and the view follows the new filters |
| `DashboardState.Dashboard.LoadCollectionShareCode` | components/Dashboard.tsx:308-316 | the stored code is adopted without a write, or a new ten-digit code is adopted and written |
| `DashboardState.Dashboard.HandleShareAll` | components/Dashboard.tsx:432-436 | without a code: one error notification, flags and share payload unchanged; with one: the collection is the payload and only the share dialog is open |
| `DashboardState.Dashboard.OpenAddByUrl` | components/Dashboard.tsx:574 | only the add-by-URL dialog is open |
| `DashboardState.Dashboard.OpenAddNew` | components/Dashboard.tsx:576 | blank form, only the add dialog is open |
| `DashboardState.Dashboard.OpenExport` | components/Dashboard.tsx:577 | only the export dialog is open |
| `DashboardState.Dashboard.OpenDeleteAll` | components/Dashboard.tsx:578 | a pending delete-all for the user and only the confirm dialog open |
| `DashboardState.Dashboard.OpenAddFirst` | components/Dashboard.tsx:526 | blank form, add flag set, other flags unchanged |
| `DashboardState.Dashboard.OpenShare` | components/Dashboard.tsx:538 | the entry is the share payload, share flag set, other flags unchanged |
| `DashboardState.Dashboard.OpenEdit` | components/Dashboard.tsx:552 | the entry fills the form, add flag set, other flags unchanged |
| `DashboardState.Dashboard.OpenDeleteOne` | components/Dashboard.tsx:553 | a pending delete of that entry, confirm flag set, other flags unchanged |
| `DashboardState.Dashboard.OpenMenu` | components/Dashboard.tsx:587 | menu flag set, other flags unchanged |
| `DashboardState.Dashboard.CloseMenu` | components/Dashboard.tsx:569 | menu flag cleared, other flags unchanged (also the modal part of the menu actions at 572-573 and 579-583) |

## Left out

- Styles, JSX rendering, Chart.js and the usage-chart queries are presentation or a foreign library.
- Every call to the backing store is left out: entry load, update, delete, `increment_usage_count` and the settings upsert. The store appears only as the rows or settings it returns and the values written to it.
- The confirm callbacks (`onConfirm`) are recorded as the store operation they would perform, not run.
- Some browser I/O is not modelled: theme and `localStorage`, clipboard, `navigator.share`, the install prompt, `window.open`, `window.location`, and the DOM class toggling in `handleFilterChange`.
- Real timers and `Date.now()` are left out. Time is the integer parameter `now`, and a timer is the explicit `ExpireNotification(id)` call.
- `Math.random` is left out. The floored random part is the integer `offset` in [0, 9000000000), and floating-point rounding is not modelled.
- `localeCompare` is modelled as code-point lexicographic order, so locale collation is not captured. `toLowerCase` is modelled for ASCII and Latin-1 capitals only; other scripts are not lower-cased.
- `new Date(created_at).getTime()` is modelled as an integer timestamp. Unparsable dates (NaN) are not modelled.
- The add/edit form, confirm, share, export and add-by-URL dialogs, and the flag writes that close them, are not part of this model. `components/Dashboard.tsx` only opens them; it never renders them or closes them.
- The menu actions' side effects (theme toggle, sign-out notification, external links, install, share-app) are left out. Only their modal update, `CloseMenu`, is modelled.
- The presentation-only state `userIdPanelActive` (toggled at 456) and `importState` (declared at 264, never written here) is not modelled, nor is `deferredPrompt`.
- components/AuthScreen.tsx and App.tsx (authentication and routing) are not part of this model.
- Entry field types are not checked at run time. For example, a non-string `setting_value` or a non-numeric `click_count` is not modelled.
