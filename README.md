# Vocabulary viewer: favorites sync, catalog filter, pagination and page state

This Dafny project models the logic of a Next.js English-vocabulary viewer. The model has four parts.

- **Favorites synchronization** (`favorites.dfy`, module `FavoritesSync`). The `useFavorites` hook keeps three things:
  - a local list of favorite vocabulary ids, updated optimistically;
  - a saving indicator;
  - a one-slot notification that expires after 3000 ms.

  The class `Sync` holds this state. Its methods are the hook's events:
  - a toggle, split into `BeginToggle` (the synchronous part, up to the `await`) and `Settle` (one of three outcomes of the race between the write and the timer). `Toggle` runs the two back to back.
  - a subscription push, a subscription error, a user change, and the expiry of a notification timer.

  Module `FavoritesScenarios` replays two event orders the hook admits. In the first, a successful write is lost to another toggle's rollback. In the second, a rollback overwrites a list the remote has already pushed.
- **Catalog filter and page slice** (`vocabulary.dfy`, module `VocabularyView`). `useVocabulary` is pure and is modelled as functions:
  - the favorites-view filter;
  - the case-insensitive search, which takes precedence over the first-letter filter;
  - `Math.ceil` for the page count;
  - JavaScript's `Array.prototype.slice` for the current page.
- **Pagination bar** (`pagination.dfy`, module `Pagination`). `getPageNumbers` is a loop, modelled as the method `GetPageNumbers` and proved equal to the window function `PageWindow`. The show/hide rules for the "1" and last-page buttons, the ellipses, and the Prev/Next targets and disabled states are predicates. `Render` assembles them into a bar.
- **Home page state** (`home.dfy`, module `HomePage`). The class `Home` holds the page's state: search text, selected letter, current page, page size, view and the four display flags. Its methods are the page's handlers and the header's view switch.

`common.dfy` holds three shared modules:
- `Optional`: an option type.
- `Sequences`: subsequence, no-duplicates and a filter that keeps order and multiplicities.
- `Text`: ASCII case mapping, `startsWith`, and `includes` together with its characterisation by occurrence positions.

Three inputs are parameters of the model rather than effects:
- Firestore writes and pushes: a write's result is a `WriteOutcome`, and a push is a `DocSnapshot`.
- The authentication state: a `user` field.
- Timers: armed timer ids, with expiry as an event.

## Model

| member | source | states |
|---|---|---|
| Sequences.Filter | app/hooks/useVocabulary.ts:27-41 | `Array.prototype.filter`: the result is a subsequence of the input, and each element keeps its multiplicity exactly when the predicate holds (otherwise 0) |
| Text.IncludesIffOccurs | app/hooks/useVocabulary.ts:34-35 | `String.prototype.includes` holds exactly when the needle occurs at some position of the text |
| FavoritesSync.MessageText | app/hooks/useFavorites.ts:38-79 | definition: the exact texts of the login, save-failure and sync-error messages |
| FavoritesSync.MessagesDistinguishable | app/hooks/useFavorites.ts:38-79 | the three message texts are pairwise different, so the toast tells the three situations apart |
| FavoritesSync.PushedFavorites | app/hooks/useFavorites.ts:28-34 | definition: the list a push carries; the document's array, or the empty list when the document is missing or its field is not an array (used by `Sync.OnPush`) |
| FavoritesSync.Without | app/hooks/useFavorites.ts:57 | removes every occurrence of the id and keeps the other ids in order with their multiplicities |
| FavoritesSync.Toggled | app/hooks/useFavorites.ts:55-58 | the id is in the result iff it was not in the list; other ids keep their counts; a present id is removed and the rest keep their order; an absent id is appended at the end behind the unchanged list |
| FavoritesSync.ToggledKeepsNoDuplicates | app/hooks/useFavorites.ts:55-58 | a toggle of a duplicate-free list gives a duplicate-free list |
| FavoritesSync.ToggledAsSet | app/hooks/useFavorites.ts:55-58 | as a set of ids, a toggle is the symmetric difference with the id |
| FavoritesSync.WithoutAbsent | app/hooks/useFavorites.ts:57 | removing an absent id leaves the list unchanged |
| FavoritesSync.WithoutAppended | app/hooks/useFavorites.ts:56-58 | removing an id just appended to a list that lacked it gives back that list |
| FavoritesSync.ToggleTwice | app/hooks/useFavorites.ts:55-58 | toggling an absent id twice restores the list exactly; toggling a present id twice moves it to the end |
| FavoritesSync.Sync.constructor | app/hooks/useFavorites.ts:6-9 | initial state: empty list, not saving, no notification |
| FavoritesSync.Sync.Notify | app/hooks/useFavorites.ts:12-17 | a new notification replaces the current one and arms a fresh timer in place of the old one |
| FavoritesSync.Sync.ExpireNotification | app/hooks/useFavorites.ts:12-17 | only the armed timer clears the notification; a replaced timer changes nothing |
| FavoritesSync.Sync.BeginToggle | app/hooks/useFavorites.ts:46-62 | without a user: the login info notification and nothing else changes; with a user: the optimistic toggled list, saving on, and a pending write that captures the list as it was |
| FavoritesSync.Sync.Settle | app/hooks/useFavorites.ts:64-87 | only a non-timeout failure restores the captured list and posts the save error; success and timeout keep the list and the notification; every outcome ends with saving off |
| FavoritesSync.Sync.Toggle | app/hooks/useFavorites.ts:46-88 | an uninterrupted toggle: login notice without a user; otherwise the toggled list, or the old list plus the save error on failure, and saving off |
| FavoritesSync.Sync.OnPush | app/hooks/useFavorites.ts:27-34 | a push overwrites the list with the document's array, or with the empty list when the document is missing or its field is not an array |
| FavoritesSync.Sync.OnSyncError | app/hooks/useFavorites.ts:35-41 | a channel error posts "Error syncing data" and leaves the list alone |
| FavoritesSync.Sync.OnUserChange | app/hooks/useFavorites.ts:20-24 | signing out empties the list at once; another user keeps the list until a push arrives |
| FavoritesScenarios.OverlappingTogglesLoseUpdate | app/hooks/useFavorites.ts:55-87 | two overlapping toggles where the first write fails and the second succeeds: the rollback erases the second id although its write succeeds, and the saving indicator is already off while that write is in flight |
| FavoritesScenarios.RollbackAfterPushRevertsRemote | app/hooks/useFavorites.ts:55-83 | a failed removal whose result a push has already confirmed is rolled back to the list the remote no longer holds |
| Text.Lower | app/hooks/useVocabulary.ts:31-35 | definition: `toLowerCase`, character by character, on ASCII letters |
| Text.Upper | app/hooks/useVocabulary.ts:39 | definition: `toUpperCase`, character by character, on ASCII letters |
| Text.StartsWith | app/hooks/useVocabulary.ts:39 | definition: `startsWith`; the text is at least as long as the prefix and begins with it |
| VocabularyView.MatchesSearch | app/hooks/useVocabulary.ts:31-35 | definition: the lowercased word or translation includes the lowercased search (characterised by `SearchOverridesLetter`) |
| VocabularyView.MatchesLetter | app/hooks/useVocabulary.ts:38-40 | definition: the uppercased word starts with the letter (characterised by `LetterSelects`) |
| VocabularyView.Selected | app/hooks/useVocabulary.ts:26-41 | definition: the filter chain as one test on a single item; the favorites test in the favorites view, then the search test if there is a search, else the letter test if a letter is selected (the filter's contract is stated against it in `FilteredVocab`) |
| VocabularyView.Slice | app/hooks/useVocabulary.ts:47-50 | definition: `Array.prototype.slice` with both indices resolved by `SliceIndex`, empty when the start is not before the end |
| VocabularyView.PageSlice | app/hooks/useVocabulary.ts:47-50 | definition: the slice for a page; its shape is proved in `PageSliceIsRun` and `PageWithinList` |
| VocabularyView.FilteredVocab | app/hooks/useVocabulary.ts:23-43 | the filtered list is a subsequence of the catalog, and keeps exactly the items the single-item selection test accepts, with their multiplicities |
| VocabularyView.FavoritesViewListsFavorites | app/hooks/useVocabulary.ts:26-28 | in the favorites view every listed item is a catalog item whose id is a favorite |
| VocabularyView.UnfilteredListsEverything | app/hooks/useVocabulary.ts:24-28 | the vocabulary view with no search and no letter lists the whole catalog |
| VocabularyView.SearchOverridesLetter | app/hooks/useVocabulary.ts:30-36 | with a search, the letter is ignored, and an item of the view is kept iff its lowercased word or translation contains the lowercased search at some position |
| VocabularyView.LetterSelects | app/hooks/useVocabulary.ts:37-41 | without a search, an item of the view is kept iff its uppercased word starts with the letter |
| VocabularyView.TotalPages | app/hooks/useVocabulary.ts:46 | `Math.ceil(n / itemsPerPage)`: the least page count whose pages hold all n items |
| VocabularyView.SliceIndex | app/hooks/useVocabulary.ts:47-50 | a `slice` index resolved against the length always lies in [0, length] |
| VocabularyView.PageSliceIsRun | app/hooks/useVocabulary.ts:47-50 | page p is the run from (p-1)*itemsPerPage to p*itemsPerPage clamped to the list, and holds at most itemsPerPage items |
| VocabularyView.PageWithinList | app/hooks/useVocabulary.ts:47-50 | a page is a subsequence of the filtered list of at most itemsPerPage items |
| VocabularyView.SliceIsSubsequence | app/hooks/useVocabulary.ts:47-50 | a contiguous run of a list is a subsequence of it |
| VocabularyView.PagesArePrefix | app/hooks/useVocabulary.ts:46-50 | pages 1 to k put together are the list's first k*itemsPerPage items |
| VocabularyView.PagesReassemble | app/hooks/useVocabulary.ts:46-50 | pages 1 to totalPages put together are exactly the filtered list |
| VocabularyView.PageBeyondLastIsEmpty | app/hooks/useVocabulary.ts:46-50 | a page after the last one is empty |
| VocabularyView.UseVocabulary | app/hooks/useVocabulary.ts:14-57 | the hook's result: the filtered list is a subsequence of the catalog, the pages hold it, and the current page is a subsequence of it of at most itemsPerPage items |
| Pagination.Range | app/components/Pagination.tsx:19-21 | the consecutive integers from lo to hi |
| Pagination.PageWindow | app/components/Pagination.tsx:14-23 | definition: the pages from max(1, cur-2) to min(total, cur+2); proved equal to the loop in `GetPageNumbers` and shaped in `WindowShape` |
| Pagination.ShowFirstButton | app/components/Pagination.tsx:38 | definition: the "1" button's condition cur-2 > 1 (related to the window by `FirstButtonComplementsWindow`) |
| Pagination.ShowLeadingEllipsis | app/components/Pagination.tsx:46 | definition: the leading ellipsis's condition cur-2 > 2 |
| Pagination.ShowLastButton | app/components/Pagination.tsx:68 | definition: the last-page button's condition cur+2 < total (related to the window by `LastButtonComplementsWindow`) |
| Pagination.ShowTrailingEllipsis | app/components/Pagination.tsx:70 | definition: the trailing ellipsis's condition cur+2 < total-1 |
| Pagination.Render | app/components/Pagination.tsx:12-88 | definition: nothing for at most one page; otherwise Prev, the optional "1" and ellipsis, the window buttons, the optional ellipsis and last page, and Next (proved about in `RenderedIffSeveralPages`, `RenderedBarIsOrdered`, `FarPastLastPage` and `StepButtonsOfBar`) |
| Pagination.GetPageNumbers | app/components/Pagination.tsx:14-23 | the loop returns the window from max(1, cur-2) to min(total, cur+2) |
| Pagination.WindowShape | app/components/Pagination.tsx:16-19 | the window has at most 5 pages, all in [1, total], strictly ascending, and holds the current page when it is a real page |
| Pagination.FirstButtonComplementsWindow | app/components/Pagination.tsx:38-49 | on any page from 1 on, including pages past the last, the "1" button shows iff the window lacks page 1; the ellipsis after it shows iff a page lies between 1 and the window |
| Pagination.LastButtonComplementsWindow | app/components/Pagination.tsx:68-80 | on any page from 1 to two past the last, the last-page button shows iff the window lacks the last page; the ellipsis before it shows iff a page lies between the window and the last page |
| Pagination.WindowButtons | app/components/Pagination.tsx:53-65 | one button per window page, marked current exactly on the current page |
| Pagination.OneCurrentButton | app/components/Pagination.tsx:53-65 | at most one window button is highlighted; on a real page it is the current page's button, and past the last page none is |
| Pagination.LabelsOfWindow | app/components/Pagination.tsx:53-65 | the window's buttons show exactly the window's pages, in order |
| Pagination.RenderedIffSeveralPages | app/components/Pagination.tsx:12 | the bar is drawn iff there are at least two pages |
| Pagination.HeadLabelsOfItems | app/components/Pagination.tsx:38-49 | the leading part shows page 1 exactly when the "1" button does |
| Pagination.TailLabelsOfItems | app/components/Pagination.tsx:68-80 | the trailing part shows the last page exactly when the last-page button does |
| Pagination.BarLabels | app/components/Pagination.tsx:27-88 | the bar's pages are the optional 1, the window and the optional last page |
| Pagination.RenderedBarIsOrdered | app/components/Pagination.tsx:38-80 | on any page from 1 to two past the last, the bar's page buttons start at page 1, end at the last page and are strictly ascending, so no page appears twice |
| Pagination.FarPastLastPage | app/components/Pagination.tsx:14-80 | more than two pages past the last, the window is empty, no last-page button shows, and the bar's only page button is "1" |
| Pagination.StepButtonsOfBar | app/components/Pagination.tsx:29-31 | for every current page: Prev is disabled iff on page 1 and asks for cur-1; Next is disabled iff on the last page and asks for cur+1, so past the last page Next stays enabled and asks for a page beyond it |
| HomePage.IsFavorite | app/page.tsx:193 | definition: a card is marked favorite iff its id is in the favorites (proved about in `ToggleFlipsOnlyItsCard`) |
| HomePage.SelectValue | app/page.tsx:171 | definition: the select shows "all" iff the page size equals the catalog length, otherwise the size (proved about in `SelectShowsChoice`) |
| HomePage.NextLetter | app/page.tsx:62-69 | clicking the selected letter clears the selection; clicking any other letter selects it |
| HomePage.SelectShowsChoice | app/page.tsx:171 | after a page-size choice the select shows that choice, and shows "all" for a number equal to the catalog length |
| HomePage.ToggleFlipsOnlyItsCard | app/page.tsx:193 | toggling an id flips that card's favorite mark and no other card's |
| HomePage.FirstPageAfterReset | app/page.tsx:57-79 | after a reset to page 1 the page is the first itemsPerPage items of the filtered list |
| HomePage.Home.constructor | app/page.tsx:22-32 | initial state: empty search, no letter, page 1, 30 per page, the vocabulary view, the stored flags |
| HomePage.Home.HandlePageChange | app/page.tsx:51-55 | sets the requested page and nothing else |
| HomePage.Home.HandleSearchChange | app/page.tsx:57-60 | stores the search text and resets to page 1 |
| HomePage.Home.HandleLetterClick | app/page.tsx:62-69 | sets the letter selection as `NextLetter` and resets to page 1 |
| HomePage.Home.HandleItemsPerPageChange | app/page.tsx:71-79 | "all" sets the page size to the catalog length, a number sets it to that number; resets to page 1; the select then shows the choice, or "all" for a number equal to the catalog length |
| HomePage.Home.HandleClearFilters | app/page.tsx:81-84 | empties the search and the letter and leaves the page alone |
| HomePage.Home.ClearSearch | app/page.tsx:148-151 | empties the search and resets to page 1 |
| HomePage.Home.SelectView | app/components/Header.tsx:28-44 | sets the view and resets to page 1 |
| HomePage.Home.ToggleSpeaker | app/page.tsx:87 | negates the speaker flag only |
| HomePage.Home.ToggleTranslation | app/page.tsx:88 | negates the translation flag only |
| HomePage.Home.ToggleExamples | app/page.tsx:89 | negates the examples flag only |
| HomePage.Home.ToggleAutoScroll | app/page.tsx:90 | negates the auto-scroll flag only |
| HomePage.Home.SelectShown | app/page.tsx:171 | definition: the select's value for the page's current size (stated after a choice by `HandleItemsPerPageChange`) |
| HomePage.Home.Vocabulary | app/page.tsx:37-45 | the hook called with the page's state: the current page holds at most itemsPerPage items and is drawn in order from the filtered list, which is drawn in order from the catalog |

## Left out

- Firestore (`doc`, `setDoc`, `arrayUnion`/`arrayRemove` merge semantics, `onSnapshot`) is a foreign service. A write's result is an input `WriteOutcome`, and a push is an input `DocSnapshot`. The remote document itself is not modelled.
- Timers are not real time. The 3000 ms race is folded into `WriteOutcome.TimedOut`. Only the outcome is kept of the test on the error message "Timeout". Notification expiry is the event `ExpireNotification` on a timer id.
- Asynchronous interleaving and React's re-render scheduling are not modelled. Overlapping toggles are explicit `BeginToggle`/`Settle` events. No scheduler is modelled.
- The ghost field `Sync.inFlight` only records which writes were begun and not yet settled. The remote effect of a settled write is not tracked.
- FavoritesSync.Sync.OnPush and FavoritesSync.Sync.OnSyncError require a signed-in user, because the subscription exists only while there is one.
- FavoritesSync.DocSnapshot: a pushed `favorites` array is modelled as integer ids. An array holding other values is not modelled.
- FavoritesSync.Sync.OnUserChange follows the code. The list is emptied only when the user becomes null; another user keeps the old list until the first push. A reset on every identity change is not what the code does.
- `console.error` logging is not modelled.
- Text.Lower and Text.Upper map ASCII letters only. Unicode case mapping in `toLowerCase`/`toUpperCase` is not modelled.
- VocabularyView.TotalPages and VocabularyView.UseVocabulary require itemsPerPage > 0. The page always passes 30, 60, 120 or the catalog length, which is positive. A zero divisor would give `Infinity` or `NaN`, and that case is not modelled.
- HomePage.Home.HandleItemsPerPageChange requires a numeric choice to be positive. The select offers only 30, 60, 120 and "all".
- HomePage.Home.HandlePageChange requires a page of at least 1. Every button of the pagination bar that can be pressed asks for one.
- HomePage.Home.constructor requires a non-empty catalog, because the page is built over a fixed non-empty word list. The word list's contents (`app/data/vocabulary`) are not part of this model.
- HomePage.Home.HandlePageChange: the scroll bookkeeping around the page change (`useScrollPreservation`) is DOM geometry and is not modelled.
- `useLocalStorage` (browser storage and JSON) is not modelled. The four display flags enter as constructor parameters.
- The presentation components (Controls, AuthButton, FilterBar, the rest of Header, VocabularyCard, Footer), Google sign-in and the wall-clock `DateTimeDisplay` are not modelled.
- The WordNet download script is a network job and is not modelled.
- The "Showing N words" text and the empty-result message are presentation and are not modelled.
