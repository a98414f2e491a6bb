# pitchforkify — a Dafny model of its decision rules

pitchforkify is a Next.js app. It scrapes Pitchfork album reviews into a database, links each review to its Spotify album, and lets a signed-in user browse, filter and play the reviews. This project models the sequential rules under the UI and proves properties about them. The database, HTTP and the Spotify SDK and Web API appear only as parameters and results.

The model has one module per source file.

- `ScrapePitchfork` (`pages/api/scrape-pitchfork.ts`) covers the scraper:
  - the catalog query and the retry classification of catalog errors;
  - the fields read from one listing record, with the throttled body re-read;
  - the denylist filter and the gathering of the queue's results;
  - the reverse-order reconciliation into a review store, modelled as a class. Its proved invariants are: no two rows share a key, an existing row only ever gains its Spotify link, and re-running a batch writes nothing.
- `PullFavorites` (`pages/api/pull-favorites.ts`) covers the saved-album pagination loop, the de-duplicated upserts and the bookmark update.
- `GridFilter` (`components/GridFilter.tsx`) covers the filter reducers, `hasActiveFilters`, and the URL sync and URL parse.
- `GridFilterQuery` (`utils/gridFilterQuery.ts`) covers the API-side parse and the `where` clause builder.
- `ReviewGrid` (`components/ReviewGrid.tsx`) covers the request parameters of the infinite feed, `getNextPageParam`, the feed position of a tile and the "has been played" latch.
- `QueryRoundTrip` relates the feed's request to the API parse and to the `where` clause.
- `FormatTime` (`utils/formatTime.ts`) is the clock formatter, with a reader that proves the formatted clock reads back as the time.
- `PlayerControls` (`components/PlayerControls.tsx`) covers:
  - album navigation and the autoplay guard;
  - the track list's favourite flip and click action;
  - the mute button and the polled position.
- `Search` (`pages/api/search.ts`) is the filter-then-rank artist and label search.
- `Header` (`components/Header.tsx`) is the scroll listener that hides and shows the header.

Shared modules:
- `Wrappers` holds `Option`.
- `Text` holds JavaScript's `split`, `join`, `trim`, `indexOf`, `replace`, `includes`, `toLowerCase` and `[...new Set(s)]`.
- `JsNumber` holds JavaScript numbers that cross strings, as whole tenths or NaN, with `Number(s)` and `String(n)`.
- `UrlParams` holds `URLSearchParams` as a map.
- `WebApiError` holds the Spotify Web API error shape.

## Model

| member | source | states |
|---|---|---|
| ScrapePitchfork.CatalogQuery | pages/api/scrape-pitchfork.ts:43 | the search text is the artist, a space and the album title with its first "EP" cut out; a title without "EP" is kept whole |
| ScrapePitchfork.SearchRecovery | pages/api/scrape-pitchfork.ts:48-69 | an error is retried exactly when its code is ETIMEDOUT or ECONNRESET or its status is 500 or 429; a 429 waits retry-after seconds times 1000 ms, the others 30000 ms; everything else is rethrown |
| ScrapePitchfork.SearchAlbums | pages/api/scrape-pitchfork.ts:37-71 | the requested waits match a prefix of retryable failures one for one; a found result is the items of the first answer after that prefix; a thrown error is the first non-retryable one; giving up happens only when the answers run out |
| ScrapePitchfork.NonEmpty | pages/api/scrape-pitchfork.ts:110 | `.filter(Boolean)` keeps only non-empty strings, is empty exactly when every piece is empty, and keeps a non-empty first piece first |
| ScrapePitchfork.ReviewHtml | pages/api/scrape-pitchfork.ts:100-111 | the review html is empty exactly when the dek is missing or empty and every body block is empty; a non-empty dek puts the review-blurb div at the start |
| ScrapePitchfork.AwaitReviewBody | pages/api/scrape-pitchfork.ts:113-117 | every wait is 60000 ms and follows a download whose html was empty; the body returned is the first download with non-empty html; a still-throttled result means every download was empty |
| ScrapePitchfork.ThrottledTwiceThenBody | pages/api/scrape-pitchfork.ts:113-117 | two empty downloads and then one with a body block give two 60 s waits and that block as the html |
| ScrapePitchfork.SlashList | pages/api/scrape-pitchfork.ts:120 | one trimmed name per piece of the text between slashes, and at least one |
| ScrapePitchfork.SlashListNames | pages/api/scrape-pitchfork.ts:120 | every name of a slash list is free of slashes and starts and ends with a non-space character |
| ScrapePitchfork.FirstNodeWithText | pages/api/scrape-pitchfork.ts:122-124 | the index returned is the first node whose text is exactly the caption; none is returned only when no node has that text |
| ScrapePitchfork.CaptionedList | pages/api/scrape-pitchfork.ts:122-143 | labels or genres are the slash list of the sibling text after the first node reading exactly the caption, and empty exactly when no node reads it |
| ScrapePitchfork.ParseReview | pages/api/scrape-pitchfork.ts:87-158 | a parsed review takes its html from the first non-throttled download, its labels and genres from the captions, its artists from the sub-heading (or none), its link from the first search result, its score with 0 for a falsy score, its author trimmed or ""; the search query uses the first artist or "undefined"; the waits are the throttle waits then the search waits |
| ScrapePitchfork.ParseReviewFailure | pages/api/scrape-pitchfork.ts:87-158 | a parse fails exactly when the page had a body and then the search rethrew, or the author object had no items; it is unfinished exactly when the downloads or the search answers ran out |
| ScrapePitchfork.KeepListed | pages/api/scrape-pitchfork.ts:175-183 | an item is kept exactly when it is in the listing and its url is not one of the two denylisted urls |
| ScrapePitchfork.KeepListedAppend | pages/api/scrape-pitchfork.ts:175-183 | the filter works item by item, so the kept items keep their listing order |
| ScrapePitchfork.KeepListedSplitsListing | pages/api/scrape-pitchfork.ts:175-183 | the kept items and the removed items together are the listing, and every removed item is denylisted |
| ScrapePitchfork.CollectedIsPermutation | pages/api/scrape-pitchfork.ts:184-194 | whatever order the queue tasks finish in, the collected reviews are a permutation of the parsed reviews in listing order |
| ScrapePitchfork.GatherPermutation | pages/api/scrape-pitchfork.ts:187-194 | pushing in two orders of the same task positions gives the same reviews with the same multiplicities |
| ScrapePitchfork.RunTask | pages/api/scrape-pitchfork.ts:188-191 | one queue task pushes its parsed review, or nothing when the parse did not end with a review |
| ScrapePitchfork.CollectReviews | pages/api/scrape-pitchfork.ts:184-194 | the loop over finished tasks builds exactly the collected list for that completion order |
| ScrapePitchfork.Reverse | pages/api/scrape-pitchfork.ts:196 | `reviews.reverse()` puts element `i` at position `n - 1 - i` |
| ScrapePitchfork.FirstWithKey | pages/api/scrape-pitchfork.ts:210-216 | `findFirst` returns the first row whose album title, author and score match, and none only when no row matches |
| ScrapePitchfork.RowWithId | pages/api/scrape-pitchfork.ts:240-247 | the update finds the row carrying the id, and none only when no row carries it |
| ScrapePitchfork.ReconcileOneValid | pages/api/scrape-pitchfork.ts:209-249 | one pass of the loop keeps at most one row per key and ids increasing below the next id |
| ScrapePitchfork.ReconcileAllValid | pages/api/scrape-pitchfork.ts:209-249 | the whole loop never stores a key twice, even a key created earlier in the same batch |
| ScrapePitchfork.ReconcileOneEvolves | pages/api/scrape-pitchfork.ts:218-248 | one pass only appends rows, keeps every existing row's id and fields except a missing link, and only grows the names and the events |
| ScrapePitchfork.ReconcileAllEvolves | pages/api/scrape-pitchfork.ts:209-249 | over a whole batch, a link only changes from none to a real link, and nothing else of an existing row changes |
| ScrapePitchfork.EvolvesTrans | pages/api/scrape-pitchfork.ts:209-249 | these guarantees compose across passes |
| ScrapePitchfork.SettledNoWrite | pages/api/scrape-pitchfork.ts:218-234 | a review whose key is stored, with a link if it has one, causes no write |
| ScrapePitchfork.ReconcileOneSettles | pages/api/scrape-pitchfork.ts:218-248 | a pass whose create succeeds leaves its review stored with its link |
| ScrapePitchfork.SettledStable | pages/api/scrape-pitchfork.ts:209-249 | a stored review stays stored through later passes |
| ScrapePitchfork.ReconcileAllSettles | pages/api/scrape-pitchfork.ts:209-249 | without a failing create, every review of the batch ends up stored with its link |
| ScrapePitchfork.SettledBatchNoWrite | pages/api/scrape-pitchfork.ts:209-249 | a batch whose reviews are all stored writes nothing |
| ScrapePitchfork.ReconcileIdempotent | pages/api/scrape-pitchfork.ts:209-249 | running a batch again after it went through without failures writes and reports nothing |
| ScrapePitchfork.BackfillOnlyLink | pages/api/scrape-pitchfork.ts:234-247 | a stored row without a link meeting the same key with a link gets exactly that link, and no other row changes |
| ScrapePitchfork.FirstWithKeyIs | pages/api/scrape-pitchfork.ts:210-216 | the first index holding the key is what the lookup returns |
| ScrapePitchfork.RowWithIdOf | pages/api/scrape-pitchfork.ts:240-247 | with ids strictly increasing, looking a row up by its id finds that row |
| ScrapePitchfork.RowWithIdFirst | pages/api/scrape-pitchfork.ts:240-247 | the lookup by id stops at the first row with that id |
| ScrapePitchfork.ReviewStore.FindFirst | pages/api/scrape-pitchfork.ts:210-216 | returns the row the key lookup designates, and nothing exactly when no row has the key |
| ScrapePitchfork.ReviewStore.Create | pages/api/scrape-pitchfork.ts:218-233 | a successful create appends the row with the next id and connects or creates its names; a failed one only reports the failure |
| ScrapePitchfork.ReviewStore.UpdateLink | pages/api/scrape-pitchfork.ts:240-247 | the update sets the link of the row with that id and nothing else |
| ScrapePitchfork.ReviewStore.Reconcile | pages/api/scrape-pitchfork.ts:196-249 | the loop over the reversed collected list leaves the store in the state of the pass-by-pass reconciliation, and keeps it valid |
| ScrapePitchfork.ReviewStore.ScrapeReviews | pages/api/scrape-pitchfork.ts:160-249 | when every queue task ends within its remote answers, the store ends as the reconciliation of the reversed reviews collected from the kept items in completion order; when some parse is still retrying as its answers run out, `onIdle` is not passed and the store is unchanged |
| PullFavorites.FavoritesRecovery | pages/api/pull-favorites.ts:54-71 | a failed request is retried exactly when its code is ECONNRESET or its status is 500 or 429; a 429 waits retry-after seconds times 1000 ms, the others 30000 ms; everything else is rethrown |
| PullFavorites.RecoveryDiffersOnTimeoutOnly | pages/api/pull-favorites.ts:55-58 | this policy differs from the scraper's search policy exactly on a bare ETIMEDOUT, which only the scraper retries |
| PullFavorites.FindIndex | pages/api/pull-favorites.ts:39-42 | `findIndex` gives the first position holding the bookmarked uri, or -1 when no position holds it |
| PullFavorites.Cut | pages/api/pull-favorites.ts:39-46 | the new albums end at the first occurrence of the bookmark in the library, or at its end |
| PullFavorites.FindIndexInWindow | pages/api/pull-favorites.ts:34-42 | within a page that starts at or before the bookmark, the bookmark is found exactly when it lies inside the page, at its offset from the page start |
| PullFavorites.PageItems | pages/api/pull-favorites.ts:32-46 | a request contributes at most 50 albums, all from the library |
| PullFavorites.PageWindow | pages/api/pull-favorites.ts:32-51 | the contributed albums are the library from the offset on, never past the bookmark, non-empty while the offset is before it, and they reach the bookmark when the page is short or held it |
| PullFavorites.PageStepEnds | pages/api/pull-favorites.ts:48-53 | a request that ends the loop has collected, each counted once, exactly the albums newer than the bookmark |
| PullFavorites.PageStepContinues | pages/api/pull-favorites.ts:48-53 | a request that does not end the loop keeps the loop invariant at the last album appended, which lies inside the library |
| PullFavorites.TakePage | pages/api/pull-favorites.ts:32-53 | after a successful request the albums grow by the cut page, the offset moves to the last album appended, and the loop ends exactly on a short page or one that held the bookmark; the offset strictly grows when it goes on |
| PullFavorites.GetNewSavedAlbums | pages/api/pull-favorites.ts:26-76 | the run makes one or more requests and ends at the last: with a page that ends the loop, or with a fault that is not retried, which is then the error thrown; no earlier request met such a fault; the waits are exactly one per retried failure, in request order (a 429 waits `retry-after` seconds, the rest 30 s); for a library without repeats the collected albums, with the one-album overlaps removed, are the library up to the bookmark; without failures nothing waits |
| PullFavorites.BookmarkCollectsNewOnly | pages/api/pull-favorites.ts:39-46 | when albums were saved on top of a library whose newest album is the bookmark, the pull collects exactly those new albums |
| PullFavorites.FavoritesStore.Upsert | pages/api/pull-favorites.ts:84-93 | an upsert with an empty update adds the (user, uri) row if missing and changes nothing else |
| PullFavorites.FavoritesStore.UpsertAll | pages/api/pull-favorites.ts:81-99 | one upsert per distinct uri, in order, and the saved rows grow by exactly those |
| PullFavorites.FavoritesStore.PullFavorites | pages/api/pull-favorites.ts:9-111 | the user row exists afterwards and no other user changes; the bookmark moves to the first collected uri when it is truthy and stays otherwise; each distinct uri is upserted once; a thrown error writes no saved album |
| GridFilter.ActiveIffNotInitial | components/GridFilter.tsx:397-405 | `hasActiveFilters` holds exactly when the filters differ from the state the hook starts from |
| GridFilter.AddGenre | components/GridFilter.tsx:415-423 | the genre goes at the end of the list and nothing else changes |
| GridFilter.Without | components/GridFilter.tsx:429 | the filtered list has no occurrence of the genre, keeps every other genre, and is no longer |
| GridFilter.WithoutAppend | components/GridFilter.tsx:429 | the filter works element by element, so the remaining genres keep their order |
| GridFilter.WithoutAbsent | components/GridFilter.tsx:429 | filtering out a genre that is not selected leaves the list as it is |
| GridFilter.RemoveGenre | components/GridFilter.tsx:425-433 | every occurrence of the genre goes, every other genre stays, and nothing else changes |
| GridFilter.RemoveAfterAdd | components/GridFilter.tsx:415-433 | removing a genre just added is removing it from the list as it was |
| GridFilter.AddThenRemoveRestores | components/GridFilter.tsx:415-433 | adding a genre that was not selected and unchecking it again restores the filters |
| GridFilter.SetYears | components/GridFilter.tsx:435-449 | the year range is dropped exactly when the slider spans 1999 to the current year, and otherwise is the slider's pair; nothing else changes |
| GridFilter.SetScores | components/GridFilter.tsx:451-465 | the score range is dropped exactly when the slider spans 0 to 10, and otherwise is the slider's pair; nothing else changes |
| GridFilter.AddSearchFilter | components/GridFilter.tsx:467-475 | the picked result goes at the end of the search list and nothing else changes |
| GridFilter.SearchWithout | components/GridFilter.tsx:501-503 | an entry remains exactly when it was there and does not have the pill's type and id |
| GridFilter.RemoveSearchPill | components/GridFilter.tsx:494-505 | a search pill's close button drops exactly the entries with its type and id, and nothing else changes |
| GridFilter.AddThenRemoveSearch | components/GridFilter.tsx:467-505 | adding a result and closing its pill drops every entry with that type and id, the new one included |
| GridFilter.SearchWithoutAppend | components/GridFilter.tsx:501-503 | the search filter works entry by entry, so the remaining entries keep their order |
| GridFilter.ClosingPillsDeactivates | components/GridFilter.tsx:521-554 | with no genre or search entry, closing the best-new, year and score pills leaves the initial, inactive state |
| GridFilter.ToggleTwice | components/GridFilter.tsx:578-586 | toggling the best-new switch twice changes nothing |
| GridFilter.Thumbs | components/GridFilter.tsx:52-53 | a falsy thumb value (0 or NaN) shows the slider's bound; a truthy one shows itself |
| GridFilter.ThumbsOfAbsentRange | components/GridFilter.tsx:597-615 | without a range both thumbs sit on the bounds; a score starting at 0 shows its start on the lower bound |
| GridFilter.SyncedQuery | components/GridFilter.tsx:340-392 | after the sync the keys it does not manage are as they were, and each managed key holds its filter value when truthy and is absent otherwise |
| GridFilter.SetParam | components/GridFilter.tsx:345 | `query.set` gives the key its value and leaves every other key alone |
| GridFilter.DeleteParam | components/GridFilter.tsx:347 | `query.delete` removes the key and leaves every other key alone |
| GridFilter.SyncStep | components/GridFilter.tsx:344-378 | one more block keeps the unmanaged keys and adds its own key's synced value to those already synced |
| GridFilter.SyncDone | components/GridFilter.tsx:340-392 | once every managed key is synced, the query is the synced query |
| GridFilter.SyncBestNew | components/GridFilter.tsx:344-348 | `isBestNew` is "1" when the flag is set and absent otherwise; no other key changes |
| GridFilter.SyncGenre | components/GridFilter.tsx:350-354 | `genre` is the comma-joined genres when there are any and absent otherwise; no other key changes |
| GridFilter.SyncYearStart | components/GridFilter.tsx:356-360 | `yearStart` is the first year when truthy and absent otherwise; no other key changes |
| GridFilter.SyncYearEnd | components/GridFilter.tsx:362-366 | `yearEnd` is the last year when truthy and absent otherwise; no other key changes |
| GridFilter.SyncScoreStart | components/GridFilter.tsx:368-372 | `scoreStart` is the lowest score when truthy and absent otherwise; no other key changes |
| GridFilter.SyncScoreEnd | components/GridFilter.tsx:374-378 | `scoreEnd` is the highest score when truthy and absent otherwise; no other key changes |
| GridFilter.SyncUrl | components/GridFilter.tsx:340-392 | the effect leaves the URL as the synced query and navigates exactly when the query string changed |
| GridFilter.SyncIdempotent | components/GridFilter.tsx:340-392 | syncing the synced URL again changes nothing, so the second run does not navigate |
| GridFilter.GenreRoundTrip | components/GridFilter.tsx:314-351 | genres that are non-empty and free of commas come back from their comma-joined value |
| GridFilter.RangeRoundTrip | components/GridFilter.tsx:315-378 | a range written to the URL reads back as itself when its end is truthy and its start is truthy or equals the start default |
| GridFilter.SyncThenParse | components/GridFilter.tsx:307-392 | as written, reloading the synced URL gives the filters back whenever the score range does not start at 0 |
| GridFilter.ScoreFromZeroReloadsFrom1999 | components/GridFilter.tsx:326-372 | as written, a score range from 0 to 8 reloads from the URL as 1999 to 8 |
| GridFilter.SyncThenParseFixed | components/GridFilter.tsx:307-392 | with the score bounds as defaults, reloading the synced URL gives back every filter state the URL can carry |
| GridFilterQuery.NumberParam | utils/gridFilterQuery.ts:30-31 | `Number(query[key])` of a missing key is NaN |
| GridFilterQuery.Numbers | utils/gridFilterQuery.ts:17-26 | an id list has one number per comma-separated piece, each piece read by `Number` |
| GridFilterQuery.ParseGridFilterQuery | utils/gridFilterQuery.ts:10-41 | the best-new flag is true or absent, never false; a genre, artist or label list that is present has at least one entry |
| GridFilterQuery.YearAfter | utils/gridFilterQuery.ts:71 | the year window's end is the end year plus one, and NaN stays NaN |
| GridFilterQuery.Built | utils/gridFilterQuery.ts:43-112 | after some of the `if`s the object is undefined exactly when none of them applied, and otherwise holds exactly their clauses |
| GridFilterQuery.GridFilterWhere | utils/gridFilterQuery.ts:43-112 | the where object is undefined exactly when no filter applies, and otherwise holds one clause per filter whose test passes |
| GridFilterQuery.Spread | utils/gridFilterQuery.ts:47-48 | `{ ...where, key: clause }` sets the key and keeps every other key of the object, starting from an empty one when it is undefined |
| GridFilterQuery.BuildStep | utils/gridFilterQuery.ts:46-110 | one more `if` leaves the object alone when its test fails and spreads its clause over it when it passes |
| GridFilterQuery.WhereGenre | utils/gridFilterQuery.ts:46-57 | the genre `if` brings the object to the state with genres handled |
| GridFilterQuery.WhereBestNew | utils/gridFilterQuery.ts:59-64 | the best-new `if` brings the object to the state with the flag handled |
| GridFilterQuery.WherePublishDate | utils/gridFilterQuery.ts:66-74 | the year-range `if` brings the object to the state with the publish date handled |
| GridFilterQuery.WhereScore | utils/gridFilterQuery.ts:76-84 | the score `if` brings the object to the state with the score handled |
| GridFilterQuery.WhereArtists | utils/gridFilterQuery.ts:86-97 | the artists `if` brings the object to the state with the artist ids handled |
| GridFilterQuery.WhereLabels | utils/gridFilterQuery.ts:99-110 | the labels `if` brings the object to the state with the label ids handled |
| GridFilterQuery.BuildGridFilterWhere | utils/gridFilterQuery.ts:43-113 | the six `if`s in turn return exactly the where object described by the filters |
| GridFilterQuery.WhereKeysFollowQuery | utils/gridFilterQuery.ts:10-113 | each where key is present exactly when its query parameter is truthy (the flag: exactly "1"), and the where object is undefined exactly when none of them is |
| GridFilterQuery.ScoreWindowInclusive | utils/gridFilterQuery.ts:79-82 | the score clause includes both of its bounds |
| GridFilterQuery.YearWindow | utils/gridFilterQuery.ts:69-72 | for four-digit years the window is every moment of the years from start to end, minus the first instant of the start year, plus the first instant of the year after the end |
| GridFilterQuery.ScoreParamSelects | utils/gridFilterQuery.ts:34-39 | a score window read from the query, a start of 0 included, selects exactly the rows scored within its two bounds |
| ReviewGrid.IdsOf | components/ReviewGrid.tsx:448-453 | the id list of one search type is no longer than the search list |
| ReviewGrid.IdsOfMembers | components/ReviewGrid.tsx:448-453 | an id is listed exactly when some search entry of that type carries it |
| ReviewGrid.IdsOfAppend | components/ReviewGrid.tsx:448-453 | the filter goes entry by entry, so each id list keeps the order of the search list |
| ReviewGrid.IdsPartition | components/ReviewGrid.tsx:448-453 | every search entry goes into exactly one of the artist and label lists |
| ReviewGrid.Shown | components/ReviewGrid.tsx:456 | each id is printed as `String(id)`, one string per id, in order |
| ReviewGrid.NameInjective | components/ReviewGrid.tsx:423-461 | no two of the fetcher's keys share a parameter name |
| ReviewGrid.SentStep | components/ReviewGrid.tsx:423-461 | giving one more key its turn applies that key's `set` to the query built so far |
| ReviewGrid.SentValues | components/ReviewGrid.tsx:423-461 | after a run of keys, each key that had its turn reads back its own value (or is absent when its test fails), and every other key is absent |
| ReviewGrid.SentNames | components/ReviewGrid.tsx:423-461 | only names of keys that had their turn are set |
| ReviewGrid.InRequestOrder | components/ReviewGrid.tsx:423-461 | the fetcher visits every key |
| ReviewGrid.RequestParamsValues | components/ReviewGrid.tsx:421-462 | in the request's query string every key reads back the value it should have, and no other name is set |
| ReviewGrid.SetPagination | components/ReviewGrid.tsx:423-427 | sends the cursor when it is truthy, otherwise the page number when it is truthy |
| ReviewGrid.SetGenre | components/ReviewGrid.tsx:429-431 | sends the comma-joined genres when there are any |
| ReviewGrid.SetBestNew | components/ReviewGrid.tsx:433-435 | sends `isBestNew=1` when the flag is on |
| ReviewGrid.SetYearRange | components/ReviewGrid.tsx:437-440 | sends both ends of the year range when there is one |
| ReviewGrid.SetScore | components/ReviewGrid.tsx:442-445 | sends both ends of the score range when there is one |
| ReviewGrid.SetSearch | components/ReviewGrid.tsx:447-462 | sends the artist ids and the label ids of the search pills, each list only when non-empty |
| ReviewGrid.BuildRequestParams | components/ReviewGrid.tsx:416-463 | the query string the fetcher builds is the one in which every key has had its turn |
| ReviewGrid.NextPageParam | components/ReviewGrid.tsx:494-503 | no next page after an empty page; otherwise the next page number (1 when there was no page parameter) and the last review's id as the cursor |
| ReviewGrid.LaterPagesUseCursor | components/ReviewGrid.tsx:423-427 | every later page is requested by the last id as cursor and never by page number, unless that id is 0 |
| ReviewGrid.FlattenLength | components/ReviewGrid.tsx:529 | a feed of full pages holds page count times page size reviews |
| ReviewGrid.FeedIndex | components/ReviewGrid.tsx:548 | the announced position is at least 1 |
| ReviewGrid.FeedIndexIsPosition | components/ReviewGrid.tsx:544-551 | when every earlier page is full, the announced position of a review is its 1-based position in the flattened feed |
| ReviewGrid.FeedIndexInjective | components/ReviewGrid.tsx:548 | two tiles on full pages never announce the same position |
| ReviewGrid.ReviewTile.constructor | components/ReviewGrid.tsx:71-73 | the tile starts marked exactly when its album link is truthy and in the played list |
| ReviewGrid.ReviewTile.OnPlayed | components/ReviewGrid.tsx:83-87 | the mark is set when the album appears in the played list and is otherwise kept |
| ReviewGrid.ReviewTile.OnPlayer | components/ReviewGrid.tsx:89-93 | the mark is set when the tile has a link and it is the player's album, and is otherwise kept; a tile without a link is never marked by the player |
| ReviewGrid.LatchHolds | components/ReviewGrid.tsx:71-93 | once set, the mark survives any later run of events |
| QueryRoundTrip.Wholes | utils/gridFilterQuery.ts:17-21 | each id becomes the number the server reads back, one per id, in order |
| QueryRoundTrip.StrNoComma | components/ReviewGrid.tsx:456 | `String(n)` of a number never holds a comma, so a comma join of ids splits back cleanly |
| QueryRoundTrip.IdListRoundTrip | utils/gridFilterQuery.ts:17-21 | a non-empty id list is sent as a non-empty string that splits on commas and parses back to the ids |
| QueryRoundTrip.Carried | components/ReviewGrid.tsx:421-462 | the request carries under each key's name the value that key should have |
| QueryRoundTrip.RangeReceived | utils/gridFilterQuery.ts:28-39 | a range sent by the grid is read back unchanged, and an absent one stays absent |
| QueryRoundTrip.GenreReceived | utils/gridFilterQuery.ts:14-16 | the genre list is read back when non-empty, provided no genre name holds a comma |
| QueryRoundTrip.IdListReceived | utils/gridFilterQuery.ts:17-26 | an id list sent under a key when non-empty is read back as the ids' numbers, and not at all otherwise |
| QueryRoundTrip.IdsReceived | utils/gridFilterQuery.ts:17-26 | the artist ids and the label ids of the search pills are each read back when non-empty |
| QueryRoundTrip.RangesReceived | utils/gridFilterQuery.ts:28-39 | the year range and the score range are read back exactly |
| QueryRoundTrip.RequestThenParse | utils/gridFilterQuery.ts:10-41 | whatever the page parameter, the API reads back from the grid's request the filters it was built from (genres, `isBestNew` only when on, ranges, non-empty id lists), genre names holding no comma |
| QueryRoundTrip.NoFiltersParseEmpty | utils/gridFilterQuery.ts:10-41 | without filters the API reads no filter at all from the request |
| QueryRoundTrip.WhereIffActive | components/GridFilter.tsx:397-405 | the server builds no `where` clause for the grid's request exactly when `hasActiveFilters` is false in the browser |
| FormatTime.Trunc | utils/formatTime.ts:2 | `Math.trunc` rounds toward zero: the result is the whole part of the input on either side of zero |
| FormatTime.Rem60 | utils/formatTime.ts:6 | JavaScript's `% 60` keeps the sign of the dividend and stays below 60 in size |
| FormatTime.Minutes | utils/formatTime.ts:1-3 | the minute field lies in 0..59 for a non-negative time (and in -59..0 for a negative one) |
| FormatTime.Seconds | utils/formatTime.ts:5-7 | the second field lies in 0..59 for a non-negative time (and in -59..0 for a negative one) |
| FormatTime.ClockDecomposes | utils/formatTime.ts:1-11 | for a non-negative time, hours times 3600 plus minutes times 60 plus seconds is its whole number of seconds |
| FormatTime.PadStart | utils/formatTime.ts:14 | `padStart` puts fill characters in front up to the length and never cuts the string |
| FormatTime.PadValue | utils/formatTime.ts:13-15 | a padded non-negative number is all digits, at least the length asked for, and reads back as the number |
| FormatTime.PadTwoDigits | utils/formatTime.ts:13-15 | a number below 100 pads to exactly its two digits |
| FormatTime.HoursSign | utils/formatTime.ts:9-11 | for a non-negative time the hour field is never negative, and is zero exactly under an hour |
| FormatTime.FormatFields | utils/formatTime.ts:17-30 | the output is the template filled with the padded fields, with the hour field only from one hour on |
| FormatTime.ShortForm | utils/formatTime.ts:27-28 | under an hour the output is exactly `MM:SS`, five characters |
| FormatTime.LongForm | utils/formatTime.ts:27-29 | from an hour on the output is `HH:MM:SS`, the hour field at least two digits and reading back as the hours |
| FormatTime.FormatReadsBack | utils/formatTime.ts:17-30 | read back as a clock, the output of a non-negative time is its whole number of seconds |
| PlayerControls.FindIndex | components/PlayerControls.tsx:38 | the index of the first review linked to the album, or -1 exactly when no review is; a review without a link never matches |
| PlayerControls.AlbumFromOffsetFound | components/PlayerControls.tsx:33-40 | the album `offset` places from the first review of the current album, when that index is inside the feed, and nothing otherwise |
| PlayerControls.AlbumFromOffsetMissing | components/PlayerControls.tsx:33-40 | an album missing from the feed counts as index -1: the next album is the feed's first, and there is no previous one |
| PlayerControls.NextThenPrevious | components/PlayerControls.tsx:33-40 | in a feed that reviews each linked album once, one album forward and one back returns to the album |
| PlayerControls.SkipWithinAlbum | components/PlayerControls.tsx:377-402 | the buttons only skip a track exactly while the track window has tracks left on that side, or when no state was read |
| PlayerControls.SkipAcrossAlbums | components/PlayerControls.tsx:377-402 | at the edge of an album, next plays the following review's album and previous the preceding one; past either end of the feed nothing happens |
| PlayerControls.SkipFromOutsideFeed | components/PlayerControls.tsx:377-402 | playing an album outside the feed, next starts the feed's first album and previous does nothing |
| PlayerControls.Plays | components/PlayerControls.tsx:112-117 | a run starts no more albums than it has updates |
| PlayerControls.StepGuard | components/PlayerControls.tsx:100-143 | an update starts an album exactly when it is an album end with a next album and the guard is down, and that album is the next one of the feed; afterwards the guard is up exactly when the update did not reach the reset and either the guard was up or the update carried a state |
| PlayerControls.GuardHolds | components/PlayerControls.tsx:100-143 | with the guard up, updates that do not reset it start nothing and change nothing |
| PlayerControls.AtMostOncePerReset | components/PlayerControls.tsx:100-143 | between two resets of the guard the next album is started at most once |
| PlayerControls.PlayerStateProvider.constructor | components/PlayerControls.tsx:81-93 | the guard starts down and the player state starts empty |
| PlayerControls.PlayerStateProvider.PlayerStateChanged | components/PlayerControls.tsx:100-143 | the listener moves the provider exactly as one `Step` and hands `playAlbum` the album it starts |
| PlayerControls.ToggleTrackSaved | components/PlayerControls.tsx:290-298 | the track list keeps its length |
| PlayerControls.ToggleOnlyThatTrack | components/PlayerControls.tsx:290-298 | only tracks with the clicked id change, and only in their saved flag, which becomes the opposite of the clicked track's |
| PlayerControls.ToggleTwice | components/PlayerControls.tsx:290-298 | with unique track ids, clicking the same track's favourite button twice restores the list |
| PlayerControls.FavoriteToggled | components/PlayerControls.tsx:417-418 | the shared saved flag flips to the opposite of the library's answer only for the track playing; nothing else changes |
| PlayerControls.Uris | components/PlayerControls.tsx:236 | the uris of the tracks, one per track, in order |
| PlayerControls.TrackClickPlaysFromThere | components/PlayerControls.tsx:231-238 | a click pauses exactly when the clicked track is the one playing; otherwise playback starts at the clicked track and runs through the rest of the list in order |
| PlayerControls.ToggleMuteSwitches | components/PlayerControls.tsx:565-575 | with a non-zero remembered level the button always switches between muted and sounding, and the remembered level stays non-zero |
| PlayerControls.MuteThenUnmute | components/PlayerControls.tsx:565-575 | muting a sounding player and then unmuting gives back its level |
| PlayerControls.Controls.constructor | components/PlayerControls.tsx:314-322 | the position starts at 0, the volume at 100 and the remembered level at 1 |
| PlayerControls.Controls.ClickMute | components/PlayerControls.tsx:565-575 | the volume and the remembered level move as the mute button says, the level handed to the player is the new volume, and the remembered level stays non-zero |
| PlayerControls.Controls.VolumeSet | components/PlayerControls.tsx:583-585 | the slider or the polled volume sets the level and leaves the remembered level alone |
| PlayerControls.Controls.PollPosition | components/PlayerControls.tsx:350-357 | a polled position is taken only when it does not pass the track's duration, so a position within the track stays within it |
| Search.Tagged | pages/api/search.ts:8-9 | each entry keeps its id and name and gets the list's type, one result per entry, in order |
| Search.Filter | pages/api/search.ts:18 | the filter keeps exactly the pool entries whose lower-cased name contains the query, and no more of them |
| Search.Insert | pages/api/search.ts:26 | inserting adds exactly the one element |
| Search.InsertDescending | pages/api/search.ts:26 | inserting into a list ordered by descending similarity keeps it ordered |
| Search.SortDescending | pages/api/search.ts:26 | the sort is a permutation of its input |
| Search.SortDescendingOrders | pages/api/search.ts:26 | the sort orders by descending similarity |
| Search.SearchExact | pages/api/search.ts:16-27 | an entry is returned exactly when it is in the pool and its lower-cased name contains the lower-cased query |
| Search.SearchRanked | pages/api/search.ts:16-27 | the result holds the matches as often as the filter yields them, highest similarity first |
| Search.EmptyQueryMatchesAll | pages/api/search.ts:16-27 | an empty query returns the whole pool, ranked |
| Search.WithKeyInsert | pages/api/search.ts:26 | an inserted element goes before every element of equal similarity |
| Search.SortStable | pages/api/search.ts:26 | the sort is stable: elements of equal similarity keep their order |
| Search.PoolArtistsFirst | pages/api/search.ts:7-10 | no label comes before an artist in the pool |
| Search.FilterArtistsFirst | pages/api/search.ts:18 | filtering keeps the artists before the labels |
| Search.EqualScoresArtistsFirst | pages/api/search.ts:16-27 | among results of equal similarity, artists come before labels |
| Header.ShownIffUpAwayFromTop | components/Header.tsx:47-53 | the header shows exactly on a move up, or no move, away from the top of the page, and is always hidden at the top |
| Header.LastTwoDecide | components/Header.tsx:41-61 | after any run of scroll events only the last two positions matter: the last is remembered and the state compares it with the one before |
| Header.DownwardScrollStaysHidden | components/Header.tsx:41-61 | scrolling steadily down never shows the header |
| Header.HeaderScroll.constructor | components/Header.tsx:35-42 | the header starts hidden with the previous position at 0 |
| Header.HeaderScroll.OnScroll | components/Header.tsx:47-53 | the listener sets the state from the previous and the current position and remembers the current one |
| Text.Split | utils/gridFilterQuery.ts:15 | `split` yields at least one piece and no piece holds the separator |
| Text.JoinSplit | components/GridFilter.tsx:314 | joining the pieces of a split with the same separator gives the string back |
| Text.SplitJoin | components/GridFilter.tsx:351 | splitting a join gives the parts back when no part holds the separator |
| Text.JoinEmptyIff | components/ReviewGrid.tsx:430 | a join of non-empty parts is empty exactly when there are no parts |
| Text.Trim | pages/api/scrape-pitchfork.ts:120 | `trim` leaves the middle of the string, with white space (ECMAScript's white space and line terminators, the Unicode space separators included) only before and after it, and none at either end |
| Text.TrimIdempotent | pages/api/scrape-pitchfork.ts:120 | trimming twice is trimming once |
| Text.IndexOfFrom | pages/api/scrape-pitchfork.ts:43 | the search finds the first occurrence at or after the start, or reports that there is none |
| Text.ReplaceFirst | pages/api/scrape-pitchfork.ts:43 | `replace` with a string pattern changes only the first occurrence, and nothing when there is none |
| Text.ContainsIff | pages/api/search.ts:18 | `includes` holds exactly when the pattern occurs somewhere |
| Text.Lower | pages/api/search.ts:16 | `toLowerCase` maps each character and keeps the length |
| Text.Dedupe | pages/api/pull-favorites.ts:82 | `[...new Set(s)]` holds exactly the elements of `s`, each once |
| Text.DedupeHead | pages/api/pull-favorites.ts:82 | the first element survives de-duplication, first |
| Text.DedupeAppendFresh | pages/api/pull-favorites.ts:82 | distinct elements not seen before are kept, in order |
| Text.DedupeOfDistinct | pages/api/pull-favorites.ts:82 | a list without repetitions is its own de-duplication |
| JsNumber.Add | utils/gridFilterQuery.ts:71 | a sum is a number exactly when both operands are |
| JsNumber.ValueShow | utils/formatTime.ts:14 | reading back the decimal digits of a whole number gives the number |
| JsNumber.ShowLength | utils/formatTime.ts:14 | the digits of a number fit in `k` characters exactly when it is below 10 to the `k` |
| JsNumber.ParseDigits | utils/gridFilterQuery.ts:30 | a run of digits has a value exactly when it is non-empty and all digits |
| JsNumber.ParseStr | utils/gridFilterQuery.ts:30 | `Number(String(n))` is `n` for every number of the domain, NaN included |
| JsNumber.StrWholeInt | components/ReviewGrid.tsx:438 | `String` of a whole number is its digits, after a minus sign when negative |

## Left out

- Rendering, styling, animation and the browser observer hooks are not modelled; they hold no stateable behaviour.
- Prisma, `fetch`, the cheerio page queries, the Spotify SDK and Web API, and the session lookup are not modelled as code. Their answers are parameters: a sequence of responses or faults per call, the saved-album library as a fixed list, and the listing records as already extracted fields. The calls the code makes are results.
- The `__PRELOADED_STATE__` regular expression and JSON parse at `pages/api/scrape-pitchfork.ts:169-177` are not modelled; the listing's items are an input.
- The concurrency of `p-queue` and `chunkPromise` is not modelled. The queue's results arrive in any order, which the model states as an arbitrary permutation. The upserts run one after another.
- The page-level `p-retry` of the scraper and the driver is not modelled.
- Sleeps are not performed. Each requested wait is returned as a value.
- The recursive retries of `searchAlbums` and `parseReview` depend on the remote service to end. They run over a finite sequence of remote answers. A parse still retrying when its answers run out is `Unfinished`; a scrape with such a task never passes `queue.onIdle()` and reconciles nothing.
- ScrapePitchfork.ReviewStore.ScrapeReviews: a queue task whose parse rejects (the search rethrew, or the author list was empty) pushes nothing, and the other reviews are reconciled as `queue.onIdle()` resolving allows; what the unhandled rejection of that task's promise does to the process is not modelled.
- `encodeURIComponent` and `decodeURIComponent` are the identity here. They are a library pair, and the model only needs them to undo each other.
- Numbers that cross strings are whole tenths or NaN. `Number(s)` accepts `""`, digits, and digits with one decimal, with an optional minus sign; anything else is NaN. JavaScript accepts more forms, such as exponents, hex and surrounding white space.
- `new Date(String(year))` is modelled by `GridFilterQuery.YearStart` only for whole four-digit years, which give the first instant of that year (`GridFilterQuery.Instant`); every other value is treated as an invalid date, although JavaScript parses some of them (a year below 1000, say). Time zones are not modelled.
- GridFilterQuery.SatisfiesClause: an invalid date or a NaN score bound is assumed to select no row. The database client may instead reject such a query, for instance for `yearStart=abc`; that error path is not modelled.
- `compareTwoStrings` is a parameter of the search. `toLowerCase` folds only the letters A to Z.
- `formatTime` takes its input as a real number of seconds. Floating-point rounding is not modelled.
- `PAGE_SIZE` is a parameter, since `utils/constants.ts` is not part of this model. `FIRST_YEAR` is 1999 and `CURRENT_YEAR` is a parameter.
- The browser URL update after each feed page (`components/ReviewGrid.tsx:466-481`) is not modelled. It is a `router.replace` with no effect on the data.
- The `query.delete("isBestNew")` after `router.replace` in the URL sync (`components/GridFilter.tsx:390`) is not modelled. It changes a query object that is no longer read.
- The player is modelled one event at a time. The `await` between an SDK event and the library check is not modelled, so interleaved events are not covered.
- The space-key play toggle, scrubber seeking and the `/100` volume scaling of the slider are not modelled. The slider sets the level as given.
- The `cover` image of the player state and of the reviews is not modelled.
- `pages/index.tsx` repeats `getAlbumFromOffset`. It is modelled once, as `PlayerControls.AlbumFromOffset`.
- FormatTime.Minutes: for a negative time the field lies in -59..0, not in 0..59, as `Math.trunc` and `%` give for negative input.
- QueryRoundTrip.GenreReceived: stated only for genre names without commas, since a name holding a comma splits into two genres on the server.

## Findings

| source | as written | input that shows it | evidently intended | confidence | as-written member | corrected member |
|---|---|---|---|---|---|---|
| components/GridFilter.tsx:326-336 | the URL parse gives a missing `scoreStart` the default `FIRST_YEAR` (1999) and a missing `scoreEnd` the default `CURRENT_YEAR`, copied from the year range; the sync drops `scoreStart` when the start is 0 because 0 is falsy | a score filter of 0 to 8 is synced as `scoreEnd=8` only and reloads as the range 1999 to 8 | a missing score bound defaults to the score scale's ends, 0 and 10, so the range 0 to 8 reloads as 0 to 8 | not executed | GridFilter.ScoreFromZeroReloadsFrom1999 | GridFilter.SyncThenParseFixed |
