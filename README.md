# Aether — a Dafny model of the message board's core

Aether is an anonymous message board. A visitor writes a short message to
someone and can attach a song. The song comes from a music-catalog search
proxy, which also guesses where the chorus is. Stored messages appear on a
public feed, where visitors can like and sort them. The visitor who wrote a
message can delete it, either from the feed or from a "my messages" page.
A moderation dashboard lists, searches, counts, selects and deletes messages.

This project models that behaviour in Dafny:

- **SpotifyRoute** (`spotify_route.dfy`) models the search proxy. It covers
  the single-slot token cache with its 60-second safety margin, the chorus
  window heuristic (`findRefrenSection`) and the `GET` handler. The handler
  covers the 400, 200 and 500 answers and the mapping of each upstream
  track.
- **Feed** (`feed.dfy`) is the feed page as a class. It holds the message
  list, the set of liked ids, the id whose like is in flight and the sort
  order. Its methods are the like toggle with optimistic update and
  rollback, deletion and the sort buttons.
- **MessageOrder** (`message_order.dfy`) holds the three comparators of
  the feed (newest, most liked, oldest). It also holds a stable sort,
  proved sorted, a permutation and stable.
- **Admin** (`admin.dfy`) models the dashboard:
  - the statistics and their additivity;
  - the case-insensitive search filter;
  - selection and the select-all toggle;
  - single, bulk and delete-everything deletion.
- **MyMessages** (`my_messages.dfy`) is the own-messages page. It covers
  the per-session query, newest first, and the like and delete handlers
  that only take effect after the backend succeeds.
- **Compose** (`compose.dfy`) models the write page:
  - the `m:ss` formatter, with a parser as its inverse;
  - the row that a submit inserts;
  - the song-search state.
- **MessageCard** (`message_card.dfy`) models what a card shows. It covers
  the three branches of the date label, the "To" badge, the sender
  fallback, the delete control and the music panel.
- **Navbar** (`navbar.dfy`) holds the navigation entries, the active-link
  test and the desktop filter.
- **Messages**, **JsString**, **JsArray** and **Wrappers** hold shared
  definitions:
  - the message record and its id-based list updates;
  - the JavaScript string and array operations the pages rely on
    (`trim`, `toLowerCase`, `includes`, `padStart`, decimal rendering,
    `filter`);
  - `Option` and `Result`.

The clock, the backend's answers, the visitor's answer to a confirmation
dialog and the session id kept in browser storage are all parameters. The
token route reads the clock twice: `now` is the reading before the token
is checked, and `replyTime` is the reading after the token endpoint has
answered, from which the new expiry is computed. Each React event handler
is modelled as one atomic step on the page's state.

Facts about the code that the model keeps as written:

- A token with a lifetime of 3600 s is reused for up to 3539.999 s after
  its reply arrives, because the margin is 60000 ms.
- A track from two to four minutes gets a window from 25% to 65% of its
  length. A track of four minutes or more gets 30% to 70% (a 300 s track
  gets 90000–210000 ms), although the comment at
  src/app/api/spotify/route.ts:69 says 30%–50%.
- The fixed 15 s–45 s window of a track under two minutes is not cut to
  the track's length. `ShortTrackOverrun` states the overrun.

## Model

| member | source | states |
|---|---|---|
| SpotifyRoute.ExchangeError | src/app/api/spotify/route.ts:23-32 | the exchange succeeds exactly when the reply is OK and carries a non-empty access token; otherwise it fails as not OK, or as a missing token |
| SpotifyRoute.TokenCache.constructor | src/app/api/spotify/route.ts:3-4 | the cache starts without a token and with expiry 0 |
| SpotifyRoute.TokenCache.Serves | src/app/api/spotify/route.ts:7 | a token that is served is present and non-empty, and no token is served at or after its expiry |
| SpotifyRoute.TokenCache.GetAccessToken | src/app/api/spotify/route.ts:6-43 | the endpoint is contacted exactly when the cached token is missing, empty or expired; a fresh token is served unchanged; a failed exchange fails and leaves the cache alone; a successful one stores the token with expiry (reply time) + lifetime − 60 s; a served token is never empty |
| SpotifyRoute.TokenLifetime | src/app/api/spotify/route.ts:6-43 | after a first exchange, a call 1 ms before (reply time) + lifetime − 60 s is served from the cache, and a call at that instant exchanges again |
| SpotifyRoute.TokenReusedAcrossRequests | src/app/api/spotify/route.ts:3-43 | the cache outlives a request: a second search before the first token's expiry searches without a second exchange |
| SpotifyRoute.RefrenSection | src/app/api/spotify/route.ts:46-74 | the window is never empty; under two minutes it is the fixed 15000–45000 window; from two minutes on it lies inside the track |
| SpotifyRoute.ShortTrackWindow | src/app/api/spotify/route.ts:54-59 | every track under two minutes gets the fixed 15000–45000 window |
| SpotifyRoute.ShortTrackOverrun | src/app/api/spotify/route.ts:54-59 | below 45 seconds the window ends after the track does (no clamp) |
| SpotifyRoute.WindowInsideTrack | src/app/api/spotify/route.ts:46-74 | from two minutes on, 0 ≤ start < end ≤ duration, and the window covers two fifths of the track up to rounding |
| SpotifyRoute.WindowExamples | src/app/api/spotify/route.ts:46-74 | the windows of 90, 150 and 300 second tracks are 15000–45000, 37500–97500 and 90000–210000 |
| SpotifyRoute.FormatTrack | src/app/api/spotify/route.ts:104-122 | the output track gives back the upstream item through its inverse `Upstream`, and carries the window of the item's duration |
| SpotifyRoute.FormatTracks | src/app/api/spotify/route.ts:104-122 | one output track per upstream item, in order; each keeps the item's fields (its inverse `Upstream` gives the item back) and carries the item's window; no items gives an empty list |
| SpotifyRoute.BlankQuery | src/app/api/spotify/route.ts:80 | a query is rejected exactly when it is missing or all white space |
| SpotifyRoute.Get | src/app/api/spotify/route.ts:76-139 | a missing or blank query answers 400 without touching the token or the search; otherwise the token is exchanged exactly when the cache cannot serve; a cache hit leaves the cache unchanged; a successful exchange stores its token with expiry (reply time) + lifetime − 60 s; a failed exchange answers 500 without searching; otherwise the search runs and answers 200 with the annotated tracks, or 500 when it fails |
| JsString.LeadingWhiteSpace | src/app/write/page.tsx:84 | the count of leading characters that are white space: all of those are, and the next one is not |
| JsString.TrailingWhiteSpace | src/app/write/page.tsx:84 | the count of trailing characters that are white space: all of those are, and the one before them is not |
| JsString.Trim | src/app/write/page.tsx:84 | the result is the slice of the input that starts right after its leading white space; everything before and after that slice is white space, and the result neither starts nor ends with white space |
| JsString.TrimEmptyIff | src/app/write/page.tsx:74 | a string trims to the empty string exactly when it is all white space (the `!x.trim()` guards) |
| JsString.TrimNoEdgeWhiteSpace | src/app/write/page.tsx:84 | a non-empty string with no white space at either end is its own trim |
| JsString.TrimIdempotent | src/app/write/page.tsx:84 | trimming twice is trimming once |
| JsString.ToLower | src/app/admin/page.tsx:101-105 | same length, each character lower-cased |
| JsString.IncludesIff | src/app/admin/page.tsx:101-105 | `includes` holds exactly when the needle occurs at some index |
| JsString.PadStart2 | src/app/write/page.tsx:69 | pads with leading zeros to length two; the original text is the suffix |
| JsString.NatToString | src/app/write/page.tsx:69 | non-empty decimal digits with no leading zero, one digit exactly below ten |
| JsString.ParseNatToString | src/components/MessageCard.tsx:61 | reading the rendered digits back gives the number |
| JsArray.Filter | src/app/admin/page.tsx:101-105 | no longer than the input; every kept element is in the input and passes; every passing element is kept |
| JsArray.FilterIsSubsequence | src/app/admin/page.tsx:101-105 | filtering keeps the surviving elements in their original order |
| JsArray.FilterKeepsAll | src/components/Navbar.tsx:86 | the filter returns its input exactly when every element passes |
| JsArray.FilterLengthFull | src/app/admin/page.tsx:83-84 | the filter keeps the full length exactly when every element passes |
| JsArray.FilterConcat | src/app/admin/page.tsx:83-84 | filtering distributes over concatenation |
| Messages.Ids | src/app/admin/page.tsx:121 | the id set contains exactly the ids occurring in the list |
| Messages.IdsOfUniqueList | src/app/admin/page.tsx:117-123 | with distinct ids, the id set has one element per message |
| Messages.Find | src/app/page.tsx:118 | a message is found exactly when its id occurs; the found message is in the list and has that id |
| Messages.RemoveIds | src/app/page.tsx:201 | the result keeps order; a message stays exactly when it was there and its id is not removed; the id set loses exactly the removed ids |
| Messages.SumLikes | src/app/admin/page.tsx:86 | the like total bounds every count and is zero exactly when every count is zero |
| Messages.SumLikesConcat | src/app/admin/page.tsx:86 | the like total of two lists joined is the sum of their totals |
| Messages.SetLikes | src/app/page.tsx:128-130 | same length; the messages with that id get the new count and nothing else changes |
| Messages.SetLikesTwice | src/app/page.tsx:178-184 | a second count written on the same id overrides the first |
| Messages.RestoreLikes | src/app/page.tsx:178-184 | with distinct ids, writing a message's own count back restores the list |
| Messages.IncrementLikes | src/app/my-messages/page.tsx:95-97 | same length; each message with that id gains exactly one like and nothing else changes |
| Messages.Toggle | src/app/admin/page.tsx:107-115 | the element flips membership and every other element keeps it |
| Messages.ToggleTwice | src/app/page.tsx:132-140 | toggling the same id twice restores the set |
| MessageOrder.Compare | src/app/page.tsx:219-223 | the sign says the order: for newest a negative result means strictly later creation, for oldest strictly earlier creation, for popular strictly more likes or equal likes and later creation; zero means a tie in the compared keys |
| MessageOrder.CompareConsistent | src/app/page.tsx:219-223 | each comparator is antisymmetric, its order is transitive, and ties are transitive |
| MessageOrder.Insert | src/app/page.tsx:214-227 | inserting into a sorted list keeps it sorted and adds exactly that message |
| MessageOrder.Sort | src/app/page.tsx:214-227 | the result is sorted by the comparator and is a permutation of the input |
| MessageOrder.SortOrderMeaning | src/app/page.tsx:219-223 | in the result, newest puts later creation first, oldest earlier creation first, and popular more likes first with newer first on equal likes |
| MessageOrder.InsertTies | src/app/page.tsx:214-227 | insertion puts the inserted message in front of the messages that tie with it |
| MessageOrder.SortIsStable | src/app/page.tsx:214-227 | messages that tie keep their relative order |
| Feed.NewLikeCount | src/app/page.tsx:124-125 | a like adds exactly one; an unlike removes exactly one from a positive count and keeps zero at zero |
| Feed.LikeThenUnlike | src/app/page.tsx:124-125 | liking and then unliking restores the count |
| Feed.UnlikeThenLike | src/app/page.tsx:124-125 | unliking and then liking restores the count, except that a count of zero ends at one |
| Feed.FeedState.constructor | src/app/page.tsx:24-31 | no messages, no likes, nothing in flight, newest first |
| Feed.FeedState.HandleLike | src/app/page.tsx:114-188 | a click on the id in flight changes nothing; an unknown id changes neither the list nor the likes; otherwise the liked set flips and the count becomes the new count, or goes back to the old count when the write fails; the in-flight marker ends cleared; with distinct ids, a failed write leaves the list as it was |
| Feed.FeedState.HandleDelete | src/app/page.tsx:190-212 | after confirmation and a successful delete, the message leaves the list and its id leaves the liked set; otherwise nothing changes |
| Feed.FeedState.SetSortBy | src/app/page.tsx:280 | the chosen order becomes the sort order |
| Feed.FeedState.SortedMessages | src/app/page.tsx:214-227 | the shown list is sorted by the current order and is a permutation of the state |
| Feed.LikeTwice | src/app/page.tsx:114-188 | two successful clicks on the same message restore both the list and the liked set, unless the message had zero likes and was already liked |
| Feed.FindAfterUpdate | src/app/page.tsx:118 | with distinct ids, after a count update the message is found with the new count |
| Feed.FindIsAt | src/app/page.tsx:118 | `find` returns the first message holding the id |
| Admin.CalculateStats | src/app/admin/page.tsx:82-94 | the total is the length; both the track count and the named count are at most the total, and each equals it exactly when every message qualifies; total likes are zero exactly when no message has a like |
| Admin.StatsConcat | src/app/admin/page.tsx:82-94 | the statistics of two lists joined are the field-wise sums of their statistics |
| Admin.MatchesSearch | src/app/admin/page.tsx:101-105 | a message matches exactly when the lower-cased term occurs in its lower-cased text, in its present lower-cased sender or in its present lower-cased recipient; the empty term matches every message |
| Admin.FilterMessages | src/app/admin/page.tsx:101-105 | keeps order; every kept message matches; every matching message is kept; an empty term keeps everything |
| Admin.SearchIgnoresCase | src/app/admin/page.tsx:101-105 | the search gives the same answer for a term and its lower-cased form |
| Admin.SelectAllResult | src/app/admin/page.tsx:117-123 | when the selection's size differs from the visible list's length, the new selection is exactly the visible ids; otherwise it is empty; so it is non-empty exactly when the list is non-empty and the sizes differed |
| Admin.HeaderChecked | src/app/admin/page.tsx:378 | the header checkbox is never checked over an empty list or an empty selection |
| Admin.SelectAllChecksHeader | src/app/admin/page.tsx:117-123 | with distinct ids, select-all leaves the header checkbox checked exactly when something is shown and the selection's size differed from it; pressing select-all twice on a non-empty list then clears the selection |
| Admin.SizeOnlyComparison | src/app/admin/page.tsx:378 | the header counts as checked for a selection of the same size as the visible list even when no visible id is selected, and select-all then clears the selection |
| Admin.AdminState.constructor | src/app/admin/page.tsx:32-43 | no messages, zero statistics, empty search, nothing selected |
| Admin.AdminState.FetchMessages | src/app/admin/page.tsx:61-80 | a successful fetch replaces the list and recomputes the statistics from it; a failed one changes neither |
| Admin.AdminState.SetSearchTerm | src/app/admin/page.tsx:330 | the typed term becomes the search term |
| Admin.AdminState.SelectMessage | src/app/admin/page.tsx:107-115 | the id's selection flips |
| Admin.AdminState.SelectAll | src/app/admin/page.tsx:117-123 | the selection becomes the select-all result for the visible list |
| Admin.AdminState.DeleteMessage | src/app/admin/page.tsx:125-149 | after confirmation and success, the message leaves the list and its id leaves the selection, while the statistics stay as they were; otherwise nothing changes |
| Admin.AdminState.BulkDelete | src/app/admin/page.tsx:151-174 | with a non-empty selection, confirmation and success, exactly the unselected messages remain and the selection empties, while the statistics stay as they were; otherwise nothing changes |
| Admin.AdminState.DeleteAllMessages | src/app/admin/page.tsx:176-197 | after confirmation and success, the list and the selection are empty, while the statistics stay as they were; otherwise nothing changes |
| MyMessages.MineNewestFirst | src/app/my-messages/page.tsx:44-48 | exactly the stored rows of the session, each as often as stored, newest first |
| MyMessages.SessionRows | src/app/my-messages/page.tsx:44-48 | any rearrangement of the session's rows holds exactly the stored rows of that session |
| MyMessages.MyMessagesState.constructor | src/app/my-messages/page.tsx:21-22 | no messages and no session yet |
| MyMessages.MyMessagesState.FetchMyMessages | src/app/my-messages/page.tsx:40-60 | the session is recorded; a successful query replaces the list with the session's rows newest first; a failed one keeps it |
| MyMessages.MyMessagesState.HandleLike | src/app/my-messages/page.tsx:85-99 | a known id with a successful write gains one like; otherwise nothing changes |
| MyMessages.MyMessagesState.HandleDelete | src/app/my-messages/page.tsx:101-110 | on success the message leaves the list; otherwise nothing changes |
| MyMessages.IncrementAddsOne | src/app/my-messages/page.tsx:85-99 | with distinct ids and a present id, the like total grows by exactly one and no count decreases |
| MyMessages.EveryCardDeletable | src/app/my-messages/page.tsx:153-163 | every card on the page offers the delete control to the visitor |
| MessageCard.FormatDate | src/components/MessageCard.tsx:49-69 | time of day under 24 hours, whole days ago under 7 days, a calendar date otherwise; the days shown are the floor of the distance, from 1 to 6 |
| MessageCard.FormatDateSymmetric | src/components/MessageCard.tsx:52 | a future creation time gets the same label as a past one at the same distance |
| MessageCard.FormatDateMonotone | src/components/MessageCard.tsx:49-69 | as the distance grows, the label moves from time of day to days ago to calendar date and never back |
| MessageCard.DaysAgoText | src/components/MessageCard.tsx:61 | the text begins with the decimal digits of the count, which read back as the count, and says "day" exactly for one |
| MessageCard.View | src/components/MessageCard.tsx:45-184 | the badge shows exactly for a non-empty recipient; the sender label is the name, or "Someone" when the name is missing or empty; delete shows exactly to the owner's session; like is disabled exactly while processing; the music panel shows exactly with track data; the likes and date label come from the message |
| Compose.TwoDigits | src/app/write/page.tsx:69 | below 100 the padded text is two digits reading back as the number |
| Compose.FormatTime | src/app/write/page.tsx:67-70 | parsing the formatted `m:ss` gives back the whole seconds, and the minutes carry no leading zero (the text starts with a non-zero digit unless it is `0:ss`) |
| Compose.TrackData | src/app/write/page.tsx:86-94 | the stored track data copies the id, name, first artist, window and preview, and marks the chorus as automatic |
| Compose.StoredWindowFromProxy | src/app/write/page.tsx:86-94 | the stored times of a proxy track are its duration's chorus window, inside the track from two minutes on |
| Compose.ToNameOf | src/app/write/page.tsx:84 | the recipient is never empty and is trimmed; it is "Everyone" exactly for a blank input, otherwise the trimmed input |
| Compose.FromNameOf | src/app/write/page.tsx:100 | the sender is absent exactly when anonymous or empty, otherwise the name as typed |
| Compose.TrackIdOf | src/app/write/page.tsx:102 | the track id is present exactly for a selected track with a non-empty id |
| Compose.Submit | src/app/write/page.tsx:72-117 | a blank message inserts nothing; a selected track without artists fails before the insert; otherwise the row has the message as typed, no likes, this session, the recipient, sender and track id above, and track data exactly when a track is selected |
| Compose.SubmittedCard | src/app/write/page.tsx:96-106 | a submitted message's card always shows its badge, shows "Someone" for anonymous or nameless senders and the name otherwise, starts at zero likes, offers delete exactly to the writer's session and shows music exactly with a track |
| Compose.SearchResultsOf | src/app/write/page.tsx:48-52 | a successful answer whose body carries tracks gives exactly those tracks; any other answer, or none, gives no results |
| Compose.TrackSearch.constructor | src/app/write/page.tsx:34-36 | empty query, no results, no selected track |
| Compose.TrackSearch.SearchTracks | src/app/write/page.tsx:40-59 | the proxy is asked exactly for a non-blank query; the results are its tracks, or empty for a blank query or any failure |
| Compose.TrackSearch.TrackSelect | src/app/write/page.tsx:61-65 | the track is selected and the results cleared; the query becomes "name - first artist", or stays when the track has no artists |
| Compose.TrackSearch.ClearSearch | src/app/write/page.tsx:218-221 | the query and the results are emptied |
| Compose.TrackSearch.RemoveTrack | src/app/write/page.tsx:291-294 | the selected track and the query are cleared |
| Navbar.IsActive | src/components/Navbar.tsx:67-72 | the root entry is active on the root path and nowhere else; any other entry is active exactly on the paths it prefixes, including its own |
| Navbar.NotSegmentAware | src/components/Navbar.tsx:71 | "/writer" activates the Write entry, because the test ignores path segments |
| Navbar.PrefixesComparable | src/components/Navbar.tsx:67-72 | two prefixes of one path are prefixes of each other |
| Navbar.HrefsIncomparable | src/components/Navbar.tsx:44-64 | no entry's href prefixes another's, and none is the root |
| Navbar.AtMostOneActive | src/components/Navbar.tsx:44-72 | on every path at most one entry is active |
| Navbar.DesktopItems | src/components/Navbar.tsx:86 | keeps order and drops exactly the entries named "Home"; it returns its input exactly when none is named "Home" |
| Navbar.DesktopShowsAll | src/components/Navbar.tsx:86 | the desktop bar shows every entry of the list, in order |

## Left out

- Backend calls (database select, insert, update and delete) and the
  confirmation dialog are boolean or value parameters. Realtime
  subscriptions and re-fetches are not modelled.
- HTTP, JSON parsing and base64 encoding of the client credentials are not
  modelled. The token and search replies are parameters.
- The feed's initial load of messages and of the visitor's likes, with its
  fallback to browser storage when the likes table is missing
  (src/app/page.tsx:49-95), is not modelled. So are the likes-table writes
  and storage updates inside the like handler (src/app/page.tsx:152-176).
  Only the list, the liked set and the in-flight marker are.
- The session id (`localStorage` with a `crypto.randomUUID()` fallback) is
  a parameter.
- Loading, submitting and searching flags, alerts, console logging and the
  navigation to the feed after a submit are not modelled.
- Concurrency: each async handler is one atomic step. Interleavings of two
  handlers in flight, and stale closures over page state, are not
  modelled. With atomic handlers, `processingLike` is always empty between
  steps, so the in-flight guard of Feed.FeedState.HandleLike (its ensures
  for a click on the id in flight) never fires in the model.
- Each keystroke in the song box schedules a search 300 ms later
  (`setTimeout`, no cancellation; src/app/write/page.tsx:210). The delay
  and the overlapping requests are not modelled.
- Times are epoch milliseconds. Parsing `created_at` date strings is not
  modelled.
- MessageCard.FormatDate: the time-of-day and calendar labels come from
  locale-dependent `toLocale*String` calls, so the model keeps only which
  branch is taken.
- SpotifyRoute.RefrenSection: the products with 0.25, 0.3, 0.65 and 0.7 are
  taken in exact arithmetic and then floored. IEEE-754 rounding could differ
  by one millisecond at exact multiples.
- SpotifyRoute.Get: an upstream body with `tracks` but without `items`
  (a TypeError, answered 500) is merged with a missing `tracks` (answered
  200 with no tracks).
- SpotifyRoute.TokenCache.GetAccessToken: the lifetime is an integer, so
  the NaN expiry of a missing `expires_in` is not modelled.
- Compose.FormatTime takes a natural number. Negative or fractional
  millisecond inputs are not modelled.
- JsString.ToLower maps only the ASCII letters A–Z. JavaScript's
  `toLowerCase` also maps other Unicode letters.
- MyMessages.MineNewestFirst: the database's order among rows with equal
  `created_at` is unspecified. The model keeps their stored order (a
  stable sort), and its contract states only the ordering and the
  contents.
- The admin page's authentication gate is not modelled: the redirect to
  the login page when no user is signed in, fetching messages only for a
  signed-in user, and logout (src/app/admin/page.tsx:48-59, 97-100,
  209-210). The dashboard is modelled as seen by a signed-in user.
- The show/hide state of a card's music player, the audio player and the
  mobile menu's open state are not modelled.
- Presentation files (layout, hero, about page, background components) and
  the admin login page are not part of this model.
