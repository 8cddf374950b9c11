# better-spotify, modelled in Dafny

This project models the logic of better-spotify, a Spotify client made of
three parts:

- a React front end that logs in through Spotify's authorization-code flow,
  keeps the session alive, searches tracks, shows lyrics, opens playlists and
  edits colour settings;
- an Express service that exchanges codes and refresh tokens and cleans
  lyrics fetched from Genius;
- a Flask service that turns a mood description into Spotify track
  suggestions and creates playlists.

Each module proves what its part promises.

- `Session` models the `useAuth` hook as the class `AuthHook`. The hook holds
  three state cells mirrored in `localStorage` and at most one refresh timer.
  - Restore accepts storage only when all three entries are truthy: present
    and non-empty.
  - A failed exchange or refresh only navigates to `/`; storage and state are
    left as they were.
  - The timer period is `(expiresIn - 60) * 1000`, and the one live timer
    always matches the current cells.
  - The exchange effect tests the access token of the first render, so a
    stored session does not stop a code in the URL from being sent again.
- `App` models the routing decision and whole page loads through the hook.
- `Dashboard` models the search box, the cancel flag that drops stale
  replies, lyrics and logout.
- `PlaylistPage` models the loading, error and list states.
- `Settings` models the colour panel. `Json` holds the part of
  `JSON.stringify`/`JSON.parse` the panel needs; the round trip is proved.
- `Server` models the Express routes and the lyrics cleaning. The regular
  expression is modelled by a leftmost-match search.
- `MoodBackend` models the Flask routes:
  - parsing "Title by Artist" lists;
  - the two-step song search and the keyword fallback;
  - the first-ten distinct-URI selection;
  - adding URIs in chunks of 100.
- `Tracks` holds the track-to-item mapping shared by the client and the
  backend, and proves that JavaScript's `reduce` and Python's `min` pick the
  same image.
- `Browser`, `Common` and `Numbers` hold `localStorage`/`window.location`,
  the string helpers (strip, split, substring search) and `parseInt`/`String`.

Replies of Spotify, Genius and the language model are parameters: a `Reply`
value, a search function from query to reply, or the raw model texts.

## Model

| member | source | states |
|---|---|---|
| Common.Trim | mlBackend/app.py:167 | the stripped text neither starts nor ends with white space |
| Common.TrimSlice | mlBackend/app.py:167 | stripping returns a slice of the text, and everything cut off before and after it is white space |
| Common.Split | mlBackend/app.py:166 | `split(',')` gives at least one piece and no piece contains the separator |
| Common.JoinSplit | mlBackend/app.py:166 | joining the pieces of a split with the separator gives the text back |
| Common.SplitCount | mlBackend/app.py:114 | a split has exactly one more piece than the text has separators |
| Common.SplitOnce | mlBackend/app.py:169 | `split(" by ", 1)` cuts at the leftmost occurrence: the halves around the separator rebuild the text, and no occurrence starts before the cut |
| Common.FilterMap | mlBackend/app.py:166-173 | an append-when-present loop never yields more values than inputs, yields one per input when every input gives one, and each value comes from some input |
| Common.FilterMapInOrder | mlBackend/app.py:166-173 | every input that gives a value contributes it, nothing else is kept, and the values keep the order of their inputs |
| Common.CollectSome | mlBackend/app.py:166-173 | the append-when-present loop builds exactly the values `FilterMap` describes |
| Numbers.ParseShowInt | betterSpotify/src/hooks/useAuth.js:17 | `parseInt` reads back, unchanged, the decimal text `localStorage.setItem` wrote for any integer TTL |
| Browser.Window.GetItem | betterSpotify/src/hooks/useAuth.js:10-12 | `getItem` gives the stored string exactly when the key is present, and `null` otherwise |
| Browser.Window.SetItem | betterSpotify/src/hooks/useAuth.js:36-38 | `setItem` updates one key and nothing else |
| Browser.Window.RemoveItem | betterSpotify/src/components/Dashboard.jsx:28-30 | `removeItem` drops one key and nothing else, including when the key is missing |
| Browser.Window.Navigate | betterSpotify/src/hooks/useAuth.js:43 | assigning `window.location` records the URL and leaves storage alone |
| Tracks.FirstSmallestUnique | mlBackend/app.py:228 | there is only one first image of least height |
| Tracks.MinHeightIndex | mlBackend/app.py:228 | `min(..., key=height)` picks an image of least height with no earlier image as small |
| Tracks.SmallestImageUrl | mlBackend/app.py:228-234 | the album URL is `None` exactly when there are no images, and otherwise the URL of the first smallest image |
| Tracks.ReduceSmallestSpec | betterSpotify/src/components/Dashboard.jsx:68-71 | the strict-`<` reduce keeps its seed unless some image is strictly smaller, and otherwise ends on the first smallest image |
| Tracks.ReduceSmallestIsMin | betterSpotify/src/components/Dashboard.jsx:68-71 | seeded with `images[0]`, the client's reduce picks the same image as the backend's `min` |
| Tracks.ClientItem | betterSpotify/src/components/Dashboard.jsx:66-78 | the client's item has the track's name, first artist and URI, and the first smallest image's URL; the mapping throws exactly when there are no artists or no images |
| Tracks.ClientItems | betterSpotify/src/components/Dashboard.jsx:66-79 | the mapping gives one item per track, in order, and throws when any track's mapping throws |
| Tracks.BackendItem | mlBackend/app.py:228-235 | the backend's item has the name, first artist, URI and smallest image URL, and it raises exactly when there are no artists |
| Tracks.ClientMatchesBackend | betterSpotify/src/components/PlaylistPage.jsx:32-44 | wherever the client's mapping succeeds, it agrees with the backend's |
| Server.LoginRoute | server/server.js:36-54 | `/login` answers the grant's access token, refresh token and TTL exactly when the grant succeeds, and status 400 otherwise |
| Server.RefreshRoute | server/server.js:14-34 | `/refresh` answers only the new access token and TTL, never a refresh token, and status 400 on failure |
| Server.ClosesFromSpec | server/server.js:63 | the lazy `.*?\]` matches from an index exactly when a `]` follows with no line terminator before it |
| Server.FirstBracketPair | server/server.js:63 | the search finds the leftmost `[` closed on its own line, or reports that there is none |
| Server.CleanLyrics | server/server.js:63-64 | the lyrics are the trimmed text from the leftmost bracket pair, or the whole trimmed text when there is no pair |
| Server.CleanedStartsAtBracket | server/server.js:63-64 | when a bracket pair exists, the cleaned lyrics start with `[` and still contain a `]` |
| Server.CaptureKeepsBrackets | server/server.js:63-64 | the capture from a bracket pair onwards, trimmed, still opens with `[` and holds the `]` |
| Server.GetLyrics | server/server.js:56-72 | no hit gives "Lyrics not found."; any thrown error gives "Error fetching lyrics."; otherwise the first hit's lyrics, cleaned |
| Server.LyricsRoute | server/server.js:81-83 | `/lyrics` never answers an empty text; it substitutes "Still looking…" exactly for empty lyrics |
| Server.CleanLyricsBlank | server/server.js:64 | the cleaned lyrics are empty exactly when the page text is all white space |
| Server.FallbackOnlyForBlankText | server/server.js:82 | the "Still looking…" fallback happens exactly when the first hit's page text is blank |
| Session.Armed | betterSpotify/src/hooks/useAuth.js:49-67 | a timer is armed exactly when both the refresh token and the TTL are truthy; its period plus 60000 is the TTL in ms, and it carries the current refresh token |
| Session.LoginSurvivesReload | betterSpotify/src/hooks/useAuth.js:31-38 | a stored login with non-empty tokens, whatever its TTL (0 included), is accepted by restore and gives back exactly the cells the exchange set |
| Session.RefreshSurvivesReload | betterSpotify/src/hooks/useAuth.js:59-62 | after a stored refresh, restore gives the new access token and TTL beside the old refresh token |
| Session.AuthHook.constructor | betterSpotify/src/hooks/useAuth.js:5-7 | all cells start undefined, with no timer and nothing in flight |
| Session.AuthHook.RunRefreshEffect | betterSpotify/src/hooks/useAuth.js:48-70 | the effect re-runs only when a dependency changed; it then clears the old timer and arms the one `Armed` gives, so at most one timer lives and it matches the cells |
| Session.AuthHook.RestoreEffect | betterSpotify/src/hooks/useAuth.js:9-19 | the cells become the verbatim tokens and the parsed TTL exactly when all three entries are truthy; otherwise nothing changes |
| Session.AuthHook.ExchangeEffect | betterSpotify/src/hooks/useAuth.js:21-28 | a code exchange is sent exactly when the seen access token is falsy and the code is truthy |
| Session.AuthHook.Mount | betterSpotify/src/hooks/useAuth.js:9-45 | after the first render the exchange guard tests the first render's token, not the restored one |
| Session.AuthHook.ExchangeSettled | betterSpotify/src/hooks/useAuth.js:29-44 | success sets all three cells and writes exactly those three entries; failure changes no cell and no entry and only navigates to `/` |
| Session.AuthHook.Tick | betterSpotify/src/hooks/useAuth.js:51-54 | the timer posts the current refresh token and stays armed |
| Session.AuthHook.RefreshSettled | betterSpotify/src/hooks/useAuth.js:55-66 | success replaces the access token and TTL in memory and in storage and keeps the refresh token; failure only navigates to `/` |
| Session.ReloadResendsCode | betterSpotify/src/hooks/useAuth.js:14-24 | reloading the redirect URL with a stored session restores the session and still sends the code |
| Dashboard.DashboardView.constructor | betterSpotify/src/components/Dashboard.jsx:16-19 | the lyrics start as the placeholder text, with an empty search, no results and no playing track |
| Dashboard.DashboardView.Type | betterSpotify/src/components/Dashboard.jsx:103 | typing changes only the search text |
| Dashboard.DashboardView.Commit | betterSpotify/src/components/Dashboard.jsx:51-82 | an empty search clears the results and sends nothing; no token means no request; otherwise the query is sent under the latest token, in a new run that cancels the previous one |
| Dashboard.DashboardView.SearchReplied | betterSpotify/src/components/Dashboard.jsx:62-80 | a reply from a cancelled run changes nothing; the current run's reply replaces the results with the mapped tracks |
| Dashboard.DashboardView.ChooseTrack | betterSpotify/src/components/Dashboard.jsx:21-25 | choosing sets the playing track, empties the lyrics, and requests lyrics exactly when the track changed |
| Dashboard.DashboardView.LyricsSettled | betterSpotify/src/components/Dashboard.jsx:45-47 | a lyrics reply replaces the text, whichever track is playing |
| Dashboard.DashboardView.HandleLogout | betterSpotify/src/components/Dashboard.jsx:27-32 | logout removes exactly the three session keys and navigates to `/` |
| Dashboard.StaleSearchIgnored | betterSpotify/src/components/Dashboard.jsx:60-81 | a reply that arrives after the query changed does not update the results |
| App.Route | betterSpotify/src/App.jsx:9 | the Dashboard shows exactly when the code or the stored token is truthy, and it receives the code unchanged |
| App.Boot | betterSpotify/src/App.jsx:4-9 | the Login page shows exactly when both values read at load are absent or empty |
| App.PartialSessionStrandsDashboard | betterSpotify/src/App.jsx:5-9 | storage with only an access token mounts the Dashboard, whose hook restores nothing, sends nothing and arms no timer |
| App.LogoutShowsLogin | betterSpotify/src/App.jsx:4-9 | the load after logout shows the Login page |
| App.FailedRefreshComesBack | betterSpotify/src/hooks/useAuth.js:64-66 | after a rejected refresh, the next load shows the Dashboard and restores the same session |
| PlaylistPage.EntryItems | betterSpotify/src/components/PlaylistPage.jsx:31-45 | one item per playlist entry, in order, with the client's mapping; it throws when any entry has no track or cannot be mapped |
| PlaylistPage.PlaylistView.constructor | betterSpotify/src/components/PlaylistPage.jsx:6-12 | the page starts loading, and a fetch starts only when the token and the playlist id are both truthy |
| PlaylistPage.PlaylistView.Commit | betterSpotify/src/components/PlaylistPage.jsx:11-16 | a fetch starts exactly when a dependency changed and both are truthy; it turns the spinner on and never clears an error |
| PlaylistPage.PlaylistView.Settled | betterSpotify/src/components/PlaylistPage.jsx:24-54 | a failed response sets the fixed error; success sets the playlist, then the tracks, or the error if the mapping throws; loading always ends |
| PlaylistPage.PlaylistView.Render | betterSpotify/src/components/PlaylistPage.jsx:60-86 | the spinner shows exactly while loading, then the error, then nothing without a playlist, then the list; in a valid state the blank view never shows |
| PlaylistPage.NoTokenKeepsSpinning | betterSpotify/src/components/PlaylistPage.jsx:8-12 | without a token no fetch happens and the spinner stays |
| PlaylistPage.ErrorOutlivesRetry | betterSpotify/src/components/PlaylistPage.jsx:11-53 | after one failed fetch, a later successful fetch still shows the error panel |
| Json.EscapeStringRoundTrip | betterSpotify/src/components/Settings.jsx:22 | the parser reads every escaped string back unchanged, whatever follows |
| Json.QuotedThen | betterSpotify/src/components/Settings.jsx:22 | a quoted string literal parses to its value and the text after it |
| Json.MembersRoundTrip | betterSpotify/src/components/Settings.jsx:22 | the written members parse back to the object they build, later keys overriding earlier ones |
| Json.ObjectRoundTrip | betterSpotify/src/components/Settings.jsx:9-22 | `JSON.parse(JSON.stringify(o))` gives an object with the same properties |
| Settings.CollectFields | betterSpotify/src/components/Settings.jsx:16-20 | the saved object holds the three colours under their names |
| Settings.SavedTextParses | betterSpotify/src/components/Settings.jsx:9-22 | the next load reads the text a save wrote, and it parses to the three saved colours |
| Settings.OverlayAll | betterSpotify/src/components/Settings.jsx:10-12 | with all three properties present, each colour is replaced exactly when its saved value is non-empty |
| Settings.LoadAfterSave | betterSpotify/src/components/Settings.jsx:9-22 | loading after a save gives back every non-empty saved colour; an empty one keeps the current colour |
| Json.EmptyObjectParses | betterSpotify/src/components/Settings.jsx:9 | `JSON.parse('{}')` is the empty object |
| Settings.NothingSavedKeepsColours | betterSpotify/src/components/Settings.jsx:9-12 | without a usable entry, loading changes no colour |
| Settings.SettingsPanel.constructor | betterSpotify/src/components/Settings.jsx:4-6 | the colours start as `#0f172a`, `#1e293b` and `#10b981` |
| Settings.SettingsPanel.LoadSaved | betterSpotify/src/components/Settings.jsx:8-13 | each colour is replaced only when the saved property is truthy; text the JSON model refuses counts as a throw and changes nothing |
| Settings.SettingsPanel.ApplySaved | betterSpotify/src/components/Settings.jsx:10-12 | a thrown parse changes nothing; a parsed object is overlaid on the current colours and no callback is made |
| Settings.SettingsPanel.Edit | betterSpotify/src/components/Settings.jsx:56-107 | an input changes its own colour and nothing else |
| Settings.SettingsPanel.ResetToDefaults | betterSpotify/src/components/Settings.jsx:29-33 | reset sets `#135e59`, `#131631`, `#0fba3a`, which differ from the initial palette; it writes no storage and calls no parent callback |
| Settings.SettingsPanel.HandleSave | betterSpotify/src/components/Settings.jsx:15-27 | save writes exactly the current colours under `appSettings`, passes the same object to `onSaveSettings`, then calls `onClose` |
| Settings.SettingsPanel.Dismiss | betterSpotify/src/components/Settings.jsx:43 | the close button only calls `onClose` |
| Settings.SettingsPanel.Render | betterSpotify/src/components/Settings.jsx:35 | a closed panel renders nothing, and an open one shows the current colours |
| Settings.SaveThenReopen | betterSpotify/src/components/Settings.jsx:8-27 | non-empty colours saved by one panel come back in the next panel opened on the same storage |
| Settings.SaveWithPanel | betterSpotify/src/components/Settings.jsx:15-27 | a panel whose three inputs are set and saved writes exactly those colours under `appSettings`, and no other key changes |
| Settings.Reopen | betterSpotify/src/components/Settings.jsx:8-13 | a panel mounted on storage holding a save of non-empty colours shows those colours |
| MoodBackend.CutUnique | mlBackend/app.py:169 | a text has only one leftmost cut at `" by "` |
| MoodBackend.FromPiece | mlBackend/app.py:167-173 | a piece gives a song exactly when its stripped text contains `" by "`; the title and artist are the stripped halves around the first `" by "` |
| MoodBackend.ParseSongList | mlBackend/app.py:165-173 | the songs are the parsed pieces of the stripped reply, in order, never more than the commas plus one |
| MoodBackend.SongsBound | mlBackend/app.py:166-168 | the dropped pieces leave at most one song per comma piece |
| MoodBackend.SplitStrip | mlBackend/app.py:113-117 | genres and keywords have one element per comma piece; no element holds a comma or starts or ends with white space |
| MoodBackend.SplitStripPiece | mlBackend/app.py:114-117 | element `i` is comma piece `i` with only white space cut off its ends |
| MoodBackend.MoodState.constructor | mlBackend/app.py:44-52 | the state starts with an empty description, no mood, no genres, no keywords and an empty explanation |
| MoodBackend.MoodState.Build | mlBackend/app.py:107-132 | every entry is overwritten: the stripped description, mood and explanation, and the split-and-stripped genres and keywords |
| MoodBackend.SongTrack | mlBackend/app.py:219-255 | the exact query decides when it finds anything; the general query is asked only when the exact one finds no items; a failed search or a first item without artists skips the song; a found track is always the first item of one of the two queries |
| MoodBackend.FindTracks | mlBackend/app.py:217-255 | the search loop yields the found track of each song, in order, at most one per song |
| MoodBackend.AddKeywordItems | mlBackend/app.py:264-276 | one keyword's items keep the tracks so far and append only tracks whose URI is new; a first item without artists adds nothing, and a first item with artists and a new URI is appended right after the tracks so far |
| MoodBackend.RaiseEndsItems | mlBackend/app.py:264-278 | an item without artists raises and ends the keyword's items: the items after it add nothing |
| MoodBackend.KeywordItemsFrom | mlBackend/app.py:266-276 | every appended track is the mapping of an item before the first item without artists |
| MoodBackend.KeywordItemsCover | mlBackend/app.py:266-276 | the URI of every item before the first item without artists ends up among the tracks |
| MoodBackend.AddKeywords | mlBackend/app.py:260-278 | the keyword searches keep the found tracks as a prefix and append only tracks with new URIs |
| MoodBackend.Fallback | mlBackend/app.py:257-278 | with five or more found tracks nothing changes; otherwise the found tracks stay first and every appended track has a new URI |
| MoodBackend.KeywordFallback | mlBackend/app.py:257-278 | the nested fallback loops compute exactly `Fallback` |
| MoodBackend.DedupSnoc | mlBackend/app.py:284-286 | one more track is kept exactly when its URI has not been seen |
| MoodBackend.DedupUris | mlBackend/app.py:281-287 | keeping the first track of each URI keeps the same set of URIs |
| MoodBackend.DedupDistinct | mlBackend/app.py:281-287 | keeping the first track of each URI leaves no URI twice |
| MoodBackend.DedupFirst | mlBackend/app.py:281-287 | each kept track is the track at its URI's first occurrence, and the kept tracks keep the order of those occurrences |
| MoodBackend.SelectStep | mlBackend/app.py:284-287 | a track joins the selection exactly when its URI is new and fewer than ten are kept |
| MoodBackend.SelectKeeps | mlBackend/app.py:284-287 | one pass of the loop keeps the selection equal to the deduplicated prefix and the seen set equal to its URIs |
| MoodBackend.SelectUnique | mlBackend/app.py:281-287 | the selection is the first ten tracks of distinct URIs, in order: at most ten, with no URI twice |
| MoodBackend.AddItemsCalls | mlBackend/app.py:327-341 | 100 or fewer URIs make one call; more make one call per slice starting at each multiple of 100; every call has 1 to 100 URIs and together they add all URIs in order |
| MoodBackend.MoodRequestCheckAsWritten | mlBackend/app.py:192-199 | as written, an absent description gives 500, an empty one or a falsy token gives 400 |
| MoodBackend.MoodRequestCheck | mlBackend/app.py:198-199 | a missing or empty description or token gives 400, and only those |
| MoodBackend.AbsentDescriptionIs500 | mlBackend/app.py:195 | a request without `moodDescription` gets 500 as written and 400 from the intended check |
| MoodBackend.ChecksDifferOnlyWithoutDescription | mlBackend/app.py:195-199 | the written check and the intended check differ exactly on requests without a description |
| MoodBackend.MoodSuggestionsRoute | mlBackend/app.py:189-298 | with the corrected request check of the Findings table, a bad request gives 400 and leaves the state alone; a token refused when the client is made gives 500, one refused at verification gives 401; otherwise the reply is the mood, the explanation and at most ten tracks with distinct URIs |
| MoodBackend.CreatePlaylistRoute | mlBackend/app.py:300-352 | a missing token, URI list or name gives 400 and calls no service; a refused token or a failed creation gives 500; otherwise a private playlist gets every URI in calls of at most 100 |

## Left out

- Network, timers and rendering: HTTP transport, `setInterval` timing, React
  scheduling beyond the order of effects, JSX layout, and the components that
  only render (PlaylistSection, PlaylistItem, TrackSearchResults, Player,
  both Login files). Replies are parameters, and time is the `Tick` event.
- The language model chains of mlBackend/app.py:54-105 and 134-162 are
  foreign calls: their output texts are parameters. If a chain raises, the
  request ends in 500; this is not modelled.
- The floating-point energy and valence levels (mlBackend/app.py:119-123).
  A `float()` that raises ends the request in 500; this is not modelled.
- The module-level `state` shared between concurrent Flask requests. Each
  request is modelled alone.
- Flask, Express and CORS plumbing. Request bodies that are not JSON, or
  whose values are not strings or lists of strings, are not modelled.
- Numbers.ParseShowInt: only radix 10, as `parseInt` uses here. The `0x`
  prefix and numbers beyond safe-integer precision are not modelled.
- Tracks.MinHeightIndex: image heights are integers. Spotify's `null`
  heights, which make Python's `min` raise, are not modelled.
- Json.ObjectRoundTrip: only objects with string-valued properties. The
  parser refuses other value kinds and surrogate-pair escapes.
- Settings.SettingsPanel.LoadSaved: text that `JSON.parse` accepts but the
  JSON model refuses counts as a throw that changes nothing. This covers a
  non-string property such as `{"gradientColor1":5}`, where JavaScript sets
  the colour to `5`. It also covers `[]` or `"x"`, where JavaScript changes
  nothing and does not throw, and surrogate-pair escapes.
- Session.AuthHook.RunRefreshEffect: the browser clamps a negative or huge
  delay to a minimum; the model keeps the computed period.
- Session.AuthHook.Tick: a navigation ends the page, and with it its timers
  and pending replies; the model keeps the object after `Navigate`.
- Dashboard.DashboardView.ChooseTrack: React compares tracks by object
  identity; the model compares them by value.
- MoodBackend.SongTrack: Spotify may return more items than the limit; only
  the first item is read, as in the source.
- MoodBackend.CreatePlaylistRoute: an add-items call that raises ends the
  request in 500 after the earlier chunks were added; every add-items call
  is assumed to succeed.

## Findings

| source | as written | input that shows it | evidently intended | confidence | as-written member | corrected member |
|---|---|---|---|---|---|---|
| mlBackend/app.py:195 | the log line slices `mood_description[:20]` before the check on line 198, so an absent `moodDescription` raises `TypeError` outside the `try` and Flask answers 500 | `{"accessToken": "t"}` with no `moodDescription` | the check on line 198 answers 400 "Missing mood description or access token" | not executed | MoodBackend.MoodRequestCheckAsWritten (with MoodBackend.AbsentDescriptionIs500) | MoodBackend.MoodRequestCheck |
