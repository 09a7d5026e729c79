# Hamstify playback queue, result normalisation and account tables, in Dafny

Hamstify is a small music streaming web application. This project models three of its parts:

- The browser client's **playback queue engine** (`frontend/static/js/app.js`). The client keeps its state in module-level globals: the queue, the cursor into it, the current track, the liked set and the loaded playlists. Here they are the fields of the class `Player.App`, and each handler that updates them is a method. The pure helpers are functions in `Text` and `Tracks`: `formatTime`, `escapeHtml`, and the identifier rule `video_id || id`.
- The backend's **result normalisation** (`backend/services.py`). `search_youtube` and `get_home_content` are pure specification functions. Beside each is a method with the source's loops, proved equal to it. The music service's responses are input datatypes with optional keys. Python's exceptions are explicit: a converter returns None where reading a key raises.
- The backend's **account and row lifecycle** (`backend/database.py`). The class `Database.Db` holds the four tables as sequences of rows. It spells out SQLite's UNIQUE check, its UPDATE and its AUTOINCREMENT ids. bcrypt is a `Hasher` pair of functions. The only thing assumed of it is that a password verifies against its own hash.

Files: `wrappers.dfy` (Option), `tracks.dfy` (track records, the identifier rule, the liked set), `text.dfy` (formatTime, escapeHtml), `player.dfy` (the queue engine), `services.dfy`, `database.dfy`.

Awaited network replies are method parameters. These are the stream reply, the playlist listing, whether a POST was delivered, and the search and home replies. A reply whose JSON body lacks the list the handler walks (an error object such as `{detail}`) is its own case, `Player.Reply.Malformed`. `Math.random()` in `playNext` is a choice of any index in range.

Behaviour of the code that the model keeps:
- `playTrackFromQueue` (app.js:102-118) sends the history request and the stream request even when the resolved identifier is empty or undefined.
- `playPrev` (app.js:166) moves back only when the queue is non-empty and the cursor is above 0.
- A stream reply of `{url: null}` with a 2xx status counts as success, so `StreamOk` carries an optional url. The page then assigns null to `audio.src` (app.js:122), which becomes the source "null" that fails to load; after `StreamOk(None)` the model's `audioSrc == None` stands for that broken source, not for an element that was never given one.
- Assigning the audio element's `src` (app.js:122) rewinds it to position 0.
- `refreshLikedTracks` (app.js:42-43) clears the liked set and the playlist table before it walks the body, so a body that is not a list leaves both empty. `loadHome` (app.js:303) sets `window.homeTracks` before it reads `data.tracks.length`, so a body without tracks leaves it undefined.
- `escapeHtml` (app.js:442) turns `'` into `&apos;` and `"` into `&quot;`. The result goes into the double-quoted `onclick` attribute at app.js:288. That keeps a `"` in a title from closing the attribute. It does not protect the JavaScript string literal inside the handler. The HTML parser decodes `&apos;` back to `'` before the handler is compiled, so a title with an apostrophe ends the literal early.

Observation, not modelled across files: the client's history request (app.js:105-115) never sends `artist_id`. Every history row therefore has a NULL artist id. So `get_home_content` never takes its artist path (`Services.ArtistPageOnlyWithArtistId`). It shows the hits, or the failure title when the hits search raises (services.py:89-91).

## Model

| member | source | states |
|---|---|---|
| `Tracks.ResolveId` | frontend/static/js/app.js:102 | the identifier is `video_id` when that is truthy, else `id`; it is always one of the two fields, and it is usable (truthy) iff either field is |
| `Tracks.SongIdsExactly` | frontend/static/js/app.js:47-52 | the identifiers added for one playlist are exactly the resolved ids of its songs |
| `Tracks.LikedIdsExactly` | frontend/static/js/app.js:42-53 | the rebuilt liked set holds an id iff some song of some listed playlist resolves to it |
| `Tracks.SongIsLiked` | frontend/static/js/app.js:45-51 | every song of every listed playlist is in the rebuilt liked set |
| `Tracks.PlaylistTableExactly` | frontend/static/js/app.js:43-46 | the playlist table has a key for exactly the listed ids, each mapped to the last listed playlist with that id |
| `Tracks.PlaylistTableFindsEach` | frontend/static/js/app.js:46 | with distinct playlist ids (primary keys) every listed playlist is found under its own id |
| `Tracks.SavedSearchResultIsLiked` | frontend/static/js/app.js:271-275 | a search result (id in `id`) shows a filled heart once a stored row (id in `video_id`) for the same video is listed |
| `Player.App.constructor` | frontend/static/js/app.js:2-11 | the initial globals: empty queue, cursor -1, no current track, empty liked set and playlist table, not playing |
| `Player.App.RefreshLikedTracks` | frontend/static/js/app.js:37-57 | on a list of playlists, the liked set and playlist table are rebuilt from scratch (earlier contents discarded) and every loaded song shows a filled heart (`IsLiked`: its resolved id is in the liked set); a body that is not a list leaves both empty; a failed fetch changes nothing |
| `Player.App.UpdatePlayButton` | frontend/static/js/app.js:180-185 | the button shows pause while playing and play otherwise |
| `Player.App.PlayTrackFromQueue` | frontend/static/js/app.js:85-143 | a cursor outside the queue changes nothing; otherwise the track under the cursor becomes current, its resolved id is requested and is also the id `DownloadId` (app.js:208-212) then opens; a stream reply sets the source, rewinds to 0, starts playback and shows pause; a failed one keeps the audio element and playing flag and shows the error icon |
| `Player.App.PlayContextTrack` | frontend/static/js/app.js:62-72 | the clicked list (`ContextList`: the last search results for "search", the home tracks or none for "home", nothing otherwise) replaces the queue when non-empty, and the index becomes the cursor unchecked; an index in range plays that track with the stream outcome of `PlayTrackFromQueue`; an index outside plays nothing and leaves the playback state; an empty list changes nothing; no other field changes |
| `Player.App.PlayLibraryTrack` | frontend/static/js/app.js:75-82 | a loaded playlist with songs replaces the queue and the index becomes the cursor, unchecked; an index in range plays that song with the stream outcome of `PlayTrackFromQueue`; an index outside plays nothing and leaves the playback state; a missing or empty playlist changes nothing; no other field changes |
| `Player.App.PlayNext` | frontend/static/js/app.js:146-163 | before the last track the cursor moves up by exactly one; at or past it on a non-empty queue the cursor lands on some index in range; a cursor in range stays in range and the track there is played with the stream outcome of `PlayTrackFromQueue`; a cursor still outside plays nothing; on an empty queue the cursor stays and playback stops; the queue and all other fields are unchanged |
| `Player.App.PlayPrev` | frontend/static/js/app.js:165-172 | on a non-empty queue with cursor above 0 the cursor moves down by exactly one and the track there is played with the stream outcome of `PlayTrackFromQueue` (a successful stream starts at position 0); otherwise the cursor, the current track and the audio source stay and only the position resets to 0; the queue and all other fields are unchanged |
| `Player.App.TogglePlay` | frontend/static/js/app.js:174-178 | a paused element resumes and playing becomes true; a playing one pauses and playing becomes false |
| `Player.App.HandleSearch` | frontend/static/js/app.js:242-262 | a list of results becomes the list search clicks play from; a body that is not a list leaves nothing to play; a failed fetch keeps the previous list |
| `Player.App.LoadHome` | frontend/static/js/app.js:297-303 | a home reply's tracks become the list home clicks play from; a body without tracks leaves none; a failed fetch keeps the previous tracks |
| `Player.App.OpenPlaylistModal` | frontend/static/js/app.js:382-386 | remembers the track to add under its id as `video_id`, and refreshes the liked set and playlist table (as `RefreshLikedTracks`) only when none are loaded |
| `Player.App.SaveToPlaylist` | frontend/static/js/app.js:398-414 | a failed add request changes nothing; a delivered one adds the track's `video_id` to the liked set and then refreshes from the listing as `RefreshLikedTracks` does; when that listing fetch fails, the added id stays and a track with a truthy `video_id` shows a filled heart |
| `Text.FormatTime` | frontend/static/js/app.js:201-206 | the text is digits, ':' and exactly two digits of seconds; NaN gives "0:00" |
| `Text.DecimalRoundTrip` | frontend/static/js/app.js:205 | the printed minutes and seconds read back as the numbers printed |
| `Text.FormatTimeRoundTrip` | frontend/static/js/app.js:201-206 | the digits before the colon are exactly floor(s/60) and the two after it exactly s % 60, so reading "m:ss" back gives s |
| `Text.TwoPassesAreCharwise` | frontend/static/js/app.js:442 | replacing all `'` and then all `"` equals escaping each character in order |
| `Text.EscapedHasNoQuotes` | frontend/static/js/app.js:442 | the escaped text contains no `'` and no `"` |
| `Text.EscapedIdentityIff` | frontend/static/js/app.js:442 | escaping leaves a text unchanged iff it has no quotes |
| `Text.EscapeHtmlMeaning` | frontend/static/js/app.js:442 | `escapeHtml` gives "" for missing text; its result never holds a quote; a present text gives its character-wise escape (other characters kept in order); text without quotes comes back unchanged |
| `Services.KeptSongs` | backend/services.py:13 | a song is kept iff it has a truthy videoId; never more than the input |
| `Services.KeptSongsAppend` | backend/services.py:12-13 | keeping distributes over concatenation, so kept songs stay in input order |
| `Services.ScanExactly` | backend/services.py:12-25 | a result loop converts the kept songs in order; without a raise it converts all of them, and with one it stops at the kept song that raised |
| `Services.ScanStopsAtRaise` | backend/services.py:26-28 | once a conversion raises, later songs change nothing |
| `Services.SearchResultsMeaning` | backend/services.py:8-28 | search output is never longer than its input; it is [] when the search raised or iff some song with a truthy videoId lacks `title`, the last thumbnail's `url` or the first artist's `name` (`CleanResult`); otherwise it is exactly the songs with a truthy videoId, in order, each with id = videoId, the title, the last thumbnail url or '' (`Thumbnail`), the first artist's name or "Nieznany" (`FirstArtistName`), and the first artist's id only when truthy (`FirstArtistId`) |
| `Services.SearchYoutube` | backend/services.py:8-28 | the loop returns exactly the specified search output |
| `Services.FirstEight` | backend/services.py:61 | `results[:8]`: the prefix of exactly eight songs, or the whole list when it is shorter |
| `Services.ArtistScan` | backend/services.py:49-68 | the artist path yields tracks only when the last play has a truthy artist id and the artist lookup succeeded |
| `Services.ArtistPathAtMostEight` | backend/services.py:61-68 | the artist path yields at most 8 tracks |
| `Services.HomeTracksMeaning` | backend/services.py:53-94 | the artist path's tracks are the first eight songs of the artist page's `songs` section, else its `singles` section (`ArtistSongs`), with a truthy videoId, reshaped in order (`HomeSong`, field by field: id, title, first artist's name or the last played artist, last thumbnail url or ''); all of them when the loop did not raise, otherwise those before the song that raised; the hits path's tracks likewise from the hits with "Różni wykonawcy" as fallback name, all of them when the hits loop did not raise |
| `Services.HomeTitleMeaning` | backend/services.py:69-94 | "Ponieważ słuchasz <artist>" iff the artist path built tracks without raising; the hits title iff the artist path built nothing and the hits loop finished; "" iff the artist loop raised after building something; otherwise the failure title, with whatever tracks were built |
| `Services.ArtistPageOnlyWithArtistId` | backend/services.py:49 | without a truthy artist id in the last play the artist page is never consulted and the title is never empty |
| `Services.GetHomeContent` | backend/services.py:36-94 | the two loops return exactly the specified home section |
| `Database.Activated` | backend/database.py:97 | rows holding the token become verified and lose the token; other rows and all usernames, emails, hashes and ids are unchanged |
| `Database.ActivationIsOneShot` | backend/database.py:95-101 | after an activation no row holds the token, so activating again matches nothing and changes nothing |
| `Database.FindUser` | backend/database.py:89 | the lookup finds nothing iff no row has the username, and otherwise a row of the table with that username |
| `Database.Db.constructor` | backend/database.py:32-72 | a fresh database has four empty tables |
| `Database.Db.VerifyUser` | backend/database.py:87-93 | returns a row iff a user with the username exists whose stored hash verifies the password, and that row is the user's |
| `Database.Db.CreateUser` | backend/database.py:74-85 | a taken username or email gives False with the table unchanged; otherwise one unverified row with the hash of the password, the email and the token is appended under the next id, and that user then verifies with the password |
| `Database.Db.ActivateUser` | backend/database.py:95-101 | True iff some row held the token; the table becomes the activated table, in which no row holds the token |
| `Database.Db.AddPlaylist` | backend/database.py:104-108 | appends exactly one playlist row under the next id; the frame keeps every other table |
| `Database.Db.AddSongToPlaylist` | backend/database.py:110-115 | appends exactly one song row with the request's fields; the frame keeps every other table |
| `Database.Db.AddHistoryEntry` | backend/database.py:117-122 | appends exactly one history row with `artist` as artist_name and `artist_id` (None when absent) as artist_id; the frame keeps every other table |

## Left out

- DOM and UI of the client: templating, modals, tabs, the auth form, the sliders and `mediaSession` wiring. Only the play button's icon and the audio element's source, paused flag and position are kept.
- Asynchrony of the client: each awaited reply is applied at the point the handler awaits it. Interleavings of slow replies are not modelled, nor the fire-and-forget history request's own outcome, nor the `setTimeout` debounce of suggestions.
- `Player.App.PlayNext`: the random index is any index in range. The floating-point distribution of `Math.floor(Math.random() * n)` is not modelled.
- `Text.FormatTime`: takes whole seconds or NaN. Fractional positions, whose floor the source prints, are not modelled.
- `Player.App.RefreshLikedTracks`: a list whose element lacks `songs` throws part-way through the walk, leaving a partly rebuilt liked set and table. Only well-formed lists and non-lists are modelled.
- `Player.App.HandleSearch`: a body that is not a list is stored as it is. The model stores the empty list, because the client reads only its `length`, which is then undefined and so never positive.
- `Text.EscapeHtml`: takes a string or nothing. A non-string argument, on which `.replace` would throw, is not modelled.
- `localStorage` session handling and `handleAuthAction`, which are browser persistence and HTTP glue.
- backend/main.py is not part of this model. It holds FastAPI routing, SMTP mail, IP discovery, and the endpoints that map database results to status codes.
- `get_stream_url`, `get_download_info` and `get_suggestions` wrap foreign libraries. The music service's calls are inputs.
- `Services.SearchResults` and `Services.HomeContent`: a key present with a JSON null value is treated as absent where `.get` is used. Where `[...]` is used, the null that Python would pass through is not modelled.
- `Services.HomeContent`: the last-played row is an input. The `ORDER BY played_at` query and its timestamp ties are SQLite details. So is closing the connection.
- `Database.Db`: bcrypt is an abstract pair of functions that is only assumed sound. Its resistance to collisions is not modelled. Neither are the `CURRENT_TIMESTAMP` defaults, the connection lifecycle, or NULL usernames and emails, which no caller passes.
