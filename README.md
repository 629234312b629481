# ADO Music: a Dafny model of its request rules and view state

ADO Music is a small web application with two parts:

- a FastAPI backend (`backend/main.py`) that stores songs and news posts in Supabase;
- a React frontend that lists and plays the songs (`App.jsx`), shows the news (`News.jsx`) and talks to the backend through `api.js`.

This project models the statable rules of those four files:

- tag parsing;
- file-extension checks and the storage path and content type derived from them;
- the precedence of the news listing filters;
- how the PATCH endpoints build their update sets;
- the query the news page asks for;
- the card text helpers and the category colour and icon lookups;
- the song filter and the single active card;
- the mm:ss labels;
- the upload guard and the admin gate;
- the song list cache;
- the upload form;
- the play/pause state of a song card.

Modules:

- `Basics`: Option and Result.
- `Text`: Python's `strip`/`split`/`lower`/`Path.suffix`, JavaScript's `trim` and UTF-16 strings, and decimal numerals with zero padding.
- `Records`: the Song, NewsPost and NewsCategory records.
- `Seqs`: filter and map over sequences.
- `Backend`: the endpoints of `main.py`. Supabase, `uuid4` and the clock become parameters.
- `Api`: `api.js`. The `SongsCache` class holds the localStorage map that `getSongs` reads and writes.
- `NewsView`: `News.jsx`. The `NewsPage` class holds the filter and create-form state.
- `SongsApp`: `App.jsx` outside the song card. The `App` class holds the form, view, admin and current-song state.
- `Playback`: the `SongCard` class, holding the playing flag and the state of its audio element, and the mount and unmount that every render of `App` causes.

The backend's pure rules are functions with lemmas. The two PATCH endpoints build their update dictionaries step by step. They are methods, proved against a predicate that says which columns the update set holds. The stateful parts of the frontend are classes whose methods state their whole new state.

## Model

| member | source | states |
|---|---|---|
| Text.TrimBy | backend/main.py:296 | the result is the input with a run of spaces removed from each end, and it neither starts nor ends with a space |
| Text.TrimIdempotent | backend/main.py:296 | trimming a trimmed string changes nothing |
| Text.PyStrip | backend/main.py:296 | `str.strip()` leaves no Python whitespace at either end |
| Text.PyStripFixed | backend/main.py:296 | strip leaves a string unchanged exactly when it has no whitespace at either end |
| Text.JsTrim | frontend/src/App.jsx:30 | `String.trim()` leaves no JavaScript white space or line terminator at either end |
| Text.Split | backend/main.py:296 | `split(',')` gives at least one piece |
| Text.SplitPiecesFree | backend/main.py:296 | no piece of a split holds the separator |
| Text.JoinSplit | backend/main.py:296 | joining the pieces of a split with the separator gives back the string |
| Text.JoinAppend | backend/main.py:296 | joining two non-empty lists of pieces one after the other puts one separator between the two joins |
| Text.SplitJoin | backend/main.py:296 | splitting the join of separator-free pieces gives back those pieces |
| Text.SplitConcat | backend/main.py:296 | splitting around one separator splits each side separately |
| Text.Lower | backend/main.py:139 | `lower()` keeps the length and lowers each letter A-Z in place |
| Text.LastIndexOf | backend/main.py:162 | the last position holding the character, or -1 when none does |
| Text.LastIndexOfAt | backend/main.py:162 | a position holding the character with none after it is the last index |
| Text.NameStart | backend/main.py:162 | the final path component starts just after a '/' (or at the start) and holds no '/' |
| Text.PathSuffix | backend/main.py:162 | `Path.suffix` is empty or starts with '.', is a tail of the path and is strictly shorter than the final component |
| Text.Utf16 | frontend/src/News.jsx:135-136 | a JavaScript string is at least as long, in code units, as the text has characters |
| Text.Utf16Bmp | frontend/src/News.jsx:135-136 | within the Basic Multilingual Plane the encoding is one unit per character, holding its code |
| Text.Utf16Append | frontend/src/News.jsx:135-136 | the encoding of a concatenation is the concatenation of the encodings |
| Text.AstralCountsTwice | frontend/src/News.jsx:135 | a character outside the Basic Multilingual Plane adds two units to the length |
| Text.NatToString | frontend/src/App.jsx:56-57 | `toString()` of a whole number is a decimal numeral without leading zero that reads back as the number |
| Text.PadStart | frontend/src/App.jsx:56-57 | `padStart` gives the wider of the string and the width, ends with the string, and fills the front with the fill character |
| Text.LeadingZeros | frontend/src/App.jsx:56-57 | leading zeros do not change the value of a numeral |
| Seqs.Filter | frontend/src/App.jsx:172 | `Array.filter` keeps in order exactly the elements that pass, each as often as in the input |
| Seqs.FilterKeepsAll | frontend/src/App.jsx:172 | filtering with a test every element passes gives back the list |
| Backend.ParseTags | backend/main.py:296 | no parsed tag is empty and every tag equals its own strip; an empty tags string gives no tags |
| Backend.ParseTagsStripped | backend/main.py:296 | every parsed tag is non-empty and fixed by strip |
| Backend.ParseTagsOfSplit | backend/main.py:296 | the tags are the stripped non-empty comma pieces, left to right |
| Backend.ParseTagsConcat | backend/main.py:296 | the tags of `a,b` are the tags of a followed by the tags of b |
| Backend.ParseTagsJoin | backend/main.py:296 | a list of clean tags without commas, joined with ',', parses back to itself |
| Backend.AudioObject | backend/main.py:139-150 | the song file is accepted iff its lowered name ends in ".mp3"; then it goes to bucket songs at "{id}.mp3" as audio/mpeg; otherwise error 400 |
| Backend.MatchedExtension | backend/main.py:160 | some extension matches iff the name ends with one of them, and the one returned is in the list and ends the name |
| Backend.CoverObjectAsWritten | backend/main.py:160-169 | the cover is accepted iff its lowered name ends in .jpg, .jpeg or .png |
| Backend.CoverObject | backend/main.py:160-169 | accepted iff the lowered name ends in .jpg/.jpeg/.png, else 400 with the source's message; the path is "{id}" plus the lowered extension, typed image/jpeg for .jpg/.jpeg and image/png otherwise |
| Backend.NewsImageObjectAsWritten | backend/main.py:280-289 | the image is accepted iff its lowered name ends in .jpg, .jpeg, .png or .webp |
| Backend.NewsImageObject | backend/main.py:280-289 | accepted iff the lowered name ends in .jpg/.jpeg/.png/.webp, else 400; the path is "news/{id}" plus the extension, typed "image/" plus the extension without its dot |
| Backend.ExtensionTail | backend/main.py:162 | a name whose lowered form ends in an extension has that extension's letters, with no dot or '/', at its end |
| Backend.NameHoldsExtension | backend/main.py:160-162 | the final path component of such a name contains the whole extension tail |
| Backend.LastDotOfTail | backend/main.py:160-162 | in such a name the last dot is the extension's dot |
| Backend.LongNameNotExtension | backend/main.py:160-162 | a final component longer than its extension tail, lower-cased, is not itself an extension |
| Backend.SuffixOfTail | backend/main.py:162 | `Path.suffix` of a name ending in an extension tail is that tail, except when the whole final component is the tail, where the suffix is empty |
| Backend.SuffixAgainstExtensions | backend/main.py:160-162 | for an accepted name, the lowered suffix is the matched extension, or empty when the final component is itself an extension |
| Backend.DotFileSuffix | backend/main.py:160-162 | a name whose final component is an extension passes the check and has an empty suffix |
| Backend.CoverExtensionsValid | backend/main.py:160 | each accepted cover extension is a dot followed by letters |
| Backend.NewsImageExtensionsValid | backend/main.py:280 | each accepted image extension is a dot followed by letters |
| Backend.LowerNameEndsName | backend/main.py:160-162 | the lowered name ends with the lowered final component |
| Backend.CoverAsWrittenAgrees | backend/main.py:160-169 | unless the final component is exactly an extension, the code as written and the corrected cover rule agree |
| Backend.CoverDotFileAsWritten | backend/main.py:160-169 | a cover named exactly like an extension is stored at "{id}" as image/png as written, and at a different path when corrected |
| Backend.CoverPathExtends | backend/main.py:160-163 | an accepted cover is stored under the song id followed by at least four more characters |
| Backend.CoverDotJpgIntended | backend/main.py:160-169 | with the corrected rule a cover named ".jpg" is stored as "{id}.jpg", typed image/jpeg |
| Backend.CoverDotJpgExample | backend/main.py:160-169 | a cover named ".jpg" gives "{id}" as image/png as written, and "{id}.jpg" as image/jpeg when corrected |
| Backend.NewsImageAsWrittenAgrees | backend/main.py:280-289 | unless the final component is exactly an extension, the image rule as written and corrected agree |
| Backend.NewsImageTypeNamed | backend/main.py:280-289 | an accepted news image gets a content type longer than "image/", naming its format |
| Backend.NewsImageDotFileAsWritten | backend/main.py:280-289 | an image named exactly like an extension is stored at "news/{id}" typed "image/" as written; the corrected type is not "image/" |
| Backend.UploadSong | backend/main.py:129-188 | the upload succeeds iff the file is .mp3, the audio upload works, and any cover has an accepted extension and uploads; a non-.mp3 file stores nothing and gives 400, a failed audio upload stores nothing and gives 500, a rejected cover gives 400 and a failed cover upload 500 after the audio was stored; on success the audio object comes first, the cover object (by the corrected rule) second, and the row holds the id, title, "{id}.mp3", that cover's path and public URL iff a cover was sent, the description as sent and the category defaulting to "original" |
| Backend.SongOf | backend/main.py:188 | the returned Song carries the row's id, audio URL and cover URL |
| Backend.ReplaceZulu | backend/main.py:300 | after `replace('Z', '+00:00')` no 'Z' is left, nothing got shorter, and a date without 'Z' is passed on unchanged |
| Backend.ReplaceZuluAppend | backend/main.py:300 | the replacement works character by character: on a + b it is the replacement on a followed by the one on b, so every other character keeps its place |
| Backend.ZuluSuffix | backend/main.py:300 | a date ending in 'Z' ends in "+00:00" instead, the rest kept |
| Backend.CreateNewsPost | backend/main.py:259-323 | creation succeeds iff any image is accepted and uploaded and the date parses; the post carries the given id, the sent title, content, excerpt, category, source URL and name, author and featured flag, the parsed tags, the parsed date and both timestamps; the stored object is the image (by the corrected rule) iff one was sent, and the post's image URL is its public URL; a rejected image gives 400 and a failed upload 500, both storing nothing; a bad date gives 400 after the image was stored |
| Backend.NewsQueryFor | backend/main.py:328-333 | the featured query runs iff featured is true; the category query runs iff featured is not true and the category is non-empty, and then for that category |
| Backend.ListNewsFeaturedWins | backend/main.py:328-333 | with featured true the category does not matter, and exactly the featured posts are listed, in table order |
| Backend.ListNewsByCategory | backend/main.py:328-333 | without featured, a non-empty category lists exactly the posts of that category, in table order |
| Backend.ListNewsAll | backend/main.py:328-333 | with neither filter every post is listed |
| Backend.ListNews | backend/main.py:325-335 | the listed posts are those of the table the query selects, each as often as in the table and in table order |
| Backend.ColumnNamesDistinct | backend/main.py:228-249 | the column names are distinct, so a map keyed by column is the dictionary keyed by name |
| Backend.SongFieldUpdates | backend/main.py:228-231 | the title and category go in the update set only when non-empty, the description whenever it was sent, and nothing else |
| Backend.AddCoverUpdates | backend/main.py:248-249 | adding the new cover's path and URL to the field set gives the update set for that cover |
| Backend.PlanSongUpdate | backend/main.py:224-252 | an unknown song gives 404 and a cover with a wrong extension gives 400; otherwise the update set is the one IsSongUpdateSet describes, the new cover is uploaded to the corrected path, the old cover path (when set) is removed, and the table is written iff the set is non-empty |
| Backend.SongPatchEffect | backend/main.py:228-231 | after the update, title and category are the sent ones when non-empty and otherwise unchanged (so never blanked), the description is the sent one when sent, and id, audio and unsent cover stay |
| Backend.SongUpdateSetUnique | backend/main.py:228-249 | the request determines the update set |
| Backend.EmptySongPatchWritesNothing | backend/main.py:251-252 | a PATCH that sends nothing has an empty update set, so the table is not written |
| Backend.ApplySongUpdates | backend/main.py:252 | the table update keeps the id and the audio, leaves the row as it was for an empty set, and writes a sent title and cover URL |
| Backend.NewsTextUpdates | backend/main.py:364-369 | updated_at is always set; title, content and category only when non-empty; excerpt whenever sent |
| Backend.AddNewsOtherUpdates | backend/main.py:370-376 | source URL, source name, author, featured flag and parsed tags are added whenever sent, and the earlier entries are kept |
| Backend.NewsFieldUpdates | backend/main.py:364-376 | the whole field part of the news update set, as IsNewsFieldSet describes |
| Backend.PlanNewsUpdate | backend/main.py:360-398 | an unknown post gives 404 and an image with a wrong extension gives 400; otherwise the update set is the field set plus the image URL when an image was sent, the image goes to the corrected path, and the table is written iff the set is non-empty |
| Backend.NewsPatchAlwaysWrites | backend/main.py:364-398 | the news update set is never empty, so the table is always written; a PATCH that sends nothing sets updated_at alone |
| Api.BaseUrl | frontend/src/api.js:2 | the default when VITE_API is unset, empty or "/"; a value not ending in '/' is kept; a longer value ending in '/' loses exactly that one '/' |
| Api.BaseUrlStripsOneSlash | frontend/src/api.js:2 | only one trailing slash is removed |
| Api.SongFileUrl | frontend/src/api.js:41-43 | the file URL is the base, "/songs/", the id and "/file" (12 characters around the id) |
| Api.SongCoverUrl | frontend/src/api.js:45-47 | the cover URL is the base, "/songs/", the id and "/cover" (13 characters around the id) |
| Api.IdInsideUrl | frontend/src/api.js:41-47 | the id can be read back at a fixed place in either URL |
| Api.SongUrlsInjective | frontend/src/api.js:41-47 | different ids give different file URLs and different cover URLs |
| Api.FileUrlIsNotCoverUrl | frontend/src/api.js:41-47 | no file URL equals a cover URL |
| Api.CacheLookup | frontend/src/api.js:9-15 | a hit returns the data of the stored entry; an absent or unparsable entry is a miss, with no error |
| Api.CacheWriteThenRead | frontend/src/api.js:12-21 | an entry written at t is served exactly while now < t + 600000, so an entry exactly ten minutes old is a miss |
| Api.CacheWithoutTsMisses | frontend/src/api.js:11-12 | an entry without a timestamp is a miss |
| Api.SongsCache.GetSongs | frontend/src/api.js:7-24 | a hit returns the cached data with no request and no write; a miss fetches API + "/songs"; a failed or non-ok response is an error and leaves the cache as it was; an ok response returns the body and writes {ts: now, data} when storage accepts it |
| Api.ReceivedSongUpload | backend/main.py:130-135 | the backend accepts a form only when a title and a file are present |
| Api.FirstValue | backend/main.py:131-135 | a value is found iff a field of that name was sent |
| Api.FirstValueIsFirst | backend/main.py:131-135 | the value found is that of the first field of the name (FastAPI reads the last, see Left out) |
| Api.UploadFields | frontend/src/api.js:27-31 | the form always starts with the title and the file, and has one more field for a cover and one more for a non-empty description |
| Api.UploadFieldsReceived | frontend/src/api.js:27-31 | the backend receives the title, the file, the cover iff one was sent and the description iff it was non-empty |
| Api.UploadForm | frontend/src/api.js:27-31 | the form built field by field is the one UploadFields describes |
| Api.UploadSong | frontend/src/api.js:26-39 | the posted form is the one UploadFields describes; a rejected fetch passes its error on, an ok response gives the created song and any other response gives "Error al subir canción" |
| NewsView.SerializeEmpty | frontend/src/News.jsx:55-57 | the query string is empty exactly when no parameter was appended |
| NewsView.EncodePair | frontend/src/News.jsx:55-57 | a serialized pair holds the '=' between name and value |
| NewsView.SerializeParams | frontend/src/News.jsx:55-57 | no pairs give the empty query, and one pair gives name=value with no '&' |
| NewsView.NewsParams | frontend/src/News.jsx:49-53 | at most one parameter is appended |
| NewsView.NewsRequest | frontend/src/News.jsx:46-57 | the URL is exactly base + "/news" with no '?' when not featured and the category is 'all'; with featured it carries only featured=true; otherwise only the category |
| NewsView.NewsRequestSelects | frontend/src/News.jsx:49-53 | the backend runs the featured query when featured is shown, the category query for a selected non-empty category, and lists all posts otherwise |
| NewsView.TruncateText | frontend/src/News.jsx:134-137 | counting UTF-16 code units, text that fits is returned unchanged; longer text becomes exactly its first maxLength units (none for a negative maxLength) followed by "...", at most maxLength + 3 units long |
| NewsView.AstralTextIsCut | frontend/src/News.jsx:134-137 | 149 characters and one character outside the Basic Multilingual Plane are 151 units, so the text is cut |
| NewsView.TruncateIdempotent | frontend/src/News.jsx:134-137 | truncating twice is truncating once |
| NewsView.CardExcerpt | frontend/src/News.jsx:275 | the card shows the excerpt when it is non-empty, and otherwise the content truncated to 150 units, at most 153 units |
| NewsView.CardTags | frontend/src/News.jsx:287 | the card shows the first min(3, n) tags |
| NewsView.FindCategory | frontend/src/News.jsx:140 | `find` gives the first category with that name, or none when no category has it |
| NewsView.CategoryColor | frontend/src/News.jsx:139-142 | the colour is never empty |
| NewsView.CategoryIcon | frontend/src/News.jsx:144-147 | the icon is never empty |
| NewsView.CategoryLookupFirstMatch | frontend/src/News.jsx:139-147 | the colour and icon are those of the first category with that name, or the defaults '#8b5cf6' and the newspaper emoji when they are empty |
| NewsView.CategoryLookupNoMatch | frontend/src/News.jsx:139-147 | without a matching category the defaults are used |
| NewsView.NewsPage.constructor | frontend/src/News.jsx:7-24 | the page starts with category 'all', featured off, the modal closed and the empty form |
| NewsView.NewsPage.ClickAll | frontend/src/News.jsx:196-201 | category 'all' and featured off, keeping the exclusivity invariant |
| NewsView.NewsPage.ClickFeatured | frontend/src/News.jsx:205-210 | featured on and category 'all', keeping the invariant |
| NewsView.NewsPage.ClickCategory | frontend/src/News.jsx:218-225 | that category and featured off, keeping the invariant |
| NewsView.NewsPage.OpenCreate | frontend/src/News.jsx:182-185 | only the admin can open the create modal |
| NewsView.NewsPage.CloseCreate | frontend/src/News.jsx:383-388 | closing the modal keeps the form |
| NewsView.NewsPage.EditForm | frontend/src/News.jsx:407-418 | an input replaces the form and nothing else |
| NewsView.NewsPage.FinishCreate | frontend/src/News.jsx:110-127 | after a successful create the modal is closed, the form is back to its initial value and the list is fetched again; after a failure nothing changes |
| NewsView.FiltersExclusive | frontend/src/News.jsx:49-53 | in a valid page state the highlighted button is the request sent: "All" iff no parameter, "Featured" iff featured=true with no category button highlighted beside it, a category button iff that category is requested (a category named "all" aside) |
| SongsApp.VisibleAll | frontend/src/App.jsx:172 | filter 'all' lists the whole song list |
| SongsApp.VisibleSongs | frontend/src/App.jsx:172 | the listed songs are those the filter passes ('all', or the song's category), each as often as in the list and in list order |
| SongsApp.VisibleByCategory | frontend/src/App.jsx:172 | any other filter lists exactly the songs of that category, each as often as in the list, in original order |
| SongsApp.SongsWithCover | frontend/src/App.jsx:178 | the artworks view lists only songs with a non-empty cover URL |
| SongsApp.NoneActive | frontend/src/App.jsx:173 | when no listed song is the current one, no card is active |
| SongsApp.AtMostOneActive | frontend/src/App.jsx:173 | with distinct ids at most one card is active, and none when there is no current song |
| SongsApp.ActiveCountFilter | frontend/src/App.jsx:172-173 | filtering never adds an active card |
| SongsApp.OneActiveCard | frontend/src/App.jsx:172-173 | whatever the filter, at most one listed card is active, and none without a current song |
| SongsApp.SecondsToMinSec | frontend/src/App.jsx:55-59 | the label has at least five characters with ':' third from the end |
| SongsApp.PaddedValue | frontend/src/App.jsx:56-57 | a padded numeral is all digits and keeps its value |
| SongsApp.MinSecShape | frontend/src/App.jsx:55-59 | the label is the padded minutes, ':', and the padded seconds |
| SongsApp.ParseJoined | frontend/src/App.jsx:58 | minutes, ':' and two digits of seconds below 60 read back as those two numbers |
| SongsApp.MinSecRoundTrip | frontend/src/App.jsx:55-59 | the label reads back as the whole minutes sec / 60 and the remaining seconds sec % 60 |
| SongsApp.SubmitCall | frontend/src/App.jsx:30-32 | an upload call happens iff the trimmed title is non-empty and an mp3 file is chosen, with the trimmed title, the files and the trimmed description |
| SongsApp.App.constructor | frontend/src/App.jsx:6-17 | the app starts on the songs view with filter 'all', not admin, an empty form and no current song |
| SongsApp.App.SetCurrentSong | frontend/src/App.jsx:173 | onPlay makes the song current and changes nothing else |
| SongsApp.App.ClearForm | frontend/src/App.jsx:34-37 | title, files and description are emptied and the rest of the state is kept |
| SongsApp.App.HandleSubmit | frontend/src/App.jsx:28-43 | a blank title or a missing mp3 file makes no call and changes nothing; a successful upload clears title, files and description, reloads and shows the songs; a failed one keeps the form |
| SongsApp.App.DoLogin | frontend/src/App.jsx:45-53 | the password 'ado2025' makes the user admin and opens the upload view; any other answer leaves admin and view unchanged |
| SongsApp.SubmittedUploadReceived | frontend/src/App.jsx:32 | the backend receives the trimmed title, the files, and the description only when it is non-empty after trimming |
| Playback.SongCard.constructor | frontend/src/App.jsx:63-86 | a card mounts not playing, and starts its track when mounted active |
| Playback.SongCard.Play | frontend/src/App.jsx:75-76 | play() makes the element audible with one more pending promise |
| Playback.SongCard.Pause | frontend/src/App.jsx:82 | pause() silences the element and rejects the pending promises |
| Playback.SongCard.Unmount | frontend/src/App.jsx:61-135 | a card removed by a render of App is silent and its pending play() promises are rejected |
| Playback.SongCard.TogglePlay | frontend/src/App.jsx:88-105 | an inactive card only requests onPlay(song) and leaves playing alone; an active playing card pauses, sets playing false and requests onPlay(null); an active paused card starts the track; the card invariant is kept |
| Playback.SongCard.SetActiveAsWritten | frontend/src/App.jsx:71-86 | the effect on a card that stays mounted: activation starts a non-playing card; deactivating a playing card pauses it and sets playing false; deactivating a card whose play() is still pending changes nothing |
| Playback.SongCard.PlayResolvedAsWritten | frontend/src/App.jsx:75 | the resolved play() sets playing true whether or not the card is still active, and keeps a consistent card consistent, since a pending play() is on an audible, active card |
| Playback.SongCard.SetActive | frontend/src/App.jsx:71-86 | an effect pausing on every deactivation keeps a card that stays mounted consistent, ending where the remount ends |
| Playback.SongCard.PlayResolved | frontend/src/App.jsx:75 | a callback setting playing only on an active card keeps the card invariant; on consistent cards it agrees with the callback as written |
| Playback.SongCard.Ended | frontend/src/App.jsx:76 | the end of the track sets playing false, silences the element and requests onPlay(null) |
| Playback.PickAnotherSongWhileStarting | frontend/src/App.jsx:61-86 | picking another song while a track is starting remounts the cards: the removed card falls silent with no pending play(), and the card shown in its place is inactive, silent and not playing |
| Playback.DeactivateWhileStarting | frontend/src/App.jsx:71-86 | on one card that stays mounted, with the pausing effect, the same trace ends silent, not playing and with no pending play(), as the program does |

## Left out

- Supabase storage and table calls, `uuid4`, `datetime.now()`, `datetime.fromisoformat` and `get_public_url` are not modelled. They become parameters: the id, the timestamps, a date parser, a URL builder and the failure messages of uploads.
- The order of query results (`created_at` and `published_date` descending) is not modelled. Backend.ListNews takes the table already in that order and keeps it.
- `GET /songs`, `GET /songs/{id}`, the `/file` and `/cover` redirects, `GET /news/{id}`, `DELETE /news/{id}` and the category and tag endpoints are not modelled. They are lookups and inserts with no rule beyond "404 when missing".
- `backend/populate_news.py` is seed data and is not part of this model.
- Pydantic validation is not modelled, and FastAPI's form parsing only as far as Api.ReceivedSongUpload reads the fields `uploadSong` sends. Form values arrive at the endpoints as Option values, as the framework hands them over. An empty form string that the framework may turn into None is taken as sent.
- Api.FirstValue: reads the first field of a name, where a FastAPI form parameter reads the last. The forms `uploadSong` builds never repeat a name, so the two agree on them.
- FastAPI's boolean parsing is only used to connect the news page's query to the backend dispatch. NewsView.QueryBool lists the accepted spellings.
- NewsView.TruncateText: works on UTF-16 code units, as `length` and `substr` do. How a surrogate half left by the cut is rendered is not modelled.
- Text.Lower: maps only A-Z. Python's `str.lower` also lowers non-ASCII letters, and Unicode case mapping is outside the model.
- Text.PyStrip and Text.JsTrim use the whitespace sets of `str.isspace` and of ECMAScript's WhiteSpace and LineTerminator, written out as character sets.
- URLSearchParams percent-encoding is not modelled. It is a parameter `encode` of NewsView.NewsRequest.
- JSON parsing of the cache entry is abstracted into Api.Stored. An entry that does not parse is `Unusable`. The shapes of parsed JSON beyond `ts` and `data` are not modelled.
- A failing `res.json()` in `getSongs` and `uploadSong` is not modelled.
- `fetch` and `localStorage` are not modelled. They become parameters: the response, the two `Date.now()` values, and whether `setItem` throws.
- `handleCreateNews` (News.jsx:85-108) is not modelled beyond its outcome. That covers its FormData field list, the `published_date` it sends and `fetchCategories`. The loading and error flags, the selected-post modal, `formatDate` and the HTML content rendering are left out too.
- SongsApp.SecondsToMinSec: takes whole, non-negative seconds. The source floors floating-point seconds, and floating point is outside the model.
- Playback: progress, duration, volume, `seek` and `handleTimeUpdate` are not modelled (floating point). The audio element is taken to be present, so the `if (!audio) return` branches are not modelled. An effect runs right after the state change that triggers it. Which cards exist on the page, and how several cards interact through the current song, is stated on values in SongsApp and not on SongCard objects.
- Playback.SongCard: the class models one card instance. `SongCard` is declared inside `App` (App.jsx:61), so every render of `App` (a new current song, filter, view or volume) unmounts every card and mounts a new one; Unmount and the constructor model that, and PickAnotherSongWhileStarting follows the program's trace. The change branch of the `[active]` effect (SetActiveAsWritten) therefore never runs on a live card; it is kept as the effect's transcription.
- Playback.SongCard.Play: always makes the element audible. A play() promise rejected by the browser (an autoplay policy, a source that fails to load) is not modelled: the source attaches no handler for the rejection, so the card would stay not playing over a silent element.
- `alert`, `prompt`, `e.target.reset()` and the reload `cargar()` are not modelled. The prompt's answer is a parameter of DoLogin, and the reload is the `reload` result of HandleSubmit.
- The admin password is modelled as a state transition only, not as a security mechanism.
- Backend.UploadSong, Backend.CreateNewsPost, Backend.PlanSongUpdate and Backend.PlanNewsUpdate use the corrected cover and image rules (Backend.CoverObject, Backend.NewsImageObject). They differ from the code only for a file named exactly like an accepted extension, such as ".jpg"; Backend.CoverAsWrittenAgrees and Backend.NewsImageAsWrittenAgrees prove that every other name is stored as the code stores it (see Findings).
- Backend.UploadSong: stores a dot-file cover at "{id}.jpg" as image/jpeg, where `upload_song` stores it at "{id}" as image/png.
- Backend.CreateNewsPost: stores a dot-file image at "news/{id}.webp" (for ".webp") typed "image/webp", where `create_news_post` stores it at "news/{id}" typed "image/".
- Backend.PlanSongUpdate: uploads a dot-file cover to the corrected path, where `update_song` uses "{id}" and image/png.
- Backend.PlanNewsUpdate: uploads a dot-file image to the corrected path, where `update_news_post` uses "news/{id}" and "image/".
- Facts about the code that the model keeps:
  - `uploadSong` does not clear the song-list cache, so `getSongs` may answer from an entry younger than ten minutes that lacks the new song.
  - The upload form has no category field, so the backend stores the default "original".
  - The `onended` handler only clears `playing` and the current song; it does not reset the progress.

## Findings

| source | as written | input that shows it | evidently intended | confidence | as-written member | corrected member |
|---|---|---|---|---|---|---|
| backend/main.py:160-169 | A cover file named exactly ".jpg", ".jpeg" or ".png" (any case) passes the `endswith` check. `Path(...).suffix` is then empty, because a leading dot starts a hidden name. So the cover is stored at "{id}" and typed image/png. `update_song` (235-245) repeats the code. | cover file name ".jpg", song id "s1": path "s1", type image/png | path "s1.jpg", type image/jpeg: the extension that passed the check | not executed | Backend.CoverDotJpgExample | Backend.CoverObject |
| backend/main.py:280-289 | An image file named exactly ".jpg", ".jpeg", ".png" or ".webp" passes the check, but its suffix is empty. So it is stored at "news/{id}" with the content type "image/". `update_news_post` (380-393) repeats the code. | image file name ".webp", post id "p1": path "news/p1", type "image/" | path "news/p1.webp", type "image/webp" | not executed | Backend.NewsImageDotFileAsWritten | Backend.NewsImageObject |
