# Zaia: a verified model of the playback client and the extraction helpers

Zaia is a mobile client for a summarization and journaling service, backed by a FastAPI server and a Python extraction service. This project models in Dafny the parts of that system that hold real logic, and proves properties of the model.

**Mobile client**
- `ApiService`, `Audio`, `ItemsScreen` and `RowItem` model the authenticated REST layer: the bearer token, one refresh and one resend on HTTP 401 (section 2.1 of RFC 6750, section 4.3 of RFC 6749), and the `download_mp3` file cache.
- The same modules model the "play all" queue of the items screen, which downloads, decodes, plays and marks items done one after another, and the per-row player.
- `MultiItemsScreen` models the grouping of extracted sub-items by name.
- `AddEditTopicScreen` models the topic form and the payload it sends.

**Backend**
- `MainApp` models the MongoDB filters, the per-topic counts, topic updates, the refresh-token round trip, users and journal entries of `api/main_app.py`.

**Extraction service**
- `ApiClient` models the REST client with its one refresh-and-resend.
- `WebExtractor` models the scheduler's due rules and the records it inserts.
- `WebSearchExtractor` models the de-duplicating search-and-extract loop.
- `NewsClients` models the de-duplication by description.
- `Extractor` models the url rewrite, prompts and chunked summaries.
- `Timestamp` models `unix_to_iso8601` (section 5.6 of RFC 3339).

**One-off scripts**
- `BookmarksExtractor` models the bookmark walk and the batched inserts.
- `TtsScript` models abbreviation expansion and missing-audio upload.

**How it is modelled**
- Code that updates state in place is modelled as classes. Their methods are proved against specification functions of the old state: `Client`, `AudioEngine`, `Screen`, `Row`, `Backend`, `Form`, `Service`, and the loops of the scripts.
- The properties are lemmas about those functions.
- The collaborators are parameters or oracles: the network, EncryptedStorage, the file system, the audio decoder, MongoDB, the clock, `uuid4`, bcrypt, SHA-256, the language model, the speech engine and S3.
- Python exceptions that escape a function become explicit outcomes.

**Behaviour kept as written**
- `RowItem` takes an `onSoundPlay` prop (ui/Zaia/src/components/RowItem.js:9), which the items screen supplies (ui/Zaia/src/screens/ItemsScreen.js:343). No line of the row calls it, so the screen's `rowsCurrentSound` stays null and the queue and a row can each hold a live sound.
- The queue sets `playAllDisabled` when it starts a track (ui/Zaia/src/screens/ItemsScreen.js:128). It clears it only after a failed download or decode (ItemsScreen.js:138, 148) or in `closeAudio` (ItemsScreen.js:209). A queue that runs past its last item (ItemsScreen.js:121) leaves it set (`ItemsScreen.QueueEndKeepsDisabled`).
- `downloadMp3` tests for the file (ui/Zaia/src/services/APIService.js:344) and writes it much later (APIService.js:366). Nothing guards against two downloads of one file in flight, and the write is not atomic: a write that rejects part-way leaves a file that later calls take for a cached download (`ApiService.PartialWriteIsCacheHit`).
- After a failed download, the row calls `sound.release()` (ui/Zaia/src/components/RowItem.js:155) while its `sound` state is still null (RowItem.js:116), so `setError('Error downloading audio')` (RowItem.js:156) is never reached.

## Model

| member | source | states |
|---|---|---|
| Common.BeforeFirst | temp_bookmarks_extractor.py:92 | `s.split(sep)[0]` is the longest prefix of `s` without `sep`: it is all of `s` when `sep` is absent and is otherwise followed by `sep` |
| Common.AfterLast | temp_TTS_script.py:103 | `s.split(sep)[-1]` is the longest suffix of `s` without `sep`: all of `s` when `sep` is absent, otherwise preceded by `sep` |
| Common.Split | services/web_extractor/extractor.py:115-118 | `s.split(sep)` has at least one piece, none contains `sep`, and the first is `BeforeFirst(s, sep)` |
| Common.SplitJoin | services/web_extractor/extractor.py:115-118 | splitting `sep.join(parts)` gives the parts back when no part contains `sep` |
| Common.ReplaceRemovesKey | services/web_extractor/extractor.py:65 | `s.replace(key, repl)` leaves no occurrence of `key` when `repl` is non-empty and shares no character with `key` |
| Common.UpToFirst | services/web_extractor/web_extractor.py:210 | the calls made before an exception ends a loop: a prefix of all the calls in which only the last can raise; all of them when none raises, and otherwise ending at the first that raises |
| Common.FirstIndex | api/MongoDBLayer.py:72-90 | the index of the first element that satisfies the test, or the length when none does; every element before it fails the test |
| Audio.EmptyPlayer | ui/Zaia/src/components/RowItem.js:128 | the player before any `new Sound` holds no sound and is well formed |
| Audio.OpenResult | ui/Zaia/src/components/RowItem.js:128-140 | `new Sound` gives a handle exactly when the file decodes, a fresh one reporting the file's duration; a failed decode changes nothing |
| Audio.PlayResult | ui/Zaia/src/components/RowItem.js:143 | `play(cb)` on a loaded sound starts it and registers `cb` in place of any earlier callback; on a released sound it does nothing |
| Audio.PauseResult | ui/Zaia/src/components/RowItem.js:162 | `pause()` halts playback and keeps the position and callback |
| Audio.StopResult | ui/Zaia/src/screens/ItemsScreen.js:62 | `stop()` halts a loaded sound and rewinds it to 0, keeping it loaded |
| Audio.ReleaseResult | ui/Zaia/src/components/RowItem.js:155 | `release()` unloads the sound, stops it and drops its callback |
| Audio.SeekResult | ui/Zaia/src/components/RowItem.js:189 | `setCurrentTime(t)` moves a loaded sound to `t` and changes nothing else |
| Audio.FinishResult | ui/Zaia/src/components/RowItem.js:143-150 | when playback of a sound ends it stops playing and the callback registered by its last `play` is the one that runs |
| Audio.PlayAfterRelease | ui/Zaia/src/screens/ItemsScreen.js:62-63 | a released sound stays silent: playing it afterwards changes nothing |
| Audio.PlayReplacesCallback | ui/Zaia/src/screens/ItemsScreen.js:192 | a later `play` replaces the end callback of an earlier one |
| Audio.AudioEngine.constructor | ui/Zaia/src/components/RowItem.js:128 | the engine starts with no sound loaded |
| Audio.AudioEngine.Open | ui/Zaia/src/components/RowItem.js:128-140 | result and new state are those of `OpenResult` |
| Audio.AudioEngine.Play | ui/Zaia/src/components/RowItem.js:143 | new state is that of `PlayResult` |
| Audio.AudioEngine.Pause | ui/Zaia/src/components/RowItem.js:162 | new state is that of `PauseResult` |
| Audio.AudioEngine.Stop | ui/Zaia/src/screens/ItemsScreen.js:62 | new state is that of `StopResult` |
| Audio.AudioEngine.Release | ui/Zaia/src/components/RowItem.js:155 | new state is that of `ReleaseResult` |
| Audio.AudioEngine.SetCurrentTime | ui/Zaia/src/components/RowItem.js:189 | new state is that of `SeekResult` |
| Audio.AudioEngine.Finish | ui/Zaia/src/components/RowItem.js:143-150 | callback to run and new state are those of `FinishResult` |
| Timestamp.UnixToIso8601 | services/web_extractor/web_search_extactor.py:92-94 | the text is 20 characters long, and there is none where Python raises because the year leaves 1..9999 |
| Timestamp.Iso8601Shape | services/web_extractor/web_search_extactor.py:94 | the text has the shape `YYYY-MM-DDTHH:MM:SSZ` with digits in every field |
| Timestamp.Iso8601Denotes | services/web_extractor/web_search_extactor.py:92-94 | read back, the fields name a real date `ts / 86400` days after 1970-01-01 and a time of day of `ts % 86400` seconds: the text denotes the timestamp in UTC |
| Timestamp.CivilFrom | services/web_extractor/web_search_extactor.py:94 | the proleptic Gregorian date lying the given number of days after January 1 of a year: a real month and day, and counting back gives the days |
| Timestamp.MonthDay | services/web_extractor/web_search_extactor.py:94 | the month and day of a day of the year: a real date whose day count is the one given |
| Timestamp.PaddedNumber | services/web_extractor/web_search_extactor.py:94 | a zero-padded field reads back as its number when it fits its width |
| ApiService.RefreshResult | ui/Zaia/src/services/APIService.js:30-54 | with no stored tokens or an empty refresh token the result is null and nothing is sent; otherwise exactly the `/refresh` request is sent, and the result is the reply's `access_token` exactly when the reply arrives and is ok, null on a network failure or a non-ok reply; only that success rewrites the store, with the new access token and the old refresh token; the file cache is untouched |
| ApiService.FetchResult | ui/Zaia/src/services/APIService.js:56-88 | with no stored access token it throws "not authenticated" and sends nothing; otherwise the first request carries `Bearer <access token>` over the caller's headers, at most three requests are sent in all, the file cache is untouched and only the Authorization header of the caller's options changes |
| ApiService.NoRetryWithout401 | ui/Zaia/src/services/APIService.js:68-83 | a first reply other than 401 is returned as it is, whatever its status, after exactly one request |
| ApiService.RetryAfter401 | ui/Zaia/src/services/APIService.js:70-77 | after a 401 the refresh request is the second one sent and the resend with the new token the third; the resend's reply is returned even when it is another 401; a refresh that gives nothing throws without resending |
| ApiService.LoginResult | ui/Zaia/src/services/APIService.js:90-114 | exactly the token form request is sent; the result is non-null iff its reply is ok, and then both tokens of the body are stored; otherwise the store is unchanged |
| ApiService.LogoutResult | ui/Zaia/src/services/APIService.js:162-170 | the stored tokens are removed, so no later call is authenticated; files and the request log are unchanged |
| ApiService.StatusResult | ui/Zaia/src/services/APIService.js:187-209 | the status calls return true exactly when `fetchWithAuth` gave a response with status 200; unauthenticated means false with nothing sent; files are unchanged |
| ApiService.CommentsJson | ui/Zaia/src/services/APIService.js:194-197 | the body carries one `{text, date}` object per comment, in order |
| ApiService.DownloadResult | ui/Zaia/src/services/APIService.js:340-373 | a rejected `RNFS.exists` gives null with no request and no change; otherwise a cached file is returned with no request and no change; on a miss the download goes through `fetchWithAuth`: a failed request or a reply that is not ok gives null and writes nothing; after an ok reply the result is the cache path exactly when `RNFS.writeFile` succeeds, with the body written at the path, and a rejected write gives null, leaving no file or the partial file it wrote; no other file changes |
| ApiService.DownloadTwice | ui/Zaia/src/services/APIService.js:343-345 | after a successful download the same call is a cache hit (same path, nothing sent, nothing changed) unless `RNFS.exists` then rejects, which gives null |
| ApiService.PartialWriteIsCacheHit | ui/Zaia/src/services/APIService.js:343-371 | a write that rejects after leaving part of the file gives null, and the next call (when `RNFS.exists` answers) returns that partial file as a cache hit with no request |
| ApiService.ItemsParamsShape | ui/Zaia/src/services/APIService.js:414-421 | `user` is always the last parameter; `topic_id`, `is_marked`, `only_with_comments` and `search_term` are present exactly when their argument is truthy; nothing else is sent |
| ApiService.ItemsEndpointBase | ui/Zaia/src/services/APIService.js:423-424 | a numeric topic id (even 0) goes to `items_old/`, any other to `items/` |
| ApiService.ItemsQueryReadsBack | ui/Zaia/src/services/APIService.js:414-424 | the endpoint is the base, `/?` and the serialized parameters; the server splits that query at '&' into one piece per appended parameter, each at '=' into its form-encoded name and value, and every value decodes back to the text appended, whatever characters the search term holds |
| ApiService.ItemsResult | ui/Zaia/src/services/APIService.js:412-438 | unauthenticated gives [] with nothing sent; a non-empty list comes only from a reply with status 200; files are unchanged |
| ApiService.ItemsResultReadsBody | ui/Zaia/src/services/APIService.js:426-437 | the items are the reply's list exactly when the request was answered with status 200, and [] after any other status or a thrown error; the session is the request's |
| ApiService.ByteChars | ui/Zaia/src/services/APIService.js:359-362 | the binary string has one character per byte, whose code is the byte |
| ApiService.ByteCharsRoundTrip | ui/Zaia/src/services/APIService.js:357-366 | decoding the binary string back gives the received bytes: the file written is the body |
| ApiService.BinaryString | ui/Zaia/src/services/APIService.js:359-362 | the loop builds exactly the one-character-per-byte string |
| ApiService.Client.GetStoredTokens | ui/Zaia/src/services/APIService.js:9-17 | returns the stored token pair, null when none |
| ApiService.Client.StoreTokens | ui/Zaia/src/services/APIService.js:19-28 | the store holds the two given tokens; nothing else changes |
| ApiService.Client.Fetch | ui/Zaia/src/services/APIService.js:68 | one request: the server's reply to it, appended to the request log |
| ApiService.Client.RefreshAccessToken | ui/Zaia/src/services/APIService.js:30-54 | result and new state are those of `RefreshResult` |
| ApiService.Client.FetchWithAuth | ui/Zaia/src/services/APIService.js:56-88 | result, new state and the caller's rewritten `options.headers` are those of `FetchResult`; verb and body are kept |
| ApiService.Client.LoginUser | ui/Zaia/src/services/APIService.js:90-114 | result and new state are those of `LoginResult` |
| ApiService.Client.LogoutUser | ui/Zaia/src/services/APIService.js:162-170 | new state is that of `LogoutResult` |
| ApiService.Client.StatusCall | ui/Zaia/src/services/APIService.js:252-275 | a JSON call through `fetchWithAuth` whose result and new state are those of `StatusResult` |
| ApiService.Client.UpdateDone | ui/Zaia/src/services/APIService.js:252-275 | `StatusResult` of a PUT to `update_done/` with `{id, is_done: true}` |
| ApiService.Client.UpdateMarked | ui/Zaia/src/services/APIService.js:234-250 | `StatusResult` of a PUT to `mark_for_reading/` with `{id, is_marked}` |
| ApiService.Client.SaveComment | ui/Zaia/src/services/APIService.js:187-209 | `StatusResult` of a PUT to `update_comment/` with `{id, comments}` |
| ApiService.Client.DownloadMp3 | ui/Zaia/src/services/APIService.js:340-373 | result and new state are those of `DownloadResult`, including the rejections of `RNFS.exists` and `RNFS.writeFile` |
| ApiService.Client.FetchItems | ui/Zaia/src/services/APIService.js:412-438 | result and new state are those of `ItemsResult` on the built endpoint |
| ApiService.CharBytes | ui/Zaia/src/services/APIService.js:365-366 | one byte per character of a Latin-1 text |
| UrlEncoding.CharUtf8 | ui/Zaia/src/services/APIService.js:424 | one to four UTF-8 bytes per character, the character itself below 0x80 |
| UrlEncoding.CharUtf8Decodes | ui/Zaia/src/services/APIService.js:424 | the lead byte announces the length of a character's bytes and the bytes give back its code point |
| UrlEncoding.Utf8RoundTrip | ui/Zaia/src/services/APIService.js:424 | decoding the UTF-8 bytes of a text gives back its code points |
| UrlEncoding.FormBytesChars | ui/Zaia/src/services/APIService.js:424 | a form-encoded text holds only ASCII letters, digits, `*-._`, '+' and '%', so never '&', '=' or a space |
| UrlEncoding.FormBytesRoundTrip | ui/Zaia/src/services/APIService.js:424 | decoding the serialized bytes ('+' to a space, `%XX` to its byte) gives the bytes back |
| UrlEncoding.FormRoundTrip | ui/Zaia/src/services/APIService.js:424 | a text that `URLSearchParams` serializes decodes back to that text |
| UrlEncoding.QueryPairs | ui/Zaia/src/services/APIService.js:424 | one piece per parameter, in order, each the form-encoded name, '=' and the form-encoded value |
| UrlEncoding.QuerySplits | ui/Zaia/src/services/APIService.js:424 | a non-empty query splits at '&' into one piece per parameter, each at '=' into exactly its encoded name and value, which decode back to the appended texts |
| ApiService.ByteCharsUnique | ui/Zaia/src/services/APIService.js:359-362 | the binary string is the only text whose character codes are the received bytes |
| ApiService.RequestOptions.constructor | ui/Zaia/src/services/APIService.js:56 | the options object holds the caller's method, headers and body |
| ApiService.Client.constructor | ui/Zaia/src/services/APIService.js:1-6 | the module starts from the given configuration, token store and files, with no request sent |
| ApiClient.SessionLogin | services/web_extractor/api_client.py:34-59 | exactly the `/token` form request is sent; an answer with no error status and two non-empty tokens gives exactly those tokens and puts the access token in the bearer header; such an answer with a missing token raises; a request failure or an error status, and only those, gives `(None, None)` with the headers untouched |
| ApiClient.SessionRefresh | services/web_extractor/api_client.py:61-87 | a falsy refresh token gives False with nothing sent; otherwise exactly the `/refresh` request is sent; an answer with no error status and a non-empty token succeeds, storing that token and putting it in the bearer header; such an answer without a token, and only that, raises; any other outcome returns False and changes nothing; the refresh token never changes |
| ApiClient.Final | services/web_extractor/api_client.py:110-111 | the body is returned exactly when the status is not a 4xx or 5xx error |
| ApiClient.RequestResult | services/web_extractor/api_client.py:90-114 | the first request goes to `base/endpoint/` with the session headers; one to three requests in all; a connection failure gives `None` after one request; a first answer other than 401 gives its body or `None` after one request; a raise happens only after the refresh request |
| ApiClient.RequestAfter401 | services/web_extractor/api_client.py:101-108 | after a 401 a failed refresh returns `None` without resending and a raising refresh raises; a successful one resends once, with the new bearer header, and a second 401 gives `None` without another retry |
| ApiClient.Client.constructor | services/web_extractor/api_client.py:7-11 | a new session with no tokens, no default headers and nothing sent |
| ApiClient.Client.Request | services/web_extractor/api_client.py:98 | one `session.request`: the server's reply, logged with the session's headers |
| ApiClient.Client.Login | services/web_extractor/api_client.py:34-59 | outcome and new session are those of `SessionLogin` |
| ApiClient.Client.RefreshAccessToken | services/web_extractor/api_client.py:61-87 | outcome and new session are those of `SessionRefresh` |
| ApiClient.Client.RequestWithRetries | services/web_extractor/api_client.py:90-114 | outcome and new session are those of `RequestResult` |
| ApiClient.Client.GetData | services/web_extractor/api_client.py:116-118 | `RequestResult` of a GET with the given params and no body |
| ApiClient.Client.PostData | services/web_extractor/api_client.py:120-122 | `RequestResult` of a POST with the payload as JSON body |
| ApiClient.Client.PutData | services/web_extractor/api_client.py:124-126 | `RequestResult` of a PUT with the payload as JSON body |
| ApiClient.Connect | services/web_extractor/api_client.py:7-12 | the client exists unless login raises; it keeps both tokens when login succeeds and `None` for both when login fails |
| ItemsScreen.MarkDone | ui/Zaia/src/screens/ItemsScreen.js:103-106 | exactly the items whose audio-name stem equals the id get `done: true`; every other item and the length are kept |
| ItemsScreen.SaveFinishedResult | ui/Zaia/src/screens/ItemsScreen.js:99-117 | `update_done(id)` is sent; the list is marked only when the server reports success and is unchanged otherwise; the player and the other screen fields are untouched |
| ItemsScreen.PlayStep | ui/Zaia/src/screens/ItemsScreen.js:128-149 | a call on a non-done item sets `playAllDisabled` (an owed clear from an earlier failure lands after it) and downloads the item; it fails exactly when the download gives no file or the file does not decode, and a failed call changes nothing but those flags and its download's client state; otherwise the item is loaded, shown playing at index i with its duration, and its end callback advances the queue from i |
| ItemsScreen.LoadStep | ui/Zaia/src/screens/ItemsScreen.js:142-165 | after a download, the call fails exactly when the file does not decode, and then leaves the world as it was; a decode success sets `currentSound`, `duration`, `isPlaying` and `currentIndex = i` and plays the sound with the queue callback |
| ItemsScreen.PlayFrom | ui/Zaia/src/screens/ItemsScreen.js:119-166 | the queue run never changes the list, loading flag or position; past the end with no owed clear it changes nothing; the player stays well formed, sounds only gain ids above the old counter, and the request log only grows |
| ItemsScreen.PlayFromEnds | ui/Zaia/src/screens/ItemsScreen.js:119-166 | when every remaining item is done the run changes nothing but the owed clear; otherwise it either leaves some item from `i` on playing or the player controls as they were |
| ItemsScreen.PlayFromSkipsDone | ui/Zaia/src/screens/ItemsScreen.js:123-127 | done items are skipped with no request and no change: the run from `i` equals the run from the first item at or after `i` that is not done |
| ItemsScreen.PlayFromStartsFirstPlayable | ui/Zaia/src/screens/ItemsScreen.js:123-166 | the first item from `i` that is not done, when it downloads and decodes, is left playing with its advancing callback; that download is the run's only request, and "play all" is disabled unless an owed clear landed |
| ItemsScreen.PassOverOwes | ui/Zaia/src/screens/ItemsScreen.js:134-149 | after passing over done and failing items a clear of `playAllDisabled` is pending exactly when one was pending before or one of the items failed |
| ItemsScreen.PassOverRun | ui/Zaia/src/screens/ItemsScreen.js:123-149 | each done or failing item hands the run over to the next index: the run from i is the run from j over the world `PassOver` leaves |
| ItemsScreen.PlayFromPassesOver | ui/Zaia/src/screens/ItemsScreen.js:123-149 | the queue goes on past done items and past failed downloads and decodes (`PassOver`, an independent step-by-step account): the run from i is the run from j over the world they leave, with a clear owed exactly when one was owed or one of them failed |
| ItemsScreen.PlayFromStartsAfterFailures | ui/Zaia/src/screens/ItemsScreen.js:123-166 | after items that are each done or fail, the first item that downloads and decodes is left playing with its advancing callback, its download being the last change to the client state; "play all" is enabled exactly when a clear was owed or an earlier item failed |
| ItemsScreen.PlayFromRunsOut | ui/Zaia/src/screens/ItemsScreen.js:121-149 | when every item from i is done or fails, the run ends in the world they leave, with "play all" enabled exactly when a clear was owed or one of them failed |
| ItemsScreen.FlipMark | ui/Zaia/src/screens/ItemsScreen.js:225-232 | only items with that `_id` get `is_marked` negated, a missing field reading as false; the others are kept |
| ItemsScreen.FlipDone | ui/Zaia/src/screens/ItemsScreen.js:239-245 | only items with that `_id` get `done` negated, a missing field reading as false; the others are kept |
| ItemsScreen.FlipTwice | ui/Zaia/src/screens/ItemsScreen.js:225-245 | toggling twice is the identity when the matching items carry the field |
| ItemsScreen.FlipTwiceAbsent | ui/Zaia/src/screens/ItemsScreen.js:228 | an item without `is_marked` comes back from two toggles with `false`, not unchanged |
| ItemsScreen.CloseAudioResult | ui/Zaia/src/screens/ItemsScreen.js:201-212 | with no current sound nothing changes; otherwise the sound is released and the screen has no sound, `isPlaying` false, position and duration 0 and "play all" enabled |
| ItemsScreen.CloseIdempotent | ui/Zaia/src/screens/ItemsScreen.js:201-212 | closing twice is closing once |
| ItemsScreen.PausePlaybackResult | ui/Zaia/src/screens/ItemsScreen.js:183-188 | with no current sound nothing changes; otherwise the sound is paused and `isPlaying` is false |
| ItemsScreen.ResumePlaybackResult | ui/Zaia/src/screens/ItemsScreen.js:190-199 | with no current sound nothing changes; otherwise the sound plays again with a callback that only logs and `isPlaying` is true |
| ItemsScreen.PauseResumeStopsQueue | ui/Zaia/src/screens/ItemsScreen.js:190-199 | after pausing and resuming a queued track its end callback only logs: the queue no longer advances from it |
| ItemsScreen.SliderChangeResult | ui/Zaia/src/screens/ItemsScreen.js:214-219 | with no current sound nothing changes; otherwise the sound and the shown position move to the value |
| ItemsScreen.PlayAllResult | ui/Zaia/src/screens/ItemsScreen.js:168-174 | with no current sound the queue runs from 0 over the current list; a loaded current sound is stopped, not released, and the queue runs from 0; a released one never calls the stop callback, so nothing starts |
| ItemsScreen.PlayNextResult | ui/Zaia/src/screens/ItemsScreen.js:176-181 | with no current sound, or an index outside the list, nothing changes; otherwise the current item is saved as done, the sound is stopped and the queue continues from `currentIndex + 1`, so either a later item plays or the player controls are unchanged |
| ItemsScreen.QueueTrackEndResult | ui/Zaia/src/screens/ItemsScreen.js:157-164 | when a queued track ends, whatever the success flag, its sound is released and either a later item plays or the player controls are unchanged; the player stays well formed |
| ItemsScreen.QueueTrackEndSavesAndAdvances | ui/Zaia/src/screens/ItemsScreen.js:157-164 | the end of a queued track releases the sound; for an item of the queue, the first request is `update_done` with the item's stem, the list is marked done exactly when it succeeds, and the result is the queue run from the next index over that saved state (so `PlayFromPassesOver` applies to it) |
| ItemsScreen.QueueEndKeepsDisabled | ui/Zaia/src/screens/ItemsScreen.js:121 | a queue that runs out after its last track leaves `playAllDisabled` and the player controls as they were: "play all" stays disabled |
| ItemsScreen.StartDisablesPlayAll | ui/Zaia/src/screens/ItemsScreen.js:128-157 | a call on a non-done item that downloads and decodes makes it the playing item and disables "play all" |
| ItemsScreen.OwedClearLands | ui/Zaia/src/screens/ItemsScreen.js:134-149 | once a failure's clear of `playAllDisabled` is pending, the run ends with "play all" enabled |
| ItemsScreen.FailureEnablesPlayAll | ui/Zaia/src/screens/ItemsScreen.js:134-139 | after a failed download, whatever plays next plays with "play all" enabled |
| ItemsScreen.FetchDataResult | ui/Zaia/src/screens/ItemsScreen.js:76-87 | the fetched list replaces the current one only when it is not empty; loading ends; the player is untouched |
| ItemsScreen.RowDeletedResult | ui/Zaia/src/screens/ItemsScreen.js:233-237 | the player is closed exactly when the deleted index is at or after `currentIndex`; the list is refetched in every case |
| ItemsScreen.Screen.constructor | ui/Zaia/src/screens/ItemsScreen.js:27-41 | the initial state: empty list, loading, no sound, not playing, position, duration and index 0, "play all" enabled, no search term, no row sound |
| ItemsScreen.Screen.FetchData | ui/Zaia/src/screens/ItemsScreen.js:76-87 | new state is that of `FetchDataResult` on the screen's query |
| ItemsScreen.Screen.SaveFinished | ui/Zaia/src/screens/ItemsScreen.js:99-117 | new state is that of `SaveFinishedResult` |
| ItemsScreen.Screen.PlayItem | ui/Zaia/src/screens/ItemsScreen.js:123-149 | new state and failure flag are those of `PlayStep` |
| ItemsScreen.Screen.LoadItem | ui/Zaia/src/screens/ItemsScreen.js:142-165 | new state and failure flag are those of `LoadStep` |
| ItemsScreen.Screen.PlaySound | ui/Zaia/src/screens/ItemsScreen.js:119-166 | the recursion as a loop with a strictly increasing index: new state is that of `PlayFrom`, so it skips done items and failed downloads and decodes (`PlayFromPassesOver`) and starts the first item that loads (`PlayFromStartsAfterFailures`) |
| ItemsScreen.Screen.PlayAll | ui/Zaia/src/screens/ItemsScreen.js:168-174 | new state is that of `PlayAllResult` |
| ItemsScreen.Screen.PlayNext | ui/Zaia/src/screens/ItemsScreen.js:176-181 | new state is that of `PlayNextResult` |
| ItemsScreen.Screen.StopAndPlayFrom | ui/Zaia/src/screens/ItemsScreen.js:179 | the stop callback of `playNext`: a loaded sound is stopped and the queue runs from the next index |
| ItemsScreen.Screen.PausePlayback | ui/Zaia/src/screens/ItemsScreen.js:183-188 | new state is that of `PausePlaybackResult` |
| ItemsScreen.Screen.ResumePlayback | ui/Zaia/src/screens/ItemsScreen.js:190-199 | new state is that of `ResumePlaybackResult` |
| ItemsScreen.Screen.CloseAudio | ui/Zaia/src/screens/ItemsScreen.js:201-212 | new state is that of `CloseAudioResult` |
| ItemsScreen.Screen.HandleSliderChange | ui/Zaia/src/screens/ItemsScreen.js:214-219 | new state is that of `SliderChangeResult` |
| ItemsScreen.Screen.ToggleMark | ui/Zaia/src/screens/ItemsScreen.js:225-232 | the list becomes `FlipMark` of it and nothing else changes |
| ItemsScreen.Screen.ToggleDone | ui/Zaia/src/screens/ItemsScreen.js:239-245 | the list becomes `FlipDone` of it and nothing else changes |
| ItemsScreen.Screen.RowItemWasDeleted | ui/Zaia/src/screens/ItemsScreen.js:233-237 | new state is that of `RowDeletedResult` |
| ItemsScreen.Screen.QueueTrackEnded | ui/Zaia/src/screens/ItemsScreen.js:157-164 | new state is that of `QueueTrackEndResult`: the sound released, `update_done` sent for the item, the list marked done on success, and the queue run from the next index (`QueueTrackEndSavesAndAdvances`) |
| RowItem.RowPlayResult | ui/Zaia/src/components/RowItem.js:115-158 | with a sound held it only resumes, with a logging callback and no download; otherwise the item is downloaded and loading ends; a null download leaves the error null and the player untouched, because `release` on the null state throws first; a decode failure sets 'Error playing sound' and holds no sound; a decode success holds a fresh sound, shows it playing and registers the callback that finishes the item; the screen's list is unchanged |
| RowItem.RowSaveFinishedResult | ui/Zaia/src/components/RowItem.js:67-80 | `update_done` is sent on the item's stem; only on success is the screen's `toggleDone` applied to its id; the row and player are unchanged |
| RowItem.RowTrackEndResult | ui/Zaia/src/components/RowItem.js:143-150 | at the end of a row's track the error is set only when playback failed; the sound is released and the item finished whatever the outcome |
| RowItem.RowFinishFlipsDone | ui/Zaia/src/components/RowItem.js:72 | a row that finishes an item already marked done un-marks it: `toggleDone` flips the flag rather than setting it |
| RowItem.RowPauseResult | ui/Zaia/src/components/RowItem.js:160-165 | without a sound nothing changes; otherwise the sound is paused and `isPlaying` is false |
| RowItem.RowCloseResult | ui/Zaia/src/components/RowItem.js:167-176 | without a sound nothing changes; otherwise the sound is released and the row has no sound, `isPlaying` false, position and duration 0 |
| RowItem.RowResumeResult | ui/Zaia/src/components/RowItem.js:177-186 | without a sound nothing changes; otherwise it plays again with a callback that only logs and `isPlaying` is true |
| RowItem.RowSliderResult | ui/Zaia/src/components/RowItem.js:187-192 | without a sound nothing changes; otherwise the sound and the shown position move to the value |
| RowItem.RowCloseIdempotent | ui/Zaia/src/components/RowItem.js:167-176 | closing twice is closing once |
| RowItem.NewComments | ui/Zaia/src/components/RowItem.js:32 | the comments sent are the existing ones followed by exactly one new `{text: note, date: now}` |
| RowItem.SaveCommentResult | ui/Zaia/src/components/RowItem.js:30-46 | `saveComment` is sent on the item's stem with `NewComments`; the note is cleared only on success |
| RowItem.MarkUnmarkResult | ui/Zaia/src/components/RowItem.js:48-64 | `update_marked` is sent with the negation of `is_marked`, a missing field counting as false; the screen's mark is flipped only on success |
| RowItem.MarkAgreesWithRequest | ui/Zaia/src/components/RowItem.js:50-55 | when the screen holds the row's item, a successful mark leaves the screen's flag equal to the value sent |
| RowItem.Row.constructor | ui/Zaia/src/components/RowItem.js:10-16 | the initial row: empty note, no sound, not loading, no error, position and duration 0, not playing |
| RowItem.Row.SetNote | ui/Zaia/src/components/RowItem.js:10 | only the note changes |
| RowItem.Row.PlaySound | ui/Zaia/src/components/RowItem.js:115-158 | new state is that of `RowPlayResult` |
| RowItem.Row.PlayDownloaded | ui/Zaia/src/components/RowItem.js:128-151 | the decode callback: a failure sets 'Error playing sound'; a success holds the sound with its duration and plays it with the callback that finishes the item |
| RowItem.Row.SaveFinished | ui/Zaia/src/components/RowItem.js:67-80 | new state is that of `RowSaveFinishedResult`; the screen's other fields are unchanged |
| RowItem.Row.TrackEnded | ui/Zaia/src/components/RowItem.js:143-150 | new state is that of `RowTrackEndResult`; the screen's other fields are unchanged |
| RowItem.Row.PauseSound | ui/Zaia/src/components/RowItem.js:160-165 | new state is that of `RowPauseResult` |
| RowItem.Row.CloseAudio | ui/Zaia/src/components/RowItem.js:167-176 | new state is that of `RowCloseResult` |
| RowItem.Row.ResumePlayback | ui/Zaia/src/components/RowItem.js:177-186 | new state is that of `RowResumeResult` |
| RowItem.Row.HandleSliderChange | ui/Zaia/src/components/RowItem.js:187-192 | new state is that of `RowSliderResult` |
| RowItem.Row.SaveCommentWasPressed | ui/Zaia/src/components/RowItem.js:30-46 | new state is that of `SaveCommentResult` |
| RowItem.Row.MarkUnmark | ui/Zaia/src/components/RowItem.js:48-64 | new state is that of `MarkUnmarkResult`; the screen's other fields are unchanged |
| MainApp.NotDeletedClauseMeaning | api/main_app.py:108-111 | the `$or` clause on `is_deleted` selects exactly the documents with no such field or with `false` |
| MainApp.Find | api/MongoDBLayer.py:46-54 | `find(query)` returns only stored documents, exactly those that match the filter |
| MainApp.MatchesFirst | api/MongoDBLayer.py:54 | a one-entry filter holds exactly when its entry does |
| MainApp.MatchesAdd | api/main_app.py:112-121 | adding a filter entry for a new key conjoins its condition |
| MainApp.SearchQueryMeaning | api/MongoDBLayer.py:56-70 | `searchText` matches what the filter matches and, when a search text is given, whose text field matches it case-insensitively |
| MainApp.Ids | api/main_app.py:116 | `[x['id'] for x in topics]`: the topics' ids, one per topic, in order |
| MainApp.ItemsFilter | api/main_app.py:108-121 | the built filter matches exactly the documents `get_items` wants: not deleted; of the given topic, or else of one of the listed topic ids; of the given mark only when one is given; with comments other than [] only when asked |
| MainApp.MultiFilter | api/main_app.py:135-142 | the built filter matches exactly: not deleted, of the given topic when one is given, of the given mark when one is given |
| MainApp.TopicsFilter | api/main_app.py:202-209 | the built filter matches exactly the user's topics that are not deleted, of the given type unless the type is "" |
| MainApp.JournalsFilter | api/main_app.py:166-170 | the built filter matches exactly the user's journal entries that are not deleted |
| MainApp.InTopics | api/main_app.py:157 | keeps exactly the documents whose `topic_id` is among the ids |
| MainApp.Joined | api/main_app.py:229-244 | the `$lookup` gives a sub-list of the collection |
| MainApp.JoinedMembers | api/main_app.py:229-236 | a document is joined to a topic exactly when its `topic_id` equals the topic's `id` |
| MainApp.Keep | api/main_app.py:249-252 | filtering on a field keeps a sub-list |
| MainApp.KeepMembers | api/main_app.py:249-252 | a document is kept exactly when its field's truthiness is the one asked for, a missing field reading as false |
| MainApp.TopicSummaryShape | api/main_app.py:248-255 | the summary drops the two joined arrays, keeps every other field of the topic and adds the three counts; `done_items` ≤ `total_items` ≤ the collection size |
| MainApp.CountedItems | api/main_app.py:249-251 | an item is counted exactly when it is joined and not deleted, and is done-counted exactly when it is also done |
| MainApp.FirstWith | api/MongoDBLayer.py:72-90 | the index of the first document whose field equals the value, or the length when there is none |
| MainApp.SetFirst | api/MongoDBLayer.py:72-90 | `update_one` with `$set` merges the update into the first matching document only |
| MainApp.FirstUser | api/main_app.py:368-374 | `get_user`: the first user with that name, or the length when there is none |
| MainApp.FirstToken | api/main_app.py:398-401 | the first stored entry with that hash, or the length when there is none |
| MainApp.ValidateResult | api/main_app.py:396-405 | a user name comes back exactly when the first entry with the token's hash exists and has not expired, and it is that entry's owner |
| MainApp.NewTokenEntry | api/main_app.py:387-394 | the stored entry holds the hash of the raw token, the user and an expiry of now + 604800 |
| MainApp.RefreshTokenRoundTrip | api/main_app.py:387-405 | a created token validates to its user before its expiry and to nothing afterwards, provided no earlier entry has the same hash |
| MainApp.JournalDoc | api/main_app.py:448-456 | the journal entry has `created_on` == `modified_on` == now, `is_deleted` false, and the given id, user and text, so it is one of the user's journal entries |
| MainApp.SetTopicFields | api/main_app.py:288-303 | merging the built fields changes exactly the given fields and `modified_on`; every other field is kept |
| MainApp.TopicUpdate | api/main_app.py:289-300 | the built dictionary holds exactly the arguments that are not None, and always `modified_on` = now |
| MainApp.Backend.constructor | api/main_app.py:59-65 | empty collections and no recorded topic change |
| MainApp.Backend.GetTopicsWithoutItems | api/main_app.py:199-216 | "" as user gives [] without a query; otherwise exactly the stored topics that `TopicsFilter` describes |
| MainApp.Backend.GetItems | api/main_app.py:105-130 | "" as user gives an empty list; without a topic id, a user topic with no `id` raises `KeyError` (`Err("id")`), and that is the only error; otherwise exactly the stored items that are visible to the user under the filters and match the search text |
| MainApp.Backend.GetMultiItems | api/main_app.py:132-161 | "" as user gives an empty list; without a topic id, `KeyError` is raised exactly when a user topic has no `id` (`Err("id")`, raised first) or a found item has no `topic_id` (`Err("topic_id")`); otherwise exactly the stored multi items the filter and search select, cut down to the user's topics when no topic id is given |
| MainApp.Backend.GetJournals | api/main_app.py:163-179 | "" as user gives []; otherwise exactly the user's journal entries that are not deleted |
| MainApp.Backend.GetTopics | api/main_app.py:218-261 | one summary per matched topic, in order |
| MainApp.Backend.UpdateTopic | api/main_app.py:288-304 | the first topic with that id is updated as `SetTopicFields` says and no other topic changes; the change time is recorded exactly when `write_last_time_topics_changed` (lines 338-347) could write the shared file; a failed write is caught and leaves the old record |
| MainApp.Backend.AuthenticateUser | api/main_app.py:352-356 | a user comes back only when the first user with that name exists and the password verifies against its hash; otherwise False |
| MainApp.Backend.CreateRefreshToken | api/main_app.py:387-394 | returns the raw token and stores exactly one new entry, its hash with a seven-day expiry |
| MainApp.Backend.ValidateRefreshToken | api/main_app.py:396-405 | returns `ValidateResult` |
| MainApp.Backend.UpdatePassword | api/main_app.py:407-418 | an unknown user gets {} and nothing is written; otherwise the user's hash is replaced, one refresh token is stored and the bearer token pair is returned |
| MainApp.Backend.InsertJournal | api/main_app.py:448-459 | exactly one `JournalDoc` is appended and its id returned |
| MainApp.Backend.SpeechToText | api/main_app.py:420-445 | the id is empty exactly when the transcript is empty or the speech service raised, and then nothing is stored; otherwise one journal entry with the transcript is stored |
| MultiItemsScreen.ValueOf | ui/Zaia/src/screens/MultiItemsScreen.js:63-70 | each value copies the sub-item's value and the entry's source (as url), title, `created_on`, `modified_on` and `done` |
| MultiItemsScreen.EntryPairs | ui/Zaia/src/screens/MultiItemsScreen.js:53-54 | the (name, value) pairs of an entry's first n sub-items, in order |
| MultiItemsScreen.FlatLength | ui/Zaia/src/screens/MultiItemsScreen.js:52-53 | the traversal visits every sub-item of every entry exactly once |
| MultiItemsScreen.ValuesOf | ui/Zaia/src/screens/MultiItemsScreen.js:74 | `Object.values` lists one group per key, in key order |
| MultiItemsScreen.Select | ui/Zaia/src/screens/MultiItemsScreen.js:63 | the values the grouping by name gives a name form a sub-list of the traversal |
| MultiItemsScreen.FirstAt | ui/Zaia/src/screens/MultiItemsScreen.js:56 | the position where a name first appears in the traversal |
| MultiItemsScreen.SelectAbsent | ui/Zaia/src/screens/MultiItemsScreen.js:56 | a name that never occurs selects no value |
| MultiItemsScreen.BuildKeys | ui/Zaia/src/screens/MultiItemsScreen.js:56-61 | the object's keys are exactly the names that occur, each listed once |
| MultiItemsScreen.BuildGroups | ui/Zaia/src/screens/MultiItemsScreen.js:57-63 | each group's `item_name` equals its key and holds exactly the values pushed under that name, in order |
| MultiItemsScreen.BuildOrder | ui/Zaia/src/screens/MultiItemsScreen.js:74 | keys are listed in the order their names first appear |
| MultiItemsScreen.FirstAtNew | ui/Zaia/src/screens/MultiItemsScreen.js:56 | a name new to the traversal so far first appears at the next position |
| MultiItemsScreen.BuildIsReference | ui/Zaia/src/screens/MultiItemsScreen.js:52-72 | pushing the pairs one after another builds exactly the grouping by name |
| MultiItemsScreen.BuildKeepsEveryValue | ui/Zaia/src/screens/MultiItemsScreen.js:52-74 | every pushed value lands in exactly one group: the total of the group sizes is the number of pairs |
| MultiItemsScreen.SameValuesOnOldKeys | ui/Zaia/src/screens/MultiItemsScreen.js:74 | the listed groups depend only on the groups of the listed keys |
| MultiItemsScreen.TotalAfterPush | ui/Zaia/src/screens/MultiItemsScreen.js:63 | a push onto an existing group adds one to the total |
| MultiItemsScreen.NamesOf | ui/Zaia/src/screens/MultiItemsScreen.js:58 | the groups' names, in order |
| MultiItemsScreen.GroupedIsBuild | ui/Zaia/src/screens/MultiItemsScreen.js:74 | the returned groups are the object's groups in key order |
| MultiItemsScreen.GroupedOnePerName | ui/Zaia/src/screens/MultiItemsScreen.js:56-61 | exactly one group per distinct `item_name` |
| MultiItemsScreen.GroupedValuesInOrder | ui/Zaia/src/screens/MultiItemsScreen.js:52-70 | each group holds exactly the values found under its name, in traversal order, entries first and then their sub-items |
| MultiItemsScreen.GroupedFirstAppearance | ui/Zaia/src/screens/MultiItemsScreen.js:74 | groups are listed in the order their names first appear |
| MultiItemsScreen.GroupedTotal | ui/Zaia/src/screens/MultiItemsScreen.js:52-74 | the total number of values equals the total number of sub-items; no entries give no groups |
| MultiItemsScreen.GroupValues | ui/Zaia/src/screens/MultiItemsScreen.js:49-75 | the nested loops compute exactly `Grouped` of the entries |
| MultiItemsScreen.AsWrittenAgrees | ui/Zaia/src/screens/MultiItemsScreen.js:56-61 | when no name is one `Object.prototype` already answers, the source's grouping is the grouping by name |
| MultiItemsScreen.PrototypeNameThrows | ui/Zaia/src/screens/MultiItemsScreen.js:56-63 | an entry whose only sub-item is named "constructor" makes the source's grouping throw, where the grouping by name gives one group holding its value |
| MultiItemsScreen.Screen.constructor | ui/Zaia/src/screens/MultiItemsScreen.js:11-18 | no items, no groups, loading, no error |
| MultiItemsScreen.Screen.FetchData | ui/Zaia/src/screens/MultiItemsScreen.js:26-47 | a fetched list always replaces the items and the groups, even when empty; the error 'There are no items here' is set exactly when it is empty; a failed fetch keeps both; loading ends in every case |
| AddEditTopicScreen.DefaultItem | ui/Zaia/src/screens/AddEditTopicScreen.js:25 | the appended item has exactly `value_type`, `num_values` and `item_type`, and no `item_name` |
| AddEditTopicScreen.SummaryItem | ui/Zaia/src/screens/AddEditTopicScreen.js:48 | the summary item has `item_type` = `item_name` = the summary type |
| AddEditTopicScreen.WithDefaultItem | ui/Zaia/src/screens/AddEditTopicScreen.js:24-26 | `handleAddItem` keeps the existing items and appends exactly one default item |
| AddEditTopicScreen.ItemsChanged | ui/Zaia/src/screens/AddEditTopicScreen.js:28-35 | an empty value changes nothing; otherwise only `key` of the item at `index` takes the value, its other keys and all other items are unchanged |
| AddEditTopicScreen.WithItemName | ui/Zaia/src/screens/AddEditTopicScreen.js:52 | keeps exactly the items that have an `item_name` key |
| AddEditTopicScreen.WithItemNameAppend | ui/Zaia/src/screens/AddEditTopicScreen.js:52 | the filter distributes over concatenation, so it keeps order |
| AddEditTopicScreen.WithItemNameIdempotent | ui/Zaia/src/screens/AddEditTopicScreen.js:52 | filtering twice is filtering once |
| AddEditTopicScreen.AddedItemIsNotSent | ui/Zaia/src/screens/AddEditTopicScreen.js:24-52 | a freshly added item is never sent in extraction mode until it is named |
| AddEditTopicScreen.NamingAddedItemEnablesSave | ui/Zaia/src/screens/AddEditTopicScreen.js:28-58 | adding an item and typing a non-empty name into it makes the extraction list non-empty, with that item in it |
| AddEditTopicScreen.LastChangeWins | ui/Zaia/src/screens/AddEditTopicScreen.js:28-35 | a later non-empty change to the same key of the same item overrides an earlier one |
| AddEditTopicScreen.SentFrequency | ui/Zaia/src/screens/AddEditTopicScreen.js:67-75 | web topics are sent with "once", every other type with the chosen frequency |
| AddEditTopicScreen.Form.constructor | ui/Zaia/src/screens/AddEditTopicScreen.js:15-22 | the fields start from the edited topic with `\|\|` falling back on the defaults ('', 'web', 'hourly', []) and extraction mode exactly when the topic is a multi-item one |
| AddEditTopicScreen.Form.AddItem | ui/Zaia/src/screens/AddEditTopicScreen.js:24-26 | the items become `WithDefaultItem` of them; nothing else changes |
| AddEditTopicScreen.Form.ChangeItem | ui/Zaia/src/screens/AddEditTopicScreen.js:28-35 | the items become `ItemsChanged` of them; nothing else changes |
| AddEditTopicScreen.Form.SaveTopic | ui/Zaia/src/screens/AddEditTopicScreen.js:37-90 | an empty name is rejected before any request; extraction mode with no named item is rejected; otherwise the payload has the name, type and sent frequency, exactly one summary item in summary mode or the named items in extraction mode, the id when editing, and the user and `is_multi_item` (true iff extraction) when creating; the success alert is shown exactly when the store succeeded |
| WebExtractor.FrequencySeconds | services/web_extractor/web_extractor.py:44-50 | daily 86400, twice a day 43200, hourly 3600, weekly 604800; "once" and every unknown frequency 0; always under the 31-day look-back |
| WebExtractor.ApiBaseUrl | services/web_extractor/web_extractor.py:51-59 | only "local" and "cloud" are accepted, each giving its own url; anything else raises ValueError |
| WebExtractor.Schedule | services/web_extractor/web_extractor.py:103-118 | a round runs on schedule when `last_time_run + 3600 < now`, recording now; otherwise it runs only when the shared file holds a stamp newer than the local copy, which then takes that stamp |
| WebExtractor.StampTriggersOnce | services/web_extractor/web_extractor.py:115-118 | within the hour, a stamp that triggered a run does not trigger another |
| WebExtractor.LastExtractionOf | services/web_extractor/web_extractor.py:139 | the stored `last_extraction_epoch`, or now − 31·86400 when missing |
| WebExtractor.NeverExtractedIsDue | services/web_extractor/web_extractor.py:139-141 | a topic never extracted is due at once, whatever its frequency |
| WebExtractor.WebTopicRunsOnce | services/web_extractor/web_extractor.py:136-137 | a web topic with a stored extraction time is no longer considered |
| WebExtractor.KnownUrls | services/web_extractor/web_extractor.py:143 | one known url per item: its source cut before the first '?', unchanged when it has none |
| WebExtractor.KnownUrlsIdempotent | services/web_extractor/web_extractor.py:143 | cutting at '?' twice is cutting once |
| WebExtractor.AudioNameInjective | services/web_extractor/web_extractor.py:153-154 | distinct ids give distinct audio file names |
| WebExtractor.SingleRecordsFresh | services/web_extractor/web_extractor.py:155-167 | every single record belongs to the topic, has `audio_name` = id + ".mp3", `done` false, no comments and `created_on` == `modified_on` == now |
| WebExtractor.MultiRecordsFresh | services/web_extractor/web_extractor.py:189-199 | every multi record belongs to the topic, is not done, has no comments and `created_on` == `modified_on` == now |
| WebExtractor.SingleRecordsDistinctAudio | services/web_extractor/web_extractor.py:153-154 | with distinct ids the records of one topic have distinct audio files |
| WebExtractor.SpokenTextMentions | services/web_extractor/web_extractor.py:174-175 | the text read aloud contains the record's title and its value |
| WebExtractor.AudioPath | services/web_extractor/web_extractor.py:173 | the upload key is `All/<audio_name>` |
| WebExtractor.InsertCallsShape | services/web_extractor/web_extractor.py:168-206 | the single insert comes first, then one speech call per record; each insert is made exactly when it has records; the last call stores the topic's new extraction time |
| WebExtractor.InsertCallsLayout | services/web_extractor/web_extractor.py:168-206 | where each write stands: the single insert, then one speech call per single record in order, then the multi insert, then the topic update last |
| WebExtractor.InsertCallsInserts | services/web_extractor/web_extractor.py:168-202 | the single insert is made exactly when there are single records, the multi insert exactly when there are multi records |
| WebExtractor.InsertCallsOfTopic | services/web_extractor/web_extractor.py:168-206 | every insert and speech call made after a search is about that topic's new records |
| WebExtractor.WritesStop | services/web_extractor/web_extractor.py:168-206 | the writes made are the full insert sequence up to and including the first raising `post_data`/`put_data` (a refresh answer without `access_token` raises past the `RequestException` handler, api_client.py:77-78 and :112), and the topic goes on exactly when none raises |
| WebExtractor.TopicsPassFrom | services/web_extractor/web_extractor.py:133-207 | the topic loop from index i is topic i's pass followed, when it did not raise, by the loop over the rest |
| WebExtractor.TopicsPassDueHead | services/web_extractor/web_extractor.py:133-210 | when the first topic is due the loop is its pass followed, only when that pass went on, by the loop over the rest with the ids after it |
| WebExtractor.TopicPassShape | services/web_extractor/web_extractor.py:142-210 | a topic's pass goes on exactly when its items were read, its search completed and none of its writes raised; it starts by reading the items, and only that call is made when they cannot be read; a pass that goes on searched with the known urls and ends by storing the new extraction time; one that read and searched but stopped ends at the raising write |
| WebExtractor.TopicPassFound | services/web_extractor/web_extractor.py:142-206 | after a read and a completed search, the pass is the items read, the search with the known urls, then the writes |
| WebExtractor.TopicPassCalls | services/web_extractor/web_extractor.py:142-206 | every call of a topic's pass is about that topic |
| WebExtractor.FoundPassShape | services/web_extractor/web_extractor.py:146-210 | after a successful search there is at least one write and every call is about the topic; the pass goes on exactly when no write raised, and then its last call stores the new extraction time; otherwise its last call is the raising write |
| WebExtractor.FoundPassStops | services/web_extractor/web_extractor.py:146-210 | the calls after a successful search are the insert calls up to the first raising write; the pass goes on exactly when none raises, and then one id was drawn per result |
| WebExtractor.TopicsPassCallsAreDue | services/web_extractor/web_extractor.py:133-141 | every call of the topic loop is made for a due topic of the list: skipped types, extracted web topics and topics not due are never touched |
| WebExtractor.DueHeadCallsAreDue | services/web_extractor/web_extractor.py:133-141 | the same, when the first topic of the list is due |
| WebExtractor.ForDueTopicTail | services/web_extractor/web_extractor.py:133 | a call made for a due topic of the tail is one for a due topic of the list |
| WebExtractor.TopicsPassOk | services/web_extractor/web_extractor.py:133-210 | the topic loop completes exactly when every due topic had its items read and its search completed and none of the writes made raised |
| WebExtractor.TopicsPassGoesOn | services/web_extractor/web_extractor.py:133-210 | topic by topic: the loop completes exactly when every due topic, in order, was read and searched and none of its writes raised |
| WebExtractor.TopicsPassStampsDue | services/web_extractor/web_extractor.py:142-206 | when the loop completes, every due topic had its items read and its extraction time stored |
| WebExtractor.Service.constructor | services/web_extractor/web_extractor.py:87-88 | `last_time_run` and the local stamp start at 0; no call made, no id drawn |
| WebExtractor.Service.BuildSingles | services/web_extractor/web_extractor.py:150-167 | the loop builds exactly `SingleRecords`, drawing one id per record |
| WebExtractor.Service.BuildMultis | services/web_extractor/web_extractor.py:185-199 | the loop builds exactly `MultiRecords`, drawing one id per record |
| WebExtractor.Service.ProcessTopic | services/web_extractor/web_extractor.py:142-206 | the calls made, the ids drawn and whether the topic went on are those of `TopicPass`, including a raising write that ends it |
| WebExtractor.Service.InsertOutcome | services/web_extractor/web_extractor.py:146-206 | the writes made, the ids drawn and whether the topic went on are those of `FoundPass`: the multi records are built only when the single insert did not raise |
| WebExtractor.Service.RunTopics | services/web_extractor/web_extractor.py:133-210 | the loop's calls, ids drawn and completion are those of `TopicsPass` |
| WebExtractor.Service.VisitTopic | services/web_extractor/web_extractor.py:134-207 | one topic of the loop: the calls so far followed by what remains always make up the whole loop's calls |
| WebExtractor.Service.Round | services/web_extractor/web_extractor.py:101-214 | a round runs exactly when `Schedule` says so and then first reads all topics; `None` topics end it without moving `last_time_run`; it completes, moving `last_time_run` to now, exactly when every due topic was read and searched and no write raised; every call is for a due topic, and on completion every due topic had its items read and its extraction time stored |
| WebSearchExtractor.Articles | services/web_extractor/web_search_extactor.py:39-49 | a web topic searches the web by its name; a topic neither "news" nor "web" leaves `articles` unbound and raises |
| WebSearchExtractor.Strs | services/web_extractor/web_search_extactor.py:79 | one `str(x)` per list element, in order |
| WebSearchExtractor.ValueString | services/web_extractor/web_search_extactor.py:76-81 | a list value is its elements joined with "; ", a string is kept, any other value or a missing key gives "" |
| WebSearchExtractor.ItemsValues | services/web_extractor/web_search_extactor.py:74-83 | one named value per topic item, in the topic's order, each the string of that item's extraction |
| WebSearchExtractor.NewArticlesMembers | services/web_extractor/web_search_extactor.py:54-57 | the articles the loop extracts are articles of the list with unknown urls, each the first with its url, no two sharing a url, and every unknown url of the list is among them |
| WebSearchExtractor.NewArticlesGrowKnown | services/web_extractor/web_search_extactor.py:55-57 | appending the new articles' urls grows the known urls by distinct new urls of the articles and leaves every article's url known |
| WebSearchExtractor.SinglesOverComplete | services/web_extractor/web_search_extactor.py:59-69 | single mode over the new articles raises exactly when one of them raises; otherwise every article whose extraction gives a summary has its result reported |
| WebSearchExtractor.MultisOverComplete | services/web_extractor/web_search_extactor.py:71-87 | multi mode reports the result of every article the extractor gives an object for |
| WebSearchExtractor.SinglesOverFit | services/web_extractor/web_search_extactor.py:59-69 | over articles with distinct urls, single results carry distinct urls, each the url and title of one of the articles, and fit the topic |
| WebSearchExtractor.SinglesOverDistinct | services/web_extractor/web_search_extactor.py:59-69 | over articles with distinct urls, single results carry distinct urls, each the url and title of one of the articles |
| WebSearchExtractor.SinglesOverFitTopic | services/web_extractor/web_search_extactor.py:59-69 | every single result is named after the first topic item and holds the summary of its article |
| WebSearchExtractor.MultisOverFit | services/web_extractor/web_search_extactor.py:71-87 | over articles with distinct urls, multi results carry distinct urls, each the url and title of one of the articles, and fit the topic |
| WebSearchExtractor.MultisOverDistinct | services/web_extractor/web_search_extactor.py:71-87 | over articles with distinct urls, multi results carry distinct urls, each the url and title of one of the articles |
| WebSearchExtractor.MultisOverFitTopic | services/web_extractor/web_search_extactor.py:71-87 | every multi result holds one value per topic item, from its article's extraction |
| WebSearchExtractor.SinglesReference | services/web_extractor/web_search_extactor.py:54-69 | the reference single result raises exactly when an unknown article raises, and otherwise grows the known urls correctly, reports only distinct new urls of the articles and fits the topic |
| WebSearchExtractor.MultisReference | services/web_extractor/web_search_extactor.py:54-87 | the reference multi result grows the known urls correctly, reports only distinct new urls of the articles and fits the topic |
| WebSearchExtractor.SinglesStep | services/web_extractor/web_search_extactor.py:55-69 | one turn of the single-mode loop: a known url changes nothing; any other adds its url and its summary when one is given, or raises |
| WebSearchExtractor.MultisStep | services/web_extractor/web_search_extactor.py:55-87 | one turn of the multi-mode loop: a known url changes nothing; any other adds its url and its result when the extractor gave one |
| WebSearchExtractor.SingleFor | services/web_extractor/web_search_extactor.py:59-69 | single mode raises exactly when the topic has no item or the page has text and the first item's type has no prompt; a result is named after the first item and holds the extractor's summary of the article's url and its title |
| WebSearchExtractor.MultiFor | services/web_extractor/web_search_extactor.py:71-87 | multi mode gives a result exactly when the extractor gave an object, holding one value per topic item, the article's url and its title |
| WebSearchExtractor.ExtractSingles | services/web_extractor/web_search_extactor.py:54-69 | the results are exactly the reference `SinglesOver` of the new articles (the first article with each unknown url, in article order), keeping each summary given; the known urls grow by exactly those urls; raising happens exactly when some unknown article raises; results carry distinct new urls of the articles and fit the topic |
| WebSearchExtractor.ExtractMultis | services/web_extractor/web_search_extactor.py:54-87 | never raises; the results are exactly the reference `MultisOver` of the new articles, in article order, one per article the extractor gave an object for; the known urls grow by exactly the new articles' urls; results carry distinct new urls of the articles and fit the topic |
| WebSearchExtractor.Extract | services/web_extractor/web_search_extactor.py:54-89 | the branch on `is_multi_item` (missing reads as false): only single mode can raise, exactly when an unknown article raises; each mode gives its reference results over the new articles and fills only its own list |
| WebSearchExtractor.ResultsAreNew | services/web_extractor/web_search_extactor.py:55-57 | no result carries a url that was already extracted |
| WebSearchExtractor.GetSearchAndExtractions | services/web_extractor/web_search_extactor.py:38-89 | raises exactly when the search raises or, in single mode, an unknown article makes the extractor raise; otherwise the known urls grow by the new articles' urls and the results are the reference results over those articles, each from an article found, with a url not already extracted, fitting the topic in its mode |
| WebSearchExtractor.FoundResultsAreNew | services/web_extractor/web_search_extactor.py:55-57 | no result of a completed search carries a url that was already extracted |
| NewsClients.Kept | services/web_extractor/news_clients.py:47-53 | the loop never keeps more articles than it reads |
| NewsClients.Shown | services/web_extractor/news_clients.py:50-52 | an article is handed on with its title, publication time and url |
| NewsClients.KeptDistinct | services/web_extractor/news_clients.py:48-49 | no two kept articles share a description |
| NewsClients.KeptFromInput | services/web_extractor/news_clients.py:47-50 | every kept article is one of the answer's articles |
| NewsClients.FirstOccurrenceKept | services/web_extractor/news_clients.py:47-53 | the first article carrying a description is always kept |
| NewsClients.KeptDescriptions | services/web_extractor/news_clients.py:47-53 | a description occurs in the answer exactly when some kept article carries it |
| NewsClients.FetchNews | services/web_extractor/news_clients.py:43-56 | an answer without "articles" gives no article; otherwise the result is the answer's articles without repeated descriptions, in order, never more than the answer holds |
| Extractor.TemplateFor | services/web_extractor/prompts.py:31-36 | a kind has a prompt exactly when it is one of the three summary kinds or "explain", which shares the medium one |
| Extractor.TargetUrl | services/web_extractor/extractor.py:64-65 | only an arXiv url is rewritten, and one without "pdf" is left as it is |
| Extractor.ArxivUrlHasNoPdf | services/web_extractor/extractor.py:64-65 | after the rewrite an arXiv url no longer holds "pdf" |
| Extractor.Truncated | services/web_extractor/extractor.py:83-88 | the text sent is a prefix of the text of at most 192000 characters, all of it when it fits |
| Extractor.GetSummary | services/web_extractor/extractor.py:81-93 | an unknown kind raises `KeyError`; otherwise the answer is the model's to the kind's template filled with the truncated text |
| Extractor.ExtractSingleAsks | services/web_extractor/extractor.py:39-49 | an empty page gives `(None, "")`; otherwise it raises exactly on an unknown kind and gives the summary, with the page text only when asked for |
| Extractor.NamesOf | services/web_extractor/extractor.py:96 | the item names, in order |
| Extractor.ExtractMultipleAsks | services/web_extractor/extractor.py:51-61 | an empty page gives `(None, "")`; otherwise the model's object for the prompt built from the page and the item names, with the page text only when asked for |
| Extractor.Bullets | services/web_extractor/extractor.py:115 | one "- name" per item name |
| Extractor.Entries | services/web_extractor/extractor.py:118 | one `"name": "..."` entry per item name |
| Extractor.PromptFrames | services/web_extractor/extractor.py:104-134 | the prompt starts with the instructions and the item list, ends with the JSON template, and holds the text |
| Extractor.TextItemsLines | services/web_extractor/extractor.py:115 | for names without newlines, the item list splits back into one "- name" line per item |
| Extractor.CommaLines | services/web_extractor/extractor.py:118 | every entry but the last carries a trailing comma |
| Extractor.JoinComma | services/web_extractor/extractor.py:118 | joining with ",\n" is joining with "\n" the entries with their commas |
| Extractor.JsonStructureLines | services/web_extractor/extractor.py:118 | for names without newlines, the JSON template splits into "{", one entry line per name, and "}" |
| Extractor.JsonStructureJoin | services/web_extractor/extractor.py:118 | the JSON template is those lines joined by newlines |
| Extractor.JsonLinesFree | services/web_extractor/extractor.py:118 | no line of the JSON template holds a newline |
| Extractor.ChunkCount | services/web_extractor/extractor.py:140 | at least one piece, and the text is shorter than pieces × limit but not than (pieces − 1) × limit |
| Extractor.PieceLength | services/web_extractor/extractor.py:141 | the piece length is the floor of length ÷ pieces |
| Extractor.Piece | services/web_extractor/extractor.py:144 | every piece has the same length |
| Extractor.PieceBound | services/web_extractor/extractor.py:144 | every slice lies within the text |
| Extractor.Pieces | services/web_extractor/extractor.py:143-144 | one piece per chunk, in order |
| Extractor.PiecesCoverPrefix | services/web_extractor/extractor.py:143-144 | the pieces spell the text up to pieces × length; fewer characters than there are pieces are dropped at the end |
| Extractor.PiecesPrefix | services/web_extractor/extractor.py:143-144 | the first k pieces spell the first k × length characters |
| Extractor.ThreadSnoc | services/web_extractor/extractor.py:155-160 | one more piece is one more combine prompt on the summary so far |
| Extractor.CombinedIsLastAnswer | services/web_extractor/extractor.py:150-162 | the answer is the model's answer for the last piece: the medium summary of a single piece, or the combine prompt over the summary of the earlier pieces |
| Extractor.ThreadStopsAtNone | services/web_extractor/extractor.py:159-160 | a missing answer for any piece makes the whole answer missing |
| Extractor.ThreadOfNone | services/web_extractor/extractor.py:153-154 | once missing, the answer stays missing |
| Extractor.SplitAndCombineSummary | services/web_extractor/extractor.py:136-162 | the loop answers exactly `Combined` of the pieces |
| BookmarksExtractor.WalkSplit | temp_bookmarks_extractor.py:47-52 | a folder's name stays the current folder for the siblings after it: the walk of two sibling runs is the first's walk, then the second's from the last folder name of the first |
| BookmarksExtractor.WalkCollectsUrls | temp_bookmarks_extractor.py:47-52 | every collected bookmark is a url node of the tree |
| BookmarksExtractor.FlatWalk | temp_bookmarks_extractor.py:47-49 | without folders, every url is collected when the walk starts in the target folder and none otherwise |
| BookmarksExtractor.ExtractBookmarks | temp_bookmarks_extractor.py:45-53 | the loop, with its recursive calls, collects exactly `Walk` |
| BookmarksExtractor.GetBookmarks | temp_bookmarks_extractor.py:55-59 | the bookmark bar is walked from the folder "main" |
| BookmarksExtractor.BatchesFromCover | temp_bookmarks_extractor.py:86-88 | the batches from an index on spell the rest of the list, each holding one to five bookmarks |
| BookmarksExtractor.BatchesCover | temp_bookmarks_extractor.py:86-88 | the batches spell the whole list, in order, each holding one to five bookmarks |
| BookmarksExtractor.AnswerIsSummary | temp_bookmarks_extractor.py:98 | an empty page gives no summary; otherwise the summary is the model's answer to the short-summary prompt on the page's text |
| BookmarksExtractor.StepCases | temp_bookmarks_extractor.py:90-117 | a bookmark either changes nothing or, when its url cut at '?' is unknown, adds one fresh record for that url with the next id and makes the url known |
| BookmarksExtractor.StepIds | temp_bookmarks_extractor.py:103 | a bookmark adds at most one record, and it takes the next id |
| BookmarksExtractor.StepKnown | temp_bookmarks_extractor.py:100 | the urls made known are the sources of the records added |
| BookmarksExtractor.StepFresh | temp_bookmarks_extractor.py:105-117 | a bookmark adds only fresh records |
| BookmarksExtractor.StepNoRepeat | temp_bookmarks_extractor.py:92-100 | a record is added only for a url not yet known |
| BookmarksExtractor.ScanIds | temp_bookmarks_extractor.py:90-117 | the records of a batch take the ids in order, at most one per bookmark |
| BookmarksExtractor.ScanKnown | temp_bookmarks_extractor.py:90-117 | the urls a batch makes known are exactly its records' sources, in order |
| BookmarksExtractor.ScanFresh | temp_bookmarks_extractor.py:90-117 | every record of a batch belongs to the script's topic and item, is new and has a source without query |
| BookmarksExtractor.ScanNoRepeat | temp_bookmarks_extractor.py:90-117 | the sources of a batch's records are distinct and none was known before |
| BookmarksExtractor.PostFromStep | temp_bookmarks_extractor.py:86-128 | the run from a batch is that batch's records followed by the run from the next batch |
| BookmarksExtractor.PostFromSplit | temp_bookmarks_extractor.py:86-128 | the run from a batch splits into the batch's scan and the run from the next batch, the scan keeping all its invariants |
| BookmarksExtractor.WithBatchFlatten | temp_bookmarks_extractor.py:126-127 | the records posted are the first batch's, then the others' |
| BookmarksExtractor.PostsNonEmpty | temp_bookmarks_extractor.py:126-127 | no insert is posted without records |
| BookmarksExtractor.PostedIds | temp_bookmarks_extractor.py:86-128 | the posted records take the ids in order, one per record |
| BookmarksExtractor.PostedKnown | temp_bookmarks_extractor.py:86-128 | the urls a run makes known are the sources of its records, in order, after those known at the start |
| BookmarksExtractor.PostedFresh | temp_bookmarks_extractor.py:86-128 | every posted record is fresh, for the script's topic and item |
| BookmarksExtractor.PostedNoRepeat | temp_bookmarks_extractor.py:81-128 | no url is inserted twice, and none already in the user's items |
| BookmarksExtractor.PostedStep | temp_bookmarks_extractor.py:86-128 | the batch loop's account is kept by one more batch |
| BookmarksExtractor.ScanBatch | temp_bookmarks_extractor.py:90-123 | the inner loop computes exactly `Scan` and draws one id per record |
| BookmarksExtractor.PostAll | temp_bookmarks_extractor.py:85-132 | the batch loop posts the whole run's inserts up to and including the first that raises (an uncaught refresh `Exception` ends the `try`), completes exactly when none raises, and then ends with the whole run's known urls and id count |
| BookmarksExtractor.PostsStop | temp_bookmarks_extractor.py:126-132 | a raising insert after inserts none of which raised is where the run's posts stop, and the run does not complete |
| BookmarksExtractor.PrefixPosts | temp_bookmarks_extractor.py:126-132 | the inserts posted before a stop keep what the whole run's inserts promise: none is empty, every record is fresh, and their urls are distinct and new |
| BookmarksExtractor.RunScript | temp_bookmarks_extractor.py:61-133 | the script stops before walking exactly when the environment is neither "local" nor "cloud" or the items cannot be read; otherwise its posts are those of the whole run up to the first raising insert, it completes exactly when none raises, a stopped run ends at the raising insert, and every post made is a non-empty batch of fresh records whose urls are distinct and were not among the user's items |
| TtsScript.PreprocessText | temp_TTS_script.py:52-67 | the loop over the table yields exactly `Preprocess` of the text |
| TtsScript.PlainPrefix | temp_TTS_script.py:64-65 | a dot-free word that does not end in a spoken form's first letter and starts the replaced text also starts the original |
| TtsScript.ReplaceLeavesNo | temp_TTS_script.py:64-65 | replacing a key by a dotted spoken form leaves no occurrence of a compatible dot-free word: the key itself, or one that was absent |
| TtsScript.TableShape | temp_TTS_script.py:53-61 | every spoken form alternates letters and dots, and every written form is two or more letters without a dot |
| TtsScript.TableCompatible | temp_TTS_script.py:53-65 | no later entry of the table can bring back the written form of an earlier or the same entry |
| TtsScript.ClearedAfter | temp_TTS_script.py:64-65 | after the first n replacements none of their written forms is left in the text |
| TtsScript.PreprocessClears | temp_TTS_script.py:52-67 | `preprocess_text` leaves none of the abbreviations of its table |
| TtsScript.ExpandAbsent | temp_TTS_script.py:64-65 | a text without any abbreviation of the table goes through the replacements unchanged |
| TtsScript.PreprocessUnchanged | temp_TTS_script.py:52-67 | `preprocess_text` changes a text exactly when it holds one of the abbreviations |
| TtsScript.PreprocessIdempotent | temp_TTS_script.py:52-67 | preprocessing twice is preprocessing once |
| TtsScript.AsWrittenIgnoresArgument | temp_TTS_script.py:69-71 | as written, the client speaks the global `text_for_tts` instead of its argument: with argument "x" and the global "" the spoken texts differ |
| TtsScript.ScriptCallAgrees | temp_TTS_script.py:110-113 | the script's own call passes the global, so there both readings agree, and what is spoken holds no abbreviation of the table |
| TtsScript.Recent | temp_TTS_script.py:87 | an item is kept exactly when it is one of the topic's items created after the cutoff 1742570087; never more items than given |
| TtsScript.AllRecentMembers | temp_TTS_script.py:83-88 | the collection fails exactly when some topic's item list is missing; otherwise it holds exactly the recent items of every topic |
| TtsScript.AllRecentStops | temp_TTS_script.py:84-88 | a missing item list ends the collection whatever topics come after it |
| TtsScript.CollectRecent | temp_TTS_script.py:83-88 | the loop computes exactly `AllRecent` |
| TtsScript.AudioPathInjective | temp_TTS_script.py:109 | distinct audio names give distinct local files |
| TtsScript.UploadedIsListed | temp_TTS_script.py:103-118 | a file uploaded under `All/<name>`, with no slash in its name, is listed by the next run, which then leaves it alone |
| TtsScript.AfterLastSlash | temp_TTS_script.py:103 | the last segment of `a/b` is `b` when `b` has no slash |
| TtsScript.PlanMembers | temp_TTS_script.py:105-125 | a call is made exactly when it is the synthesis of an unlisted item's speech to its path, or that item's upload under `All/<name>` after the engine did not raise and the file exists |
| TtsScript.UploadFollowsSynthesis | temp_TTS_script.py:112-118 | every upload comes right after the synthesis of the same file |
| TtsScript.SpokenWithoutAbbreviations | temp_TTS_script.py:110-113 | no speech the script synthesizes holds an abbreviation of the table |
| TtsScript.UploadMissing | temp_TTS_script.py:105-125 | the loop over the items makes exactly the calls of `Plan` |
| TtsScript.RunScript | temp_TTS_script.py:77-128 | the script crashes exactly when the topics or some topic's items cannot be read; it reports "No files found." exactly when the listing has no contents; otherwise its calls are `Plan` of the recent items against the listed file names |

## Left out

- Rendering, styling, navigation, alerts and logging are left out: they have no behaviour to state. So are the screens and files outside the modelled core: HomeScreen, TopicsScreen, ItemDetailsScreen, JournalHistoryScreen, UserScreen, TrackingScreen, UserContext, `api/app.py`, the LLM, TTS and web-search wrappers, and the image-resizing script.
- Concurrency is left out: the 1-second `setInterval` position polling, the interleaving of promises, and `setState` batching. The one interleaving the queue depends on is modelled: a failed `playSound` clears `playAllDisabled` only after the next call has set it. Each `await` otherwise completes before the next user action.
- Positions, durations and `time.time()` are whole numbers: floats are not modelled. `validate_refresh_token` compares integer times. `get_prompt_limit` is the integer 192000. `sanitize_data` (NaN and infinity detection) is left out for the same reason.
- The network, EncryptedStorage, the file system, the audio decoder, MongoDB, bcrypt, SHA-256, JWT, Deepgram, the language model, the speech engine, S3 and `uuid4` are parameters or oracles whose answers the model does not interpret.
- ApiService: `createUser`, `update_password`, `fetchTopics`, `update_journal_item`, `deleteItem`, `deleteMultiItem`, `deleteTopic`, `update_topic`, `insert_topic`, `fetchMultiItem`, `fetchJournalItems`, `upload_audio` and `deleteAudioFile` are left out. They are single `fetchWithAuth` calls whose behaviour `FetchResult` and `StatusResult` already state. Two screens of the core call three of them, and their models take the answers as parameters instead: `fetched` in `MultiItemsScreen.Screen.FetchData` stands for `fetchMultiItem` (MultiItemsScreen.js:30), and `store` in `AddEditTopicScreen.Form.SaveTopic` for `update_topic` and `insert_topic` (AddEditTopicScreen.js:81). `fetchMultiItem` answers `[]` on a status other than 200 or a failed request (APIService.js:441-460), so the screen then shows "There are no items here"; `fetched == None` arises only when the `response.json()` it returns without `await` rejects, outside its own `catch`. `update_topic` is true exactly on status 200, as `StatusResult` states; `insert_topic` also awaits `response.json()`, so a body that is not JSON makes it false.
- ItemsScreen: `handleSearch`, `handleViewDetails` and the `beforeRemove` listener are left out; they are navigation and re-fetching with the same `FetchData`.
- RowItem: `deleteRow`, `confirmDelete` and the position polling are left out; they are an alert and the unmodelled delete call.
- MultiItemsScreen: `deleteItem`, `confirmDelete`, `switchPresentation`, `handleSearch` and the two render functions are left out as UI.
- MultiItemsScreen.GroupValues: groups come in order of first appearance. JavaScript's `Object.values` puts integer-like keys first in ascending order, and that ordering is not modelled.
- MultiItemsScreen.Screen.FetchData: the model uses the corrected grouping. With the grouping as written, a throw would leave the list stored, the groups unchanged and `loading` false; that path is captured only by `BuildAsWritten`.
- WebExtractor.Service.Round: the search step is a function parameter `search`, not a call of the verified `WebSearchExtractor.GetSearchAndExtractions`. The round's contract therefore does not carry the search's own guarantees; `GetSearchAndExtractions` states them separately.
- WebExtractor.Service.Round: the clock is read once per round, and the `time.sleep` between rounds is left out. The `while True` loop is one call of `Round` per pass.
- WebSearchExtractor.GetSearchAndExtractions: when an article raises, the urls already appended to the caller's list are not returned. The only caller drops that topic's pass at once, so the list is not used again.
- BookmarksExtractor.RunScript: one `now` stands for the per-record `time.time()` calls of the script.
- The plain `Exception` that `refresh_access_token` raises on a refresh answer without `access_token` (services/web_extractor/api_client.py:77-78) escapes `request_with_retries`, which catches only `RequestException` (api_client.py:112). `ApiClient` models it as `RefreshRaised`. In `WebExtractor` and `BookmarksExtractor` which write raises is an oracle parameter (`Raises`, `PostRaises`) rather than derived from an `ApiClient` session; the effect of a raising write on the loop is modelled.
- `KeyError` on malformed JSON answers, and `requests` exceptions that are not `RequestException`, are left out: the answers are assumed well formed.

## Findings

| source | as written | input that shows it | evidently intended | confidence | as-written member | corrected member |
|---|---|---|---|---|---|---|
| ui/Zaia/src/screens/MultiItemsScreen.js:56-61 | `if (!groupedItems[name])` tests a plain object, so a name that `Object.prototype` already answers skips creating the group, and `push` on the inherited value throws a `TypeError` | an entry whose sub-item is named "constructor" | every name gets its own group, whatever its spelling | not executed | MultiItemsScreen.PrototypeNameThrows | MultiItemsScreen.GroupValues |
| temp_TTS_script.py:69-74 | `text_to_speech` preprocesses the module-level `text_for_tts` and never reads its `text` argument | the argument "x" while the global is "" (the global exists only once the `__main__` block has assigned `text_for_tts`; called from another module, the function raises `NameError` instead) | the client speaks its argument | not executed | TtsScript.AsWrittenIgnoresArgument | TtsScript.SpeechInput |
