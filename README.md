# Spotify playlist downloader — the resolution and batch engine, in Dafny

This project models the download engine of the backend server
(`backend/server.py`). It covers:

- The playlist endpoint: reading the playlist id from a URL, keeping the
  catalog items that are usable tracks, and mapping catalog failures to HTTP
  errors.
- The query sanitiser `clean_query`.
- The ordered list of search strategies that `download_from_youtube` tries
  for one track.
- The try-until-success loop over those strategies.
- The single-track endpoint `download_track`.
- The batch endpoint `download_all`. It downloads every track in turn into
  one shared directory, counts successes, lists failures, and packs the mp3
  files present into a zip with two summary headers.

The modules follow the program's layers:

- `Text` holds the string primitives the server relies on: `str.split()`,
  `sep.join`, `sub in s`, `str(n)`, the `{n:03d}` format and the
  one-character `s.split(':')` of line 154. It also holds the decimal parse
  and the one-character split that a client uses to read the summary
  headers back; the round-trip lemmas about the headers and the file
  prefix use them.
- `Query` holds `clean_query` and the strategy list.
- `Playlist` holds `extract_playlist_id` and `get_playlist`.
- `Download` holds the download directory, the strategy loop and
  `download_track`.
- `Batch` holds `download_all`.

The search-and-download library is an oracle: a `Provider` maps a strategy
index and a search string to an `Attempt`. An attempt raised, found nothing,
found only unavailable entries, or downloaded, and it lists the names it
wrote. The download directory is a `Workspace` object whose set of file
names the methods update in place. The strategy loop and the batch loop are
`while`/`for` loops. Each is proved equal to a recursive specification
function (`Download.Resolve`, `Batch.BatchRun`), and the properties are
proved about those functions. `Batch.BatchRun` takes the per-item step as a
parameter. The step `download_all` uses runs the strategy loop of each
position's job (`Batch.ItemJobs`, `Batch.JobSteps`). The batch lemmas name
the properties of the step they rely on: it only adds files, and it writes
under the position's prefix.

Where the code's behaviour may surprise a reader, the model follows the
code:

- **The success check.** A strategy succeeds when the directory holds *any*
  `*.mp3` after its download. It does not check for a file that was not
  there before. In the shared batch directory, an item whose download writes
  nothing therefore counts as a success once an earlier item has written an
  mp3 (`Batch.PhantomSuccess`, `Batch.CountExceedsMembers`).
- **Failed items can fill the zip.** A strategy that raises after writing an
  mp3 leaves the file behind. A batch can then report no success and still
  produce a zip (`Batch.FailedItemStillZipped`).
- **The count and the members differ.** The summary counter is the number
  of loop iterations that returned True, and the zip holds every mp3
  present. Neither is defined in terms of the other.
- **The position prefix stays.** Zip members keep their on-disk names. Those
  names begin with `track_` and the zero-padded position (`Batch.MembersKeepPrefix`).
  The prefix is not stripped.
- **No concurrency.** The batch runs its items one after another, each
  awaited before the next. It is not a bounded fan-out.
- **No guaranteed cleanup.** Cleanup happens only on the 404 paths and, once
  the response is sent, through a deferred task. A zip-writing failure
  answers 500 and leaves the directory in place.
- **The second 404 of `download_track` is dead code.** A True result always
  leaves an mp3 in the directory (`Download.TrackSuccessLeavesMp3`), so the
  "file not found after download" branch (lines 282-292) never runs; the
  model has that branch as an unreachable case.

## Model

| member | source | states |
|---|---|---|
| Text.SplitJoin | backend/server.py:103 | splitting on whitespace undoes joining whitespace-free words with single spaces |
| Text.ParseZeroPad | backend/server.py:336 | reading the `{idx:03d}` numeral back gives the index, so the padding is injective |
| Text.SplitOnJoin | backend/server.py:393-394 | splitting on a one-character separator undoes joining with it when no piece holds the separator |
| Query.StripSpecial | backend/server.py:101 | every character kept belongs to the class `[\w\s\-\']`; the result is no longer than the input |
| Query.StripSpecialChar | backend/server.py:101 | a single character survives `re.sub` exactly when it belongs to `[\w\s\-\']` |
| Query.StripSpecialAppend | backend/server.py:101 | the substitution distributes over concatenation, so every kept character survives in order and only the others are dropped |
| Query.CleanQuery | backend/server.py:98-104 | definition: strip, split on whitespace, re-join with single spaces; its properties are the lemmas below |
| Query.CleanQueryKeepsWords | backend/server.py:103 | re-joining loses no word: the sanitised query splits into exactly the words of the stripped text |
| Query.CleanQueryIsSanitised | backend/server.py:98-104 | the sanitised query holds only word characters, `-`, `'` and single inner spaces: no leading, trailing or doubled space |
| Query.CleanQueryIdempotent | backend/server.py:98-104 | sanitising a sanitised query changes nothing |
| Query.PlanShape | backend/server.py:130-149 | unfolding lemma for `Plan`: six strategies when the raw query has more than two words, else five, in order: clean query with 5 and 3 results, raw query with 5, the half query, then " official audio" with 5 and " official" with 3 |
| Query.Strategies | backend/server.py:132-149 | definition: the five fixed search strings around the optional half query |
| Query.Plan | backend/server.py:130-149 | definition: the strategy list, with the half query only for more than two raw words; its shape is `PlanShape` |
| Query.HalfQueryTokens | backend/server.py:139-143 | the half query consists of exactly the first `len(parts)//2` raw words, and it is never empty when it is tried |
| Query.PlanDefaultSearch | backend/server.py:154 | each strategy's `default_search` is its own `ytsearchN:` prefix, whatever colons the query holds |
| Query.StrategiesDefaultSearch | backend/server.py:154 | every search string's `split(':')[0] + ':'` is the `ytsearch5:` or `ytsearch3:` prefix it was built with |
| Playlist.FindMatch | backend/server.py:92 | the position found is a match and no earlier position at or after the start is one; none is found only when there is no match |
| Playlist.SearchGroup | backend/server.py:92-94 | `re.search` of the pattern gives the maximal id-character run after the leftmost match, and nothing exactly when there is no match |
| Playlist.ExtractPlaylistId | backend/server.py:84-96 | the `playlist/` group when that pattern matches, otherwise the `playlist:` group, and the ValueError message exactly when neither matches |
| Playlist.UsableIndices | backend/server.py:207-209 | the positions kept are increasing, all usable, and include every usable item |
| Playlist.Usable | backend/server.py:207 | definition: the item has a track whose id is present and non-empty |
| Playlist.ToTrack | backend/server.py:209-216 | definition: the `Track` built from a usable item, artists joined with ", ", the first album image if any |
| Playlist.CollectTracks | backend/server.py:205-216 | the loop returns one `Track` per usable item, in playlist order, built from that item |
| Playlist.NoUsableIndices | backend/server.py:218-219 | no track survives the filter exactly when no item has a track with a truthy id |
| Playlist.CatalogErrorStatus | backend/server.py:235-247 | 404 exactly when the message contains "404"; otherwise 403 exactly when it contains "401" or "403"; 500 otherwise |
| Playlist.CatalogError | backend/server.py:230-247 | definition: a ValueError maps to 400 with its message; any other failure to the status of `CatalogErrorStatus` and its fixed detail |
| Playlist.GetPlaylist | backend/server.py:194-247 | 400 for a URL without an id; the catalog failure's mapped status; for a fetched playlist, `Ok` exactly when some item is usable and otherwise 400 "empty"; an `Ok` holds the usable tracks in order, their count, and the playlist's id, name, description and first image |
| Download.Mp3sAddOne | backend/server.py:172 | writing one more `.mp3` file adds exactly that file to what the glob `*.mp3` returns |
| Download.OutputNameKeepsExtension | backend/server.py:111 | the output template keeps a file's `.mp3` extension |
| Download.NamePrefix | backend/server.py:111 | definition: `prefix_uid_`, or `uid_` without a prefix |
| Download.OutputName | backend/server.py:111 | definition: the output template filled with a title part |
| Download.OutputNameWithPrefix | backend/server.py:110-111 | with a non-empty prefix, every on-disk name starts with the prefix followed by `_` |
| Download.OutputNameInjective | backend/server.py:111 | under one prefix and uid, distinct titles land under distinct names |
| Download.Workspace.constructor | backend/server.py:254-256 | a new directory named by the download id exists and is empty |
| Download.Workspace.Write | backend/server.py:169 | a download adds its files to the directory and removes none |
| Download.Workspace.Remove | backend/server.py:272-275 | after `rmtree` the directory is gone and holds nothing |
| Download.StopsAtFirstSuccess | backend/server.py:151-188 | strategies run in order; the loop stops at the first that returns True; False means every strategy ran and none returned True; the directory holds exactly what the tried strategies wrote |
| Download.Resolve | backend/server.py:151-188 | definition: the strategy loop from strategy `i`; its behaviour is `StopsAtFirstSuccess` |
| Download.ResolveKeepsFiles | backend/server.py:169-175 | the loop never removes a file, and a True result leaves an mp3 in the directory |
| Download.ResolveAddsOwnNames | backend/server.py:110-111 | every file the loop adds starts with this call's `prefix_uid_` (or `uid_` without a prefix) |
| Download.SharedDirectorySuccess | backend/server.py:169-175 | in a directory already holding an mp3, a first strategy that downloads without writing anything returns True |
| Download.AllRaised | backend/server.py:183-188 | when every strategy raises, the loop returns False after running them all, and whatever they wrote stays |
| Download.DownloadFromYoutube | backend/server.py:106-188 | the method's result and directory equal the specification loop over the strategy list |
| Download.DownloadTrack | backend/server.py:249-315 | False gives 404 "not found" with the directory removed; True always gives a file, an mp3 of the directory the loop left, offered as "name - artist.mp3" with type audio/mpeg |
| Download.TrackSuccessLeavesMp3 | backend/server.py:281-292 | a True result leaves an mp3 in the directory, so the second 404 of `download_track` cannot happen |
| Batch.FailedIndices | backend/server.py:343-352 | there are at most as many failed positions as items, each below the number of items |
| Batch.TrackPrefix | backend/server.py:336 | definition: `track_` and the index padded to three digits; read back by `PrefixNamesItem` |
| Batch.ItemJobs | backend/server.py:333-343 | definition: the strategy loop run at each position, with the track's strategy list and the prefix `track_{idx:03d}` |
| Batch.ServerItem | backend/server.py:333-343 | unfolding lemma: the server's step at a position runs that track's strategy list under the position's prefix |
| Batch.BatchRun | backend/server.py:332-352 | definition: the batch loop over the first `n` items; its behaviour is `TallyAccounts` and the lemmas below |
| Batch.FailedIndicesExact | backend/server.py:343-352 | the failed positions are increasing, each belongs to an item that returned False, and every such item is listed |
| Batch.JobStepsKeepFiles | backend/server.py:337-345 | a batch item only adds files to the shared directory, and an item returning True leaves an mp3 there |
| Batch.ItemJobsPrefixed | backend/server.py:336-343 | every file the item at position `idx` adds starts with `track_{idx:03d}_` |
| Batch.BatchRunStep | backend/server.py:332-352 | unfolding lemma for `BatchRun`: each iteration adds one to the counter or appends the item's name to the failed list, and runs the item in the directory the earlier items left |
| Batch.TallyAccounts | backend/server.py:328-352 | counter plus failed-list length equals the number of items, and the failed list names exactly the failed items, in input order |
| Batch.BatchKeepsMp3 | backend/server.py:343-345 | for items that only add files and leave an mp3 on success: once some item has returned True, the shared directory holds an mp3 |
| Batch.BatchFilesCarryPrefix | backend/server.py:336-343 | when each item writes under its own `track_{idx:03d}_` prefix, every file in the shared directory starts with `track_` and the padded index of one of the items run |
| Batch.PrefixNamesItem | backend/server.py:336 | from a name starting with `track_{idx:03d}_`, the digits after `track_` up to the next `_` read back as `idx` |
| Batch.ItemNamesDisjoint | backend/server.py:336 | two different items never write the same file name |
| Batch.SummaryRoundTrip | backend/server.py:393 | the summary header splits on `/` into exactly the counter and the total |
| Batch.SummaryHeader | backend/server.py:393 | definition: `"{successful}/{total}"` |
| Batch.FailedHeader | backend/server.py:394 | definition: the first five failed names joined with ",", or empty |
| Batch.FailedHeaderRoundTrip | backend/server.py:394 | the failed header is empty when nothing failed; otherwise it splits on `,` into the first five failed names, provided no name holds a comma |
| Batch.DownloadAll | backend/server.py:317-402 | the counter and failed list are the specification loop's; without an mp3 the directory is removed and 404 is raised; a zip failure gives 500 and leaves the directory; otherwise the zip holds every mp3 present with the two headers |
| Batch.ZipOf | backend/server.py:367-395 | definition: the zip path and name, `application/zip`, every mp3 present as a member, and the two headers |
| Batch.SuccessYieldsZip | backend/server.py:355-365 | a batch that counted a success never answers the "no tracks" 404 |
| Batch.MembersKeepPrefix | backend/server.py:369-371 | zip members keep their on-disk names, each starting with `track_` and the padded index of a processed item |
| Batch.ItemWritesMp3 | backend/server.py:343-345 | an item whose first strategy writes one mp3 counts as a success and adds exactly that file |
| Batch.PhantomSuccess | backend/server.py:343-345 | once the shared directory holds an mp3, an item that downloads without writing anything still counts as a success |
| Batch.ItemRaisesAfterMp3 | backend/server.py:347-348 | an item whose strategies all raise after writing an mp3 is listed as failed, yet its file stays in the directory |
| Batch.CountExceedsMembers | backend/server.py:343-371 | two items can add two to the counter while the zip gains one member |
| Batch.FailedItemStillZipped | backend/server.py:355-371 | a last item that fails after writing an mp3 leaves the counter unchanged and still yields a zip |

## Left out

- The YouTube search-and-download library: it is an oracle. The model does not capture its formats, post-processing, network use or its choice of titles.
- The music catalog client: `get_playlist` receives the catalog fetch as a function parameter. The `market` argument and pagination beyond the first page of items are not modelled.
- The database connection, the web framework's routing, CORS and request validation: they do not affect the engine's results. A missing or mistyped request field is not modelled.
- `uuid.uuid4()`: the download id and the per-call `uuid[:8]` values are parameters. Their uniqueness is not modelled.
- The thread-pool executor: the server awaits each call before the next, so the model runs them in sequence.
- Logging: it has no effect on results.
- The deferred cleanup tasks, which run after the response is sent: they are not modelled. The directory stays present in the returned state.
- Download.Workspace.Remove: a failing `rmtree` is ignored by the server. The model always removes the directory.
- Download.DownloadTrack: the generic exception path (500) is not modelled, because the modelled operations do not raise. The same holds for the inner per-item `except` of `download_all`: a raising strategy is caught inside the strategy loop.
- Batch.DownloadAll: the only generic exception modelled is a zip-writing failure, given as a boolean. It answers 500 and, as in the server, guarantees no cleanup.
- Download.DownloadTrack: `mp3_files[0]` depends on the file system's glob order. The model returns some mp3 of the directory, not a particular one.
- Text.IsSpace and Text.IsWordChar: `\s` and `\w` are modelled up to U+024F. Above it, the Unicode separators (U+1680, U+2000-U+200A, U+2028, U+2029, U+202F, U+205F, U+3000) and all other Unicode letters and digits are not included.
- The frontend and the test scripts are not part of this model.
