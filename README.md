# CardPuter MP3 player: library engine and streaming-client helpers

A Dafny model of the core of the CardPuter MP3 firmware, with proofs of what it promises.

The **library engine** (src/file_manager.cpp, include/app_state.hpp) covers:

- the path helpers;
- the depth-bounded scan that writes the catalog file, one path per line;
- the loader that numbers the catalog's non-blank lines as song ids and records where each starts;
- the identity queue, and the queue scoped to a directory;
- the FIFO path cache and the lookups through it;
- the folder browser list;
- the delete-and-repair coordinator;
- the 24-bit BMP encoding of a screenshot.

The **streaming-client helpers** (src/network_player.cpp) cover:

- base-URL normalisation and host extraction;
- the session cookie jar;
- reading fields out of JSON replies;
- the API verdict;
- the track walk;
- the audio-URL search.

`AppState` is a class. Its fixed-size C arrays are Dafny arrays, and its reset helpers are methods with frames. The four `networkTrack*` arrays of the streaming client are a class of their own, `Tracks.NetworkTracks`. Every loop of the source is a loop method proved against a specification function. The properties of those functions are proved as lemmas.

The storage medium is a value `Storage.Fs`:

- a map from directory paths to their children in enumeration order;
- the catalog file as its lines, or `None` when it cannot be opened.

A parsed JSON reply is the value `Json.Json`. Object members are kept in document order, and a repeated key reads its first occurrence. Replies are expected to have distinct keys, where this choice does not matter. The configured capacities (MAX_LIBRARY_FILES and the others) live in config.hpp, which is not part of this model. Each is an unspecified constant whose type states only what the code relies on.

Some behaviours of the code are easy to miss; the model follows the code:

- **Scope excludes the directory itself.** `pathInDirectoryRecursive` admits only paths strictly below a directory other than the root, never the directory itself (`FilePaths.ScopeExcludesSelfAndSiblings`).
- **A failed rebuild keeps the old index.** When `rebuildLibraryIndex` cannot create the catalog file, it returns false and leaves the in-memory index as it was. The old catalog is already removed at that point.
- **Repairing the playing cursor.** In `deleteCurrentFile`:
  - When another song was playing but its path could not be read, the playing cursor takes the selection as the rebuild left it, clamped to the queue. With a recreated catalog that selection is 0. When the catalog could not be recreated, no queue can be built either, so it is the old selection, clamped.
  - When another song was playing and its path was read, the playing cursor moves to the first queue position holding that path in the rebuilt queue, or to 0 when the path is no longer queued (`Deletion.DeleteCurrentFile`).
  - When the deleted song was the playing one, the new playing position is the selection as the queue rebuild left it. Once the catalog could be recreated, that selection is always 0. The reload puts both cursors on song 0, and the rebuild without a preferred song keeps them there (`Deletion.DeleteCurrentFile`).
- **Cookie separators.** Replacing a cookie in the middle of the jar leaves an empty `;;` piece behind (`Cookies.UpsertLeavesDoubledSeparator`). This is kept as written: later lookups skip empty pieces, so nothing reads it wrongly.
- **Target word sizes.** The device is a 32-bit ESP32: `int` and `long` are 32 bits and `long long` is 64. Integer type tests and the conversion to `long` are modelled for those widths.

## Model

| member | source | states |
|---|---|---|
| Strings.Trim | src/network_player.cpp:14-18 | the result has no white space at either end, and is empty exactly when the input is all white space |
| Strings.TrimOfTrimmed | src/network_player.cpp:14-18 | trimming text with no surrounding white space gives it back unchanged |
| Strings.ToLower | src/file_manager.cpp:12-14 | same length; every character is lower-cased one by one (ASCII only) |
| Strings.IndexOfFrom | src/network_player.cpp:47 | a position at or after `from` holding the character, or -1 |
| Strings.IndexOfFromFirst | src/network_player.cpp:47 | no position from `from` up to the result (to the end, for -1) holds the character, so the result is the first one |
| Strings.IndexOfFirst | src/network_player.cpp:78 | no position before the result (anywhere, for -1) holds the character |
| Strings.SkipSpacesSkips | src/network_player.cpp:14-18 | every character skipped from the front is white space |
| Strings.SkipSpacesBackSkips | src/network_player.cpp:14-18 | every character dropped from the back is white space |
| Strings.TrimOfSlice | src/network_player.cpp:49-50 | trimming the piece [lo, hi) of a text keeps the stretch of the text between its first and last non-space characters in that piece |
| Strings.LastIndexOf | src/file_manager.cpp:48-51 | the last position holding the character, or -1 when none does |
| Strings.IndexOfText | src/network_player.cpp:262-268 | the first position where the text occurs, or -1 when there is none |
| Strings.IndexOfTextFinds | src/network_player.cpp:262-268 | the search succeeds exactly when the text occurs |
| FilePaths.SupportedAudioByLastDot | src/file_manager.cpp:12-19 | the last-dot test equals "ends in .mp3 or .wav, ignoring case", in both directions |
| FilePaths.NormalizeDir | src/file_manager.cpp:21-26 | the result is absolute, and a directory already in normal form is kept as it is |
| FilePaths.BuildEntryPathKeepsName | src/file_manager.cpp:28-33 | an absolute name is kept; the built path ends with the name, and is absolute under an absolute base |
| FilePaths.ExtractBaseName | src/file_manager.cpp:48-52 | the result holds no '/', ends the path, and a '/' stands just before it when it is not the whole path |
| FilePaths.ExtractDisplayName | src/file_manager.cpp:35-46 | the result holds no '/' and is a prefix of the base name |
| FilePaths.DisplayNameDropsLastExtension | src/file_manager.cpp:41-44 | a base name without a '.' is kept whole; otherwise exactly the text from its last '.' on is dropped |
| FilePaths.GetParentDir | src/file_manager.cpp:54-59 | the result is the root, or a proper prefix of the directory followed there by '/' |
| FilePaths.PathInDirectoryRecursive | src/file_manager.cpp:61-65 | below a directory other than the root, a path in scope starts with the directory followed by '/' |
| FilePaths.ScopeExcludesSelfAndSiblings | src/file_manager.cpp:61-65 | neither the directory itself nor a sibling whose name extends it is in scope |
| FilePaths.ScopeIsTransitive | src/file_manager.cpp:61-65 | a path below a sub-directory that is in scope of a directory is in scope of that directory |
| FilePaths.EntryPathRoundTrip | src/file_manager.cpp:28-65 | the path built for a child of a normal directory gives back its name and its parent, and lies in the directory's scope |
| FilePaths.RootAdmitsEveryAbsolutePath | src/file_manager.cpp:61-62 | the root's scope is exactly the absolute paths |
| FilePaths.SupportedAbsolutePathIsTrimmed | src/file_manager.cpp:12-19 | an absolute path that passes the audio test is non-empty and needs no trimming |
| Storage.EntryLineIsNotBlank | src/file_manager.cpp:286-288 | the loader numbers a line exactly when it is not empty once trimmed |
| Storage.CatalogPathsAreTrimmed | src/file_manager.cpp:284-292 | every catalog path is non-empty and trimmed |
| Storage.LineOffsetsIncrease | src/file_manager.cpp:284-292 | the recorded offsets lie inside the text and strictly increase |
| Storage.SkipBlankLine | src/file_manager.cpp:288 | a blank line takes neither a song id nor an offset |
| Storage.NumberEntryLine | src/file_manager.cpp:285-291 | a non-blank line takes the next song id, with its trimmed text and its start offset |
| Storage.ReadAtRecordedOffset | src/file_manager.cpp:160-168 | reading the line at song k's recorded offset and trimming it gives song k's catalog path |
| Storage.CatalogPathsAppend | src/file_manager.cpp:284-292 | the catalog paths of two runs of lines are the paths of the first run, then those of the second |
| Storage.LineOffsetsAppend | src/file_manager.cpp:284-292 | the second run's offsets start where the first run's text ends |
| Storage.LoaderStep | src/file_manager.cpp:284-292 | one line of the loader advances the position by the line and its '\n', and numbers the line at that position when it is not blank |
| Storage.PrintedLineTrims | src/file_manager.cpp:114 | trimming a line written by `println` removes exactly the '\r' it added |
| Storage.PrintedCatalogRoundTrip | src/file_manager.cpp:114 | writing trimmed non-empty paths one per line and reading them back gives the same paths in order |
| LibraryScan.ScanDir | src/file_manager.cpp:91-121 | the scan writes no more paths than the songs that still fit |
| LibraryScan.ScanWritesOnlyAudio | src/file_manager.cpp:105-117 | every written path passes the audio test, and is absolute under an absolute directory |
| LibraryScan.ScanIsPrefixOfAllAudio | src/file_manager.cpp:96-120 | the capacity only truncates: the scan writes exactly the first `budget` files of the unbounded depth-limited enumeration |
| LibraryScan.AllAudioIsListed | src/file_manager.cpp:104-119 | every enumerated file is a file child of some listed directory |
| LibraryScan.ScanDirectoryToIndex | src/file_manager.cpp:91-121 | the lines written are the printed scan of the directory for the songs that still fit, and the count grows by their number |
| LibraryScan.ScanOneEntry | src/file_manager.cpp:106-117 | one child writes the printed scan of that child, recursing into a directory while levels remain |
| App.AppState.constructor | include/app_state.hpp:9-83 | every default value the record declares: cursors 0, volume 10, playing, sequential mode, scroll 8, empty ID3 fields, empty library, queue and browser scoped to MUSIC_DIR, zeroed arrays |
| App.AppState.ResetPathCache | include/app_state.hpp:90-96 | every cache slot holds (-1, "") and the write cursor is 0 |
| App.AppState.ResetBrowserEntries | include/app_state.hpp:112-122 | an empty listing of MUSIC_DIR with the browser closed and every slot cleared |
| App.AppState.ResetLibraryState | include/app_state.hpp:98-110 | empty library and queue scoped to MUSIC_DIR, zeroed offsets and queue, cursors 0, cache and browser reset; the record's invariants hold |
| App.AppState.ResetID3Metadata | include/app_state.hpp:124-137 | the tags and cover position are cleared and the buffer released; the size is zeroed only when a buffer was held |
| App.ValidIdsDistinctMeans | include/app_state.hpp:71-73 | the cache invariant means no valid song id sits in two slots |
| App.IdsIncreaseMeans | include/app_state.hpp:68 | the queue invariant means the queued ids strictly increase |
| LibraryIndex.FirstIndexOf | src/file_manager.cpp:147-152 | the first position holding the value, or -1 exactly when it is absent |
| LibraryIndex.RecordedOffsetReadsPath | src/file_manager.cpp:154-169 | a cache miss for song k reads song k's catalog path |
| LibraryIndex.RebuildQueueFromLibrary | src/file_manager.cpp:123-142 | the queue is every song id in order and scoped to MUSIC_DIR; both cursors end in range, an out-of-range selection going to 0 and an out-of-range playing cursor to the selection |
| LibraryIndex.ReadPathBySongIndex | src/file_manager.cpp:144-178 | an out-of-range id fails; a hit answers from the cache; a miss stores a read path at the FIFO cursor; the cache stays free of duplicates and agrees with the catalog, so every valid id yields its catalog path |
| LibraryIndex.FindCachedSlot | src/file_manager.cpp:147-152 | the first slot holding the id, or -1 |
| LibraryIndex.StoreInCache | src/file_manager.cpp:171-174 | the id and path go into the slot at the write cursor, which advances modulo the cache size; the invariants and agreement with the catalog are kept |
| LibraryIndex.StoreKeepsSlotsOk | src/file_manager.cpp:171-174 | storing an absent id with a non-empty path keeps valid ids distinct |
| LibraryIndex.StoreKeepsAgreement | src/file_manager.cpp:171-174 | storing an id with its own catalog path keeps the cache in agreement with the catalog |
| LibraryIndex.FindSongIndexByPath | src/file_manager.cpp:180-190 | the smallest song id whose catalog path is the target, or -1; an empty target gives -1 |
| LibraryIndex.SongPathIs | src/file_manager.cpp:185 | the loop test holds exactly when the song's catalog path is the target |
| LibraryIndex.GetPathByQueueIndex | src/file_manager.cpp:306-311 | an out-of-range position fails; any other gives the catalog path of the song queued there |
| LibraryIndex.FindQueueIndexByPath | src/file_manager.cpp:192-201 | the first queue position whose song's path is the target, or -1; an empty target gives -1 |
| LibraryIndex.QueuePathIs | src/file_manager.cpp:197 | the loop test holds exactly when the path of the song queued at q is the target |
| LibraryIndex.LoadLibraryIndex | src/file_manager.cpp:275-304 | the ids are the first MAX_LIBRARY_FILES non-blank catalog lines, each with its start offset; the queue is the identity over them with cursors 0, the cache and browser are empty, and the result is true exactly when a song was loaded |
| LibraryIndex.NumberCatalogLines | src/file_manager.cpp:284-292 | up to capacity, every non-blank line gets the next id and its start offset |
| LibraryIndex.NumberLine | src/file_manager.cpp:285-291 | one line moves the loader state on by one line |
| LibraryIndex.RebuiltCatalogNamesScannedFiles | src/file_manager.cpp:249-304 | the written catalog read back names exactly the scanned audio paths |
| LibraryIndex.RebuildLibraryIndex | src/file_manager.cpp:249-273 | a catalog that cannot be created fails and leaves the index alone; otherwise the catalog is the printed scan of the normalised directory and the loaded ids name the first MAX_LIBRARY_FILES audio files below it, in enumeration order |
| PlaybackQueue.ScopedIds | src/file_manager.cpp:335-347 | there are no more scoped ids than catalog paths |
| PlaybackQueue.ScopedIdsIncrease | src/file_manager.cpp:335-347 | the scoped ids are catalog ids, strictly increasing |
| PlaybackQueue.ScopedIdsMembership | src/file_manager.cpp:340 | an id is scoped exactly when its catalog path is in scope of the directory |
| PlaybackQueue.PositionOf | src/file_manager.cpp:342-343 | the queue position holding the id, or -1 exactly when it is not queued |
| PlaybackQueue.PositionOfAppend | src/file_manager.cpp:341-344 | queueing an id larger than all before it keeps every earlier position |
| PlaybackQueue.SelectPositionLands | src/file_manager.cpp:359-368 | the position chosen lies in the queue and holds the preferred song if it is queued, else the playing song if queued, else it is 0 |
| PlaybackQueue.SelectFirstSong | src/file_manager.cpp:359-368 | with no preferred song and song 0 (or none) playing, an increasing queue puts the cursors on position 0 |
| PlaybackQueue.CatalogLineTakesId | src/file_manager.cpp:338-340 | a non-blank catalog line takes the next song id, and its trimmed text is that song's path |
| PlaybackQueue.QueuePush | src/file_manager.cpp:341 | writing an id to the first free slot extends the queue front by it and leaves the slots after it as they were |
| PlaybackQueue.QueueScanStart | src/file_manager.cpp:335-337 | before the first line the queue front is empty and neither song has a position |
| PlaybackQueue.QueueScanBlank | src/file_manager.cpp:338-339 | a blank line takes no id and changes nothing |
| PlaybackQueue.QueueScanOutOfScope | src/file_manager.cpp:338-346 | a line out of scope takes the next id and queues nothing |
| PlaybackQueue.QueueScanInScope | src/file_manager.cpp:338-346 | a line in scope takes the next id, is queued, and records the preferred or playing position when it is that song |
| PlaybackQueue.QueueScanDone | src/file_manager.cpp:336-347 | when the loop stops, at the end of the catalog or at the loaded count, the queue front is all the scoped ids and the positions are theirs |
| PlaybackQueue.QueueLine | src/file_manager.cpp:336-346 | one pass of the loop keeps the loop state |
| PlaybackQueue.CollectScopedIds | src/file_manager.cpp:335-347 | the queue front holds the scoped ids among the first `libraryCount` songs, the rest of the queue is untouched, and the preferred and playing positions are reported |
| PlaybackQueue.FillQueue | src/file_manager.cpp:335-351 | queue and count are the scoped ids, which keep the queue invariant; the scope becomes the directory |
| PlaybackQueue.InstallScopedQueue | src/file_manager.cpp:330-373 | the scoped queue is installed; an empty one fails with cursors 0, a non-empty one puts both cursors on the preferred, else the playing, else the first song and resets the scroll |
| PlaybackQueue.PlaceQueueCursors | src/file_manager.cpp:353-370 | success exactly when the queue is non-empty, with the cursor policy above |
| PlaybackQueue.BuildQueueForDirectory | src/file_manager.cpp:317-374 | with no catalog nothing changes and the call fails; otherwise the queue for the normalised directory, as above |
| Browser.Rows | src/file_manager.cpp:67-89 | the first n rows of the four parallel arrays, one entry per index |
| Browser.AddDirDeduplicates | src/file_manager.cpp:67-79 | adding a directory never repeats a directory path and, on success, the path is listed |
| Browser.ShowChildKeepsOk | src/file_manager.cpp:402-416 | one child keeps the listing bounded, deduplicated and resolved |
| Browser.AddDirKeepsOk | src/file_manager.cpp:67-79 | adding a directory row keeps the listing bounded, deduplicated and resolved, and extends it |
| Browser.AddSongKeepsOk | src/file_manager.cpp:81-91 | adding a supported audio file with the id of its path keeps the listing bounded, deduplicated and resolved, and extends it |
| Browser.ListChildrenKeepsOk | src/file_manager.cpp:402-416 | the whole enumeration keeps the listing bounded, deduplicated and resolved |
| Browser.BrowserListingOk | src/file_manager.cpp:376-421 | the list is bounded, lists each directory path once, starts with the parent row below the root, and resolves each file row to the id of its path |
| Browser.ShowChildLists | src/file_manager.cpp:402-416 | with room left, a sub-directory or a supported audio child is listed once shown |
| Browser.ListChildrenComplete | src/file_manager.cpp:402-416 | when the children fit, every sub-directory and every supported audio file among them is listed |
| Browser.ListChildrenGrows | src/file_manager.cpp:402-416 | the enumeration only ever appends rows |
| Browser.FindDirEntry | src/file_manager.cpp:68-70 | found exactly when a directory row leads to the path |
| Browser.PutEntry | src/file_manager.cpp:73-77 | the rows are the old rows plus the new one |
| Browser.AddBrowserDirectoryEntry | src/file_manager.cpp:67-79 | the rows and result are those of `AddDir` |
| Browser.AddBrowserSongEntry | src/file_manager.cpp:81-89 | the rows and result are those of `AddSong` |
| Browser.ClearListing | src/file_manager.cpp:379-388 | an empty list for the directory, every slot cleared, selection 0 |
| Browser.StartListing | src/file_manager.cpp:379-393 | the list holds only the parent row below the root |
| Browser.ShowDirectoryChild | src/file_manager.cpp:404-408 | a sub-directory is added by its base name |
| Browser.ShowAudioChild | src/file_manager.cpp:409-413 | an audio file is added by its display name with the id of its path |
| Browser.ShowChildEntry | src/file_manager.cpp:403-415 | one pass of the loop; other children are skipped |
| Browser.ListDirectory | src/file_manager.cpp:401-416 | the rows become `ListChildren` of the directory's children |
| Browser.BuildBrowserEntries | src/file_manager.cpp:376-421 | the list always starts with the ".." row to the parent, except at the root; a path that is not a directory fails, leaving only that row (one row, or none at the root); otherwise, while the index agrees with the catalog, the rows are exactly `BrowserListing` |
| Deletion.WithoutFile | src/file_manager.cpp:450 | exactly the children that are directories or whose built path is not the removed one |
| Deletion.RemoveFileUnlists | src/file_manager.cpp:450 | the removed file is listed nowhere and every other entry stays listed |
| Deletion.UnlistedNotScanned | src/file_manager.cpp:459-464 | a rescan after the removal does not catalog the removed path |
| Deletion.Clamp | src/file_manager.cpp:489-490 | the result lies in [0, n) for n > 0, and equals i when i is already in range |
| Deletion.FallbackQueueNonEmpty | src/file_manager.cpp:466-470 | the fallback chain ends with an empty queue only when no absolute catalog path exists |
| Deletion.RequeueFromStart | src/file_manager.cpp:466-470 | with no catalog nothing changes; otherwise the queue is the scoped ids of the directory, success exactly when they are not empty, and from a fresh load both cursors stay on 0 |
| Deletion.RequeueAfterDelete | src/file_manager.cpp:466-470 | the queue is that of the old scope, else of MUSIC_DIR, else of the root, whichever is first non-empty; from a fresh load the cursors stay on 0 |
| Deletion.RebuildAfterDelete | src/file_manager.cpp:459-464 | an uncreatable catalog leaves the index alone and the non-empty queue stops the retry from the root; otherwise the index agrees with the new catalog, which names the first audio files below MUSIC_DIR, or below the root when MUSIC_DIR gave none |
| Deletion.NewPlayingIndex | src/file_manager.cpp:481-491 | a position in the queue: the first position of the remembered playing path, else 0; when the playing song was deleted or its path unknown, the selection clamped to the queue |
| Deletion.ApplyRepair | src/file_manager.cpp:472-514 | an empty queue stops playback with cursors 0 and no events; otherwise the playing cursor, the selection (the deleted position clamped, or the playing cursor), the track-switch request, resumed playback and the callback events |
| Deletion.SetPlayback | src/file_manager.cpp:473-476 | the cursors and flags hold the values given and the record stays valid |
| Deletion.RepairAfterDelete | src/file_manager.cpp:450-514 | the removed file is listed nowhere; the new catalog names the first audio files of MUSIC_DIR or the root and not the removed path; the queue is the fallback queue of the old scope; the playing cursor is relocated by path (`PlayingRelocated`) or put on 0; the cursors, flags and events are repaired as in `ApplyRepair` |
| Deletion.CascadeAfterDelete | src/file_manager.cpp:457-470 | the new catalog names the first audio files of MUSIC_DIR or the root and not a path the file system no longer lists, the queue is the fallback queue of the old scope, and the selection is 0 |
| Deletion.RepairCursors | src/file_manager.cpp:472-514 | an empty queue stops playback with cursors 0; otherwise the playing cursor is the remembered path's position (or the clamped selection) and the selection and flags follow `ApplyRepair` |
| Deletion.DeleteCurrentFile | src/file_manager.cpp:428-515 | an out-of-range selection, an unreadable path or a failed removal changes only the cache; otherwise the selected song's catalog path is removed, is in no rebuilt catalog, the queue falls back from the old scope to MUSIC_DIR to the root, both cursors lie in a non-empty queue (or playback stops); deleting the playing song puts both cursors on 0, requests a track switch and resumes playback that was running; deleting another song keeps the track-switch request and the playback flags and moves the playing cursor to the first position of the old playing song's path (`PlayingRelocated` of `PlayingPathBefore`), or 0; the callbacks fire in order |
| Deletion.ResolvePaths | src/file_manager.cpp:434-447 | the selected song's catalog path; the playing song's catalog path (`PlayingPathBefore`) when another song is playing at a position in the queue, else "" |
| Screenshot.RowSize | src/file_manager.cpp:566 | the smallest multiple of four that holds three bytes per pixel |
| Screenshot.LE32 | src/file_manager.cpp:556-574 | four bytes, least significant first |
| Screenshot.LE32RoundTrip | src/file_manager.cpp:556-574 | reading a written 32-bit field gives the value back |
| Screenshot.BmpHeader | src/file_manager.cpp:537-574 | 54 bytes |
| Screenshot.HeaderFields | src/file_manager.cpp:537-574 | a reader finds "BM", then the file size, width and height given |
| Screenshot.HeaderConstants | src/file_manager.cpp:537-553 | pixel offset 54, info size 40, one plane, 24 bits, zero compression and reserved fields |
| Screenshot.ChannelsRoundTrip | src/file_manager.cpp:589-591 | the three channels reassemble the pixel |
| Screenshot.Expand5 | src/file_manager.cpp:593-595 | the top five bits of the result are the channel; 0 and 31 map to 0 and 255 |
| Screenshot.Expand6 | src/file_manager.cpp:594 | the top six bits of the result are the channel; 0 and 63 map to 0 and 255 |
| Screenshot.ExpandIsMonotone | src/file_manager.cpp:593-595 | widening keeps the order of intensities |
| Screenshot.PixelBytes | src/file_manager.cpp:597-599 | blue, green, red |
| Screenshot.PixelRunIndex | src/file_manager.cpp:583-600 | pixel x lands at bytes 3x to 3x+2 |
| Screenshot.BottomUpIndex | src/file_manager.cpp:581-606 | stored row k is image row H-1-k |
| Screenshot.BmpLength | src/file_manager.cpp:566-568 | the file is 54 bytes plus one padded row per display line, the size the header records |
| Screenshot.BmpPixel | src/file_manager.cpp:581-606 | pixel (x, y) is stored as blue, green, red at the start of stored row H-1-y plus 3x, after the header |
| Screenshot.BmpPadding | src/file_manager.cpp:601-604 | the padding bytes of every row are zero |
| Screenshot.FillRow | src/file_manager.cpp:582-604 | the row buffer holds the row's pixel bytes, then zero padding |
| Screenshot.WriteHeader | src/file_manager.cpp:537-574 | the header array is `BmpHeader` |
| Screenshot.PutLE32 | src/file_manager.cpp:556-574 | the field goes in little-endian and nothing else changes |
| Screenshot.EncodeScreenshot | src/file_manager.cpp:577-606 | the bytes written are exactly `Bmp` of the image |
| NetUrl.TrimIsIdempotent | src/network_player.cpp:14-18 | trimming twice is trimming once |
| NetUrl.NormalizeBaseUrl | src/network_player.cpp:20-29 | empty exactly for blank input; no trailing '/'; the schemed trimmed text minus exactly its trailing slashes |
| NetUrl.AuthorityStart | src/network_player.cpp:90-93 | 0, or just past a "://" |
| NetUrl.HostPortAt | src/network_player.cpp:94-96 | the run of characters from start up to the next '/' |
| NetUrl.WithoutUserInfo | src/network_player.cpp:97 | the text after the last '@' |
| NetUrl.WithoutPort | src/network_player.cpp:98-99 | the text before the first ':', unless the colon is the first character |
| NetUrl.ExtractedHostIsPlain | src/network_player.cpp:90-100 | the host is a piece of the URL with no '/' or '@' |
| NetUrl.ExtractHostOfAssembledUrl | src/network_player.cpp:90-100 | for scheme://host[:port]/path, the extracted host is exactly the host |
| NetUrl.LooksLikeAudioUrlMeans | src/network_player.cpp:262-268 | an http(s) URL whose lower-cased text contains an audio extension, both directions |
| NetUrl.AudioExtensionAnyCase | src/network_player.cpp:262-268 | an http(s) URL ending in an audio extension in any case counts as audio |
| Cookies.ParsePair | src/network_player.cpp:31-38 | a cookie exactly when there is an '=' after the first character and the trimmed key is non-empty; its parts are trimmed |
| Cookies.SplitThenJoin | src/network_player.cpp:42-59 | cutting at every separator and gluing back gives the text |
| Cookies.JoinThenSplit | src/network_player.cpp:42-59 | separator-free pieces glued and cut come back unchanged |
| Cookies.PiecesAreSplit | src/network_player.cpp:42-59 | reading pieces with a cursor is cutting at every separator |
| Cookies.PiecesFromHead | src/network_player.cpp:46-48 | the first piece runs to the next ';', and the others are read after it |
| Cookies.PieceEndFirst | src/network_player.cpp:47-48 | no ';' lies between the cursor and the end of its piece |
| Cookies.SegmentAtMatches | src/network_player.cpp:49-53 | the in-place test on [start, end) equals "the trimmed, lower-cased piece starts with the lower-cased `key=`" |
| Cookies.FirstMatchIsFirst | src/network_player.cpp:46-64 | no piece before the first match (none at all, when there is no match) holds the key |
| Cookies.FindSegmentHere | src/network_player.cpp:53-61 | a segment that holds the key ends the search, with its bounds |
| Cookies.FindSegmentNext | src/network_player.cpp:63 | past a segment that does not hold the key, the search goes on after its ';' |
| Cookies.StopsAtEnd | src/network_player.cpp:46 | at the end of the jar the search finds nothing, and the only piece left, the empty one, does not hold the key |
| Cookies.StopsHere | src/network_player.cpp:53-61 | when the piece at the cursor holds the key, it is the one found |
| Cookies.StopsAtLastPiece | src/network_player.cpp:46-64 | a last piece without the key leaves nothing found and no match |
| Cookies.StopsLater | src/network_player.cpp:63 | past a piece without the key, the search and the first match both move on by one piece |
| Cookies.FindSegmentStopsFirst | src/network_player.cpp:45-64 | reading from any cursor, the search finds the first piece holding the key, and nothing exactly when none does |
| Cookies.FindSegmentIsFirstMatch | src/network_player.cpp:42-59 | the search finds exactly the first piece holding the key |
| Cookies.AppendKeepsFront | src/network_player.cpp:66-68 | appending the cookie to the trimmed rest keeps any prefix of that rest |
| Cookies.RemoveSegmentKeepsFront | src/network_player.cpp:50-56 | the cut leaves trimmed text starting with the trimmed text before the segment |
| Cookies.RemoveSegmentKeepsBack | src/network_player.cpp:54-60 | the cut leaves trimmed text ending with the trimmed text after the segment |
| Cookies.AppendKeepsBack | src/network_player.cpp:66-68 | appending after non-empty trimmed text keeps its end, followed by "; key=val" |
| Cookies.CutThenAppendKeepsBack | src/network_player.cpp:54-68 | after the cut and the append, the trimmed text after the segment sits right before "; key=val" at the end |
| Cookies.Append | src/network_player.cpp:61-68 | the trimmed jar, then "; " when non-empty, then key=value |
| Cookies.UpsertNewKey | src/network_player.cpp:31-69 | with no segment holding the key, the cookie is appended to the trimmed jar |
| Cookies.UpsertKeepsEarlierSegments | src/network_player.cpp:31-69 | with a segment holding the key, the text before the first such segment survives at the front and the cookie is at the end |
| Cookies.UpsertKeepsLaterSegments | src/network_player.cpp:31-69 | with the first segment holding the key at [start, end) and text after it, that trimmed text survives right before the new "; key=val" at the end |
| Cookies.UpsertLeavesDoubledSeparator | src/network_player.cpp:50-68 | replacing b in "a=1; b=2; c=3" gives "a=1;; c=3; b=5" |
| Cookies.CutFirstMatch | src/network_player.cpp:42-59 | the jar with the first segment holding the key cut out, or unchanged |
| Cookies.TestSegment | src/network_player.cpp:49-53 | the loop test holds exactly when the trimmed, lower-cased segment starts with the key prefix |
| Cookies.TestNextSegment | src/network_player.cpp:47-63 | the segment's end; when it holds the key it is what the search finds, otherwise the search from after its ';' finds the same |
| Cookies.CutSegment | src/network_player.cpp:54-60 | the jar with the segment cut out, both sides trimmed and joined by "; " when both are non-empty |
| Cookies.UpsertCookiePair | src/network_player.cpp:31-69 | the jar becomes `Upsert(jar, pair)` |
| Cookies.LinePair | src/network_player.cpp:79-84 | the trimmed line up to its first ';' |
| Cookies.LastLineWins | src/network_player.cpp:71-88 | a header whose last line carries a well-formed cookie leaves the jar ending with that cookie |
| Cookies.MergeOneLine | src/network_player.cpp:79-85 | one line upserted when it has a pair |
| Cookies.MergeSetCookieHeader | src/network_player.cpp:71-88 | every '\n'-separated line is merged in order |
| Cookies.MergeStep | src/network_player.cpp:73-86 | merging the line at the cursor and moving past its '\n' leaves the remaining lines to give the same final jar |
| Cookies.MergeNextLine | src/network_player.cpp:74-86 | one pass of the header loop moves the cursor forward and keeps the final jar reachable |
| Json.KeyIndex | src/network_player.cpp:195-213 | the first member with the key, or -1 when none has it |
| Json.GetOfConcat | src/network_player.cpp:195-213 | reading a key of two runs reads the first run when it has the key |
| Json.ToLong32 | src/network_player.cpp:308-330 | a 32-bit value is kept; any other is congruent modulo 2^32 |
| Json.DecimalText | src/network_player.cpp:195-213 | the decimal text is never empty |
| Json.FirstTextIsFirstUsable | src/network_player.cpp:195-213 | the text of the first usable key, or "" when none is usable |
| Json.FirstTextNoneUsable | src/network_player.cpp:195-213 | with no usable key the reader gives "" |
| Json.FirstTextAt | src/network_player.cpp:195-213 | when key k is the first usable one, the reader gives its text |
| ApiResponse.MessageText | src/network_player.cpp:296-306 | some text exactly for a string or a 32-bit integer |
| ApiResponse.GetMessageField | src/network_player.cpp:296-306 | the message of the object: the first message field holding a string or a 32-bit integer |
| ApiResponse.ToLong | src/network_player.cpp:308-330 | a 32-bit signed integer as is; an unsigned 32-bit one cast; a string through `atol`; otherwise no value |
| ApiResponse.IsApiResponseOk | src/network_player.cpp:332-367 | the verdict, and the object's message (empty for a non-object) |
| ApiResponse.VerdictIsFirstApplicableRule | src/network_player.cpp:332-367 | the verdict is the decision of the first applicable rule: status, success, error_code, code |
| ApiResponse.FailureHasCause | src/network_player.cpp:332-367 | a rejected reply is an object with a failing status, success, error_code or code |
| ApiResponse.VerdictReadsFirstOccurrence | src/network_player.cpp:332-367 | members after the first occurrence of every read key change neither verdict nor message |
| Tracks.StoredText | src/network_player.cpp:195-213 | some text exactly for a string or a 64-bit integer, given as its decimal text |
| Tracks.GetStringFromObject | src/network_player.cpp:195-213 | the text of the first key present with a value taken, else "" |
| Tracks.AppendKeepsOk | src/network_player.cpp:222-241 | the list stays valid, keeps earlier tracks, grows by at most one, and then holds the object's usable hash |
| Tracks.WalkNodeKeepsOk | src/network_player.cpp:243-260 | the walk keeps the list valid and extends it |
| Tracks.WalkChildrenKeepsOk | src/network_player.cpp:247-258 | the child loop keeps the list valid and extends it |
| Tracks.ObjectBeforeItsMembers | src/network_player.cpp:243-260 | an object offers its own track before its members; its usable hash ends up listed |
| Tracks.Rows | src/network_player.cpp:236-240 | the first n slots of the four arrays |
| Tracks.NetworkTracks.constructor | src/network_player.cpp:222-223 | an empty list |
| Tracks.NetworkTracks.HasTrackHash | src/network_player.cpp:215-220 | found exactly when a listed track carries the hash |
| Tracks.NetworkTracks.Put | src/network_player.cpp:236-240 | the track is appended |
| Tracks.NetworkTracks.AppendTrackFromObject | src/network_player.cpp:222-241 | the list becomes `AppendSpec` of the object |
| Tracks.NetworkTracks.WalkTracks | src/network_player.cpp:243-260 | the list becomes `WalkNode` of the node |
| Tracks.NetworkTracks.WalkChildTracks | src/network_player.cpp:247-258 | the list becomes `WalkChildren` of the node |
| MediaUrls.CollectUrls | src/network_player.cpp:270-294 | the two URLs become `CollectNode` of the node |
| MediaUrls.CollectChildUrls | src/network_player.cpp:279-293 | the child loop gives `CollectChildren` |
| MediaUrls.ScanConcat | src/network_player.cpp:270-294 | scanning two runs is scanning one then the other |
| MediaUrls.ScanKeepsConsistent | src/network_player.cpp:270-278 | a best URL never comes without a fallback |
| MediaUrls.CollectNodeIsScan | src/network_player.cpp:270-294 | stopping early loses nothing: the search equals taking every string in order |
| MediaUrls.ScanFindsFirst | src/network_player.cpp:270-278 | each empty URL becomes the first string that qualifies for it |
| MediaUrls.CollectFromNothing | src/network_player.cpp:270-294 | from empty URLs the best is the first audio URL and the fallback the first http(s) string |

## Left out

- File-system I/O. `SD`/`fs::FS` calls are the value `Storage.Fs`. Whether `fs.remove` succeeds and whether each rebuild can create its catalog file are parameters of `Deletion.DeleteCurrentFile`. `mkdir` of MUSIC_DIR and of the screenshot directory are not modelled.
- `seek` and `available`: the catalog text is its lines, each followed by '\n'. A seek to a recorded offset always lands inside the text.
- `removePathRecursive` and `deletePathRecursive` are not part of this model. They are recursive deletion of directory trees through the storage API. `deleteCurrentFile` removes a single file only.
- `listFiles` only forwards to `rebuildLibraryIndex`, which is modelled.
- `getBrightness` reads a UI table and is not part of the core.
- The UI, battery, time, spectrum and audio-info fields of `AppState` are not modelled. Nothing in the core reads them.
- Logging is not modelled.
- `heap_caps_free` is modelled as the cover buffer becoming `None`.
- The playback and `resetClock`/`onFileDeleted` callbacks are events in the result of `Deletion.DeleteCurrentFile`.
- `captureScreenshot`: the real-time-clock file name and the file write are not modelled. `sprite.readPixel` is a sequence of RGB565 rows of the display's size. `Screenshot.EncodeScreenshot` gives the bytes written.
- The HTTP, Wi-Fi, captcha, login, playlist-loading and URL-resolving functions of src/network_player.cpp are left out. They are network I/O.
- JSON parsing: replies are already-parsed `Json.Json` values.
  - Numbers with a fraction carry no payload, because no reader here uses them.
  - `atol` is a parameter of `ApiResponse.ToLong`.
  - Number-to-text conversion is `Json.DecimalText`.
- Tracks.GetStringFromObject: reads every key it is given. The source can also be handed null key slots, which it skips, but every call in the source passes four non-null keys.
- The build-time capacities, MUSIC_DIR and the screen size are unspecified constants. config.hpp is not part of this model.
- Catalog offsets are counted in characters, not bytes. `File::position()` counts bytes, so for a catalog holding UTF-8 names with multi-byte characters the recorded offsets differ from the firmware's. The model reads each path back from its own offsets, so the round trip it proves holds either way.
