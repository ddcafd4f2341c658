# AIChatBot context pipeline, modelled in Dafny

AIChatBot is a Flask chat front end to Gemini. A chat message, or a summary
request, can carry *context items*: paths inside one sandbox directory
(`ALLOWED_CONTEXT_DIR`) or `http(s)://` URLs. This project models the part of
the program that turns those items into prompt text, and proves properties of
the model:

- `process_context_path`: the sandboxed path resolver and its folder listing.
- `fetch_and_process_url`: the size-bounded URL fetcher.
- `parse_input_for_context`: the older inline `@path` reference scanner, and
  the legacy lexical check in `app.py`.
- `chat_endpoint` / `generate_and_save`: validation, context gathering, the
  relay of stream events and the decision to write the log.
- The context routes: path suggestions while typing, the recursive file and
  folder listings, and the summarize endpoint.
- `get_available_models`: the model-name cache as a small state machine, and
  `generate_response_stream` as a map from chunks to events.

The filesystem is a map from canonical path to `File(size, content) |
Dir(names) | Other`. `realpath` is a supplied total function, and
`os.path.normpath`, `join`, `relpath` and `split` are pure POSIX functions on
'/'-separated strings. The HTTP answer, the SDK and REST model listings, the
generation stream and `generate_summary` are inputs. The configuration
ceilings (`MAX_FILE_READ_BYTES`, `MAX_URL_CONTENT_BYTES`, the 50-entry listing
ceiling and the 20-suggestion ceiling) are the fields of `Limits`, with their
configured values in `Resolution.DefaultLimits`.

Files (one module each): `wrappers.dfy` (Option), `strings.dfy` (strip,
startswith, `in`, lower, join), `sorting.dfy` (Python's string order and
`sorted`), `pathlex.dfy` (POSIX path functions), `resolution.dfy` (records,
messages, the environment), `context_processing.dfy`, `app.dfy`,
`gemini_utils.dfy`, `main_routes.dfy`, `context_routes.dfy`.

Where the source's loops mutate state, the model has a method with a loop
(`ProcessContextPath`, `ListFolderContents`, `ReadChunks`,
`ParseInputForContext`, `GatherItems`, `GenerateAndSave`, `ListFiles`,
`PickEntries`, the `ModelCache` class). Each is proved equal to a
specification function, and the properties are proved about that function.

## Model

| member | source | states |
|---|---|---|
| ContextProcessing.Resolve | context_processing.py:117-309 | The result of `process_context_path` keeps the original path. An error status has empty context and `context_added` false. `error` is None exactly when the status is ok, and an ok result has context and no message. The message equals the error. "not configured" comes exactly from an unset root, "forbidden" exactly from a lexical rejection, and "outside" only when the target is not inside the real root. |
| ContextProcessing.ProcessContextPath | context_processing.py:117-309 | The step-by-step resolver returns exactly `Resolve(env, lim, path)`. |
| ContextProcessing.Locate | context_processing.py:154-192 | After the lexical check: the same status/error invariants, and an ok result is resolved to the target. |
| ContextProcessing.ReadTarget | context_processing.py:187-290 | A target inside the root is reported missing or read as the object it is, with the status/error invariants, and never with an "outside" error. |
| ContextProcessing.ReadNode | context_processing.py:194-290 | The file/folder/other branch keeps the resolved target and the status/error invariants. |
| ContextProcessing.ReadResolved | context_processing.py:194-290 | The method for the branch after the existence check equals `ReadNode`. |
| ContextProcessing.ReadFolder | context_processing.py:224-284 | The folder branch method equals `ReadNode` on a directory, including a `listdir` that raises. |
| ContextProcessing.ListFolderContents | context_processing.py:235-275 | The loop over the sorted entries, with its count and `break`, produces the rendered `Listing(sc, items, 0)`. |
| ContextProcessing.ListingWithinCeiling | context_processing.py:234-274 | Counted entries never exceed the 50-entry ceiling, and a listing that ends in the truncation line has reached it. |
| ContextProcessing.TruncationIsLast | context_processing.py:238-240 | A truncation line can only be the last line, and it carries the ceiling. |
| ContextProcessing.SkippedEntriesDoNotCount | context_processing.py:246-275 | Vanished, outside-root and oversize entries leave the count unchanged. The count goes up by one exactly for a listed file or folder. |
| ContextProcessing.CountedAppend | context_processing.py:235-275 | The count of two listings put together is the sum of their counts. |
| ContextProcessing.LexicalRejection | context_processing.py:140-148 | With a root set, a cleaned path that is absolute or has a ".." after `normpath` is rejected with "forbidden", whatever the filesystem and `realpath` hold. |
| ContextProcessing.CheckOrder | context_processing.py:134-192 | The checks run in order: unset root, missing root, outside root, missing target, and each ends with its own error and empty context. Otherwise the node is read. |
| ContextProcessing.CleanCollapsed | context_processing.py:140 | Cleaning leaves "a/../b" unchanged. |
| ContextProcessing.ParentCollapsedIsAccepted | context_processing.py:140-148 | "a/../b" normalises to "b" and is not rejected by the lexical check. |
| ContextProcessing.NoLinksStayInside | context_processing.py:161-184 | When `realpath` is `normpath` (no links), a path that passes the lexical check never fails the containment check. |
| ContextProcessing.FileBranch | context_processing.py:200-222 | A file over the ceiling gives the too-large error with empty context. Otherwise it gives the START header, the text cut at the ceiling and the END footer, with status ok, `context_added` true and no error, or a read error with empty context. |
| ContextProcessing.EmptyFolder | context_processing.py:225-284 | An empty folder gives header, "(Folder is empty)" and footer, with status ok, `context_added` true and no error. |
| ContextProcessing.FolderListsSorted | context_processing.py:224-284 | A non-empty folder's block lists the entries of `Sort(names)`, a sorted permutation of the names, with status ok. |
| ContextProcessing.Fetch | context_processing.py:18-112 | The result of `fetch_and_process_url` keeps the URL. An error status has empty context, `context_added` false and an error. An ok status has the START header, and its error is the message, which is absent or the truncation message. |
| ContextProcessing.FetchAndProcessUrl | context_processing.py:18-112 | The step-by-step fetcher returns exactly `Fetch`. |
| ContextProcessing.Received | context_processing.py:44-88 | The body of an accepted response: the read, decode and framing, with the same invariants. |
| ContextProcessing.ReadBody | context_processing.py:44-88 | The method for an accepted body equals `Received`. |
| ContextProcessing.ReadChunks | context_processing.py:45-53 | The chunk loop with its running total and `break` gives exactly `Collect(chunks, max, 0)`. |
| ContextProcessing.CollectWhole | context_processing.py:45-53 | Reading stops early exactly when the total exceeds the ceiling. Without a stop every byte is kept. |
| ContextProcessing.CollectCrossing | context_processing.py:45-53 | When reading stops, the bytes kept are the leading chunks up to and including the crossing chunk, which is kept whole. |
| ContextProcessing.FlattenLength | context_processing.py:47-49 | Appending one more chunk appends its bytes. |
| ContextProcessing.CrossingChunkKeptWhole | context_processing.py:47-53 | Chunks of 3, 2 and 5 bytes under a ceiling of 5: all ten bytes are kept, and the read is marked truncated. |
| ContextProcessing.ContentTypeGate | context_processing.py:41-92 | A response is refused with "unsupported content type" exactly when its lowercased content type contains neither "html" nor "text". The refusal has empty context and error status. |
| ContextProcessing.TimeoutIsDistinct | context_processing.py:94-100 | The timeout error arises exactly for a timeout, so it is distinct from every other failure. |
| ContextProcessing.Truncation | context_processing.py:45-88 | Truncation happens exactly when the bytes exceed the ceiling. It then keeps status ok and `context_added`, returns the truncation message as the error, and the context is header + text cut at the ceiling + "... (Content Truncated)" + footer. Without it the context has no mark and no error. |
| LegacyApp.MatchAt | app.py:218 | A match of the reference pattern starts at `i` exactly when there is an '@' followed, after optional whitespace, by a character. It is then well formed. |
| LegacyApp.Alternative | app.py:218 | The alternatives in the pattern's order: a non-empty double-quoted body, then a single-quoted one, then the whitespace-free run. |
| LegacyApp.QuotedBody | app.py:218 | A closed quote yields its body without quotes, containing no quote of its kind. |
| LegacyApp.FirstFrom | app.py:218 | The first index at or after `k` where the stop condition holds. |
| LegacyApp.FirstFromIs | app.py:218 | `FirstFrom` is the unique index its contract describes. |
| LegacyApp.MatchesFrom | app.py:219-233 | The `finditer` matches are well formed, in order and pairwise disjoint, and every position where a match could start is covered by one. So the overlap skip never fires. |
| LegacyApp.Between | app.py:252-253 | The marked indices of a span are exactly `start <= x < end`. |
| LegacyApp.CoveredAtLeast | app.py:229-253 | No match covers an index before the first start. |
| LegacyApp.CoveredBelow | app.py:229-253 | No match covers an index past the last end. |
| LegacyApp.DetailsOf | app.py:226-242 | One info record per match. |
| LegacyApp.UnmarkedNone | app.py:256 | With nothing marked, the message is kept whole. |
| LegacyApp.UnmarkedSkip | app.py:256 | Marked indices contribute nothing. |
| LegacyApp.UnmarkedSpan | app.py:256 | Removing one span leaves the text on both sides of it. |
| LegacyApp.Unfold | app.py:229-253 | Taking one more match from the back prepends its context, appends its error and record, and marks its span. |
| LegacyApp.Placeholder | app.py:257-264 | The message is never empty. It is the cleaned text when that is non-empty; otherwise "(Referring to provided context)" when there is context, "(Error processing context, no message provided)" when there is none but there are errors, and "(Empty message)" when there are neither. |
| LegacyApp.ParseSpec | app.py:212-266 | With no match the input comes back unchanged, with no context, errors or records. Otherwise there is one info record per match and at most one error per match. |
| LegacyApp.ParseInputForContext | app.py:212-266 | The reversed loop with its marked-index set equals `ParseSpec`: the successful contexts in text order, the errors and details last match first, the input minus the matched spans and stripped, and the placeholder. With no match, the input comes back unchanged. |
| LegacyApp.MessageNeverEmpty | app.py:257-264 | Once a reference was found the returned message is non-empty, and there is one detail record per reference. |
| LegacyApp.OneReferenceRemoved | app.py:252-257 | With one reference, the text before stripping is the input minus exactly that reference's span. |
| LegacyApp.UnquotedReference | app.py:218-236 | "@file.txt" is one reference to "file.txt" spanning the whole input. |
| LegacyApp.QuotedReference | app.py:218-236 | `@"my file"` is one reference to "my file", quotes removed. |
| LegacyApp.ParseAsWritten | app.py:219-266 | As written, the function raises exactly when the corrected function would return some info record (some reference was found). When it returns, it returns what the corrected function does. |
| LegacyApp.UndefinedNameRaises | app.py:226-266 | "@file.txt" makes the function as written raise, while the corrected one returns one info record. |
| LegacyApp.LegacyScreen | app.py:86-110 | The legacy checks: forbidden exactly for an absolute cleaned path or a raw ".." component, and a passing path is inside the configured root. |
| LegacyApp.LegacyAtLeastAsStrict | app.py:91-97 | Whatever the current lexical check refuses, the legacy one refuses too. |
| LegacyApp.LegacyRefusesCollapsedParent | app.py:91-97 | "a/../b" is refused by the legacy check but accepted lexically by the current one. |
| GeminiUtils.ModelCache.GetAvailableModels | gemini_utils.py:29-104 | The result equals the new cache, is non-empty and holds the default. A non-empty cache without `force_refresh` is returned unchanged without fetching. Otherwise the result is `Refreshed` and one more fetch is counted. |
| GeminiUtils.ModelCache.constructor | gemini_utils.py:29-43 | The cache starts empty. |
| GeminiUtils.Refreshed | gemini_utils.py:40-104 | A fetched list is non-empty and holds the default. Without an API key it is `[DEFAULT_MODEL_NAME]`. |
| GeminiUtils.CollectSdkModels | gemini_utils.py:51-58 | The SDK loop keeps `SdkNames`: the last '/' segment of `generateContent` models starting with "gemini", in order. |
| GeminiUtils.CollectApiModels | gemini_utils.py:76-83 | The REST loop gives `ApiNames`. |
| GeminiUtils.LastSegment | gemini_utils.py:55-81 | `split('/')[-1]` has no '/'. |
| GeminiUtils.SdkNames | gemini_utils.py:51-58 | The SDK path keeps at most one name per model. |
| GeminiUtils.SdkNamesAreGemini | gemini_utils.py:55-58 | Every SDK name starts with "gemini" and has no '/'. |
| GeminiUtils.SdkNamesMeaning | gemini_utils.py:51-58 | A name is in the SDK list exactly when some listed model supports `generateContent` and has that name as its last segment, which starts with "gemini". |
| GeminiUtils.ApiNamesMeaning | gemini_utils.py:76-83 | The REST fallback keeps what the SDK loop left as a prefix. It adds exactly the kept names not already present, and never adds a duplicate. |
| GeminiUtils.RefreshedShape | gemini_utils.py:60-101 | The listing list is sorted. The default is put first exactly when it is missing, otherwise the list is unchanged. |
| GeminiUtils.ResultNotAlwaysSorted | gemini_utils.py:100-101 | When the SDK offers only "gemini-1.0-pro", the result is `[DEFAULT, "gemini-1.0-pro"]`, which is not sorted. |
| GeminiUtils.TextEvents | gemini_utils.py:112-119 | At most one event per chunk, every one a text event with non-empty text. |
| GeminiUtils.TextEventsAppend | gemini_utils.py:112-119 | The events of two chunk runs put together are the events of the first followed by those of the second. With the one-chunk case (`OneChunk`), each chunk with text gives exactly its own text event. |
| GeminiUtils.StreamEvents | gemini_utils.py:111-131 | Text events, then exactly one closing event: `end_stream` exactly when there was no failure, otherwise the error with the failure's message. |
| GeminiUtils.TextEventsKeepText | gemini_utils.py:116-119 | The text events carry exactly the chunks' text, in order. |
| GeminiUtils.StreamText | gemini_utils.py:111-131 | The text of a generation's events is the concatenation of its chunks. |
| GeminiUtils.TextOfAppend | gemini_utils.py:116-119 | The text of two event runs put together is the concatenation of their texts. |
| GeminiUtils.FailureKindsDiffer | gemini_utils.py:124-131 | A `ValueError` and any other exception give different error messages. |
| MainRoutes.Chat | routes/main_routes.py:43-109 | 500 exactly when the API key is missing. 400 "nothing to send" exactly when message and items are both empty. Once those checks pass, the request is refused exactly when the model is in neither the cached list nor the refreshed one, and the refusal is a 400 naming the model and the refreshed list. Otherwise it streams: the gathered items, `context + message` or `context + "(Referring to provided context)"`, and `message` or "" logged. |
| MainRoutes.ChatEndpoint | routes/main_routes.py:43-109 | On the model cache: the reply is `Chat` of the old cache. An early refusal leaves the cache and the fetch count untouched. Otherwise the cache becomes the cached list (the first listing when it was empty), or the refreshed list when the model is missing from it. One fetch is counted for an empty cache and one for the forced refresh. |
| MainRoutes.FailedItemsStillGenerate | routes/main_routes.py:73-109 | With a key, something to send and a known model, generation runs however the items fare. |
| MainRoutes.Process | routes/main_routes.py:79-83 | An item starting with "http://" or "https://" goes to the fetcher, anything else to the path resolver, and the record is for that item. |
| MainRoutes.ItemPart | routes/main_routes.py:79-101 | Each item yields exactly one record, for itself, and at most one error. |
| MainRoutes.GatherItems | routes/main_routes.py:69-101 | The loop over the items equals `Gather`. |
| MainRoutes.GatherAppend | routes/main_routes.py:75-101 | Gathering a concatenation combines the two gatherings. |
| MainRoutes.GatherRecords | routes/main_routes.py:75-101 | One record per item, in input order, and at most one error per item. |
| MainRoutes.GatherKeepsItems | routes/main_routes.py:75-101 | `Gather` keeps one record per item in order, and at most as many errors as items. |
| MainRoutes.GatherIndependent | routes/main_routes.py:75-101 | Each item contributes what it alone would, so a failure never affects later items. |
| MainRoutes.TruncatedUrlAddsBoth | routes/main_routes.py:87-91 | A truncated URL contributes both its context and its truncation message. |
| MainRoutes.GenerateAndSave | routes/main_routes.py:112-145 | The output is one `context_error` (if any errors) followed by the events up to and including the first error, unchanged. The log gets one entry, the message with the concatenated text and the records, exactly when `Saves` holds. |
| MainRoutes.ChatLog.Append | routes/main_routes.py:138-143 | Appends one entry to the log. |
| MainRoutes.ChatLog.constructor | routes/main_routes.py:138-143 | The log starts empty. |
| MainRoutes.UpToErrorStopsAtError | routes/main_routes.py:129-132 | The relayed events are a prefix of the stream, with no error before the last, ending at the first error or at the end. |
| MainRoutes.UpToErrorPrefix | routes/main_routes.py:122-132 | Before the first error, relaying is the identity. |
| MainRoutes.TextOfStep | routes/main_routes.py:127-128 | One more event adds its text. |
| MainRoutes.StreamRelayedWhole | routes/main_routes.py:122-123 | An event list whose only error is last is relayed whole. |
| MainRoutes.SaveGate | routes/main_routes.py:122-145 | For a generation's events: everything is relayed, the log is written exactly when the generation did not fail and produced text, and the saved text is the chunks concatenated. |
| MainRoutes.DataChunkNotSaved | routes/main_routes.py:126-134 | As written, the one chunk "data: x" is relayed but nothing is saved, while the intended gate saves "data: x". |
| MainRoutes.DataErrorMissed | routes/main_routes.py:126-132 | As written, an error whose message holds "data: " is not noticed and "hi" is saved, while the intended gate saves nothing. |
| MainRoutes.RelayAsWritten | routes/main_routes.py:122-134 | As written, the loop saves only non-empty text. |
| MainRoutes.RelayAsWrittenAgrees | routes/main_routes.py:122-134 | Where every event from the current one on reads back as itself, the loop as written relays the events through the first error and saves the collected text exactly when no error came and the text is non-empty. |
| MainRoutes.RelayAsWrittenAgreesWhole | routes/main_routes.py:122-145 | Where no payload holds "data: ", the loop as written relays what `GenerateAndSave` relays and saves exactly the text it saves. |
| MainRoutes.ReadBack | routes/main_routes.py:126 | `split("data: ")[1]` of an event line gives the payload and the blank line, which decodes to the event itself, exactly when the payload does not hold "data: "; otherwise the event is skipped. |
| MainRoutes.SseField | routes/main_routes.py:126 | For a line "data: " + q + a blank line, the second field exists, and it is q + the blank line exactly when q does not hold "data: ". |
| MainRoutes.DataLost | routes/main_routes.py:126 | Any event whose text or message holds "data: " is skipped by the read-back. |
| MainRoutes.JsonHoldsData | routes/main_routes.py:118-126 | `json.dumps` of a string holding "data: " still holds "data: ". |
| MainRoutes.EndStreamReadBack | routes/main_routes.py:122-126 | The `end_stream` line reads back as itself. |
| MainRoutes.HiReadBack | routes/main_routes.py:118-126 | The text event "hi" reads back as itself. |
| MainRoutes.EscapedPlain | routes/main_routes.py:118 | Plain printable ASCII is not escaped by `json.dumps`. |
| MainRoutes.OneChunk | gemini_utils.py:111-122 | The events of one non-empty chunk. |
| ContextRoutes.FileListing | routes/context_routes.py:13-50 | `[]` when the root is unset or missing; otherwise sorted, and a permutation of every file of the walk. |
| ContextRoutes.ListFiles | routes/context_routes.py:16-50 | The nested loop over the walk's triples and their files, then `sorted`, equals `FileListing`. |
| ContextRoutes.FolderListing | routes/context_routes.py:52-90 | `[]` when the root is unset or missing; otherwise sorted, and a permutation of every folder of the walk plus "./". |
| ContextRoutes.ListFolders | routes/context_routes.py:55-90 | The nested loop with the appended "./", then `sorted`, equals `FolderListing`. |
| ContextRoutes.SubdirFileListed | routes/context_routes.py:23-41 | The listing is recursive: every file of a sub-directory that is not a link appears as `name/file`. |
| ContextRoutes.WalkSubdirsFile | routes/context_routes.py:23 | A file of a non-link sub-directory's walk is in the walk of the sub-directories. |
| ContextRoutes.WalkOwnFile | routes/context_routes.py:35-41 | The files of a walk's first directory are listed under it. |
| ContextRoutes.FolderEntriesShape | routes/context_routes.py:74-90 | "./" is always present and every folder entry ends with "/". |
| ContextRoutes.AllFoldersEndWithSlash | routes/context_routes.py:79 | Every entry the walk adds ends with "/". |
| ContextRoutes.ParseQuery | routes/context_routes.py:106-124 | None exactly for an absolute normalised partial or one with "..". Without '/', the directory is "" and the prefix is the whole partial, "." meaning "". With '/', the prefix has no '/' and the partial is exactly the directory, a '/' and the prefix. |
| PathLex.PathSplit | routes/context_routes.py:115 | `os.path.split` gives a tail without '/' that ends the path and a head that begins it. |
| ContextRoutes.SuggestPath | routes/context_routes.py:93-172 | The endpoint (with the resolver's containment test) equals `Suggested`. |
| ContextRoutes.ListEntries | routes/context_routes.py:126-161 | Listing the search directory equals `Listed`. |
| ContextRoutes.PickEntries | routes/context_routes.py:144-161 | The loop with its count and `break` keeps the first `Cap(max)` matching names in sorted order. |
| ContextRoutes.PickedMeaning | routes/context_routes.py:144-161 | The picked names are sorted, at most the ceiling, and all match the prefix case-insensitively. When fewer than the ceiling, every matching name is there. |
| ContextRoutes.Listed | routes/context_routes.py:130-161 | At most the ceiling, and `[]` when the search directory is not contained or is not a directory. |
| ContextRoutes.SuggestedWith | routes/context_routes.py:93-172 | `[]` when the root is missing or the partial is refused; never more than the ceiling. |
| ContextRoutes.MatchingMembers | routes/context_routes.py:145-146 | A name is matched exactly when it is in the list and its lowercased form starts with the lowercased prefix. |
| ContextRoutes.MatchingSorted | routes/context_routes.py:145-146 | Filtering a sorted list keeps it sorted. |
| ContextRoutes.MatchingAppend | routes/context_routes.py:145-146 | Filtering distributes over concatenation. |
| ContextRoutes.Assemble | routes/context_routes.py:193-257 | "No content" exactly when there is neither context nor errors; "failed" with the errors exactly when there are errors but no context. With context, a summary from the model gives a reply with that summary, and a raising generation gives a 500 naming the model and what was raised. A summary keeps one record per item and has warnings exactly when there were errors. |
| ContextRoutes.Summarize | routes/context_routes.py:175-257 | 400 "no items" exactly for no data or no `context_items`; 400 "invalid" exactly for a non-list or empty list; for a model not in the cached list, a 400 naming the model and the cached list; otherwise `Assemble`. |
| ContextRoutes.SummarizeEndpoint | routes/context_routes.py:175-257 | On the model cache: equals `Summarize` of the old cache. A request without valid items leaves the cache and the fetch count untouched. Otherwise the cache becomes the cached list, with one fetch counted exactly when it was empty, and it is never force-refreshed. |
| ContextRoutes.SummaryRecordsItems | routes/context_routes.py:198-246 | A summary has one record per item, in order. |
| ContextRoutes.PromptHoldsContext | routes/context_routes.py:236-241 | The prompt contains the gathered context and the item count. |
| ContextRoutes.SiblingPassesAsWritten | routes/context_routes.py:126-141 | When the search directory resolves to the sibling `root + "X"` holding one entry that matches, the as-written `startswith(root)` test suggests that entry, while the resolver's test gives `[]`. |
| ContextRoutes.SiblingNotInside | context_processing.py:180-181 | `root + "X"` is not inside `root`. |
| ContextRoutes.SiblingListed | routes/context_routes.py:136-161 | The as-written listing of that sibling suggests its entry. |
| ContextRoutes.PickedOne | routes/context_routes.py:144-161 | A single entry equal to the typed prefix is picked. |
| Resolution.Take | context_processing.py:79 | Slicing `s[:n]` gives a prefix of length `min(n, len(s))`. |
| PathLex.SplitOn | context_processing.py:145 | `split('/')` has at least one part, no part holds '/', and joining with '/' gives the input back. |
| PathLex.SplitJoin | gemini_utils.py:55 | Splitting undoes joining parts without '/'. |
| PathLex.NormpathKeepsAbsolute | context_processing.py:144-145 | `normpath` keeps a path absolute exactly when it was. |
| PathLex.NormpathParentFromInput | context_processing.py:144-145 | A ".." that survives `normpath` was already in the input. |
| PathLex.NormpathCollapsesParent | context_processing.py:144 | `normpath("a/../b")` is "b". |
| PathLex.JoinedStaysInside | context_processing.py:161-184 | A relative normalised path without ".." joined onto an absolute root and normalised again is the root or starts with root + "/". |
| PathLex.PathJoin | context_processing.py:161 | `os.path.join(a, b)` is `b` for an absolute `b`. Otherwise it starts with `a` and ends with `b`, with one '/' between when `a` does not end in one. |
| PathLex.NormCompsNoParent | context_processing.py:144 | Without "..", `normpath` only drops empty and "." components. |
| PathLex.CommonPrefix | context_processing.py:196 | `relpath`'s common prefix is the longest one shared. |
| PathLex.RelPathBelow | routes/context_routes.py:149 | `relpath` of a path below `start` is its components after those of `start`, joined by '/'. |
| PathLex.RelPathSame | context_processing.py:196 | `relpath` of a path with the same components as `start` is ".". |
| PathLex.LastIndexOf | routes/context_routes.py:115 | The last index of the separator, or -1. |
| PathLex.PathSplitJoined | routes/context_routes.py:115 | `os.path.split` of non-empty, '/'-free components joined by '/' is the join of all but the last, and the last. |
| PathLex.NormpathRelativeSplit | routes/context_routes.py:106-117 | A normalised relative path holding '/' is exactly its `os.path.split` head, a '/' and its tail. |
| Sorting.Sort | context_processing.py:236 | `sorted`: sorted and a permutation of the input. |
| Sorting.SortedUnique | context_processing.py:236 | Any two sorted permutations of each other are equal, so `sorted` has one answer. |
| Sorting.LexLeTotal | context_processing.py:236 | Python's string order is total. |
| Sorting.LexLeTrans | context_processing.py:236 | ... and transitive. |
| Sorting.LexLeAntisymmetric | context_processing.py:236 | ... and antisymmetric. |
| Strings.TrimLeft | context_processing.py:140 | `lstrip` drops exactly a leading run of the stripped characters. |
| Strings.TrimRight | context_processing.py:140 | `rstrip` drops exactly a trailing run of the stripped characters. |
| Strings.ContainsAt | routes/main_routes.py:126 | An occurrence at an index makes `p in s` true. |
| Strings.PairAbsent | routes/main_routes.py:126 | `p in s` is false when no two adjacent characters of `s` begin `p`. |
| Strings.FindFrom | routes/main_routes.py:126 | The first occurrence of the separator at or after an index, or the end: an occurrence where it stops and none before. |
| Strings.NoOccurrenceAfter | routes/main_routes.py:126 | A separator absent from the payload does not occur after the "data: " prefix when the line ends in a shorter run that begins with a character it lacks. |

## Left out

- Windows: the `os.name == 'nt'` branches (case-insensitive containment and `\` separators) are not modelled; paths are POSIX.
- Float formatting: the sizes in the messages (`/1024*1024:.2f` MB, KB) are written as decimal byte counts, and the listing lines carry the size as a number.
- Transport: Flask requests and responses, `jsonify`, `stream_with_context` and the SSE framing are not modelled. Events are a datatype, except where the line-126 parsing is shown.
- The database: `save_chat_history` is an append to the `ChatLog` class; SQLite and date handling are not modelled.
- PDF conversion (pdf_utils.py, routes/pdf_routes.py) is not part of this model.
- `generate_summary` and the Gemini SDK/REST calls are inputs: the two model listings, the chunk texts with an optional failure, and a function from prompt to summary or exception.
- HTTP: `requests.get`, `raise_for_status` and `iter_content` are an `HttpResult` value; the timeout value and headers are not modelled.
- Decoding: UTF-8 validity and decoding are supplied functions, and ISO-8859-1 maps each byte to its code point; the ASCII fallback at context_processing.py:63 cannot be reached and is left out.
- MainRoutes.ReadBack: `json.loads` itself is not modelled. A field that ends right after the payload's closing brace is taken to decode to the event, and a field cut inside the JSON string literal is taken to raise `JSONDecodeError`.
- HTML to text (BeautifulSoup with script/style removal) is a supplied function.
- Catch-all exceptions: the `except Exception` branches around path resolution, the folder processing, URL content processing and the suggestion loop are not modelled apart from `listdir`/`open` failures (`Access.Raises`), the per-item `Threw` case in the routes, and the summary generation failure. Also not modelled: the `except Exception` of `generate_and_save` that yields an "An error occurred" event when the stream cannot be set up (routes/main_routes.py:147-152), the per-item `except` branches inside the two listings' walks, and the listings' 500 replies when the walk itself raises (routes/context_routes.py:46-48 and 83-85).
- `realpath` is a supplied total function; symbolic links are only visible through it. The listings' `realpath(root)` check inside `os.walk` is not modelled: the walk is an abstract `Tree` that does not descend into linked directories.
- The "resolved" field and the relative display path are computed through the supplied `realpath` and the modelled `relpath`; `relpath` is modelled only for absolute inputs.
- Unicode: `str.lower()` is modelled on ASCII capitals only, and `isspace` on the common whitespace characters.
- The repr of the model list in the "Invalid model" texts is kept as the list value, not formatted.
- ContextRoutes.Suggestions: the suggestions are computed from the picked entries after the loop, rather than appended inside it; the values are the same.
- ContextRoutes.SuggestPath: models the endpoint with the resolver's containment test (the corrected form); the as-written `startswith` test is `SuggestedWith(..., false)`.
- The listings' `startswith(root)` checks at routes/context_routes.py:31 and 70 are not modelled, since the walk never leaves the root.
- Module-level setup in app.py, the legacy `chat_endpoint` and the history routes are not part of this model.
- LegacyApp.LegacyScreen: models the legacy `process_context_path` of app.py only up to its containment check. Its file and folder reading is not modelled, and it differs from the current resolver's: it reads a whole file with no size cap (app.py:132), sets `context_added` to whether a folder had entries, so an empty folder gives false (app.py:189), has no check that the root is a directory and tests containment against `ALLOWED_CONTEXT_DIR` as given (app.py:107), and lists folder entries without a per-entry existence check and with its own skip and error lines (app.py:161-177).

## Findings

| source | as written | input that shows it | evidently intended | confidence | as-written member | corrected member |
|---|---|---|---|---|---|---|
| app.py:266 | returns `processed_paths_info`, a name defined nowhere, so every call with a match raises `NameError` | "@file.txt" | return the `processed_paths_details` list built at app.py:226 | not executed | LegacyApp.ParseAsWritten, LegacyApp.UndefinedNameRaises | LegacyApp.ParseInputForContext, LegacyApp.MessageNeverEmpty |
| routes/main_routes.py:126 | `json.loads(chunk_data.split("data: ")[1])` splits at every "data: ", so an event whose JSON holds "data: " is cut and fails to parse | a generation with the one chunk "data: x" (text relayed, nothing saved); or chunk "hi" then an error holding "data: y" ("hi" saved after an error) | read the payload after the first "data: " only, so every text is saved and every error stops the save | not executed | MainRoutes.RelayAsWritten, MainRoutes.DataChunkNotSaved, MainRoutes.DataErrorMissed | MainRoutes.GenerateAndSave, MainRoutes.SaveGate |
| routes/context_routes.py:136 | `search_dir_absolute.startswith(allowed_dir_real)` with no separator | partial "link/a", where "link" inside the root is a symbolic link to the sibling directory root + "X" holding the entry "a": the entry is suggested | the containment test of context_processing.py:180-181 (the root itself or root + "/") | not executed | ContextRoutes.SuggestedWith, ContextRoutes.SiblingPassesAsWritten | ContextRoutes.SuggestPath, ContextRoutes.SiblingNotInside |
