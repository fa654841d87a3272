# torrt core, modelled in Dafny

torrt watches torrent trackers for updated releases and hands the new `.torrent` files to a
torrent client over the client's RPC interface. This project models three parts of it and
proves properties about them:

- **Release quality selection** for the anilibria.tv tracker (`Anilibria`). From the release
  API's answer it keeps the episode-range torrents, picks the most recent batch by its numeric
  range and builds the quality → link table, last entry winning. It then chooses the link of
  the first preferred quality, falling back to the first inserted entry.
- **RPC sessions and request builders** of the qBittorrent, Transmission and Deluge clients
  (`QBittorrent`, `Transmission`, `Deluge`), and the field renaming they share (`BaseRpc`).
  - Each client is a class holding its session field: the cookie jar or the CSRF session id.
  - Each class also holds an `Http.Transport` that logs every request it sends.
  - The HTTP server is an oracle `(history, request) -> reply`, so a reply may depend on
    everything sent before it.
  - Every method is proved equal to a pure specification function on (configuration, session
    state). The lemmas about those functions state what the client sends, in which order, and
    what it makes of the answer.
- **Utilities** (`Utils`): the object registry and its `get_for_string` lookup, `iter_rpc`,
  the recursive settings merge `update_dict`, `structure_torrent_data`,
  `get_url_from_string` and `encode_value`.

Shared modules:

- `Wrappers`: Option and Result.
- `Json`: decoded JSON values, with Python truthiness.
- `Errors`: what the code raises, as values, and Python subscripting of decoded JSON.
- `Text`: character classes, `split`/`join`, `int()`, `str()`.
- `OrderedDict`: a Python dict whose insertion order matters, as a list of pairs.
- `Http`: requests, replies, the transport, `urljoin`.

Python exceptions are modelled as `Err` values that carry what was raised (`KeyError(k)`,
`TypeError`, `RpcException(backend, reason)`, …). Message texts are not modelled.

## Model

| member | source | states |
|---|---|---|
| Anilibria.ExtractReleaseCodeOfPage | torrt/trackers/anilibria.py:109-119 | the release page URL of a code without `.` or `:` gives that code back |
| Anilibria.ExtractReleaseCodeExample | torrt/trackers/anilibria.py:114-119 | the documented example: the `kabukichou-sherlock` page gives `kabukichou-sherlock` |
| Anilibria.RemoveAllAbsent | torrt/trackers/anilibria.py:119 | `str.replace` with a pattern that does not occur leaves the string as it is |
| Anilibria.RemoveSuffix | torrt/trackers/anilibria.py:119 | removing `.html` from `code + '.html'` gives `code` when the code has no `.` |
| Anilibria.Clean | torrt/trackers/anilibria.py:137 | removing non-word characters and `_` and lower-casing never lengthens the string and leaves only lower-case letters and digits |
| Anilibria.SanitizeQuality | torrt/trackers/anilibria.py:121-139 | `None` and `''` give `''`; every character of a key is a lower-case letter or a digit |
| Anilibria.CleanAppend | torrt/trackers/anilibria.py:137 | cleaning distributes over concatenation |
| Anilibria.CleanFixpoint | torrt/trackers/anilibria.py:137 | a string of lower-case letters and digits is its own clean form |
| Anilibria.SanitizeIdempotent | torrt/trackers/anilibria.py:136-139 | sanitizing a key again gives the same key |
| Anilibria.SanitizeIgnoresSeparator | torrt/trackers/anilibria.py:13 | a non-alphanumeric separator anywhere in a label does not change its key |
| Anilibria.SanitizeExample | torrt/trackers/anilibria.py:127-129 | the documented examples: `WEBRip` and `1080p` joined by a space, `-` or `_` give `webrip1080p` |
| Anilibria.LeadingDigits | torrt/trackers/anilibria.py:14 | the run of digits at the start of a string: all digits, and not followed by a digit |
| Anilibria.RangeMatchIff | torrt/trackers/anilibria.py:96 | the start-anchored `\d+-\d+` match holds exactly when some run of leading digits is followed by `-` and a digit |
| Anilibria.ToTupleOfRange | torrt/trackers/anilibria.py:141-152 | `to_tuple('A-B') == (A, B)` for every pair of natural numbers written in decimal |
| Anilibria.ToTupleExample | torrt/trackers/anilibria.py:147 | the documented example `to_tuple('1-10') == (1, 10)` |
| Anilibria.TupleLessIrreflexive | torrt/trackers/anilibria.py:100 | the tuple order used for sorting is irreflexive |
| Anilibria.TupleLessTransitive | torrt/trackers/anilibria.py:100 | the tuple order is transitive |
| Anilibria.TupleLessAsymmetric | torrt/trackers/anilibria.py:100 | the tuple order is asymmetric |
| Anilibria.TupleLessTotal | torrt/trackers/anilibria.py:100 | distinct tuples are comparable |
| Anilibria.FirstMax | torrt/trackers/anilibria.py:100 | the chosen index holds a largest tuple, and every earlier tuple is strictly smaller (first of the maxima) |
| Anilibria.LatestSeries | torrt/trackers/anilibria.py:100-102 | `sorted(…, key=to_tuple, reverse=True)[0]`: `ValueError` exactly when some key does not convert, `IndexError` exactly when there are no keys, else the first key with a largest tuple |
| Anilibria.SeriesOrder | torrt/trackers/anilibria.py:95-97 | the keys of `series2torrents` are distinct and all match the range pattern |
| Anilibria.SeriesOrderMembers | torrt/trackers/anilibria.py:95-97 | a key is present exactly when it is a range series of some torrent |
| Anilibria.SameSeries | torrt/trackers/anilibria.py:97 | every torrent grouped under a key has that series |
| Anilibria.GroupBySeries | torrt/trackers/anilibria.py:93-97 | the grouping loop yields the keys in first-seen order, each mapped to its torrents in original order |
| Anilibria.SameSeriesAbsent | torrt/trackers/anilibria.py:97 | a series no torrent has gets an empty group |
| Anilibria.Qualities | torrt/trackers/anilibria.py:102-104 | the quality table never repeats a key |
| Anilibria.CollectQualities | torrt/trackers/anilibria.py:91-104 | the loop that fills `available_qualities` builds that table |
| Anilibria.QualitiesLookup | torrt/trackers/anilibria.py:102-104 | a key is present exactly when some torrent of the batch has it, and its link is `HOST + url` of the last such torrent |
| Anilibria.QualitiesLast | torrt/trackers/anilibria.py:102-104 | the lookup of a quality is empty when `LastWithKey` finds no torrent with it, and otherwise `HOST + url` of that last torrent |
| Anilibria.QualitiesFirstKey | torrt/trackers/anilibria.py:60 | the first inserted entry is keyed by the first torrent of the batch |
| Anilibria.QualitiesLinks | torrt/trackers/anilibria.py:104 | every link starts with `HOST` |
| Anilibria.FindAvailableQualities | torrt/trackers/anilibria.py:74-106 | the method computes the table of the chosen batch, or the error; a false or missing `status` gives the empty table |
| Anilibria.SeriesOrderRangeOnly | torrt/trackers/anilibria.py:95-97 | dropping non-range torrents does not change the series keys |
| Anilibria.SameSeriesRangeOnly | torrt/trackers/anilibria.py:95-97 | dropping non-range torrents does not change any range series' group |
| Anilibria.RangeOnly | torrt/trackers/anilibria.py:95-97 | every kept torrent's series matches the range pattern |
| Anilibria.NonRangeTorrentsIgnored | torrt/trackers/anilibria.py:95-97 | trailers and other non-range torrents do not affect the result |
| Anilibria.AvailableQualitiesChoice | torrt/trackers/anilibria.py:92-104 | on success the batch is a range series of the release whose tuple no other range series exceeds, and the table is built from exactly that batch |
| Anilibria.NoRangeSeriesRaises | torrt/trackers/anilibria.py:100-102 | a true status with no range torrent raises `IndexError` at `sorted_series[0]` |
| Anilibria.SeriesOrderNone | torrt/trackers/anilibria.py:95-97 | with no range torrent there are no series keys |
| Anilibria.TrailingGarbageRaises | torrt/trackers/anilibria.py:96-152 | `1-20x` passes the start-anchored match and then `int('20x')` raises `ValueError` |
| Anilibria.LeadingDigitsOfDigits | torrt/trackers/anilibria.py:14 | digits followed by a non-digit have exactly that many leading digits |
| Anilibria.RangeOfNats | torrt/trackers/anilibria.py:96-152 | `A-B` in decimal passes the range filter and converts to `(A, B)` |
| Text.IntSkipsSpacesNotSeparators | torrt/trackers/anilibria.py:152 | `int()` skips Unicode whitespace around the digits (`int('\u30007\n')` is 7) but not the separator `\x1f`, which `\s` counts as whitespace (`int('\x1f7')` raises) |
| Anilibria.LatestOfTwo | torrt/trackers/anilibria.py:100 | of two convertible keys the one with the larger tuple is chosen, in either order |
| Anilibria.SeriesOrderOfTwo | torrt/trackers/anilibria.py:95-97 | two distinct range series are keyed in the order seen |
| Anilibria.LaterBatchChosen | torrt/trackers/anilibria.py:99-102 | with `(A1, B1) < (A2, B2)` numerically (so `21-41` over `1-20`), the later batch is chosen whichever comes first |
| Anilibria.TieKeepsFirst | torrt/trackers/anilibria.py:100 | distinct keys with equal tuples (`01-20`, `1-20`): the stable sort keeps the first seen |
| Anilibria.SanitizedPrefs | torrt/trackers/anilibria.py:47-53 | the sanitized preferences are exactly the keys of the given ones, without repetition |
| Anilibria.Preferred | torrt/trackers/anilibria.py:55 | a quality is preferred exactly when it is both a preference and available; the list follows the preference order |
| Anilibria.ChooseLinkSpec | torrt/trackers/anilibria.py:45-72 | no qualities give `''`; otherwise the link of the first available preference; with none available, the first inserted entry's link |
| Anilibria.ChooseLinkExample | torrt/trackers/anilibria.py:55-70 | with `hdtvrip1080p` inserted first and `webrip720p` preferred, the `webrip720p` link is chosen |
| Anilibria.DownloadLinkEmpty | torrt/trackers/anilibria.py:41-72 | a successful lookup returns `''` exactly when the quality table is empty |
| Anilibria.DedupePrefs | torrt/trackers/anilibria.py:47-53 | the loop that sanitizes and de-duplicates the preferences computes the sanitized preference list |
| Anilibria.AnilibriaTracker.constructor | torrt/trackers/anilibria.py:29-36 | the preferences are the given ones, or `HDTVRip 1080p`, `HDTVRip 720p`, `WEBRip 720p` |
| Anilibria.AnilibriaTracker.GetDownloadLink | torrt/trackers/anilibria.py:38-72 | the link chosen for the release (or the fetch's or the table's error) |
| BaseRpc.NormalizeAny | torrt/base_rpc.py:21-31 | a dict is renamed as specified; a non-dict value is returned unchanged or raises `TypeError` |
| BaseRpc.NormalizeFieldNames | torrt/base_rpc.py:29-31 | the loop over the field map computes the renamed dict |
| BaseRpc.NormalizedOthers | torrt/base_rpc.py:29-31 | a key that is no pair's torrt name is present exactly when it was, with the same value (so an empty map changes nothing) |
| BaseRpc.NormalizedKeepsSources | torrt/base_rpc.py:31 | client names are copied, not removed: each keeps its value |
| BaseRpc.NormalizedTarget | torrt/base_rpc.py:29-31 | a present client name's value appears under its torrt name; an absent one adds nothing |
| BaseRpc.NormalizedIdempotent | torrt/base_rpc.py:29-31 | with torrt names disjoint from client names, renaming twice is renaming once |
| QBittorrent.DefaultUrl | torrt/rpc/qbittorrent.py:61 | the default URL ends with `/` |
| QBittorrent.BuildParams | torrt/rpc/qbittorrent.py:83-91 | `action` plus every key of `params`, whose values win; no other key |
| QBittorrent.Percent | torrt/rpc/qbittorrent.py:99-100 | `template % arg`: a template without `%s` is returned unchanged exactly when the argument is a dict, list or bytes (which `%` takes for a mapping); with `%s` a scalar is substituted; anything else is a format error |
| QBittorrent.GetRequestUrl | torrt/rpc/qbittorrent.py:93-102 | an unknown action is an error; without `action_params` the URL is the endpoint joined onto the base; with them it is the endpoint with `action_params` substituted by `%`, joined onto the base; any other error is a format error in that substitution |
| QBittorrent.TorrentDetailsUrl | torrt/rpc/qbittorrent.py:28-102 | `get_torrent` with hash `h` gives `base + 'query/propertiesGeneral/' + h` |
| QBittorrent.PlainEndpointRejectsArgument | torrt/rpc/qbittorrent.py:99-100 | a string argument for an endpoint without `%s` is a format error |
| QBittorrent.QueryRequest | torrt/rpc/qbittorrent.py:111-123 | POST exactly when there is `data` or `files`, else GET; URL, cookies and files as given |
| QBittorrent.QueryOutcome | torrt/rpc/qbittorrent.py:125-140 | the response is returned exactly when the status is 200; otherwise a qBittorrent RPC exception |
| QBittorrent.QuerySends | torrt/rpc/qbittorrent.py:104-140 | a known action sends exactly one request and leaves the cookies alone; an unknown one sends nothing |
| QBittorrent.LoginOutcome | torrt/rpc/qbittorrent.py:63-81 | one login POST; success exactly when the status is 200, the text is `Ok.` and cookies are set; then the cookies are stored, otherwise they are unchanged and an RPC exception is raised |
| QBittorrent.AuthQueryLogsIn | torrt/rpc/qbittorrent.py:142-156 | with no cookies the first request is the login; with cookies it is a plain query |
| QBittorrent.ListedEntries | torrt/rpc/qbittorrent.py:164-169 | the normalized listing entries that are reported: each has a `hash` that passes the filter (`hashes is None or hash in hashes`) |
| QBittorrent.DetailQuery | torrt/rpc/qbittorrent.py:171-174 | with cookies, a detail query is one GET of `query/propertiesGeneral/<hash>` |
| QBittorrent.StepRecord | torrt/rpc/qbittorrent.py:164-182 | one loop turn: a wanted entry costs one detail request and appends its record, any other entry changes nothing |
| QBittorrent.DetailOf | torrt/rpc/qbittorrent.py:171-182 | the detail GET for a listed entry and the record it yields: hash, name and `download_to` from the entry, the request carries the session cookies; nothing when the entry or the answer lacks a field |
| QBittorrent.DetailsLog | torrt/rpc/qbittorrent.py:163-184 | with cookies, the loop appends one request per record, keeps the cookies and keeps what was there before |
| QBittorrent.DetailsFetches | torrt/rpc/qbittorrent.py:163-184 | with cookies, the requests the loop appends and the records it appends are the detail fetches of the wanted listing entries, one each, in listing order (`Fetches`) |
| QBittorrent.FetchesAt | torrt/rpc/qbittorrent.py:163-182 | the k-th fetch: the k-th request is sent after the earlier log and the k requests before it, and the k-th record is built from the k-th entry and that request's answer |
| QBittorrent.FetchedInLog | torrt/rpc/qbittorrent.py:163-182 | the same, read off one log: the request at position m + k and the record at position k belong to the k-th entry |
| QBittorrent.ListingQuery | torrt/rpc/qbittorrent.py:160 | with cookies, the listing is one GET of `query/torrents` |
| QBittorrent.GetTorrentsLog | torrt/rpc/qbittorrent.py:158-184 | N + 1 requests for N records, cookies unchanged, the earlier log kept; the first new request is the listing GET of `query/torrents` |
| QBittorrent.GetTorrentsShape | torrt/rpc/qbittorrent.py:158-184 | as many records as wanted listing entries, and after the listing the requests and records are exactly their detail fetches in order: record k is `{hash, name, download_to}` of the k-th wanted entry plus the `comment` of the answer to its detail GET of `query/propertiesGeneral/<hash>`, the (k + 2)-th request |
| QBittorrent.AddFiles | torrt/rpc/qbittorrent.py:188-191 | the upload has the torrent under `torrents`, and `savepath` exactly when a directory is given; `KeyError` without `torrent` |
| QBittorrent.AddTorrentRequest | torrt/rpc/qbittorrent.py:186-193 | with cookies, an upload is one POST of those parts to `command/upload` |
| QBittorrent.RemoveParams | torrt/rpc/qbittorrent.py:195-204 | `rem_torrent_with_data` exactly when the data goes too; the hash is posted as form data |
| QBittorrent.RemoveTorrentRequest | torrt/rpc/qbittorrent.py:195-204 | with cookies, one POST to `command/deletePerm` or `command/delete` with the hash |
| QBittorrent.QBittorrentRPC.constructor | torrt/rpc/qbittorrent.py:41-61 | settings stored; URL given or the default; an empty cookie jar |
| QBittorrent.QBittorrentRPC.Query | torrt/rpc/qbittorrent.py:104-140 | `query` as specified on the client's state |
| QBittorrent.QBittorrentRPC.Login | torrt/rpc/qbittorrent.py:63-81 | `login` as specified on the client's state |
| QBittorrent.QBittorrentRPC.AuthQuery | torrt/rpc/qbittorrent.py:142-147 | `auth_query` as specified on the client's state |
| QBittorrent.QBittorrentRPC.AuthQueryJson | torrt/rpc/qbittorrent.py:149-156 | `auth_query_json` as specified on the client's state |
| QBittorrent.QBittorrentRPC.Step | torrt/rpc/qbittorrent.py:165-182 | one turn of the listing loop as specified |
| QBittorrent.QBittorrentRPC.MethodGetTorrents | torrt/rpc/qbittorrent.py:158-184 | `method_get_torrents` as specified on the client's state |
| QBittorrent.QBittorrentRPC.MethodAddTorrent | torrt/rpc/qbittorrent.py:186-193 | `method_add_torrent` as specified on the client's state |
| QBittorrent.QBittorrentRPC.MethodRemoveTorrent | torrt/rpc/qbittorrent.py:195-204 | `method_remove_torrent` as specified on the client's state |
| QBittorrent.QBittorrentRPC.MethodGetVersion | torrt/rpc/qbittorrent.py:206-208 | the text of the version endpoint |
| QBittorrent.QBittorrentRPC.TestConfiguration | torrt/base_rpc.py:66-68 | the result of the version request |
| Transmission.BuildRequestPayload | torrt/rpc/transmission.py:82-93 | always `method`; `arguments` and `tag` exactly when given; no other key |
| Transmission.Decode | torrt/rpc/transmission.py:75-80 | `arguments` exactly when `result` is `success`; any other result is a Transmission RPC exception |
| Transmission.QueryRetry | torrt/rpc/transmission.py:65-80 | a 409 with a session id: the id is stored, the same document re-sent once with it, and the second answer decoded (`arguments` on `success`, else the RPC exception) or its transport failure raised; a 409 without the header is `KeyError`; otherwise one request, decoded; a transport failure is an RPC exception |
| Transmission.GetTorrentsArgs | torrt/rpc/transmission.py:97-110 | the seven fields, and `ids` exactly when hashes are given |
| Transmission.FileTableStops | torrt/rpc/transmission.py:117-121 | a failure while filling the files table is the failure of the whole table |
| Transmission.ReshapedAllEach | torrt/rpc/transmission.py:114-128 | every torrent is reshaped on its own; order and length kept |
| Transmission.FileEntryShape | torrt/rpc/transmission.py:118-121 | a built entry means `files` is a list; the entry is filed under `files[idx]['name']`, a string, and is `{name, exclude: not wanted, priority}` from the same index of `files` and `fileStats` |
| Transmission.FileTableKeys | torrt/rpc/transmission.py:116-121 | one key per file name; a name holds the entry of the last file with that name |
| Transmission.FileTableLast | torrt/rpc/transmission.py:116-121 | a name is a key exactly when `LastNamed` finds a file with it, and holds that last file's entry |
| Transmission.FileTableOk | torrt/rpc/transmission.py:117-121 | a table built for all files was built for every prefix, and every file's entry was built |
| Transmission.ReshapedShape | torrt/rpc/transmission.py:114-126 | after reshaping: `params.files` is the table, `files` and `fileStats` are gone, the other fields are kept |
| Transmission.ExcludedIndicesStop | torrt/rpc/transmission.py:137-140 | a failure while collecting excluded files is the failure of the whole collection |
| Transmission.ExcludedIndicesExact | torrt/rpc/transmission.py:136-140 | the collected indices increase and are exactly the files marked excluded |
| Transmission.AddTorrentArgsShape | torrt/rpc/transmission.py:130-146 | as written: `metainfo` always; `download-dir` exactly when given; `files-unwanted` only as `[]`, exactly when `params` is non-empty and no file is excluded |
| Transmission.AddTorrentArgsIntendedShape | torrt/rpc/transmission.py:130-146 | as intended: `files-unwanted` exactly when some file is excluded, listing exactly those indices in increasing order |
| Transmission.ExclusionDropped | torrt/rpc/transmission.py:142-143 | two files, the first excluded: as written no `files-unwanted` is sent, as intended `[0]` is |
| Transmission.RemoveArgs | torrt/rpc/transmission.py:150-157 | `ids == [hash]`, `delete-local-data == with_data`, nothing else |
| Transmission.TransmissionRPC.constructor | torrt/rpc/transmission.py:27-46 | settings stored; URL given or the default; an empty session id |
| Transmission.TransmissionRPC.Send | torrt/rpc/transmission.py:48-63 | `query_` as specified on the client's state |
| Transmission.TransmissionRPC.Query | torrt/rpc/transmission.py:65-80 | `query` with the 409 retry as specified on the client's state |
| Transmission.TransmissionRPC.Reshape | torrt/rpc/transmission.py:115-126 | the nested loop reshapes one torrent as specified |
| Transmission.TransmissionRPC.ReshapeTorrents | torrt/rpc/transmission.py:114-128 | the outer loop reshapes every torrent as specified |
| Transmission.TransmissionRPC.MethodGetTorrents | torrt/rpc/transmission.py:95-128 | `method_get_torrents` as specified on the client's state |
| Transmission.TransmissionRPC.CollectExcluded | torrt/rpc/transmission.py:136-140 | the loop collects the excluded indices as specified |
| Transmission.TransmissionRPC.MethodAddTorrent | torrt/rpc/transmission.py:130-148 | `method_add_torrent` on the client's state, building the arguments as written (`files-unwanted: []` only when nothing is excluded) and sending one `torrent-add` query |
| Transmission.TransmissionRPC.MethodRemoveTorrent | torrt/rpc/transmission.py:150-157 | `method_remove_torrent` as specified on the client's state |
| Transmission.TransmissionRPC.MethodGetVersion | torrt/rpc/transmission.py:159-161 | `rpc-version-minimum` of the `session-get` answer |
| Transmission.TransmissionRPC.TestConfiguration | torrt/base_rpc.py:66-68 | the result of the version request |
| Deluge.BuildRequestPayload | torrt/rpc/deluge.py:107-120 | exactly `id` 1, `method`, and `params` (an empty list when none) |
| Deluge.Decode | torrt/rpc/deluge.py:99-105 | `result` exactly when `error` is null; a non-null `error` is a Deluge RPC exception |
| Deluge.QueryWithSession | torrt/rpc/deluge.py:92-105 | with a non-empty jar, one request with that jar, decoded; no login |
| Deluge.QueryLogGrows | torrt/rpc/deluge.py:92-105 | `query` only appends to the request log |
| Deluge.LoginLogGrows | torrt/rpc/deluge.py:53-68 | `method_login` only appends to the request log |
| Deluge.IsConnectedLogGrows | torrt/rpc/deluge.py:70-77 | `method_is_connected` only appends to the request log |
| Deluge.QueryLogsInFirst | torrt/rpc/deluge.py:94-95 | with an empty jar the first request is the login |
| Deluge.LoginOutcome | torrt/rpc/deluge.py:53-68 | a falsy `result` returns `False` with the jar unchanged; a truthy one stores the answer's cookies and returns the session check |
| Deluge.IsConnectedOutcome | torrt/rpc/deluge.py:70-77 | a truthy session check is returned, a falsy one raises, errors propagate |
| Deluge.LoginLoops | torrt/rpc/deluge.py:62-95 | a server that accepts the login but sets no cookie makes `query` recurse until `RecursionError` |
| Deluge.NormalizedPrefixStops | torrt/rpc/deluge.py:129-130 | a failure while normalizing is the failure of the whole loop |
| Deluge.NormalizedPrefixEach | torrt/rpc/deluge.py:129-130 | each torrent is normalized on its own; order and length kept |
| Deluge.TorrentsRenamed | torrt/rpc/deluge.py:129-132 | every listed dict gets `download_to` equal to its `save_path`, which stays |
| Deluge.GetTorrentsRequest | torrt/rpc/deluge.py:122-127 | with a session, one `webapi.get_torrents` request with `[hashes or None, the four fields]` |
| Deluge.AddParams | torrt/rpc/deluge.py:136-140 | `[dump, {download_location: download_to}]`, or `KeyError` without `torrent` |
| Deluge.AddTorrentRequest | torrt/rpc/deluge.py:134-142 | with a session, one `webapi.add_torrent` request with those parameters |
| Deluge.RemoveTorrentRequest | torrt/rpc/deluge.py:144-145 | with a session, one `webapi.remove_torrent` request with `[hash, with_data]` |
| Deluge.DelugeRPC.constructor | torrt/rpc/deluge.py:31-51 | settings stored; URL given or the default; an empty cookie jar |
| Deluge.DelugeRPC.Send | torrt/rpc/deluge.py:79-90 | `query_` as specified on the client's state |
| Deluge.DelugeRPC.Query | torrt/rpc/deluge.py:92-105 | `query` as specified on the client's state |
| Deluge.DelugeRPC.Login | torrt/rpc/deluge.py:53-68 | `method_login` as specified on the client's state |
| Deluge.DelugeRPC.IsConnected | torrt/rpc/deluge.py:70-77 | `method_is_connected` as specified on the client's state |
| Deluge.DelugeRPC.NormalizeTorrents | torrt/rpc/deluge.py:129-132 | the loop normalizes every listed torrent as specified |
| Deluge.DelugeRPC.MethodGetTorrents | torrt/rpc/deluge.py:122-132 | `method_get_torrents` as specified on the client's state |
| Deluge.DelugeRPC.MethodAddTorrent | torrt/rpc/deluge.py:134-142 | `method_add_torrent` as specified on the client's state |
| Deluge.DelugeRPC.MethodRemoveTorrent | torrt/rpc/deluge.py:144-145 | `method_remove_torrent` as specified on the client's state |
| Deluge.DelugeRPC.MethodGetVersion | torrt/rpc/deluge.py:147-148 | the `webapi.get_api_version` result |
| Deluge.DelugeRPC.TestConfiguration | torrt/base_rpc.py:66-68 | the result of the version request |
| Utils.EncodeValue | torrt/utils.py:32-42 | the value itself exactly when no encoding is given, else its encoding |
| Utils.SchemeAt | torrt/utils.py:29 | where `https?://` followed by a non-space matches, `https` preferred |
| Utils.RunEnd | torrt/utils.py:29 | `[^\s]+` runs to the first whitespace or the end |
| Utils.FirstLink | torrt/utils.py:207 | `search` finds the leftmost position where the pattern matches |
| Utils.UrlFromString | torrt/utils.py:201-215 | `''` exactly when nothing matches; otherwise starts with `http://` or `https://` and holds no whitespace |
| Utils.UrlFromStringSpec | torrt/utils.py:201-215 | the link is the piece of the string from the leftmost match up to whitespace or the end |
| Utils.UrlFromStringIdempotent | torrt/utils.py:201-215 | the link found in a link is the link itself |
| Utils.UrlStopsAtSeparator | torrt/utils.py:28 | `\s` matches the separator `\x1f`, so `get_url_from_string('http://a\x1fb')` is `'http://a'` |
| Utils.Merged | torrt/utils.py:227-242 | a merge either succeeds or raises `TypeError` |
| Utils.MergedShape | torrt/utils.py:234-240 | keys of both; non-mapping values of the update overwrite; mappings merge recursively; keys only in the old dict survive |
| Utils.MergedIntoEmpty | torrt/utils.py:234-240 | merging into `{}` gives the update |
| Utils.MergedIdempotent | torrt/utils.py:227-242 | applying the same update twice equals applying it once |
| Utils.UpdateDict | torrt/utils.py:227-242 | the key-by-key recursive merge computes the merge as specified |
| Utils.TorrentRecordStable | torrt/utils.py:254-269 | structuring a stored record again under its hash leaves it as it is |
| Utils.StructureTorrentData | torrt/utils.py:245-269 | only `target[hash]` is set, to `{hash, name, url}`, with defaults `hash`, `None`, `None`; the other keys keep their values |
| Utils.FirstMatch | torrt/utils.py:521-528 | the first entry at or after a position that can handle the string or whose alias occurs in it |
| Utils.ForStringSpec | torrt/utils.py:515-530 | `None` exactly when no entry matches; else the object of the leftmost match |
| Utils.EnabledEntries | torrt/utils.py:298-315 | only enabled entries, never more than registered |
| Utils.Positions | torrt/utils.py:310-315 | one registry position per yielded entry |
| Utils.PositionsMatch | torrt/utils.py:310-315 | each yielded entry is the registry entry at its position |
| Utils.PositionsIncrease | torrt/utils.py:310-315 | the positions increase: registry order is kept |
| Utils.PositionsComplete | torrt/utils.py:310-315 | every enabled entry is yielded |
| Utils.ObjectsRegistry.constructor | torrt/utils.py:486-487 | an empty registry |
| Utils.ObjectsRegistry.Add | torrt/utils.py:489-501 | the object is stored under its alias, replacing an earlier one; other aliases keep their objects; a new alias is appended in order |
| Utils.ObjectsRegistry.Get | torrt/utils.py:503-513 | `None` exactly when the alias is not registered, else the object registered under it |
| Utils.ObjectsRegistry.GetForString | torrt/utils.py:515-530 | the loop returns the leftmost matching object as specified |

## Left out

- HTTP, the tracker API fetch and the base64 and charset codecs are parameters.
  - The server is an oracle from (requests so far, request) to a reply.
  - The fetch is a function from release code to decoded answer.
  - `base64encode(...).decode()` and `str.encode` are functions.
- `urljoin` is modelled for a relative path only: it replaces the last segment of the base. A base URL ending in `/` just gets the path appended.
- Header names are compared exactly. The case-insensitivity of response headers in the HTTP library is not modelled.
- JSON dicts are maps without order. The order of a non-empty dict seen as a `for` loop's elements is not modelled (`Errors.Elements` accepts only the empty dict). Order is modelled where the source depends on it: the quality table and the registry.
- In-place updates are modelled on values: the method returns the updated dict. This covers `normalize_field_names`, the Transmission and Deluge torrent reshaping, `update_dict` and `structure_torrent_data`. Two consequences:
  - aliasing is not captured, e.g. that `update_dict` returns the very `old_dict` object;
  - the partial updates left behind when an exception interrupts the loop are not captured.
- Digit, word-character and case classes are ASCII: `\w`, `\d`, `int()` on non-ASCII digits and `str.lower()` on non-ASCII letters are not modelled. Whitespace is modelled in full: `Text.IsSpace` is Python's `\s` and `str.isspace()` set, and `Text.IsIntSpace` is the part of it that `int()` skips.
- QBittorrent.Percent: a list, dict or bytes argument to a template with `%s` is treated as a format error. Python substitutes the value's `repr`, which the model does not compute.
- Anilibria.Release: the decoded API answer is typed as a status flag and a list of torrents. So these failures are not modelled:
  - `json.get` on an answer that is not a dict;
  - the `KeyError` or `TypeError` of `json['data']['torrents']` (torrt/trackers/anilibria.py:92) when `data` or `torrents` is missing or not a container.
- Anilibria.Variant: every torrent has a string `series`, a string `url` and a string or `None` `quality`. So these failures are not modelled:
  - the `KeyError` of a torrent without `series` (torrt/trackers/anilibria.py:95);
  - the `KeyError` or `TypeError` of a torrent of the chosen batch with a missing `quality`, or with a missing or non-string `url` (torrt/trackers/anilibria.py:103-104), raised only after the sort.
- Json has no floating-point values. Float fields, `Truthy(0.0)` and `'%s' % 1.5` are not modelled.
- File names in the Transmission files table must be strings. A non-string name is treated as an error, while Python would use it as a dict key.
- Deluge.DelugeRPC.Query, Deluge.DelugeRPC.Login and Deluge.DelugeRPC.IsConnected take a `fuel` count standing for Python's recursion limit.
  - The count is the client's `loginDepth`; when it runs out the result is `RecursionError`.
  - The real limit depends on the interpreter's stack.
- Deluge.DelugeRPC.MethodAddTorrent has no `params` argument; the source accepts it and never reads it.
- Utils.Merged reports a non-mapping old value under a mapping update as `TypeError`. Python raises `TypeError` or `AttributeError` depending on which operation hits it first.
- Utils.ObjectsRegistry.Add: `aliasOf` stands for `getattr(obj, 'alias')`. The `AttributeError` of an object without an alias is not modelled.
- Utils.ObjectsRegistry.GetForString: `handles` stands for `getattr(obj, 'can_handle', None)`. An object without that method never handles a string.
- `get(None)` returning the whole registry is `GetAll`, which just returns the field.
- Not modelled: logging, the telegram bot, configuration file I/O and `TorrtConfig`, dynamic imports, `GlobalParam`, `parse_torrent`, `make_soup`, `dump_contents`, `get_iso_from_timestamp` and `get_torrent_from_url`. They are I/O, clock, thread-local state or wrappers over third-party libraries.

## Findings

| source | as written | input that shows it | evidently intended | confidence | as-written member | corrected member |
|---|---|---|---|---|---|---|
| torrt/rpc/transmission.py:142-143 | `files-unwanted` is set only when no file is excluded, and then to the empty list; excluded files are never sent | files `["a", "b"]`, params `{"a": {"exclude": true}}`: the arguments hold only `metainfo` | `files-unwanted` lists the excluded indices when there are any (`[0]` here) | high, not executed | Transmission.ExclusionDropped | Transmission.AddTorrentArgsIntendedShape |

`Transmission.AddTorrentArgs` is the argument builder as written. `Transmission.AddTorrentArgsShape` proves its shape, and `Transmission.ExclusionDropped` exhibits the input above. The client (`Transmission.AddTorrentSpec` and `Transmission.TransmissionRPC.MethodAddTorrent`) sends these arguments as written, so that the model behaves as the program does. `Transmission.AddTorrentArgsIntended` is the corrected builder, and `Transmission.AddTorrentArgsIntendedShape` proves that it lists exactly the excluded indices.
