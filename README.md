# Pirate media gateway — format ranking and request shaping, in Dafny

This project models the decision logic of the Pirate server (`server/server.js`):
the gateway that runs the yt-dlp extractor for a pasted media URL, turns the
extractor's metadata document into the `/api/fetch` response, and prepares the
extractor run that streams a chosen format for `/api/download`.

Modelled, module by module:

- `JsValues` (`js_values.dfy`): absent JSON fields as `Option`, JavaScript
  truthiness of strings and numbers, the `||` fallback, and the decimal
  rendering of a number inside a template literal.
- `FormatRanker` (`format_ranker.dfy`): the `map` / `filter` / `sort` / `slice`
  chain over `metadata.formats`. Each raw format is normalised: the kind comes
  from the codec fields, then the resolution label, the size and the note are
  picked by first-truthy chains. Formats without a truthy `format_id` are
  dropped. The rest are sorted by the comparator (kind priority 3/2/1, then
  size, both descending) and cut to 20. ECMAScript requires
  `Array.prototype.sort` to be stable, so the sort is an insertion sort that
  keeps tied entries in input order. It is proved ordered, stable and a
  permutation, and it is proved to be the only arrangement with those three
  properties.
- `Metadata` (`metadata.dfy`): the response body with its defaults. A missing
  title becomes `Untitled Loot` and a missing duration becomes `N/A`. The
  uploader falls back to the extractor name, then to `Unknown`.
- `Credentials` (`credentials.dfy`): the cookie-file lookup. It checks the
  three candidate paths (server directory, working directory, its parent) in
  a fixed order, and the first one that exists wins. `FirstExisting`
  specifies it over an abstract existence test, and the method
  `LocateCookies` is the if/else chain the handlers run.
- `Server` (`server.dfy`): the extractor wrapper that attaches `cookies`
  to a copy of the options; the `/api/fetch` handler (400 for a missing URL
  without running the extractor, 500 with the diagnostic passed through,
  200 with the descriptor); the `/api/download` handler (400 for a missing
  URL or format id before anything is started, the `title.ext` file name
  with its defaults, the content-disposition header, and the argument vector
  built in place and extended by `--cookies <path>` only when a cookie file
  was found).

The extractor, the file-existence test and `encodeURIComponent` are
parameters of the model: a function from URL and options to a metadata
document or a failure, a `string -> bool` predicate, and a `string -> string`
function.

## Model

| member | source | states |
|---|---|---|
| `JsValues.NatToString` | server/server.js:101 | the `${height}` text is a non-empty string of decimal digits without a leading zero |
| `JsValues.NatToStringRoundTrip` | server/server.js:101 | the decimal text of a height reads back as that height |
| `JsValues.NatToStringInjective` | server/server.js:101 | different heights never render to the same text |
| `FormatRanker.Classify` | server/server.js:94-96 | Video Only iff video codec is not `none` and audio codec is `none`; Audio Only iff the reverse; Video + Audio exactly when both or neither codec is `none` (an absent codec is not `none`) |
| `FormatRanker.ResolutionLabel` | server/server.js:101 | label is never empty; it is the truthy `resolution`, else `{height}p` for a non-zero height, else `Video` when the video codec is not `none`, else `Audio` |
| `FormatRanker.HeightLabelRoundTrip` | server/server.js:101 | a height-derived label is digits followed by `p`, and the digits give back the height |
| `FormatRanker.FileSize` | server/server.js:102 | size is `filesize` when non-zero, else `filesize_approx` when non-zero, else 0; it is 0 exactly when neither is present and non-zero |
| `FormatRanker.NoteOf` | server/server.js:103 | note is the truthy `format_note`, else the non-zero `quality`, else empty text |
| `FormatRanker.Normalise` | server/server.js:98-105 | the client record keeps the raw `format_id` and `ext` and always has a non-empty resolution |
| `FormatRanker.NormaliseAll` | server/server.js:92-106 | one client record per raw entry, in the same order |
| `FormatRanker.KeepIdentified` | server/server.js:107 | every kept entry has a truthy `format_id`; the list does not grow |
| `FormatRanker.KeepIdentifiedSelect` | server/server.js:107 | the filter keeps input order: for every sort key, filtering then selecting that key equals selecting then filtering |
| `FormatRanker.KeepIdentifiedCounts` | server/server.js:107 | an entry with a truthy `format_id` is kept as often as it occurs, any other entry not at all |
| `FormatRanker.Priority` | server/server.js:110 | Video + Audio has priority 3, Video Only 2, Audio Only 1 |
| `FormatRanker.Compare` | server/server.js:108-113 | the comparator is 0 exactly on equal (priority, size) keys, and negative exactly when the first entry has higher priority or the same kind and a larger size |
| `FormatRanker.SortFormatsSorted` | server/server.js:108-113 | the sorted list is ordered by the comparator |
| `FormatRanker.SortFormatsSelect` | server/server.js:108-113 | for each sort key, the entries with that key appear in the sorted list in input order |
| `FormatRanker.SortFormatsStable` | server/server.js:108-113 | the sort is stable: for every key, output and input hold the same entries in the same order |
| `FormatRanker.SortFormatsPermutation` | server/server.js:108-113 | the sorted list is a permutation of its input |
| `FormatRanker.SortedArrangementUnique` | server/server.js:108-113 | two ordered arrangements that agree key by key are equal |
| `FormatRanker.SortFormatsIsTheStableSort` | server/server.js:108-113 | any ordered, stable arrangement of the input is exactly the model's sort, so the model fixes the order a stable engine sort produces |
| `FormatRanker.SortedMeansKindThenSize` | server/server.js:109-112 | in an ordered list all Video + Audio entries come before Video Only, which come before Audio Only, and size is non-increasing within a kind |
| `FormatRanker.Cap` | server/server.js:120 | the result is a prefix of its input of length min(n, 20) |
| `FormatRanker.RankedEntryOrigin` | server/server.js:92-120 | every returned format has a truthy id and is the normalisation of some raw entry of the document |
| `FormatRanker.RankFormatsSpec` | server/server.js:92-120 | the formats list has at most 20 entries and is a prefix of the full ordered, stable permutation of the kept entries; for every sort key the full list holds the identified entries of that key in document order; every entry has a truthy id and is the normalisation of some raw entry; kinds and sizes are ordered |
| `FormatRanker.RankingScenario` | server/server.js:92-113 | formats a (video only, 500), b (audio only, 100), c (both, 900) and one without id rank as [c, a, b] |
| `Metadata.RawFormatsOf` | server/server.js:92 | a missing `formats` array is treated as empty |
| `Metadata.Describe` | server/server.js:115-121 | title, duration and uploader are never empty and follow their fallback chains (`Untitled Loot`; `N/A`; uploader, extractor, `Unknown`); the thumbnail passes through; formats are the ranked list |
| `Metadata.DescribeFormatsBounded` | server/server.js:120 | the response lists at most 20 formats, each with a truthy id |
| `Metadata.AnonymousDocumentScenario` | server/server.js:116-119 | a document without title and uploader gets `Untitled Loot` and the extractor name as uploader |
| `Credentials.Join` | server/server.js:17-19 | a joined path is the directory, one separator, then the name |
| `Credentials.CookieCandidates` | server/server.js:17-19 | there are exactly three candidate paths, each ending in `cookies.txt`: in the server directory, in the working directory, and under the working directory's `..` |
| `Credentials.FirstExisting` | server/server.js:37-43 | the result is an existing candidate, and it is none exactly when no candidate exists |
| `Credentials.FirstExistingIsFirst` | server/server.js:37-43 | an existing candidate with no existing candidate before it is the one chosen |
| `Credentials.FirstExistingChosen` | server/server.js:37-43 | the chosen path is an existing candidate with no existing candidate before it |
| `Credentials.LocateCookies` | server/server.js:183-186 | the if/else chain yields the first existing candidate, or none; a found path is always truthy |
| `Server.ExtractorPath` | server/server.js:13-15 | the extractor binary lies in the server directory and is `yt-dlp.exe` on Windows, `yt-dlp` otherwise |
| `Server.WithCredential` | server/server.js:45-47 | a found cookie path is set as the `cookies` option; every other option is unchanged, and without a path the options are unchanged |
| `Server.YoutubeDl` | server/server.js:21-53 | the extractor runs on the URL with the given options plus `cookies` set to the first existing candidate, if any |
| `Server.ErrorDetails` | server/server.js:124 | the failure details are the truthy stderr text, else the truthy message, else `Unknown error`, never empty |
| `Server.ResponseFor` | server/server.js:115-128 | a successful extraction yields 200 with the descriptor; a failed one yields the 500 error with its details, never a partial list |
| `Server.HandleFetch` | server/server.js:64-130 | a falsy URL yields the 400 `URL is required` whatever the extractor would do; otherwise the response is that of the extractor run with the fetch options (`FetchOptions`, lines 73-88) and the located cookie file |
| `Server.FetchResponseBounded` | server/server.js:115-128 | a 200 response lists at most 20 formats, all with truthy ids; a failed extraction is a 500 |
| `Server.FileName` | server/server.js:164 | the file name is the title (default `video`), a dot, then the extension (default `mp4`) |
| `Server.BaseDownloadArgs` | server/server.js:172-181 | the fixed vector has twelve arguments: URL first, then `--format` with the id, then `--output -` |
| `Server.BuildDownloadArgs` | server/server.js:183-191 | the vector is the fixed twelve arguments, followed by `--cookies <path>` exactly when a truthy path was found |
| `Server.HandleDownload` | server/server.js:157-191 | a falsy URL or format id yields 400 `Missing URL or format ID` and no process; otherwise the attachment header names the encoded file name, and the extractor is run with the fixed arguments plus `--cookies <path>` exactly when a cookie file was found |
| `Server.DownloadCookieArguments` | server/server.js:183-191 | the argument vector has 14 entries exactly when a cookie file was found, and the last two are then `--cookies` and that existing candidate |

## Left out

- HTTP plumbing: Express routing, CORS, JSON body parsing, the health route, response headers other than the content disposition, and `app.listen` (server/server.js:55-61, 221-223). Responses are result values.
- Running yt-dlp (`createYoutubeDl`, `spawn`): the extractor is a function parameter. The stdout pipe, stderr logging, the `error`/`close` handlers, killing the child when the client disconnects, and the late 500 when the spawn fails (server/server.js:193-218) are stream and process lifecycle, not modelled.
- The thumbnail proxy (server/server.js:133-152) is a network client, not modelled.
- Debug directory listings and console logging (server/server.js:25-35, 46-49, 169, 189) are side effects without results.
- `encodeURIComponent` is an opaque function parameter.
- `path.join` normalisation is not modelled: a candidate path is directory, `/`, name, and the parent candidate keeps a literal `..`, which names the same file.
- Sizes and heights are naturals and `quality` an integer. JavaScript doubles, fractional `filesize_approx` and NaN are not modelled. So the comparator's `b.filesize || 0` is just `b.filesize`.
- Exceptions thrown while mapping a malformed document (a `null` entry in `formats`) are not modelled: every entry is a record whose fields may be absent.
- Query parameters and body fields are strings or absent; repeated parameters (arrays) are not modelled.
- The client application (client/src/App.jsx) is not part of this model.
