/** The two request handlers of the gateway that reach the extractor:
    `/api/fetch` (resolve metadata, rank formats) and `/api/download`
    (validate the query, name the file, build the extractor's argument
    vector). The extractor itself is a parameter: a function from URL and
    options to either a metadata document or a failure. */
module Server {
  import opened JsValues
  import opened FormatRanker
  import opened Metadata
  import opened Credentials

  /** A value in the options object handed to the extractor wrapper. */
  datatype OptionValue = Flag(on: bool) | Value(text: string) | Values(items: seq<string>)

  type ExtractorOptions = map<string, OptionValue>

  /** What the extractor process yields: the parsed metadata document, or a
      failure with its diagnostic output and its message. */
  datatype Extraction =
    | Extracted(metadata: VideoMetadata)
    | ExtractionFailed(stderr: Option<string>, message: Option<string>)

  type Extractor = (string, ExtractorOptions) -> Extraction

  /** The `/api/fetch` responses: 400, 500 with details, or 200 with the descriptor. */
  datatype FetchResponse =
    | FetchRejected(error: string)
    | FetchFailed(error: string, details: string)
    | FetchOk(descriptor: Descriptor)

  /** The `/api/download` responses: 400 before anything is started, or the
      header and the process to stream from. */
  datatype DownloadResponse =
    | DownloadRejected(message: string)
    | Streaming(contentDisposition: string, program: string, args: seq<string>)

  /** The `/api/download` query string; every parameter may be missing. */
  datatype DownloadQuery = DownloadQuery(
    url: Option<string>, formatId: Option<string>, title: Option<string>, ext: Option<string>)

  const UserAgent :=
    "User-Agent: Mozilla/5.0 (Windows NT 10.0; Win64; x64) AppleWebKit/537.36 (KHTML, like Gecko) Chrome/121.0.0.0 Safari/537.36"
  const PlayerClients := "youtube:player_client=ios,android"
  const CookiesOption := "cookies"

  function HttpStatus(r: FetchResponse): (code: int)
    ensures code in {200, 400, 500}
  {
    match r
    case FetchRejected(_) => 400
    case FetchFailed(_, _) => 500
    case FetchOk(_) => 200
  }

  /** The extractor executable next to the server source. */
  function ExtractorPath(h: Host): (p: string)
    ensures var name := if h.isWindows then "yt-dlp.exe" else "yt-dlp";
            h.serverDir + "/" <= p && |p| == |h.serverDir| + 1 + |name| &&
            p[|h.serverDir| + 1..] == name
  {
    Join(h.serverDir, if h.isWindows then "yt-dlp.exe" else "yt-dlp")
  }

  /** The options of the metadata request: one JSON document, no certificate
      checks, no cache, browser-like headers and resilient player clients. */
  const FetchOptions: ExtractorOptions :=
    map[
      "dumpSingleJson" := Flag(true),
      "noCheckCertificates" := Flag(true),
      "noWarnings" := Flag(true),
      "preferFreeFormats" := Flag(true),
      "noCacheDir" := Flag(true),
      "geoBypass" := Flag(true),
      "forceIpv4" := Flag(true),
      "addHeader" := Values([
        UserAgent,
        "Accept: text/html,application/xhtml+xml,application/xml;q=0.9,image/avif,image/webp,image/apng,*/*;q=0.8",
        "Accept-Language: en-US,en;q=0.9",
        "Origin: https://www.youtube.com",
        "Referer: https://www.youtube.com/"]),
      "extractorArgs" := Value(PlayerClients)]

  /** The options after the cookie file, if one was found, is attached:
      `cookies` names it and every other option is as given. */
  function WithCredential(options: ExtractorOptions, cookie: Option<string>): (o: ExtractorOptions)
    ensures cookie.Some? ==> CookiesOption in o && o[CookiesOption] == Value(cookie.value)
    ensures cookie.None? ==> o == options
    ensures forall k :: k != CookiesOption ==> (k in o <==> k in options)
    ensures forall k :: k != CookiesOption && k in options ==> o[k] == options[k]
  {
    if cookie.Some? then options[CookiesOption := Value(cookie.value)] else options
  }

  /** The extractor wrapper: copies the options, sets `cookies` when the
      locator found a file, and runs the extractor. */
  method YoutubeDl(url: string, options: ExtractorOptions, h: Host, extract: Extractor)
    returns (outcome: Extraction)
    ensures outcome == extract(url, WithCredential(options, FirstExisting(CookieCandidates(h), h.fileExists)))
  {
    var finalOptions := options;
    var actualCookiePath := LocateCookies(h);
    if Truthy(actualCookiePath) {
      finalOptions := finalOptions[CookiesOption := Value(actualCookiePath.value)];
    }
    outcome := extract(url, finalOptions);
  }

  /** `error.stderr || error.message || 'Unknown error'`: the diagnostic text
      is passed through verbatim whenever there is one. */
  function ErrorDetails(stderr: Option<string>, message: Option<string>): (d: string)
    ensures d != ""
    ensures Truthy(stderr) ==> d == stderr.value
    ensures !Truthy(stderr) && Truthy(message) ==> d == message.value
    ensures !Truthy(stderr) && !Truthy(message) ==> d == "Unknown error"
  {
    OrElse(FirstTruthy(stderr, message), "Unknown error")
  }

  /** The response for an extraction that was started. */
  function ResponseFor(e: Extraction): (r: FetchResponse)
    ensures e.Extracted? <==> r.FetchOk?
    ensures e.Extracted? ==> r.descriptor == Describe(e.metadata)
    ensures e.ExtractionFailed? ==> r == FetchFailed("Pirate ship hit a hidden rock!", ErrorDetails(e.stderr, e.message))
  {
    match e
    case Extracted(m) => FetchOk(Describe(m))
    case ExtractionFailed(stderr, message) =>
      FetchFailed("Pirate ship hit a hidden rock!", ErrorDetails(stderr, message))
  }

  /** `POST /api/fetch`: a missing or empty URL is rejected without running
      the extractor; otherwise the extractor's outcome decides. */
  method HandleFetch(url: Option<string>, h: Host, extract: Extractor) returns (response: FetchResponse)
    ensures !Truthy(url) ==> response == FetchRejected("URL is required")
    ensures Truthy(url) ==>
              response == ResponseFor(extract(url.value,
                            WithCredential(FetchOptions, FirstExisting(CookieCandidates(h), h.fileExists))))
    ensures HttpStatus(response) == 400 <==> !Truthy(url)
  {
    if !Truthy(url) {
      return FetchRejected("URL is required");
    }
    var metadata := YoutubeDl(url.value, FetchOptions, h, extract);
    response := ResponseFor(metadata);
  }

  /** A fetch never returns more than twenty formats, nor one without an
      identifier, and a failed extraction never yields a partial list. */
  lemma FetchResponseBounded(e: Extraction)
    ensures ResponseFor(e).FetchOk? ==> |ResponseFor(e).descriptor.formats| <= MaxFormats
    ensures ResponseFor(e).FetchOk? ==>
              forall i :: 0 <= i < |ResponseFor(e).descriptor.formats| ==>
                Truthy(ResponseFor(e).descriptor.formats[i].formatId)
    ensures e.ExtractionFailed? ==> HttpStatus(ResponseFor(e)) == 500
  {
    if e.Extracted? {
      DescribeFormatsBounded(e.metadata);
    }
  }

  /** `${title || 'video'}.${ext || 'mp4'}`. */
  function FileName(title: Option<string>, ext: Option<string>): (name: string)
    ensures var stem, suffix := OrElse(title, "video"), OrElse(ext, "mp4");
            |name| == |stem| + 1 + |suffix| && name[..|stem|] == stem &&
            name[|stem|] == '.' && name[|stem| + 1..] == suffix
  {
    OrElse(title, "video") + "." + OrElse(ext, "mp4")
  }

  /** The argument vector before the cookie file is considered: the URL,
      the chosen format, output to standard output, and a subset of the
      metadata request's flags: no certificate checks, no warnings, no
      cache, the User-Agent header alone and the player clients. Geo
      bypass, IPv4 forcing and free-format preference are not passed. */
  function BaseDownloadArgs(url: string, formatId: string): (args: seq<string>)
    ensures |args| == 12 && args[0] == url && args[1] == "--format" && args[2] == formatId
    ensures args[3] == "--output" && args[4] == "-"
  {
    [url,
     "--format", formatId,
     "--output", "-",
     "--no-check-certificates",
     "--no-warnings",
     "--no-cache-dir",
     "--add-header", UserAgent,
     "--extractor-args", PlayerClients]
  }

  /** Builds the extractor's argument vector, appending `--cookies <path>`
      when a cookie file was found and nothing otherwise. */
  method BuildDownloadArgs(url: string, formatId: string, cookie: Option<string>)
    returns (args: seq<string>)
    ensures Truthy(cookie) ==> args == BaseDownloadArgs(url, formatId) + ["--cookies", cookie.value]
    ensures !Truthy(cookie) ==> args == BaseDownloadArgs(url, formatId)
    ensures |args| == if Truthy(cookie) then 14 else 12
  {
    args := BaseDownloadArgs(url, formatId);
    if Truthy(cookie) {
      args := args + ["--cookies"];
      args := args + [cookie.value];
    }
  }

  /** `GET /api/download`: a missing URL or format identifier is rejected
      before any process is started; otherwise the response names the file
      and the extractor is run with the built argument vector. */
  method HandleDownload(q: DownloadQuery, h: Host, encodeUriComponent: string -> string)
    returns (response: DownloadResponse)
    ensures response.DownloadRejected? <==> !Truthy(q.url) || !Truthy(q.formatId)
    ensures response.DownloadRejected? ==> response.message == "Missing URL or format ID"
    ensures response.Streaming? ==>
              && response.contentDisposition ==
                   "attachment; filename=\"" + encodeUriComponent(FileName(q.title, q.ext)) + "\""
              && response.program == ExtractorPath(h)
              && response.args ==
                   BaseDownloadArgs(q.url.value, q.formatId.value) +
                   (match FirstExisting(CookieCandidates(h), h.fileExists)
                    case Some(p) => ["--cookies", p]
                    case None => [])
  {
    if !Truthy(q.url) || !Truthy(q.formatId) {
      return DownloadRejected("Missing URL or format ID");
    }
    var fileName := FileName(q.title, q.ext);
    var header := "attachment; filename=\"" + encodeUriComponent(fileName) + "\"";
    var actualCookiePath := LocateCookies(h);
    var args := BuildDownloadArgs(q.url.value, q.formatId.value, actualCookiePath);
    response := Streaming(header, ExtractorPath(h), args);
  }

  /** The arguments gain `--cookies` followed by the path exactly when the
      locator found one; without a cookie file they are the fixed twelve. */
  lemma DownloadCookieArguments(h: Host, url: string, formatId: string)
    ensures var cookie := FirstExisting(CookieCandidates(h), h.fileExists);
            var args := BaseDownloadArgs(url, formatId) +
                        (match cookie case Some(p) => ["--cookies", p] case None => []);
            (cookie.Some? <==> |args| == 14) &&
            (cookie.Some? ==> args[12] == "--cookies" && args[13] == cookie.value &&
                              h.fileExists(args[13]) && args[13] in CookieCandidates(h))
  {
  }
}
