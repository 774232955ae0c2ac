/** The descriptor the `/api/fetch` response carries: the extractor's
    metadata document with documented defaults for missing fields and the
    ranked format list. */
module Metadata {
  import opened JsValues
  import opened FormatRanker

  /** The fields of the extractor's metadata document the gateway reads. */
  datatype VideoMetadata = VideoMetadata(
    title: Option<string>,
    thumbnail: Option<string>,
    durationString: Option<string>,
    uploader: Option<string>,
    extractor: Option<string>,
    formats: Option<seq<RawFormat>>)

  /** The body of a successful `/api/fetch` response. */
  datatype Descriptor = Descriptor(
    title: string,
    thumbnail: Option<string>,
    duration: string,
    uploader: string,
    formats: seq<ClientFormat>)

  const DefaultTitle := "Untitled Loot"
  const DefaultDuration := "N/A"
  const DefaultUploader := "Unknown"

  /** `metadata.formats || []`. */
  function RawFormatsOf(m: VideoMetadata): (raw: seq<RawFormat>)
    ensures m.formats.None? ==> raw == []
    ensures m.formats.Some? ==> raw == m.formats.value
  {
    if m.formats.Some? then m.formats.value else []
  }

  /** The response body built from a metadata document. */
  function Describe(m: VideoMetadata): (d: Descriptor)
    ensures d.title != "" && d.duration != "" && d.uploader != ""
    ensures d.title == if Truthy(m.title) then m.title.value else DefaultTitle
    ensures d.duration == if Truthy(m.durationString) then m.durationString.value else DefaultDuration
    ensures Truthy(m.uploader) ==> d.uploader == m.uploader.value
    ensures !Truthy(m.uploader) && Truthy(m.extractor) ==> d.uploader == m.extractor.value
    ensures !Truthy(m.uploader) && !Truthy(m.extractor) ==> d.uploader == DefaultUploader
    ensures d.thumbnail == m.thumbnail
    ensures d.formats == RankFormats(RawFormatsOf(m))
  {
    Descriptor(
      OrElse(m.title, DefaultTitle),
      m.thumbnail,
      OrElse(m.durationString, DefaultDuration),
      OrElse(FirstTruthy(m.uploader, m.extractor), DefaultUploader),
      RankFormats(RawFormatsOf(m)))
  }

  /** The response never lists more than twenty formats, and each of them
      can be requested for download by its identifier. */
  lemma DescribeFormatsBounded(m: VideoMetadata)
    ensures |Describe(m).formats| <= MaxFormats
    ensures forall i :: 0 <= i < |Describe(m).formats| ==> Truthy(Describe(m).formats[i].formatId)
  {
    RankFormatsSpec(RawFormatsOf(m));
  }

  /** A document without title and uploader is described with the default
      title and with the extractor's own name as uploader. */
  lemma AnonymousDocumentScenario(extractor: string, thumbnail: Option<string>)
    requires extractor != ""
    ensures var d := Describe(VideoMetadata(None, thumbnail, None, None, Some(extractor), None));
            d.title == "Untitled Loot" && d.uploader == extractor &&
            d.duration == "N/A" && d.formats == []
  {
  }
}
