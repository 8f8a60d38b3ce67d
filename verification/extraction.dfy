/**
 * What the parser extracts from the `get_video_info` payload, as pure
 * functions: the ordered item list from three sources and the two manifest
 * urls. The methods of `MediaParser.YouTubeMediaParser` are proved against
 * these.
 */
module Extraction {
  import opened Wrappers
  import opened Strings
  import opened Query
  import opened MediaItems

  /** Top-level query parameters of the payload. */
  const DashMpdKey := "dashmpd"
  const AdaptiveFormatsKey := "adaptive_fmts"
  const RegularFormatsKey := "url_encoded_fmt_stream_map"
  const JsonInfoKey := "player_response"

  /**
   * The `player_response` JSON document, reduced to the four paths the
   * parser reads: `$.streamingData.formats`, `$.streamingData.adaptiveFormats`,
   * `$.streamingData.dashManifestUrl` and `$.streamingData.hlsManifestUrl`.
   * `None` is a path the document does not contain. The mapping of a JSON
   * record onto item fields is done by the JSON library and is taken as given.
   */
  datatype JsonDoc = JsonDoc(
    formats: Option<seq<ItemFields>>,
    adaptiveFormats: Option<seq<ItemFields>>,
    dashManifestUrl: Option<string>,
    hlsManifestUrl: Option<string>)

  /** The exceptions the modelled code can raise. */
  datatype Fault =
    | NullJsonParser          // a JSON path read while no document was parsed
    | NoListener              // the pipeline started without a listener
    | NoMediaItems            // signatures requested before the item list exists
    | EmptyResponse           // the last entry of an empty response was read
    | SignatureCountMismatch  // fewer response entries than items
    | AlreadyRegistered       // the bus refused a second registration of the same subscriber

  datatype Result<T> = Success(value: T) | Failure(error: Fault)

  /**
   * `initJsonParser`: the document is parsed only when `player_response`
   * is present and non-empty; otherwise there is no parser.
   */
  function InitJsonParser(query: UriQuery, parseJson: string -> JsonDoc, content: string): (r: Option<JsonDoc>)
    ensures r.None? <==> ExtractParam(query, content, JsonInfoKey).None?
    ensures r.Some? ==> r.value == parseJson(ExtractParam(query, content, JsonInfoKey).value)
  {
    match ExtractParam(query, content, JsonInfoKey)
    case None => None
    case Some(json) => Some(parseJson(json))
  }

  /** `createMediaItem(String)`: every field is the raw query value of its key. */
  function FieldsFromQuery(query: UriQuery, piece: string): (r: ItemFields)
    ensures r.signature.None?
    ensures r.s == query(ParseUri(piece), SKey) && r.url == query(ParseUri(piece), UrlKey)
  {
    var uri := ParseUri(piece);
    ItemFields(query(uri, UrlKey), query(uri, TypeKey), query(uri, ITagKey), query(uri, SKey),
               query(uri, ClenKey), query(uri, BitrateKey), query(uri, FpsKey),
               query(uri, IndexKey), query(uri, InitKey), query(uri, SizeKey), None)
  }

  /** The comma-separated item strings of one format-list parameter. */
  function FormatPieces(query: UriQuery, content: string, key: string): (r: seq<string>)
    ensures ExtractParam(query, content, key).None? ==> r == []
    ensures ExtractParam(query, content, key).Some? ==> r == JavaSplit(ExtractParam(query, content, key).value)
  {
    match ExtractParam(query, content, key)
    case None => []
    case Some(formats) => JavaSplit(formats)
  }

  /**
   * `extractUrlEncodedMediaItems`: one item per piece of the parameter's
   * value, in order; an absent or empty parameter gives no items.
   */
  function UrlEncodedFields(query: UriQuery, content: string, key: string): (r: seq<ItemFields>)
    ensures var pieces := FormatPieces(query, content, key);
      |r| == |pieces| && forall i :: 0 <= i < |r| ==> r[i] == FieldsFromQuery(query, pieces[i])
    ensures ExtractParam(query, content, key).None? ==> r == []
  {
    var pieces := FormatPieces(query, content, key);
    seq(|pieces|, i requires 0 <= i < |pieces| => FieldsFromQuery(query, pieces[i]))
  }

  /**
   * `extractJsonMediaItems`: the `formats` list; the `adaptiveFormats`
   * list only when `formats` gave no item; nothing without a document.
   */
  function JsonFields(doc: Option<JsonDoc>): (r: seq<ItemFields>)
    ensures doc.None? ==> r == []
    ensures doc.Some? && doc.value.formats.GetOr([]) != [] ==> r == doc.value.formats.value
    ensures doc.Some? && doc.value.formats.GetOr([]) == [] ==> r == doc.value.adaptiveFormats.GetOr([])
  {
    match doc
    case None => []
    case Some(d) =>
      var formats := d.formats.GetOr([]);
      if |formats| == 0 then d.adaptiveFormats.GetOr([]) else formats
  }

  /**
   * `extractMediaItems`: the `adaptive_fmts` items, then the JSON items,
   * then the `url_encoded_fmt_stream_map` items.
   */
  function AssembledFields(query: UriQuery, content: string, doc: Option<JsonDoc>): (r: seq<ItemFields>)
    ensures |r| == |FormatPieces(query, content, AdaptiveFormatsKey)| + |JsonFields(doc)|
                   + |FormatPieces(query, content, RegularFormatsKey)|
  {
    UrlEncodedFields(query, content, AdaptiveFormatsKey)
      + JsonFields(doc)
      + UrlEncodedFields(query, content, RegularFormatsKey)
  }

  /**
   * The item list is the three groups back to back, each in its own source
   * order: position `i` of the list is traced to exactly one group and one
   * position inside it.
   */
  lemma AssembledOrder(query: UriQuery, content: string, doc: Option<JsonDoc>, i: int)
    requires 0 <= i < |AssembledFields(query, content, doc)|
    ensures var a := FormatPieces(query, content, AdaptiveFormatsKey);
      var j := JsonFields(doc);
      var g := FormatPieces(query, content, RegularFormatsKey);
      var r := AssembledFields(query, content, doc);
      && |r| == |a| + |j| + |g|
      && (i < |a| ==> r[i] == FieldsFromQuery(query, a[i]))
      && (|a| <= i < |a| + |j| ==> r[i] == j[i - |a|])
      && (|a| + |j| <= i ==> r[i] == FieldsFromQuery(query, g[i - |a| - |j|]))
  {
    var adaptive := UrlEncodedFields(query, content, AdaptiveFormatsKey);
    var json := JsonFields(doc);
    var regular := UrlEncodedFields(query, content, RegularFormatsKey);
    var r := adaptive + json + regular;
    assert AssembledFields(query, content, doc) == r;
    if i < |adaptive| {
      assert r[i] == adaptive[i];
    } else if i < |adaptive| + |json| {
      assert r[i] == json[i - |adaptive|];
    } else {
      assert r[i] == regular[i - |adaptive| - |json|];
    }
  }

  /**
   * `extractDashMPDUrl`: the top-level `dashmpd` when present and non-empty,
   * else the document's `dashManifestUrl`; reading the document faults when
   * there is none.
   */
  function DashMpdUrl(query: UriQuery, content: string, doc: Option<JsonDoc>): (r: Result<Option<string>>)
    ensures r.Failure? <==> ExtractParam(query, content, DashMpdKey).None? && doc.None?
    ensures r.Failure? ==> r.error == NullJsonParser
    ensures ExtractParam(query, content, DashMpdKey).Some? ==> r == Success(ExtractParam(query, content, DashMpdKey))
    ensures ExtractParam(query, content, DashMpdKey).None? && doc.Some? ==> r == Success(doc.value.dashManifestUrl)
  {
    match ExtractParam(query, content, DashMpdKey)
    case Some(url) => Success(Some(url))
    case None =>
      if doc.None? then Failure(NullJsonParser) else Success(doc.value.dashManifestUrl)
  }

  /**
   * `extractHlsUrlFromJson`: only the document's `hlsManifestUrl` (there is
   * no top-level fallback); faults when there is no document.
   */
  function HlsUrlFromJson(doc: Option<JsonDoc>): (r: Result<Option<string>>)
    ensures r.Failure? <==> doc.None?
    ensures r.Failure? ==> r.error == NullJsonParser
    ensures doc.Some? ==> r == Success(doc.value.hlsManifestUrl)
  {
    if doc.None? then Failure(NullJsonParser) else Success(doc.value.hlsManifestUrl)
  }
}
