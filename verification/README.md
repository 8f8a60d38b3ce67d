# YouTubeMediaParser in Dafny

A model of the stream-format parser of SmartYouTubeTV's ExoPlayer flavour,
`YouTubeMediaParser`. The parser receives the url-encoded `get_video_info`
payload. From it, it:

- builds the ordered list of media items (stream variants) from three
  sources: the `adaptive_fmts` parameter, the `player_response` JSON
  document, and the `url_encoded_fmt_stream_map` parameter;
- reads two manifest pointers, DASH and HLS;
- posts one decipher request. The request carries every cipher signature
  `s` by position: the items' first, then the DASH pointer's, then the HLS
  pointer's.

When the response with its own session id arrives, the parser:

1. unsubscribes;
2. when the DASH pointer is non-empty, offers the response's last entry to
   it, fetches that manifest and reports it, and then reports the HLS url
   when the HLS pointer is non-empty;
3. applies the entries to the items by position, rejecting a response
   shorter than the item list;
4. hands the items to its listener.

Layout, one module per file:

- `wrappers.dfy`: `Option`.
- `strings.dfy`: the prefix test and Java's `String.split(",")`. The split
  drops trailing empty pieces and maps an input without a comma to itself.
- `query.dfy`: `parseUri` and `extractParam` over an abstract query lookup.
- `media_item.dfy`: the `MediaItem` class, its field values `ItemFields`,
  and the pure specification of how a signature is attached (`ApplySignature`,
  `ApplySignatures`).
- `path_query_string.dfy`: the manifest pointer wrapper, as an optional
  parameter map.
- `listener.dfy`: the parser's listener, as the trace of callbacks it receives.
- `extraction.dfy`: pure specifications of the item list and of the pointer urls.
- `correlation.dfy`: pure specifications of the request, of the DASH
  pointer update and its callbacks, and lemmas about the positional round trip.
- `parser.dfy`: the `YouTubeMediaParser` class. Its methods update its
  fields, the pointer objects, the item objects and the listener in place.
  Each method is proved against the functions above.

Collaborators the parser calls but that are not modelled are the fields of
`MediaParser.Platform`:

- Android's `Uri` query lookup, as `UriQuery`;
- the JSON library's parse of `player_response`;
- the pointer wrapper's splitting of a url into parameters;
- the HTTP fetch of a pointer's url.

The session id is a constructor argument instead of a random number. The
message bus is modelled in three parts:

- registration is the `subscribed` flag;
- posting appends to the `posted` outbox;
- delivery is an explicit call of `DecipherSignaturesDone`.

Java exceptions are the `Thrown` outcome. State already changed when an
exception is raised stays changed, as it does in Java.

Behaviour of the code worth knowing:

- **No `player_response` document.** `extractDashMPDUrl` (when `dashmpd`
  is absent or empty) and `extractHlsUrlFromJson` read a JSON path from a
  null parser, and that throws. So, given a listener and no pending
  request, `ExtractMediaItemsAndDecipher` completes exactly when the
  document was parsed; without a document it ends with
  `Thrown(NullJsonParser)` before any request is posted. A payload with
  only `url_encoded_fmt_stream_map` and no `player_response` therefore
  never reaches the decipher step (`extractJson` dereferences a null
  parser, YouTubeMediaParser.java:457). When such a payload carries a
  non-empty `dashmpd`, the DASH pointer has already been replaced when
  the HLS step faults.
- **Second run while a request is pending.** The pointers are replaced
  again, but the Otto bus refuses to register the parser a second time, so
  `decipherSignatures` throws before posting (`Thrown(AlreadyRegistered)`).
- **Empty response.** A response with no entries throws when its last entry
  is read. The parser has already unsubscribed at that point.
- **Short response.** On a response shorter than the item list, the DASH
  pointer update, the fetch and the DASH and HLS callbacks have already
  happened when the count check throws.

## Model

| member | source | states |
|---|---|---|
| `Query.ParseUri` | smartyoutubetv/src/main/java/com/liskovsoft/smartyoutubetv/flavors/exoplayer/youtubeinfoparser/main/YouTubeMediaParser.java:477-483 | Defines the text handed to the URI parser: content already starting with "http" is kept, and anything else gets the `http://example.com?` prefix. Its properties are stated and proved in `Query.ParseUriShape`. |
| `Query.ParseUriShape` | smartyoutubetv/src/main/java/com/liskovsoft/smartyoutubetv/flavors/exoplayer/youtubeinfoparser/main/YouTubeMediaParser.java:477-483 | The text handed to the URI parser starts with "http" and ends with the content. It equals the content exactly when the content starts with "http"; otherwise it carries the `http://example.com?` prefix. Normalising is idempotent. |
| `Query.ExtractParam` | smartyoutubetv/src/main/java/com/liskovsoft/smartyoutubetv/flavors/exoplayer/youtubeinfoparser/main/YouTubeMediaParser.java:466-475 | The result is absent exactly when the key is missing or has an empty value. Otherwise it is the lookup's non-empty value. |
| `Strings.JavaSplit` | smartyoutubetv/src/main/java/com/liskovsoft/smartyoutubetv/flavors/exoplayer/youtubeinfoparser/main/YouTubeMediaParser.java:130 | No piece holds a comma. A comma-free input (also the empty one) is its own single piece. With a comma, the trailing empty pieces are removed: the result is empty or its last piece is non-empty. |
| `Strings.JavaSplitPieces` | smartyoutubetv/src/main/java/com/liskovsoft/smartyoutubetv/flavors/exoplayer/youtubeinfoparser/main/YouTubeMediaParser.java:130-131 | `split(",")` keeps a prefix of the comma pieces and drops only empty ones. No piece holds a comma. A comma-free input is its own single piece. An input ending in a non-comma keeps every piece. |
| `Strings.JoinPieces` | smartyoutubetv/src/main/java/com/liskovsoft/smartyoutubetv/flavors/exoplayer/youtubeinfoparser/main/YouTubeMediaParser.java:130 | Cutting at commas loses nothing: the pieces joined with commas give back the input. |
| `Extraction.InitJsonParser` | smartyoutubetv/src/main/java/com/liskovsoft/smartyoutubetv/flavors/exoplayer/youtubeinfoparser/main/YouTubeMediaParser.java:67-83 | A document exists exactly when `player_response` is present and non-empty. It is the parse of that value. |
| `Extraction.FormatPieces` | smartyoutubetv/src/main/java/com/liskovsoft/smartyoutubetv/flavors/exoplayer/youtubeinfoparser/main/YouTubeMediaParser.java:126-132 | An absent or empty format parameter gives no pieces. A present one gives its Java comma split. |
| `Extraction.FieldsFromQuery` | smartyoutubetv/src/main/java/com/liskovsoft/smartyoutubetv/flavors/exoplayer/youtubeinfoparser/main/YouTubeMediaParser.java:193-205 | A freshly parsed item has no resolved signature. Its cipher `s` and its url are the raw query values of the piece, and so are its other fields, each under its own key. |
| `Extraction.UrlEncodedFields` | smartyoutubetv/src/main/java/com/liskovsoft/smartyoutubetv/flavors/exoplayer/youtubeinfoparser/main/YouTubeMediaParser.java:122-139 | One item per piece, in piece order. Item `i` holds the raw query values of piece `i`. |
| `Extraction.JsonFields` | smartyoutubetv/src/main/java/com/liskovsoft/smartyoutubetv/flavors/exoplayer/youtubeinfoparser/main/YouTubeMediaParser.java:152-164 | No document gives no items. Otherwise the result is `formats` when it yields any item, else `adaptiveFormats`; a missing path counts as empty. |
| `Extraction.AssembledFields` | smartyoutubetv/src/main/java/com/liskovsoft/smartyoutubetv/flavors/exoplayer/youtubeinfoparser/main/YouTubeMediaParser.java:171-174 | The item list has as many entries as the adaptive pieces, the JSON records and the regular pieces together; `AssembledOrder` gives the position of each. |
| `Extraction.AssembledOrder` | smartyoutubetv/src/main/java/com/liskovsoft/smartyoutubetv/flavors/exoplayer/youtubeinfoparser/main/YouTubeMediaParser.java:166-175 | Every position of the item list comes from exactly one group: the adaptive pieces, then the JSON records, then the regular pieces, each group in its own order. |
| `Extraction.DashMpdUrl` | smartyoutubetv/src/main/java/com/liskovsoft/smartyoutubetv/flavors/exoplayer/youtubeinfoparser/main/YouTubeMediaParser.java:111-120 | A non-empty `dashmpd` wins. Otherwise the document's `dashManifestUrl` is used. It faults (null parser) exactly when `dashmpd` is absent or empty and there is no document. |
| `Extraction.HlsUrlFromJson` | smartyoutubetv/src/main/java/com/liskovsoft/smartyoutubetv/flavors/exoplayer/youtubeinfoparser/main/YouTubeMediaParser.java:104-109 | The result is the document's `hlsManifestUrl`. It faults exactly when there is no document. |
| `MediaItems.MediaItem.constructor` | smartyoutubetv/src/main/java/com/liskovsoft/smartyoutubetv/flavors/exoplayer/youtubeinfoparser/main/YouTubeMediaParser.java:194-204 | A new item holds exactly the given field values. |
| `MediaItems.SignedUrl` | smartyoutubetv/src/main/java/com/liskovsoft/smartyoutubetv/flavors/exoplayer/youtubeinfoparser/main/YouTubeMediaParser.java:307 | The signed url is the old url ("null" for a null url) followed by `&signature=` and the signature. |
| `MediaItems.ApplySignature` | smartyoutubetv/src/main/java/com/liskovsoft/smartyoutubetv/flavors/exoplayer/youtubeinfoparser/main/YouTubeMediaParser.java:300-310 | A null entry leaves the item unchanged. A present entry signs the url, becomes the resolved signature and clears `s`. No structural field changes. |
| `MediaItems.ApplySignaturesAt` | smartyoutubetv/src/main/java/com/liskovsoft/smartyoutubetv/flavors/exoplayer/youtubeinfoparser/main/YouTubeMediaParser.java:300-310 | Entry `i` of the response lands on item `i` and the item count is kept. |
| `MediaItems.ApplySignaturesIgnoresSurplus` | smartyoutubetv/src/main/java/com/liskovsoft/smartyoutubetv/flavors/exoplayer/youtubeinfoparser/main/YouTubeMediaParser.java:295-300 | Response entries past the last item never affect the items. |
| `MediaItems.ApplyNullSignatures` | smartyoutubetv/src/main/java/com/liskovsoft/smartyoutubetv/flavors/exoplayer/youtubeinfoparser/main/YouTubeMediaParser.java:301-304 | A response of nulls changes no item. |
| `PathQuery.PathQueryString.constructor` | smartyoutubetv/src/main/java/com/liskovsoft/smartyoutubetv/flavors/exoplayer/youtubeinfoparser/main/YouTubeMediaParser.java:108 | A pointer wrapping a null url is empty. Otherwise it holds the url's parameters. |
| `PathQuery.PathQueryString.IsEmpty` | smartyoutubetv/src/main/java/com/liskovsoft/smartyoutubetv/flavors/exoplayer/youtubeinfoparser/main/YouTubeMediaParser.java:267 | An empty pointer (one wrapping a null url) answers no key; a non-empty one holds a parameter map. |
| `PathQuery.PathQueryString.Get` | smartyoutubetv/src/main/java/com/liskovsoft/smartyoutubetv/flavors/exoplayer/youtubeinfoparser/main/YouTubeMediaParser.java:237-238 | A key is found exactly when the pointer is non-empty and has that parameter. The result is then its value. |
| `PathQuery.PathQueryString.Remove` | smartyoutubetv/src/main/java/com/liskovsoft/smartyoutubetv/flavors/exoplayer/youtubeinfoparser/main/YouTubeMediaParser.java:272 | The parameter map loses the key and nothing else. |
| `PathQuery.PathQueryString.Set` | smartyoutubetv/src/main/java/com/liskovsoft/smartyoutubetv/flavors/exoplayer/youtubeinfoparser/main/YouTubeMediaParser.java:273 | The key maps to the value and every other parameter is kept. |
| `Listeners.Listener.OnRawDashContent` | smartyoutubetv/src/main/java/com/liskovsoft/smartyoutubetv/flavors/exoplayer/youtubeinfoparser/main/YouTubeMediaParser.java:338 | The listener's trace grows by exactly the manifest callback. |
| `Listeners.Listener.OnHlsUrl` | smartyoutubetv/src/main/java/com/liskovsoft/smartyoutubetv/flavors/exoplayer/youtubeinfoparser/main/YouTubeMediaParser.java:337 | The listener's trace grows by exactly the HLS callback. |
| `Listeners.Listener.OnExtractMediaItemsAndDecipher` | smartyoutubetv/src/main/java/com/liskovsoft/smartyoutubetv/flavors/exoplayer/youtubeinfoparser/main/YouTubeMediaParser.java:339 | The listener's trace grows by exactly the item-list callback. |
| `Correlation.CipherSignatures` | smartyoutubetv/src/main/java/com/liskovsoft/smartyoutubetv/flavors/exoplayer/youtubeinfoparser/main/YouTubeMediaParser.java:232-234 | One entry per item, in item order: entry `i` is item `i`'s cipher `s`, null when the item has none. |
| `Correlation.SignatureRequest` | smartyoutubetv/src/main/java/com/liskovsoft/smartyoutubetv/flavors/exoplayer/youtubeinfoparser/main/YouTubeMediaParser.java:229-241 | The request has two more entries than there are items. Entry `i` is item `i`'s `s`, followed by the DASH pointer's `s` and then the HLS pointer's `s`. |
| `Correlation.AcceptedDashSignature` | smartyoutubetv/src/main/java/com/liskovsoft/smartyoutubetv/flavors/exoplayer/youtubeinfoparser/main/YouTubeMediaParser.java:271 | Only a non-null signature of exactly 81 characters is accepted; a null one never is. |
| `Correlation.SignDashParams` | smartyoutubetv/src/main/java/com/liskovsoft/smartyoutubetv/flavors/exoplayer/youtubeinfoparser/main/YouTubeMediaParser.java:271-276 | A signature that is not exactly 81 characters leaves the pointer alone. An accepted one replaces `s` by `signature` and keeps every other parameter. |
| `Correlation.SignedPointer` | smartyoutubetv/src/main/java/com/liskovsoft/smartyoutubetv/flavors/exoplayer/youtubeinfoparser/main/YouTubeMediaParser.java:266-276 | An empty DASH pointer stays empty. A non-empty one is updated as `SignDashParams` states. |
| `Correlation.DashCallbacks` | smartyoutubetv/src/main/java/com/liskovsoft/smartyoutubetv/flavors/exoplayer/youtubeinfoparser/main/YouTubeMediaParser.java:266-285 | An empty DASH pointer causes no callback. Otherwise the manifest of the (possibly signed) pointer is fetched and reported, whether or not the signature was accepted. The HLS url follows exactly when the HLS pointer is non-empty. |
| `Correlation.HlsNeedsDash` | smartyoutubetv/src/main/java/com/liskovsoft/smartyoutubetv/flavors/exoplayer/youtubeinfoparser/main/YouTubeMediaParser.java:266-285 | The HLS url is reported exactly when both pointers are non-empty. |
| `Correlation.RoundTripAlignment` | smartyoutubetv/src/main/java/com/liskovsoft/smartyoutubetv/flavors/exoplayer/youtubeinfoparser/main/YouTubeMediaParser.java:243-258 | When the decipherer answers entry by entry, the response covers every item and each item receives the answer to its own `s`. The entry the DASH pointer receives is the answer to the HLS pointer's `s`. |
| `Correlation.CompleteAnswerResolvesAll` | smartyoutubetv/src/main/java/com/liskovsoft/smartyoutubetv/flavors/exoplayer/youtubeinfoparser/main/YouTubeMediaParser.java:295-311 | A decipherer that answers every cipher signature leaves no item with an `s`: each ciphered item carries its answer, and an unciphered item is unchanged. |
| `MediaParser.YouTubeMediaParser.constructor` | smartyoutubetv/src/main/java/com/liskovsoft/smartyoutubetv/flavors/exoplayer/youtubeinfoparser/main/YouTubeMediaParser.java:60-65 | A new session keeps its content and id and parses `player_response` as `InitJsonParser` states. It has no listener, items, pointers, subscription or posted request. |
| `MediaParser.YouTubeMediaParser.PointerParams` | smartyoutubetv/src/main/java/com/liskovsoft/smartyoutubetv/flavors/exoplayer/youtubeinfoparser/main/YouTubeMediaParser.java:108 | A pointer is empty exactly when its url is null; otherwise it holds the parameters parsed from that url. |
| `MediaParser.YouTubeMediaParser.CreateMediaItem` | smartyoutubetv/src/main/java/com/liskovsoft/smartyoutubetv/flavors/exoplayer/youtubeinfoparser/main/YouTubeMediaParser.java:192-206 | The result is a new item whose fields are the piece's raw query values. |
| `MediaParser.YouTubeMediaParser.ExtractUrlEncodedMediaItems` | smartyoutubetv/src/main/java/com/liskovsoft/smartyoutubetv/flavors/exoplayer/youtubeinfoparser/main/YouTubeMediaParser.java:122-139 | The result is new, pairwise distinct item objects whose field values are `UrlEncodedFields`. |
| `MediaParser.YouTubeMediaParser.ExtractJsonList` | smartyoutubetv/src/main/java/com/liskovsoft/smartyoutubetv/flavors/exoplayer/youtubeinfoparser/main/YouTubeMediaParser.java:436-449 | The result is new, distinct item objects holding the records in order. |
| `MediaParser.YouTubeMediaParser.ExtractJsonMediaItems` | smartyoutubetv/src/main/java/com/liskovsoft/smartyoutubetv/flavors/exoplayer/youtubeinfoparser/main/YouTubeMediaParser.java:152-164 | The result is new, distinct item objects whose field values are `JsonFields`. |
| `MediaParser.YouTubeMediaParser.ExtractMediaItems` | smartyoutubetv/src/main/java/com/liskovsoft/smartyoutubetv/flavors/exoplayer/youtubeinfoparser/main/YouTubeMediaParser.java:166-175 | The first call builds new, distinct items whose values are `AssembledFields`. Later calls change nothing. |
| `MediaParser.YouTubeMediaParser.ExtractDashMpdUrl` | smartyoutubetv/src/main/java/com/liskovsoft/smartyoutubetv/flavors/exoplayer/youtubeinfoparser/main/YouTubeMediaParser.java:111-120 | The DASH pointer becomes a new wrapper of `DashMpdUrl`'s url. If that url faults, the outcome is `Thrown(NullJsonParser)` and the pointer is untouched. The items are unchanged. |
| `MediaParser.YouTubeMediaParser.ExtractHlsUrlFromJson` | smartyoutubetv/src/main/java/com/liskovsoft/smartyoutubetv/flavors/exoplayer/youtubeinfoparser/main/YouTubeMediaParser.java:104-109 | The HLS pointer becomes a new wrapper of the document's HLS url. Without a document the outcome is `Thrown(NullJsonParser)` and the pointer is untouched. |
| `MediaParser.YouTubeMediaParser.ExtractSignatures` | smartyoutubetv/src/main/java/com/liskovsoft/smartyoutubetv/flavors/exoplayer/youtubeinfoparser/main/YouTubeMediaParser.java:229-241 | The loop's result is `SignatureRequest` of the current items and the two pointers' `s`. |
| `MediaParser.YouTubeMediaParser.DecipherSignatures` | smartyoutubetv/src/main/java/com/liskovsoft/smartyoutubetv/flavors/exoplayer/youtubeinfoparser/main/YouTubeMediaParser.java:220-227 | Before the items exist the outcome is `Thrown(NoMediaItems)` and nothing changes. While a request is still pending, the bus refuses the second registration: `Thrown(AlreadyRegistered)` and nothing is posted. Otherwise the parser subscribes and posts exactly one request with its id. |
| `MediaParser.YouTubeMediaParser.ApplySignatureAndParseDashMpdUrl` | smartyoutubetv/src/main/java/com/liskovsoft/smartyoutubetv/flavors/exoplayer/youtubeinfoparser/main/YouTubeMediaParser.java:266-293 | The DASH pointer becomes `SignedPointer` of its old state. The listener's trace grows by exactly `DashCallbacks`. |
| `MediaParser.YouTubeMediaParser.ApplySignaturesToMediaItems` | smartyoutubetv/src/main/java/com/liskovsoft/smartyoutubetv/flavors/exoplayer/youtubeinfoparser/main/YouTubeMediaParser.java:295-311 | A response shorter than the item list gives `Thrown(SignatureCountMismatch)` and no item changes. Otherwise the items' values become `ApplySignatures` of their old values. |
| `MediaParser.YouTubeMediaParser.DecipherSignaturesDone` | smartyoutubetv/src/main/java/com/liskovsoft/smartyoutubetv/flavors/exoplayer/youtubeinfoparser/main/YouTubeMediaParser.java:243-258 | A response with another id, or one arriving when not subscribed, changes nothing. An empty response unsubscribes and throws `EmptyResponse`. Otherwise the parser unsubscribes and the last entry goes to the DASH pointer with its callbacks. A short response then throws with the items unchanged; a long enough one signs the items by position and reports them. |
| `MediaParser.YouTubeMediaParser.ExtractMediaItemsAndDecipher` | smartyoutubetv/src/main/java/com/liskovsoft/smartyoutubetv/flavors/exoplayer/youtubeinfoparser/main/YouTubeMediaParser.java:323-334 | A null listener gives `Thrown(NoListener)` with nothing changed. Otherwise the listener is set, and a first run assembles new, distinct item objects. Without a document the run throws `NullJsonParser`: a non-empty `dashmpd` has already become a new DASH pointer, otherwise the DASH pointer is untouched, and nothing is posted. With a document both pointers become new wrappers of the computed urls. The run then completes with exactly one posted request, unless a request is still pending, in which case it throws `AlreadyRegistered` and posts nothing. |

## Left out

- Android's `Uri.parse` and `getQueryParameter` (parsing and percent-decoding) are the abstract lookup `UriQuery`. Only `parseUri`'s choice of text is modelled.
- The JSON library (`JsonPath` with Gson) is the abstract `parseJson`. A document is reduced to the four paths the parser reads, and the library's mapping of a JSON record onto item fields is taken as given.
- `MyPathQueryString` is not part of this model. Its splitting of a url into parameters is the abstract `PathParser`, and `toString` is folded into the fetch and the HLS callback.
- PathQuery.PathQueryString.Remove: requires a non-empty pointer, because its behaviour on an empty one is in source that is not part of this model. The parser only calls it after its own emptiness check.
- PathQuery.PathQueryString.Set: requires a non-empty pointer, for the same reason as `Remove`.
- The HTTP fetch of the DASH manifest (`extractDashMPDContent`, OkHttp) is the abstract `fetch`. A failed request (`null`) is `None`, and the body stream is a byte sequence.
- The random session id is a constructor argument.
- Logging (`Log.d`) is not modelled.
- The Otto bus is not modelled as such: registration, posting and delivery are a flag, an outbox and an explicit method call. The bus's threading and the decipherer itself are not modelled. `Correlation.Answer` stands in for a decipherer in the round-trip lemmas.
- `mergeMediaItems` has no member: the secondary list it would append is never assigned, so the call changes nothing.
- `extractGenericInfo`, `extractHLSUrl`, the unused `decipherSignature` and the unused `createMediaItem(Map)` are not modelled. None of them is on the parsing pipeline.
- MediaParser.YouTubeMediaParser.constructor: the JSON library's parse is a total function here, so a malformed `player_response`, which makes the Java constructor throw at lines 80-82, is not modelled.
- Null inputs are not modelled: a null payload, a null signature list in a response, and a null listener at delivery time. For the last one, the parser's invariant guarantees that a listener is set whenever it is subscribed.
- The 81-character check counts Dafny characters. Java counts UTF-16 code units; the two agree on the ASCII signatures the decipherer returns.
