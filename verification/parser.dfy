/**
 * `YouTubeMediaParser`: one parse session. It assembles the item list and
 * the two manifest pointers from the payload, posts one decipher request
 * carrying every cipher signature by position, and on the matching
 * response applies the answers back by position and reports to its
 * listener.
 */
module MediaParser {
  import opened Wrappers
  import opened Strings
  import opened Query
  import opened MediaItems
  import opened PathQuery
  import opened Listeners
  import opened Extraction
  import opened Correlation

  /**
   * The collaborators the parser calls but that are not part of this
   * model: Android's query lookup, the JSON parser, the pointer wrapper's
   * url splitting, and the HTTP fetch of a pointer's url.
   */
  datatype Platform = Platform(
    query: UriQuery,
    parseJson: string -> JsonDoc,
    pathParams: PathParser,
    fetch: Params -> Option<Bytes>)

  /** How a call ended: normally, ignored (a response for another session), or with an exception. */
  datatype Outcome = Completed | Ignored | Thrown(error: Fault)

  class YouTubeMediaParser {
    const platform: Platform
    const content: string
    const id: int
    /** The parsed `player_response`, if any. */
    const parser: Option<JsonDoc>
    var listener: Listener?
    /** False while the source's item list is still null. */
    var itemsExtracted: bool
    var mediaItems: seq<MediaItem>
    var dashMpdUrl: PathQueryString?
    var hlsUrl: PathQueryString?
    /** Registered on the decipher channel. */
    var subscribed: bool
    /** The decipher requests posted so far. */
    var posted: seq<DecipherRequest>

    ghost predicate Valid()
      reads this
    {
      && Distinct(mediaItems)
      && (!itemsExtracted ==> mediaItems == [])
      && (dashMpdUrl != null && hlsUrl != null ==> dashMpdUrl != hlsUrl)
      && (subscribed ==> listener != null && itemsExtracted && dashMpdUrl != null && hlsUrl != null)
    }

    /** The session id is an input here; the source draws it at random. */
    constructor (platform: Platform, content: string, id: int)
      ensures Valid()
      ensures this.platform == platform && this.content == content && this.id == id
      ensures parser == InitJsonParser(platform.query, platform.parseJson, content)
      ensures listener == null && !itemsExtracted && dashMpdUrl == null && hlsUrl == null
      ensures !subscribed && posted == []
    {
      this.platform := platform;
      this.content := content;
      this.id := id;
      this.parser := InitJsonParser(platform.query, platform.parseJson, content);
      listener := null;
      itemsExtracted := false;
      mediaItems := [];
      dashMpdUrl, hlsUrl := null, null;
      subscribed := false;
      posted := [];
    }

    /** `createMediaItem(String)`. */
    method CreateMediaItem(piece: string) returns (item: MediaItem)
      ensures fresh(item)
      ensures item.Snapshot() == FieldsFromQuery(platform.query, piece)
    {
      item := new MediaItem(FieldsFromQuery(platform.query, piece));
    }

    /** `extractUrlEncodedMediaItems`: one new item per comma piece of the parameter. */
    method ExtractUrlEncodedMediaItems(content: string, key: string) returns (list: seq<MediaItem>)
      ensures Snapshots(list) == UrlEncodedFields(platform.query, content, key)
      ensures Distinct(list) && fresh(Elements(list))
    {
      list := [];
      var items: seq<string> := [];
      var formats := ExtractParam(platform.query, content, key);
      if formats.Some? {
        items := JavaSplit(formats.value);
      }
      var i := 0;
      while i < |items|
        invariant 0 <= i <= |items| && |list| == i
        invariant forall k :: 0 <= k < i ==> list[k].Snapshot() == FieldsFromQuery(platform.query, items[k])
        invariant Distinct(list) && fresh(Elements(list))
      {
        var item := CreateMediaItem(items[i]);
        assert Elements([item]) == {item};
        DistinctConcat(list, [item]);
        list := list + [item];
        i := i + 1;
      }
    }

    /** `extractJsonList`: the JSON library's records as new item objects. */
    method ExtractJsonList(records: seq<ItemFields>) returns (list: seq<MediaItem>)
      ensures Snapshots(list) == records
      ensures Distinct(list) && fresh(Elements(list))
    {
      list := [];
      var i := 0;
      while i < |records|
        invariant 0 <= i <= |records| && |list| == i
        invariant forall k :: 0 <= k < i ==> list[k].Snapshot() == records[k]
        invariant Distinct(list) && fresh(Elements(list))
      {
        var item := new MediaItem(records[i]);
        assert Elements([item]) == {item};
        DistinctConcat(list, [item]);
        list := list + [item];
        i := i + 1;
      }
    }

    /** `extractJsonMediaItems`. */
    method ExtractJsonMediaItems() returns (list: seq<MediaItem>)
      ensures Snapshots(list) == JsonFields(parser)
      ensures Distinct(list) && fresh(Elements(list))
    {
      list := [];
      if parser.Some? {
        list := ExtractJsonList(parser.value.formats.GetOr([]));
        if |list| == 0 {
          list := ExtractJsonList(parser.value.adaptiveFormats.GetOr([]));
        }
      }
    }

    /** `extractMediaItems`: builds the item list once; later calls change nothing. */
    method ExtractMediaItems()
      requires Valid()
      modifies this`mediaItems, this`itemsExtracted
      ensures Valid() && itemsExtracted
      ensures old(itemsExtracted) ==> mediaItems == old(mediaItems)
      ensures !old(itemsExtracted) ==>
        && Snapshots(mediaItems) == AssembledFields(platform.query, content, parser)
        && fresh(Elements(mediaItems))
    {
      if itemsExtracted {
        return;
      }
      var dashItems := ExtractUrlEncodedMediaItems(content, AdaptiveFormatsKey);
      ghost var dashFields := Snapshots(dashItems);
      var jsonItems := ExtractJsonMediaItems();
      assert Snapshots(dashItems) == dashFields;
      DistinctConcat(dashItems, jsonItems);
      SnapshotsConcat(dashItems, jsonItems);
      var front := dashItems + jsonItems;
      ghost var frontFields := Snapshots(front);
      var simpleItems := ExtractUrlEncodedMediaItems(content, RegularFormatsKey);
      assert Snapshots(front) == frontFields;
      DistinctConcat(front, simpleItems);
      SnapshotsConcat(front, simpleItems);
      mediaItems := front + simpleItems;
      itemsExtracted := true;
    }

    /** `extractDashMPDUrl`. */
    method ExtractDashMpdUrl() returns (out: Outcome)
      requires Valid()
      modifies this`dashMpdUrl
      ensures Snapshots(mediaItems) == old(Snapshots(mediaItems))
      ensures Valid()
      ensures var url := DashMpdUrl(platform.query, content, parser);
        && (url.Failure? ==> out == Thrown(url.error) && dashMpdUrl == old(dashMpdUrl))
        && (url.Success? ==> && out == Completed && fresh(dashMpdUrl)
                             && dashMpdUrl.params == PointerParams(url.value))
    {
      var url := DashMpdUrl(platform.query, content, parser);
      if url.Failure? {
        return Thrown(url.error);
      }
      dashMpdUrl := new PathQueryString(platform.pathParams, url.value);
      out := Completed;
    }

    /** `extractHlsUrlFromJson`. */
    method ExtractHlsUrlFromJson() returns (out: Outcome)
      requires Valid()
      modifies this`hlsUrl
      ensures Snapshots(mediaItems) == old(Snapshots(mediaItems))
      ensures Valid()
      ensures var url := HlsUrlFromJson(parser);
        && (url.Failure? ==> out == Thrown(url.error) && hlsUrl == old(hlsUrl))
        && (url.Success? ==> && out == Completed && fresh(hlsUrl)
                             && hlsUrl.params == PointerParams(url.value))
    {
      var url := HlsUrlFromJson(parser);
      if url.Failure? {
        return Thrown(url.error);
      }
      hlsUrl := new PathQueryString(platform.pathParams, url.value);
      out := Completed;
    }

    /** The parameters a pointer wrapping `url` starts with. */
    function PointerParams(url: Option<string>): (r: Option<Params>)
      ensures r.None? <==> url.None?
      ensures url.Some? ==> r.value == platform.pathParams(url.value)
    {
      if url.None? then None else Some(platform.pathParams(url.value))
    }

    /** `extractSignatures`: the positional request. */
    method ExtractSignatures() returns (r: seq<Option<string>>)
      requires dashMpdUrl != null && hlsUrl != null
      ensures r == SignatureRequest(Snapshots(mediaItems), dashMpdUrl.Get(SKey), hlsUrl.Get(SKey))
      ensures |r| == |mediaItems| + 2
      ensures forall i :: 0 <= i < |mediaItems| ==> r[i] == mediaItems[i].s
      ensures r[|mediaItems|] == dashMpdUrl.Get(SKey) && r[|mediaItems| + 1] == hlsUrl.Get(SKey)
    {
      r := [];
      var i := 0;
      while i < |mediaItems|
        invariant 0 <= i <= |mediaItems| && |r| == i
        invariant forall k :: 0 <= k < i ==> r[k] == mediaItems[k].s
      {
        r := r + [mediaItems[i].s];
        i := i + 1;
      }
      r := r + [dashMpdUrl.Get(SKey)];
      r := r + [hlsUrl.Get(SKey)];
    }

    /**
     * `decipherSignatures`: subscribe to the channel and post the request.
     * The Otto bus refuses to register a subscriber twice, so while an
     * earlier request is still pending nothing is posted.
     */
    method DecipherSignatures() returns (out: Outcome)
      requires Valid() && listener != null && dashMpdUrl != null && hlsUrl != null
      modifies this`subscribed, this`posted
      ensures Snapshots(mediaItems) == old(Snapshots(mediaItems))
      ensures Valid()
      ensures !itemsExtracted ==> out == Thrown(NoMediaItems) && subscribed == old(subscribed) && posted == old(posted)
      ensures itemsExtracted && old(subscribed) ==>
        out == Thrown(AlreadyRegistered) && subscribed && posted == old(posted)
      ensures itemsExtracted && !old(subscribed) ==>
        && out == Completed && subscribed
        && posted == old(posted) + [DecipherRequest(
             SignatureRequest(Snapshots(mediaItems), dashMpdUrl.Get(SKey), hlsUrl.Get(SKey)), id)]
    {
      if !itemsExtracted {
        return Thrown(NoMediaItems);
      }
      if subscribed {
        return Thrown(AlreadyRegistered);
      }
      subscribed := true;
      var signatures := ExtractSignatures();
      posted := posted + [DecipherRequest(signatures, id)];
      out := Completed;
    }

    /**
     * `applySignatureAndParseDashMPDUrl`: offer `sig` to the DASH pointer,
     * fetch its manifest and report it, then report the HLS url.
     */
    method ApplySignatureAndParseDashMpdUrl(sig: Option<string>)
      requires Valid() && listener != null && dashMpdUrl != null && hlsUrl != null
      modifies dashMpdUrl, listener
      ensures dashMpdUrl.params == SignedPointer(old(dashMpdUrl.params), sig)
      ensures listener.events == old(listener.events)
                                 + DashCallbacks(platform.fetch, old(dashMpdUrl.params), hlsUrl.params, sig)
    {
      if dashMpdUrl.IsEmpty() {
        return;
      }
      if sig.Some? && |sig.value| == CommonSignatureLength {
        dashMpdUrl.Remove(SKey);
        dashMpdUrl.Set(SignatureKey, sig.value);
      }
      var dashContent := platform.fetch(dashMpdUrl.params.value);
      listener.OnRawDashContent(dashContent);
      if !hlsUrl.IsEmpty() {
        listener.OnHlsUrl(hlsUrl.params.value);
      }
    }

    /**
     * `applySignaturesToMediaItems`: a response shorter than the item list
     * is rejected before any item changes; otherwise entry `i` is applied
     * to item `i`.
     */
    method ApplySignaturesToMediaItems(signatures: seq<Option<string>>) returns (out: Outcome)
      requires Valid()
      modifies Elements(mediaItems)
      ensures |signatures| < |mediaItems| ==>
        out == Thrown(SignatureCountMismatch) && Snapshots(mediaItems) == old(Snapshots(mediaItems))
      ensures |signatures| >= |mediaItems| ==>
        out == Completed && Snapshots(mediaItems) == ApplySignatures(old(Snapshots(mediaItems)), signatures)
    {
      if |signatures| < |mediaItems| {
        return Thrown(SignatureCountMismatch);
      }
      ghost var before := Snapshots(mediaItems);
      var i := 0;
      while i < |mediaItems|
        invariant 0 <= i <= |mediaItems|
        invariant forall k :: 0 <= k < i ==> mediaItems[k].Snapshot() == ApplySignature(before[k], signatures[k])
        invariant forall k :: i <= k < |mediaItems| ==> mediaItems[k].Snapshot() == before[k]
      {
        var signature := signatures[i];
        if signature.Some? {
          var item := mediaItems[i];
          var url := item.url;
          item.url := Some(SignedUrl(url, signature.value));
          item.signature := signature;
          item.s := None;
        }
        i := i + 1;
      }
      forall k | 0 <= k < |mediaItems|
        ensures Snapshots(mediaItems)[k] == ApplySignatures(before, signatures)[k]
      {
        ApplySignaturesAt(before, signatures, k);
      }
      out := Completed;
    }

    /**
     * `decipherSignaturesDone`: the channel delivers a response. Another
     * session's response, or any response once this session has consumed
     * its own, changes nothing.
     */
    method DecipherSignaturesDone(response: DecipherResponse) returns (out: Outcome)
      requires Valid()
      modifies this`subscribed, dashMpdUrl, listener, Elements(mediaItems)
      ensures Valid()
      ensures !old(subscribed) || response.id != id ==>
        && out == Ignored && subscribed == old(subscribed)
        && (dashMpdUrl != null ==> dashMpdUrl.params == old(dashMpdUrl.params))
        && (listener != null ==> listener.events == old(listener.events))
        && Snapshots(mediaItems) == old(Snapshots(mediaItems))
      ensures old(subscribed) && response.id == id && response.signatures == [] ==>
        && out == Thrown(EmptyResponse) && !subscribed
        && dashMpdUrl.params == old(dashMpdUrl.params)
        && listener.events == old(listener.events)
        && Snapshots(mediaItems) == old(Snapshots(mediaItems))
      ensures old(subscribed) && response.id == id && response.signatures != [] ==>
        var signatures := response.signatures;
        var last := signatures[|signatures| - 1];
        var callbacks := DashCallbacks(platform.fetch, old(dashMpdUrl.params), hlsUrl.params, last);
        && !subscribed
        && dashMpdUrl.params == SignedPointer(old(dashMpdUrl.params), last)
        && (|signatures| < |mediaItems| ==>
              && out == Thrown(SignatureCountMismatch)
              && listener.events == old(listener.events) + callbacks
              && Snapshots(mediaItems) == old(Snapshots(mediaItems)))
        && (|signatures| >= |mediaItems| ==>
              && out == Completed
              && listener.events == old(listener.events) + callbacks + [MediaItemsReady(mediaItems)]
              && Snapshots(mediaItems) == ApplySignatures(old(Snapshots(mediaItems)), signatures))
    {
      if !subscribed || response.id != id {
        return Ignored;
      }
      subscribed := false;
      var signatures := response.signatures;
      if |signatures| == 0 {
        return Thrown(EmptyResponse);
      }
      var lastSignature := signatures[|signatures| - 1];
      ApplySignatureAndParseDashMpdUrl(lastSignature);
      out := ApplySignaturesToMediaItems(signatures);
      if out.Thrown? {
        return;
      }
      // mergeMediaItems adds nothing: its secondary list is never assigned.
      listener.OnExtractMediaItemsAndDecipher(mediaItems);
    }

    /**
     * `extractMediaItemsAndDecipher`: the pipeline up to the posted request.
     * Without a parsed `player_response` it always faults, at the latest
     * when the HLS url is read.
     */
    method ExtractMediaItemsAndDecipher(parserListener: Listener?) returns (out: Outcome)
      requires Valid()
      modifies this
      ensures Valid()
      ensures parserListener == null ==> out == Thrown(NoListener) && unchanged(this)
      ensures parserListener != null ==>
        && listener == parserListener && itemsExtracted
        && (old(itemsExtracted) ==> mediaItems == old(mediaItems))
        && (!old(itemsExtracted) ==>
              Snapshots(mediaItems) == AssembledFields(platform.query, content, parser)
              && fresh(Elements(mediaItems)))
        && (out == Completed <==> parser.Some? && !old(subscribed))
        && (parser.None? ==> out == Thrown(NullJsonParser))
        && (parser.Some? && old(subscribed) ==>
              out == Thrown(AlreadyRegistered) && subscribed && posted == old(posted))
      ensures parserListener != null && parser.Some? ==>
        && dashMpdUrl != null && hlsUrl != null && fresh(dashMpdUrl) && fresh(hlsUrl)
        && dashMpdUrl.params == PointerParams(DashMpdUrl(platform.query, content, parser).value)
        && hlsUrl.params == PointerParams(HlsUrlFromJson(parser).value)
      ensures parserListener != null && parser.None? ==>
        && subscribed == old(subscribed) && posted == old(posted) && hlsUrl == old(hlsUrl)
        && (ExtractParam(platform.query, content, DashMpdKey).None? ==> dashMpdUrl == old(dashMpdUrl))
        && (ExtractParam(platform.query, content, DashMpdKey).Some? ==>
              && dashMpdUrl != null && fresh(dashMpdUrl)
              && dashMpdUrl.params == PointerParams(ExtractParam(platform.query, content, DashMpdKey)))
      ensures out == Completed ==>
        && subscribed && dashMpdUrl != null && hlsUrl != null
        && posted == old(posted) + [DecipherRequest(
             SignatureRequest(Snapshots(mediaItems), dashMpdUrl.Get(SKey), hlsUrl.Get(SKey)), id)]
    {
      if parserListener == null {
        return Thrown(NoListener);
      }
      listener := parserListener;
      ExtractMediaItems();
      out := ExtractDashMpdUrl();
      if out.Thrown? {
        return;
      }
      out := ExtractHlsUrlFromJson();
      if out.Thrown? {
        return;
      }
      out := DecipherSignatures();
    }
  }
}
