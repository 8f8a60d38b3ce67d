/**
 * The parser's listener (`ParserListener`), modelled as the trace of the
 * callbacks it receives.
 */
module Listeners {
  import opened Wrappers
  import opened MediaItems
  import opened PathQuery

  /** The body of a fetched manifest. */
  type Bytes = seq<bv8>

  datatype Event =
    | HlsUrl(url: Params)
    | RawDashContent(body: Option<Bytes>)
    | MediaItemsReady(items: seq<MediaItem>)

  class Listener {
    var events: seq<Event>

    constructor ()
      ensures events == []
    {
      events := [];
    }

    method OnHlsUrl(url: Params)
      modifies this
      ensures events == old(events) + [HlsUrl(url)]
    {
      events := events + [HlsUrl(url)];
    }

    method OnRawDashContent(body: Option<Bytes>)
      modifies this
      ensures events == old(events) + [RawDashContent(body)]
    {
      events := events + [RawDashContent(body)];
    }

    method OnExtractMediaItemsAndDecipher(items: seq<MediaItem>)
      modifies this
      ensures events == old(events) + [MediaItemsReady(items)]
    {
      events := events + [MediaItemsReady(items)];
    }
  }
}
