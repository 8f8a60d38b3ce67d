/**
 * The decipher round trip as pure functions: the positional request, the
 * handling of the response's last entry on the DASH pointer, and what a
 * positionally answering decipherer does to items and pointers.
 */
module Correlation {
  import opened Wrappers
  import opened MediaItems
  import opened PathQuery
  import opened Listeners

  /** The length a deciphered DASH signature is expected to have. */
  const CommonSignatureLength := 81

  /** `DecipherOnlySignaturesEvent`: posted by each run that registers on the bus. */
  datatype DecipherRequest = DecipherRequest(signatures: seq<Option<string>>, id: int)

  /** `DecipherOnlySignaturesDoneEvent`: the decipherer's answer. */
  datatype DecipherResponse = DecipherResponse(id: int, signatures: seq<Option<string>>)

  /** The cipher `s` of every item, in item order. */
  function CipherSignatures(items: seq<ItemFields>): (r: seq<Option<string>>)
    ensures |r| == |items|
    ensures forall i :: 0 <= i < |items| ==> r[i] == items[i].s
  {
    seq(|items|, i requires 0 <= i < |items| => items[i].s)
  }

  /**
   * `extractSignatures`: the items' `s` values, then the DASH pointer's `s`,
   * then the HLS pointer's `s`.
   */
  function SignatureRequest(items: seq<ItemFields>, dashS: Option<string>, hlsS: Option<string>): (r: seq<Option<string>>)
    ensures |r| == |items| + 2
    ensures forall i :: 0 <= i < |items| ==> r[i] == items[i].s
    ensures r[|items|] == dashS && r[|items| + 1] == hlsS
  {
    CipherSignatures(items) + [dashS, hlsS]
  }

  /** The check a DASH signature must pass before it is applied. */
  predicate AcceptedDashSignature(sig: Option<string>): (r: bool)
    ensures r ==> sig.Some? && |sig.value| == CommonSignatureLength
    ensures sig.None? ==> !r
  {
    sig.Some? && |sig.value| == CommonSignatureLength
  }

  /**
   * The DASH pointer's parameters after `sig` is offered: an accepted
   * signature replaces `s` by `signature`; anything else changes nothing.
   */
  function SignDashParams(p: Params, sig: Option<string>): (r: Params)
    ensures !AcceptedDashSignature(sig) ==> r == p
    ensures AcceptedDashSignature(sig) ==>
      && SKey !in r && SignatureKey in r && r[SignatureKey] == sig.value
      && forall k :: k != SKey && k != SignatureKey ==> (k in r <==> k in p) && (k in r ==> r[k] == p[k])
  {
    if AcceptedDashSignature(sig) then (p - {SKey})[SignatureKey := sig.value] else p
  }

  /** The DASH pointer's state after `applySignatureAndParseDashMPDUrl`. */
  function SignedPointer(p: Option<Params>, sig: Option<string>): (r: Option<Params>)
    ensures r.None? <==> p.None?
    ensures p.Some? ==> r.value == SignDashParams(p.value, sig)
  {
    if p.None? then None else Some(SignDashParams(p.value, sig))
  }

  /**
   * The callbacks of `applySignatureAndParseDashMPDUrl`: nothing for an
   * empty DASH pointer; otherwise the fetched manifest (fetched whether or
   * not the signature was accepted), then the HLS url when the HLS pointer
   * is non-empty. `fetch` is the network request on the pointer's url.
   */
  function DashCallbacks(fetch: Params -> Option<Bytes>, dash: Option<Params>,
                         hls: Option<Params>, sig: Option<string>): (r: seq<Event>)
    ensures dash.None? ==> r == []
    ensures dash.Some? ==> && |r| == (if hls.Some? then 2 else 1)
                           && r[0] == RawDashContent(fetch(SignDashParams(dash.value, sig)))
                           && (hls.Some? ==> r[1] == HlsUrl(hls.value))
  {
    if dash.None? then []
    else [RawDashContent(fetch(SignDashParams(dash.value, sig)))]
         + (if hls.Some? then [HlsUrl(hls.value)] else [])
  }

  /** An HLS url is only ever reported together with a DASH manifest. */
  lemma HlsNeedsDash(fetch: Params -> Option<Bytes>, dash: Option<Params>, hls: Option<Params>, sig: Option<string>)
    ensures (exists e :: e in DashCallbacks(fetch, dash, hls, sig) && e.HlsUrl?) <==> dash.Some? && hls.Some?
  {
    var r := DashCallbacks(fetch, dash, hls, sig);
    if dash.Some? && hls.Some? {
      assert r[1] in r;
    }
    if dash.Some? && hls.None? {
      assert r == [r[0]];
    }
  }

  /** A decipherer that answers each request entry by itself, position by position. */
  function Answer(decipher: Option<string> -> Option<string>, request: seq<Option<string>>): (r: seq<Option<string>>)
    ensures |r| == |request|
    ensures forall i :: 0 <= i < |r| ==> r[i] == decipher(request[i])
  {
    seq(|request|, i requires 0 <= i < |request| => decipher(request[i]))
  }

  /**
   * Positional alignment of the round trip: answering the request entry by
   * entry gives a response long enough for the items, every item receives
   * the answer to its own `s`, and the entry the DASH pointer receives is
   * the answer to the HLS pointer's `s`, not to its own.
   */
  lemma {:induction false} RoundTripAlignment(decipher: Option<string> -> Option<string>,
                                              items: seq<ItemFields>, dashS: Option<string>, hlsS: Option<string>)
    ensures var response := Answer(decipher, SignatureRequest(items, dashS, hlsS));
      && |response| >= |items|
      && response[|response| - 1] == decipher(hlsS)
      && var applied := ApplySignatures(items, response);
         forall i :: 0 <= i < |items| ==> applied[i] == ApplySignature(items[i], decipher(items[i].s))
  {
    var response := Answer(decipher, SignatureRequest(items, dashS, hlsS));
    forall i | 0 <= i < |items|
      ensures ApplySignatures(items, response)[i] == ApplySignature(items[i], decipher(items[i].s))
    {
      ApplySignaturesAt(items, response, i);
    }
  }

  /**
   * A decipherer that answers every cipher signature and nothing else
   * leaves no item with a cipher `s`; each such item now carries the answer
   * as its signature, and an item that had no `s` is left as it was.
   */
  lemma {:induction false} CompleteAnswerResolvesAll(decipher: Option<string> -> Option<string>,
                                                     items: seq<ItemFields>, dashS: Option<string>, hlsS: Option<string>)
    requires decipher(None) == None
    requires forall x: string :: decipher(Some(x)).Some?
    ensures var applied := ApplySignatures(items, Answer(decipher, SignatureRequest(items, dashS, hlsS)));
      forall i :: 0 <= i < |items| ==>
        && applied[i].s.None?
        && (items[i].s.Some? ==> applied[i].signature == decipher(items[i].s))
        && (items[i].s.None? ==> applied[i] == items[i])
  {
    RoundTripAlignment(decipher, items, dashS, hlsS);
  }
}
