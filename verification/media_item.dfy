/**
 * One playable stream variant (the source's `MediaItem`) and the pure
 * specification of how a deciphered signature is attached to it.
 */
module MediaItems {
  import opened Wrappers
  import opened Strings

  /** Query keys of the per-item fields the parser reads. */
  const UrlKey := "url"
  const TypeKey := "type"
  const ITagKey := "itag"
  const SKey := "s"
  const SignatureKey := "signature"
  const ClenKey := "clen"
  const BitrateKey := "bitrate"
  const FpsKey := "fps"
  const IndexKey := "index"
  const InitKey := "init"
  const SizeKey := "size"

  /** The value of every modelled field of an item; `None` stands for Java's null. */
  datatype ItemFields = ItemFields(
    url: Option<string>,
    mimeType: Option<string>,
    itag: Option<string>,
    s: Option<string>,
    clen: Option<string>,
    bitrate: Option<string>,
    fps: Option<string>,
    index: Option<string>,
    init: Option<string>,
    size: Option<string>,
    signature: Option<string>)

  /** Two items agree on every field that resolving a signature never touches. */
  predicate SameStructure(a: ItemFields, b: ItemFields) {
    && a.mimeType == b.mimeType && a.itag == b.itag && a.clen == b.clen
    && a.bitrate == b.bitrate && a.fps == b.fps && a.index == b.index
    && a.init == b.init && a.size == b.size
  }

  /**
   * A media item object. Only the url, the cipher `s` and the resolved
   * signature change after creation; the other fields are fixed.
   */
  class MediaItem {
    var url: Option<string>
    var s: Option<string>
    var signature: Option<string>
    const mimeType: Option<string>
    const itag: Option<string>
    const clen: Option<string>
    const bitrate: Option<string>
    const fps: Option<string>
    const index: Option<string>
    const init: Option<string>
    const size: Option<string>

    constructor (f: ItemFields)
      ensures Snapshot() == f
    {
      mimeType, itag, clen, bitrate := f.mimeType, f.itag, f.clen, f.bitrate;
      fps, index, init, size := f.fps, f.index, f.init, f.size;
      url, s, signature := f.url, f.s, f.signature;
    }

    function Snapshot(): ItemFields
      reads this
    {
      ItemFields(url, mimeType, itag, s, clen, bitrate, fps, index, init, size, signature)
    }
  }

  /** The objects a list holds. */
  ghost function Elements(items: seq<MediaItem>): set<MediaItem> {
    set m | m in items
  }

  /** The field values of a list of item objects, position by position. */
  ghost function Snapshots(items: seq<MediaItem>): (r: seq<ItemFields>)
    reads set m | m in items
    ensures |r| == |items|
  {
    seq(|items|, i requires 0 <= i < |items| reads set m | m in items => items[i].Snapshot())
  }

  lemma SnapshotsConcat(a: seq<MediaItem>, b: seq<MediaItem>)
    ensures Snapshots(a + b) == Snapshots(a) + Snapshots(b)
  {
    assert forall i :: 0 <= i < |a| ==> (a + b)[i] == a[i];
    assert forall i :: |a| <= i < |a + b| ==> (a + b)[i] == b[i - |a|];
  }

  /** No object appears twice in `items`. */
  ghost predicate Distinct(items: seq<MediaItem>) {
    forall i, j :: 0 <= i < j < |items| ==> items[i] != items[j]
  }

  lemma DistinctConcat(a: seq<MediaItem>, b: seq<MediaItem>)
    requires Distinct(a) && Distinct(b)
    requires Elements(a) !! Elements(b)
    ensures Distinct(a + b) && Elements(a + b) == Elements(a) + Elements(b)
  {
    forall i, j | 0 <= i < j < |a + b|
      ensures (a + b)[i] != (a + b)[j]
    {
      if j < |a| {
      } else if i >= |a| {
        assert (a + b)[i] == b[i - |a|] && (a + b)[j] == b[j - |a|];
      } else {
        assert (a + b)[i] == a[i] && a[i] in Elements(a);
        assert (a + b)[j] == b[j - |a|] && b[j - |a|] in Elements(b);
      }
    }
  }

  const SignatureParam := "&signature="

  /**
   * `String.format("%s&signature=%s", url, sig)`; a null url is formatted
   * as the text "null".
   */
  function SignedUrl(url: Option<string>, sig: string): (r: string)
    ensures var u := url.GetOr("null");
      StartsWith(r, u) && r[|u|..] == SignatureParam + sig
  {
    url.GetOr("null") + SignatureParam + sig
  }

  /**
   * One item after its response entry is applied: a null entry leaves it
   * as it was; a present one is appended to the url as a `signature`
   * parameter, becomes the resolved signature and clears the cipher `s`.
   */
  function ApplySignature(f: ItemFields, sig: Option<string>): (r: ItemFields)
    ensures sig.None? ==> r == f
    ensures sig.Some? ==> && r.s.None? && r.signature == sig
                          && r.url == Some(SignedUrl(f.url, sig.value))
    ensures SameStructure(r, f)
  {
    match sig
    case None => f
    case Some(v) => f.(url := Some(SignedUrl(f.url, v)), signature := Some(v), s := None)
  }

  /**
   * The items after the response entries are applied by position; the
   * entries beyond the item count are not looked at.
   */
  function ApplySignatures(items: seq<ItemFields>, sigs: seq<Option<string>>): (r: seq<ItemFields>)
    requires |sigs| >= |items|
    ensures |r| == |items|
    decreases |items|
  {
    if items == [] then []
    else [ApplySignature(items[0], sigs[0])] + ApplySignatures(items[1..], sigs[1..])
  }

  /** Entry `i` of the response lands on item `i`, and on no other. */
  lemma {:induction false} ApplySignaturesAt(items: seq<ItemFields>, sigs: seq<Option<string>>, i: int)
    requires |sigs| >= |items| && 0 <= i < |items|
    ensures |ApplySignatures(items, sigs)| == |items|
    ensures ApplySignatures(items, sigs)[i] == ApplySignature(items[i], sigs[i])
    decreases |items|
  {
    if i > 0 {
      ApplySignaturesAt(items[1..], sigs[1..], i - 1);
    }
  }

  /** Entries after the last item are ignored. */
  lemma {:induction false} ApplySignaturesIgnoresSurplus(
    items: seq<ItemFields>, sigs: seq<Option<string>>, extra: seq<Option<string>>)
    requires |sigs| >= |items|
    ensures ApplySignatures(items, sigs + extra) == ApplySignatures(items, sigs)
    decreases |items|
  {
    if items != [] {
      assert (sigs + extra)[1..] == sigs[1..] + extra;
      ApplySignaturesIgnoresSurplus(items[1..], sigs[1..], extra);
    }
  }

  /** A response of nulls changes no item. */
  lemma {:induction false} ApplyNullSignatures(items: seq<ItemFields>, sigs: seq<Option<string>>)
    requires |sigs| >= |items|
    requires forall i :: 0 <= i < |items| ==> sigs[i].None?
    ensures ApplySignatures(items, sigs) == items
    decreases |items|
  {
    if items != [] {
      ApplyNullSignatures(items[1..], sigs[1..]);
      assert items == [items[0]] + items[1..];
    }
  }
}
