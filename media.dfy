/** The browser facilities the capture controller relies on, reduced to what the
    controller can observe: blobs and the blob events a media recorder emits, the
    page's store of object URLs (`URL.createObjectURL` / `URL.revokeObjectURL`), and
    capture streams whose tracks can be stopped. No media is encoded or decoded here. */
module Media {

  datatype Option<+T> = None | Some(value: T)

  newtype byte = x: int | 0 <= x < 256

  /** An immutable run of bytes tagged with a MIME type. */
  datatype Blob = Blob(bytes: seq<byte>, mimeType: string) {
    function Size(): nat { |bytes| }
  }

  /** The bytes of `parts`, one after the other in order. */
  function Concat(parts: seq<Blob>): seq<byte>
    decreases |parts|
  {
    if parts == [] then [] else Concat(parts[..|parts| - 1]) + parts[|parts| - 1].bytes
  }

  /** `new Blob(parts, { type: mimeType })`. */
  function NewBlob(parts: seq<Blob>, mimeType: string): Blob
  {
    Blob(Concat(parts), mimeType)
  }

  /** The event a recorder dispatches as `dataavailable`; `data` may be missing. */
  datatype BlobEvent = BlobEvent(data: Option<Blob>)

  /** `event?.data?.size > 0`: a missing chunk compares as false. */
  predicate HasContent(e: BlobEvent)
  {
    e.data.Some? && e.data.value.Size() > 0
  }

  /** The bytes an event carries (none when its data is missing). */
  function Payload(e: BlobEvent): seq<byte>
  {
    if e.data.Some? then e.data.value.bytes else []
  }

  /** The bytes of every event in `es`, in arrival order. */
  function Payloads(es: seq<BlobEvent>): seq<byte>
    decreases |es|
  {
    if es == [] then [] else Payloads(es[..|es| - 1]) + Payload(es[|es| - 1])
  }

  /** How many events in `es` carry a chunk of positive size. */
  function ContentCount(es: seq<BlobEvent>): nat
    decreases |es|
  {
    if es == [] then 0 else ContentCount(es[..|es| - 1]) + (if HasContent(es[|es| - 1]) then 1 else 0)
  }

  /** The chunks of `es` that a `dataavailable` listener guarded by `HasContent`
      keeps, in arrival order. */
  function NonEmptyChunks(es: seq<BlobEvent>): (r: seq<Blob>)
    ensures |r| == ContentCount(es)
    ensures forall i :: 0 <= i < |r| ==> r[i].Size() > 0
    decreases |es|
  {
    if es == [] then []
    else
      var last := es[|es| - 1];
      NonEmptyChunks(es[..|es| - 1]) + (if HasContent(last) then [last.data.value] else [])
  }

  /** Dropping the empty and missing chunks loses no bytes. */
  lemma {:induction false} NonEmptyChunksKeepBytes(es: seq<BlobEvent>)
    ensures Concat(NonEmptyChunks(es)) == Payloads(es)
    decreases |es|
  {
    if es != [] {
      var n := |es| - 1;
      var init := NonEmptyChunks(es[..n]);
      NonEmptyChunksKeepBytes(es[..n]);
      if HasContent(es[n]) {
        var parts := init + [es[n].data.value];
        assert parts[..|parts| - 1] == init;
      } else {
        assert Payload(es[n]) == [];
        assert NonEmptyChunks(es) == init;
      }
    }
  }

  // ---------------------------------------------------------------------------
  // Object URLs

  const BlobUrlScheme: string := "blob:"

  function Digit(d: nat): char
    requires d < 10
  {
    ('0' as int + d) as char
  }

  /** The decimal numeral of `n`. */
  function Decimal(n: nat): (s: string)
    ensures 1 <= |s|
    ensures |s| == 1 <==> n < 10
    decreases n
  {
    if n < 10 then [Digit(n)] else Decimal(n / 10) + [Digit(n % 10)]
  }

  lemma {:induction false} DecimalInjective(a: nat, b: nat)
    requires Decimal(a) == Decimal(b)
    ensures a == b
    decreases a
  {
    var s := Decimal(a);
    if a < 10 {
      assert Digit(a) == s[0] == Digit(b);
    } else {
      var n := |s| - 1;
      assert s[..n] == Decimal(a / 10);
      assert Decimal(b)[..n] == Decimal(b / 10);
      DecimalInjective(a / 10, b / 10);
      assert Digit(a % 10) == s[n] == Digit(b % 10);
    }
  }

  /** The `n`-th URL the store hands out. */
  function ObjectUrl(n: nat): string
  {
    BlobUrlScheme + Decimal(n)
  }

  lemma ObjectUrlInjective(a: nat, b: nat)
    requires ObjectUrl(a) == ObjectUrl(b)
    ensures a == b
  {
    assert ObjectUrl(a)[|BlobUrlScheme|..] == Decimal(a);
    assert ObjectUrl(b)[|BlobUrlScheme|..] == Decimal(b);
    DecimalInjective(a, b);
  }

  /** The page's object-URL store: the blob each live URL refers to, and how many
      URLs have been handed out so far. */
  datatype UrlStore = UrlStore(entries: map<string, Blob>, minted: nat) {

    /** Every live URL is one the store handed out earlier. */
    ghost predicate Valid()
    {
      forall url :: url in entries ==> exists k :: 0 <= k < minted && url == ObjectUrl(k)
    }

    /** `URL.createObjectURL(blob)`: a new, non-empty URL that refers to `blob`;
        every URL live before stays live. */
    function CreateObjectUrl(blob: Blob): (r: (UrlStore, string))
      ensures r.1 != ""
      ensures r.0.entries == entries[r.1 := blob]
      ensures Valid() ==> r.1 !in entries && r.0.Valid()
    {
      var url := ObjectUrl(minted);
      var next := UrlStore(entries[url := blob], minted + 1);
      assert Valid() ==> url !in entries && next.Valid() by {
        if Valid() {
          if url in entries {
            var k :| 0 <= k < minted && url == ObjectUrl(k);
            ObjectUrlInjective(k, minted);
          }
          forall u | u in next.entries
            ensures exists k :: 0 <= k < next.minted && u == ObjectUrl(k)
          {
            if u == url {
              assert u == ObjectUrl(minted);
            } else {
              var k :| 0 <= k < minted && u == ObjectUrl(k);
              assert u == ObjectUrl(k);
            }
          }
        }
      }
      (next, url)
    }

    /** `URL.revokeObjectURL(url)`: exactly `url` stops being live; revoking a URL
        that is not live changes nothing. */
    function RevokeObjectUrl(url: string): (r: UrlStore)
      ensures url !in r.entries
      ensures r.entries.Keys == entries.Keys - {url}
      ensures forall u :: u in r.entries ==> r.entries[u] == entries[u]
      ensures Valid() ==> r.Valid()
    {
      this.(entries := entries - {url})
    }

    /** The empty string is never a live URL. */
    lemma EmptyNeverLive()
      requires Valid()
      ensures "" !in entries
    {
    }
  }

  // ---------------------------------------------------------------------------
  // Capture streams

  datatype TrackState = Live | Ended

  /** A `MediaStreamTrack`; `Stop` is `track.stop()`. */
  class MediaStreamTrack {
    var readyState: TrackState

    constructor ()
      ensures readyState == Live
    {
      readyState := Live;
    }

    method Stop()
      modifies this
      ensures readyState == Ended
    {
      readyState := Ended;
    }
  }

  /** A `MediaStream`; `tracks` is what `getTracks()` returns. */
  class MediaStream {
    const tracks: seq<MediaStreamTrack>

    constructor (tracks: seq<MediaStreamTrack>)
      ensures this.tracks == tracks
    {
      this.tracks := tracks;
    }
  }

  /** The tracks of a stream that may be absent. */
  function TracksOf(stream: Option<MediaStream>): set<MediaStreamTrack>
  {
    if stream.Some? then set t | t in stream.value.tracks else {}
  }
}
