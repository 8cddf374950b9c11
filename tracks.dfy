/** Spotify track objects and the small record every list in the application
    shows: title, first artist, URI and the URL of the album's smallest
    image. The browser client builds it with `Array.prototype.reduce`, the
    Flask backend with Python's `min`; both keep the first of equally small
    images. */
module Tracks {
  import opened Common

  datatype Image = Image(height: int, url: string)
  datatype Artist = Artist(name: string)

  /** A track object of the Spotify Web API, reduced to the fields read here:
      `name`, `uri`, `artists` and `album.images`. */
  datatype ApiTrack = ApiTrack(name: string, uri: string, artists: seq<Artist>, images: seq<Image>)

  /** The listed track: `{title, artist, uri, albumURL}`; the backend sends
      `None` as the album URL of a track without images. */
  datatype TrackItem = TrackItem(title: string, artist: string, uri: string, albumUrl: Option<string>)

  /** `images[i]` has the least height, and no earlier image is as small. */
  ghost predicate IsFirstSmallest(images: seq<Image>, i: nat)
  {
    i < |images|
    && (forall j :: 0 <= j < |images| ==> images[i].height <= images[j].height)
    && (forall j :: 0 <= j < i ==> images[j].height > images[i].height)
  }

  lemma FirstSmallestUnique(images: seq<Image>, i: nat, j: nat)
    requires IsFirstSmallest(images, i) && IsFirstSmallest(images, j)
    ensures i == j
  {
    var hi, hj := images[i].height, images[j].height;
    assert hi == hj;
    assert i < j ==> hi > hj;
    assert j < i ==> hj > hi;
  }

  /** Position of `min(images, key=lambda x: x['height'])`: Python's `min`
      scans left to right and replaces its candidate only on a strictly
      smaller key. */
  function MinHeightIndex(images: seq<Image>): (i: nat)
    requires |images| > 0
    ensures IsFirstSmallest(images, i)
  {
    if |images| == 1 then 0
    else
      var k := MinHeightIndex(images[..|images| - 1]);
      if images[|images| - 1].height < images[k].height then |images| - 1 else k
  }

  /** The album URL the backend reports: the URL of the smallest image, or
      `None` for a track without images. */
  function SmallestImageUrl(images: seq<Image>): (u: Option<string>)
    ensures u.None? <==> images == []
    ensures u.Some? ==> exists i: nat :: IsFirstSmallest(images, i) && u.value == images[i].url
  {
    if images == [] then None else Some(images[MinHeightIndex(images)].url)
  }

  /** `images.reduce((smallest, image) => image.height < smallest.height ?
      image : smallest, seed)`, folded from the left. */
  function ReduceSmallest(images: seq<Image>, smallest: Image): Image
  {
    if images == [] then smallest
    else ReduceSmallest(images[1..], if images[0].height < smallest.height then images[0] else smallest)
  }

  /** No image is smaller than `h`. */
  ghost predicate NoneSmaller(images: seq<Image>, h: int)
  {
    forall j :: 0 <= j < |images| ==> h <= images[j].height
  }

  /** The reduce keeps its seed unless some image is strictly smaller, and
      otherwise ends on the first smallest image. */
  lemma {:induction false} ReduceSmallestSpec(images: seq<Image>, seed: Image)
    ensures NoneSmaller(images, seed.height) ==> ReduceSmallest(images, seed) == seed
    ensures !NoneSmaller(images, seed.height) ==>
              (exists i: nat :: IsFirstSmallest(images, i) && ReduceSmallest(images, seed) == images[i])
  {
    if images != [] {
      var x, rest := images[0], images[1..];
      var next := if x.height < seed.height then x else seed;
      ReduceSmallestSpec(rest, next);
      assert ReduceSmallest(images, seed) == ReduceSmallest(rest, next);
      if NoneSmaller(rest, next.height) {
        if x.height < seed.height {
          assert IsFirstSmallest(images, 0) by {
            forall j | 0 <= j < |images| ensures x.height <= images[j].height {
              if j > 0 { assert images[j] == rest[j - 1]; }
            }
          }
        } else {
          assert NoneSmaller(images, seed.height) by {
            forall j | 0 <= j < |images| ensures seed.height <= images[j].height {
              if j > 0 { assert images[j] == rest[j - 1]; }
            }
          }
        }
      } else {
        var i: nat :| IsFirstSmallest(rest, i) && ReduceSmallest(rest, next) == rest[i];
        assert rest[i].height < next.height;
        assert IsFirstSmallest(images, i + 1) by {
          forall j | 0 <= j < |images| ensures images[i + 1].height <= images[j].height {
            if j > 0 { assert images[j] == rest[j - 1]; }
          }
          forall j | 0 <= j < i + 1 ensures images[j].height > images[i + 1].height {
            if j > 0 { assert images[j] == rest[j - 1]; }
          }
        }
        assert !NoneSmaller(images, seed.height) by {
          assert images[i + 1].height < seed.height;
        }
      }
    }
  }

  /** Seeded with `images[0]`, the client's reduce picks the same image as
      the backend's `min`. */
  lemma ReduceSmallestIsMin(images: seq<Image>)
    requires images != []
    ensures ReduceSmallest(images, images[0]) == images[MinHeightIndex(images)]
  {
    ReduceSmallestSpec(images, images[0]);
    var m := MinHeightIndex(images);
    if NoneSmaller(images, images[0].height) {
      assert IsFirstSmallest(images, 0);
      FirstSmallestUnique(images, 0, m);
    } else {
      var i: nat :| IsFirstSmallest(images, i) && ReduceSmallest(images, images[0]) == images[i];
      FirstSmallestUnique(images, i, m);
    }
  }

  /** The client's mapping of one search or playlist track; `None` where the
      JavaScript throws a TypeError: `artists[0].name` of an empty artist list,
      or `.url` of the `undefined` that reduce returns for an empty image
      list. */
  function ClientItem(t: ApiTrack): (r: Option<TrackItem>)
    ensures r.Some? <==> t.artists != [] && t.images != []
    ensures r.Some? ==> r.value.title == t.name && r.value.uri == t.uri
                        && r.value.artist == t.artists[0].name
    ensures r.Some? ==> exists i: nat :: IsFirstSmallest(t.images, i) && r.value.albumUrl == Some(t.images[i].url)
  {
    if t.artists == [] || t.images == [] then None
    else
      ReduceSmallestIsMin(t.images);
      Some(TrackItem(t.name, t.artists[0].name, t.uri, Some(ReduceSmallest(t.images, t.images[0]).url)))
  }

  /** `tracks.map(...)` with the client's mapping: one item per track, in
      order, or `None` when the callback throws for any track. */
  function ClientItems(tracks: seq<ApiTrack>): (r: Option<seq<TrackItem>>)
    ensures r.Some? <==> forall i :: 0 <= i < |tracks| ==> ClientItem(tracks[i]).Some?
    ensures r.Some? ==> |r.value| == |tracks|
    ensures r.Some? ==> forall i :: 0 <= i < |tracks| ==> ClientItem(tracks[i]) == Some(r.value[i])
  {
    if tracks == [] then Some([])
    else
      var head := ClientItem(tracks[0]);
      var rest := ClientItems(tracks[1..]);
      if head.None? then None
      else if rest.None? then None
      else Some([head.value] + rest.value)
  }

  /** The backend's dictionary for one found track; `None` where Python
      raises IndexError on `track['artists'][0]`. */
  function BackendItem(t: ApiTrack): (r: Option<TrackItem>)
    ensures r.Some? <==> t.artists != []
    ensures r.Some? ==> r.value.title == t.name && r.value.uri == t.uri
                        && r.value.artist == t.artists[0].name
                        && r.value.albumUrl == SmallestImageUrl(t.images)
  {
    if t.artists == [] then None
    else Some(TrackItem(t.name, t.artists[0].name, t.uri, SmallestImageUrl(t.images)))
  }

  /** Wherever the client's mapping succeeds, it gives the same item as the
      backend's. */
  lemma ClientMatchesBackend(t: ApiTrack)
    requires ClientItem(t).Some?
    ensures ClientItem(t) == BackendItem(t)
  {
    ReduceSmallestIsMin(t.images);
  }
}
