/** The Flask backend of the mood feature: it turns the language model's
    texts into a mood record and a song list, looks the songs up on Spotify,
    falls back to keyword searches when too few are found, keeps at most ten
    tracks with distinct URIs, and creates playlists by adding their URIs in
    requests of at most one hundred. The language model's texts and
    Spotify's replies are parameters. */
module MoodBackend {
  import opened Common
  import opened Tracks

  /** The separator between title and artist in a recommended song. */
  const ByMarker := " by "
  /** Fewer found tracks than this trigger the keyword fallback, line 258. */
  const FallbackBelow := 5
  /** Items asked of each keyword search, line 262. */
  const KeywordLimit := 3
  /** Items asked of each song search, lines 224 and 241. */
  const SongLimit := 1
  /** Most tracks a reply carries, line 285. */
  const MaxTracks := 10
  /** Most URIs Spotify takes in one add-items request, line 329. */
  const MaxPerRequest := 100

  function Min(a: int, b: int): int
  {
    if a <= b then a else b
  }

  // ---------------------------------------------------------------------
  // The language model's texts

  datatype Song = Song(title: string, artist: string)

  /** `s` is `before + " by " + after`, cut at the leftmost `" by "`. */
  ghost predicate CutAtFirstBy(s: string, before: string, after: string)
  {
    && s == before + ByMarker + after
    && forall j :: 0 <= j < |before| ==> !OccursAt(s, ByMarker, j)
  }

  /** There is only one leftmost cut. */
  lemma CutUnique(s: string, b1: string, a1: string, b2: string, a2: string)
    requires CutAtFirstBy(s, b1, a1) && CutAtFirstBy(s, b2, a2)
    ensures b1 == b2 && a1 == a2
  {
    assert s[|b1|..|b1| + |ByMarker|] == ByMarker;
    assert s[|b2|..|b2| + |ByMarker|] == ByMarker;
    assert OccursAt(s, ByMarker, |b1|) && OccursAt(s, ByMarker, |b2|);
    assert |b1| == |b2|;
    assert b1 == s[..|b1|] && b2 == s[..|b2|];
    assert a1 == s[|b1| + |ByMarker|..] && a2 == s[|b2| + |ByMarker|..];
  }

  /** One comma piece of the song list (lines 167-173): stripped, kept only
      when it contains `" by "`, cut at the first one, both halves
      stripped. */
  function FromPiece(piece: string): (r: Option<Song>)
    ensures r.Some? <==> Contains(PyStrip(piece), ByMarker)
    ensures r.Some? ==> exists before, after :: CutAtFirstBy(PyStrip(piece), before, after)
                                                && r.value == Song(PyStrip(before), PyStrip(after))
  {
    var entry := PyStrip(piece);
    if Contains(entry, ByMarker) then
      var parts := SplitOnce(entry, ByMarker);
      assert CutAtFirstBy(entry, parts.0, parts.1);
      Some(Song(PyStrip(parts.0), PyStrip(parts.1)))
    else None
  }

  /** The parsing loop of lines 165-173 over the stripped model reply of
      line 162: every comma piece that holds a song adds it, in order. */
  method ParseSongList(raw: string) returns (songs: seq<Song>)
    ensures songs == FilterMap(Split(PyStrip(raw), ','), FromPiece)
    ensures |songs| <= Count(PyStrip(raw), ',') + 1
  {
    var text := PyStrip(raw);
    songs := CollectSome(Split(text, ','), FromPiece);
    SongsBound(text);
  }

  /** There are never more songs than commas plus one. */
  lemma SongsBound(text: string)
    ensures |FilterMap(Split(text, ','), FromPiece)| <= Count(text, ',') + 1
  {
    SplitCount(text, ',');
  }

  /** Stripping keeps no character the text did not have. */
  lemma StripKeepsOut(s: string, c: char)
    requires c !in s
    ensures c !in PyStrip(s)
  {
    TrimSlice(s, IsPySpace);
    var i, j :| 0 <= i <= j <= |s| && PyStrip(s) == s[i..j];
    forall k | 0 <= k < j - i ensures PyStrip(s)[k] != c {
      assert PyStrip(s)[k] == s[i + k];
    }
  }

  /** The comprehensions of lines 114 and 117: the text split on commas,
      each piece stripped. There is one element per piece, none holds a
      comma, and none starts or ends with white space. */
  function SplitStrip(raw: string): (r: seq<string>)
    ensures |r| == Count(raw, ',') + 1
    ensures forall i :: 0 <= i < |r| ==> ',' !in r[i]
    ensures forall i :: 0 <= i < |r| ==> r[i] == [] || (!IsPySpace(r[i][0]) && !IsPySpace(r[i][|r[i]| - 1]))
  {
    var pieces := Split(raw, ',');
    SplitCount(raw, ',');
    forall i | 0 <= i < |pieces| ensures ',' !in PyStrip(pieces[i]) {
      StripKeepsOut(pieces[i], ',');
    }
    seq(|pieces|, i requires 0 <= i < |pieces| => PyStrip(pieces[i]))
  }

  /** Element `i` is comma piece `i` with only white space cut off its two
      ends; with the ends of each element not white space, this fixes every
      element. */
  lemma SplitStripPiece(raw: string, i: nat)
    requires i < |SplitStrip(raw)|
    ensures i < |Split(raw, ',')|
    ensures var piece := Split(raw, ',')[i];
            exists p, q :: && 0 <= p <= q <= |piece| && SplitStrip(raw)[i] == piece[p..q]
                           && (forall k :: 0 <= k < p ==> IsPySpace(piece[k]))
                           && (forall k :: q <= k < |piece| ==> IsPySpace(piece[k]))
  {
    SplitCount(raw, ',');
    var piece := Split(raw, ',')[i];
    assert SplitStrip(raw)[i] == PyStrip(piece);
    TrimSlice(piece, IsPySpace);
  }

  /** The texts the language model returns for one request. */
  datatype ModelTexts = ModelTexts(mood: string, genres: string, keywords: string, explanation: string, songs: string)

  /** The module-level `state` dictionary of lines 44-52, less the two
      floating-point levels. */
  class MoodState {
    var moodDescription: string
    var mood: Option<string>
    var genres: seq<string>
    var keywords: seq<string>
    var explanation: string

    constructor ()
      ensures moodDescription == "" && mood == None && genres == [] && keywords == [] && explanation == ""
    {
      moodDescription, mood, genres, keywords, explanation := "", None, [], [], "";
    }

    /** `build_song_recommendation`, lines 107-132: every entry is
        overwritten from the description and the model's texts. */
    method Build(description: string, texts: ModelTexts)
      modifies this
      ensures moodDescription == PyStrip(description)
      ensures mood == Some(PyStrip(texts.mood))
      ensures genres == SplitStrip(texts.genres) && keywords == SplitStrip(texts.keywords)
      ensures explanation == PyStrip(texts.explanation)
    {
      var d, m, g, k, e :=
        PyStrip(description), Some(PyStrip(texts.mood)), SplitStrip(texts.genres),
        SplitStrip(texts.keywords), PyStrip(texts.explanation);
      moodDescription, mood, genres, keywords, explanation := d, m, g, k, e;
    }
  }

  // ---------------------------------------------------------------------
  // Looking the songs up

  /** A `sp.search(q, type='track', limit)` call: its items, or the failure
      of a call that raised. */
  datatype SearchReply = SearchFailed | Found(items: seq<ApiTrack>)

  /** Spotify's search, by query and limit. */
  type Search = (string, nat) -> SearchReply

  function ExactQuery(song: Song): string
  {
    "track:" + song.title + " artist:" + song.artist
  }

  function GeneralQuery(song: Song): string
  {
    song.title + " " + song.artist
  }

  /** The track found for one song (lines 219-255). The exact query decides
      when it finds anything; the general query is asked only when the exact
      one answers with no items. A search that raises, or a first item
      without artists, skips the song. */
  function SongTrack(song: Song, search: Search): (r: Option<TrackItem>)
    ensures search(ExactQuery(song), SongLimit).SearchFailed? ==> r == None
    ensures search(ExactQuery(song), SongLimit).Found? && search(ExactQuery(song), SongLimit).items != [] ==>
              r == BackendItem(search(ExactQuery(song), SongLimit).items[0])
    ensures search(ExactQuery(song), SongLimit) == Found([]) ==>
              (r.Some? <==> search(GeneralQuery(song), SongLimit).Found? && search(GeneralQuery(song), SongLimit).items != []
                            && search(GeneralQuery(song), SongLimit).items[0].artists != [])
    ensures r.Some? ==> exists q :: (q == ExactQuery(song) || q == GeneralQuery(song))
                                    && search(q, SongLimit).Found? && search(q, SongLimit).items != []
                                    && r == BackendItem(search(q, SongLimit).items[0])
  {
    match search(ExactQuery(song), SongLimit)
    case SearchFailed => None
    case Found(items) =>
      if items != [] then BackendItem(items[0])
      else
        match search(GeneralQuery(song), SongLimit)
        case SearchFailed => None
        case Found(general) => if general != [] then BackendItem(general[0]) else None
  }

  /** The lookup of lines 219-255 as a function value. */
  function Lookup(search: Search): Song -> Option<TrackItem>
  {
    song => SongTrack(song, search)
  }

  /** The tracks found for the songs, in order: at most one per song, each
      the track found for some song (the contract of `FilterMap`). */
  function FoundTracks(songs: seq<Song>, search: Search): seq<TrackItem>
  {
    FilterMap(songs, Lookup(search))
  }

  /** The search loop of lines 217-255. */
  method FindTracks(songs: seq<Song>, search: Search) returns (found: seq<TrackItem>)
    ensures found == FoundTracks(songs, search)
    ensures |found| <= |songs|
  {
    found := CollectSome(songs, Lookup(search));
  }

  // ---------------------------------------------------------------------
  // The keyword fallback

  /** Some track of `ts` has URI `u`. */
  predicate HasUri(ts: seq<TrackItem>, u: string)
  {
    exists i :: 0 <= i < |ts| && ts[i].uri == u
  }

  lemma HasUriSnoc(ts: seq<TrackItem>, t: TrackItem)
    ensures forall u :: HasUri(ts + [t], u) <==> HasUri(ts, u) || t.uri == u
  {
    forall u ensures HasUri(ts + [t], u) <==> HasUri(ts, u) || t.uri == u {
      if HasUri(ts + [t], u) {
        var i :| 0 <= i < |ts| + 1 && (ts + [t])[i].uri == u;
        if i < |ts| {
          assert ts[i] == (ts + [t])[i];
        }
      }
      if HasUri(ts, u) {
        var i :| 0 <= i < |ts| && ts[i].uri == u;
        assert (ts + [t])[i] == ts[i];
      }
      if t.uri == u {
        assert (ts + [t])[|ts|] == t;
      }
    }
  }

  /** `r` starts with `found`, and each track after it has a URI no earlier
      track has. */
  ghost predicate ExtendsFresh(found: seq<TrackItem>, r: seq<TrackItem>)
  {
    && |found| <= |r| && r[..|found|] == found
    && forall i :: |found| <= i < |r| ==> !HasUri(r[..i], r[i].uri)
  }

  lemma ExtendsFreshTrans(a: seq<TrackItem>, b: seq<TrackItem>, c: seq<TrackItem>)
    requires ExtendsFresh(a, b) && ExtendsFresh(b, c)
    ensures ExtendsFresh(a, c)
  {
    assert c[..|a|] == c[..|b|][..|a|];
    forall i | |a| <= i < |c| ensures !HasUri(c[..i], c[i].uri) {
      if i < |b| {
        assert c[..i] == b[..i] && c[i] == b[i];
      }
    }
  }

  /** Every item up to and including `items[j]` has artists. */
  ghost predicate MappedUpTo(items: seq<ApiTrack>, j: int)
  {
    forall l :: 0 <= l <= j && l < |items| ==> BackendItem(items[l]).Some?
  }

  /** The items of one keyword search (lines 264-276), in order: each is
      mapped, and appended when no track so far has its URI; an item without
      artists raises and ends this keyword's items. */
  function AddKeywordItems(found: seq<TrackItem>, items: seq<ApiTrack>): (r: seq<TrackItem>)
    ensures ExtendsFresh(found, r)
    ensures |r| <= |found| + |items|
    ensures items != [] && BackendItem(items[0]).None? ==> r == found
    ensures items != [] && BackendItem(items[0]).Some? && !HasUri(found, BackendItem(items[0]).value.uri) ==>
              |r| > |found| && r[|found|] == BackendItem(items[0]).value
    decreases |items|
  {
    if items == [] then found
    else
      match BackendItem(items[0])
      case None => found
      case Some(t) =>
        var next := if HasUri(found, t.uri) then found else found + [t];
        assert ExtendsFresh(found, next) by {
          if next != found {
            assert next[..|found|] == found && next[|found|] == t;
          }
        }
        var r := AddKeywordItems(next, items[1..]);
        ExtendsFreshTrans(found, next, r);
        r
  }

  /** An item without artists ends the keyword's items: those after it add
      nothing. */
  lemma {:induction false} RaiseEndsItems(found: seq<TrackItem>, items: seq<ApiTrack>, j: nat)
    requires j < |items| && BackendItem(items[j]).None?
    ensures AddKeywordItems(found, items) == AddKeywordItems(found, items[..j])
    decreases j
  {
    if j > 0 {
      assert items[..j][0] == items[0] && items[..j][1..] == items[1..][..j - 1];
      match BackendItem(items[0])
      case None =>
      case Some(t) =>
        var next := if HasUri(found, t.uri) then found else found + [t];
        RaiseEndsItems(next, items[1..], j - 1);
    }
  }

  /** Past a first item with artists, the items up to `j` all have artists
      exactly when those of the rest up to `j - 1` do. */
  lemma MappedShift(items: seq<ApiTrack>, j: nat)
    requires 0 < j < |items| && BackendItem(items[0]).Some?
    ensures items[1..][j - 1] == items[j]
    ensures MappedUpTo(items, j) <==> MappedUpTo(items[1..], j - 1)
  {
    assert forall l :: 0 <= l < |items| - 1 ==> items[1..][l] == items[l + 1];
    if MappedUpTo(items[1..], j - 1) {
      forall l | 0 <= l <= j && l < |items| ensures BackendItem(items[l]).Some? {
        if l > 0 { assert items[l] == items[1..][l - 1]; }
      }
    }
  }

  /** A longer sequence that starts with `a` has every URI `a` has. */
  lemma PrefixUris(a: seq<TrackItem>, r: seq<TrackItem>)
    requires |a| <= |r| && r[..|a|] == a
    ensures forall u :: HasUri(a, u) ==> HasUri(r, u)
  {
    forall u | HasUri(a, u) ensures HasUri(r, u) {
      var i :| 0 <= i < |a| && a[i].uri == u;
      assert r[i] == a[i];
    }
  }

  /** Each appended track is the mapping of an item that comes before the
      first item without artists. */
  lemma {:induction false} KeywordItemsFrom(found: seq<TrackItem>, items: seq<ApiTrack>)
    ensures var r := AddKeywordItems(found, items);
            forall i :: |found| <= i < |r| ==>
              exists j :: 0 <= j < |items| && MappedUpTo(items, j) && BackendItem(items[j]) == Some(r[i])
    decreases |items|
  {
    var r := AddKeywordItems(found, items);
    if items != [] && BackendItem(items[0]).Some? {
      var t := BackendItem(items[0]).value;
      var next := if HasUri(found, t.uri) then found else found + [t];
      var rest := items[1..];
      KeywordItemsFrom(next, rest);
      assert r == AddKeywordItems(next, rest);
      forall i | |found| <= i < |r|
        ensures exists j :: 0 <= j < |items| && MappedUpTo(items, j) && BackendItem(items[j]) == Some(r[i])
      {
        if i < |next| {
          assert next[i] == t && r[i] == next[i];
          assert MappedUpTo(items, 0);
        } else {
          var j :| 0 <= j < |rest| && MappedUpTo(rest, j) && BackendItem(rest[j]) == Some(r[i]);
          MappedShift(items, j + 1);
        }
      }
    }
  }

  /** The URI of every item before the first item without artists ends up
      among the tracks. */
  lemma {:induction false} KeywordItemsCover(found: seq<TrackItem>, items: seq<ApiTrack>)
    ensures var r := AddKeywordItems(found, items);
            forall j :: 0 <= j < |items| && MappedUpTo(items, j) ==> HasUri(r, BackendItem(items[j]).value.uri)
    decreases |items|
  {
    var r := AddKeywordItems(found, items);
    if items != [] && BackendItem(items[0]).Some? {
      var t := BackendItem(items[0]).value;
      var next := if HasUri(found, t.uri) then found else found + [t];
      var rest := items[1..];
      KeywordItemsCover(next, rest);
      assert r == AddKeywordItems(next, rest);
      assert HasUri(next, t.uri) by {
        if !HasUri(found, t.uri) { assert next[|found|] == t; }
      }
      PrefixUris(next, r);
      forall j | 0 <= j < |items| && MappedUpTo(items, j)
        ensures HasUri(r, BackendItem(items[j]).value.uri)
      {
        if j > 0 {
          MappedShift(items, j);
        }
      }
    }
  }

  /** The keywords' searches, one after the other. A search that raises
      adds nothing. */
  function AddKeywords(found: seq<TrackItem>, keywords: seq<string>, search: Search): (r: seq<TrackItem>)
    ensures ExtendsFresh(found, r)
    decreases |keywords|
  {
    if keywords == [] then found
    else
      var next := match search(keywords[0], KeywordLimit)
                  case SearchFailed => found
                  case Found(items) => AddKeywordItems(found, items);
      var r := AddKeywords(next, keywords[1..], search);
      ExtendsFreshTrans(found, next, r);
      r
  }

  /** Lines 257-278: the keyword searches run only when fewer than five
      tracks were found; they keep the found tracks and append only tracks
      whose URI is new. */
  function Fallback(found: seq<TrackItem>, keywords: seq<string>, search: Search): (r: seq<TrackItem>)
    ensures |found| >= FallbackBelow ==> r == found
    ensures ExtendsFresh(found, r)
  {
    if |found| < FallbackBelow then AddKeywords(found, keywords, search) else found
  }

  /** The fallback loops of lines 258-278. */
  method KeywordFallback(found: seq<TrackItem>, keywords: seq<string>, search: Search) returns (tracks: seq<TrackItem>)
    ensures tracks == Fallback(found, keywords, search)
  {
    tracks := found;
    if |tracks| < FallbackBelow {
      var k := 0;
      while k < |keywords|
        invariant 0 <= k <= |keywords|
        invariant AddKeywords(tracks, keywords[k..], search) == AddKeywords(found, keywords, search)
      {
        assert keywords[k..][1..] == keywords[k + 1..];
        var reply := search(keywords[k], KeywordLimit);
        if reply.Found? {
          var items := reply.items;
          ghost var start := tracks;
          var j := 0;
          while j < |items| && BackendItem(items[j]).Some?
            invariant 0 <= j <= |items|
            invariant AddKeywordItems(tracks, items[j..]) == AddKeywordItems(start, items)
          {
            assert items[j..][1..] == items[j + 1..];
            var t := BackendItem(items[j]).value;
            if !HasUri(tracks, t.uri) {
              tracks := tracks + [t];
            }
            j := j + 1;
          }
        }
        k := k + 1;
      }
    }
  }

  // ---------------------------------------------------------------------
  // Unique selection

  /** No two tracks share a URI. */
  ghost predicate DistinctUris(ts: seq<TrackItem>)
  {
    forall i, j :: 0 <= i < j < |ts| ==> ts[i].uri != ts[j].uri
  }

  /** `ts[i]` is the first track of `ts` with its URI. */
  ghost predicate FirstOfUri(ts: seq<TrackItem>, i: int)
  {
    0 <= i < |ts| && !HasUri(ts[..i], ts[i].uri)
  }

  /** The first track of each URI, in the original order. */
  function Dedup(ts: seq<TrackItem>): (r: seq<TrackItem>)
    ensures |r| <= |ts|
  {
    if ts == [] then []
    else
      var init := ts[..|ts| - 1];
      var last := ts[|ts| - 1];
      if HasUri(init, last.uri) then Dedup(init) else Dedup(init) + [last]
  }

  /** One more track is kept exactly when its URI is new. */
  lemma DedupSnoc(ts: seq<TrackItem>, t: TrackItem)
    ensures Dedup(ts + [t]) == if HasUri(ts, t.uri) then Dedup(ts) else Dedup(ts) + [t]
  {
    assert (ts + [t])[..|ts|] == ts;
  }

  /** Deduplicating keeps the same set of URIs. */
  lemma {:induction false} DedupUris(ts: seq<TrackItem>)
    ensures forall u :: HasUri(Dedup(ts), u) <==> HasUri(ts, u)
  {
    if ts != [] {
      var init, last := ts[..|ts| - 1], ts[|ts| - 1];
      assert ts == init + [last];
      DedupUris(init);
      DedupSnoc(init, last);
      HasUriSnoc(init, last);
      HasUriSnoc(Dedup(init), last);
    }
  }

  /** Deduplicating leaves no URI twice. */
  lemma {:induction false} DedupDistinct(ts: seq<TrackItem>)
    ensures DistinctUris(Dedup(ts))
  {
    if ts != [] {
      var init, last := ts[..|ts| - 1], ts[|ts| - 1];
      assert ts == init + [last];
      DedupDistinct(init);
      DedupSnoc(init, last);
      if !HasUri(init, last.uri) {
        var d := Dedup(init);
        DedupUris(init);
        assert !HasUri(d, last.uri);
        forall i, j | 0 <= i < j < |d + [last]|
          ensures (d + [last])[i].uri != (d + [last])[j].uri
        {
          if j == |d| {
            assert (d + [last])[i] == d[i];
          }
        }
      }
    }
  }

  /** `p` holds, in increasing order, the positions in `ts` of the tracks
      of `r`, each the first occurrence of its URI. */
  ghost predicate AtFirstPositions(ts: seq<TrackItem>, r: seq<TrackItem>, p: seq<int>)
  {
    && |p| == |r|
    && (forall k :: 0 <= k < |p| ==> FirstOfUri(ts, p[k]) && ts[p[k]] == r[k])
    && (forall k, l :: 0 <= k < l < |p| ==> p[k] < p[l])
  }

  /** Each kept track sits where its URI first occurs, and the kept tracks
      keep the order of those first occurrences. */
  lemma {:induction false} DedupFirst(ts: seq<TrackItem>)
    ensures exists p :: AtFirstPositions(ts, Dedup(ts), p)
  {
    if ts == [] {
      assert AtFirstPositions(ts, Dedup(ts), []);
    } else {
      var init, last := ts[..|ts| - 1], ts[|ts| - 1];
      assert ts == init + [last];
      DedupFirst(init);
      DedupSnoc(init, last);
      var d := Dedup(init);
      var p :| AtFirstPositions(init, d, p);
      forall k | 0 <= k < |p| ensures FirstOfUri(ts, p[k]) && ts[p[k]] == d[k] {
        assert init[..p[k]] == ts[..p[k]] && ts[p[k]] == init[p[k]];
      }
      if HasUri(init, last.uri) {
        assert AtFirstPositions(ts, Dedup(ts), p);
      } else {
        assert ts[..|ts| - 1] == init;
        assert FirstOfUri(ts, |ts| - 1);
        var q := p + [|ts| - 1];
        assert forall k :: 0 <= k < |p| ==> p[k] < |init|;
        assert AtFirstPositions(ts, Dedup(ts), q);
      }
    }
  }

  /** The first `n` tracks, or all of them when there are fewer. */
  function Take(ts: seq<TrackItem>, n: nat): (r: seq<TrackItem>)
    ensures |r| == Min(|ts|, n) && r == ts[..|r|]
  {
    if |ts| <= n then ts else ts[..n]
  }

  /** One step of the selection loop: the next track joins the first ten
      of distinct URIs exactly when its URI is new and fewer than ten are
      kept. */
  lemma SelectStep(found: seq<TrackItem>, i: nat, unique: seq<TrackItem>)
    requires i < |found| && unique == Take(Dedup(found[..i]), MaxTracks)
    ensures !HasUri(unique, found[i].uri) && |unique| < MaxTracks ==>
              Take(Dedup(found[..i + 1]), MaxTracks) == unique + [found[i]]
    ensures HasUri(unique, found[i].uri) || |unique| >= MaxTracks ==>
              Take(Dedup(found[..i + 1]), MaxTracks) == unique
  {
    assert found[..i + 1] == found[..i] + [found[i]];
    var d := Dedup(found[..i]);
    var d' := Dedup(found[..i + 1]);
    DedupSnoc(found[..i], found[i]);
    DedupUris(found[..i]);
    assert d' == if HasUri(d, found[i].uri) then d else d + [found[i]];
    if |unique| < MaxTracks {
      assert unique == d;
    } else {
      assert |d| >= MaxTracks;
      assert d'[..MaxTracks] == d[..MaxTracks];
    }
  }

  /** One pass of the selection loop keeps both of its invariants: the kept
      tracks are the first ten of distinct URIs seen so far, and the URI set
      holds exactly their URIs. */
  lemma SelectKeeps(found: seq<TrackItem>, i: nat, unique: seq<TrackItem>, uris: set<string>)
    requires i < |found| && unique == Take(Dedup(found[..i]), MaxTracks)
    requires forall u :: u in uris <==> HasUri(unique, u)
    ensures found[i].uri !in uris && |unique| < MaxTracks ==>
              && unique + [found[i]] == Take(Dedup(found[..i + 1]), MaxTracks)
              && forall u :: u in uris + {found[i].uri} <==> HasUri(unique + [found[i]], u)
    ensures !(found[i].uri !in uris && |unique| < MaxTracks) ==>
              unique == Take(Dedup(found[..i + 1]), MaxTracks)
  {
    SelectStep(found, i, unique);
    assert found[i].uri in uris <==> HasUri(unique, found[i].uri);
    HasUriSnoc(unique, found[i]);
  }

  /** The selection loop of lines 281-287: a track is kept when its URI is
      not yet in `track_uris` and fewer than ten are kept. The result is the
      first ten tracks of distinct URIs, so at most ten, none sharing a
      URI. */
  method SelectUnique(found: seq<TrackItem>) returns (unique: seq<TrackItem>)
    ensures unique == Take(Dedup(found), MaxTracks)
    ensures |unique| <= MaxTracks && DistinctUris(unique)
  {
    unique := [];
    var trackUris: set<string> := {};
    var i := 0;
    while i < |found|
      invariant 0 <= i <= |found|
      invariant unique == Take(Dedup(found[..i]), MaxTracks)
      invariant forall u :: u in trackUris <==> HasUri(unique, u)
    {
      var t := found[i];
      SelectKeeps(found, i, unique, trackUris);
      if t.uri !in trackUris && |unique| < MaxTracks {
        trackUris := trackUris + {t.uri};
        unique := unique + [t];
      }
      i := i + 1;
    }
    assert found[..i] == found;
    DedupDistinct(found);
    DistinctPrefix(Dedup(found), |unique|);
  }

  /** A prefix of tracks with distinct URIs has distinct URIs. */
  lemma DistinctPrefix(ts: seq<TrackItem>, n: nat)
    requires DistinctUris(ts) && n <= |ts|
    ensures DistinctUris(ts[..n])
  {
    forall i, j | 0 <= i < j < n ensures ts[..n][i].uri != ts[..n][j].uri {
      assert ts[..n][i] == ts[i] && ts[..n][j] == ts[j];
    }
  }

  // ---------------------------------------------------------------------
  // Adding tracks to a new playlist

  /** The chunks joined back together. */
  function Concat(chunks: seq<seq<string>>): seq<string>
  {
    if chunks == [] then [] else Concat(chunks[..|chunks| - 1]) + chunks[|chunks| - 1]
  }

  lemma ConcatSnoc(chunks: seq<seq<string>>, c: seq<string>)
    ensures Concat(chunks + [c]) == Concat(chunks) + c
  {
    assert (chunks + [c])[..|chunks|] == chunks;
  }

  /** `uris[i:i+100]` for the chunk that starts at the `k`-th multiple of a
      hundred. */
  function ChunkAt(uris: seq<string>, k: nat): seq<string>
    requires MaxPerRequest * k < |uris|
  {
    uris[MaxPerRequest * k..Min(MaxPerRequest * k + MaxPerRequest, |uris|)]
  }

  /** The `playlist_add_items` calls of lines 327-341: none for no URIs, one
      call with all of them for at most a hundred, and otherwise one call per
      slice starting at each multiple of a hundred below the count. Either
      way the calls add every URI once, in order, at most a hundred per
      call. */
  method AddItemsCalls(uris: seq<string>) returns (calls: seq<seq<string>>)
    ensures uris == [] ==> calls == []
    ensures 0 < |uris| <= MaxPerRequest ==> calls == [uris]
    ensures |uris| > MaxPerRequest ==>
              && MaxPerRequest * (|calls| - 1) < |uris| <= MaxPerRequest * |calls|
              && forall k :: 0 <= k < |calls| ==> calls[k] == ChunkAt(uris, k)
    ensures Concat(calls) == uris
    ensures forall k :: 0 <= k < |calls| ==> 0 < |calls[k]| <= MaxPerRequest
  {
    calls := [];
    if |uris| == 0 {
    } else if |uris| <= MaxPerRequest {
      ConcatSnoc([], uris);
      calls := [uris];
    } else {
      var i := 0;
      while i < |uris|
        invariant i == MaxPerRequest * |calls|
        invariant |calls| > 0 ==> MaxPerRequest * (|calls| - 1) < |uris|
        invariant Concat(calls) == uris[..Min(i, |uris|)]
        invariant forall k :: 0 <= k < |calls| ==> calls[k] == ChunkAt(uris, k)
        invariant forall k :: 0 <= k < |calls| ==> 0 < |calls[k]| <= MaxPerRequest
      {
        var chunk := uris[i..Min(i + MaxPerRequest, |uris|)];
        assert chunk == ChunkAt(uris, |calls|);
        assert uris[..i] + chunk == uris[..Min(i + MaxPerRequest, |uris|)];
        ConcatSnoc(calls, chunk);
        calls := calls + [chunk];
        i := i + MaxPerRequest;
      }
      assert uris[..|uris|] == uris;
    }
  }

  // ---------------------------------------------------------------------
  // The two routes

  /** The body of a `/mood-suggestions` request; `None` for an absent key. */
  datatype MoodRequest = MoodRequest(moodDescription: Option<string>, accessToken: Option<string>)

  /** Lines 192-199 as written: the log line of line 195 slices the
      description before the check, so an absent description raises outside
      the `try` and the request ends in 500; the check answers 400 only for
      a present but empty description or a falsy token. `None` means the
      request goes on. */
  function MoodRequestCheckAsWritten(req: MoodRequest): (status: Option<int>)
    ensures status == Some(500) <==> req.moodDescription.None?
    ensures status == Some(400) <==> req.moodDescription.Some? && (!Truthy(req.moodDescription) || !Truthy(req.accessToken))
    ensures status.None? <==> Truthy(req.moodDescription) && Truthy(req.accessToken)
  {
    if req.moodDescription.None? then Some(500)
    else if !Truthy(req.moodDescription) || !Truthy(req.accessToken) then Some(400)
    else None
  }

  /** The check as line 198 means it: 400 exactly when the description or
      the token is missing or empty. */
  function MoodRequestCheck(req: MoodRequest): (status: Option<int>)
    ensures status.Some? <==> !Truthy(req.moodDescription) || !Truthy(req.accessToken)
    ensures status.Some? ==> status.value == 400
  {
    if !Truthy(req.moodDescription) || !Truthy(req.accessToken) then Some(400) else None
  }

  /** A request without `moodDescription` gets 500 from the code as written
      and 400 from the check it was meant to reach. */
  lemma AbsentDescriptionIs500(token: string)
    requires token != ""
    ensures MoodRequestCheckAsWritten(MoodRequest(None, Some(token))) == Some(500)
    ensures MoodRequestCheck(MoodRequest(None, Some(token))) == Some(400)
  {
  }

  /** The two checks differ on exactly the requests without a description. */
  lemma ChecksDifferOnlyWithoutDescription(req: MoodRequest)
    ensures MoodRequestCheckAsWritten(req) != MoodRequestCheck(req) <==> req.moodDescription.None?
  {
  }

  /** What Spotify does for one access token: whether `current_user()`
      succeeds when the client is made (line 182) and again when the token
      is verified (line 210), and how it answers searches. */
  datatype Account = Account(connects: bool, verifies: bool, search: Search)

  datatype MoodReply =
    | MoodFailed(status: int)
    | MoodSuggestions(detectedMood: string, explanation: string, tracks: seq<TrackItem>)

  /** The tracks a request with these texts returns. */
  function Recommended(texts: ModelTexts, search: Search): seq<TrackItem>
  {
    var songs := FilterMap(Split(PyStrip(texts.songs), ','), FromPiece);
    var found := Fallback(FoundTracks(songs, search), SplitStrip(texts.keywords), search);
    Take(Dedup(found), MaxTracks)
  }

  /** `get_mood_suggestions`, lines 189-298, with the check corrected. A bad
      request gets 400 and changes nothing; otherwise the state is rebuilt,
      a token Spotify refuses when the client is made gives 500 and one it
      refuses at verification 401; else the reply carries the mood, the
      explanation and at most ten tracks of distinct URIs. */
  method MoodSuggestionsRoute(req: MoodRequest, texts: ModelTexts, account: Account, state: MoodState)
    returns (reply: MoodReply)
    modifies state
    ensures MoodRequestCheck(req).Some? ==> reply == MoodFailed(400) && unchanged(state)
    ensures MoodRequestCheck(req).None? ==>
              && state.moodDescription == PyStrip(req.moodDescription.value)
              && state.mood == Some(PyStrip(texts.mood))
              && state.genres == SplitStrip(texts.genres) && state.keywords == SplitStrip(texts.keywords)
              && state.explanation == PyStrip(texts.explanation)
    ensures MoodRequestCheck(req).None? && !account.connects ==> reply == MoodFailed(500)
    ensures MoodRequestCheck(req).None? && account.connects && !account.verifies ==> reply == MoodFailed(401)
    ensures MoodRequestCheck(req).None? && account.connects && account.verifies ==>
              && reply == MoodSuggestions(PyStrip(texts.mood), PyStrip(texts.explanation), Recommended(texts, account.search))
              && |reply.tracks| <= MaxTracks && DistinctUris(reply.tracks)
  {
    var status := MoodRequestCheck(req);
    if status.Some? {
      return MoodFailed(status.value);
    }
    state.Build(req.moodDescription.value, texts);
    var songs := ParseSongList(texts.songs);
    if !account.connects {
      return MoodFailed(500);
    }
    if !account.verifies {
      return MoodFailed(401);
    }
    var found := FindTracks(songs, account.search);
    found := KeywordFallback(found, state.keywords, account.search);
    var unique := SelectUnique(found);
    reply := MoodSuggestions(state.mood.value, state.explanation, unique);
  }

  /** The body of a `/create-playlist` request; `None` for an absent key. */
  datatype PlaylistRequest = PlaylistRequest(
    accessToken: Option<string>, trackUris: Option<seq<string>>, name: Option<string>, description: Option<string>)

  /** The arguments of `user_playlist_create`. */
  datatype NewPlaylist = NewPlaylist(user: string, name: string, public: bool, description: string)

  datatype CreatedPlaylist = CreatedPlaylist(id: string, url: string)

  /** What Spotify does for one access token: whether `current_user()`
      succeeds (lines 182 and 315), the user's id, and the playlist it
      creates, `None` when the creation raises. */
  datatype PlaylistService = PlaylistService(connects: bool, userId: string, created: Option<CreatedPlaylist>)

  datatype CreateReply = CreateFailed(status: int) | CreateSucceeded(playlistId: string, playlistUrl: string)

  /** The parameters line 310 requires: a truthy token, a non-empty URI list
      and a truthy name. */
  predicate CreateRequestOk(req: PlaylistRequest)
  {
    Truthy(req.accessToken) && req.trackUris.Some? && req.trackUris.value != [] && Truthy(req.name)
  }

  /** `create_playlist`, lines 300-352. A request missing any of the three
      parameters gets 400 and reaches no service; a refused token or a
      failed creation gives 500; otherwise a private playlist is created
      for the user with the description (empty by default), the URIs are
      added at most a hundred per call, all of them in order, and the reply
      carries the playlist's id and URL. */
  method CreatePlaylistRoute(req: PlaylistRequest, service: PlaylistService)
    returns (reply: CreateReply, creation: Option<NewPlaylist>, addCalls: seq<seq<string>>)
    ensures !CreateRequestOk(req) ==> reply == CreateFailed(400) && creation == None && addCalls == []
    ensures CreateRequestOk(req) && !service.connects ==> reply == CreateFailed(500) && creation == None && addCalls == []
    ensures CreateRequestOk(req) && service.connects ==>
              creation == Some(NewPlaylist(service.userId, req.name.value, false,
                                           if req.description.Some? then req.description.value else ""))
    ensures CreateRequestOk(req) && service.connects && service.created.None? ==>
              reply == CreateFailed(500) && addCalls == []
    ensures CreateRequestOk(req) && service.connects && service.created.Some? ==>
              && reply == CreateSucceeded(service.created.value.id, service.created.value.url)
              && Concat(addCalls) == req.trackUris.value
              && (|req.trackUris.value| <= MaxPerRequest ==> addCalls == [req.trackUris.value])
              && forall k :: 0 <= k < |addCalls| ==> 0 < |addCalls[k]| <= MaxPerRequest
  {
    creation, addCalls := None, [];
    if !CreateRequestOk(req) {
      return CreateFailed(400), creation, addCalls;
    }
    if !service.connects {
      return CreateFailed(500), creation, addCalls;
    }
    var description := if req.description.Some? then req.description.value else "";
    creation := Some(NewPlaylist(service.userId, req.name.value, false, description));
    if service.created.None? {
      return CreateFailed(500), creation, addCalls;
    }
    addCalls := AddItemsCalls(req.trackUris.value);
    reply := CreateSucceeded(service.created.value.id, service.created.value.url);
  }
}
