/** The `PlaylistPage` component: fetches one playlist with the access token,
    maps its entries to listed tracks and renders a spinner, an error panel,
    nothing, or the list. Spotify's reply arrives as a method argument. */
module PlaylistPage {
  import opened Common
  import opened Tracks

  const LoadError := "Could not load playlist, Please try again later."

  /** A playlist object: its name and the `track` of each entry of
      `tracks.items`, absent where Spotify sends `null`. */
  datatype Playlist = Playlist(name: string, entries: seq<Option<ApiTrack>>)

  datatype View = Spinner | ErrorPanel(message: string) | Blank | TrackList(playlist: Playlist, tracks: seq<TrackItem>)

  /** The mapping of lines 31-45: one item per entry, in order, or `None`
      when the callback throws for some entry (a `null` track, no artist, no
      image). */
  function EntryItems(entries: seq<Option<ApiTrack>>): (r: Option<seq<TrackItem>>)
    ensures r.Some? <==> forall i :: 0 <= i < |entries| ==> entries[i].Some? && ClientItem(entries[i].value).Some?
    ensures r.Some? ==> |r.value| == |entries|
    ensures r.Some? ==> forall i :: 0 <= i < |entries| ==> Some(r.value[i]) == ClientItem(entries[i].value)
  {
    if entries == [] then Some([])
    else
      var rest := EntryItems(entries[1..]);
      if entries[0].None? then None
      else
        var head := ClientItem(entries[0].value);
        if head.None? || rest.None? then None
        else Some([head.value] + rest.value)
  }

  class PlaylistView {
    var playlist: Option<Playlist>
    var tracks: seq<TrackItem>
    var loading: bool
    var error: Option<string>

    /** The dependencies `[accessToken, playlistId]` of the effect's last run. */
    var lastToken: Option<string>
    var lastId: Option<string>
    var fetchesInFlight: nat

    /** The error text, once set, is the fixed message; and whenever loading
        has ended, either an error or a playlist is there to show. */
    ghost predicate Valid()
      reads this
    {
      && (error.Some? ==> error.value == LoadError)
      && (!loading ==> error.Some? || playlist.Some?)
    }

    /** The fetch effect (lines 11-58) after a render with the given props:
        it runs when a dependency changed, and starts a fetch, turning the
        spinner on, only when both are truthy. It never clears an error. */
    method Commit(accessToken: Option<string>, playlistId: Option<string>) returns (fetching: bool)
      requires Valid()
      modifies this
      ensures Valid()
      ensures fetching <==> (accessToken != old(lastToken) || playlistId != old(lastId))
                            && Truthy(accessToken) && Truthy(playlistId)
      ensures fetching ==> loading
      ensures !fetching ==> loading == old(loading)
      ensures fetchesInFlight == old(fetchesInFlight) + (if fetching then 1 else 0)
      ensures lastToken == accessToken && lastId == playlistId
      ensures playlist == old(playlist) && tracks == old(tracks) && error == old(error)
    {
      fetching := (accessToken != lastToken || playlistId != lastId) && Truthy(accessToken) && Truthy(playlistId);
      if fetching {
        loading := true;
        fetchesInFlight := fetchesInFlight + 1;
      }
      lastToken, lastId := accessToken, playlistId;
    }

    /** The first render and the mount run of the effect. */
    constructor (accessToken: Option<string>, playlistId: Option<string>)
      ensures playlist == None && tracks == [] && error == None && loading
      ensures fetchesInFlight == (if Truthy(accessToken) && Truthy(playlistId) then 1 else 0)
      ensures lastToken == accessToken && lastId == playlistId
      ensures Valid()
    {
      playlist, tracks, loading, error := None, [], true, None;
      lastToken, lastId := accessToken, playlistId;
      fetchesInFlight := if Truthy(accessToken) && Truthy(playlistId) then 1 else 0;
    }

    /** A fetch settles (lines 24-53). A non-ok or failed response sets the
        error; an ok one sets the playlist first, and then the tracks, or the
        error when the mapping throws. Either way loading ends. */
    method Settled(reply: Reply<Playlist>)
      requires Valid() && fetchesInFlight > 0
      modifies this
      ensures Valid()
      ensures fetchesInFlight == old(fetchesInFlight) - 1 && !loading
      ensures !reply.Ok? ==> error == Some(LoadError) && playlist == old(playlist) && tracks == old(tracks)
      ensures reply.Ok? ==> playlist == Some(reply.body)
      ensures reply.Ok? && EntryItems(reply.body.entries).Some? ==>
                tracks == EntryItems(reply.body.entries).value && error == old(error)
      ensures reply.Ok? && EntryItems(reply.body.entries).None? ==>
                tracks == old(tracks) && error == Some(LoadError)
      ensures lastToken == old(lastToken) && lastId == old(lastId)
    {
      fetchesInFlight := fetchesInFlight - 1;
      if reply.Ok? {
        playlist := Some(reply.body);
        var items := EntryItems(reply.body.entries);
        if items.Some? {
          tracks := items.value;
        } else {
          error := Some(LoadError);
        }
      } else {
        error := Some(LoadError);
      }
      loading := false;
    }

    /** The render of lines 60-86: the spinner while loading, then the error
        panel, then nothing without a playlist, then the list. In a valid
        state the blank case never shows. */
    function Render(): (v: View)
      reads this
      ensures v == Spinner <==> loading
      ensures v.ErrorPanel? <==> !loading && error.Some?
      ensures v.TrackList? ==> playlist == Some(v.playlist) && v.tracks == tracks
      ensures Valid() ==> v != Blank && (v.ErrorPanel? ==> v.message == LoadError)
    {
      if loading then Spinner
      else if error.Some? then ErrorPanel(error.value)
      else if playlist.None? then Blank
      else TrackList(playlist.value, tracks)
    }
  }

  /** Without an access token no fetch starts, and the page shows its spinner
      for good. */
  method NoTokenKeepsSpinning(playlistId: Option<string>) returns (view: View, fetches: nat)
    ensures view == Spinner && fetches == 0
  {
    var page := new PlaylistView(None, playlistId);
    view := page.Render();
    fetches := page.fetchesInFlight;
  }

  /** The error is never cleared: after one failed fetch, switching to another
      playlist that loads fine still shows the error panel. */
  method ErrorOutlivesRetry(token: string, first: string, second: string, good: Playlist)
    returns (view: View)
    requires token != "" && first != "" && second != "" && first != second
    requires EntryItems(good.entries).Some?
    ensures view == ErrorPanel(LoadError)
  {
    var page := new PlaylistView(Some(token), Some(first));
    page.Settled(HttpError(404));
    var _ := page.Commit(Some(token), Some(second));
    page.Settled(Ok(good));
    view := page.Render();
  }
}
