/** The `Dashboard` component: the search box and its results, the playing
    track and its lyrics, and the logout button. The access token comes from
    the session hook and is passed to each commit; Spotify's and the lyrics
    service's replies arrive as method arguments. */
module Dashboard {
  import opened Common
  import opened Browser
  import opened Tracks
  import Session

  /** The initial text of the lyrics panel, line 19. */
  const LyricsPlaceholder := "Play a song and the lyrics will show up here"

  /** A `searchTracks(search)` call issued by run `run` of the search effect,
      on the shared client holding `token`. */
  datatype SearchRequest = SearchRequest(run: nat, query: string, token: string)

  /** The storage keys logout removes. */
  function SessionKeys(): set<string>
  {
    {Session.AccessTokenKey, Session.RefreshTokenKey, Session.ExpiresInKey}
  }

  class DashboardView {
    const window: Window

    var search: string
    var searchResults: seq<TrackItem>
    var playingTrack: Option<TrackItem>
    var lyrics: string

    /** The access token the module-level Spotify client was last given. */
    var clientToken: Option<string>

    /** Number of runs of the search effect so far; the run numbered
        `searchRun` is the only one whose `cancel` flag is still false. */
    var searchRun: nat
    /** The dependencies `[accessToken, search]` of the effects' last run. */
    var lastToken: Option<string>
    var lastSearch: string

    var lyricsInFlight: nat

    /** The shared client holds the last truthy token the token effect saw. */
    ghost predicate Valid()
      reads this
    {
      Truthy(lastToken) ==> clientToken == lastToken
    }

    /** First render and mount with the hook's initial, absent token: the
        search effect runs on an empty query and only clears the results;
        the lyrics effect finds no track. */
    constructor (window: Window)
      ensures this.window == window
      ensures search == "" && searchResults == [] && playingTrack == None
      ensures lyrics == LyricsPlaceholder
      ensures clientToken == None && lastToken == None && lastSearch == "" && lyricsInFlight == 0
      ensures Valid()
    {
      this.window := window;
      search, searchResults, playingTrack := "", [], None;
      lyrics := LyricsPlaceholder;
      clientToken := None;
      searchRun := 0;
      lastToken, lastSearch := None, "";
      lyricsInFlight := 0;
    }

    /** The input's `onChange`: `setSearch(text)`. */
    method Type(text: string)
      requires Valid()
      modifies this
      ensures Valid()
      ensures search == text
      ensures searchResults == old(searchResults) && searchRun == old(searchRun)
      ensures lastSearch == old(lastSearch) && lastToken == old(lastToken)
      ensures clientToken == old(clientToken)
      ensures playingTrack == old(playingTrack) && lyrics == old(lyrics) && lyricsInFlight == old(lyricsInFlight)
    {
      search := text;
    }

    /** The token and search effects after a render with access token
        `accessToken` (lines 51-82). Each runs only when one of its
        dependencies changed since its last run. Running the search effect
        cancels the previous run's pending reply; it clears the results for
        an empty query, sends nothing without a token, and otherwise sends
        the query on the client that now holds the token. */
    method Commit(accessToken: Option<string>) returns (sent: Option<SearchRequest>)
      requires Valid()
      modifies this
      ensures Valid()
      ensures lastToken == accessToken && lastSearch == search && search == old(search)
      ensures old(lastToken) != accessToken && Truthy(accessToken) ==> clientToken == accessToken
      ensures old(lastToken) == accessToken || !Truthy(accessToken) ==> clientToken == old(clientToken)
      ensures old(lastToken) == accessToken && old(lastSearch) == search ==>
                sent == None && searchRun == old(searchRun) && searchResults == old(searchResults)
      ensures old(lastToken) != accessToken || old(lastSearch) != search ==>
                && searchRun == old(searchRun) + 1
                && (search == "" ==> searchResults == [] && sent == None)
                && (search != "" && !Truthy(accessToken) ==> searchResults == old(searchResults) && sent == None)
                && (search != "" && Truthy(accessToken) ==>
                      searchResults == old(searchResults) && sent == Some(SearchRequest(searchRun, search, accessToken.value)))
      ensures playingTrack == old(playingTrack) && lyrics == old(lyrics) && lyricsInFlight == old(lyricsInFlight)
    {
      sent := None;
      if accessToken != lastToken && Truthy(accessToken) {
        clientToken := accessToken;
      }
      if accessToken != lastToken || search != lastSearch {
        searchRun := searchRun + 1;
        if search == "" {
          searchResults := [];
        } else if Truthy(accessToken) {
          sent := Some(SearchRequest(searchRun, search, clientToken.value));
        }
      }
      lastToken, lastSearch := accessToken, search;
    }

    /** The reply to a search request (lines 62-79). It is dropped when its
        run was cancelled; otherwise the results become the mapped tracks,
        unless the mapping throws, which leaves them as they were. */
    method SearchReplied(request: SearchRequest, tracks: seq<ApiTrack>)
      requires Valid()
      modifies this
      ensures Valid()
      ensures request.run != searchRun || ClientItems(tracks).None? ==> searchResults == old(searchResults)
      ensures request.run == searchRun && ClientItems(tracks).Some? ==> searchResults == ClientItems(tracks).value
      ensures search == old(search) && searchRun == old(searchRun) && clientToken == old(clientToken)
      ensures lastSearch == old(lastSearch) && lastToken == old(lastToken)
      ensures playingTrack == old(playingTrack) && lyrics == old(lyrics) && lyricsInFlight == old(lyricsInFlight)
    {
      if request.run == searchRun {
        var items := ClientItems(tracks);
        if items.Some? {
          searchResults := items.value;
        }
      }
    }

    /** `chooseTrack(track)` and the lyrics effect of the following commit:
        the track starts playing, the lyrics panel empties, and the lyrics are
        requested when the playing track changed. */
    method ChooseTrack(track: TrackItem) returns (requested: bool)
      requires Valid()
      modifies this
      ensures Valid()
      ensures playingTrack == Some(track) && lyrics == ""
      ensures requested <==> old(playingTrack) != Some(track)
      ensures lyricsInFlight == old(lyricsInFlight) + (if requested then 1 else 0)
      ensures search == old(search) && searchResults == old(searchResults) && searchRun == old(searchRun)
      ensures clientToken == old(clientToken) && lastSearch == old(lastSearch) && lastToken == old(lastToken)
    {
      requested := playingTrack != Some(track);
      playingTrack := Some(track);
      lyrics := "";
      if requested {
        lyricsInFlight := lyricsInFlight + 1;
      }
    }

    /** The reply of `/lyrics` (lines 45-47). No flag guards it: whichever
        reply settles last is shown, whether or not its track still plays. */
    method LyricsSettled(reply: Reply<string>)
      requires Valid() && lyricsInFlight > 0
      modifies this
      ensures Valid()
      ensures lyricsInFlight == old(lyricsInFlight) - 1
      ensures reply.Ok? ==> lyrics == reply.body
      ensures !reply.Ok? ==> lyrics == old(lyrics)
      ensures playingTrack == old(playingTrack)
      ensures search == old(search) && searchResults == old(searchResults) && searchRun == old(searchRun)
      ensures clientToken == old(clientToken) && lastSearch == old(lastSearch) && lastToken == old(lastToken)
    {
      lyricsInFlight := lyricsInFlight - 1;
      if reply.Ok? {
        lyrics := reply.body;
      }
    }

    /** `handleLogout`: removes the three session entries and navigates to
        `/`. */
    method HandleLogout()
      modifies window
      ensures window.storage == old(window.storage) - SessionKeys()
      ensures window.location == Some("/")
    {
      window.RemoveItem(Session.AccessTokenKey);
      window.RemoveItem(Session.RefreshTokenKey);
      window.RemoveItem(Session.ExpiresInKey);
      window.Navigate("/");
    }
  }

  /** A search whose reply arrives after the query was edited and committed
      again changes nothing: the later run cancelled it. */
  method StaleSearchIgnored(first: string, second: string, token: string, tracks: seq<ApiTrack>)
    returns (sentFirst: bool, shown: seq<TrackItem>)
    requires first != "" && second != "" && first != second && token != ""
    ensures sentFirst && shown == []
  {
    var window := new Window(map[]);
    var view := new DashboardView(window);
    view.Type(first);
    var request := view.Commit(Some(token));
    sentFirst := request.Some? && request.value.query == first && request.value.token == token;
    view.Type(second);
    var _ := view.Commit(Some(token));
    view.SearchReplied(request.value, tracks);
    shown := view.searchResults;
  }
}
