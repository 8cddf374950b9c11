/** The Express token-exchange and lyrics service: `POST /login` trades an
    authorization code for a token pair, `POST /refresh` trades the refresh
    token for a new access token, and `GET /lyrics` looks the song up on
    Genius and cuts the page text down to the lyrics. Spotify's and Genius's
    answers are parameters. */
module Server {
  import opened Common

  datatype LoginBody = LoginBody(accessToken: string, refreshToken: string, expiresIn: int)
  datatype RefreshBody = RefreshBody(accessToken: string, expiresIn: int)

  /** Spotify's answer to `authorizationCodeGrant(code)`. */
  datatype CodeGrant = CodeGranted(accessToken: string, refreshToken: string, expiresIn: int) | CodeRejected

  /** Spotify's answer to `refreshAccessToken()`; the provider may rotate the
      refresh token. */
  datatype RefreshGrant =
    | Refreshed(accessToken: string, rotatedRefreshToken: Option<string>, expiresIn: int)
    | RefreshRejected

  /** `POST /login {code}`: the grant's three fields, or status 400. */
  function LoginRoute(code: string, grant: string -> CodeGrant): (r: Reply<LoginBody>)
    ensures r.Ok? <==> grant(code).CodeGranted?
    ensures r.Ok? ==> r.body == LoginBody(grant(code).accessToken, grant(code).refreshToken, grant(code).expiresIn)
    ensures !r.Ok? ==> r == HttpError(400)
  {
    match grant(code)
    case CodeGranted(access, refresh, expires) => Ok(LoginBody(access, refresh, expires))
    case CodeRejected => HttpError(400)
  }

  /** `POST /refresh {refreshToken}`: the new access token and its TTL, or
      status 400. A rotated refresh token is dropped: the body has no field
      for it. */
  function RefreshRoute(refreshToken: string, grant: string -> RefreshGrant): (r: Reply<RefreshBody>)
    ensures r.Ok? <==> grant(refreshToken).Refreshed?
    ensures r.Ok? ==> r.body.accessToken == grant(refreshToken).accessToken
                      && r.body.expiresIn == grant(refreshToken).expiresIn
    ensures !r.Ok? ==> r == HttpError(400)
  {
    match grant(refreshToken)
    case Refreshed(access, _, expires) => Ok(RefreshBody(access, expires))
    case RefreshRejected => HttpError(400)
  }

  // ---------------------------------------------------------------- lyrics

  const LyricsNotFound := "Lyrics not found."
  const LyricsError := "Error fetching lyrics."
  const StillLooking := "Still looking for the lyrics for this song"

  /** Outcome of `song.lyrics()` for one search hit. */
  datatype LyricsFetch = LyricsThrew | Lyrics(raw: string)

  /** Outcome of `Client.songs.search(query)`: a failure, or the hits in
      order, each with what fetching its lyrics gives. */
  datatype SongSearch = SearchThrew | Hits(hits: seq<LyricsFetch>)

  /** The code points that a regular-expression `.` does not match. */
  predicate IsLineTerminator(c: char)
  {
    c == '\n' || c == '\r' || c == '\U{2028}' || c == '\U{2029}'
  }

  /** `.*?\]` matches at index `k`: a `]` follows, with no line terminator
      in between. */
  predicate ClosesFrom(s: string, k: nat)
    decreases |s| - k
  {
    k < |s| && (s[k] == ']' || (!IsLineTerminator(s[k]) && ClosesFrom(s, k + 1)))
  }

  /** `\[.*?\]` matches at index `i`: a `[` there and a `]` after it on the
      same line. */
  ghost predicate BracketPairAt(s: string, i: nat)
  {
    i < |s| && s[i] == '['
    && exists j :: i < j < |s| && s[j] == ']' && forall m :: i < m < j ==> !IsLineTerminator(s[m])
  }

  lemma {:induction false} ClosesFromSpec(s: string, k: nat)
    ensures ClosesFrom(s, k) <==>
      exists j :: k <= j < |s| && s[j] == ']' && forall m :: k <= m < j ==> !IsLineTerminator(s[m])
    decreases |s| - k
  {
    if k < |s| {
      ClosesFromSpec(s, k + 1);
      if ClosesFrom(s, k) && s[k] != ']' {
        var j :| k + 1 <= j < |s| && s[j] == ']' && forall m :: k + 1 <= m < j ==> !IsLineTerminator(s[m]);
        assert forall m :: k <= m < j ==> !IsLineTerminator(s[m]);
      }
      if !ClosesFrom(s, k) {
        forall j | k <= j < |s| && s[j] == ']'
          ensures exists m :: k <= m < j && IsLineTerminator(s[m])
        {
          assert j != k;
          if forall m :: k + 1 <= m < j ==> !IsLineTerminator(s[m]) {
            assert IsLineTerminator(s[k]);
          }
        }
      }
    }
  }

  /** Leftmost index at or after `from` where `\[.*?\]` matches. */
  function FirstBracketPair(s: string, from: nat): (r: Option<nat>)
    requires from <= |s|
    ensures r.Some? ==> from <= r.value && BracketPairAt(s, r.value)
    ensures r.Some? ==> forall k :: from <= k < r.value ==> !BracketPairAt(s, k)
    ensures r.None? ==> forall k :: from <= k < |s| ==> !BracketPairAt(s, k)
    decreases |s| - from
  {
    if from == |s| then None
    else
      ClosesFromSpec(s, from + 1);
      if s[from] == '[' && ClosesFrom(s, from + 1) then Some(from)
      else FirstBracketPair(s, from + 1)
  }

  /** Lines 63-64 of the lyrics helper: `raw.match(/(\[.*?\][\s\S]*)/)` finds
      the leftmost `[` closed by a `]` on its own line and captures from
      there to the end; the result is that capture, or the whole text when
      there is no match, trimmed. */
  function CleanLyrics(raw: string): (r: string)
    ensures (forall k :: 0 <= k < |raw| ==> !BracketPairAt(raw, k)) ==> r == JsTrim(raw)
    ensures (exists k :: 0 <= k < |raw| && BracketPairAt(raw, k)) ==>
              exists i :: 0 <= i < |raw| && BracketPairAt(raw, i)
                          && (forall k :: 0 <= k < i ==> !BracketPairAt(raw, k))
                          && r == JsTrim(raw[i..])
  {
    match FirstBracketPair(raw, 0)
    case Some(i) => JsTrim(raw[i..])
    case None => JsTrim(raw)
  }

  /** When the page text has a bracketed section header, the cleaned lyrics
      start with that `[` and still hold its `]`: trimming never cuts into
      the capture. */
  lemma CleanedStartsAtBracket(raw: string, i: nat)
    requires BracketPairAt(raw, i)
    ensures var r := CleanLyrics(raw); r != [] && r[0] == '[' && ']' in r
  {
    var first := FirstBracketPair(raw, 0).value;
    CaptureKeepsBrackets(raw, first);
    assert CleanLyrics(raw) == JsTrim(raw[first..]);
  }

  /** The capture from a bracketed header onwards, trimmed, still opens
      with the `[` and holds the `]`. */
  lemma CaptureKeepsBrackets(raw: string, first: nat)
    requires BracketPairAt(raw, first)
    ensures var u := JsTrim(raw[first..]); u != [] && u[0] == '[' && ']' in u
  {
    var c := raw[first..];
    var j :| first < j < |raw| && raw[j] == ']' && forall m :: first < m < j ==> !IsLineTerminator(raw[m]);
    assert c[0] == '[' && c[j - first] == ']';
    TrimKeepsBrackets(c, j - first);
  }

  /** Trimming a text that opens with `[` and has a `]` further on keeps
      both. */
  lemma TrimKeepsBrackets(c: string, j: nat)
    requires 0 < j < |c| && c[0] == '[' && c[j] == ']'
    ensures var u := JsTrim(c); u != [] && u[0] == '[' && ']' in u
  {
    assert !IsJsSpace(c[0]) && !IsJsSpace(c[j]);
    var t := TrimStart(c, IsJsSpace);
    assert t == c;
    var u := TrimEnd(t, IsJsSpace);
    assert |u| > j;
    assert u[0] == '[' && u[j] == ']';
  }

  /** `getLyrics(artist, track)`: searches Genius for `"${artist} ${track}"`
      and cleans the lyrics of the first hit; any thrown error gives the
      error text. */
  function GetLyrics(artist: string, track: string, genius: string -> SongSearch): (r: string)
    ensures genius(artist + " " + track).SearchThrew? ==> r == LyricsError
    ensures genius(artist + " " + track) == Hits([]) ==> r == LyricsNotFound
    ensures genius(artist + " " + track).Hits? && genius(artist + " " + track).hits != [] ==>
              r == match genius(artist + " " + track).hits[0]
                   case LyricsThrew => LyricsError
                   case Lyrics(raw) => CleanLyrics(raw)
  {
    match genius(artist + " " + track)
    case SearchThrew => LyricsError
    case Hits(hits) =>
      if hits == [] then LyricsNotFound
      else match hits[0]
        case LyricsThrew => LyricsError
        case Lyrics(raw) => CleanLyrics(raw)
  }

  /** `GET /lyrics?artist=..&track=..`: `getLyrics(...) || "Still looking..."`,
      so the reply is never empty. */
  function LyricsRoute(artist: string, track: string, genius: string -> SongSearch): (r: string)
    ensures r != ""
    ensures GetLyrics(artist, track, genius) != "" ==> r == GetLyrics(artist, track, genius)
    ensures GetLyrics(artist, track, genius) == "" ==> r == StillLooking
  {
    var lyrics := GetLyrics(artist, track, genius);
    if lyrics != "" then lyrics else StillLooking
  }

  /** The cleaned lyrics are empty exactly when the page text is all white
      space. */
  lemma CleanLyricsBlank(raw: string)
    ensures CleanLyrics(raw) == "" <==> forall k :: 0 <= k < |raw| ==> IsJsSpace(raw[k])
  {
    if CleanLyrics(raw) == "" {
      if exists p :: 0 <= p < |raw| && BracketPairAt(raw, p) {
        var p :| 0 <= p < |raw| && BracketPairAt(raw, p);
        CleanedStartsAtBracket(raw, p);
      }
      TrimSlice(raw, IsJsSpace);
      var i, j :| 0 <= i <= j <= |raw| && JsTrim(raw) == raw[i..j]
                  && (forall m :: 0 <= m < i ==> IsJsSpace(raw[m]))
                  && (forall m :: j <= m < |raw| ==> IsJsSpace(raw[m]));
      assert i == j;
    }
  }

  /** The route falls back to "still looking" exactly when the first hit's
      page text is all white space. */
  lemma FallbackOnlyForBlankText(artist: string, track: string, genius: string -> SongSearch)
    ensures GetLyrics(artist, track, genius) == "" <==>
              var found := genius(artist + " " + track);
              found.Hits? && found.hits != [] && found.hits[0].Lyrics?
              && forall k :: 0 <= k < |found.hits[0].raw| ==> IsJsSpace(found.hits[0].raw[k])
  {
    var found := genius(artist + " " + track);
    if found.Hits? && found.hits != [] && found.hits[0].Lyrics? {
      CleanLyricsBlank(found.hits[0].raw);
    }
  }
}
