/**
 * The music-search proxy (src/app/api/spotify/route.ts): a single-slot cache
 * for the catalog's bearer token, obtained with an OAuth 2.0 client-credentials
 * grant (section 4.4 of RFC 6749); the duration heuristic that guesses a
 * track's chorus window; and the `GET` handler that validates the query and
 * annotates every track of the catalog's answer with its window.
 *
 * The clock and the two HTTP replies are parameters: `now` stands for
 * `Date.now()` read when a token is asked for, `replyTime` for `Date.now()`
 * read again once the token endpoint has answered, a `TokenReply` for that
 * answer and a `SearchReply` for the search endpoint's answer.
 */
module SpotifyRoute {
  import opened Wrappers
  import JsString

  /** The safety margin subtracted from a token's lifetime, in milliseconds. */
  const ExpiryMarginMs := 60000

  /** The token endpoint's answer: `response.ok`, the `access_token` field and
      the `expires_in` field, a lifetime in seconds (section 5.1 of RFC 6749). */
  datatype TokenReply = TokenReply(ok: bool, accessToken: Option<string>, expiresIn: int)

  /** Why `getAccessToken` throws. */
  datatype AuthError = AuthFailed | NoAccessToken

  /** The exchange is rejected: a non-OK response, or a missing or empty
      (falsy) `access_token`. */
  function ExchangeError(reply: TokenReply): (e: Option<AuthError>)
    ensures e.None? <==> reply.ok && JsString.Truthy(reply.accessToken)
  {
    if !reply.ok then Some(AuthFailed)
    else if !JsString.Truthy(reply.accessToken) then Some(NoAccessToken)
    else None
  }

  /** The module-level `accessToken` / `tokenExpiry` pair. */
  class TokenCache {
    var accessToken: Option<string>
    var tokenExpiry: int

    /** The state at module load: no token, expiry 0. */
    constructor ()
      ensures accessToken == None && tokenExpiry == 0
    {
      accessToken := None;
      tokenExpiry := 0;
    }

    /** The cached token may be served at time `now`: there is a non-empty
        token and its expiry lies after `now`. */
    predicate Serves(now: int): (b: bool)
      reads this
      ensures b ==> accessToken.Some? && |accessToken.value| > 0
      ensures tokenExpiry <= now ==> !b
    {
      JsString.Truthy(accessToken) && now < tokenExpiry
    }

    /** `getAccessToken`: serve the cached token while it is fresh, otherwise
        exchange the credentials; `exchanged` tells whether a request to the
        token endpoint was made. A failed exchange leaves the cache as it was;
        a successful one dates the expiry from the clock read after the
        answer arrived. */
    method GetAccessToken(now: int, replyTime: int, reply: TokenReply) returns (r: Result<string, AuthError>, exchanged: bool)
      modifies this
      ensures exchanged <==> !old(Serves(now))
      ensures !exchanged ==> r == Success(old(accessToken).value) && unchanged(this)
      ensures exchanged && ExchangeError(reply).Some? ==>
        r == Failure(ExchangeError(reply).value) && unchanged(this)
      ensures exchanged && ExchangeError(reply).None? ==>
        && r == Success(reply.accessToken.value)
        && accessToken == reply.accessToken
        && tokenExpiry == replyTime + reply.expiresIn * 1000 - ExpiryMarginMs
      ensures r.Success? ==> r.value != ""
    {
      if Serves(now) {
        return Success(accessToken.value), false;
      }
      exchanged := true;
      var error := ExchangeError(reply);
      if error.Some? {
        return Failure(error.value), exchanged;
      }
      accessToken := reply.accessToken;
      tokenExpiry := replyTime + reply.expiresIn * 1000 - ExpiryMarginMs;
      r := Success(accessToken.value);
    }
  }

  /** Three calls on a fresh cache: the first exchanges, and its answer
      arrives at `t1`; a call one millisecond before
      `t1 + expiresIn * 1000 - 60000` is served from the cache, and a call at
      that instant exchanges again. With `expires_in` of 3600 seconds the
      token is therefore reused for 3539.999 seconds after its answer. */
  method TokenLifetime(t0: int, t1: int, token: string, expiresIn: int, second: TokenReply)
    returns (first: Result<string, AuthError>, firstExchanged: bool,
             cached: Result<string, AuthError>, cachedExchanged: bool,
             renewedExchanged: bool)
    requires token != "" && expiresIn * 1000 > ExpiryMarginMs
    ensures first == Success(token) && firstExchanged
    ensures cached == Success(token) && !cachedExchanged
    ensures renewedExchanged
  {
    var cache := new TokenCache();
    first, firstExchanged := cache.GetAccessToken(t0, t1, TokenReply(true, Some(token), expiresIn));
    var expiry := t1 + expiresIn * 1000 - ExpiryMarginMs;
    cached, cachedExchanged := cache.GetAccessToken(expiry - 1, expiry - 1, second);
    var _, renewed := cache.GetAccessToken(expiry, expiry, second);
    renewedExchanged := renewed;
  }

  /** The estimated chorus window, in milliseconds from the track's start. */
  datatype Window = Window(startTime: int, endTime: int)

  /** `findRefrenSection`: under two minutes the fixed 15s-45s window, under
      four minutes 25%-65% of the duration, otherwise 30%-70%. The products
      are taken in exact arithmetic and floored. */
  function RefrenSection(durationMs: int): (w: Window)
    ensures w.startTime < w.endTime
    ensures durationMs < 120000 ==> w == Window(15000, 45000)
    ensures durationMs >= 120000 ==> 0 <= w.startTime && w.endTime <= durationMs
  {
    if durationMs < 120000 then Window(15000, 45000)
    else if durationMs < 240000 then Window(durationMs * 25 / 100, durationMs * 65 / 100)
    else Window(durationMs * 30 / 100, durationMs * 70 / 100)
  }

  /** Short tracks get the fixed window whatever their length. */
  lemma ShortTrackWindow(durationMs: int)
    requires durationMs < 120000
    ensures RefrenSection(durationMs) == Window(15000, 45000)
  {
  }

  /** Nothing clamps the fixed window: below 45 seconds it ends after the track. */
  lemma ShortTrackOverrun(durationMs: int)
    requires durationMs < 45000
    ensures RefrenSection(durationMs).endTime > durationMs
  {
  }

  /** From two minutes on, the window is non-empty and lies inside the track,
      covering two fifths of it up to rounding. */
  lemma WindowInsideTrack(durationMs: int)
    requires durationMs >= 120000
    ensures var w := RefrenSection(durationMs);
      0 <= w.startTime < w.endTime <= durationMs
      && 2 * durationMs / 5 - 1 <= w.endTime - w.startTime <= 2 * durationMs / 5 + 1
  {
    var w := RefrenSection(durationMs);
    if durationMs < 240000 {
      assert w.startTime == durationMs * 25 / 100;
    } else {
      assert w.startTime == durationMs * 30 / 100;
    }
  }

  /** The worked durations: 90, 150 and 300 seconds. */
  lemma WindowExamples()
    ensures RefrenSection(90000) == Window(15000, 45000)
    ensures RefrenSection(150000) == Window(37500, 97500)
    ensures RefrenSection(300000) == Window(90000, 210000)
  {
  }

  datatype Image = Image(url: string)
  datatype Artist = Artist(name: string, id: string)
  datatype Album = Album(name: string, images: seq<Image>)

  /** A track item of the catalog's search answer (the fields the route reads). */
  datatype UpstreamTrack = UpstreamTrack(
    id: string,
    name: string,
    artists: seq<Artist>,
    album: Album,
    previewUrl: Option<string>,
    durationMs: int)

  /** A track as the route returns it: the upstream fields plus its window. */
  datatype Track = Track(
    id: string,
    name: string,
    artists: seq<Artist>,
    album: Album,
    previewUrl: Option<string>,
    durationMs: int,
    refrenSection: Window)

  /** The body of `items.map(...)` on lines 104-122. */
  function FormatTrack(t: UpstreamTrack): (r: Track)
    ensures Upstream(r) == t && r.refrenSection == RefrenSection(t.durationMs)
  {
    Track(t.id, t.name, t.artists, t.album, t.previewUrl, t.durationMs, RefrenSection(t.durationMs))
  }

  /** Forgetting the window of a returned track: the reference inverse of
      `FormatTrack`. */
  function Upstream(t: Track): UpstreamTrack {
    UpstreamTrack(t.id, t.name, t.artists, t.album, t.previewUrl, t.durationMs)
  }

  /** `searchData.tracks?.items.map(...) || []`: one output track per item, in
      the same order, each carrying the item's fields unchanged and its
      chorus window. */
  function FormatTracks(items: Option<seq<UpstreamTrack>>): (r: seq<Track>)
    ensures items.None? ==> r == []
    ensures items.Some? ==> |r| == |items.value|
    ensures items.Some? ==> forall i :: 0 <= i < |r| ==>
      Upstream(r[i]) == items.value[i] && r[i].refrenSection == RefrenSection(items.value[i].durationMs)
  {
    match items
    case None => []
    case Some(ts) => seq(|ts|, i requires 0 <= i < |ts| => FormatTrack(ts[i]))
  }

  /** The search endpoint's answer: `searchResponse.ok` and the `tracks.items`
      of its JSON body (absent when the body has no `tracks`). */
  datatype SearchReply = SearchReply(ok: bool, items: Option<seq<UpstreamTrack>>)

  /** The JSON the route answers with. */
  datatype Body = QueryRequired | Tracks(tracks: seq<Track>) | SearchFailed

  datatype Response = Response(status: nat, body: Body)

  /** `!query || query.trim() === ''`: the `q` parameter is missing or blank. */
  predicate BlankQuery(q: Option<string>): (b: bool)
    ensures b <==> q.None? || JsString.AllWhiteSpace(q.value)
  {
    if q.None? then true
    else
      JsString.TrimEmptyIff(q.value);
      JsString.Trim(q.value) == ""
  }

  /** `GET`: reject a blank query with 400 before touching the token; otherwise
      get a token, search, and answer 200 with the annotated tracks, or 500 if
      the token or the search failed. `searched` tells whether the search
      endpoint was called. */
  method Get(cache: TokenCache, q: Option<string>, now: int, replyTime: int, tokenReply: TokenReply, searchReply: SearchReply)
    returns (resp: Response, exchanged: bool, searched: bool)
    modifies cache
    ensures BlankQuery(q) ==>
      resp == Response(400, QueryRequired) && !exchanged && !searched && unchanged(cache)
    ensures !BlankQuery(q) ==> (exchanged <==> !old(cache.Serves(now)))
    ensures !BlankQuery(q) && !exchanged ==> unchanged(cache)
    ensures !BlankQuery(q) && exchanged && ExchangeError(tokenReply).None? ==>
      cache.accessToken == tokenReply.accessToken
      && cache.tokenExpiry == replyTime + tokenReply.expiresIn * 1000 - ExpiryMarginMs
    ensures !BlankQuery(q) && exchanged && ExchangeError(tokenReply).Some? ==>
      resp == Response(500, SearchFailed) && !searched && unchanged(cache)
    ensures !BlankQuery(q) && (!exchanged || ExchangeError(tokenReply).None?) ==>
      searched && resp == (if searchReply.ok then Response(200, Tracks(FormatTracks(searchReply.items)))
                           else Response(500, SearchFailed))
  {
    if BlankQuery(q) {
      return Response(400, QueryRequired), false, false;
    }
    var token;
    token, exchanged := cache.GetAccessToken(now, replyTime, tokenReply);
    if token.Failure? {
      return Response(500, SearchFailed), exchanged, false;
    }
    searched := true;
    if !searchReply.ok {
      return Response(500, SearchFailed), exchanged, searched;
    }
    resp := Response(200, Tracks(FormatTracks(searchReply.items)));
  }

  /** Two requests in a row: when the first finds no usable token and its
      exchange succeeds, answered at `t1`, a second request before
      `t1 + expiresIn * 1000 - 60000` uses the stored token without a second
      exchange. */
  method TokenReusedAcrossRequests(cache: TokenCache, q1: string, q2: string, t0: int, t1: int,
                                   reply: TokenReply, search1: SearchReply, t2: int,
                                   second: TokenReply, search2: SearchReply)
    returns (firstExchanged: bool, secondExchanged: bool, secondSearched: bool)
    requires !BlankQuery(Some(q1)) && !BlankQuery(Some(q2))
    requires !cache.Serves(t0) && ExchangeError(reply).None?
    requires t2 < t1 + reply.expiresIn * 1000 - ExpiryMarginMs
    modifies cache
    ensures firstExchanged && !secondExchanged && secondSearched
  {
    var resp1, searched1;
    resp1, firstExchanged, searched1 := Get(cache, Some(q1), t0, t1, reply, search1);
    var resp2;
    resp2, secondExchanged, secondSearched := Get(cache, Some(q2), t2, t2, second, search2);
  }
}
