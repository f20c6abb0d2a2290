/**
 The route handlers of the server: `/callback`, `/top-artists`,
 `/top-tracks` and `/top-genres`.

 Each handler first checks its credential (the `code` query parameter for
 `/callback`, the `access_token` cookie for the others) with JavaScript
 truthiness, so an absent or empty value is rejected with 400 before any
 upstream request. Otherwise it makes one upstream request; the outcome of
 that request is an input here (`Outcome`), not I/O. A rejected request,
 or an exception thrown while reading a successful response, ends in the
 route's fixed 500 message.

 `Handle` returns both the upstream request it issues (if any) and the
 response it sends, so that "no upstream request" can be stated.
 */
module Server {

  import opened Optional
  import opened JsonValues
  import Genres

  /** Process-wide client configuration, read once at start-up. */
  datatype Config = Config(clientId: string, clientSecret: string, redirectUri: string)

  datatype Route = Callback | TopArtists | TopTracks | TopGenres

  /** What a handler reads from an incoming request: the route, the `code`
      query parameter and the `access_token` cookie. */
  datatype Request = Request(route: Route, code: Option<string>, accessToken: Option<string>)

  /** How the upstream request ended: resolved with a parsed body, or
      rejected (a non-2xx status or a network error). */
  datatype Outcome = Fetched(data: Json) | Failed

  /** The upstream request a handler issues. */
  datatype Call =
    | PostToken(url: string, code: string, redirectUri: string, grantType: string,
                clientId: string, clientSecret: string)
    | GetWithBearer(url: string, accessToken: string)

  /** A cookie set on the response; `value` is `None` when the token
      response carried no `access_token` and JavaScript passed `undefined`. */
  datatype Cookie = Cookie(name: string, value: Option<Json>, httpOnly: bool, secure: bool)

  datatype Response =
    | Reply(status: int, body: Json)
    | Redirect(status: int, location: string, cookie: Cookie)

  /** The upstream request issued while handling one request, and the
      response sent. */
  datatype Exchange = Exchange(call: Option<Call>, response: Response)

  const TokenUrl: string := "https://accounts.spotify.com/api/token"
  const TopArtistsUrl: string := "https://api.spotify.com/v1/me/top/artists"
  const TopTracksUrl: string := "https://api.spotify.com/v1/me/top/tracks"
  const GrantType: string := "authorization_code"
  const AfterLogin: string := "/top-artists"

  const NoCodeMessage: string := "No authorization code provided"
  const NoTokenMessage: string := "No access token provided"

  /** JavaScript truthiness of an optional string: absent and empty are
      both false. */
  predicate Truthy(v: Option<string>) {
    v.Some? && v.value != ""
  }

  /** The value the route's guard tests. */
  function Credential(req: Request): Option<string> {
    if req.route == Callback then req.code else req.accessToken
  }

  /** The 400 message of the route's guard. */
  function GuardMessage(route: Route): string {
    if route == Callback then NoCodeMessage else NoTokenMessage
  }

  /** The fixed 500 message of the route's `catch` block. */
  function FailureMessage(route: Route): string {
    match route
    case Callback => "Authentication failed or failed to fetch data"
    case TopArtists => "Failed to fetch top artists"
    case TopTracks => "Failed to fetch top tracks"
    case TopGenres => "Failed to fetch top genres"
  }

  /** The URL of the route's upstream request: `/callback` posts to the
      token endpoint, and `/top-genres` reads the same artist list as
      `/top-artists`. */
  function Endpoint(route: Route): string {
    match route
    case Callback => TokenUrl
    case TopArtists => TopArtistsUrl
    case TopTracks => TopTracksUrl
    case TopGenres => TopArtistsUrl
  }

  /** `artist.genres` when it is an array; `None` where reading it or
      calling `forEach` on it throws. */
  function GenresOf(artist: Json): Option<seq<Json>> {
    match Field(artist, "genres")
    case Some(JArr(tags)) => Some(tags)
    case _ => None
  }

  /** The tag list of every artist, or `None` as soon as one artist has no
      genre array (the scan throws there and its partial set is dropped). */
  function GenreLists(artists: seq<Json>): (lists: Option<seq<seq<Json>>>)
    ensures lists.Some? <==> forall i :: 0 <= i < |artists| ==> GenresOf(artists[i]).Some?
    ensures lists.Some? ==> |lists.value| == |artists|
    ensures lists.Some? ==> forall i :: 0 <= i < |artists| ==> GenresOf(artists[i]) == Some(lists.value[i])
  {
    if artists == [] then Some([])
    else
      match GenresOf(artists[0])
      case None => None
      case Some(tags) =>
        match GenreLists(artists[1..])
        case None => None
        case Some(rest) => Some([tags] + rest)
  }

  /** The tag lists of `response.data.items`; `None` where `items` is not
      an array or an artist has no genre array, i.e. where the scan throws. */
  function ArtistGenres(data: Json): Option<seq<seq<Json>>> {
    match Field(data, "items")
    case Some(JArr(artists)) => GenreLists(artists)
    case _ => None
  }

  /** The `/top-genres` reply body `{ genres: [...] }`. */
  function GenresBody(genres: seq<Json>): Json {
    JObj(map["genres" := JArr(genres)])
  }

  /** The upstream request the route issues, if its guard lets it through. */
  function UpstreamCall(cfg: Config, req: Request): Option<Call> {
    if !Truthy(Credential(req)) then None
    else if req.route == Callback then
      Some(PostToken(Endpoint(req.route), req.code.value, cfg.redirectUri, GrantType, cfg.clientId, cfg.clientSecret))
    else
      Some(GetWithBearer(Endpoint(req.route), req.accessToken.value))
  }

  /** The rest of the `try` block once the upstream request has resolved
      with `data`. */
  function Respond(route: Route, data: Json): Response {
    match route
    case Callback =>
      // Reading the token field throws only on a null body.
      if data == JNull then Reply(500, ErrorBody(FailureMessage(route)))
      else Redirect(302, AfterLogin, Cookie("access_token", Field(data, "access_token"), true, false))
    case TopArtists => Reply(200, data)
    case TopTracks => Reply(200, data)
    case TopGenres =>
      match ArtistGenres(data)
      case None => Reply(500, ErrorBody(FailureMessage(route)))
      case Some(lists) => Reply(200, GenresBody(Genres.Collect(lists)))
  }

  /** One request, given how its upstream request (if issued) ends. */
  function Handle(cfg: Config, req: Request, upstream: Outcome): (x: Exchange)
    // The guard: nothing is fetched exactly when the credential is falsy,
    // and then the reply is 400 with the route's message.
    ensures x.call.None? <==> !Truthy(Credential(req))
    ensures x.call.None? ==> x.response == Reply(400, ErrorBody(GuardMessage(req.route)))
    // The upstream request carries the credential.
    ensures Truthy(req.code) && req.route == Callback ==>
      x.call == Some(PostToken(TokenUrl, req.code.value, cfg.redirectUri, "authorization_code",
                               cfg.clientId, cfg.clientSecret))
    ensures Truthy(req.accessToken) && req.route != Callback ==>
      x.call == Some(GetWithBearer(Endpoint(req.route), req.accessToken.value))
    // A rejected upstream request ends in the route's fixed 500 message.
    ensures x.call.Some? && upstream.Failed? ==>
      x.response == Reply(500, ErrorBody(FailureMessage(req.route)))
    // Every 500, whether the request was rejected or reading its body
    // threw, carries that same message: both end in the one `catch`.
    ensures x.response.Reply? && x.response.status == 500 ==>
      x.response.body == ErrorBody(FailureMessage(req.route))
    // The two proxy routes pass the upstream body through unchanged.
    ensures x.call.Some? && upstream.Fetched? && req.route in {TopArtists, TopTracks} ==>
      x.response == Reply(200, upstream.data)
  {
    match UpstreamCall(cfg, req)
    case None => Exchange(None, Reply(400, ErrorBody(GuardMessage(req.route))))
    case Some(call) =>
      match upstream
      case Failed => Exchange(Some(call), Reply(500, ErrorBody(FailureMessage(req.route))))
      case Fetched(data) => Exchange(Some(call), Respond(req.route, data))
  }

  /** The upstream body makes the `try` block throw after a successful
      request. */
  predicate Unreadable(route: Route, data: Json) {
    match route
    case Callback => data == JNull
    case TopGenres => ArtistGenres(data).None?
    case _ => false
  }

  /** Every response falls in exactly one class, decided by the credential
      and the upstream outcome alone. */
  lemma StatusClassification(cfg: Config, req: Request, upstream: Outcome)
    ensures var r := Handle(cfg, req, upstream).response;
      && (r.Reply? && r.status == 400 <==> !Truthy(Credential(req)))
      && (r.Reply? && r.status == 500 <==>
            Truthy(Credential(req)) && (upstream.Failed? || Unreadable(req.route, upstream.data)))
      && (r.Redirect? <==>
            req.route == Callback && Truthy(req.code) && upstream.Fetched? && upstream.data != JNull)
      && (r.Reply? && r.status == 200 <==>
            req.route != Callback && Truthy(req.accessToken) && upstream.Fetched?
            && !Unreadable(req.route, upstream.data))
      && (r.Reply? && r.status != 200 ==> r.body.JObj? && r.body.fields.Keys == {"error"})
      && (r.Reply? && r.status == 400 ==> r.body == ErrorBody(GuardMessage(req.route)))
      && (r.Reply? && r.status == 500 ==> r.body == ErrorBody(FailureMessage(req.route)))
  {
  }

  /** Without a credential the upstream outcome cannot influence anything:
      no request was made. */
  lemma NoCredentialNoUpstream(cfg: Config, req: Request, o1: Outcome, o2: Outcome)
    requires !Truthy(Credential(req))
    ensures Handle(cfg, req, o1) == Handle(cfg, req, o2)
    ensures Handle(cfg, req, o1).call == None
  {
  }

  /** A successful `/callback` stores the token response's `access_token`
      in an http-only, non-secure cookie and redirects to `/top-artists`,
      whether or not the request already carries an `access_token` cookie. */
  lemma CallbackSetsCookie(cfg: Config, req: Request, data: Json)
    requires req.route == Callback && Truthy(req.code) && data != JNull
    ensures var x := Handle(cfg, req, Fetched(data));
      && x.response.Redirect?
      && x.response.status == 302
      && x.response.location == "/top-artists"
      && x.response.cookie == Cookie("access_token", Field(data, "access_token"), true, false)
  {
  }

  /** The genre scan fails exactly when `items` is not an array or some
      artist's `genres` is not an array; otherwise it yields one tag list
      per artist, in order. */
  lemma ArtistGenresDefined(data: Json)
    ensures ArtistGenres(data).Some? <==>
      && data.JObj? && "items" in data.fields && data.fields["items"].JArr?
      && forall a :: a in data.fields["items"].elems ==> GenresOf(a).Some?
    ensures ArtistGenres(data).Some? ==>
      var artists := data.fields["items"].elems;
      && |ArtistGenres(data).value| == |artists|
      && forall i :: 0 <= i < |artists| ==> GenresOf(artists[i]) == Some(ArtistGenres(data).value[i])
  {
  }

  /** End to end: a 200 reply of `/top-genres` is `{ genres: g }` where `g`
      lists every tag of the upstream artists exactly once, in the order the
      tags are first met scanning artists and their tags in order. */
  lemma TopGenresReply(cfg: Config, req: Request, data: Json, lists: seq<seq<Json>>)
    requires req.route == TopGenres && Truthy(req.accessToken)
    requires ArtistGenres(data) == Some(lists)
    ensures var r := Handle(cfg, req, Fetched(data)).response;
      && r.Reply? && r.status == 200
      && r.body.JObj? && r.body.fields.Keys == {"genres"} && r.body.fields["genres"].JArr?
      && Genres.FirstSeenOrder(Genres.Flatten(lists), r.body.fields["genres"].elems)
  {
    var g := Genres.Collect(lists);
    assert Handle(cfg, req, Fetched(data)).response == Reply(200, GenresBody(g));
    Genres.CollectIsFirstSeenOrder(lists, g);
  }
}
