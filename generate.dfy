/**
 * The request handler of the playlist-generation endpoint (`handler` in
 * backend/api/playlist/generate.js): it validates the request, asks the
 * language model for a strategy, runs the catalog searches, looks up the
 * catalog account, creates the playlist, adds the tracks and builds the
 * response.
 *
 * Every external call is abstracted to its outcome, which the environment
 * `Env` supplies. The handler's result pairs the response with the list of
 * external calls it attempted, in order.
 */
module PlaylistGeneration {
  import opened Common
  import opened SearchStrategy
  import opened CatalogSearch

  /** The body fields read by the handler; `None` when a field is absent or `null`. */
  datatype Body = Body(prompt: Option<string>, spotifyAccessToken: Option<string>, userId: Option<string>)

  /** A request; `body` is `None` when no body was parsed and `req.body` is `undefined`. */
  datatype Request = Request(httpMethod: string, body: Option<Body>)

  predicate HasRequiredFields(b: Body)
  {
    Truthy(b.prompt) && Truthy(b.spotifyAccessToken) && Truthy(b.userId)
  }

  /** The request passes the method check and the required-field check. */
  predicate Accepted(req: Request)
  {
    req.httpMethod == "POST" && req.body.Some? && HasRequiredFields(req.body.value)
  }

  /**
   * The model call's outcome: a non-ok status, a reply whose body or
   * `content[0].text` cannot be read (which throws a `TypeError`), or the
   * reply's text.
   */
  datatype ModelReply = ModelNotOk | ModelUnreadable | ModelText(text: string)

  /**
   * The `/v1/me` lookup: a non-ok status, a throw (a rejected `fetch`, or an
   * ok reply whose body is not JSON), or the account's `id`.
   */
  datatype UserLookup = UserNotOk | UserThrew | UserFound(spotifyUserId: string)

  /** The playlist object the catalog returns on creation. */
  datatype Playlist = Playlist(id: string, name: string, url: string)

  /**
   * Playlist creation: a non-ok status with the error body's
   * `error.message` (if any), a throw (a rejected `fetch`, a non-ok reply
   * whose error body is not JSON or is `null`, or an ok reply whose body is
   * not JSON), or the created playlist.
   */
  datatype CreateOutcome =
    | CreateNotOk(status: nat, errorMessage: Option<string>)
    | CreateThrew
    | CreateOk(playlist: Playlist)

  /** Track addition: a non-ok status, a rejected `fetch`, or success. */
  datatype AddOutcome = AddNotOk | AddThrew | AddOk

  /** The outcomes of the external calls; search outcomes are per query position and text. */
  datatype Env = Env(
    model: ModelReply,
    parse: string -> ParseOutcome,
    search: (nat, string) -> SearchOutcome,
    user: UserLookup,
    create: CreateOutcome,
    add: AddOutcome)

  /** An external call the handler attempts. */
  datatype Call =
    | AskModel(prompt: string)
    | SearchCatalog(query: string)
    | GetCurrentUser
    | CreatePlaylist(owner: string, name: string)
    | AddTracks(playlistId: string, uris: seq<string>)

  /** What follows "Failed to create playlist: " in the error message. */
  datatype CreateDetail = SpotifyMessage(message: string) | HttpStatus(code: nat)

  /**
   * The error thrown inside the handler's `try`, caught and reported with
   * status 500. The `...Threw` kinds and `NoRequestBody` carry an error raised
   * by the JavaScript engine or by `fetch`, not by the handler's own `throw`.
   */
  datatype Failure =
    | NoRequestBody
    | ModelApiFailed
    | ModelReplyUnreadable
    | StrategyUnparsable
    | UserInfoFailed
    | UserLookupThrew
    | CreateFailed(detail: CreateDetail)
    | CreateThrewError
    | AddTracksFailed
    | AddTracksThrew

  datatype TrackSummary = TrackSummary(name: string, artist: Option<string>)

  datatype PlaylistSummary = PlaylistSummary(id: string, name: string, url: string, trackCount: nat)

  datatype Response =
    | MethodNotAllowed
    | MissingFields
    | NoTracksFound
    | ServerError(failure: Failure)
    | Generated(playlist: PlaylistSummary, tracks: seq<TrackSummary>)

  datatype Outcome = Outcome(response: Response, calls: seq<Call>)

  function StatusCode(r: Response): int
  {
    match r
    case MethodNotAllowed => 405
    case MissingFields => 400
    case NoTracksFound => 400
    case ServerError(_) => 500
    case Generated(_, _) => 200
  }

  /** The `error` field of an error response. */
  function ErrorText(r: Response): Option<string>
  {
    match r
    case MethodNotAllowed => Some("Method not allowed")
    case MissingFields => Some("Missing required fields")
    case NoTracksFound => Some("No tracks found on Spotify")
    case ServerError(_) => Some("Failed to generate playlist")
    case Generated(_, _) => None
  }

  function DigitChar(d: nat): char
    requires d < 10
  {
    ('0' as int + d) as char
  }

  /** The decimal numeral of `n`, as string interpolation writes a status code. */
  function Decimal(n: nat): string
  {
    if n < 10 then [DigitChar(n)] else Decimal(n / 10) + [DigitChar(n % 10)]
  }

  /**
   * The `message` field of an error response. For a `TypeError` or a
   * `SyntaxError` the message is the JavaScript engine's, not modelled here.
   */
  function MessageText(r: Response): Option<string>
  {
    match r
    case MissingFields => Some("Please provide prompt, spotifyAccessToken, and userId")
    case NoTracksFound => Some("Try a different prompt or be more specific")
    case ServerError(ModelApiFailed) => Some("Claude API failed")
    case ServerError(UserInfoFailed) => Some("Failed to get user info")
    case ServerError(CreateFailed(SpotifyMessage(m))) => Some("Failed to create playlist: " + m)
    case ServerError(CreateFailed(HttpStatus(code))) => Some("Failed to create playlist: " + Decimal(code))
    case ServerError(AddTracksFailed) => Some("Failed to add tracks")
    case _ => None
  }

  /** `errorData.error?.message || status`. */
  function CreateFailureDetail(status: nat, errorMessage: Option<string>): CreateDetail
  {
    if Truthy(errorMessage) then SpotifyMessage(errorMessage.value) else HttpStatus(status)
  }

  function SearchCalls(queries: seq<string>): seq<Call>
  {
    seq(|queries|, i requires 0 <= i < |queries| => SearchCatalog(queries[i]))
  }

  function SearchOutcomes(queries: seq<string>, search: (nat, string) -> SearchOutcome): seq<SearchOutcome>
  {
    seq(|queries|, i requires 0 <= i < |queries| => search(i, queries[i]))
  }

  /** The tracks the search stage returns for the strategy. */
  function Merged(strategy: Strategy, env: Env): seq<Track>
  {
    SearchResult(SearchOutcomes(strategy.queries, env.search))
  }

  function Summaries(tracks: seq<Track>): seq<TrackSummary>
  {
    seq(|tracks|, i requires 0 <= i < |tracks| => TrackSummary(tracks[i].name, tracks[i].artist))
  }

  /** Searching, the empty-result check and publishing, once a strategy is chosen. */
  function Publish(strategy: Strategy, env: Env, before: seq<Call>): Outcome
  {
    var tracks := Merged(strategy, env);
    var searched := before + SearchCalls(strategy.queries);
    if |tracks| == 0 then Outcome(NoTracksFound, searched)
    else
      match env.user
      case UserNotOk => Outcome(ServerError(UserInfoFailed), searched + [GetCurrentUser])
      case UserThrew => Outcome(ServerError(UserLookupThrew), searched + [GetCurrentUser])
      case UserFound(owner) =>
        var created := searched + [GetCurrentUser, CreatePlaylist(owner, strategy.playlistName)];
        match env.create
        case CreateNotOk(status, errorMessage) =>
          Outcome(ServerError(CreateFailed(CreateFailureDetail(status, errorMessage))), created)
        case CreateThrew => Outcome(ServerError(CreateThrewError), created)
        case CreateOk(playlist) =>
          var added := created + [AddTracks(playlist.id, Uris(tracks))];
          match env.add
          case AddNotOk => Outcome(ServerError(AddTracksFailed), added)
          case AddThrew => Outcome(ServerError(AddTracksThrew), added)
          case AddOk =>
            Outcome(Generated(PlaylistSummary(playlist.id, playlist.name, playlist.url, |tracks|), Summaries(tracks)),
                    added)
  }

  function Handle(req: Request, env: Env): Outcome
  {
    if req.httpMethod != "POST" then Outcome(MethodNotAllowed, [])
    else if req.body.None? then Outcome(ServerError(NoRequestBody), [])
    else if !HasRequiredFields(req.body.value) then Outcome(MissingFields, [])
    else
      var asked := [AskModel(req.body.value.prompt.value)];
      match env.model
      case ModelNotOk => Outcome(ServerError(ModelApiFailed), asked)
      case ModelUnreadable => Outcome(ServerError(ModelReplyUnreadable), asked)
      case ModelText(text) =>
        match StrategyFromReply(text, env.parse)
        case ParseFailed => Outcome(ServerError(StrategyUnparsable), asked)
        case Chosen(strategy) => Publish(strategy, env, asked)
  }

  // ----- Properties of the handler -----

  /**
   * A request that is not a POST gets 405, a POST missing a truthy `prompt`,
   * `spotifyAccessToken` or `userId` gets 400, a POST with no parsed body
   * fails in its destructuring with 500, and none of these makes an external
   * call. A request passing both checks asks the model first, with its prompt.
   */
  lemma RequestChecks(req: Request, env: Env)
    ensures req.httpMethod != "POST" ==> Handle(req, env) == Outcome(MethodNotAllowed, [])
    ensures req.httpMethod == "POST" && req.body.None? ==>
      Handle(req, env) == Outcome(ServerError(NoRequestBody), []) && StatusCode(Handle(req, env).response) == 500
    ensures req.httpMethod == "POST" && req.body.Some? && !HasRequiredFields(req.body.value) ==>
      Handle(req, env) == Outcome(MissingFields, []) && StatusCode(Handle(req, env).response) == 400
    ensures StatusCode(Handle(req, env).response) == 405 <==> req.httpMethod != "POST"
    ensures Handle(req, env).calls == [] <==> !Accepted(req)
    ensures Accepted(req) ==> Handle(req, env).calls[0] == AskModel(req.body.value.prompt.value)
  {
    if Accepted(req) && env.model.ModelText? && StrategyFromReply(env.model.text, env.parse).Chosen? {
      PublishTrace(StrategyFromReply(env.model.text, env.parse).strategy, env, [AskModel(req.body.value.prompt.value)]);
    }
  }

  /**
   * The calls made once a strategy is chosen: one search per query, in query
   * order, then lookups and publishing calls only as far as the pipeline got.
   */
  lemma PublishTrace(strategy: Strategy, env: Env, before: seq<Call>)
    ensures var o, tracks := Publish(strategy, env, before), Merged(strategy, env);
      var searched := before + SearchCalls(strategy.queries);
      searched <= o.calls && |o.calls| <= |searched| + 3 &&
      (o.response == NoTracksFound <==> o.calls == searched) &&
      (o.response == NoTracksFound <==> |tracks| == 0) &&
      (forall k :: |searched| <= k < |o.calls| ==> !o.calls[k].SearchCatalog? && !o.calls[k].AskModel?) &&
      (|o.calls| > |searched| ==> o.calls[|searched|] == GetCurrentUser) &&
      (|o.calls| > |searched| + 1 ==> o.calls[|searched| + 1].CreatePlaylist?) &&
      (|o.calls| > |searched| + 2 ==> o.calls[|searched| + 2].AddTracks?)
  {
  }

  /** An empty merged list yields the 400 "No tracks found" response and no account or playlist call. */
  lemma NoTracksMeansNoPlaylist(req: Request, env: Env)
    requires Handle(req, env).response == NoTracksFound
    ensures StatusCode(Handle(req, env).response) == 400
    ensures forall c :: c in Handle(req, env).calls ==> c.AskModel? || c.SearchCatalog?
  {
    if env.model.ModelText? && StrategyFromReply(env.model.text, env.parse).Chosen? {
      var strategy := StrategyFromReply(env.model.text, env.parse).strategy;
      var asked := [AskModel(req.body.value.prompt.value)];
      PublishTrace(strategy, env, asked);
      assert Handle(req, env).calls == asked + SearchCalls(strategy.queries);
    }
  }

  /**
   * Tracks are added only after the account lookup and the playlist creation
   * both succeeded: the add call is the last call, preceded by the lookup and
   * by the creation of the very playlist it adds to, owned by the account found.
   */
  lemma AddOnlyAfterUserAndCreate(req: Request, env: Env, k: nat)
    requires k < |Handle(req, env).calls| && Handle(req, env).calls[k].AddTracks?
    ensures var calls := Handle(req, env).calls;
      k == |calls| - 1 && k >= 2 &&
      env.user.UserFound? && env.create.CreateOk? &&
      calls[k - 2] == GetCurrentUser &&
      calls[k - 1].CreatePlaylist? && calls[k - 1].owner == env.user.spotifyUserId &&
      calls[k].playlistId == env.create.playlist.id
  {
    if env.model.ModelText? && StrategyFromReply(env.model.text, env.parse).Chosen? {
      var strategy := StrategyFromReply(env.model.text, env.parse).strategy;
      var asked := [AskModel(req.body.value.prompt.value)];
      PublishTrace(strategy, env, asked);
      var searched := asked + SearchCalls(strategy.queries);
      assert forall m :: 0 <= m < |searched| ==> searched[m].AskModel? || searched[m].SearchCatalog?;
    }
  }

  /**
   * A successful request: the proposed name, the merged tracks' URIs in order
   * (pairwise distinct) and the created playlist's fields end up where the
   * source puts them, and `trackCount` is the merged length, between 1 and 20.
   * It succeeds exactly when tracks were found and every publishing call
   * succeeded.
   */
  lemma SuccessPayload(req: Request, env: Env, text: string, strategy: Strategy)
    requires Accepted(req)
    requires env.model == ModelText(text) && StrategyFromReply(text, env.parse) == Chosen(strategy)
    ensures var o, tracks := Handle(req, env), Merged(strategy, env);
      (o.response.Generated? <==>
         |tracks| > 0 && env.user.UserFound? && env.create.CreateOk? && env.add.AddOk?) &&
      (o.response.Generated? ==>
         var pl := env.create.playlist;
         StatusCode(o.response) == 200 &&
         o.response.playlist == PlaylistSummary(pl.id, pl.name, pl.url, |tracks|) &&
         1 <= o.response.playlist.trackCount <= TotalLimit &&
         |o.response.tracks| == |tracks| &&
         (forall i :: 0 <= i < |tracks| ==>
            o.response.tracks[i] == TrackSummary(tracks[i].name, tracks[i].artist)) &&
         o.calls[|o.calls| - 2] == CreatePlaylist(env.user.spotifyUserId, strategy.playlistName) &&
         o.calls[|o.calls| - 1] == AddTracks(pl.id, Uris(tracks)) &&
         (forall i, j :: 0 <= i < j < |tracks| ==> Uris(tracks)[i] != Uris(tracks)[j]))
  {
    SearchResultIsCappedPrefix(SearchOutcomes(strategy.queries, env.search));
  }

  /**
   * Every failure thrown inside the handler's `try` block is reported with
   * status 500, and a 500 comes from nothing else: a failed or unreadable
   * model reply, a strategy the parser rejects, or, once tracks were found, a
   * failed account lookup, playlist creation or track addition.
   */
  lemma ThrownFailuresGive500(req: Request, env: Env)
    requires Accepted(req)
    ensures StatusCode(Handle(req, env).response) == 500 <==> Handle(req, env).response.ServerError?
    ensures !env.model.ModelText? ==> StatusCode(Handle(req, env).response) == 500
    ensures env.model.ModelText? && StrategyFromReply(env.model.text, env.parse).ParseFailed? ==>
      Handle(req, env).response == ServerError(StrategyUnparsable)
    ensures env.model.ModelText? && StrategyFromReply(env.model.text, env.parse).Chosen? &&
            |Merged(StrategyFromReply(env.model.text, env.parse).strategy, env)| > 0 &&
            !(env.user.UserFound? && env.create.CreateOk? && env.add.AddOk?) ==>
      StatusCode(Handle(req, env).response) == 500
    ensures Handle(req, env).response.ServerError? ==>
      !env.model.ModelText? ||
      StrategyFromReply(env.model.text, env.parse).ParseFailed? ||
      (StrategyFromReply(env.model.text, env.parse).Chosen? &&
       |Merged(StrategyFromReply(env.model.text, env.parse).strategy, env)| > 0 &&
       !(env.user.UserFound? && env.create.CreateOk? && env.add.AddOk?))
  {
  }
}
