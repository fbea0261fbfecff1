# tunescout playlist generation — a Dafny model

This project models the core of tunescout, a service that turns a free-text
mood description into a private playlist on Spotify. It covers two parts.

- **The playlist-generation endpoint** (`backend/api/playlist/generate.js`).
  - The request must be a POST and carry a truthy `prompt`, `spotifyAccessToken` and `userId`.
  - The language model is asked for a strategy: a playlist name plus search queries.
  - Its reply is cut from the first `{` to the last `}` and parsed, and falsy fields get defaults.
  - Each query is searched on the catalog. The first five items of each reply are merged into one list with no repeated track URI, and the list is cut to twenty tracks.
  - An empty list is reported as "No tracks found on Spotify". Otherwise the account is looked up, the playlist created and the tracks added.
  - Any failure thrown along the way is reported with status 500.
- **The frontend's authentication store** (`frontend/src/store/authStore.js`): three fields and three transitions, applied with zustand's shallow merge.

Modules:

- `Common` (common.dfy): `Option` and `Min`.
- `CatalogSearch` (search.dfy): the merge.
  - `SearchWithQueries` is the imperative loop, with `foundTracks` and the `seenUris` set. It is proved equal to the specification function `SearchResult`, defined as a left fold (`Accumulate`) of per-query scans (`Absorb`).
  - `FirstOccurrences` is an independent reference, "keep an item iff no earlier candidate has its URI". The lemmas about it show that the fold agrees with it.
- `SearchStrategy` (strategy.dfy): the brace-span rule and the defaults.
- `PlaylistGeneration` (generate.js's `handler`, in generate.dfy): `Handle` maps a request and the outcomes of the external calls to the response and to the ordered list of external calls attempted.
- `AuthStore` (auth_store.dfy): `Store` is a class with the three fields and a ghost history of transitions. Its methods are tied to the pure shallow-merge `Step`, and the lemmas over replayed histories state which states are reachable.

The search asks for `limit=10` results per query, keeps five items per query and twenty tracks in all.

External calls are inputs, not behaviour.

- The model reply is `ModelNotOk`, `ModelUnreadable` or `ModelText(text)`.
- `JSON.parse` is a parameter `parse: string -> ParseOutcome`. A `SyntaxError` escapes to the handler's `catch` and becomes a 500.
- Each query's search is `search(position, query)`, which gives `Failed`, `OkNoItems` or `Ok(items)`.
- The account lookup, playlist creation and track addition each have an ok outcome, a not-ok outcome and a throw (a rejected `fetch` or a body that is not JSON). A throw also gives 500, but its message comes from the JavaScript engine.
- A request whose body was never parsed (`req.body` is `undefined`) fails in the destructuring inside the `try`, which gives 500.

## Model

| member | source | states |
|---|---|---|
| CatalogSearch.SearchWithQueries | backend/api/playlist/generate.js:187-229 | the loop over queries and over each reply's first five items, with `seenUris` and `foundTracks`, returns exactly the specified merge cut to 20 tracks |
| CatalogSearch.AbsorbKeepsDistinct | backend/api/playlist/generate.js:206-217 | scanning one query's slice never adds a URI already on the list, nor the same URI twice within the slice |
| CatalogSearch.AccumulateDistinct | backend/api/playlist/generate.js:188-216 | the merged list's URIs are pairwise distinct, for any sequence of overlapping replies |
| CatalogSearch.AbsorbAppends | backend/api/playlist/generate.js:206-217 | a scan keeps the list so far as a prefix, adds at most one track per scanned item, and every added track is built from an item of the slice whose URI was new |
| CatalogSearch.QueryStep | backend/api/playlist/generate.js:194-222 | one query adds at most 5 tracks, each from its reply's first 5 positions with an unseen URI; a failed query or one without `tracks.items` adds nothing and the loop goes on |
| CatalogSearch.EarlierQueriesArePrefix | backend/api/playlist/generate.js:191-225 | the tracks found by earlier queries stay, in place and in order, whatever later queries return: a later duplicate never displaces an earlier track |
| CatalogSearch.AbsorbMatchesReference | backend/api/playlist/generate.js:206-217 | with every item carrying `artists`, a scan extends the first-occurrence list of the candidates seen so far by exactly the slice's new first occurrences |
| CatalogSearch.AccumulateMatchesReference | backend/api/playlist/generate.js:191-217 | with every item carrying `artists`, the merged list is the candidates that are first with their URI, in query-then-item order, and every candidate's URI is on it |
| CatalogSearch.SearchResultIsCappedPrefix | backend/api/playlist/generate.js:227-228 | the result has at most 20 tracks, is the first min(20, n) of the merged list and has distinct URIs |
| SearchStrategy.IndexOf | backend/api/playlist/generate.js:171 | the first position holding the character, or none when no position holds it |
| SearchStrategy.LastIndexOf | backend/api/playlist/generate.js:171 | the last position holding the character, or none when no position holds it |
| SearchStrategy.BraceSpan | backend/api/playlist/generate.js:171-172 | `/\{[\s\S]*\}/` matches exactly when some `{` is followed by a `}`; the match is the leftmost and, from there, the longest |
| SearchStrategy.SpanFromFirstOpenToLastClose | backend/api/playlist/generate.js:171-173 | when a `{` precedes a `}`, the text handed to the parser runs from the first `{` to the last `}` and encloses every such pair |
| SearchStrategy.NoBraceSpanGivesDefault | backend/api/playlist/generate.js:171-183 | a reply with no `}` after a `{` yields the name 'AI Playlist' and the queries "sad songs", "breakup songs", without parsing |
| SearchStrategy.WithDefaults | backend/api/playlist/generate.js:174-177 | a truthy `playlistName` is kept and a falsy one becomes 'AI Playlist'; present `queries` are kept (an empty array too, being truthy) and falsy ones become the two default queries; the name is never empty |
| SearchStrategy.StrategyOutcomeCases | backend/api/playlist/generate.js:170-183 | no strategy comes out exactly when the span exists and the parser rejects it; a chosen strategy has a non-empty name; no span means the defaults |
| PlaylistGeneration.RequestChecks | backend/api/playlist/generate.js:5-17 | a non-POST gets 405, a POST with no parsed body gets 500, a POST without truthy `prompt`, `spotifyAccessToken` and `userId` gets 400, none of these makes an external call, and a valid request asks the model with its prompt first |
| PlaylistGeneration.PublishTrace | backend/api/playlist/generate.js:28-99 | after the strategy, one search per query in order, then at most the lookup, the creation and the add, in that order; the empty-result response comes exactly when the merged list is empty and stops all later calls |
| PlaylistGeneration.NoTracksMeansNoPlaylist | backend/api/playlist/generate.js:34-39 | the 'No tracks found on Spotify' response has status 400 and follows only model and search calls, so no playlist is created |
| PlaylistGeneration.AddOnlyAfterUserAndCreate | backend/api/playlist/generate.js:44-99 | tracks are added only as the last call, right after a successful account lookup and the creation of the same playlist, owned by that account |
| PlaylistGeneration.SuccessPayload | backend/api/playlist/generate.js:85-115 | the request succeeds exactly when tracks were found and lookup, creation and addition all succeeded; then the submitted URIs are the merged tracks' in order and distinct, the playlist is created under the strategy's name, and `trackCount` is the merged length (1 to 20) with one name/artist pair per track |
| PlaylistGeneration.ThrownFailuresGive500 | backend/api/playlist/generate.js:117-123 | for an accepted request, status 500 comes exactly with a caught failure, in both directions: a failed or unreadable model reply, a strategy span the parser rejects, or, after tracks were found, a failed lookup, creation or addition |
| AuthStore.Transitions | frontend/src/store/authStore.js:8-20 | `setUser(u)` gives user u, authenticated, not loading; `logout` gives null, not authenticated, not loading; `setLoading(b)` changes only `isLoading` |
| AuthStore.LogoutIdempotent | frontend/src/store/authStore.js:14-18 | `logout` reaches the same state from any prior state, and a second `logout` changes nothing |
| AuthStore.SessionFollowsLastSessionAction | frontend/src/store/authStore.js:8-20 | after any transitions, `isAuthenticated` holds exactly when the most recent `setUser`/`logout` was `setUser`, and `user` is that call's argument; `setLoading` never changes them |
| AuthStore.LoadingFollowsLastAction | frontend/src/store/authStore.js:4-20 | `isLoading` is initially true and afterwards is what the most recent transition set |
| AuthStore.Store.constructor | frontend/src/store/authStore.js:4-6 | the initial state is user null, not authenticated, loading |
| AuthStore.Store.SetUser | frontend/src/store/authStore.js:8-12 | sets user, `isAuthenticated` true and `isLoading` false, and records the transition |
| AuthStore.Store.Logout | frontend/src/store/authStore.js:14-18 | sets user null, `isAuthenticated` false and `isLoading` false, and records the transition |
| AuthStore.Store.SetLoading | frontend/src/store/authStore.js:20 | sets only `isLoading`; `user` and `isAuthenticated` keep their values (shallow merge) |

## Left out

- Network I/O: the HTTP requests to the language model and to Spotify, their headers, the bearer token and the fixed request fields (`description: 'Created by AI'`, `public: false`, the search URL with `limit=10`). Only the outcomes are inputs. The `Call` records keep only the prompt, the query, the owner and name, and the playlist id and URIs.
- The 100 ms pause between queries: it is throttling and has no effect on the result.
- All `console` logging.
- `JSON.parse` and `encodeURIComponent`: library calls. The parser is a parameter.
- Field values of a kind other than the ones modelled. A non-string truthy `playlistName` is not modelled. Non-array truthy `queries` are not modelled either: a string would be iterated character by character, and a number would throw.
- A created playlist without `external_urls`: reading its URL would throw after the tracks were added. The model assumes the field is present.
- `null` entries in `tracks.items`: reading `track.uri` would throw and end that query's scan.
- `userId` in the request body is only checked for presence: the playlist owner comes from the account lookup, and the model reflects this.
- The text of engine-generated error messages (`TypeError`, `SyntaxError`): `MessageText` gives none for them.
- The store's subscription and re-rendering mechanics (zustand, React). The `user` value is a type parameter.
- The OAuth login and callback, the session middleware, the `/me` endpoint, the Express wiring, the axios wrappers and every React component. These are plumbing around the modelled core.
