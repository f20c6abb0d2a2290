# stats_fest server: genre list and route decisions

This project models the request handling of the stats_fest Express server
(`server.js`), which proxies a user's listening statistics from the
Spotify Web API.

The model has two parts:

- **The genre list of `/top-genres`** (module `Genres`). The handler scans
  the `items` of the upstream top-artists page artist by artist, and each
  artist's `genres` tag by tag. It adds every tag to a JavaScript `Set` and
  replies with `Array.from` of that set. The model represents the set as the
  sequence of its members in insertion order. `Add` is `Set.add`,
  `AddAll` is one `forEach`, and `Collect` is the whole scan. `CollectGenres`
  is the same scan as loops, with a membership set beside the ordered
  members, and is proved equal to `Collect`.
  The proved properties are:
  - the reply has no duplicates;
  - it holds exactly the tags some artist lists;
  - it is no longer than the number of scanned tags;
  - it is in first-seen order. The predicate `FirstSeenOrder` defines this
    order declaratively, and `CollectIsFirstSeenOrder` shows it describes the
    reply and nothing else;
  - the reply for a prefix of the artist list is a prefix of the full reply;
  - an artist without genres changes nothing, and no artists give `[]`.
- **The route decisions** (module `Server`). These cover `/callback`,
  `/top-artists`, `/top-tracks` and `/top-genres`. `Handle` maps a request
  and the outcome of the upstream request to the upstream request actually
  issued (if any) and the response. The outcome is `Fetched(data)` or
  `Failed`. It is an input, not I/O. The guards use JavaScript truthiness, so
  an absent or empty `code` or `access_token` gives 400 and no upstream
  request. A rejected upstream request gives the route's fixed 500 message.
  An exception thrown while reading a successful response also gives 500.
  That happens on a `null` token response, and on an artist page whose
  `items`, or some artist's `genres`, is not an array.

JSON bodies are the `Json` datatype of module `JsonValues`. An object is a
map from key to value.

Behaviour of `server.js` that the model keeps:

- a falsy credential gives 400;
- `/callback` is a GET that reads `code` from the query string. On success
  it sets the `access_token` cookie and redirects to `/top-artists`;
- `/top-genres` replies with the de-duplicated genre tags in first-seen
  order, with no counts and no cut to a fixed length;
- no handler refreshes a token, retries a request, or clears a cookie.

## Model

| member | source | states |
|---|---|---|
| Genres.Flatten | server.js:119-120 | the scan visits exactly the tags some artist lists, and as many as all artists list together |
| Genres.Add | server.js:120 | `Set.add` keeps earlier members in place, adds the tag at most once at the end, and preserves duplicate-freedom |
| Genres.AddAll | server.js:120 | adding a tag list only extends the set, its members are the old members plus the added tags, and it stays duplicate free |
| Genres.Collect | server.js:118-123 | the `genres` reply has no duplicate, holds only tags some artist lists (soundness), holds every such tag (completeness), and is no longer than the total tag count |
| Genres.AddTags | server.js:120 | the inner `forEach` loop, with a membership set beside the ordered members, computes `AddAll` and keeps set and list in agreement |
| Genres.CollectGenres | server.js:118-123 | the nested loop over artists and their tags produces exactly the `Collect` reply |
| Genres.FlattenAppend | server.js:119 | scanning two artist lists in turn visits the first list's tags and then the second's |
| Genres.AddAllAppend | server.js:120 | adding a concatenation of tags is adding the first part and then the second |
| Genres.CollectSnoc | server.js:119-120 | one more artist adds its tags, in order, to the set built so far |
| Genres.PrefixMonotone | server.js:118-123 | the reply for the first k artists is a prefix of the reply for all of them |
| Genres.EmptyArtistChangesNothing | server.js:119-121 | inserting an artist with an empty `genres` list anywhere leaves the reply unchanged |
| Genres.NoArtistsNoGenres | server.js:118-123 | an empty `items` list gives an empty `genres` reply |
| Genres.AddAllFirstSeen | server.js:118-123 | the set read back by `Array.from` lists the scanned tags without repeats, ordered by first occurrence in the scan |
| Genres.FirstSeenOrderUnique | server.js:118-123 | any duplicate-free list of exactly the scanned tags in first-occurrence order is the reply |
| Genres.CollectIsFirstSeenOrder | server.js:118-123 | a list is the reply for an artist list if and only if it is the first-seen ordering of that list's scan |
| Genres.PopRockExample | server.js:118-123 | artists with `["pop","rock"]` and `["pop"]` give `["pop","rock"]` |
| Server.GenreLists | server.js:119-120 | the per-artist scan succeeds exactly when every artist has a `genres` array, and then yields each artist's tags in artist order |
| Server.ArtistGenresDefined | server.js:118-121 | reading the artist page fails exactly when `items` is not an array or some artist's `genres` is not, and otherwise yields one tag list per artist |
| Server.Handle | server.js:33-128 | no upstream request and a 400 with the route's message exactly when the credential is falsy; the request carries the code or bearer token; a rejected request gives the route's fixed 500, and every 500 (also one thrown while reading a successful body) carries that message; `/top-artists` and `/top-tracks` pass the upstream body through unchanged |
| Server.StatusClassification | server.js:33-128 | 400 exactly when the credential is falsy; 500 exactly when the request failed or its body could not be read; a redirect exactly for a successful `/callback`; 200 otherwise; every non-200 reply is an `{error}` object, with the route's guard message for a 400 and its fixed failure message for a 500 |
| Server.NoCredentialNoUpstream | server.js:33-128 | without a credential no upstream request is made and the response does not depend on any upstream outcome |
| Server.CallbackSetsCookie | server.js:33-58 | a successful code exchange, whatever cookie the request already carries, sets an http-only, non-secure `access_token` cookie from the token response and redirects to `/top-artists` with 302 |
| Server.TopGenresReply | server.js:106-123 | for any `/top-genres` request with a truthy token, a readable artist page gives 200 with a `{genres}` object whose list is the first-seen ordering of the artists' tags |

## Left out

- Express set-up, the static `/` route, cookie parsing and `app.listen` are framework plumbing.
- `/login` is not modelled. It only builds the authorization URL with the
  library query-string encoder and redirects to it.
- The Basic-auth header of the token request is not modelled. `Server.Call`
  carries the client id and secret instead of their base64 encoding.
- Network I/O is not modelled. Each upstream request is represented only by
  its outcome, an input to `Server.Handle`. `console.error` logging is not
  modelled.
- Express's serialization of a cookie value is not modelled. The cookie holds
  the token response's `access_token` value, or `None` where JavaScript
  passes `undefined`.
- Query parameters and cookies are modelled as strings. The array and object
  values that query-string parsing or `j:`-prefixed JSON cookies can produce
  are not modelled.
- Genres.Collect: tags are compared by value. A JavaScript `Set` compares
  object and array tags by reference, so the source keeps two structurally
  equal object tags while the model keeps one. The upstream API sends only
  strings.
- JSON numbers are exact decimals (`real`), not IEEE doubles.
- JSON strings are sequences of Unicode scalar values. A JavaScript string
  can hold a lone surrogate, written as a `\u` escape, and a `Set` compares
  strings by UTF-16 code units; `JStr` cannot represent such a string.
- The `time_range` query parameter is not modelled, because the server ignores it.
- `/check-auth`, `/upload`, `/recent-streams` and `/user-profile` are not
  modelled. The front end calls them, but `server.js` does not define them.
- Token refresh is not modelled: neither `server.js` nor the front end
  defines or calls a refresh route.
- config.js is not part of this model. It only reads environment variables.
- The React front end is not part of this model. It only renders and fetches.
