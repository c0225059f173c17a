# SpotyFusion core, modelled in Dafny

SpotyFusion is a browser front end for Spotify. It has a Spotify Premium blind test, listening
statistics and a placeholder playlist generator. This project models the parts of it that hold
decisions:

- **Login and token store** (`SpotifyAuth`). OAuth 2.0 authorization-code login with PKCE
  (RFC 7636). It covers the code verifier, the base64url challenge, the redirect parameters, the
  code exchange with a verifier used once, the expiry-aware token read, the refresh with optional
  rotation of the refresh token, and logout. `localStorage` and `sessionStorage` are two string
  maps in a `Storage` object.
- **Authenticated Web API client** (`SpotifyApi`). One GET helper that refreshes once on a 401 and
  retries once. It also covers the throw policy of the data getters, the null-track filter of a
  playlist page, and the three playback commands.
- **Playback device session** (`SpotifyPlayer`). The single-flight creation of the SDK player, the
  bounded poll for the new device, and the `play` protocol. That protocol transfers playback,
  reconnects on a 404, retries a play that answers 404, and gives up on a 403.
- **OAuth callback page** (`Callback`). A once-per-page guard and the route decision.
- **Blind test** (`BlindTest`). Eligible playlists, a Fisher–Yates shuffle driven by a
  `Math.random` oracle, question building, scoring, the per-second timer and the advance to the
  next question.
- **Playlist generator page** (`PlaylistGen`). Genre suggestions, a bounded duplicate-free seed
  list, and the placeholder result.

Helper modules:

- `Wrappers`: `Option`, and JavaScript truthiness of a nullable string.
- `Seqs`: `filter`, subsequences and duplicate-freedom.
- `Strings`: ASCII lower case, substring search, and the decimal `String()`/`parseInt` pair used
  for the stored expiry.
- `Http`: the request/reply datatypes and a `Network` object.
- `Schemas`: the Spotify records.

The `Network` holds a fixed list of replies: the reply to the k-th request, with a network failure
once the list runs out. It also holds the log of every (request, reply) exchange made. Counts and
ordering of requests are stated on the part of the log that an operation appends. The SDK's
behaviour during one creation attempt is a `ConnectScript`:

- whether the SDK script loads before its timeout;
- whether `connect()` resolves true;
- the device id of the `ready` event, or none when the ready timeout fires first.

The current time, the random bytes of `crypto.getRandomValues`, the base64 text of the SHA-256
digest and the values of `Math.random` are parameters.

The `play` step treats only statuses 200 and 204 as success, not every 2xx status, and the model
follows the code. The playback commands of `spotifyApi.ts` accept any ok status.

## Model

| member | source | states |
|---|---|---|
| SpotifyAuth.GenerateRandomString | src/services/spotifyAuth.ts:4-8 | one character per random byte; character i is the alphabet entry at byte i modulo 62 |
| SpotifyAuth.PossibleIsAlphanumeric | src/services/spotifyAuth.ts:5 | every entry of the 62-character alphabet is a letter or digit |
| SpotifyAuth.GeneratedVerifierIsValid | src/services/spotifyAuth.ts:4-8 | a verifier from 64 bytes is a valid RFC 7636 verifier (43..128 unreserved characters), alphanumeric only |
| SpotifyAuth.GenerateCodeChallenge | src/services/spotifyAuth.ts:16-19 | the challenge has no `=`, `+` or `/`, and is as long as the digest text without its padding |
| SpotifyAuth.ChallengeRoundTrip | src/services/spotifyAuth.ts:16-19 | on base64 text the challenge uses only the base64url alphabet, and mapping `-`/`_` back gives exactly the unpadded digest text |
| SpotifyAuth.LoginWithSpotify | src/services/spotifyAuth.ts:23-39 | stores the verifier under its key (session storage untouched); the redirect carries the client id, `code`, the redirect URI, the scopes, `S256` and the challenge of that same verifier |
| SpotifyAuth.ExpiryText | src/services/spotifyAuth.ts:77 | the stored expiry text reads back through `parseInt` as now + expires_in*1000; without `expires_in` it is "NaN", which `parseInt` does not read as a number |
| SpotifyAuth.AfterExchange | src/services/spotifyAuth.ts:75-80 | after an exchange the access token, refresh token and expiry are written (an absent field as "undefined"), the verifier is gone, and every key outside the four token keys is unchanged |
| SpotifyAuth.AfterRefresh | src/services/spotifyAuth.ts:143-147 | after a refresh the access token and expiry are written, the refresh token is replaced only by a non-empty one from the reply, and every other key is unchanged |
| SpotifyAuth.GetAccessToken | src/services/spotifyAuth.ts:90-99 | the result is only ever the stored access token, and nothing without one |
| SpotifyAuth.IsAuthenticated | src/services/spotifyAuth.ts:102-104 | authenticated only with a stored access token, and with no expiry stored exactly when one is stored |
| SpotifyAuth.AccessTokenAtExpiry | src/services/spotifyAuth.ts:90-104 | with expiry e stored, the token is withheld exactly when now > e (still returned at now == e); authenticated iff now <= e and a token is stored |
| SpotifyAuth.AccessTokenWithoutExpiry | src/services/spotifyAuth.ts:90-104 | with no expiry stored, whatever access token is stored is returned; authenticated iff one is stored |
| SpotifyAuth.WrittenTokenLifetime | src/services/spotifyAuth.ts:90-99 | a token written at now0 with its expiry text is returned up to now0 + expires_in*1000 inclusive and withheld after; without `expires_in` it is always returned |
| SpotifyAuth.ExchangedTokenLifetime | src/services/spotifyAuth.ts:75-80 | after an exchange at now0 the new token is readable until now0 + expires_in*1000 inclusive (always, without `expires_in`); the verifier is gone; the refresh token is stored as written |
| SpotifyAuth.RefreshedTokenLifetime | src/services/spotifyAuth.ts:143-147 | after a refresh at now0 the new token is readable until now0 + expires_in*1000 inclusive (always, without `expires_in`), and at now0 in every case |
| SpotifyAuth.LoggedOutHasNoToken | src/services/spotifyAuth.ts:107-114 | after logout no token is readable and nobody is authenticated; logging out twice equals logging out once |
| SpotifyAuth.HandleSpotifyCallback | src/services/spotifyAuth.ts:43-87 | no verifier: false, no request, no change; otherwise exactly one token POST with the code and verifier; true iff the reply is ok and its body is JSON other than `null` (whose field read throws), even one without the token fields, and then the storage is the exchanged one; on false the storage is unchanged |
| SpotifyAuth.ExchangeTwice | src/services/spotifyAuth.ts:44-49 | after a successful exchange, a second one fails without sending a request |
| SpotifyAuth.RefreshAccessToken | src/services/spotifyAuth.ts:117-153 | no refresh token: false, no request; otherwise one refresh POST; true iff the reply is ok and its body is JSON other than `null` (whose field read throws), even one without the token fields, and then access token and expiry are written and the refresh token rotates only if given; otherwise nothing changes |
| SpotifyAuth.Logout | src/services/spotifyAuth.ts:107-114 | removes exactly the four token keys from local storage and the recently-played key from session storage |
| Strings.ParseIntNatToString | src/services/spotifyAuth.ts:91-93 | `parseInt` reads back exactly the instant `String()` stored |
| Strings.ParseInt | src/services/spotifyAuth.ts:93 | `parseInt` yields a number exactly when the text starts with a digit, and it is never negative |
| Strings.NatToString | src/services/spotifyAuth.ts:77 | `String()` of a natural number is a non-empty run of digits, with a leading zero only for 0 and one digit exactly below 10 |
| SpotifyApi.FetchWithAuth | src/services/spotifyApi.ts:52-79 | no token: throws before any request; a first reply other than 401 is returned after one request; on 401 exactly one refresh (none without a refresh token); a failed refresh returns the 401; a successful one retries once with the new token; at most two GETs; the storage afterwards is the refreshed one exactly when a 401 led to an accepted refresh, and unchanged otherwise |
| SpotifyApi.GetJson | src/services/spotifyApi.ts:81-85 | a getter returns a body exactly when the last exchange was an ok GET of its endpoint with a JSON body, and that body is what it returns; an unreadable body or a non-ok reply throws; the storage afterwards is the one `fetchWithAuth` leaves (refreshed only after a 401 and an accepted refresh) |
| SpotifyApi.PlaylistTracks | src/services/spotifyApi.ts:130-132 | the tracks are exactly those of the non-null items, never more than the items |
| SpotifyApi.PlaylistTracksAppend | src/services/spotifyApi.ts:130-132 | the extraction distributes over concatenation, so the tracks keep the page order |
| SpotifyApi.PlaylistTracksWithoutNulls | src/services/spotifyApi.ts:130-132 | on a page without nulls, track k is item k's track |
| SpotifyApi.GetPlaylistTracks | src/services/spotifyApi.ts:125-133 | no token: throws without a request; a result exactly when the last exchange is an ok GET of the playlist's track endpoint answered with a track page, and it is the non-null tracks of that page; the session storage is untouched and the local storage is the one `fetchWithAuth` leaves |
| SpotifyApi.PlayEndpoint | src/services/spotifyApi.ts:154-156 | the play URL extends the bare play URL, and is the bare one exactly when no non-empty device id is given |
| SpotifyApi.PlayEndpointTargets | src/services/spotifyApi.ts:154-156 | the play URL names the device exactly when a non-empty device id is given, and is the bare play URL otherwise |
| SpotifyApi.Delivered | src/services/spotifyApi.ts:170 | `ok \|\| status === 204` holds exactly for statuses 200..299 |
| SpotifyApi.AuthorizedPut | src/services/spotifyApi.ts:173-185 | no token: false with no request; otherwise exactly one PUT with the stored token, and the result is ok-or-204, or the rejection |
| SpotifyApi.PlayTrack | src/services/spotifyApi.ts:150-171 | no token: false with no request; otherwise one PUT to the device-specific play URL with the track and position 0; result ok-or-204 |
| SpotifyApi.PausePlayback | src/services/spotifyApi.ts:173-185 | no token: false with no request; otherwise one PUT to the pause URL; result ok-or-204 |
| SpotifyApi.TransferPlayback | src/services/spotifyApi.ts:187-204 | no token: false with no request; otherwise one PUT moving playback to the device without starting it; result ok-or-204 |
| SpotifyPlayer.GetFreshToken | src/hooks/useSpotifyPlayer.tsx:123-132 | a readable stored token is returned with no request; otherwise exactly one refresh (when a refresh token exists), and then the refreshed token or the original null; the token returned is always what the resulting storage yields |
| SpotifyPlayer.WaitForDeviceInAPI | src/hooks/useSpotifyPlayer.tsx:73-104 | at most maxAttempts device-list GETs; true iff one of the first maxAttempts replies lists the device, and then the last poll is the first that does; false means exactly maxAttempts polls; one delay between consecutive polls; failed polls do not stop the loop |
| SpotifyPlayer.PlayerSession.AwaitDevice | src/hooks/useSpotifyPlayer.tsx:256-272 | a fresh-token read (its refresh, if any, comes first), then with a token between 1 and 20 device-list GETs carrying that token, stopping at the first reply that lists the device, and with no token no poll; no PUT; the device is then published and the player is ready with no error, whether or not it showed up |
| SpotifyPlayer.ComposePlay | src/hooks/useSpotifyPlayer.tsx:372-502 | a transfer step that goes on, followed by a play step for the device held then, is one whole play protocol with the play step's play requests |
| SpotifyPlayer.ReconnectDevice | src/hooks/useSpotifyPlayer.tsx:392-398 | a reconnect inside `play` yields a device exactly when no creation is in flight, the SDK loads, the player connects and the ready event brings a non-empty device id, and then it is that id |
| SpotifyPlayer.AfterCreate | src/hooks/useSpotifyPlayer.tsx:135-285 | with an attempt in flight nothing changes; otherwise at most one construction, SDK calls only appended, and a ready session always has a player and a device |
| SpotifyPlayer.TransferStepsPlays | src/hooks/useSpotifyPlayer.tsx:372-418 | the transfer step of `play` sends no play request |
| SpotifyPlayer.PlayStepsPlays | src/hooks/useSpotifyPlayer.tsx:424-502 | the play step sends its play request and, only after a 404 and a transfer that got an answer, the identical retry |
| SpotifyPlayer.PlayProtocolFacts | src/hooks/useSpotifyPlayer.tsx:372-502 | one `play` sends at most five PUTs and two play requests with one bearer, starting with a transfer to the starting device; every play targets the device held at the end; success iff the last play answered 200/204; a second play only after a 404; a 403 ends the call; a first transfer answered with anything but 404 always leads to a play for the starting device |
| SpotifyPlayer.StopAfterTransfer | src/hooks/useSpotifyPlayer.tsx:372-418 | a transfer step that stops is a whole play protocol with no play request and no success |
| SpotifyPlayer.PlayerSession.constructor | src/hooks/useSpotifyPlayer.tsx:111-119 | no player, no device, not ready, not playing, no error, not connecting |
| SpotifyPlayer.PlayerSession.CreatePlayer | src/hooks/useSpotifyPlayer.tsx:135-285 | single flight: with the flag set it returns false and changes nothing, otherwise the flag is clear on every exit; the old player is disconnected first; the token is that of a fresh-token read and the storage is what that read leaves; no token means false and no construction; one construction iff the SDK loads; the player is kept iff it connected; true iff token, load, connect and ready, and then the ready device is stored, ready, error cleared; an invisible device does not fail; on false there is no device and an error; the flag is as before the call; the player, device, readiness, construction count and SDK calls are exactly `AfterCreate` of the old ones; on success the device wait polls as in AwaitDevice right after the token read, otherwise the only request is that read's refresh |
| SpotifyPlayer.PlayerSession.Teardown | src/hooks/useSpotifyPlayer.tsx:145-152 | an existing player is disconnected, then player, device and readiness are cleared |
| SpotifyPlayer.PlayerSession.Build | src/hooks/useSpotifyPlayer.tsx:154-281 | after the teardown: the storage is what the fresh-token read leaves; no token gives the no-token error; no SDK means no construction; construct-and-connect calls in order; no player unless it connected; the outcome as in CreatePlayer; on success the device polls follow the token read as in AwaitDevice, otherwise the read's refresh is the only request |
| SpotifyPlayer.PlayerSession.Launch | src/hooks/useSpotifyPlayer.tsx:169-275 | one construction and connect; the player is kept exactly when it connected, even if the ready event times out; true iff connected and ready, with the ready device stored; storage unchanged while the token is readable; on success the storage is what the second token read leaves and the device polls are those of AwaitDevice; on failure no request and no storage change |
| SpotifyPlayer.PlayerSession.Reconnect | src/hooks/useSpotifyPlayer.tsx:345-349 | exactly one creation attempt and no PUT; with one in flight nothing changes; otherwise the storage is what the fresh-token read leaves, the teardown and construction calls are logged, the player is the new one iff token, load and connect, and device, readiness and error are set on success and cleared to an error on failure |
| SpotifyPlayer.PlayerSession.Play | src/hooks/useSpotifyPlayer.tsx:351-510 | no device: false before any request, with the no-device error; no fresh token: false with no PUT and the token error; otherwise the PUT traffic is one whole play protocol under that token, whose reconnect yields the device `ReconnectDevice` names; the error is cleared by a reconnect, kept on success without one, set on failure, and the premium error after a 403; the creation flag is unchanged; with no PUT or a first transfer not answered 404 player, device, readiness, constructions and SDK calls are unchanged; after a 404 they are `AfterCreate` of the old ones |
| SpotifyPlayer.PlayerSession.TransferAndPlay | src/hooks/useSpotifyPlayer.tsx:372-502 | with a device and the stored token, the PUT traffic is one whole play protocol whose reconnect yields the device `ReconnectDevice` names; storage unchanged; the error as in Play; the creation flag is unchanged; player, device, readiness, constructions and SDK calls are unchanged unless the first transfer answered 404, and then they are `AfterCreate` of the old ones |
| SpotifyPlayer.PlayerSession.TransferToDevice | src/hooks/useSpotifyPlayer.tsx:372-420 | one transfer; 200/204 or any non-404 status goes on with nothing else changed; a 404 makes one reconnect and, exactly when it yields a device, one more transfer to that device, which must answer 200/204; the device held afterwards is the reconnected one; a stop reports the network, reconnect or transfer error that caused it; the creation flag is unchanged; without a 404 player, device, readiness, constructions and SDK calls are unchanged, after one they are `AfterCreate` of the old ones |
| SpotifyPlayer.PlayerSession.RecoverTransfer | src/hooks/useSpotifyPlayer.tsx:390-419 | one creation attempt whose outcome is `AfterCreate` of the old session; exactly when it yields a device (`ReconnectDevice`) one transfer to that device follows; it goes on iff that transfer answered 200/204, holding the new device with no error; otherwise the reconnect, network or transfer error |
| SpotifyPlayer.PlayerSession.PlayOnDevice | src/hooks/useSpotifyPlayer.tsx:424-502 | one play request; exactly on 404 one more transfer to the same device and, unless that transfer fails on the network, one identical retry; success iff the play that counts answered 200/204; on failure a network error, the premium error after a 403, or the status of the first play |
| SpotifyPlayer.PlayerSession.PlayStep | src/hooks/useSpotifyPlayer.tsx:422-502 | the play step for the device held, touching only the error: kept on success, otherwise the network, premium or status error of PlayOnDevice, and the premium error whenever the first play answered 403 |
| SpotifyPlayer.PlayerSession.PausePlayback | src/hooks/useSpotifyPlayer.tsx:512-521 | pauses the player if any and changes no state |
| SpotifyPlayer.PlayerSession.ActivatePlayer | src/hooks/useSpotifyPlayer.tsx:334-343 | activates the player if any and changes no state |
| SpotifyPlayer.PlayerSession.OnNotReady | src/hooks/useSpotifyPlayer.tsx:221-226 | not ready any more; the device id and every other field are kept |
| SpotifyPlayer.PlayerSession.OnSdkError | src/hooks/useSpotifyPlayer.tsx:181-200 | the initialization, authentication and account errors are reported; no other field changes |
| SpotifyPlayer.PlayerSession.OnPlayerStateChanged | src/hooks/useSpotifyPlayer.tsx:229-236 | playing is the negation of `paused`; a null state changes nothing; no other field changes |
| SpotifyPlayer.PlayerSession.Unmount | src/hooks/useSpotifyPlayer.tsx:326-331 | disconnects the current player, if any; no field changes |
| Callback.Destination | src/routes/callback.tsx:24-39 | an error always leads home; the stats page is reached iff there is no error, there is a code and it was exchanged |
| Callback.CallbackPage.constructor | src/routes/callback.tsx:13 | a page starts unprocessed |
| Callback.CallbackPage.ProcessCallback | src/routes/callback.tsx:15-43 | a second run does nothing; the first navigates to the decided route; with an error or no code no request is made and nothing is stored; a code is exchanged with the stored verifier and the stats route comes with the exchanged storage; without a stored verifier no request is sent at all |
| PlaylistGen.Suggestions | src/routes/dashboard/playlist-gen/index.tsx:87-89 | exactly the popular genres whose lower-case form contains the lower-case query and that are not seeds, in list order |
| PlaylistGen.WithSeed | src/routes/dashboard/playlist-gen/index.tsx:93 | an absent seed is appended, a present one leaves the list as it is; duplicate-freedom is kept |
| PlaylistGen.WithoutSeed | src/routes/dashboard/playlist-gen/index.tsx:97 | exactly the other seeds remain, in order; duplicate-freedom is kept |
| PlaylistGen.GeneratedFor | src/routes/dashboard/playlist-gen/index.tsx:105-109 | empty iff there are no seeds; otherwise three entries naming the first seed, the last seed, and the mix |
| PlaylistGen.Generator.constructor | src/routes/dashboard/playlist-gen/index.tsx:85-86 | empty query, seeds Rock and Electronic, nothing generated |
| PlaylistGen.Generator.SetQuery | src/routes/dashboard/playlist-gen/index.tsx:85 | only the query changes |
| PlaylistGen.Generator.AddSeed | src/routes/dashboard/playlist-gen/index.tsx:91-95 | at five seeds nothing changes, not even the query; otherwise the seed is added if absent and the query cleared; at most five distinct seeds |
| PlaylistGen.Generator.RemoveSeed | src/routes/dashboard/playlist-gen/index.tsx:96-98 | the seed is removed, the others keep their order |
| PlaylistGen.Generator.Generate | src/routes/dashboard/playlist-gen/index.tsx:101-104 | the result is cleared and a timeout captures the current seeds |
| PlaylistGen.Generator.FinishGenerate | src/routes/dashboard/playlist-gen/index.tsx:104-110 | the oldest timeout fills the result from the seeds it captured |
| PlaylistGen.Edited | src/routes/dashboard/playlist-gen/index.tsx:91-98 | one edit: an add at five seeds changes nothing, an add below five leaves the seed present, a remove leaves it absent, no other seed appears; at most five and duplicate-freedom are kept |
| PlaylistGen.EditedAll | src/routes/dashboard/playlist-gen/index.tsx:91-98 | after any run of edits every seed was there at the start or was added by one of them |
| PlaylistGen.EditsKeepSeedsValid | src/routes/dashboard/playlist-gen/index.tsx:91-98 | any run of add and remove edits keeps at most five distinct seeds |
| PlaylistGen.InitialEditsKeepSeedsValid | src/routes/dashboard/playlist-gen/index.tsx:86-98 | from Rock and Electronic, every edit sequence keeps at most five distinct seeds |
| BlindTest.EligiblePlaylists | src/routes/dashboard/blindtest/index.tsx:17 | exactly the playlists with at least ten tracks, in their order |
| BlindTest.ScaledFloor | src/routes/dashboard/blindtest/index.tsx:110 | `floor(random * n)` lies in 0..n-1 |
| BlindTest.RandomIndex | src/routes/dashboard/blindtest/index.tsx:110 | the random index is below the bound |
| BlindTest.SwapMultiset | src/routes/dashboard/blindtest/index.tsx:111 | a swap keeps the elements |
| BlindTest.Shuffle | src/routes/dashboard/blindtest/index.tsx:107-114 | a permutation of a copy of the input, same length; one random draw per position after the first |
| BlindTest.OthersMembers | src/routes/dashboard/blindtest/index.tsx:151 | the wrong-choice pool is exactly the tracks with another id |
| BlindTest.Others | src/routes/dashboard/blindtest/index.tsx:151 | the wrong-choice pool is no longer than the tracks, and strictly shorter when the correct track is among them |
| BlindTest.MakeQuestion | src/routes/dashboard/blindtest/index.tsx:149-155 | the correct track is offered exactly once, with min(3, other tracks) wrong choices, all from the pool and with another id |
| BlindTest.BuildQuestions | src/routes/dashboard/blindtest/index.tsx:144-156 | min(10, tracks) questions; question i plays shuffled[i] |
| BlindTest.Deal | src/routes/dashboard/blindtest/index.tsx:141-156 | the shuffled tracks are a permutation of the tracks, and the questions are built from them |
| BlindTest.Points | src/routes/dashboard/blindtest/index.tsx:191-192 | a correct answer earns at most 13 points while the 30-second timer runs |
| BlindTest.IsCorrect | src/routes/dashboard/blindtest/index.tsx:188 | a timeout is never correct, and choosing the correct track always is |
| BlindTest.Game.constructor | src/routes/dashboard/blindtest/index.tsx:42-56 | setup screen, no playlist, no questions, score 0, 30 seconds, nothing played |
| BlindTest.Game.SelectPlaylist | src/routes/dashboard/blindtest/index.tsx:43-44 | only the selection changes |
| BlindTest.Game.StartGame | src/routes/dashboard/blindtest/index.tsx:116-178 | no playlist or no ready player: nothing happens; the player is activated next; without tracks or with fewer than four nothing else changes; otherwise min(10, n) questions on a permutation of the tracks, question i playing shuffled[i], then playing, index 0, score 0, 30 seconds, and the first track is played |
| BlindTest.Game.Begin | src/routes/dashboard/blindtest/index.tsx:158-164 | the playing state with index 0, score 0, 30 seconds and nothing played |
| BlindTest.Game.ProcessAnswer | src/routes/dashboard/blindtest/index.tsx:180-219 | marks answered and pauses; with a current question, adds 3 + timeLeft/3 exactly for a matching id (never for a timeout), appends one played track, and starts the advance timeout |
| BlindTest.Game.HandleAnswer | src/routes/dashboard/blindtest/index.tsx:222-226 | ignored once answered; otherwise records the selection, marks answered, pauses, scores it by id, appends the played track and queues the advance timeout; nothing else changes |
| BlindTest.Game.Tick | src/routes/dashboard/blindtest/index.tsx:79-104 | only while playing an unanswered question: counts down by one, and at one second or less sets zero and submits a timeout that scores nothing, records the track as missed and queues the advance; selection and questions untouched |
| BlindTest.Game.FireAdvance | src/routes/dashboard/blindtest/index.tsx:204-219 | the oldest queued advance is consumed; before the last captured question: next index, 30 seconds, unanswered, selection cleared, next track played; after it: results screen and pause, nothing else changed |
| BlindTest.Game.ResetGame | src/routes/dashboard/blindtest/index.tsx:228-236 | pause, then setup screen with no playlist, no questions, index 0, score 0, nothing played; timer, answered flag, chosen answer and queued advances untouched |

## Left out

- Timers: `setTimeout`/`setInterval`, the settle delays and the poll delay are not waited for. The
  poll counts its delays. The blind test's 1.5 s advance and the generator's 600 ms result are
  queued snapshots that fire by explicit calls (`FireAdvance`, `FinishGenerate`).
- Promise interleaving is not modelled. The cases this leaves out include a click during the
  0 ms timeout of an expired question, an advance timeout that fires after a reset, and a second
  `createPlayer` while one is awaiting. The single-flight guard is stated for any entry state.
- The 10 s SDK load timeout and the 15 s ready timeout are the booleans and the optional device of
  `ConnectScript`.
- `initializeWhenReady` and its 50 × 100 ms token wait (src/hooks/useSpotifyPlayer.tsx:294-321)
  are timer-driven start-up code and are not modelled.
- The `getOAuthToken` callback the SDK calls is not modelled, because nothing in the hook calls it.
  The `playback_error` listener only logs and is not modelled.
- React rendering, context, effects, the debug text, console output, `alert`, the `loading` flag
  and the French error messages are not modelled. Errors are the `PlayerError` conditions.
- The floating-point sliders of the generator page are only logged and are not modelled.
- Crypto is not modelled: `crypto.getRandomValues`, SHA-256 and `btoa` are inputs.
  `GenerateCodeChallenge` models only the character replacements applied to their result.
- URL and form encoding of the redirect query and the token POST bodies is not modelled. The
  parameters are records.
- `Strings.ParseInt`: `parseInt` is modelled on what the app itself stores: a run of decimal digits
  with trailing text ignored, or text such as "NaN" that does not start with a digit and reads as
  NaN (the token is then returned, as the source does). Leading whitespace and signs are not
  modelled.
- `String()` of an expiry is modelled as decimal digits; JavaScript's exponent form for very large
  numbers is not modelled.
- `Strings.Lower`: lower-casing is ASCII only; the popular genres are ASCII, but a non-ASCII query
  is not lower-cased as `toLowerCase` would.
- `Date.now()` is one `now` per operation; time passing within an operation is not modelled.
- The data getters other than `getPlaylistTracks` (`/me`, top artists and tracks, recently played,
  playlists, devices) share `GetJson`; their individual endpoint texts are not modelled.
- src/services/spotify.service.ts is not part of this model; the blind test receives its playlist
  and tracks rather than fetching them.
- Reading a reply body as text for the error log (`retryPlay.text()`, `playResponse.text()`) is not
  modelled.
- Token replies: `expires_in` is a natural number or absent. A JSON string, a negative or a
  fractional `expires_in` are not modelled. A JSON `null` access or refresh token (stored as
  "null") is not modelled either; an absent one is stored as "undefined", as the source does.
- `BlindTest.Shuffle`: `Math.random` values are exact rationals in [0, 1), not doubles. Rounding in
  `Math.floor(Math.random() * (i + 1))` is not modelled; the index bound holds for any value in
  [0, 1).
