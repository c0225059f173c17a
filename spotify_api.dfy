/** The authenticated Web API client: one fetch helper that refreshes once on 401, the data getters
    built on it, and the playback commands. */
module SpotifyApi {
  import opened Wrappers
  import opened Seqs
  import opened Strings
  import opened Schemas
  import opened Http
  import opened SpotifyAuth

  const ApiBase: string := "https://api.spotify.com/v1"
  const PlayUrl: string := "https://api.spotify.com/v1/me/player/play"
  const PauseUrl: string := "https://api.spotify.com/v1/me/player/pause"
  const PlayerUrl: string := "https://api.spotify.com/v1/me/player"
  const DeviceQuery: string := "?device_id="

  /** Why a call rejects. */
  datatype Failure = NoAccessToken | FetchRejected | NotOk(status: int) | UnreadableBody

  /** The settled value of a promise: its result, or the error it rejects with. */
  datatype Fetched<T> = Returned(value: T) | Threw(failure: Failure)

  function Last<T>(s: seq<T>): T
    requires s != []
  {
    s[|s| - 1]
  }

  /** The local storage `fetchWithAuth` leaves when the GET gets `first` and a refresh would get
      `refreshReply`: refreshed exactly after a 401 with a stored refresh token and an accepted
      refresh reply, untouched otherwise. */
  function FetchedLocal(local: map<string, string>, first: Reply, refreshReply: Reply, now: nat): map<string, string>
  {
    if && Truthy(GetAccessToken(local, now)) && HasStatus(first, 401)
       && Truthy(GetItem(local, RefreshTokenKey)) && TokenReplyAccepted(refreshReply)
    then AfterRefresh(local, refreshReply.body, now)
    else local
  }

  /** `fetchWithAuth`: a GET with the stored token; on 401, one refresh and, if it succeeded, one
      retry with the token read again. */
  method FetchWithAuth(storage: Storage, net: Network, config: Config, endpoint: string, now: nat)
    returns (out: Fetched<Reply>)
    modifies storage, net
    ensures storage.session == old(storage.session)
    ensures storage.local == FetchedLocal(old(storage.local), net.ReplyAt(|old(net.log)|), net.ReplyAt(|old(net.log)| + 1), now)
    ensures old(net.log) <= net.log && |net.log| <= |old(net.log)| + 3
    ensures var url := ApiBase + endpoint;
            var token := GetAccessToken(old(storage.local), now);
            var s := |old(net.log)|;
            var first := net.ReplyAt(s);
            var refreshToken := GetItem(old(storage.local), RefreshTokenKey);
            var refreshReply := net.ReplyAt(s + 1);
            var retry := net.ReplyAt(s + 2);
      && (!Truthy(token) ==>
            out == Threw(NoAccessToken) && net.log == old(net.log) && storage.local == old(storage.local))
      && (Truthy(token) ==> |net.log| > s && net.log[s] == Exchange(Get(url, token.value), first))
      && (Truthy(token) && !HasStatus(first, 401) ==>
            |net.log| == s + 1 && storage.local == old(storage.local)
            && out == if first.NetworkError? then Threw(FetchRejected) else Returned(first))
      && (Truthy(token) && HasStatus(first, 401) && !Truthy(refreshToken) ==>
            |net.log| == s + 1 && storage.local == old(storage.local) && out == Returned(first))
      && (Truthy(token) && HasStatus(first, 401) && Truthy(refreshToken) ==>
            |net.log| >= s + 2
            && net.log[s + 1] == Exchange(TokenPost(TokenEndpoint, RefreshTokenForm(config.clientId, refreshToken.value)), refreshReply))
      && (Truthy(token) && HasStatus(first, 401) && Truthy(refreshToken) && !TokenReplyAccepted(refreshReply) ==>
            |net.log| == s + 2 && storage.local == old(storage.local) && out == Returned(first))
      && (Truthy(token) && HasStatus(first, 401) && Truthy(refreshToken) && TokenReplyAccepted(refreshReply) ==>
            |net.log| == s + 3
            && net.log[s + 2] == Exchange(Get(url, JsText(AccessField(refreshReply.body))), retry)
            && storage.local == AfterRefresh(old(storage.local), refreshReply.body, now)
            && out == if retry.NetworkError? then Threw(FetchRejected) else Returned(retry))
  {
    var url := ApiBase + endpoint;
    var token := GetAccessToken(storage.local, now);
    if !Truthy(token) {
      return Threw(NoAccessToken);
    }
    var response := net.Send(Get(url, token.value));
    if response.NetworkError? {
      return Threw(FetchRejected);
    }
    if response.status == 401 {
      var refreshed := RefreshAccessToken(storage, net, config, now);
      if refreshed {
        ghost var body := net.log[|net.log| - 1].reply.body;
        RefreshedTokenLifetime(old(storage.local), body, now, now);
        token := GetAccessToken(storage.local, now);
        response := net.Send(Get(url, token.value));
        if response.NetworkError? {
          return Threw(FetchRejected);
        }
      }
    }
    out := Returned(response);
  }

  /** The throw policy of every data getter: the JSON body of an ok reply, otherwise a rejection. */
  method GetJson(storage: Storage, net: Network, config: Config, endpoint: string, now: nat)
    returns (out: Fetched<Body>)
    modifies storage, net
    ensures storage.session == old(storage.session)
    ensures storage.local == FetchedLocal(old(storage.local), net.ReplyAt(|old(net.log)|), net.ReplyAt(|old(net.log)| + 1), now)
    ensures old(net.log) <= net.log && |net.log| <= |old(net.log)| + 3
    ensures !Truthy(GetAccessToken(old(storage.local), now)) ==>
              out == Threw(NoAccessToken) && net.log == old(net.log)
    ensures out.Returned? <==>
              |net.log| > |old(net.log)| && Last(net.log).request.Get? && Last(net.log).request.url == ApiBase + endpoint
              && Last(net.log).reply.Reply? && Ok(Last(net.log).reply.status) && !Last(net.log).reply.body.NotJson?
    ensures out.Returned? ==> out.value == Last(net.log).reply.body
  {
    var response := FetchWithAuth(storage, net, config, endpoint, now);
    if response.Threw? {
      return Threw(response.failure);
    }
    if !Ok(response.value.status) {
      return Threw(NotOk(response.value.status));
    }
    if response.value.body.NotJson? {
      // `response.json()` rejects
      return Threw(UnreadableBody);
    }
    out := Returned(response.value.body);
  }

  /** `.map(item => item.track).filter(track => track !== null)`. */
  function PlaylistTracks(items: seq<PlaylistItem>): (r: seq<Track>)
    ensures |r| <= |items|
    ensures forall t :: t in r <==> PlaylistItem(Some(t)) in items
  {
    if items == [] then []
    else (if items[0].track.Some? then [items[0].track.value] else []) + PlaylistTracks(items[1..])
  }

  /** The extraction keeps the page order: the tracks of two pages are those of each in turn. */
  lemma {:induction false} PlaylistTracksAppend(a: seq<PlaylistItem>, b: seq<PlaylistItem>)
    ensures PlaylistTracks(a + b) == PlaylistTracks(a) + PlaylistTracks(b)
  {
    if a == [] {
      assert a + b == b;
    } else {
      assert (a + b)[1..] == a[1..] + b;
      PlaylistTracksAppend(a[1..], b);
    }
  }

  /** Nothing is dropped from a page without null entries. */
  lemma {:induction false} PlaylistTracksWithoutNulls(items: seq<PlaylistItem>)
    requires forall k :: 0 <= k < |items| ==> items[k].track.Some?
    ensures |PlaylistTracks(items)| == |items|
    ensures forall k :: 0 <= k < |items| ==> PlaylistTracks(items)[k] == items[k].track.value
  {
    if items != [] {
      PlaylistTracksWithoutNulls(items[1..]);
    }
  }

  function PlaylistTracksEndpoint(playlistId: string, limit: nat): string
  {
    "/playlists/" + playlistId + "/tracks?limit=" + NatToString(limit)
  }

  /** `getPlaylistTracks`: the non-null tracks of the first page of a playlist. */
  method GetPlaylistTracks(storage: Storage, net: Network, config: Config, playlistId: string, now: nat, limit: nat := 100)
    returns (out: Fetched<seq<Track>>)
    modifies storage, net
    ensures storage.session == old(storage.session)
    ensures storage.local == FetchedLocal(old(storage.local), net.ReplyAt(|old(net.log)|), net.ReplyAt(|old(net.log)| + 1), now)
    ensures old(net.log) <= net.log && |net.log| <= |old(net.log)| + 3
    ensures !Truthy(GetAccessToken(old(storage.local), now)) ==>
              out == Threw(NoAccessToken) && net.log == old(net.log)
    ensures out.Returned? <==>
              |net.log| > |old(net.log)| && Last(net.log).request.Get?
              && Last(net.log).request.url == ApiBase + PlaylistTracksEndpoint(playlistId, limit)
              && Last(net.log).reply.Reply? && Ok(Last(net.log).reply.status)
              && Last(net.log).reply.body.TrackPage?
    ensures out.Returned? ==> out.value == PlaylistTracks(Last(net.log).reply.body.items)
  {
    var body := GetJson(storage, net, config, PlaylistTracksEndpoint(playlistId, limit), now);
    if body.Threw? {
      return Threw(body.failure);
    }
    if !body.value.TrackPage? {
      // `data.items.map` on a body without items throws a TypeError
      return Threw(UnreadableBody);
    }
    out := Returned(PlaylistTracks(body.value.items));
  }

  /** The play endpoint: with a device id as query parameter exactly when one is given. */
  function PlayEndpoint(deviceId: Option<string>): (r: string)
    ensures PlayUrl <= r
    ensures r == PlayUrl <==> !Truthy(deviceId)
  {
    if Truthy(deviceId) then PlayUrl + DeviceQuery + deviceId.value else PlayUrl
  }

  /** The device a play URL targets, read back from its query. */
  function TargetDevice(url: string): Option<string>
  {
    var prefix := PlayUrl + DeviceQuery;
    if |prefix| <= |url| && url[..|prefix|] == prefix then Some(url[|prefix|..]) else None
  }

  /** `playTrack` addresses the given device, and only when one is given. */
  lemma PlayEndpointTargets(deviceId: Option<string>)
    ensures TargetDevice(PlayEndpoint(deviceId)) == if Truthy(deviceId) then deviceId else None
    ensures !Truthy(deviceId) ==> PlayEndpoint(deviceId) == PlayUrl
  {
    var prefix := PlayUrl + DeviceQuery;
    if Truthy(deviceId) {
      var url := prefix + deviceId.value;
      assert url[..|prefix|] == prefix;
      assert url[|prefix|..] == deviceId.value;
    }
  }

  /** `response.ok || response.status === 204`: 204 is already an ok status, so this is
      `response.ok`. */
  predicate Delivered(status: int)
    ensures Delivered(status) <==> 200 <= status <= 299
  {
    Ok(status) || status == 204
  }

  /** The shared shape of the three playback commands: no request without a token; otherwise one PUT,
      whose outcome is `ok || status == 204` and whose rejection propagates. */
  method AuthorizedPut(storage: Storage, net: Network, url: string, payload: Payload, now: nat)
    returns (out: Fetched<bool>)
    modifies net
    ensures var token := GetAccessToken(storage.local, now);
            var reply := net.ReplyAt(|old(net.log)|);
      && (!Truthy(token) ==> out == Returned(false) && net.log == old(net.log))
      && (Truthy(token) ==>
            net.log == old(net.log) + [Exchange(Put(url, token.value, payload), reply)]
            && out == if reply.NetworkError? then Threw(FetchRejected) else Returned(Delivered(reply.status)))
  {
    var token := GetAccessToken(storage.local, now);
    if !Truthy(token) {
      return Returned(false);
    }
    var response := net.Send(Put(url, token.value, payload));
    if response.NetworkError? {
      return Threw(FetchRejected);
    }
    out := Returned(Delivered(response.status));
  }

  /** `playTrack`: starts `trackUri` from position 0, on `deviceId` when given. */
  method PlayTrack(storage: Storage, net: Network, trackUri: string, deviceId: Option<string>, now: nat)
    returns (out: Fetched<bool>)
    modifies net
    ensures var token := GetAccessToken(storage.local, now);
            var reply := net.ReplyAt(|old(net.log)|);
      && (!Truthy(token) ==> out == Returned(false) && net.log == old(net.log))
      && (Truthy(token) ==>
            net.log == old(net.log) + [Exchange(Put(PlayEndpoint(deviceId), token.value, PlayBody([trackUri], 0)), reply)]
            && out == if reply.NetworkError? then Threw(FetchRejected) else Returned(Delivered(reply.status)))
  {
    out := AuthorizedPut(storage, net, PlayEndpoint(deviceId), PlayBody([trackUri], 0), now);
  }

  /** `pausePlayback`. */
  method PausePlayback(storage: Storage, net: Network, now: nat) returns (out: Fetched<bool>)
    modifies net
    ensures var token := GetAccessToken(storage.local, now);
            var reply := net.ReplyAt(|old(net.log)|);
      && (!Truthy(token) ==> out == Returned(false) && net.log == old(net.log))
      && (Truthy(token) ==>
            net.log == old(net.log) + [Exchange(Put(PauseUrl, token.value, NoPayload), reply)]
            && out == if reply.NetworkError? then Threw(FetchRejected) else Returned(Delivered(reply.status)))
  {
    out := AuthorizedPut(storage, net, PauseUrl, NoPayload, now);
  }

  /** `transferPlayback`: moves playback to `deviceId` without starting it. */
  method TransferPlayback(storage: Storage, net: Network, deviceId: string, now: nat) returns (out: Fetched<bool>)
    modifies net
    ensures var token := GetAccessToken(storage.local, now);
            var reply := net.ReplyAt(|old(net.log)|);
      && (!Truthy(token) ==> out == Returned(false) && net.log == old(net.log))
      && (Truthy(token) ==>
            net.log == old(net.log) + [Exchange(Put(PlayerUrl, token.value, TransferBody([deviceId], false)), reply)]
            && out == if reply.NetworkError? then Threw(FetchRejected) else Returned(Delivered(reply.status)))
  {
    out := AuthorizedPut(storage, net, PlayerUrl, TransferBody([deviceId], false), now);
  }
}
