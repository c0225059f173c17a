/** The in-browser playback device session: single-flight creation of the SDK player, the wait for
    the new device to show up in the device list, and the play protocol that reconnects and retries
    when the device is not found. */
module SpotifyPlayer {
  import opened Wrappers
  import opened Seqs
  import opened Http
  import opened SpotifyAuth
  import opened SpotifyApi

  const DevicesUrl: string := "https://api.spotify.com/v1/me/player/devices"
  /** `waitForDeviceInAPI(newDeviceId, currentToken, 20, 500)`. */
  const DeviceAttempts: nat := 20

  /** `.../me/player/play?device_id=${id}`. */
  function PlayUrlFor(id: string): string
  {
    PlayUrl + DeviceQuery + id
  }

  /** The two statuses the hook treats as success: 200 and 204. */
  predicate Accepted(r: Reply)
  {
    HasStatus(r, 200) || HasStatus(r, 204)
  }

  /** An ok device-list reply that names `deviceId`. */
  predicate ListsDevice(r: Reply, deviceId: string)
  {
    && r.Reply? && Ok(r.status) && r.body.DeviceList?
    && exists k :: 0 <= k < |r.body.devices| && r.body.devices[k].id == deviceId
  }

  /** The bearer token a request carries; the token request carries none. */
  function Bearer(e: Exchange): string
  {
    if e.request.TokenPost? then "" else e.request.bearer
  }

  predicate IsPlayPut(e: Exchange)
  {
    e.request.Put? && e.request.payload.PlayBody?
  }

  /** The play requests among a sequence of PUTs. */
  function Plays(puts: seq<Exchange>): seq<Exchange>
  {
    Filter(puts, IsPlayPut)
  }

  lemma PutsAfterSend(log: seq<Exchange>, s: nat, e: Exchange)
    requires s <= |log|
    ensures Puts(Since(log + [e], s)) == Puts(Since(log, s)) + (if IsPut(e) then [e] else [])
    ensures Plays(Puts(Since(log, s)) + (if IsPut(e) then [e] else []))
         == Plays(Puts(Since(log, s))) + (if IsPut(e) && IsPlayPut(e) then [e] else [])
  {
    assert Since(log + [e], s) == Since(log, s) + [e];
    FilterAppend(Since(log, s), [e], IsPut);
    var ps := Puts(Since(log, s));
    FilterAppend(ps, if IsPut(e) then [e] else [], IsPlayPut);
  }

  /** The transfer request of `play` for `device`. */
  function TransferRequest(bearer: string, device: string): Request
  {
    Put(PlayerUrl, bearer, TransferBody([device], false))
  }

  /** The play request of `play` for `device`. */
  function PlayRequest(bearer: string, device: string, trackUri: string): Request
  {
    Put(PlayUrlFor(device), bearer, PlayBody([trackUri], 0))
  }

  /** The device a reconnect inside `play` ends on, when `createPlayer` reports success and leaves
      a truthy device id, for a session whose stored token stays valid throughout. */
  function ReconnectDevice(isConnecting: bool, script: ConnectScript): (r: Option<string>)
    ensures r.Some? <==> !isConnecting && script.sdkLoads && script.connects && Truthy(script.readyDevice)
    ensures r.Some? ==> r == script.readyDevice && r.value != ""
  {
    if !isConnecting && script.sdkLoads && script.connects && Truthy(script.readyDevice) then script.readyDevice else None
  }

  /** Step 1 of `play` as seen on the wire: one transfer to `device` and, when it answers 404 and
      the reconnect yields `retryTo`, one more transfer to that device; `proceed` says whether the
      play request follows. */
  ghost predicate TransferSteps(puts: seq<Exchange>, device: string, bearer: string, retryTo: Option<string>,
                                proceed: bool, reconnects: int)
  {
    && 1 <= |puts| <= 2
    && puts[0].request == TransferRequest(bearer, device)
    && reconnects == (if HasStatus(puts[0].reply, 404) then 1 else 0)
    && (|puts| == 2 <==> HasStatus(puts[0].reply, 404) && retryTo.Some?)
    && (|puts| == 2 ==> puts[1].request == TransferRequest(bearer, retryTo.value))
    && (proceed <==> puts[0].reply.Reply? && (puts[0].reply.status != 404 || (|puts| == 2 && Accepted(puts[1].reply))))
  }

  /** Step 2 of `play` as seen on the wire: a play request for `device`; when it answers 404, one
      more transfer and, unless that transfer fails on the network, one retry of the same play
      request. `ok` says whether the play that counts answered 200 or 204. */
  ghost predicate PlaySteps(puts: seq<Exchange>, device: string, bearer: string, trackUri: string, ok: bool)
  {
    && 1 <= |puts| <= 3
    && puts[0].request == PlayRequest(bearer, device, trackUri)
    && (|puts| > 1 <==> HasStatus(puts[0].reply, 404))
    && (|puts| > 1 ==> puts[1].request == TransferRequest(bearer, device))
    && (|puts| == 3 <==> |puts| > 1 && puts[1].reply.Reply?)
    && (|puts| == 3 ==> puts[2].request == puts[0].request)
    && (ok <==> |puts| != 2 && Accepted(Last(puts).reply))
  }

  /** The number of PUTs the transfer step of a protocol takes. */
  function TransferLength(puts: seq<Exchange>, retryTo: Option<string>): nat
  {
    if |puts| > 0 && HasStatus(puts[0].reply, 404) && retryTo.Some? then 2 else 1
  }

  /** The whole PUT traffic of one `play` that got past the device and token checks: the transfer
      step for the device the call started with, then, exactly when that step goes on, the play
      step for the device held at the end: the one the call started with unless the first transfer
      answered 404, the reconnected one otherwise. */
  ghost predicate PlayProtocol(puts: seq<Exchange>, first: string, bearer: string, trackUri: string,
                               retryTo: Option<string>, finalDevice: Option<string>, reconnects: int, ok: bool)
  {
    var k := TransferLength(puts, retryTo);
    && k <= |puts|
    && TransferSteps(puts[..k], first, bearer, retryTo, |puts| > k, reconnects)
    && (|puts| > k ==> finalDevice.Some? && PlaySteps(puts[k..], finalDevice.value, bearer, trackUri, ok))
    && (|puts| == k ==> !ok)
    && (!HasStatus(puts[0].reply, 404) ==> finalDevice == Some(first))
    && (HasStatus(puts[0].reply, 404) && |puts| > k ==> finalDevice == retryTo)
  }

  /** The play requests of a transfer step: none. */
  lemma TransferStepsPlays(tp: seq<Exchange>, device: string, bearer: string, retryTo: Option<string>,
                           proceed: bool, reconnects: int)
    requires TransferSteps(tp, device, bearer, retryTo, proceed, reconnects)
    ensures Plays(tp) == []
  {
    assert forall k :: 0 <= k < |tp| ==> !IsPlayPut(tp[k]);
    FilterNone(tp, IsPlayPut);
  }

  /** The play requests of a play step: its first request and, after a 404, its retry. */
  lemma PlayStepsPlays(pp: seq<Exchange>, device: string, bearer: string, trackUri: string, ok: bool)
    requires PlaySteps(pp, device, bearer, trackUri, ok)
    ensures Plays(pp) == if |pp| == 3 then [pp[0], pp[2]] else [pp[0]]
  {
    if |pp| == 1 {
      assert pp == [pp[0]];
    } else if |pp| == 2 {
      assert pp == [pp[0]] + [pp[1]];
      FilterAppend([pp[0]], [pp[1]], IsPlayPut);
    } else {
      assert pp == [pp[0]] + [pp[1]] + [pp[2]];
      FilterAppend([pp[0]] + [pp[1]], [pp[2]], IsPlayPut);
      FilterAppend([pp[0]], [pp[1]], IsPlayPut);
    }
  }

  /** The requests of a play protocol: the first transfer, the reconnect count, and one bearer
      token on every PUT. */
  lemma {:induction false} PlayProtocolPuts(puts: seq<Exchange>, first: string, bearer: string, trackUri: string,
                                            retryTo: Option<string>, finalDevice: Option<string>, reconnects: int, ok: bool)
    requires PlayProtocol(puts, first, bearer, trackUri, retryTo, finalDevice, reconnects, ok)
    ensures 1 <= |puts| <= 5
    ensures forall k :: 0 <= k < |puts| ==> puts[k].request.Put? && puts[k].request.bearer == bearer
    ensures puts[0].request == TransferRequest(bearer, first)
    ensures reconnects == (if HasStatus(puts[0].reply, 404) then 1 else 0)
  {
    var k := TransferLength(puts, retryTo);
    var tp, pp := puts[..k], puts[k..];
    assert forall j :: 0 <= j < |puts| ==> puts[j] == if j < k then tp[j] else pp[j - k];
  }

  /** The play requests of a play protocol: those of its play step, if it has one. */
  lemma {:induction false} PlayProtocolPlays(puts: seq<Exchange>, first: string, bearer: string, trackUri: string,
                                             retryTo: Option<string>, finalDevice: Option<string>, reconnects: int, ok: bool)
    requires PlayProtocol(puts, first, bearer, trackUri, retryTo, finalDevice, reconnects, ok)
    ensures var k := TransferLength(puts, retryTo);
      && k <= |puts|
      && Plays(puts) == (if |puts| == k then [] else if |puts| - k == 3 then [puts[k], puts[k + 2]] else [puts[k]])
  {
    var k := TransferLength(puts, retryTo);
    var tp, pp := puts[..k], puts[k..];
    assert puts == tp + pp;
    TransferStepsPlays(tp, first, bearer, retryTo, |puts| > k, reconnects);
    FilterAppend(tp, pp, IsPlayPut);
    if |puts| > k {
      PlayStepsPlays(pp, finalDevice.value, bearer, trackUri, ok);
    } else {
      assert pp == [];
    }
  }

  /** What one `play` promises on the wire, read off its protocol: at most five PUTs and two play
      requests, all carrying one bearer token; every play request aimed at the device held at the
      end; success exactly when the last play request answered 200 or 204; a second play request
      only after the first answered 404; a 403 ends the call; and a first transfer that is answered
      with anything but 404 always leads to a play request. */
  lemma {:induction false} PlayProtocolFacts(puts: seq<Exchange>, first: string, bearer: string, trackUri: string,
                                             retryTo: Option<string>, finalDevice: Option<string>, reconnects: int, ok: bool)
    requires PlayProtocol(puts, first, bearer, trackUri, retryTo, finalDevice, reconnects, ok)
    ensures var plays := Plays(puts);
      && 1 <= |puts| <= 5 && |plays| <= 2
      && (forall k :: 0 <= k < |puts| ==> puts[k].request.Put? && puts[k].request.bearer == bearer)
      && puts[0].request == TransferRequest(bearer, first)
      && reconnects == (if HasStatus(puts[0].reply, 404) then 1 else 0)
      && (puts[0].reply.Reply? && puts[0].reply.status != 404 ==> plays != [] && finalDevice == Some(first))
      && (plays != [] ==>
            finalDevice.Some? && forall k :: 0 <= k < |plays| ==> plays[k].request == PlayRequest(bearer, finalDevice.value, trackUri))
      && (ok <==> plays != [] && Accepted(Last(plays).reply))
      && (|plays| == 2 ==> HasStatus(plays[0].reply, 404))
      && (plays != [] && HasStatus(plays[0].reply, 403) ==> |plays| == 1 && !ok)
  {
    PlayProtocolPuts(puts, first, bearer, trackUri, retryTo, finalDevice, reconnects, ok);
    PlayProtocolPlays(puts, first, bearer, trackUri, retryTo, finalDevice, reconnects, ok);
    var k := TransferLength(puts, retryTo);
    if |puts| > k {
      var pp := puts[k..];
      assert pp[0] == puts[k];
      assert |pp| == 3 ==> pp[2] == puts[k + 2];
      assert Last(pp) == Last(puts);
    }
  }

  /** A transfer step that goes on, followed by a play step for the right device, is a whole play
      protocol. */
  lemma ComposePlay(puts: seq<Exchange>, tp: seq<Exchange>, pp: seq<Exchange>, first: string, bearer: string,
                    trackUri: string, retryTo: Option<string>, finalDevice: string, reconnects: int, ok: bool)
    requires puts == tp + pp
    requires TransferSteps(tp, first, bearer, retryTo, true, reconnects)
    requires PlaySteps(pp, finalDevice, bearer, trackUri, ok)
    requires if HasStatus(tp[0].reply, 404) then retryTo == Some(finalDevice) else finalDevice == first
    ensures PlayProtocol(puts, first, bearer, trackUri, retryTo, Some(finalDevice), reconnects, ok)
    ensures puts[0] == tp[0] && Plays(puts) == Plays(pp)
  {
    assert puts[0] == tp[0];
    assert TransferLength(puts, retryTo) == |tp|;
    assert puts[..|tp|] == tp && puts[|tp|..] == pp;
    TransferStepsPlays(tp, first, bearer, retryTo, true, reconnects);
    FilterAppend(tp, pp, IsPlayPut);
  }

  /** A transfer step that stops is a whole play protocol with no play request. */
  lemma StopAfterTransfer(tp: seq<Exchange>, first: string, bearer: string, trackUri: string,
                          retryTo: Option<string>, finalDevice: Option<string>, reconnects: int)
    requires TransferSteps(tp, first, bearer, retryTo, false, reconnects)
    requires !HasStatus(tp[0].reply, 404) ==> finalDevice == Some(first)
    ensures PlayProtocol(tp, first, bearer, trackUri, retryTo, finalDevice, reconnects, false)
    ensures Plays(tp) == []
  {
    assert tp[..TransferLength(tp, retryTo)] == tp;
    TransferStepsPlays(tp, first, bearer, retryTo, false, reconnects);
  }

  /** What `getFreshToken` leaves in `localStorage` when a refresh would get `reply`: the refresh
      happens only without a valid token and with a stored refresh token. */
  function FreshLocal(local: map<string, string>, reply: Reply, now: nat): map<string, string>
  {
    if !Truthy(GetAccessToken(local, now)) && Truthy(GetItem(local, RefreshTokenKey)) && TokenReplyAccepted(reply)
    then AfterRefresh(local, reply.body, now)
    else local
  }

  /** `getFreshToken`: the stored valid token, or else at most one refresh and a second read. */
  method GetFreshToken(storage: Storage, net: Network, config: Config, now: nat) returns (token: Option<string>)
    modifies storage, net
    ensures storage.session == old(storage.session)
    ensures storage.local == FreshLocal(old(storage.local), net.ReplyAt(|old(net.log)|), now)
    ensures token == GetAccessToken(storage.local, now)
    ensures old(net.log) <= net.log && |net.log| <= |old(net.log)| + 1 && NoPuts(Since(net.log, |old(net.log)|))
    ensures var current := GetAccessToken(old(storage.local), now);
            var refreshToken := GetItem(old(storage.local), RefreshTokenKey);
            var reply := net.ReplyAt(|old(net.log)|);
      && (Truthy(current) || !Truthy(refreshToken) ==>
            token == current && storage.local == old(storage.local) && net.log == old(net.log))
      && (!Truthy(current) && Truthy(refreshToken) ==>
            net.log == old(net.log) + [Exchange(TokenPost(TokenEndpoint, RefreshTokenForm(config.clientId, refreshToken.value)), reply)])
      && (!Truthy(current) && Truthy(refreshToken) && TokenReplyAccepted(reply) ==>
            token == Some(JsText(AccessField(reply.body))) && storage.local == AfterRefresh(old(storage.local), reply.body, now))
      && (!Truthy(current) && Truthy(refreshToken) && !TokenReplyAccepted(reply) ==>
            token == current && storage.local == old(storage.local))
  {
    token := GetAccessToken(storage.local, now);
    if !Truthy(token) {
      var refreshed := RefreshAccessToken(storage, net, config, now);
      if refreshed {
        RefreshedTokenLifetime(old(storage.local), net.ReplyAt(|old(net.log)|).body, now, now);
        token := GetAccessToken(storage.local, now);
      }
    }
  }

  /** `waitForDeviceInAPI`: polls the device list until it names `deviceId`, at most `maxAttempts`
      times, pausing between attempts; failed or non-ok attempts do not stop the loop. */
  method WaitForDeviceInAPI(net: Network, deviceId: string, token: string, maxAttempts: nat)
    returns (visible: bool, delays: nat)
    modifies net
    ensures old(net.log) <= net.log
    ensures var s := |old(net.log)|; var polls := Since(net.log, s);
      && |polls| <= maxAttempts
      && (forall k :: s <= k < |net.log| ==> net.log[k] == Exchange(Get(DevicesUrl, token), net.ReplyAt(k)))
      && (visible <==> exists k :: s <= k < s + maxAttempts && ListsDevice(net.ReplyAt(k), deviceId))
      && (visible ==> |polls| > 0 && ListsDevice(Last(polls).reply, deviceId)
                      && forall k :: s <= k < |net.log| - 1 ==> !ListsDevice(net.ReplyAt(k), deviceId))
      && (!visible ==> |polls| == maxAttempts)
      && delays == (if visible then |polls| - 1 else if maxAttempts == 0 then 0 else maxAttempts - 1)
    ensures NoPuts(Since(net.log, |old(net.log)|))
    ensures maxAttempts == DeviceAttempts && token != "" ==>
              DevicePolls(net, net.log, |old(net.log)|, Some(token), deviceId)
  {
    ghost var s := |net.log|;
    var attempt := 1;
    delays := 0;
    while attempt <= maxAttempts
      invariant 1 <= attempt <= maxAttempts + 1 || (maxAttempts == 0 && attempt == 1)
      invariant old(net.log) <= net.log && |net.log| == s + attempt - 1
      invariant forall k :: s <= k < |net.log| ==>
                  net.log[k] == Exchange(Get(DevicesUrl, token), net.ReplyAt(k)) && !ListsDevice(net.ReplyAt(k), deviceId)
      invariant if attempt <= maxAttempts then delays == attempt - 1
                else delays == (if maxAttempts == 0 then 0 else maxAttempts - 1)
    {
      var response := net.Send(Get(DevicesUrl, token));
      if ListsDevice(response, deviceId) {
        assert Last(Since(net.log, s)) == net.log[|net.log| - 1];
        assert ListsDevice(net.log[|net.log| - 1].reply, deviceId);
        return true, delays;
      }
      if attempt < maxAttempts {
        delays := delays + 1;
      }
      attempt := attempt + 1;
    }
    visible := false;
  }

  /** The number of requests a `getFreshToken` read sends: one refresh, exactly without a valid
      token and with a stored refresh token. */
  function RefreshCount(local: map<string, string>, now: nat): nat
  {
    if !Truthy(GetAccessToken(local, now)) && Truthy(GetItem(local, RefreshTokenKey)) then 1 else 0
  }

  /** The device wait of a creation attempt as seen on the wire from position `s` of `log`, with
      `t` the token it read: between one and `DeviceAttempts` device-list polls carrying `t`,
      stopping at the first reply that lists `deviceId`; no poll without a token. */
  ghost predicate DevicePolls(net: Network, log: seq<Exchange>, s: nat, t: Option<string>, deviceId: string)
  {
    && s <= |log|
    && (!Truthy(t) ==> |log| == s)
    && (Truthy(t) ==>
          && 1 <= |log| - s <= DeviceAttempts
          && (forall k {:trigger log[k]} :: s <= k < |log| ==> log[k] == Exchange(Get(DevicesUrl, t.value), net.ReplyAt(k)))
          && (forall k :: s <= k < |log| - 1 ==> !ListsDevice(log[k].reply, deviceId))
          && (|log| - s < DeviceAttempts ==> ListsDevice(log[|log| - 1].reply, deviceId)))
  }

  /** The conditions reported on `error`; the on-screen wording is not modelled. */
  datatype PlayerError =
    | NoToken | CreationFailed | ConnectFailed
    | InitializationError | AuthenticationError | AccountError
    | NoDevice | TokenExpired | ReconnectFailed | TransferFailed
    | PremiumRequired | PlayFailed(status: int) | NetworkFailure

  /** Calls made on SDK player instances, each instance named by its creation number. */
  datatype SdkCall = Construct(player: nat) | Connect(player: nat) | Disconnect(player: nat)
                   | PauseCall(player: nat) | ActivateCall(player: nat)

  /** What the SDK does during one creation attempt: whether the script is loaded before the 10 s
      timeout, whether `connect()` resolves true, and the device id of the `ready` event (None when
      the 15 s ready timeout fires first). */
  datatype ConnectScript = ConnectScript(sdkLoads: bool, connects: bool, readyDevice: Option<string>)

  /** The part of a session a creation attempt changes. */
  datatype SessionView = SessionView(player: Option<nat>, deviceIdRef: Option<string>, isReady: bool,
                                     constructed: nat, sdkCalls: seq<SdkCall>)

  /** What one `createPlayer` call leaves of `v`: nothing changes while another attempt is in flight;
      otherwise the old player is disconnected, a player is constructed once the token is there and
      the SDK has loaded, kept when it connects, and ready with the device of the `ready` event. */
  function AfterCreate(v: SessionView, busy: bool, hasToken: bool, script: ConnectScript): (r: SessionView)
    ensures busy ==> r == v
    ensures !busy ==> r.constructed <= v.constructed + 1 && |v.sdkCalls| <= |r.sdkCalls|
    ensures !busy && r.isReady ==> r.deviceIdRef.Some? && r.player.Some?
  {
    if busy then v
    else
      var teardown := if v.player.Some? then [Disconnect(v.player.value)] else [];
      var loaded := hasToken && script.sdkLoads;
      var live := loaded && script.connects;
      var ready := live && script.readyDevice.Some?;
      SessionView(
        if live then Some(v.constructed) else None,
        if ready then script.readyDevice else None,
        ready,
        if loaded then v.constructed + 1 else v.constructed,
        v.sdkCalls + teardown + (if loaded then [Construct(v.constructed), Connect(v.constructed)] else []))
  }

  /** A creation attempt that got past the single-flight check ends in `AfterCreate` once its
      teardown, construction and readiness are as the attempt leaves them. */
  lemma CreateOutcome(v: SessionView, hasToken: bool, script: ConnectScript, r: SessionView)
    requires r.constructed == (if hasToken && script.sdkLoads then v.constructed + 1 else v.constructed)
    requires r.sdkCalls == v.sdkCalls + (if v.player.Some? then [Disconnect(v.player.value)] else [])
                         + (if r.constructed > v.constructed then [Construct(v.constructed), Connect(v.constructed)] else [])
    requires r.player == (if hasToken && script.sdkLoads && script.connects then Some(v.constructed) else None)
    requires r.isReady <==> hasToken && script.sdkLoads && script.connects && script.readyDevice.Some?
    requires r.deviceIdRef == (if r.isReady then script.readyDevice else None)
    ensures r == AfterCreate(v, false, hasToken, script)
  {
  }

  /** The state `SpotifyPlayerProvider` keeps in refs and state cells. */
  class PlayerSession {
    var player: Option<nat>          // playerRef
    var deviceIdRef: Option<string>  // deviceIdRef
    var deviceId: Option<string>     // the deviceId state cell shown to consumers
    var isReady: bool
    var isPlaying: bool
    var error: Option<PlayerError>
    var isConnecting: bool           // isConnectingRef
    var constructed: nat             // players constructed so far
    ghost var sdkCalls: seq<SdkCall>
    ghost var createCalls: nat       // calls of createPlayer so far

    ghost predicate Valid()
      reads this
    {
      && (player.None? ==> deviceIdRef.None?)
      && (isReady ==> deviceIdRef.Some?)
      && deviceId == deviceIdRef
      && (player.Some? ==> player.value < constructed)
    }

    ghost function View(): SessionView
      reads this
    {
      SessionView(player, deviceIdRef, isReady, constructed, sdkCalls)
    }

    constructor ()
      ensures Valid()
      ensures player == None && deviceIdRef == None && deviceId == None && !isReady && !isPlaying
      ensures error == None && !isConnecting && constructed == 0 && sdkCalls == [] && createCalls == 0
    {
      player, deviceIdRef, deviceId := None, None, None;
      isReady, isPlaying, error, isConnecting := false, false, None, false;
      constructed, sdkCalls, createCalls := 0, [], 0;
    }

    /** `createPlayer`: single-flight; tears down the old player, then gets a token, constructs and
        connects a new player and waits for its device. Exactly one construction per attempt that
        gets past the token check and the SDK wait. */
    method CreatePlayer(storage: Storage, net: Network, config: Config, now: nat, script: ConnectScript)
      returns (ok: bool, token: Option<string>)
      requires Valid()
      modifies `player, `deviceIdRef, `deviceId, `isReady, `error, `isConnecting, `constructed, `sdkCalls, `createCalls, storage, net
      ensures Valid()
      ensures createCalls == old(createCalls) + 1 && isPlaying == old(isPlaying)
      ensures storage.session == old(storage.session)
      ensures old(net.log) <= net.log && NoPuts(Since(net.log, |old(net.log)|))
      ensures old(isConnecting) ==>
                && !ok && isConnecting && player == old(player) && deviceIdRef == old(deviceIdRef)
                && isReady == old(isReady) && error == old(error) && constructed == old(constructed)
                && sdkCalls == old(sdkCalls) && storage.local == old(storage.local) && net.log == old(net.log)
      ensures !old(isConnecting) ==> !isConnecting
      ensures !old(isConnecting) ==>
                var teardown := if old(player).Some? then [Disconnect(old(player).value)] else [];
                var created := if constructed > old(constructed) then [Construct(old(constructed)), Connect(old(constructed))] else [];
                sdkCalls == old(sdkCalls) + teardown + created && old(constructed) <= constructed <= old(constructed) + 1
      ensures !old(isConnecting) ==>
                && storage.local == FreshLocal(old(storage.local), net.ReplyAt(|old(net.log)|), now)
                && token == GetAccessToken(storage.local, now)
      ensures !old(isConnecting) && Truthy(GetAccessToken(old(storage.local), now)) ==>
                token == GetAccessToken(old(storage.local), now)
      ensures !old(isConnecting) && !Truthy(token) ==>
                !ok && constructed == old(constructed) && player == None && error == Some(NoToken)
      ensures !old(isConnecting) && Truthy(token) ==> (constructed == old(constructed) + 1 <==> script.sdkLoads)
      ensures !old(isConnecting) && Truthy(token) && script.sdkLoads && script.connects ==>
                player == Some(old(constructed))
      ensures !old(isConnecting) && !(Truthy(token) && script.sdkLoads && script.connects) ==> player == None
      ensures ok <==> !old(isConnecting) && Truthy(token) && script.sdkLoads && script.connects && script.readyDevice.Some?
      ensures ok ==> deviceIdRef == script.readyDevice && isReady && error == None
      ensures !old(isConnecting) && !ok ==> deviceIdRef == None && !isReady && error.Some?
      ensures isConnecting == old(isConnecting)
      ensures View() == AfterCreate(old(View()), old(isConnecting), Truthy(token), script)
      ensures !old(isConnecting) && Truthy(token) && script.sdkLoads && script.connects && script.readyDevice.Some? ==>
                DevicePolls(net, net.log, |old(net.log)| + RefreshCount(old(storage.local), now), token,
                            script.readyDevice.value)
      ensures !(Truthy(token) && script.sdkLoads && script.connects && script.readyDevice.Some?) ==>
                |net.log| == |old(net.log)| + (if old(isConnecting) then 0 else RefreshCount(old(storage.local), now))
    {
      if isConnecting {
        createCalls := createCalls + 1;
        return false, None;
      }
      ghost var v0 := View();
      isConnecting := true;
      Teardown();
      ok, token := Build(storage, net, config, now, script);
      isConnecting := false;
      createCalls := createCalls + 1;
      CreateOutcome(v0, Truthy(token), script, View());
    }

    /** The start of an attempt: the existing player is disconnected and forgotten. */
    method Teardown()
      requires Valid()
      modifies `player, `deviceIdRef, `deviceId, `isReady, `sdkCalls
      ensures Valid() && player == None && deviceIdRef == None && !isReady
      ensures sdkCalls == old(sdkCalls) + if old(player).Some? then [Disconnect(old(player).value)] else []
      ensures isPlaying == old(isPlaying) && error == old(error) && isConnecting == old(isConnecting)
      ensures constructed == old(constructed) && createCalls == old(createCalls)
    {
      if player.Some? {
        sdkCalls := sdkCalls + [Disconnect(player.value)];
        player := None;
        deviceIdRef := None;
        deviceId := None;
        isReady := false;
      }
    }

    /** The body of an attempt after the teardown; every failure is caught and reported. */
    method Build(storage: Storage, net: Network, config: Config, now: nat, script: ConnectScript)
      returns (ok: bool, token: Option<string>)
      requires Valid() && player == None
      modifies `player, `deviceIdRef, `deviceId, `isReady, `error, `constructed, `sdkCalls, storage, net
      ensures Valid()
      ensures isPlaying == old(isPlaying) && isConnecting == old(isConnecting) && createCalls == old(createCalls)
      ensures storage.session == old(storage.session)
      ensures old(net.log) <= net.log && NoPuts(Since(net.log, |old(net.log)|))
      ensures sdkCalls == old(sdkCalls) + (if constructed > old(constructed) then [Construct(old(constructed)), Connect(old(constructed))] else [])
      ensures old(constructed) <= constructed <= old(constructed) + 1
      ensures storage.local == FreshLocal(old(storage.local), net.ReplyAt(|old(net.log)|), now)
      ensures token == GetAccessToken(storage.local, now)
      ensures Truthy(GetAccessToken(old(storage.local), now)) ==> token == GetAccessToken(old(storage.local), now)
      ensures !Truthy(token) ==> !ok && constructed == old(constructed) && player == None && error == Some(NoToken)
      ensures Truthy(token) ==> (constructed == old(constructed) + 1 <==> script.sdkLoads)
      ensures Truthy(token) && script.sdkLoads && script.connects ==> player == Some(old(constructed))
      ensures !(Truthy(token) && script.sdkLoads && script.connects) ==> player == None
      ensures ok <==> Truthy(token) && script.sdkLoads && script.connects && script.readyDevice.Some?
      ensures ok ==> deviceIdRef == script.readyDevice && isReady && error == None
      ensures !ok ==> deviceIdRef == old(deviceIdRef) && isReady == old(isReady) && error.Some?
      ensures ok ==> DevicePolls(net, net.log, |old(net.log)| + RefreshCount(old(storage.local), now), token,
                                 script.readyDevice.value)
      ensures !ok ==> |net.log| == |old(net.log)| + RefreshCount(old(storage.local), now)
    {
      ghost var log0 := net.log;
      token := GetFreshToken(storage, net, config, now);
      ghost var log1 := net.log;
      if !Truthy(token) {
        error := Some(NoToken);
        return false, token;
      }
      if !script.sdkLoads {
        // waitForSpotifySDK rejects
        error := Some(CreationFailed);
        return false, token;
      }
      ok := Launch(storage, net, config, now, script);
      NoPutsGrow(log0, log1, net.log);
    }

    /** The part of an attempt after the SDK has loaded: construct and connect a player, wait for
        its `ready` event, then for its device. */
    method Launch(storage: Storage, net: Network, config: Config, now: nat, script: ConnectScript)
      returns (ok: bool)
      requires Valid() && player == None
      modifies `player, `deviceIdRef, `deviceId, `isReady, `error, `constructed, `sdkCalls, storage, net
      ensures Valid()
      ensures isPlaying == old(isPlaying) && isConnecting == old(isConnecting) && createCalls == old(createCalls)
      ensures storage.session == old(storage.session)
      ensures old(net.log) <= net.log && NoPuts(Since(net.log, |old(net.log)|))
      ensures Truthy(GetAccessToken(old(storage.local), now)) ==> storage.local == old(storage.local)
      ensures constructed == old(constructed) + 1
      ensures sdkCalls == old(sdkCalls) + [Construct(old(constructed)), Connect(old(constructed))]
      ensures player == if script.connects then Some(old(constructed)) else None
      ensures ok <==> script.connects && script.readyDevice.Some?
      ensures ok ==> deviceIdRef == script.readyDevice && isReady && error == None
      ensures !ok ==> deviceIdRef == old(deviceIdRef) && isReady == old(isReady) && error.Some?
      ensures ok ==> storage.local == FreshLocal(old(storage.local), net.ReplyAt(|old(net.log)|), now)
      ensures ok ==> DevicePolls(net, net.log, |old(net.log)| + RefreshCount(old(storage.local), now),
                                 GetAccessToken(storage.local, now), script.readyDevice.value)
      ensures !ok ==> net.log == old(net.log) && storage.local == old(storage.local)
    {
      var created := constructed;
      constructed, sdkCalls := constructed + 1, sdkCalls + [Construct(created), Connect(created)];
      if !script.connects {
        error := Some(ConnectFailed);
        return false;
      }
      player := Some(created);
      if script.readyDevice.None? {
        // the ready promise rejects after 15 s; the connected player stays in playerRef
        error := Some(CreationFailed);
        return false;
      }
      AwaitDevice(storage, net, config, now, script.readyDevice.value);
      ok := true;
    }

    /** The end of a creation attempt after the `ready` event: a second fresh token and, when
        there is one, the device poll, then the device is published; a device that never shows up
        is not an error. */
    method AwaitDevice(storage: Storage, net: Network, config: Config, now: nat, deviceId: string)
      requires Valid() && player.Some?
      modifies `deviceIdRef, `deviceId, `isReady, `error, storage, net
      ensures Valid()
      ensures deviceIdRef == Some(deviceId) && isReady && error == None
      ensures storage.session == old(storage.session)
      ensures storage.local == FreshLocal(old(storage.local), net.ReplyAt(|old(net.log)|), now)
      ensures Truthy(GetAccessToken(old(storage.local), now)) ==> storage.local == old(storage.local)
      ensures old(net.log) <= net.log && NoPuts(Since(net.log, |old(net.log)|))
      ensures DevicePolls(net, net.log, |old(net.log)| + RefreshCount(old(storage.local), now),
                          GetAccessToken(storage.local, now), deviceId)
    {
      ghost var log0 := net.log;
      var currentToken := GetFreshToken(storage, net, config, now);
      ghost var log1 := net.log;
      assert |log1| == |log0| + RefreshCount(old(storage.local), now);
      if Truthy(currentToken) {
        var _, _ := WaitForDeviceInAPI(net, deviceId, currentToken.value, DeviceAttempts);
        NoPutsGrow(log0, log1, net.log);
      }
      deviceIdRef, this.deviceId, isReady, error := Some(deviceId), Some(deviceId), true, None;
    }

    /** `reconnect`: another creation attempt, its result dropped; the new state is that of
        `createPlayer`, with the token it reads written out. */
    method Reconnect(storage: Storage, net: Network, config: Config, now: nat, script: ConnectScript)
      requires Valid()
      modifies `player, `deviceIdRef, `deviceId, `isReady, `error, `isConnecting, `constructed, `sdkCalls, `createCalls, storage, net
      ensures Valid()
      ensures createCalls == old(createCalls) + 1 && isPlaying == old(isPlaying)
      ensures storage.session == old(storage.session)
      ensures old(net.log) <= net.log && NoPuts(Since(net.log, |old(net.log)|))
      ensures old(isConnecting) ==>
                && isConnecting && player == old(player) && deviceIdRef == old(deviceIdRef)
                && isReady == old(isReady) && error == old(error) && constructed == old(constructed)
                && sdkCalls == old(sdkCalls) && storage.local == old(storage.local) && net.log == old(net.log)
      ensures !old(isConnecting) ==>
                var teardown := if old(player).Some? then [Disconnect(old(player).value)] else [];
                var created := if constructed > old(constructed) then [Construct(old(constructed)), Connect(old(constructed))] else [];
                !isConnecting && sdkCalls == old(sdkCalls) + teardown + created
      ensures var local := FreshLocal(old(storage.local), net.ReplyAt(|old(net.log)|), now);
              var token := GetAccessToken(local, now);
              var live := Truthy(token) && script.sdkLoads && script.connects;
        !old(isConnecting) ==>
          && storage.local == local
          && constructed == (if Truthy(token) && script.sdkLoads then old(constructed) + 1 else old(constructed))
          && player == (if live then Some(old(constructed)) else None)
          && (!Truthy(token) ==> error == Some(NoToken))
          && (if live && script.readyDevice.Some?
              then deviceIdRef == script.readyDevice && isReady && error == None
              else deviceIdRef == None && !isReady && error.Some?)
    {
      var _, _ := CreatePlayer(storage, net, config, now, script);
    }

    /** `play`: transfer to the current device, reconnecting once if it is not found, then play,
        retrying once after a fresh transfer if the play says the device is not found. The token is
        the one `getFreshToken` reads; the reconnect reads the same token, so it succeeds exactly
        as `ReconnectDevice` says. */
    method Play(storage: Storage, net: Network, config: Config, now: nat, trackUri: string, script: ConnectScript)
      returns (ok: bool)
      requires Valid()
      modifies `player, `deviceIdRef, `deviceId, `isReady, `error, `isConnecting, `constructed, `sdkCalls, `createCalls, storage, net
      ensures Valid()
      ensures storage.session == old(storage.session) && isPlaying == old(isPlaying)
      ensures old(net.log) <= net.log
      ensures !Truthy(old(deviceIdRef)) ==>
                !ok && net.log == old(net.log) && storage.local == old(storage.local) && error == Some(NoDevice)
      ensures var local := FreshLocal(old(storage.local), net.ReplyAt(|old(net.log)|), now);
              var token := GetAccessToken(local, now);
              var puts := Puts(Since(net.log, |old(net.log)|));
        && (puts == [] ==> !ok && createCalls == old(createCalls))
        && isConnecting == old(isConnecting)
        && (puts == [] || !HasStatus(puts[0].reply, 404) ==> View() == old(View()))
        && (puts != [] && HasStatus(puts[0].reply, 404) ==>
              View() == AfterCreate(old(View()), old(isConnecting), true, script))
        && (Truthy(old(deviceIdRef)) ==> storage.local == local)
        && (Truthy(old(deviceIdRef)) && !Truthy(token) ==> !ok && puts == [] && error == Some(TokenExpired))
        && (Truthy(old(deviceIdRef)) && Truthy(token) ==>
              && PlayProtocol(puts, old(deviceIdRef).value, token.value, trackUri,
                              ReconnectDevice(old(isConnecting), script), deviceIdRef, createCalls - old(createCalls), ok)
              && (ok ==> error == if HasStatus(puts[0].reply, 404) then None else old(error))
              && (!ok ==> error.Some?)
              && (Plays(puts) != [] && HasStatus(Plays(puts)[0].reply, 403) ==> error == Some(PremiumRequired)))
        && (puts != [] && Truthy(GetAccessToken(old(storage.local), now)) ==>
              Bearer(puts[0]) == GetAccessToken(old(storage.local), now).value)
    {
      var currentDeviceId := deviceIdRef;
      if !Truthy(currentDeviceId) {
        error := Some(NoDevice);
        return false;
      }
      var token := GetFreshToken(storage, net, config, now);
      if !Truthy(token) {
        error := Some(TokenExpired);
        PutsOfNoPuts(Since(net.log, |old(net.log)|));
        return false;
      }
      ghost var log0, log1 := old(net.log), net.log;
      ok := TransferAndPlay(storage, net, config, now, token.value, currentDeviceId.value, trackUri, script);
      ghost var puts := Puts(Since(net.log, |log1|));
      assert Puts(Since(net.log, |log0|)) == puts by {
        PutsOfNoPuts(Since(log1, |log0|));
        PutsGrow(log0, log1, net.log);
        assert [] + puts == puts;
      }
      assert Bearer(puts[0]) == token.value;
    }

    /** `play` once it has a device and the stored, valid token. */
    method TransferAndPlay(storage: Storage, net: Network, config: Config, now: nat, token: string,
                           device: string, trackUri: string, script: ConnectScript)
      returns (ok: bool)
      requires Valid() && deviceIdRef == Some(device) && device != ""
      requires GetAccessToken(storage.local, now) == Some(token) && token != ""
      modifies `player, `deviceIdRef, `deviceId, `isReady, `error, `isConnecting, `constructed, `sdkCalls, `createCalls, storage, net
      ensures Valid()
      ensures storage.session == old(storage.session) && storage.local == old(storage.local)
      ensures isPlaying == old(isPlaying)
      ensures old(net.log) <= net.log
      ensures var puts := Puts(Since(net.log, |old(net.log)|));
        && PlayProtocol(puts, device, token, trackUri, ReconnectDevice(old(isConnecting), script),
                        deviceIdRef, createCalls - old(createCalls), ok)
        && isConnecting == old(isConnecting)
        && (!HasStatus(puts[0].reply, 404) ==> View() == old(View()))
        && (HasStatus(puts[0].reply, 404) ==> View() == AfterCreate(old(View()), old(isConnecting), true, script))
        && (ok ==> error == if HasStatus(puts[0].reply, 404) then None else old(error))
        && (!ok ==> error.Some?)
        && (Plays(puts) != [] && HasStatus(Plays(puts)[0].reply, 403) ==> error == Some(PremiumRequired))
    {
      ghost var log0 := net.log;
      ghost var calls0 := createCalls;
      ghost var retryTo := ReconnectDevice(isConnecting, script);
      var proceed := TransferToDevice(storage, net, config, now, token, device, script);
      ghost var log1 := net.log;
      ghost var tp := Puts(Since(log1, |log0|));
      if !proceed {
        StopAfterTransfer(tp, device, token, trackUri, retryTo, deviceIdRef, createCalls - calls0);
        return false;
      }
      ok := PlayStep(net, token, trackUri);
      ghost var pp := Puts(Since(net.log, |log1|));
      PutsGrow(log0, log1, net.log);
      ComposePlay(Puts(Since(net.log, |log0|)), tp, pp, device, token, trackUri, retryTo, deviceIdRef.value,
                  createCalls - calls0, ok);
    }

    /** Step 2 of `play` on the session: the play request for the device held, its failure
        reported on `error`. */
    method PlayStep(net: Network, token: string, trackUri: string) returns (ok: bool)
      requires deviceIdRef.Some?
      modifies `error, net
      ensures old(net.log) <= net.log
      ensures var pp := Puts(Since(net.log, |old(net.log)|));
        && PlaySteps(pp, deviceIdRef.value, token, trackUri, ok)
        && (ok ==> error == old(error))
        && (!ok ==> error == Some(if Last(pp).reply.NetworkError? then NetworkFailure
                                  else if pp[0].reply.status == 403 then PremiumRequired
                                  else PlayFailed(pp[0].reply.status)))
        && (HasStatus(Plays(pp)[0].reply, 403) ==> error == Some(PremiumRequired))
    {
      var failure;
      ok, failure := PlayOnDevice(net, token, trackUri, deviceIdRef.value);
      if !ok {
        error := Some(failure);
      }
    }

    /** Step 1 of `play`: the transfer, and on a 404 one reconnect and one more transfer to the
        device it yields. */
    method TransferToDevice(storage: Storage, net: Network, config: Config, now: nat, token: string,
                            device: string, script: ConnectScript)
      returns (proceed: bool)
      requires Valid() && deviceIdRef == Some(device) && device != ""
      requires GetAccessToken(storage.local, now) == Some(token) && token != ""
      modifies `player, `deviceIdRef, `deviceId, `isReady, `error, `isConnecting, `constructed, `sdkCalls, `createCalls, storage, net
      ensures Valid()
      ensures storage.session == old(storage.session) && storage.local == old(storage.local)
      ensures isPlaying == old(isPlaying)
      ensures old(net.log) <= net.log
      ensures var puts := Puts(Since(net.log, |old(net.log)|));
              var retryTo := ReconnectDevice(old(isConnecting), script);
        && TransferSteps(puts, device, token, retryTo, proceed, createCalls - old(createCalls))
        && isConnecting == old(isConnecting)
        && (!HasStatus(puts[0].reply, 404) ==> View() == old(View()))
        && (HasStatus(puts[0].reply, 404) ==> View() == AfterCreate(old(View()), old(isConnecting), true, script))
        && (proceed ==> deviceIdRef == if HasStatus(puts[0].reply, 404) then retryTo else old(deviceIdRef))
        && (proceed ==> error == if HasStatus(puts[0].reply, 404) then None else old(error))
        && (!proceed ==> error == Some(if Last(puts).reply.NetworkError? then NetworkFailure
                                       else if |puts| == 1 then ReconnectFailed else TransferFailed))
    {
      ghost var log0 := net.log;
      ghost var s := |log0|;
      ghost var retryTo := ReconnectDevice(isConnecting, script);
      var transfer := net.Send(TransferRequest(token, device));
      ghost var e0 := Exchange(TransferRequest(token, device), transfer);
      assert Puts(Since(net.log, s)) == [e0] by {
        assert Since(log0, s) == [];
        PutsAfterSend(log0, s, e0);
      }
      if transfer.NetworkError? {
        error := Some(NetworkFailure);
        return false;
      }
      if Accepted(transfer) {
        // settle delay
        return true;
      }
      if transfer.status != 404 {
        // any other status goes on to the play request
        return true;
      }
      ghost var log1 := net.log;
      proceed := RecoverTransfer(storage, net, config, now, token, script);
      PutsGrow(log0, log1, net.log);
    }

    /** The 404 branch of the transfer step: one reconnect and, when it yields a truthy device,
        one more transfer to it. */
    method RecoverTransfer(storage: Storage, net: Network, config: Config, now: nat, token: string,
                           script: ConnectScript)
      returns (proceed: bool)
      requires Valid()
      requires GetAccessToken(storage.local, now) == Some(token) && token != ""
      modifies `player, `deviceIdRef, `deviceId, `isReady, `error, `isConnecting, `constructed, `sdkCalls, `createCalls, storage, net
      ensures Valid()
      ensures storage.session == old(storage.session) && storage.local == old(storage.local)
      ensures isPlaying == old(isPlaying) && isConnecting == old(isConnecting)
      ensures createCalls == old(createCalls) + 1
      ensures View() == AfterCreate(old(View()), old(isConnecting), true, script)
      ensures old(net.log) <= net.log
      ensures var puts := Puts(Since(net.log, |old(net.log)|));
              var retryTo := ReconnectDevice(old(isConnecting), script);
        && (retryTo.None? ==> puts == [])
        && (retryTo.Some? ==> |puts| == 1 && puts[0].request == TransferRequest(token, retryTo.value))
        && (proceed <==> retryTo.Some? && Accepted(puts[0].reply))
        && (proceed ==> deviceIdRef == retryTo && error == None)
        && (!proceed ==> error == Some(if puts == [] then ReconnectFailed
                                       else if puts[0].reply.NetworkError? then NetworkFailure else TransferFailed))
    {
      ghost var log1 := net.log;
      var reconnected, _ := CreatePlayer(storage, net, config, now, script);
      ghost var log2 := net.log;
      PutsOfNoPuts(Since(log2, |log1|));
      if !reconnected || !Truthy(deviceIdRef) {
        error := Some(ReconnectFailed);
        return false;
      }
      var retryRequest := TransferRequest(token, deviceIdRef.value);
      var retryTransfer := net.Send(retryRequest);
      assert Puts(Since(net.log, |log1|)) == [Exchange(retryRequest, retryTransfer)] by {
        PutsAfterSend(log2, |log1|, Exchange(retryRequest, retryTransfer));
      }
      if retryTransfer.NetworkError? {
        error := Some(NetworkFailure);
        return false;
      }
      if !Accepted(retryTransfer) {
        error := Some(TransferFailed);
        return false;
      }
      // settle delay
      proceed := true;
    }

    /** Step 2 of `play`: the play request for `device`, and on a 404 one more transfer and one
        retry; `failure` is what is reported when it does not start. */
    static method PlayOnDevice(net: Network, token: string, trackUri: string, device: string)
      returns (ok: bool, failure: PlayerError)
      modifies net
      ensures old(net.log) <= net.log
      ensures var puts := Puts(Since(net.log, |old(net.log)|));
        && PlaySteps(puts, device, token, trackUri, ok)
        && (!ok ==> failure == if Last(puts).reply.NetworkError? then NetworkFailure
                               else if puts[0].reply.status == 403 then PremiumRequired
                               else PlayFailed(puts[0].reply.status))
        && (HasStatus(Plays(puts)[0].reply, 403) ==> failure == PremiumRequired)
    {
      ghost var log0 := net.log;
      ghost var s := |log0|;
      var playRequest := PlayRequest(token, device, trackUri);
      var playResponse := net.Send(playRequest);
      ghost var e0 := Exchange(playRequest, playResponse);
      assert Puts(Since(net.log, s)) == [e0] && Plays([e0]) == [e0] by {
        assert Since(log0, s) == [];
        PutsAfterSend(log0, s, e0);
      }
      if playResponse.NetworkError? {
        return false, NetworkFailure;
      }
      if Accepted(playResponse) {
        return true, NetworkFailure;
      }
      if playResponse.status == 404 {
        ghost var log1 := net.log;
        var transfer := net.Send(TransferRequest(token, device));
        ghost var e1 := Exchange(TransferRequest(token, device), transfer);
        assert Puts(Since(net.log, s)) == [e0, e1] && Plays([e0, e1]) == [e0] by {
          PutsAfterSend(log1, s, e1);
        }
        if transfer.NetworkError? {
          // the rejected transfer ends the call in the catch block, before the retry
          return false, NetworkFailure;
        }
        ghost var log2 := net.log;
        var retryPlay := net.Send(playRequest);
        ghost var e2 := Exchange(playRequest, retryPlay);
        assert Puts(Since(net.log, s)) == [e0, e1, e2] && Plays([e0, e1, e2]) == [e0, e2] by {
          PutsAfterSend(log2, s, e2);
          assert [e0, e1] + [e2] == [e0, e1, e2];
        }
        if Accepted(retryPlay) {
          return true, NetworkFailure;
        }
        if retryPlay.NetworkError? {
          return false, NetworkFailure;
        }
      }
      if playResponse.status == 403 {
        return false, PremiumRequired;
      }
      ok, failure := false, PlayFailed(playResponse.status);
    }

    /** `pausePlayback`: pauses the SDK player if there is one; SDK errors are swallowed. */
    method PausePlayback()
      requires Valid()
      modifies this
      ensures Valid()
      ensures player == old(player) && deviceIdRef == old(deviceIdRef) && deviceId == old(deviceId)
      ensures isReady == old(isReady) && isPlaying == old(isPlaying) && error == old(error)
      ensures isConnecting == old(isConnecting) && constructed == old(constructed) && createCalls == old(createCalls)
      ensures sdkCalls == old(sdkCalls) + if player.Some? then [PauseCall(player.value)] else []
    {
      if player.Some? {
        sdkCalls := sdkCalls + [PauseCall(player.value)];
      }
    }

    /** `activatePlayer`: the user-gesture activation of the SDK player, if there is one; SDK
        errors are swallowed. */
    method ActivatePlayer()
      requires Valid()
      modifies this
      ensures Valid()
      ensures player == old(player) && deviceIdRef == old(deviceIdRef) && deviceId == old(deviceId)
      ensures isReady == old(isReady) && isPlaying == old(isPlaying) && error == old(error)
      ensures isConnecting == old(isConnecting) && constructed == old(constructed) && createCalls == old(createCalls)
      ensures sdkCalls == old(sdkCalls) + if player.Some? then [ActivateCall(player.value)] else []
    {
      if player.Some? {
        sdkCalls := sdkCalls + [ActivateCall(player.value)];
      }
    }

    /** The `not_ready` listener: the device went offline; its id is kept. */
    method OnNotReady()
      requires Valid()
      modifies this
      ensures Valid() && !isReady
      ensures player == old(player) && deviceIdRef == old(deviceIdRef) && deviceId == old(deviceId)
      ensures isPlaying == old(isPlaying) && error == old(error) && isConnecting == old(isConnecting)
      ensures constructed == old(constructed) && sdkCalls == old(sdkCalls) && createCalls == old(createCalls)
    {
      isReady := false;
    }

    /** The `initialization_error`, `authentication_error` and `account_error` listeners. */
    method OnSdkError(kind: PlayerError)
      requires Valid()
      requires kind == InitializationError || kind == AuthenticationError || kind == AccountError
      modifies this
      ensures Valid() && error == Some(kind)
      ensures player == old(player) && deviceIdRef == old(deviceIdRef) && deviceId == old(deviceId)
      ensures isReady == old(isReady) && isPlaying == old(isPlaying) && isConnecting == old(isConnecting)
      ensures constructed == old(constructed) && sdkCalls == old(sdkCalls) && createCalls == old(createCalls)
    {
      error := Some(kind);
    }

    /** The `player_state_changed` listener; `paused` is None for a null state. */
    method OnPlayerStateChanged(paused: Option<bool>)
      requires Valid()
      modifies this
      ensures Valid()
      ensures isPlaying == if paused.Some? then !paused.value else old(isPlaying)
      ensures player == old(player) && deviceIdRef == old(deviceIdRef) && deviceId == old(deviceId)
      ensures isReady == old(isReady) && error == old(error) && isConnecting == old(isConnecting)
      ensures constructed == old(constructed) && sdkCalls == old(sdkCalls) && createCalls == old(createCalls)
    {
      if paused.Some? {
        isPlaying := !paused.value;
      }
    }

    /** The provider's cleanup: disconnects the current player, if any. */
    method Unmount()
      requires Valid()
      modifies this
      ensures Valid()
      ensures player == old(player) && deviceIdRef == old(deviceIdRef) && deviceId == old(deviceId)
      ensures isReady == old(isReady) && isPlaying == old(isPlaying) && error == old(error)
      ensures isConnecting == old(isConnecting) && constructed == old(constructed) && createCalls == old(createCalls)
      ensures sdkCalls == old(sdkCalls) + if player.Some? then [Disconnect(player.value)] else []
    {
      if player.Some? {
        sdkCalls := sdkCalls + [Disconnect(player.value)];
      }
    }
  }
}
