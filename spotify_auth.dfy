/** OAuth 2.0 authorization-code login with PKCE (RFC 7636) against the vendor's accounts service,
    and the token record kept in the browser's local storage. */
module SpotifyAuth {
  import opened Wrappers
  import opened Seqs
  import opened Strings
  import opened Http

  newtype byte = x: int | 0 <= x < 256

  // ---------------------------------------------------------------------------------------------
  // Configuration

  /** The two build-time settings: the registered client id and the callback URI. */
  datatype Config = Config(clientId: string, redirectUri: string)

  const AuthEndpoint: string := "https://accounts.spotify.com/authorize"
  const TokenEndpoint: string := "https://accounts.spotify.com/api/token"

  /** The granted scopes, space separated as `scopes.join(' ')` writes them. */
  const Scopes: string :=
    "user-read-private user-read-email user-top-read user-read-recently-played "
    + "playlist-read-private playlist-read-collaborative streaming "
    + "user-read-playback-state user-modify-playback-state"

  // ---------------------------------------------------------------------------------------------
  // Browser storage

  const VerifierKey: string := "spotify_code_verifier"
  const AccessTokenKey: string := "spotify_access_token"
  const RefreshTokenKey: string := "spotify_refresh_token"
  const ExpiresAtKey: string := "spotify_token_expires_at"
  /** The session-storage key of the cached "recently played" list. */
  const RecentlyPlayedKey: string := "spotyfusion_recently_played"

  const LocalKeys: set<string> := {AccessTokenKey, RefreshTokenKey, ExpiresAtKey, VerifierKey}

  /** `localStorage` and `sessionStorage` of the page. */
  class Storage {
    var local: map<string, string>
    var session: map<string, string>

    constructor (local: map<string, string>, session: map<string, string>)
      ensures this.local == local && this.session == session
    {
      this.local := local;
      this.session := session;
    }
  }

  /** `getItem`: the stored text, or null. */
  function GetItem(m: map<string, string>, key: string): Option<string>
  {
    if key in m then Some(m[key]) else None
  }

  // ---------------------------------------------------------------------------------------------
  // PKCE verifier and challenge

  /** The character range starting at `first`, `n` characters long. */
  function CharRange(first: char, n: nat): (r: string)
    requires first as int + n <= 0xD800
    ensures |r| == n && forall k :: 0 <= k < n ==> r[k] as int == first as int + k
  {
    seq(n, k requires 0 <= k < n => (first as int + k) as char)
  }

  /** "ABCDEFGHIJKLMNOPQRSTUVWXYZabcdefghijklmnopqrstuvwxyz0123456789", range by range. */
  const Possible: string := CharRange('A', 26) + CharRange('a', 26) + CharRange('0', 10)
  const VerifierLength: nat := 64

  /** The verifier built from the bytes `crypto.getRandomValues` produced: one character per byte,
      the byte taken modulo the size of the alphabet. */
  function GenerateRandomString(values: seq<byte>): (r: string)
    ensures |r| == |values|
    ensures forall i :: 0 <= i < |values| ==> r[i] == Possible[values[i] as int % |Possible|]
  {
    if values == [] then ""
    else GenerateRandomString(values[..|values| - 1]) + [Possible[values[|values| - 1] as int % |Possible|]]
  }

  predicate IsAlphanumeric(c: char)
  {
    'A' <= c <= 'Z' || 'a' <= c <= 'z' || '0' <= c <= '9'
  }

  /** The unreserved characters of section 4.1 of RFC 7636. */
  predicate IsUnreserved(c: char)
  {
    IsAlphanumeric(c) || c == '-' || c == '.' || c == '_' || c == '~'
  }

  /** A code verifier as section 4.1 of RFC 7636 defines it. */
  predicate ValidVerifier(v: string)
  {
    43 <= |v| <= 128 && forall i :: 0 <= i < |v| ==> IsUnreserved(v[i])
  }

  lemma PossibleIsAlphanumeric()
    ensures forall k :: 0 <= k < |Possible| ==> IsAlphanumeric(Possible[k])
  {
    forall k | 0 <= k < |Possible| ensures IsAlphanumeric(Possible[k]) {
      if k < 26 {
        assert Possible[k] == CharRange('A', 26)[k];
      } else if k < 52 {
        assert Possible[k] == CharRange('a', 26)[k - 26];
      } else {
        assert Possible[k] == CharRange('0', 10)[k - 52];
      }
    }
  }

  /** The verifier the login generates is a valid RFC 7636 verifier made of letters and digits only. */
  lemma GeneratedVerifierIsValid(values: seq<byte>)
    requires |values| == VerifierLength
    ensures ValidVerifier(GenerateRandomString(values))
    ensures forall i :: 0 <= i < |values| ==> IsAlphanumeric(GenerateRandomString(values)[i])
  {
    var v := GenerateRandomString(values);
    PossibleIsAlphanumeric();
    forall i | 0 <= i < |v| ensures IsAlphanumeric(v[i]) {
      assert v[i] == Possible[values[i] as int % |Possible|];
    }
  }

  function NotPadding(c: char): bool
  {
    c != '='
  }

  /** The tail of `generateCodeChallenge`: the base64 text of the digest with every `=` removed,
      then `+` replaced by `-` and `/` by `_` (base64url without padding, section 5 of RFC 4648). */
  function GenerateCodeChallenge(base64: string): (r: string)
    ensures '=' !in r && '+' !in r && '/' !in r
    ensures |r| == |Filter(base64, NotPadding)|
  {
    var unpadded := Filter(base64, NotPadding);
    var dashed := ReplaceAll(unpadded, '+', '-');
    var r := ReplaceAll(dashed, '/', '_');
    FilterMembers(base64, NotPadding);
    assert forall i :: 0 <= i < |r| ==> r[i] != '=' && r[i] != '+' && r[i] != '/' by {
      forall i | 0 <= i < |r| ensures r[i] != '=' && r[i] != '+' && r[i] != '/' {
        assert unpadded[i] in unpadded;
      }
    }
    r
  }

  predicate IsBase64Text(s: string)
  {
    forall i :: 0 <= i < |s| ==> IsAlphanumeric(s[i]) || s[i] == '+' || s[i] == '/' || s[i] == '='
  }

  predicate IsBase64UrlChar(c: char)
  {
    IsAlphanumeric(c) || c == '-' || c == '_'
  }

  /** Undoing the alphabet change of base64url. */
  function FromBase64Url(s: string): string
  {
    ReplaceAll(ReplaceAll(s, '-', '+'), '_', '/')
  }

  /** On the output of `btoa`, the challenge is the same text in the base64url alphabet: mapping
      `-` and `_` back gives the base64 digest with its padding removed, and nothing is lost. */
  lemma ChallengeRoundTrip(base64: string)
    requires IsBase64Text(base64)
    ensures FromBase64Url(GenerateCodeChallenge(base64)) == Filter(base64, NotPadding)
    ensures forall i :: 0 <= i < |GenerateCodeChallenge(base64)| ==> IsBase64UrlChar(GenerateCodeChallenge(base64)[i])
  {
    var unpadded := Filter(base64, NotPadding);
    var r := GenerateCodeChallenge(base64);
    FilterMembers(base64, NotPadding);
    forall i | 0 <= i < |unpadded|
      ensures IsAlphanumeric(unpadded[i]) || unpadded[i] == '+' || unpadded[i] == '/'
    {
      assert unpadded[i] in base64;
    }
    assert FromBase64Url(r) == unpadded;
  }

  // ---------------------------------------------------------------------------------------------
  // Login redirect

  /** The query of the authorization URL, one field per parameter `loginWithSpotify` sets. */
  datatype AuthorizeParams = AuthorizeParams(
    clientId: string, responseType: string, redirectUri: string, scope: string,
    codeChallengeMethod: string, codeChallenge: string)

  /** The page the browser is sent to. */
  datatype AuthorizeRedirect = AuthorizeRedirect(endpoint: string, params: AuthorizeParams)

  /** `loginWithSpotify`: stores a fresh verifier and returns the page the browser is sent to.
      `randomValues` are the 64 bytes of `crypto.getRandomValues`; `sha256Base64` is `btoa` of the
      SHA-256 digest of its argument. */
  method LoginWithSpotify(storage: Storage, config: Config, randomValues: seq<byte>, sha256Base64: string -> string)
    returns (redirect: AuthorizeRedirect)
    requires |randomValues| == VerifierLength
    modifies storage
    ensures var verifier := GenerateRandomString(randomValues);
      && storage.local == old(storage.local)[VerifierKey := verifier]
      && ValidVerifier(verifier)
      && redirect.endpoint == AuthEndpoint
      && redirect.params == AuthorizeParams(config.clientId, "code", config.redirectUri, Scopes,
                                            "S256", GenerateCodeChallenge(sha256Base64(verifier)))
    ensures storage.session == old(storage.session)
  {
    var codeVerifier := GenerateRandomString(randomValues);
    GeneratedVerifierIsValid(randomValues);
    var codeChallenge := GenerateCodeChallenge(sha256Base64(codeVerifier));
    storage.local := storage.local[VerifierKey := codeVerifier];
    redirect := AuthorizeRedirect(AuthEndpoint,
      AuthorizeParams(config.clientId, "code", config.redirectUri, Scopes, "S256", codeChallenge));
  }

  // ---------------------------------------------------------------------------------------------
  // Token record

  /** A token-endpoint reply the client takes: `response.ok`, and a body `response.json()` reads
      that is not `null`, so reading `data.access_token` does not throw. Which fields the JSON
      carries is not checked. */
  predicate TokenReplyAccepted(r: Reply)
  {
    r.Reply? && Ok(r.status) && FieldsReadable(r.body)
  }

  /** `data.access_token`, `data.refresh_token` and `data.expires_in` of a JSON body: None when the
      body has no such field. */
  function AccessField(b: Body): Option<string>
  {
    if b.TokenJson? then b.accessToken else None
  }

  function RefreshField(b: Body): Option<string>
  {
    if b.TokenJson? then b.refreshToken else None
  }

  function ExpiresField(b: Body): Option<nat>
  {
    if b.TokenJson? then b.expiresIn else None
  }

  /** `String(Date.now() + expires_in * 1000)`: the absolute expiry instant in milliseconds, or
      "NaN" when `expires_in` is undefined. */
  function ExpiryText(now: nat, expiresIn: Option<nat>): (r: string)
    ensures expiresIn.Some? ==> ParseInt(r) == Some(now + expiresIn.value * 1000)
    ensures expiresIn.None? ==> ParseInt(r) == None
  {
    if expiresIn.Some? then
      ParseIntNatToString(now + expiresIn.value * 1000);
      NatToString(now + expiresIn.value * 1000)
    else
      assert DigitPrefix("NaN") == 0;
      "NaN"
  }

  /** What `setItem` stores for a JSON field: the text, or "undefined" when the field is absent. */
  function JsText(o: Option<string>): string
  {
    if o.Some? then o.value else "undefined"
  }

  /** The local storage after a successful code exchange: three token fields written, verifier gone,
      every other key as it was. */
  function AfterExchange(m: map<string, string>, body: Body, now: nat): (r: map<string, string>)
    ensures VerifierKey !in r
    ensures GetItem(r, AccessTokenKey) == Some(JsText(AccessField(body)))
    ensures GetItem(r, RefreshTokenKey) == Some(JsText(RefreshField(body)))
    ensures GetItem(r, ExpiresAtKey) == Some(ExpiryText(now, ExpiresField(body)))
    ensures forall k :: k !in LocalKeys ==> GetItem(r, k) == GetItem(m, k)
  {
    m[AccessTokenKey := JsText(AccessField(body))]
     [RefreshTokenKey := JsText(RefreshField(body))]
     [ExpiresAtKey := ExpiryText(now, ExpiresField(body))]
     - {VerifierKey}
  }

  /** The local storage after a successful refresh: access token and expiry written, the refresh
      token only when the reply carries a non-empty one, every other key as it was. */
  function AfterRefresh(m: map<string, string>, body: Body, now: nat): (r: map<string, string>)
    ensures GetItem(r, AccessTokenKey) == Some(JsText(AccessField(body)))
    ensures GetItem(r, RefreshTokenKey) == if Truthy(RefreshField(body)) then RefreshField(body) else GetItem(m, RefreshTokenKey)
    ensures GetItem(r, ExpiresAtKey) == Some(ExpiryText(now, ExpiresField(body)))
    ensures forall k :: k != AccessTokenKey && k != RefreshTokenKey && k != ExpiresAtKey ==> GetItem(r, k) == GetItem(m, k)
  {
    var withAccess := m[AccessTokenKey := JsText(AccessField(body))];
    var withRefresh :=
      if Truthy(RefreshField(body)) then withAccess[RefreshTokenKey := RefreshField(body).value] else withAccess;
    withRefresh[ExpiresAtKey := ExpiryText(now, ExpiresField(body))]
  }

  /** `getAccessToken`: null once a stored expiry instant lies strictly in the past; it never
      returns anything but the stored access token. */
  function GetAccessToken(local: map<string, string>, now: nat): (r: Option<string>)
    ensures r.Some? ==> r == GetItem(local, AccessTokenKey)
    ensures AccessTokenKey !in local ==> r == None
  {
    var expiresAt := GetItem(local, ExpiresAtKey);
    if Truthy(expiresAt) && ParseInt(expiresAt.value).Some? && now > ParseInt(expiresAt.value).value then None
    else GetItem(local, AccessTokenKey)
  }

  /** `isAuthenticated`: a token is returned, even an empty one. */
  function IsAuthenticated(local: map<string, string>, now: nat): (r: bool)
    ensures r ==> AccessTokenKey in local
    ensures ExpiresAtKey !in local ==> (r <==> AccessTokenKey in local)
  {
    GetAccessToken(local, now) != None
  }

  /** With an expiry instant `e` stored, the token is withheld exactly when `now > e`; at `now == e`
      it is still returned. */
  lemma AccessTokenAtExpiry(local: map<string, string>, now: nat, e: nat)
    requires GetItem(local, ExpiresAtKey) == Some(NatToString(e))
    ensures GetAccessToken(local, now) == if now > e then None else GetItem(local, AccessTokenKey)
    ensures IsAuthenticated(local, now) <==> now <= e && AccessTokenKey in local
  {
    ParseIntNatToString(e);
  }

  /** With no expiry stored, whatever access token is stored is returned. */
  lemma AccessTokenWithoutExpiry(local: map<string, string>, now: nat)
    requires ExpiresAtKey !in local
    ensures GetAccessToken(local, now) == GetItem(local, AccessTokenKey)
    ensures IsAuthenticated(local, now) <==> AccessTokenKey in local
  {
  }

  /** The token written at `now0` reads back until its expiry instant inclusive; with no
      `expires_in` the stored "NaN" never expires it. */
  lemma WrittenTokenLifetime(local: map<string, string>, body: Body, now0: nat, now: nat)
    requires GetItem(local, AccessTokenKey) == Some(JsText(AccessField(body)))
    requires GetItem(local, ExpiresAtKey) == Some(ExpiryText(now0, ExpiresField(body)))
    ensures GetAccessToken(local, now)
         == if ExpiresField(body).Some? && now > now0 + ExpiresField(body).value * 1000 then None
            else Some(JsText(AccessField(body)))
    ensures GetAccessToken(local, now0) == Some(JsText(AccessField(body)))
  {
    var t := ExpiryText(now0, ExpiresField(body));
    assert ParseInt(t) == if ExpiresField(body).Some? then Some(now0 + ExpiresField(body).value * 1000) else None;
  }

  /** After a code exchange at `now0`, the new token is returned until `now0 + expires_in*1000`
      inclusive, and the verifier is gone, so a replayed callback finds none. */
  lemma ExchangedTokenLifetime(m: map<string, string>, body: Body, now0: nat, now: nat)
    ensures GetAccessToken(AfterExchange(m, body, now0), now)
         == if ExpiresField(body).Some? && now > now0 + ExpiresField(body).value * 1000 then None
            else Some(JsText(AccessField(body)))
    ensures !Truthy(GetItem(AfterExchange(m, body, now0), VerifierKey))
    ensures GetItem(AfterExchange(m, body, now0), RefreshTokenKey) == Some(JsText(RefreshField(body)))
  {
    WrittenTokenLifetime(AfterExchange(m, body, now0), body, now0, now);
  }

  /** After a refresh at `now0`, the new token is returned until `now0 + expires_in*1000`
      inclusive, and at `now0` in every case. */
  lemma RefreshedTokenLifetime(m: map<string, string>, body: Body, now0: nat, now: nat)
    ensures GetAccessToken(AfterRefresh(m, body, now0), now)
         == if ExpiresField(body).Some? && now > now0 + ExpiresField(body).value * 1000 then None
            else Some(JsText(AccessField(body)))
    ensures GetAccessToken(AfterRefresh(m, body, now0), now0) == Some(JsText(AccessField(body)))
  {
    WrittenTokenLifetime(AfterRefresh(m, body, now0), body, now0, now);
  }

  /** After logout no token is readable, and logging out again changes nothing. */
  lemma LoggedOutHasNoToken(m: map<string, string>, now: nat)
    ensures GetAccessToken(m - LocalKeys, now) == None
    ensures !IsAuthenticated(m - LocalKeys, now)
    ensures (m - LocalKeys) - LocalKeys == m - LocalKeys
  {
  }

  // ---------------------------------------------------------------------------------------------
  // Code exchange, refresh and logout

  /** `handleSpotifyCallback`: exchanges the authorization code with the stored verifier. */
  method HandleSpotifyCallback(storage: Storage, net: Network, config: Config, code: string, now: nat)
    returns (ok: bool)
    modifies storage, net
    ensures storage.session == old(storage.session)
    ensures var verifier := GetItem(old(storage.local), VerifierKey);
            var reply := net.ReplyAt(|old(net.log)|);
      && (!Truthy(verifier) ==> !ok && storage.local == old(storage.local) && net.log == old(net.log))
      && (Truthy(verifier) ==> net.log == old(net.log) + [Exchange(
            TokenPost(TokenEndpoint, AuthorizationCodeForm(config.clientId, code, config.redirectUri, verifier.value)),
            reply)])
      && (ok <==> Truthy(verifier) && TokenReplyAccepted(reply))
      && (ok ==> storage.local == AfterExchange(old(storage.local), reply.body, now))
      && (!ok ==> storage.local == old(storage.local))
  {
    var codeVerifier := GetItem(storage.local, VerifierKey);
    if !Truthy(codeVerifier) {
      return false;
    }
    var response := net.Send(TokenPost(TokenEndpoint,
      AuthorizationCodeForm(config.clientId, code, config.redirectUri, codeVerifier.value)));
    if response.NetworkError? || !Ok(response.status) || !FieldsReadable(response.body) {
      // a rejected fetch, a non-ok status, a body `response.json()` rejects, or a `null` body whose
      // field read throws: nothing stored
      return false;
    }
    storage.local := AfterExchange(storage.local, response.body, now);
    ok := true;
  }

  /** The replay guard: a second exchange after any first one is refused without a request when the
      first succeeded, because the verifier was consumed. */
  method ExchangeTwice(storage: Storage, net: Network, config: Config, code: string, now: nat)
    returns (first: bool, second: bool)
    modifies storage, net
    ensures first ==> !second && |net.log| == |old(net.log)| + 1
  {
    first := HandleSpotifyCallback(storage, net, config, code, now);
    second := HandleSpotifyCallback(storage, net, config, code, now);
  }

  /** `refreshAccessToken`: trades the stored refresh token for a new access token. */
  method RefreshAccessToken(storage: Storage, net: Network, config: Config, now: nat) returns (ok: bool)
    modifies storage, net
    ensures storage.session == old(storage.session)
    ensures var refreshToken := GetItem(old(storage.local), RefreshTokenKey);
            var reply := net.ReplyAt(|old(net.log)|);
      && (!Truthy(refreshToken) ==> !ok && storage.local == old(storage.local) && net.log == old(net.log))
      && (Truthy(refreshToken) ==> net.log == old(net.log) + [Exchange(
            TokenPost(TokenEndpoint, RefreshTokenForm(config.clientId, refreshToken.value)), reply)])
      && (ok <==> Truthy(refreshToken) && TokenReplyAccepted(reply))
      && (ok ==> storage.local == AfterRefresh(old(storage.local), reply.body, now))
      && (!ok ==> storage.local == old(storage.local))
  {
    var refreshToken := GetItem(storage.local, RefreshTokenKey);
    if !Truthy(refreshToken) {
      return false;
    }
    var response := net.Send(TokenPost(TokenEndpoint, RefreshTokenForm(config.clientId, refreshToken.value)));
    if response.NetworkError? || !Ok(response.status) || !FieldsReadable(response.body) {
      return false;
    }
    storage.local := AfterRefresh(storage.local, response.body, now);
    ok := true;
  }

  /** `logout`: removes the four token keys and the cached listening history. */
  method Logout(storage: Storage)
    modifies storage
    ensures storage.local == old(storage.local) - LocalKeys
    ensures storage.session == old(storage.session) - {RecentlyPlayedKey}
  {
    storage.local := storage.local - {AccessTokenKey};
    storage.local := storage.local - {RefreshTokenKey};
    storage.local := storage.local - {ExpiresAtKey};
    storage.local := storage.local - {VerifierKey};
    storage.session := storage.session - {RecentlyPlayedKey};
  }
}
