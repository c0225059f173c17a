/** The `/callback` page the authorization server redirects back to. */
module Callback {
  import opened Wrappers
  import opened Http
  import opened SpotifyAuth

  /** The two places the page navigates to. */
  datatype Route = Home | Stats

  /** The navigation decision from the `error` and `code` query parameters and the outcome of the
      code exchange: an error always wins, and only a code that was exchanged leads to the stats. */
  function Destination(error: Option<string>, code: Option<string>, exchanged: bool): (r: Route)
    ensures Truthy(error) ==> r == Home
    ensures r == Stats <==> !Truthy(error) && Truthy(code) && exchanged
  {
    if Truthy(error) then Home
    else if Truthy(code) then (if exchanged then Stats else Home)
    else Home
  }

  /** Whether the exchange of a code would succeed against this store and this reply. */
  predicate ExchangeSucceeds(local: map<string, string>, reply: Reply)
  {
    Truthy(GetItem(local, VerifierKey)) && TokenReplyAccepted(reply)
  }

  class CallbackPage {
    var processed: bool   // processedRef

    constructor ()
      ensures !processed
    {
      processed := false;
    }

    /** `processCallback`: runs once per page; returns the route navigated to, None when the guard
        stops a repeated run. The exchange is attempted only for a code without an error. */
    method ProcessCallback(storage: Storage, net: Network, config: Config, now: nat,
                           error: Option<string>, code: Option<string>)
      returns (route: Option<Route>)
      modifies this, storage, net
      ensures processed
      ensures storage.session == old(storage.session)
      ensures old(processed) ==>
                route == None && storage.local == old(storage.local) && net.log == old(net.log)
      ensures !old(processed) ==>
                route == Some(Destination(error, code, ExchangeSucceeds(old(storage.local), net.ReplyAt(|old(net.log)|))))
      ensures Truthy(error) || !Truthy(code) ==> storage.local == old(storage.local) && net.log == old(net.log)
      ensures !old(processed) && !Truthy(error) && Truthy(code) ==>
                var verifier := GetItem(old(storage.local), VerifierKey);
                var reply := net.ReplyAt(|old(net.log)|);
                && (Truthy(verifier) ==> net.log == old(net.log) + [Exchange(
                      TokenPost(TokenEndpoint, AuthorizationCodeForm(config.clientId, code.value, config.redirectUri, verifier.value)),
                      reply)])
                && (!Truthy(verifier) ==> net.log == old(net.log))
                && (route == Some(Stats) ==> storage.local == AfterExchange(old(storage.local), reply.body, now))
                && (route == Some(Home) ==> storage.local == old(storage.local))
    {
      if processed {
        return None;
      }
      processed := true;
      if Truthy(error) {
        return Some(Home);
      }
      if Truthy(code) {
        var success := HandleSpotifyCallback(storage, net, config, code.value, now);
        route := Some(if success then Stats else Home);
      } else {
        route := Some(Home);
      }
    }
  }
}
