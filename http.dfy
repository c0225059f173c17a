/** The vendor's HTTP endpoints as seen by the client: requests, replies, and the network that
    answers them. What the network answers is fixed in advance, one reply per request in order. */
module Http {
  import opened Wrappers
  import opened Seqs
  import opened Schemas

  /** The JSON body of a reply, in the shapes the core reads. */
  datatype Body =
    | NotJson                    // `response.json()` rejects
    | JsonNull                   // the JSON text `null`: reading a field of it throws
    | OtherJson                  // a JSON value of a shape the caller does not look into
    /** A token-endpoint body; a field the JSON lacks is None (`undefined` when read). */
    | TokenJson(accessToken: Option<string>, refreshToken: Option<string>, expiresIn: Option<nat>)
    | DeviceList(devices: seq<Device>)
    | TrackPage(items: seq<PlaylistItem>)

  /** `data.field` can be read from the parsed body without a TypeError: the body parsed and is not
      `null`. */
  predicate FieldsReadable(b: Body)
  {
    !b.NotJson? && !b.JsonNull?
  }

  /** A reply, or a rejected `fetch` (network failure). */
  datatype Reply = Reply(status: int, body: Body) | NetworkError

  /** `response.ok`. */
  predicate Ok(status: int)
  {
    200 <= status <= 299
  }

  predicate HasStatus(r: Reply, status: int)
  {
    r.Reply? && r.status == status
  }

  /** The form fields of a POST to the token endpoint. */
  datatype TokenForm =
    | AuthorizationCodeForm(clientId: string, code: string, redirectUri: string, codeVerifier: string)
    | RefreshTokenForm(clientId: string, refreshToken: string)

  /** The JSON body of a PUT to the player endpoints. */
  datatype Payload =
    | NoPayload
    | TransferBody(deviceIds: seq<string>, play: bool)
    | PlayBody(uris: seq<string>, positionMs: int)

  /** `bearer` is the text after `Bearer ` in the Authorization header. */
  datatype Request =
    | TokenPost(url: string, form: TokenForm)
    | Get(url: string, bearer: string)
    | Put(url: string, bearer: string, payload: Payload)

  datatype Exchange = Exchange(request: Request, reply: Reply)

  class Network {
    /** The reply the world gives to the k-th request sent. */
    const replies: seq<Reply>
    /** Every request sent so far, with the reply it got. */
    var log: seq<Exchange>

    constructor (replies: seq<Reply>)
      ensures this.replies == replies && log == []
    {
      this.replies := replies;
      log := [];
    }

    /** A request beyond the supplied replies fails like an unreachable network. */
    function ReplyAt(k: nat): Reply
    {
      if k < |replies| then replies[k] else NetworkError
    }

    /** `fetch`: the request is sent and answered with the next supplied reply. */
    method Send(request: Request) returns (reply: Reply)
      modifies this
      ensures reply == ReplyAt(|old(log)|)
      ensures log == old(log) + [Exchange(request, reply)]
    {
      reply := ReplyAt(|log|);
      log := log + [Exchange(request, reply)];
    }
  }

  predicate IsPut(e: Exchange)
  {
    e.request.Put?
  }

  /** The PUT requests of a stretch of log, in order. */
  function Puts(log: seq<Exchange>): seq<Exchange>
  {
    Filter(log, IsPut)
  }

  /** The requests a method appended to the log. */
  function Since(log: seq<Exchange>, start: nat): seq<Exchange>
  {
    if start <= |log| then log[start..] else []
  }

  predicate NoPuts(log: seq<Exchange>)
  {
    forall k :: 0 <= k < |log| ==> !log[k].request.Put?
  }

  lemma PutsOfNoPuts(log: seq<Exchange>)
    requires NoPuts(log)
    ensures Puts(log) == []
  {
    FilterNone(log, IsPut);
  }

  /** A log grown in two steps: the PUTs of the whole growth are those of each step in turn. */
  lemma PutsGrow(a: seq<Exchange>, b: seq<Exchange>, c: seq<Exchange>)
    requires a <= b <= c
    ensures Puts(Since(c, |a|)) == Puts(Since(b, |a|)) + Puts(Since(c, |b|))
  {
    assert Since(c, |a|) == Since(b, |a|) + Since(c, |b|);
    FilterAppend(Since(b, |a|), Since(c, |b|), IsPut);
  }

  lemma NoPutsGrow(a: seq<Exchange>, b: seq<Exchange>, c: seq<Exchange>)
    requires a <= b <= c && NoPuts(Since(b, |a|)) && NoPuts(Since(c, |b|))
    ensures NoPuts(Since(c, |a|))
  {
    assert Since(c, |a|) == Since(b, |a|) + Since(c, |b|);
  }
}
