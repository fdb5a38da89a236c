/**
 * The client object. Its session record is a field that the token, refresh,
 * logout and load steps replace; the network's answers are inputs of the
 * methods, in the order the client awaits them.
 */
module Client {
  import opened Wrappers
  import opened Values
  import opened Session

  /** What a call to the token endpoint came back with. */
  datatype Reply = Replied(body: map<string, Json>) | Failed(error: Json)

  const Error := "error"

  class Feedly {
    const options: map<string, Json>
    var state: State

    ghost predicate Valid()
      reads this
    {
      WellFormed(state)
    }

    /** A client with the given (already merged) options and an empty session record. */
    constructor (options: map<string, Json>)
      ensures Valid()
      ensures this.options == options && state == map[]
    {
      this.options := options;
      state := map[];
    }

    /** `new Feedly(options)`: fails without both client credentials. */
    static method Create(user: map<string, Json>, htmlFile: string) returns (r: Result<Feedly, string>)
      ensures r.Failure? <==> Configure(user, htmlFile).Failure?
      ensures r.Failure? ==> r.error == MissingCredentials
      ensures r.Success? ==> fresh(r.value) && r.value.Valid()
      ensures r.Success? ==> r.value.options == Configure(user, htmlFile).value && r.value.state == map[]
    {
      var c := Configure(user, htmlFile);
      if c.Failure? {
        r := Failure(c.error);
      } else {
        var f := new Feedly(c.value);
        r := Success(f);
      }
    }

    /** `_loadConfig`: without a session file nothing is read; otherwise the parsed contents become the record. */
    method LoadConfig(parsed: Option<map<string, Json>>, parseDate: string -> Option<int>)
      requires Valid()
      modifies this
      ensures Valid()
      ensures state == if NonNull(options, ConfigFile) then Loaded(parsed, parseDate) else old(state)
    {
      if NonNull(options, ConfigFile) {
        state := Loaded(parsed, parseDate);
      }
    }

    /**
     * The answer to a code exchange (`_getToken`) or a refresh (`_refresh`):
     * on success the body is merged in, `expires` recomputed and the new
     * access token returned; on failure the record is left alone. `replyNow`
     * is the clock read when the answer arrives.
     */
    method TokenReply(reply: Reply, replyNow: int) returns (r: Result<Option<Value>, Json>)
      requires Valid()
      modifies this
      ensures Valid()
      ensures reply.Failed? ==> state == old(state) && r == Failure(reply.error)
      ensures reply.Replied? ==> state == TokenState(old(state), reply.body, replyNow)
      ensures reply.Replied? ==> r == Success(Get(state, AccessToken))
    {
      match reply
      case Failed(e) =>
        r := Failure(e);
      case Replied(body) =>
        state := TokenState(state, body, replyNow);
        r := Success(Get(state, AccessToken));
    }

    /**
     * `_auth` from the point where the browser redirect arrived: an `error`
     * parameter rejects without touching the record, otherwise the code is
     * exchanged and the answer taken as in TokenReply.
     */
    method Authorize(replyNow: int, redirect: map<string, Json>, reply: Reply) returns (r: Result<Option<Value>, Json>)
      requires Valid()
      modifies this
      ensures Valid()
      ensures NonNull(redirect, Error) ==> state == old(state) && r == Failure(redirect[Error])
      ensures !NonNull(redirect, Error) && reply.Failed? ==> state == old(state) && r == Failure(reply.error)
      ensures !NonNull(redirect, Error) && reply.Replied? ==>
        state == TokenState(old(state), reply.body, replyNow) && r == Success(Get(state, AccessToken))
    {
      if NonNull(redirect, Error) {
        r := Failure(redirect[Error]);
      } else {
        r := TokenReply(reply, replyNow);
      }
    }

    /**
     * `_getAuth`: reuse a fresh token without any exchange, refresh one that
     * is within slop of its expiry, and authorize when there is no valid one.
     * The decision reads the clock as `now`; the answer, if one is awaited,
     * arrives at the later `replyNow`.
     */
    method GetAuth(now: int, replyNow: int, redirect: map<string, Json>, reply: Reply) returns (r: Result<Option<Value>, Json>)
      requires Valid()
      requires now <= replyNow
      modifies this
      ensures Valid()
      ensures AuthChoice(old(state), now, SlopOf(options)).UseToken? ==>
        state == old(state) && r == Success(Some(AuthChoice(old(state), now, SlopOf(options)).token))
      ensures AuthChoice(old(state), now, SlopOf(options)) == Session.Refresh ==>
        (reply.Failed? ==> state == old(state) && r == Failure(reply.error)) &&
        (reply.Replied? ==> state == TokenState(old(state), reply.body, replyNow) && r == Success(Get(state, AccessToken)))
      ensures AuthChoice(old(state), now, SlopOf(options)) == Session.Authorize && NonNull(redirect, Error) ==>
        state == old(state) && r == Failure(redirect[Error])
      ensures AuthChoice(old(state), now, SlopOf(options)) == Session.Authorize && !NonNull(redirect, Error) ==>
        (reply.Failed? ==> state == old(state) && r == Failure(reply.error)) &&
        (reply.Replied? ==> state == TokenState(old(state), reply.body, replyNow) && r == Success(Get(state, AccessToken)))
    {
      var step := AuthChoice(state, now, SlopOf(options));
      match step
      case UseToken(token) =>
        r := Success(Some(token));
      case Refresh =>
        r := TokenReply(reply, replyNow);
      case Authorize =>
        r := Authorize(replyNow, redirect, reply);
    }

    /** The public `refresh`: refresh while the token is valid, otherwise authorize. */
    method Refresh(now: int, replyNow: int, redirect: map<string, Json>, reply: Reply) returns (r: Result<Option<Value>, Json>)
      requires Valid()
      requires now <= replyNow
      modifies this
      ensures Valid()
      ensures ValidToken(old(state), now) ==>
        (reply.Failed? ==> state == old(state) && r == Failure(reply.error)) &&
        (reply.Replied? ==> state == TokenState(old(state), reply.body, replyNow) && r == Success(Get(state, AccessToken)))
      ensures !ValidToken(old(state), now) && NonNull(redirect, Error) ==>
        state == old(state) && r == Failure(redirect[Error])
      ensures !ValidToken(old(state), now) && !NonNull(redirect, Error) ==>
        (reply.Failed? ==> state == old(state) && r == Failure(reply.error)) &&
        (reply.Replied? ==> state == TokenState(old(state), reply.body, replyNow) && r == Success(Get(state, AccessToken)))
    {
      if RefreshChoice(state, now) == Session.Refresh {
        r := TokenReply(reply, replyNow);
      } else {
        r := Authorize(replyNow, redirect, reply);
      }
    }

    /** `logout`: after the revoke call succeeds, drop the token keys and merge in its answer. */
    method Logout(reply: Reply) returns (r: Result<(), Json>)
      requires Valid()
      modifies this
      ensures Valid()
      ensures reply.Failed? ==> state == old(state) && r == Failure(reply.error)
      ensures reply.Replied? ==> state == LogoutState(old(state), reply.body) && r == Success(())
    {
      match reply
      case Failed(e) =>
        r := Failure(e);
      case Replied(body) =>
        state := LogoutState(state, body);
        r := Success(());
    }
  }
}
