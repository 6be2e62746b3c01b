/** The `CoWechatAPI` client object: its identity, the in-memory token and
    the cache file it reads and overwrites, with the operations that change
    them and the `send` operation that uses them. */
module Client {
  import opened Values
  import opened Message
  import opened Delivery
  import opened TokenCache

  /** One POST to the send endpoint: the token in its URL and its body. */
  datatype Post = Post(token: Json, payload: Payload)

  /** How `login` ended without raising: `return False`, or the token stored. */
  datatype LoginOutcome = Aborted | TokenStored

  /** `login` gives up only when the identity and the secret are both empty. */
  predicate LoginSkipped(id: string, secret: string)
  {
    id == "" && secret == ""
  }

  class CoWechatAPI {
    const id: string
    const secret: string
    const agentId: Json
    /** The access token `login` stored; "" until then. */
    var token: Json
    /** The contents of the cache file; None while the file does not exist. */
    var cache: Option<Cache>

    /** The fields `__init__` sets before it logs in. */
    constructor (coid: string, secret: string, agentid: Json, cacheFile: Option<Cache>)
      ensures id == coid && this.secret == secret && agentId == agentid
      ensures token == JStr("") && cache == cacheFile
    {
      id, this.secret, agentId := coid, secret, agentid;
      token, cache := JStr(""), cacheFile;
    }

    /** `__init__`: set the fields, then log in. An exception of `login`
        escapes, so no client is made; the cache file keeps whatever the
        attempt wrote, which `cacheAfter` reports either way. */
    static method Create(coid: string, secret: string, agentid: Json, cacheFile: Option<Cache>,
                         now: int, reply: TokenReply)
      returns (r: Result<CoWechatAPI>, cacheAfter: Option<Cache>)
      ensures r.Success? ==> fresh(r.value)
      ensures r.Success? ==> r.value.id == coid && r.value.secret == secret && r.value.agentId == agentid
      ensures r.Success? ==> r.value.cache == cacheAfter
      ensures LoginSkipped(coid, secret) ==>
        r.Success? && r.value.token == JStr("") && cacheAfter == cacheFile
      ensures !LoginSkipped(coid, secret) ==>
        var s := AccessToken(cacheFile, now, reply);
        && cacheAfter == s.cache
        && (s.result.Failure? ==> r == Failure(s.result.error))
        && (s.result.Success? ==> r.Success? && r.value.token == s.result.value)
    {
      var client := new CoWechatAPI(coid, secret, agentid, cacheFile);
      var outcome := client.Login(now, reply);
      cacheAfter := client.cache;
      if outcome.Failure? {
        r := Failure(outcome.error);
      } else {
        r := Success(client);
      }
    }

    /** `login`: with both identity and secret empty, return False and touch
        nothing; otherwise store the result of `get_access_token` as the
        token, unless it raises. */
    method Login(now: int, reply: TokenReply) returns (r: Result<LoginOutcome>)
      modifies this`token, this`cache
      ensures LoginSkipped(id, secret) ==>
        r == Success(Aborted) && token == old(token) && cache == old(cache)
      ensures !LoginSkipped(id, secret) ==>
        var s := AccessToken(old(cache), now, reply);
        && cache == s.cache
        && (s.result.Success? ==> r == Success(TokenStored) && token == s.result.value)
        && (s.result.Failure? ==> r == Failure(s.result.error) && token == old(token))
    {
      if id == "" && secret == "" {
        return Success(Aborted);
      }
      var t := GetAccessToken(now, reply);
      if t.Failure? {
        return Failure(t.error);
      }
      token := t.value;
      r := Success(TokenStored);
    }

    /** `save_token`: stamp the dictionary with the current time and
        overwrite the cache file with it; the stamped dictionary is what the
        caller's dictionary has become. */
    method SaveToken(tokenDict: Cache, now: int) returns (saved: Cache)
      modifies this`cache
      ensures saved == Stamp(tokenDict, now)
      ensures cache == Some(saved)
    {
      saved := tokenDict["date" := JInt(now)];
      cache := Some(saved);
    }

    /** `get_access_token_url`: one GET to the token endpoint. */
    method GetAccessTokenUrl(now: int, reply: TokenReply) returns (r: Result<Json>)
      modifies this`cache
      ensures r == FetchToken(old(cache), reply, now).result
      ensures cache == FetchToken(old(cache), reply, now).cache
    {
      match reply {
        case TransportError =>
          r := Success(JBool(false));
        case Response(body) =>
          var saved := SaveToken(body, now);
          if "access_token" in saved {
            r := Success(saved["access_token"]);
          } else {
            r := Failure(KeyError("access_token"));
          }
      }
    }

    /** `get_access_token_cache`: read the token back from the cache file. */
    method GetAccessTokenCache() returns (r: Result<Json>)
      ensures r == CachedToken(cache)
    {
      if cache.None? {
        return Failure(FileNotFound);
      }
      var data := cache.value;
      if "access_token" in data {
        r := Success(data["access_token"]);
      } else {
        r := Success(JBool(false));
      }
    }

    /** `get_access_token`: the cached token while the cache is valid, a
        fresh one from the token endpoint otherwise. */
    method GetAccessToken(now: int, reply: TokenReply) returns (r: Result<Json>)
      modifies this`cache
      ensures r == AccessToken(old(cache), now, reply).result
      ensures cache == AccessToken(old(cache), now, reply).cache
    {
      var valid := TokenValid(cache, now);
      if valid.Failure? {
        return Failure(valid.error);
      }
      if valid.value {
        r := GetAccessTokenCache();
      } else {
        r := GetAccessTokenUrl(now, reply);
      }
    }

    /** `send`: build the payload (raising before any POST on bad arguments),
        then POST it with the stored token up to `RetryCount` times, stopping
        at the first attempt that succeeds or raises. `posted` lists the POSTs
        made. As written, every attempt succeeds or raises, so at most one POST
        is made and False is never returned. */
    method Send(msgType: Json, toUser: string, toParty: string, toTag: string,
                content: Json, mediaId: Json, replies: nat -> SendReply)
      returns (r: Result<bool>, posted: seq<Post>)
      ensures var built := BuildPayload(msgType, toUser, toParty, toTag, content, mediaId, agentId);
        built.Failure? ==> r == Failure(built.error) && posted == []
      ensures var built := BuildPayload(msgType, toUser, toParty, toTag, content, mediaId, agentId);
        var d := Dispatch(SendUtil, replies, 0);
        built.Success? ==>
          && r == d.outcome
          && |posted| == d.attempts
          && forall i :: 0 <= i < |posted| ==> posted[i] == Post(token, built.value)
      ensures r != Success(false) && |posted| <= 1
    {
      var built := BuildPayload(msgType, toUser, toParty, toTag, content, mediaId, agentId);
      if built.Failure? {
        return Failure(built.error), [];
      }
      r, posted := Deliver(SendUtil, Post(token, built.value), replies);
      SendUtilAttemptsOnce(replies);
    }
  }
}
