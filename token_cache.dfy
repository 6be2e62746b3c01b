/** The credential cache: when a cached access token may be reused, what is
    read back from the cache file, and what a refresh from the token endpoint
    writes and returns. The cache file is a value `Option<Cache>` (None when
    the file does not exist); the wall clock is integer seconds `now`. */
module TokenCache {
  import opened Values

  /** The parsed cache file: whatever the token endpoint returned, plus the
      retrieval time under "date" (as integer seconds). */
  type Cache = map<string, Json>

  /** A cached token is reused while fewer than this many seconds have passed. */
  const ValidSeconds := 7200
  const SecondsPerDay := 86400

  /** What the GET to the token endpoint yields. */
  datatype TokenReply =
    | TransportError          // the GET raised
    | Response(body: Cache)   // the decoded JSON answer

  /** The value a token lookup returns (or raises) and the cache file after it. */
  datatype Step = Step(result: Result<Json>, cache: Option<Cache>)

  /** `timedelta.seconds` of `now - date`: the seconds part of the difference,
      which drops whole days. */
  function Elapsed(now: int, date: int): (s: int)
    ensures 0 <= s < SecondsPerDay
    ensures (now - date - s) % SecondsPerDay == 0
    ensures 0 <= now - date < SecondsPerDay ==> s == now - date
  {
    (now - date) % SecondsPerDay
  }

  /** `token_valid`: no cache file means invalid; a status other than "ok"
      means invalid (raising if the status is not a string, when it is
      logged); otherwise valid iff the seconds part of the age is below two
      hours. A missing key raises KeyError; a date that is not a timestamp
      raises ValueError when it is text (which `strptime` rejects) and
      TypeError otherwise. */
  function TokenValid(cache: Option<Cache>, now: int): (r: Result<bool>)
    ensures cache.None? ==> r == Success(false)
    ensures r == Success(true) ==>
      && cache.Some? && "errmsg" in cache.value && cache.value["errmsg"] == JStr("ok")
      && "date" in cache.value && cache.value["date"].JInt?
      && Elapsed(now, cache.value["date"].number) < ValidSeconds
    ensures cache.Some? && "errmsg" in cache.value && cache.value["errmsg"] == JStr("ok")
            && "date" in cache.value && cache.value["date"].JInt? ==>
              r == Success(Elapsed(now, cache.value["date"].number) < ValidSeconds)
    ensures cache.Some? && "errmsg" in cache.value && cache.value["errmsg"] == JStr("ok")
            && "date" in cache.value && !cache.value["date"].JInt? ==>
              r == Failure(if cache.value["date"].JStr? then ValueError else TypeError)
    ensures cache.Some? && "errmsg" !in cache.value ==> r == Failure(KeyError("errmsg"))
    ensures cache.Some? && "errmsg" in cache.value && !cache.value["errmsg"].JStr? ==> r == Failure(TypeError)
    ensures cache.Some? && "errmsg" in cache.value && cache.value["errmsg"] == JStr("ok") && "date" !in cache.value ==>
              r == Failure(KeyError("date"))
  {
    match cache
    case None => Success(false)
    case Some(data) =>
      if "errmsg" !in data then Failure(KeyError("errmsg"))
      else if data["errmsg"] != JStr("ok") then
        if data["errmsg"].JStr? then Success(false) else Failure(TypeError)
      else if "date" !in data then Failure(KeyError("date"))
      else if data["date"].JStr? then Failure(ValueError)
      else if !data["date"].JInt? then Failure(TypeError)
      else Success(Elapsed(now, data["date"].number) < ValidSeconds)
  }

  /** `save_token`: the token dictionary with "date" set to the current time,
      replacing any "date" it had. */
  function Stamp(tokenDict: Cache, now: int): (m: Cache)
    ensures m.Keys == tokenDict.Keys + {"date"}
    ensures m["date"] == JInt(now)
    ensures forall k :: k in tokenDict && k != "date" ==> m[k] == tokenDict[k]
  {
    tokenDict["date" := JInt(now)]
  }

  /** `get_access_token_cache`: the cached "access_token", or False when the
      record has none; opening a missing file raises. */
  function CachedToken(cache: Option<Cache>): (r: Result<Json>)
    ensures r.Failure? <==> cache.None?
    ensures cache.Some? && "access_token" in cache.value ==> r == Success(cache.value["access_token"])
    ensures cache.Some? && "access_token" !in cache.value ==> r == Success(JBool(false))
  {
    match cache
    case None => Failure(FileNotFound)
    case Some(data) =>
      if "access_token" in data then Success(data["access_token"]) else Success(JBool(false))
  }

  /** `get_access_token_url`: a transport error returns False and leaves the
      cache alone; a response is stamped and written to the cache wholesale,
      and then its "access_token" is returned, raising KeyError if absent. */
  function FetchToken(cache: Option<Cache>, reply: TokenReply, now: int): (s: Step)
    ensures s.cache == cache || (reply.Response? && s.cache == Some(Stamp(reply.body, now)))
    ensures reply.Response? ==> s.cache.Some? && "date" in s.cache.value && s.cache.value["date"] == JInt(now)
    ensures s.result.Failure? ==> s.result.error == KeyError("access_token")
    ensures reply.TransportError? ==> s == Step(Success(JBool(false)), cache)
    ensures reply.Response? ==>
      && s.cache == Some(Stamp(reply.body, now))
      && s.result == (if "access_token" in reply.body then Success(reply.body["access_token"])
                      else Failure(KeyError("access_token")))
  {
    match reply
    case TransportError => Step(Success(JBool(false)), cache)
    case Response(body) =>
      var saved := Stamp(body, now);
      Step(if "access_token" in saved then Success(saved["access_token"]) else Failure(KeyError("access_token")),
           Some(saved))
  }

  /** `get_access_token`: reuse the cached token while the cache is valid,
      refresh from the token endpoint otherwise; an exception of the validity
      check propagates. */
  function AccessToken(cache: Option<Cache>, now: int, reply: TokenReply): (s: Step)
    ensures s.cache == cache || (reply.Response? && s.cache == Some(Stamp(reply.body, now)))
    ensures s.cache != cache ==> TokenValid(cache, now) == Success(false)
    ensures TokenValid(cache, now).Failure? ==> s == Step(Failure(TokenValid(cache, now).error), cache)
  {
    match TokenValid(cache, now)
    case Failure(e) => Step(Failure(e), cache)
    case Success(valid) =>
      if valid then Step(CachedToken(cache), cache) else FetchToken(cache, reply, now)
  }

  /** A cache with no file, or with a string status other than "ok", is
      never valid, whatever its age. */
  lemma InvalidWithoutOkStatus(cache: Option<Cache>, now: int)
    requires cache.None? || ("errmsg" in cache.value && cache.value["errmsg"].JStr? && cache.value["errmsg"] != JStr("ok"))
    ensures TokenValid(cache, now) == Success(false)
  {
  }

  /** An "ok" record is valid while its age is under two hours and invalid
      from two hours up to a day. */
  lemma ValidityWithinADay(data: Cache, date: int, now: int)
    requires "errmsg" in data && data["errmsg"] == JStr("ok")
    requires "date" in data && data["date"] == JInt(date)
    requires 0 <= now - date < SecondsPerDay
    ensures TokenValid(Some(data), now) == Success(now - date < ValidSeconds)
  {
  }

  /** The validity decision repeats every day: a record judged valid now is
      judged valid again 24 hours later. */
  lemma ValidityRepeatsDaily(cache: Option<Cache>, now: int)
    ensures TokenValid(cache, now + SecondsPerDay) == TokenValid(cache, now)
  {
    if cache.Some? && "date" in cache.value && cache.value["date"].JInt? {
      var date := cache.value["date"].number;
      var a, b := Elapsed(now + SecondsPerDay, date), Elapsed(now, date);
      assert (a - b) % SecondsPerDay == 0 by {
        assert now + SecondsPerDay - date - a == (now - date - b) + SecondsPerDay - (a - b);
      }
      assert a == b;
    }
  }

  /** As written, a record 25 hours old counts as one hour old, so its token
      is reused without contacting the token endpoint. */
  lemma DayOldTokenReused(reply: TokenReply)
    ensures var cache := Some(map["errmsg" := JStr("ok"), "access_token" := JStr("T"), "date" := JInt(0)]);
      && TokenValid(cache, 25 * 3600) == Success(true)
      && AccessToken(cache, 25 * 3600, reply) == Step(Success(JStr("T")), cache)
  {
    var cache := Some(map["errmsg" := JStr("ok"), "access_token" := JStr("T"), "date" := JInt(0)]);
    assert Elapsed(25 * 3600, 0) == 3600;
  }

  /** The validity rule with the age read as total seconds, as the two-hour
      window intends. */
  function TokenValidIntended(cache: Option<Cache>, now: int): (r: Result<bool>)
    ensures TokenValid(cache, now).Failure? <==> r.Failure?
    ensures r.Failure? ==> r == TokenValid(cache, now)
    ensures cache.Some? && "errmsg" in cache.value && cache.value["errmsg"] == JStr("ok")
            && "date" in cache.value && cache.value["date"].JInt? ==>
              r == Success(now - cache.value["date"].number < ValidSeconds)
    ensures r == Success(true) ==>
      && cache.Some? && "errmsg" in cache.value && cache.value["errmsg"] == JStr("ok")
      && "date" in cache.value && cache.value["date"].JInt?
      && now - cache.value["date"].number < ValidSeconds
  {
    match TokenValid(cache, now)
    case Failure(e) => Failure(e)
    case Success(valid) =>
      if cache.Some? && cache.value["errmsg"] == JStr("ok") then
        Success(now - cache.value["date"].number < ValidSeconds)
      else Success(valid)
  }

  /** With total seconds, a record two hours old or older is never valid, and
      the rule agrees with the as-written one for records under a day old. */
  lemma TokenValidIntendedExpires(data: Cache, date: int, now: int)
    requires "errmsg" in data && "date" in data && data["date"] == JInt(date)
    ensures now - date >= ValidSeconds ==> TokenValidIntended(Some(data), now) != Success(true)
    ensures 0 <= now - date < SecondsPerDay ==> TokenValidIntended(Some(data), now) == TokenValid(Some(data), now)
  {
  }

  /** A cache judged valid is reused: the cached token comes back, the cache
      is untouched, and the token endpoint's reply plays no part. */
  lemma ValidCacheReused(cache: Option<Cache>, now: int, reply: TokenReply)
    requires TokenValid(cache, now) == Success(true)
    ensures AccessToken(cache, now, reply) == Step(CachedToken(cache), cache)
    ensures AccessToken(cache, now, reply).result.Success?
    ensures forall other :: AccessToken(cache, now, other) == AccessToken(cache, now, reply)
  {
  }

  /** A cache judged invalid is refreshed: a transport error returns False
      and keeps the cache; a response overwrites the cache with the stamped
      response, and its token is returned or KeyError raised. */
  lemma RefreshFollowsReply(cache: Option<Cache>, now: int, reply: TokenReply)
    requires TokenValid(cache, now) == Success(false)
    ensures reply.TransportError? ==> AccessToken(cache, now, reply) == Step(Success(JBool(false)), cache)
    ensures reply.Response? ==> AccessToken(cache, now, reply).cache == Some(Stamp(reply.body, now))
    ensures reply.Response? && "access_token" in reply.body ==>
              AccessToken(cache, now, reply).result == Success(reply.body["access_token"])
    ensures reply.Response? && "access_token" !in reply.body ==>
              AccessToken(cache, now, reply).result == Failure(KeyError("access_token"))
  {
    if reply.Response? {
      var saved := Stamp(reply.body, now);
      assert "access_token" in saved <==> "access_token" in reply.body;
    }
  }

  /** As written, a response without a token still overwrites the cache
      before the lookup raises. */
  lemma TokenlessReplyRaises(cache: Option<Cache>, body: Cache, now: int)
    requires "access_token" !in body
    ensures FetchToken(cache, Response(body), now) == Step(Failure(KeyError("access_token")), Some(Stamp(body, now)))
  {
  }

  /** The refresh the `except KeyError: return False` around the token lookup
      intends: a response without a token returns False before anything is
      written. */
  function FetchTokenIntended(cache: Option<Cache>, reply: TokenReply, now: int): (s: Step)
    ensures s.result.Success?
    ensures reply.TransportError? || "access_token" !in reply.body ==> s == Step(Success(JBool(false)), cache)
    ensures reply.Response? && "access_token" in reply.body ==> s == FetchToken(cache, reply, now)
  {
    match reply
    case TransportError => Step(Success(JBool(false)), cache)
    case Response(body) =>
      if "access_token" !in body then Step(Success(JBool(false)), cache)
      else FetchToken(cache, reply, now)
  }

  /** A successful refresh makes the next lookups within two hours reuse the
      fetched token without contacting the token endpoint. */
  lemma FreshTokenReused(cache: Option<Cache>, body: Cache, now: int, later: int, other: TokenReply)
    requires TokenValid(cache, now) == Success(false)
    requires "errmsg" in body && body["errmsg"] == JStr("ok") && "access_token" in body
    requires 0 <= later - now < ValidSeconds
    ensures var s := AccessToken(cache, now, Response(body));
      && s.result == Success(body["access_token"])
      && AccessToken(s.cache, later, other) == Step(s.result, s.cache)
  {
    var s := AccessToken(cache, now, Response(body));
    RefreshFollowsReply(cache, now, Response(body));
    var saved := Stamp(body, now);
    assert s.cache == Some(saved);
    assert saved["errmsg"] == JStr("ok");
    assert Elapsed(later, now) == later - now;
    assert TokenValid(s.cache, later) == Success(true);
  }

  /** A refresh answered with an error status leaves a cache that forces the
      next lookup to refresh again. */
  lemma ErrorReplyForcesRefresh(cache: Option<Cache>, body: Cache, now: int, later: int)
    requires TokenValid(cache, now) == Success(false)
    requires "errmsg" in body && body["errmsg"].JStr? && body["errmsg"] != JStr("ok")
    ensures TokenValid(AccessToken(cache, now, Response(body)).cache, later) == Success(false)
  {
    RefreshFollowsReply(cache, now, Response(body));
    assert Stamp(body, now)["errmsg"] == body["errmsg"];
  }
}
