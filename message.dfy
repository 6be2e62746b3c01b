/** The request body `send` builds before any network traffic: the base
    envelope plus one kind-specific sub-object. */
module Message {
  import opened Values

  /** The five message kinds the send endpoint accepts. */
  const MessageKinds: set<string> := {"text", "image", "voice", "video", "file"}

  /** Fixed placeholders attached to every video message. */
  const VideoTitle := "Title"
  const VideoDescription := "Description"

  /** Keys of the base envelope every payload carries. */
  const EnvelopeKeys: set<string> := {"touser", "toparty", "totag", "msgtype", "agentid", "safe"}

  /** The kind-specific sub-object. */
  datatype Body =
    | Text(content: Json)
    | Image(mediaId: Json)
    | Voice(mediaId: Json)
    | Video(mediaId: Json, title: string, description: string)
    | File(mediaId: Json)

  /** A request body: recipient selectors, the application's agent id and the
      sub-object; `msgtype` and `safe` are derived when it is encoded. */
  datatype Payload = Payload(toUser: string, toParty: string, toTag: string, agentId: Json, body: Body)

  /** The `msgtype` tag of a body, which is also the key of its sub-object. */
  function Kind(b: Body): (k: string)
    ensures k in MessageKinds
  {
    match b
    case Text(_) => "text"
    case Image(_) => "image"
    case Voice(_) => "voice"
    case Video(_, _, _) => "video"
    case File(_) => "file"
  }

  /** Reference rule for which `send` arguments are acceptable: a known kind,
      and a truthy media id for every kind but text. */
  predicate Accepted(msgType: Json, mediaId: Json)
  {
    msgType.JStr? && msgType.str in MessageKinds &&
    (msgType.str != "text" ==> Truthy(mediaId))
  }

  /** Payload construction of `send`: the envelope from the arguments and the
      agent id, and the sub-object chosen by `msgType`; a falsy `msgType`, an
      unknown kind or a media kind without a truthy media id raises. */
  function BuildPayload(msgType: Json, toUser: string, toParty: string, toTag: string,
                        content: Json, mediaId: Json, agentId: Json): (r: Result<Payload>)
    ensures r.Success? <==> Accepted(msgType, mediaId)
    ensures r.Failure? ==> r.error == (if Truthy(msgType) then InvalidMessage(msgType) else MissingMsgType)
    ensures r.Success? ==>
      && r.value.toUser == toUser && r.value.toParty == toParty && r.value.toTag == toTag
      && r.value.agentId == agentId
      && JStr(Kind(r.value.body)) == msgType
      && (r.value.body.Text? ==> r.value.body.content == content)
      && (!r.value.body.Text? ==> r.value.body.mediaId == mediaId)
      && (r.value.body.Video? ==> r.value.body.title == VideoTitle && r.value.body.description == VideoDescription)
  {
    var envelope := (b: Body) => Payload(toUser, toParty, toTag, agentId, b);
    if !Truthy(msgType) then Failure(MissingMsgType)
    else if msgType == JStr("text") then Success(envelope(Text(content)))
    else if msgType == JStr("image") && Truthy(mediaId) then Success(envelope(Image(mediaId)))
    else if msgType == JStr("voice") && Truthy(mediaId) then Success(envelope(Voice(mediaId)))
    else if msgType == JStr("video") && Truthy(mediaId) then
      Success(envelope(Video(mediaId, VideoTitle, VideoDescription)))
    else if msgType == JStr("file") && Truthy(mediaId) then Success(envelope(File(mediaId)))
    else Failure(InvalidMessage(msgType))
  }

  /** The JSON object of a sub-object. */
  function BodyJson(b: Body): (m: map<string, Json>)
    ensures b.Text? ==> m == map["content" := b.content]
    ensures b.Video? ==> m.Keys == {"media_id", "title", "description"}
    ensures b.Video? ==> m["title"] == JStr(b.title) && m["description"] == JStr(b.description)
    ensures !b.Text? ==> "media_id" in m && m["media_id"] == b.mediaId
    ensures !b.Text? && !b.Video? ==> m.Keys == {"media_id"}
  {
    match b
    case Text(c) => map["content" := c]
    case Video(id, t, d) => map["media_id" := id, "title" := JStr(t), "description" := JStr(d)]
    case Image(id) => map["media_id" := id]
    case Voice(id) => map["media_id" := id]
    case File(id) => map["media_id" := id]
  }

  /** The JSON document posted to the send endpoint. */
  function ToJson(p: Payload): (m: map<string, Json>)
    ensures m.Keys == EnvelopeKeys + {Kind(p.body)}
    ensures Kind(p.body) !in EnvelopeKeys
    ensures m["touser"] == JStr(p.toUser) && m["toparty"] == JStr(p.toParty) && m["totag"] == JStr(p.toTag)
    ensures m["msgtype"] == JStr(Kind(p.body)) && m["agentid"] == p.agentId && m["safe"] == JInt(0)
    ensures m[Kind(p.body)] == JObj(BodyJson(p.body))
  {
    map["touser" := JStr(p.toUser), "toparty" := JStr(p.toParty), "totag" := JStr(p.toTag),
        "msgtype" := JStr(Kind(p.body)), "agentid" := p.agentId, "safe" := JInt(0),
        Kind(p.body) := JObj(BodyJson(p.body))]
  }

  /** Every accepted `send` posts exactly the base envelope, taken unchanged
      from the arguments, plus one sub-object keyed by the message kind. */
  lemma PayloadShape(msgType: Json, toUser: string, toParty: string, toTag: string,
                     content: Json, mediaId: Json, agentId: Json)
    requires Accepted(msgType, mediaId)
    ensures BuildPayload(msgType, toUser, toParty, toTag, content, mediaId, agentId).Success?
    ensures var m := ToJson(BuildPayload(msgType, toUser, toParty, toTag, content, mediaId, agentId).value);
      && m.Keys == EnvelopeKeys + {msgType.str}
      && |m| == 7
      && m["touser"] == JStr(toUser) && m["toparty"] == JStr(toParty) && m["totag"] == JStr(toTag)
      && m["msgtype"] == msgType && m["agentid"] == agentId && m["safe"] == JInt(0)
      && m[msgType.str].JObj?
  {
    var p := BuildPayload(msgType, toUser, toParty, toTag, content, mediaId, agentId).value;
    var m := ToJson(p);
    assert |EnvelopeKeys| == 6;
    assert m.Keys == EnvelopeKeys + {Kind(p.body)};
  }

  /** Text messages attach the content unchecked, whatever it is. */
  lemma TextTakesAnyContent(toUser: string, toParty: string, toTag: string,
                            content: Json, mediaId: Json, agentId: Json)
    ensures var r := BuildPayload(JStr("text"), toUser, toParty, toTag, content, mediaId, agentId);
      r.Success? && ToJson(r.value)["text"] == JObj(map["content" := content])
  {
  }

  /** A video message posts its media id with the fixed placeholder title
      and description, whatever the caller passed. */
  lemma VideoCarriesPlaceholders(toUser: string, toParty: string, toTag: string,
                                 content: Json, mediaId: Json, agentId: Json)
    requires Truthy(mediaId)
    ensures var r := BuildPayload(JStr("video"), toUser, toParty, toTag, content, mediaId, agentId);
      && r.Success?
      && ToJson(r.value)["video"] ==
         JObj(map["media_id" := mediaId, "title" := JStr("Title"), "description" := JStr("Description")])
  {
    var p := BuildPayload(JStr("video"), toUser, toParty, toTag, content, mediaId, agentId).value;
    var m := BodyJson(p.body);
    assert m == map["media_id" := mediaId, "title" := JStr("Title"), "description" := JStr("Description")];
  }

  /** A media kind with a falsy media id is a caller-input error. */
  lemma RejectedArguments(msgType: Json, toUser: string, toParty: string, toTag: string,
                          content: Json, mediaId: Json, agentId: Json)
    requires msgType in {JStr("image"), JStr("voice"), JStr("video"), JStr("file")}
    requires !Truthy(mediaId)
    ensures BuildPayload(msgType, toUser, toParty, toTag, content, mediaId, agentId) == Failure(InvalidMessage(msgType))
  {
  }

  /** Whatever the media id, an unknown kind is a caller-input error and a
      falsy kind is reported as a missing kind. */
  lemma UnknownOrMissingKindRejected(toUser: string, toParty: string, toTag: string,
                                     content: Json, mediaId: Json, agentId: Json)
    ensures BuildPayload(JStr("bogus"), toUser, toParty, toTag, content, mediaId, agentId) == Failure(InvalidMessage(JStr("bogus")))
    ensures BuildPayload(JNull, toUser, toParty, toTag, content, mediaId, agentId) == Failure(MissingMsgType)
    ensures BuildPayload(JStr(""), toUser, toParty, toTag, content, mediaId, agentId) == Failure(MissingMsgType)
  {
  }
}
