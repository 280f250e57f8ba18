/**
 * The web client's payload normaliser (web/src/utils/imNormalize.js): loosely
 * shaped session and message objects from the server become the records the
 * chat views use. Every field has a fallback chain built from JavaScript's `||`.
 */
module ImNormalize {
  import opened GoStrings

  /** A JavaScript value as it can appear in a payload; objects and arrays are references. */
  datatype JsVal = Undefined | Null | Bool(b: bool) | Num(n: int) | Str(s: string) | Ref(id: nat)

  /** A payload object: own keys and their values. */
  type JsObject = map<string, JsVal>

  /** Either the value a JavaScript function returned, or the TypeError it threw. */
  datatype Thrown<T> = Returned(value: T) | TypeErrorThrown

  /** JavaScript truthiness (NaN is not modelled; numbers are integers). */
  predicate Truthy(v: JsVal)
  {
    match v
    case Undefined => false
    case Null => false
    case Bool(b) => b
    case Num(n) => n != 0
    case Str(s) => s != []
    case Ref(_) => true
  }

  /** `a || b` */
  function Or(a: JsVal, b: JsVal): JsVal { if Truthy(a) then a else b }

  /** Property access: a missing key reads as `undefined`. */
  function Get(o: JsObject, k: string): JsVal { if k in o then o[k] else Undefined }

  /** `v.startsWith(c)` on a truthy value: only strings have the method. */
  function StartsWith(v: JsVal, c: char): Thrown<bool>
  {
    if v.Str? then Returned(HasPrefix(v.s, [c])) else TypeErrorThrown
  }

  /** `v && v.startsWith(c)` used as a condition. */
  function TruthyAndStartsWith(v: JsVal, c: char): Thrown<bool>
  {
    if Truthy(v) then StartsWith(v, c) else Returned(false)
  }

  // ---------------------------------------------------------------- sessions

  function SessionPeerId(raw: JsObject): JsVal
  {
    Or(Or(Or(Get(raw, "peer_id"), Get(raw, "user_id")), Get(raw, "group_id")), Get(raw, "receive_id"))
  }

  /** The peer type before the spread: explicit, else by id prefix, else by group_id, else user. */
  function SessionPeerType(raw: JsObject, peerId: JsVal): Thrown<JsVal>
  {
    var explicit := Get(raw, "peer_type");
    if Truthy(explicit) then Returned(explicit)
    else match TruthyAndStartsWith(peerId, 'G')
      case TypeErrorThrown => TypeErrorThrown
      case Returned(isG) =>
        if isG then Returned(Str("G"))
        else match TruthyAndStartsWith(peerId, 'U')
          case TypeErrorThrown => TypeErrorThrown
          case Returned(isU) =>
            if isU then Returned(Str("U"))
            else if Truthy(Get(raw, "group_id")) then Returned(Str("G"))
            else Returned(Str("U"))
  }

  /** normalizeSession: the computed fields, then every key of `raw` copied over them. */
  const SessionFields: set<string> :=
    {"session_id", "peer_id", "peer_type", "peer_name", "peer_avatar", "updated_at", "last_msg", "unread_count"}

  function NormalizeSession(raw: JsObject, nowIso: string): (r: Thrown<JsObject>)
    ensures r.Returned? ==> r.value.Keys == SessionFields + raw.Keys
    ensures r.Returned? ==> forall k :: k in raw ==> k in r.value && r.value[k] == raw[k]
    ensures r.TypeErrorThrown? <==>
      (!Truthy(Get(raw, "peer_type")) && Truthy(SessionPeerId(raw)) && !SessionPeerId(raw).Str?)
  {
    var peerId := SessionPeerId(raw);
    match SessionPeerType(raw, peerId)
    case TypeErrorThrown => TypeErrorThrown
    case Returned(peerType) =>
      var avatar := Or(Or(Or(Get(raw, "peer_avatar"), Get(raw, "avatar")), Get(raw, "receive_avatar")), Str(""));
      var name := Or(Or(Or(Or(Get(raw, "peer_name"), Get(raw, "username")), Get(raw, "group_name")),
                        Get(raw, "receive_name")), Str("Unknown"));
      var computed: JsObject := map[
        "session_id" := Get(raw, "session_id"),
        "peer_id" := peerId,
        "peer_type" := peerType,
        "peer_name" := name,
        "peer_avatar" := avatar,
        "updated_at" := Or(Get(raw, "updated_at"), Str(nowIso)),
        "last_msg" := Or(Get(raw, "last_msg"), Str("")),
        "unread_count" := Or(Get(raw, "unread_count"), Num(0))
      ];
      Returned(computed + raw)
  }

  /** Without a `peer_id` key, the peer id falls back to user_id, then group_id, then receive_id. */
  lemma SessionPeerIdDefault(raw: JsObject, nowIso: string)
    requires NormalizeSession(raw, nowIso).Returned? && "peer_id" !in raw
    ensures NormalizeSession(raw, nowIso).value["peer_id"]
            == Or(Or(Get(raw, "user_id"), Get(raw, "group_id")), Get(raw, "receive_id"))
  {
  }

  /** Without a `peer_name` key, the peer name is truthy: the first truthy name field, else "Unknown". */
  lemma SessionPeerNameDefault(raw: JsObject, nowIso: string)
    requires NormalizeSession(raw, nowIso).Returned? && "peer_name" !in raw
    ensures var name := NormalizeSession(raw, nowIso).value["peer_name"];
      Truthy(name) &&
      name == Or(Or(Or(Get(raw, "username"), Get(raw, "group_name")), Get(raw, "receive_name")), Str("Unknown"))
  {
  }

  /** Without an `unread_count` key, the unread count is 0. */
  lemma SessionUnreadDefault(raw: JsObject, nowIso: string)
    requires NormalizeSession(raw, nowIso).Returned? && "unread_count" !in raw
    ensures NormalizeSession(raw, nowIso).value["unread_count"] == Num(0)
  {
  }

  /** Without a `peer_type` key, the peer type is "G" or "U". */
  lemma SessionPeerTypeDefault(raw: JsObject, nowIso: string)
    requires NormalizeSession(raw, nowIso).Returned? && "peer_type" !in raw
    ensures var t := NormalizeSession(raw, nowIso).value["peer_type"];
      t == Str("G") || t == Str("U")
  {
  }

  /** The peer type is read off the id prefix when no explicit type is given. */
  lemma SessionPeerTypeByPrefix(raw: JsObject, nowIso: string)
    requires !Truthy(Get(raw, "peer_type")) && "peer_type" !in raw
    requires SessionPeerId(raw).Str?
    ensures var r := NormalizeSession(raw, nowIso);
      r.Returned? &&
      (HasPrefix(SessionPeerId(raw).s, "G") ==> r.value["peer_type"] == Str("G")) &&
      (HasPrefix(SessionPeerId(raw).s, "U") ==> r.value["peer_type"] == Str("U")) &&
      (!HasPrefix(SessionPeerId(raw).s, "G") && !HasPrefix(SessionPeerId(raw).s, "U") ==>
         r.value["peer_type"] == (if Truthy(Get(raw, "group_id")) then Str("G") else Str("U")))
  {
  }

  // ---------------------------------------------------------------- messages

  datatype Message = Message(
    uuid: JsVal, sessionId: JsVal, sendId: JsVal, receiveId: JsVal, msgType: JsVal,
    content: JsVal, url: JsVal, fileName: JsVal, fileSize: JsVal, fileType: JsVal,
    sendAvatar: JsVal, sendName: JsVal, createdAt: JsVal, mentionedUserIds: JsVal,
    mentionAll: JsVal, peerId: JsVal)

  /** `raw.snake || raw.camel || ''` */
  function IdField(raw: JsObject, snake: string, camel: string): JsVal
  {
    Or(Or(Get(raw, snake), Get(raw, camel)), Str(""))
  }

  /**
   * normalizeIncomingMessage. `nowMillis` is Date.now(), `nowIso` the current
   * time as an ISO string, and `emptyArray` the reference of a fresh `[]`.
   */
  function NormalizeIncomingMessage(raw: JsObject, currentUserId: JsVal, nowMillis: nat, nowIso: string,
                                    emptyArray: nat): (r: Thrown<Message>)
    ensures r.TypeErrorThrown? <==>
      (Truthy(IdField(raw, "receive_id", "receiveId")) && !IdField(raw, "receive_id", "receiveId").Str?)
    ensures r.Returned? ==>
      var m := r.value;
      var recv := IdField(raw, "receive_id", "receiveId");
      && m.sendId == IdField(raw, "send_id", "sendId")
      && m.receiveId == recv
      && (recv.Str? && HasPrefix(recv.s, "G") ==> m.peerId == recv)
      && (!(recv.Str? && HasPrefix(recv.s, "G")) ==>
            m.peerId == if m.sendId == currentUserId then recv else m.sendId)
      && Truthy(m.uuid)
      && (Truthy(Get(raw, "uuid")) ==> m.uuid == raw["uuid"])
      && (m.msgType == if Get(raw, "type") != Undefined then raw["type"] else Num(0))
      && (m.content == if Truthy(Get(raw, "content")) then raw["content"] else Str(""))
      && (m.url == if Truthy(Get(raw, "url")) then raw["url"] else Str(""))
      && (m.mentionAll == Or(Or(Get(raw, "mention_all"), Get(raw, "mentionAll")), Bool(false)))
  {
    var sendId := IdField(raw, "send_id", "sendId");
    var receiveId := IdField(raw, "receive_id", "receiveId");
    match TruthyAndStartsWith(receiveId, 'G')
    case TypeErrorThrown => TypeErrorThrown
    case Returned(isGroup) =>
      var peerId := if isGroup then receiveId
                    else if sendId == currentUserId then receiveId else sendId;
      Returned(Message(
        uuid := Or(Or(Get(raw, "uuid"), Get(raw, "id")), Str("temp-" + NatToDecimal(nowMillis))),
        sessionId := Or(Get(raw, "session_id"), Get(raw, "sessionId")),
        sendId := sendId,
        receiveId := receiveId,
        msgType := if Get(raw, "type") != Undefined then Get(raw, "type") else Num(0),
        content := Or(Get(raw, "content"), Str("")),
        url := Or(Get(raw, "url"), Str("")),
        fileName := Or(Or(Get(raw, "file_name"), Get(raw, "fileName")), Str("")),
        fileSize := Or(Or(Get(raw, "file_size"), Get(raw, "fileSize")), Str("")),
        fileType := Or(Or(Get(raw, "file_type"), Get(raw, "fileType")), Str("")),
        sendAvatar := Or(Or(Get(raw, "send_avatar"), Get(raw, "sendAvatar")), Str("")),
        sendName := Or(Or(Get(raw, "send_name"), Get(raw, "sendName")), Str("")),
        createdAt := Or(Or(Get(raw, "created_at"), Get(raw, "createdAt")), Str(nowIso)),
        mentionedUserIds := Or(Or(Get(raw, "mentioned_user_ids"), Get(raw, "mentionedUserIds")), Ref(emptyArray)),
        mentionAll := Or(Or(Get(raw, "mention_all"), Get(raw, "mentionAll")), Bool(false)),
        peerId := peerId))
  }

  /** The snake_case id wins over the camelCase one, which wins over ''. */
  lemma IdFieldFallback(raw: JsObject, snake: string, camel: string)
    ensures Truthy(Get(raw, snake)) ==> IdField(raw, snake, camel) == raw[snake]
    ensures !Truthy(Get(raw, snake)) && Truthy(Get(raw, camel)) ==> IdField(raw, snake, camel) == raw[camel]
    ensures !Truthy(Get(raw, snake)) && !Truthy(Get(raw, camel)) ==> IdField(raw, snake, camel) == Str("")
  {
  }

  /**
   * Both sides of a private conversation agree on the peer: the message a
   * user sends and the one they receive from the same peer both carry that peer.
   */
  lemma DirectPeerIsTheOtherSide(raw: JsObject, me: string, peer: string, nowMillis: nat, nowIso: string, e: nat)
    requires me != peer && me != [] && peer != [] && !HasPrefix(peer, "G")
    ensures var out := NormalizeIncomingMessage(raw["send_id" := Str(me)]["receive_id" := Str(peer)], Str(me), nowMillis, nowIso, e);
      out.Returned? && out.value.peerId == Str(peer)
    ensures var inb := NormalizeIncomingMessage(raw["send_id" := Str(peer)]["receive_id" := Str(me)], Str(me), nowMillis, nowIso, e);
      !HasPrefix(me, "G") ==> inb.Returned? && inb.value.peerId == Str(peer)
  {
  }
}
