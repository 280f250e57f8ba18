/**
 * The asynchronous ingest service (internal/modules/ai/application/service/async_ingest_service.go):
 * the four enqueue operations that validate a request, build the event payload and its dedup key,
 * and write one pending ingest event, treating a duplicate-key insert as success.
 * The event repository is a sequence of written events; JSON marshalling, sha256+hex and the
 * repository's insert error are parameters, and the clock is an integer argument.
 */
module AsyncIngest {
  import opened Common
  import opened GoStrings

  /** The ingest event enqueue writes; its publish status and status both start pending. */
  datatype NewIngestEvent = NewIngestEvent(eventType: string, tenantUserId: string, sourceType: string,
                                           sourceKey: string, payloadJson: string, dedupKey: string)

  /** The payloads the four enqueue operations marshal. */
  datatype Payload =
    | SelfProfilePayload(tenantUserId: string)
    | ContactProfilePayload(contactId: string)
    | GroupProfilePayload(groupId: string)
    | ChatPagePayload(sessionUuid: string, sessionType: int, sessionName: string, targetId: string,
                      page: int, pageSize: int, since: string, until: string)

  /** The arguments of enqueue. */
  datatype EnqueueArgs = EnqueueArgs(eventType: string, tenantUserId: string, sourceType: string, sourceKey: string,
                                     payload: Payload, dedupExtra: string)

  /**
   * What enqueue cannot see: json.Marshal (None for a marshalling error), sha256 followed by hex
   * encoding, and the error the repository's insert returns (None when it succeeds).
   */
  datatype Env = Env(marshal: Payload -> Option<string>, hexSha256: string -> string, createErr: Option<Error>)

  // ---- isDuplicateKeyErr ----

  /** isDuplicateKeyErr: a nil error is not one; otherwise its lower-cased text names the duplicate or the dedup index. */
  function IsDuplicateKeyErr(err: Option<string>): (r: bool)
    ensures err.None? ==> !r
  {
    match err
    case None => false
    case Some(msg) =>
      var s := ToLowerAscii(msg);
      Contains(s, "duplicate entry") || Contains(s, "uniq_ai_event_dedup")
  }

  /**
   * Whatever surrounds it, "duplicate entry" or the dedup index name, in any
   * ASCII case, marks a duplicate-key error.
   */
  lemma DuplicateMarkerRecognized(pre: string, word: string, post: string)
    requires ToLowerAscii(word) == "duplicate entry" || ToLowerAscii(word) == "uniq_ai_event_dedup"
    ensures IsDuplicateKeyErr(Some(pre + word + post))
  {
    LowerConcat(pre + word, post);
    LowerConcat(pre, word);
    ContainsInfix(ToLowerAscii(pre), ToLowerAscii(word), ToLowerAscii(post));
  }

  // ---- dedup keys ----

  const DedupKeyPrefix: string := "inc_"

  /** buildDedupKey: "inc_" and the hex sha256 of the five trimmed parts joined by "|". */
  function BuildDedupKey(tenantUserId: string, eventType: string, sourceType: string, sourceKey: string,
                         dedupExtra: string, hexSha256: string -> string): (r: string)
    ensures HasPrefix(r, DedupKeyPrefix)
  {
    var raw := TrimSpace(tenantUserId) + "|" + TrimSpace(eventType) + "|" + TrimSpace(sourceType) + "|" +
               TrimSpace(sourceKey) + "|" + TrimSpace(dedupExtra);
    var r := DedupKeyPrefix + hexSha256(raw);
    assert r[..|DedupKeyPrefix|] == DedupKeyPrefix;
    r
  }

  /** The dedup key depends only on the trimmed parts: surrounding white space never changes it. */
  lemma DedupKeyIgnoresSpace(tenantUserId: string, eventType: string, sourceType: string, sourceKey: string,
                             dedupExtra: string, hexSha256: string -> string)
    ensures BuildDedupKey(TrimSpace(tenantUserId), TrimSpace(eventType), TrimSpace(sourceType), TrimSpace(sourceKey),
                          TrimSpace(dedupExtra), hexSha256)
         == BuildDedupKey(tenantUserId, eventType, sourceType, sourceKey, dedupExtra, hexSha256)
  {
    TrimSpaceIdempotent(tenantUserId);
    TrimSpaceIdempotent(eventType);
    TrimSpaceIdempotent(sourceType);
    TrimSpaceIdempotent(sourceKey);
    TrimSpaceIdempotent(dedupExtra);
  }

  /** Go's integer division, which truncates toward zero. */
  function GoDiv(a: int, b: int): (q: int)
    requires b > 0
    ensures a >= 0 ==> q == a / b
    ensures a < 0 ==> q == -((-a) / b)
  {
    if a >= 0 then a / b else -((-a) / b)
  }

  /** dedupByMinute: the current Unix time in whole minutes, in decimal. */
  function DedupByMinute(nowUnix: int): (r: string)
    ensures r != []
    ensures nowUnix >= 0 ==> r == FormatInt(nowUnix / 60)
  {
    FormatInt(GoDiv(nowUnix, 60))
  }

  /** Two profile requests within the same minute get the same dedup extra, so the second is a duplicate. */
  lemma SameMinuteSameExtra(t1: int, t2: int)
    requires 0 <= t1 && 0 <= t2 && t1 / 60 == t2 / 60
    ensures DedupByMinute(t1) == DedupByMinute(t2)
  {
  }

  // ---- enqueue ----

  /** enqueue's first step: trim the four names and the dedup extra. */
  function TrimArgs(a: EnqueueArgs): EnqueueArgs
  {
    a.(eventType := TrimSpace(a.eventType), tenantUserId := TrimSpace(a.tenantUserId),
       sourceType := TrimSpace(a.sourceType), sourceKey := TrimSpace(a.sourceKey), dedupExtra := TrimSpace(a.dedupExtra))
  }

  /** Whether trimmed arguments name an event type, a tenant and a source. */
  predicate Complete(t: EnqueueArgs)
  {
    t.tenantUserId != [] && t.eventType != [] && t.sourceType != [] && t.sourceKey != []
  }

  /** The dedup key of trimmed arguments. */
  function DedupKeyOf(t: EnqueueArgs, hexSha256: string -> string): string
  {
    DedupKeyPrefix + hexSha256(t.tenantUserId + "|" + t.eventType + "|" + t.sourceType + "|" + t.sourceKey + "|" +
                               t.dedupExtra)
  }

  /** The key of the trimmed arguments is the one buildDedupKey computes from the raw ones. */
  lemma DedupKeyOfTrimmed(a: EnqueueArgs, hexSha256: string -> string)
    ensures DedupKeyOf(TrimArgs(a), hexSha256) ==
            BuildDedupKey(a.tenantUserId, a.eventType, a.sourceType, a.sourceKey, a.dedupExtra, hexSha256)
  {
  }

  /** The event enqueue writes for trimmed arguments whose payload marshals to `json`. */
  function EventOf(t: EnqueueArgs, json: string, hexSha256: string -> string): NewIngestEvent
  {
    NewIngestEvent(t.eventType, t.tenantUserId, t.sourceType, t.sourceKey, json, DedupKeyOf(t, hexSha256))
  }

  /**
   * enqueue on a present repository: trim, reject incomplete arguments, fail when the payload does
   * not marshal, otherwise insert the event; a duplicate-key insert error counts as success.
   */
  function EnqueueSpec(events: seq<NewIngestEvent>, a: EnqueueArgs, env: Env): (seq<NewIngestEvent>, Status)
  {
    EnqueueTrimmed(events, TrimArgs(a), env)
  }

  function EnqueueTrimmed(events: seq<NewIngestEvent>, t: EnqueueArgs, env: Env): (seq<NewIngestEvent>, Status)
  {
    if !Complete(t) then (events, Failure(ErrParam))
    else match env.marshal(t.payload)
      case None => (events, Failure(ErrServerError))
      case Some(json) => InsertSpec(events, EventOf(t, json, env.hexSha256), env.createErr)
  }

  /** The repository insert: the event is added, or the insert error is returned unless it is a duplicate key. */
  function InsertSpec(events: seq<NewIngestEvent>, ev: NewIngestEvent, createErr: Option<Error>)
    : (seq<NewIngestEvent>, Status)
  {
    match createErr
    case None => (events + [ev], Success)
    case Some(e) => if IsDuplicateKeyErr(Some(e.msg)) then (events, Success) else (events, Failure(e))
  }

  /**
   * Enqueue writes at most one event, and exactly one when the arguments are complete, the payload
   * marshals and the insert succeeds; that event carries the trimmed names and an "inc_" key.
   */
  lemma EnqueueWritesOne(events: seq<NewIngestEvent>, t: EnqueueArgs, env: Env)
    ensures var (events', r) := EnqueueTrimmed(events, t, env);
      (events' == events || (|events'| == |events| + 1 && events'[..|events|] == events)) &&
      (events' != events <==> Complete(t) && env.marshal(t.payload).Some? && env.createErr.None?) &&
      (events' != events ==>
        var ev := events'[|events|];
        ev == EventOf(t, env.marshal(t.payload).value, env.hexSha256) &&
        ev.tenantUserId != [] && ev.eventType != [] && ev.sourceType != [] && ev.sourceKey != [] &&
        HasPrefix(ev.dedupKey, DedupKeyPrefix))
  {
    if Complete(t) && env.marshal(t.payload).Some? && env.createErr.None? {
      var ev := EventOf(t, env.marshal(t.payload).value, env.hexSha256);
      var events' := events + [ev];
      assert events'[..|events|] == events;
      assert ev.dedupKey[..|DedupKeyPrefix|] == DedupKeyPrefix;
    }
  }

  /**
   * Enqueue fails only on incomplete arguments, a payload that does not marshal, or an insert error
   * other than a duplicate; a duplicate insert is success and writes nothing.
   */
  lemma EnqueueErrors(events: seq<NewIngestEvent>, t: EnqueueArgs, env: Env)
    ensures var (events', r) := EnqueueTrimmed(events, t, env);
      (r.Failure? <==>
        !Complete(t) || env.marshal(t.payload).None? ||
        (env.createErr.Some? && !IsDuplicateKeyErr(Some(env.createErr.value.msg)))) &&
      (!Complete(t) ==> r == Failure(ErrParam)) &&
      (Complete(t) && env.marshal(t.payload).None? ==> r == Failure(ErrServerError)) &&
      ((Complete(t) && env.marshal(t.payload).Some? && env.createErr.Some? &&
        IsDuplicateKeyErr(Some(env.createErr.value.msg)))
       ==> events' == events && r.Success?)
  {
  }

  // ---- the chat page request ----

  /** ChatMessagesPageRequest; `since` and `until` are already formatted as RFC 3339, "" when absent. */
  datatype ChatMessagesPageRequest = ChatMessagesPageRequest(
    tenantUserId: string, sessionUuid: string, sessionType: int, sessionName: string, targetId: string,
    page: int, pageSize: int, since: string, until: string, sourceType: string, sourceKey: string, dedupExtra: string)

  const DefaultChatPageSize: int := 50
  const MaxChatPageSize: int := 200

  /** The page clamp: page at least 1; page size 50 when unset, at most 200. */
  function ClampPage(page: int, pageSize: int): (r: (int, int))
    ensures r.0 >= 1 && 1 <= r.1 <= MaxChatPageSize
    ensures page > 0 ==> r.0 == page
    ensures page <= 0 ==> r.0 == 1
    ensures pageSize <= 0 ==> r.1 == DefaultChatPageSize
    ensures 0 < pageSize <= MaxChatPageSize ==> r.1 == pageSize
    ensures pageSize > MaxChatPageSize ==> r.1 == MaxChatPageSize
  {
    var page := if page <= 0 then 1 else page;
    var size := if pageSize <= 0 then 50 else pageSize;
    var size := if size > 200 then 200 else size;
    (page, size)
  }

  /** The request with every text field trimmed, as EnqueueChatMessagesPage reads it. */
  function Trimmed(req: ChatMessagesPageRequest): ChatMessagesPageRequest
  {
    req.(tenantUserId := TrimSpace(req.tenantUserId), sessionUuid := TrimSpace(req.sessionUuid),
         sessionName := TrimSpace(req.sessionName), targetId := TrimSpace(req.targetId),
         sourceType := TrimSpace(req.sourceType), sourceKey := TrimSpace(req.sourceKey),
         dedupExtra := TrimSpace(req.dedupExtra))
  }

  /**
   * EnqueueChatMessagesPage up to the call to enqueue: validate the request, fall back between
   * target id and source key, clamp the page, and default the dedup extra to the clock in nanoseconds.
   */
  function ChatPageArgs(req: ChatMessagesPageRequest, nowNano: int): Result<EnqueueArgs>
  {
    ArgsOfTrimmed(Trimmed(req), nowNano)
  }

  /** ChatPageArgs on a request whose text fields are already trimmed. */
  function ArgsOfTrimmed(t: ChatMessagesPageRequest, nowNano: int): (r: Result<EnqueueArgs>)
  {
    if t.tenantUserId == [] then Err(Error(BadRequest, "missing tenant_user_id"))
    else if t.sessionUuid == [] then Err(Error(BadRequest, "missing session_uuid"))
    else
      var targetId := if t.targetId == [] then t.sourceKey else t.targetId;
      if targetId == [] then Err(Error(BadRequest, "missing target_id"))
      else
        var (page, pageSize) := ClampPage(t.page, t.pageSize);
        if t.sourceType == [] then Err(Error(BadRequest, "missing source_type"))
        else
          var sourceKey := if t.sourceKey == [] then targetId else t.sourceKey;
          var payload := ChatPagePayload(t.sessionUuid, t.sessionType, t.sessionName, targetId,
                                         page, pageSize, t.since, t.until);
          var extra := if t.dedupExtra == [] then FormatInt(nowNano) else t.dedupExtra;
          Ok(EnqueueArgs("chat_messages_page", t.tenantUserId, t.sourceType, sourceKey, payload, extra))
  }

  /**
   * A request is rejected exactly when, after trimming, it lacks a tenant, a session, both the target
   * and the source key, or the source type, and each check has its own message; target id and source
   * key then stand in for each other.
   */
  lemma ChatPageFallbacks(req: ChatMessagesPageRequest, nowNano: int)
    ensures var r := ChatPageArgs(req, nowNano);
      var t := Trimmed(req);
      (r.Err? <==> t.tenantUserId == [] || t.sessionUuid == [] || (t.targetId == [] && t.sourceKey == []) ||
                   t.sourceType == []) &&
      (t.tenantUserId == [] ==> r == Err(Error(BadRequest, "missing tenant_user_id"))) &&
      (t.tenantUserId != [] && t.sessionUuid == [] ==> r == Err(Error(BadRequest, "missing session_uuid"))) &&
      (r.Err? ==> r.error.kind == BadRequest) &&
      (r.Ok? ==>
        r.value.payload.ChatPagePayload? &&
        r.value.payload.targetId == (if t.targetId != [] then t.targetId else t.sourceKey) &&
        r.value.sourceKey == (if t.sourceKey != [] then t.sourceKey else t.targetId) &&
        r.value.tenantUserId == t.tenantUserId && r.value.sourceType == t.sourceType &&
        (r.value.payload.page, r.value.payload.pageSize) == ClampPage(req.page, req.pageSize))
  {
    TrimmedFallbacks(Trimmed(req), nowNano);
  }

  lemma TrimmedFallbacks(t: ChatMessagesPageRequest, nowNano: int)
    ensures var r := ArgsOfTrimmed(t, nowNano);
      (r.Err? <==> t.tenantUserId == [] || t.sessionUuid == [] || (t.targetId == [] && t.sourceKey == []) ||
                   t.sourceType == []) &&
      (t.tenantUserId == [] ==> r == Err(Error(BadRequest, "missing tenant_user_id"))) &&
      (t.tenantUserId != [] && t.sessionUuid == [] ==> r == Err(Error(BadRequest, "missing session_uuid"))) &&
      (r.Err? ==> r.error.kind == BadRequest) &&
      (r.Ok? ==>
        r.value.payload.ChatPagePayload? &&
        r.value.payload.targetId == (if t.targetId != [] then t.targetId else t.sourceKey) &&
        r.value.sourceKey == (if t.sourceKey != [] then t.sourceKey else t.targetId) &&
        r.value.tenantUserId == t.tenantUserId && r.value.sourceType == t.sourceType &&
        (r.value.payload.page, r.value.payload.pageSize) == ClampPage(t.page, t.pageSize))
  {
  }

  /** Whatever the request, the arguments it yields pass enqueue's own completeness check. */
  lemma ChatPageArgsComplete(req: ChatMessagesPageRequest, nowNano: int)
    ensures ChatPageArgs(req, nowNano).Ok? ==> Complete(TrimArgs(ChatPageArgs(req, nowNano).value))
  {
    var r := ChatPageArgs(req, nowNano);
    if r.Ok? {
      ChatPageFallbacks(req, nowNano);
      var a := r.value;
      TrimSpaceIdempotent(req.tenantUserId);
      TrimSpaceIdempotent(req.sourceType);
      TrimSpaceIdempotent(req.targetId);
      TrimSpaceIdempotent(req.sourceKey);
      assert a.eventType == "chat_messages_page";
      CompleteFromParts(a);
    }
  }

  lemma CompleteFromParts(a: EnqueueArgs)
    requires a.eventType == "chat_messages_page"
    requires TrimSpace(a.tenantUserId) == a.tenantUserId != [] && TrimSpace(a.sourceType) == a.sourceType != []
    requires TrimSpace(a.sourceKey) == a.sourceKey != []
    ensures Complete(TrimArgs(a))
  {
    var e := a.eventType;
    assert e[0] == 'c' && e[|e| - 1] == 'e';
    TrimSpaceNoop(e);
  }

  // ---- the service ----

  /** asyncIngestService and the events its repository holds; `hasRepo` is false for a nil repository. */
  class AsyncIngestService {
    var events: seq<NewIngestEvent>
    const hasRepo: bool

    constructor(hasRepo: bool)
      ensures events == [] && this.hasRepo == hasRepo
    {
      events := [];
      this.hasRepo := hasRepo;
    }

    /** enqueue: a nil repository makes it a no-op that returns nil. */
    method Enqueue(a: EnqueueArgs, env: Env) returns (r: Status)
      modifies this
      ensures !hasRepo ==> r == Success && events == old(events)
      ensures hasRepo ==> (events, r) == EnqueueSpec(old(events), a, env)
    {
      if !hasRepo {
        return Success;
      }
      var t := TrimArgs(a);
      if t.tenantUserId == [] || t.eventType == [] || t.sourceType == [] || t.sourceKey == [] {
        return Failure(ErrParam);
      }
      r := Write(t, env);
    }

    /** The rest of enqueue on complete, trimmed arguments: marshal, build the event, insert it. */
    method Write(t: EnqueueArgs, env: Env) returns (r: Status)
      requires Complete(t)
      modifies this
      ensures (events, r) == EnqueueTrimmed(old(events), t, env)
    {
      var json := env.marshal(t.payload);
      if json.None? {
        return Failure(ErrServerError);
      }
      var ev := NewIngestEvent(t.eventType, t.tenantUserId, t.sourceType, t.sourceKey, json.value,
                               DedupKeyOf(t, env.hexSha256));
      r := Insert(ev, env.createErr);
    }

    /** eventRepo.Create, with its error filtered through isDuplicateKeyErr. */
    method Insert(ev: NewIngestEvent, createErr: Option<Error>) returns (r: Status)
      modifies this
      ensures (events, r) == InsertSpec(old(events), ev, createErr)
    {
      if createErr.Some? {
        if IsDuplicateKeyErr(Some(createErr.value.msg)) {
          return Success;
        }
        return Failure(createErr.value);
      }
      events := events + [ev];
      return Success;
    }

    /** EnqueueSelfProfile: the tenant is both the user and the source key; one event per minute. */
    method EnqueueSelfProfile(tenantUserId: string, nowUnix: int, env: Env) returns (r: Status)
      modifies this
      ensures TrimSpace(tenantUserId) == [] ==>
        r == Failure(Error(BadRequest, "missing tenant_user_id")) && events == old(events)
      ensures TrimSpace(tenantUserId) != [] && hasRepo ==>
        var t := TrimSpace(tenantUserId);
        (events, r) ==
          EnqueueSpec(old(events), EnqueueArgs("self_profile", t, "self_profile", t, SelfProfilePayload(t),
                                               DedupByMinute(nowUnix)), env)
      ensures !hasRepo ==> events == old(events)
    {
      var tenant := TrimSpace(tenantUserId);
      if tenant == [] {
        return Failure(Error(BadRequest, "missing tenant_user_id"));
      }
      r := Enqueue(EnqueueArgs("self_profile", tenant, "self_profile", tenant, SelfProfilePayload(tenant),
                               DedupByMinute(nowUnix)), env);
    }

    /** EnqueueContactProfile: keyed by the trimmed contact id; one event per minute. */
    method EnqueueContactProfile(tenantUserId: string, contactId: string, nowUnix: int, env: Env) returns (r: Status)
      modifies this
      ensures TrimSpace(tenantUserId) == [] || TrimSpace(contactId) == [] ==>
        r == Failure(ErrParam) && events == old(events)
      ensures TrimSpace(tenantUserId) != [] && TrimSpace(contactId) != [] && hasRepo ==>
        var cid := TrimSpace(contactId);
        (events, r) ==
          EnqueueSpec(old(events), EnqueueArgs("contact_profile", TrimSpace(tenantUserId), "contact_profile", cid,
                                               ContactProfilePayload(cid), DedupByMinute(nowUnix)), env)
      ensures !hasRepo ==> events == old(events)
    {
      var tenant := TrimSpace(tenantUserId);
      var cid := TrimSpace(contactId);
      if tenant == [] || cid == [] {
        return Failure(ErrParam);
      }
      r := Enqueue(EnqueueArgs("contact_profile", tenant, "contact_profile", cid, ContactProfilePayload(cid),
                               DedupByMinute(nowUnix)), env);
    }

    /** EnqueueGroupProfile: keyed by the trimmed group id; one event per minute. */
    method EnqueueGroupProfile(tenantUserId: string, groupId: string, nowUnix: int, env: Env) returns (r: Status)
      modifies this
      ensures TrimSpace(tenantUserId) == [] || TrimSpace(groupId) == [] ==>
        r == Failure(ErrParam) && events == old(events)
      ensures TrimSpace(tenantUserId) != [] && TrimSpace(groupId) != [] && hasRepo ==>
        var gid := TrimSpace(groupId);
        (events, r) ==
          EnqueueSpec(old(events), EnqueueArgs("group_profile", TrimSpace(tenantUserId), "group_profile", gid,
                                               GroupProfilePayload(gid), DedupByMinute(nowUnix)), env)
      ensures !hasRepo ==> events == old(events)
    {
      var tenant := TrimSpace(tenantUserId);
      var gid := TrimSpace(groupId);
      if tenant == [] || gid == [] {
        return Failure(ErrParam);
      }
      r := Enqueue(EnqueueArgs("group_profile", tenant, "group_profile", gid, GroupProfilePayload(gid),
                               DedupByMinute(nowUnix)), env);
    }

    /** EnqueueChatMessagesPage: a nil repository accepts anything, before any validation. */
    method EnqueueChatMessagesPage(req: ChatMessagesPageRequest, nowNano: int, env: Env) returns (r: Status)
      modifies this
      ensures !hasRepo ==> r == Success && events == old(events)
      ensures hasRepo ==>
        match ChatPageArgs(req, nowNano)
        case Err(e) => r == Failure(e) && events == old(events)
        case Ok(a) => (events, r) == EnqueueSpec(old(events), a, env)
    {
      if !hasRepo {
        return Success;
      }
      var args := ChatPageArgs(req, nowNano);
      if args.Err? {
        return Failure(args.error);
      }
      r := Enqueue(args.value, env);
    }
  }
}
