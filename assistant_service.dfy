/**
 * The rules of the assistant service that do not depend on the LLM
 * (internal/modules/ai/application/service/assistant_service.go):
 * summary truncation, paging of a session's history, and the defaults
 * applied when an agent or a session is created.
 * Repositories, the JSON decoder, the ID generator and the clock are parameters.
 */
module AssistantService {
  import opened Common
  import opened GoStrings
  import AssistantGraph

  // ---- truncateSummary ----

  /** truncateSummary: trim, give "" for blank text or a non-positive limit, else cut to maxLen runes plus "...". */
  function TruncateSummary(content: string, maxLen: int): (r: string)
    ensures IsBlank(content) || maxLen <= 0 ==> r == ""
    ensures maxLen > 0 ==> |r| <= maxLen + 3
  {
    var t := TrimSpace(content);
    if t == "" || maxLen <= 0 then ""
    else if |t| > maxLen then t[..maxLen] + "..."
    else t
  }

  /**
   * A summary is the trimmed text truncated like a message preview: short text is kept whole,
   * longer text keeps its first maxLen runes followed by "...".
   */
  lemma SummaryIsTruncatedTrim(content: string, maxLen: int)
    requires !IsBlank(content) && maxLen > 0
    ensures TruncateSummary(content, maxLen) == AssistantGraph.TruncateContent(TrimSpace(content), maxLen)
    ensures |TrimSpace(content)| <= maxLen ==> TruncateSummary(content, maxLen) == TrimSpace(content)
    ensures |TrimSpace(content)| > maxLen ==>
      TruncateSummary(content, maxLen) == TrimSpace(content)[..maxLen] + "..."
  {
  }

  /** A kept (non-blank) summary is never empty and starts with as much of the trimmed content as fits. */
  lemma SummaryNeverBlankWhenKept(content: string, maxLen: int)
    requires !IsBlank(content) && maxLen > 0
    ensures TruncateSummary(content, maxLen) != ""
    ensures HasPrefix(TruncateSummary(content, maxLen), TrimSpace(content)[..Min(maxLen, |TrimSpace(content)|)])
  {
    var t := TrimSpace(content);
    var r := TruncateSummary(content, maxLen);
    if |t| > maxLen {
      assert r[..maxLen] == t[..maxLen];
    } else {
      assert t[..|t|] == t;
    }
  }

  // ---- parseCitationsJSON ----

  datatype CitationEntry = CitationEntry(chunkId: string, sourceType: string, sourceKey: string, content: string, score: real)

  /**
   * parseCitationsJSON: nothing for a blank or "{}" column; else the decoded array, or a single
   * decoded object when it carries a chunk id, source key or content.
   * `asList` and `asSingle` stand for json.Unmarshal into a slice and into one entry.
   */
  function ParseCitations(raw: string, asList: string -> Option<seq<CitationEntry>>,
                          asSingle: string -> Option<CitationEntry>): (r: seq<CitationEntry>)
    ensures IsBlank(raw) || TrimSpace(raw) == "{}" ==> r == []
    ensures !IsBlank(raw) && TrimSpace(raw) != "{}" && asList(TrimSpace(raw)).Some? ==> r == asList(TrimSpace(raw)).value
    ensures |r| == 1 && asList(TrimSpace(raw)).None? ==>
      asSingle(TrimSpace(raw)) == Some(r[0]) && (r[0].chunkId != "" || r[0].sourceKey != "" || r[0].content != "")
  {
    var t := TrimSpace(raw);
    if t == "" || t == "{}" then []
    else match asList(t)
      case Some(list) => list
      case None =>
        match asSingle(t)
        case Some(single) =>
          if single.chunkId != "" || single.sourceKey != "" || single.content != "" then [single] else []
        case None => []
  }

  // ---- GetSessionMessages ----

  /** A stored assistant message; `createdAt` is carried through untouched. */
  datatype StoredMessage = StoredMessage(role: string, content: string, citationsJson: string, tokensJson: string, createdAt: int)

  datatype MessageItem = MessageItem(role: string, content: string, createdAt: int, citations: seq<CitationEntry>,
                                     tokensPrompt: int, tokensAnswer: int, tokensTotal: int)

  datatype MessageList = MessageList(sessionId: string, messages: seq<MessageItem>, total: int)

  /** The decoders a history page needs: citations as a list or as one entry, and the token counters. */
  datatype Decoders = Decoders(asList: string -> Option<seq<CitationEntry>>, asSingle: string -> Option<CitationEntry>,
                               tokens: string -> Option<map<string, int>>)

  /** A missing key of a decoded Go map reads as the zero value. */
  function Lookup(m: map<string, int>, k: string): int { if k in m then m[k] else 0 }

  /** The response item of one stored message. */
  function ItemOf(msg: StoredMessage, d: Decoders): (r: MessageItem)
    ensures r.role == msg.role && r.content == msg.content && r.createdAt == msg.createdAt
    ensures r.citations != [] ==> msg.role == "assistant" && msg.citationsJson != ""
    ensures msg.tokensJson == "" || d.tokens(msg.tokensJson).None? ==>
      r.tokensPrompt == 0 && r.tokensAnswer == 0 && r.tokensTotal == 0
  {
    var citations :=
      if msg.role == "assistant" && msg.citationsJson != "" then ParseCitations(msg.citationsJson, d.asList, d.asSingle)
      else [];
    var tokens := if msg.tokensJson == "" then None else d.tokens(msg.tokensJson);
    match tokens
    case None => MessageItem(msg.role, msg.content, msg.createdAt, citations, 0, 0, 0)
    case Some(m) =>
      MessageItem(msg.role, msg.content, msg.createdAt, citations,
                  Lookup(m, "prompt_tokens"), Lookup(m, "answer_tokens"), Lookup(m, "total_tokens"))
  }

  /** The page that is read: the limit and offset after the defaults and the jump to the last page. */
  datatype Window = Window(limit: int, offset: int)

  const DefaultHistoryLimit: int := 20

  function PageWindow(limit: int, offset: int, total: int): (w: Window)
    ensures w.limit >= 1 && w.offset >= 0
    ensures limit > 0 ==> w.limit == limit
    ensures limit <= 0 ==> w.limit == DefaultHistoryLimit
    ensures offset > 0 ==> w.offset == offset
    ensures offset <= 0 && total > 0 ==> w.offset == Max(total - w.limit, 0)
    ensures offset <= 0 && total <= 0 ==> w.offset == 0
  {
    var limit := if limit <= 0 then DefaultHistoryLimit else limit;
    var offset := if offset < 0 then 0 else offset;
    if offset == 0 && total > 0 then Window(limit, Max(total - limit, 0)) else Window(limit, offset)
  }

  /** Without an explicit offset the page read is the last one: it reaches the newest message. */
  lemma DefaultPageIsLast(limit: int, offset: int, total: int)
    requires offset <= 0 && total > 0
    ensures var w := PageWindow(limit, offset, total);
      w.offset + w.limit >= total && (total >= w.limit ==> w.offset + w.limit == total)
  {
  }

  /** The outcome of one repository call: a value or the error it returned. */
  datatype Repo = Repo(present: bool, session: Result<bool>, count: Result<int>,
                       list: (int, int) -> Result<seq<StoredMessage>>)

  /** Whether a history request gets through all its checks and repository calls. */
  predicate HistoryServed(sessionID: string, tenantUserID: string, limit: int, offset: int, repo: Repo)
  {
    !IsBlank(sessionID) && !IsBlank(tenantUserID) && repo.present && repo.session == Ok(true) && repo.count.Ok?
    && repo.list(PageWindow(limit, offset, repo.count.value).limit, PageWindow(limit, offset, repo.count.value).offset).Ok?
  }

  /**
   * GetSessionMessages: validate the ids, look the session up, apply the paging defaults,
   * read the page and turn each stored message into an item, in order.
   */
  method GetSessionMessages(sessionID: string, tenantUserID: string, limit: int, offset: int, repo: Repo, d: Decoders)
    returns (r: Result<MessageList>)
    ensures r.Ok? <==> HistoryServed(sessionID, tenantUserID, limit, offset, repo)
    ensures IsBlank(sessionID) ==> r == Err(PlainErr("session_id is required"))
    ensures !IsBlank(sessionID) && IsBlank(tenantUserID) ==> r == Err(PlainErr("tenant_user_id is required"))
    ensures r.Ok? ==>
      var w := PageWindow(limit, offset, repo.count.value);
      var page := repo.list(w.limit, w.offset).value;
      r.value.sessionId == TrimSpace(sessionID) && r.value.total == repo.count.value &&
      |r.value.messages| == |page| &&
      forall i :: 0 <= i < |page| ==> r.value.messages[i] == ItemOf(page[i], d)
  {
    var sid := TrimSpace(sessionID);
    var tenant := TrimSpace(tenantUserID);
    if sid == "" {
      return Err(PlainErr("session_id is required"));
    }
    if tenant == "" {
      return Err(PlainErr("tenant_user_id is required"));
    }
    if !repo.present {
      return Err(PlainErr("message repository is nil"));
    }
    match repo.session {
      case Err(e) => return Err(PlainErr("failed to get session: " + e.msg));
      case Ok(found) =>
        if !found {
          return Err(PlainErr("session not found or access denied"));
        }
    }
    var lim, off := limit, offset;
    if lim <= 0 {
      lim := DefaultHistoryLimit;
    }
    if off < 0 {
      off := 0;
    }
    if repo.count.Err? {
      return Err(PlainErr("failed to count messages: " + repo.count.error.msg));
    }
    var totalCount := repo.count.value;
    if off == 0 && totalCount > 0 {
      var start := totalCount - lim;
      if start < 0 {
        start := 0;
      }
      off := start;
    }
    assert Window(lim, off) == PageWindow(limit, offset, totalCount);
    var listed := repo.list(lim, off);
    if listed.Err? {
      return Err(PlainErr("failed to list messages: " + listed.error.msg));
    }
    var items := BuildItems(listed.value, d);
    return Ok(MessageList(sid, items, totalCount));
  }

  /** The items loop of GetSessionMessages: one item per stored message, in order. */
  method BuildItems(messages: seq<StoredMessage>, d: Decoders) returns (items: seq<MessageItem>)
    ensures |items| == |messages|
    ensures forall i :: 0 <= i < |messages| ==> items[i] == ItemOf(messages[i], d)
  {
    items := [];
    for i := 0 to |messages|
      invariant |items| == i
      invariant forall j :: 0 <= j < i ==> items[j] == ItemOf(messages[j], d)
    {
      items := items + [ItemOf(messages[i], d)];
    }
  }

  // ---- CreateAgent ----

  const KBTypeGlobal: string := "global"
  const KBTypeAgentPrivate: string := "agent_private"
  const DefaultPersona: string := "你是一个通用的 AI 助手。"

  datatype CreateAgentRequest = CreateAgentRequest(name: string, description: string, personaPrompt: string,
                                                   kbType: string, kbName: string)

  /** Who owns a knowledge base: the tenant user, or the agent itself (owner type "agent"). */
  datatype KBOwner = UserOwner(userId: string) | AgentOwner(agentId: string)

  datatype KnowledgeBase = KnowledgeBase(owner: KBOwner, kbType: string, name: string)

  /** The system prompt: the fixed global one, or the private template around the persona. */
  datatype SystemPrompt = GlobalPrompt | PersonaPrompt(persona: string)

  datatype Agent = Agent(agentId: string, ownerId: string, name: string, description: string, personaPrompt: string,
                         systemPrompt: SystemPrompt, kbType: string, kbId: int, toolsJson: string, createdAt: int)

  /** The knowledge base an agent of this kind is bound to, or None for an unknown kb_type. */
  function KnowledgeBaseFor(req: CreateAgentRequest, tenantUserID: string, agentID: string): (r: Option<(KnowledgeBase, SystemPrompt)>)
    ensures r.Some? <==> req.kbType == KBTypeGlobal || req.kbType == KBTypeAgentPrivate
  {
    if req.kbType == KBTypeGlobal then
      Some((KnowledgeBase(UserOwner(tenantUserID), KBTypeGlobal, "Global Knowledge Base"), GlobalPrompt))
    else if req.kbType == KBTypeAgentPrivate then
      var persona := if IsBlank(req.personaPrompt) then DefaultPersona else TrimSpace(req.personaPrompt);
      var kbName := if IsBlank(req.kbName) then req.name + " Knowledge Base" else TrimSpace(req.kbName);
      Some((KnowledgeBase(AgentOwner(agentID), KBTypeAgentPrivate, kbName), PersonaPrompt(persona)))
    else None
  }

  /**
   * CreateAgent: the tenant is required; the kb_type picks the knowledge base (ensured through
   * `ensureKB`) and the system prompt; the agent is stored through `store`.
   * `agentID` is the generated "AG" id and `now` the clock.
   */
  function CreateAgent(req: CreateAgentRequest, tenantUserID: string, agentID: string, now: int,
                       ensureKB: KnowledgeBase -> Result<int>, store: Agent -> Status): (r: Result<Agent>)
    ensures IsBlank(tenantUserID) ==> r == Err(PlainErr("tenant_user_id is required"))
    ensures !IsBlank(tenantUserID) && req.kbType != KBTypeGlobal && req.kbType != KBTypeAgentPrivate ==>
      r == Err(PlainErr("invalid kb_type: " + req.kbType))
    ensures r.Ok? ==>
      var kp := KnowledgeBaseFor(req, TrimSpace(tenantUserID), agentID);
      kp.Some? && ensureKB(kp.value.0) == Ok(r.value.kbId) && r.value.systemPrompt == kp.value.1 &&
      store(r.value) == Success
    ensures r.Ok? ==> (r.value.agentId == agentID && r.value.ownerId == TrimSpace(tenantUserID) &&
                       r.value.name == req.name && r.value.kbType == req.kbType && r.value.toolsJson == "[]")
  {
    var tenant := TrimSpace(tenantUserID);
    if tenant == "" then Err(PlainErr("tenant_user_id is required"))
    else match KnowledgeBaseFor(req, tenant, agentID)
      case None => Err(PlainErr("invalid kb_type: " + req.kbType))
      case Some((kb, prompt)) =>
        match ensureKB(kb)
        case Err(e) =>
          Err(PlainErr((if kb.kbType == KBTypeGlobal then "failed to ensure global knowledge base: "
                        else "failed to ensure agent knowledge base: ") + e.msg))
        case Ok(kbID) =>
          var agent := Agent(agentID, tenant, req.name, req.description, req.personaPrompt, prompt, req.kbType, kbID, "[]", now);
          match store(agent)
          case Failure(e) => Err(e)
          case Success => Ok(agent)
  }

  /** A private agent without a persona or a kb_name gets the generic persona and "<name> Knowledge Base". */
  lemma PrivateAgentDefaults(req: CreateAgentRequest, tenantUserID: string, agentID: string)
    requires req.kbType == KBTypeAgentPrivate
    ensures var kp := KnowledgeBaseFor(req, tenantUserID, agentID).value;
      kp.0.owner == AgentOwner(agentID) &&
      (IsBlank(req.personaPrompt) ==> kp.1 == PersonaPrompt(DefaultPersona)) &&
      (IsBlank(req.kbName) ==> kp.0.name == req.name + " Knowledge Base") &&
      (!IsBlank(req.kbName) ==> kp.0.name == TrimSpace(req.kbName))
  {
  }

  /** A global agent is bound to the tenant's global knowledge base and the global prompt. */
  lemma GlobalAgentBinding(req: CreateAgentRequest, tenantUserID: string, agentID: string)
    requires req.kbType == KBTypeGlobal
    ensures KnowledgeBaseFor(req, tenantUserID, agentID)
         == Some((KnowledgeBase(UserOwner(tenantUserID), KBTypeGlobal, "Global Knowledge Base"), GlobalPrompt))
  {
  }

  // ---- CreateSession ----

  const SessionStatusActive: int := 1
  const DefaultTitle: string := "New Chat"

  datatype CreateSessionRequest = CreateSessionRequest(agentId: string, title: string)

  datatype AssistantSession = AssistantSession(sessionId: string, tenantUserId: string, title: string, status: int,
                                               agentId: string, createdAt: int)

  /** The session record CreateSession stores: trimmed ids, an active status, and the title or its default. */
  function NewSession(req: CreateSessionRequest, tenantUserID: string, sessionID: string, now: int): (r: AssistantSession)
    ensures r.title == (if IsBlank(req.title) then DefaultTitle else req.title)
    ensures r.status == SessionStatusActive
  {
    var title := if IsBlank(req.title) then DefaultTitle else req.title;
    AssistantSession(sessionID, TrimSpace(tenantUserID), title, SessionStatusActive, TrimSpace(req.agentId), now)
  }

  /**
   * CreateSession: tenant and agent are required (after trimming), the agent must be visible to
   * the tenant (`agentLookup` is the repository's answer), and the new session is stored.
   */
  function CreateSession(req: CreateSessionRequest, tenantUserID: string, sessionID: string, now: int,
                         agentLookup: Result<bool>, store: AssistantSession -> Status): (r: Result<AssistantSession>)
    ensures IsBlank(tenantUserID) ==> r == Err(PlainErr("tenant_user_id is required"))
    ensures !IsBlank(tenantUserID) && IsBlank(req.agentId) ==> r == Err(PlainErr("agent_id is required"))
    ensures r.Ok? <==> !IsBlank(tenantUserID) && !IsBlank(req.agentId) && agentLookup == Ok(true)
                       && store(NewSession(req, tenantUserID, sessionID, now)) == Success
    ensures r.Ok? ==> r.value == NewSession(req, tenantUserID, sessionID, now)
  {
    var tenant := TrimSpace(tenantUserID);
    var agentID := TrimSpace(req.agentId);
    if tenant == "" then Err(PlainErr("tenant_user_id is required"))
    else if agentID == "" then Err(PlainErr("agent_id is required"))
    else match agentLookup
      case Err(e) => Err(e)
      case Ok(found) =>
        if !found then Err(PlainErr("agent not found or access denied"))
        else
          var session := NewSession(req, tenantUserID, sessionID, now);
          match store(session)
          case Failure(e) => Err(e)
          case Success => Ok(session)
  }
}
