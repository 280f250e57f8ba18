/**
 * Chat history (messageServiceImpl): the private and the group message
 * lists, a page at a time, after a permission check on the caller's contact
 * row.
 *
 * The message repository answers newest first; the service hands the page
 * back oldest first. The repository is a function from the clamped
 * (page, page size) to its answer, None standing for a failed read.
 */
module MessageService {
  import opened Common

  datatype Message = Message(uuid: string, sessionId: string, sendId: string, sendName: string,
                             sendAvatar: string, receiveId: string, msgType: int, content: string,
                             url: string, fileType: string, fileName: string, fileSize: string, createdAt: int)

  datatype MessageItem = MessageItem(uuid: string, sessionId: string, sendId: string, sendName: string,
                                     sendAvatar: string, receiveId: string, msgType: int, content: string,
                                     url: string, fileType: string, fileName: string, fileSize: string, createdAt: int)

  /** A contact-row lookup: the row's status, no row, or a failed read. */
  datatype Row = Found(status: int) | Missing | ReadError

  const DefaultPageSize := 20
  const MaxPageSize := 200

  // ---------------------------------------------------------------------
  // Paging
  // ---------------------------------------------------------------------

  /** The page and page size actually queried. */
  function Paging(page: int, pageSize: int): (r: (int, int))
    ensures r.0 >= 1 && 1 <= r.1 <= MaxPageSize
    ensures page > 0 ==> r.0 == page
    ensures pageSize <= 0 ==> r.1 == DefaultPageSize
    ensures 0 < pageSize <= MaxPageSize ==> r.1 == pageSize
    ensures pageSize > MaxPageSize ==> r.1 == MaxPageSize
  {
    (if page <= 0 then 1 else page,
     if pageSize <= 0 then DefaultPageSize else if pageSize > MaxPageSize then MaxPageSize else pageSize)
  }

  /** Clamping twice is clamping once. */
  lemma PagingIdempotent(page: int, pageSize: int)
    ensures var (p, s) := Paging(page, pageSize); Paging(p, s) == (p, s)
  {
  }

  /** The clamps as the handlers write them, reassigning page and page size. */
  method ClampPaging(page0: int, pageSize0: int) returns (page: int, pageSize: int)
    ensures (page, pageSize) == Paging(page0, pageSize0)
  {
    page := page0;
    pageSize := pageSize0;
    if page <= 0 {
      page := 1;
    }
    if pageSize <= 0 {
      pageSize := DefaultPageSize;
    }
    if pageSize > MaxPageSize {
      pageSize := MaxPageSize;
    }
  }

  // ---------------------------------------------------------------------
  // Oldest first
  // ---------------------------------------------------------------------

  function ItemOf(m: Message): MessageItem
  {
    MessageItem(m.uuid, m.sessionId, m.sendId, m.sendName, m.sendAvatar, m.receiveId, m.msgType,
                m.content, m.url, m.fileType, m.fileName, m.fileSize, m.createdAt)
  }

  /** The items of `ms` in reverse order. */
  function RevItems(ms: seq<Message>): (r: seq<MessageItem>)
    ensures |r| == |ms|
    ensures forall k :: 0 <= k < |ms| ==> r[k] == ItemOf(ms[|ms| - 1 - k])
  {
    if |ms| == 0 then [] else RevItems(ms[1..]) + [ItemOf(ms[0])]
  }

  /** A newest-first page comes out oldest first. */
  lemma OldestFirst(ms: seq<Message>)
    requires forall i, j :: 0 <= i < j < |ms| ==> ms[i].createdAt >= ms[j].createdAt
    ensures forall i, j :: 0 <= i < j < |ms| ==> RevItems(ms)[i].createdAt <= RevItems(ms)[j].createdAt
  {
  }

  /** The reverse index loop of both handlers. */
  method ReverseItems(msgs: seq<Message>) returns (out: seq<MessageItem>)
    ensures out == RevItems(msgs)
  {
    out := [];
    var i := |msgs|;
    while i > 0
      invariant 0 <= i <= |msgs|
      invariant out == RevItems(msgs[i..])
    {
      i := i - 1;
      assert msgs[i..][1..] == msgs[i + 1..];
      out := out + [ItemOf(msgs[i])];
    }
  }

  // ---------------------------------------------------------------------
  // GetMessageList
  // ---------------------------------------------------------------------

  const PrivateDenied := "无权查看聊天记录"
  const PrivateBlockedByPeer := "已被对方拉黑，无法查看聊天记录"
  const PrivateBlockedPeer := "已拉黑对方，无法查看聊天记录"

  /** The private history between `one` and `two`, as `one` sees it through their friend row. */
  function MessageListSpec(one: string, two: string, page: int, pageSize: int, rel: Row,
                           repo: (int, int) -> Option<seq<Message>>): Result<seq<MessageItem>>
  {
    if one == [] || two == [] then Err(ErrParam)
    else if one == two then Err(Error(BadRequest, "不能查询与自己的私聊记录"))
    else
      match rel
      case Missing => Err(Error(Forbidden, PrivateDenied))
      case ReadError => Err(ErrServerError)
      case Found(status) =>
        if status == 2 then Err(Error(Forbidden, PrivateBlockedByPeer))
        else if status == 1 then Err(Error(Forbidden, PrivateBlockedPeer))
        else if status != 0 then Err(Error(Forbidden, PrivateDenied))
        else
          var (p, s) := Paging(page, pageSize);
          match repo(p, s)
          case None => Err(ErrServerError)
          case Some(msgs) => Ok(RevItems(msgs))
  }

  /**
   * The private history is served iff the two ids are distinct and non-empty,
   * the friend row exists with status 0 and the repository answers; it is then
   * that answer, oldest first, for the clamped page.
   */
  lemma MessageListServedIff(one: string, two: string, page: int, pageSize: int, rel: Row,
                             repo: (int, int) -> Option<seq<Message>>)
    ensures var r := MessageListSpec(one, two, page, pageSize, rel, repo);
      && (r.Ok? <==> one != [] && two != [] && one != two && rel == Found(0) && repo(Paging(page, pageSize).0, Paging(page, pageSize).1).Some?)
      && (r.Ok? ==> r.value == RevItems(repo(Paging(page, pageSize).0, Paging(page, pageSize).1).value))
  {
  }

  /** Either side's blocking is refused with its own message; ids are checked first. */
  lemma MessageListRefusals(one: string, two: string, page: int, pageSize: int, rel: Row,
                            repo: (int, int) -> Option<seq<Message>>)
    ensures one == [] || two == [] || one == two ==>
      MessageListSpec(one, two, page, pageSize, rel, repo).Err? &&
      MessageListSpec(one, two, page, pageSize, rel, repo).error.kind == BadRequest
    ensures one != [] && two != [] && one != two && rel == Found(2) ==>
      MessageListSpec(one, two, page, pageSize, rel, repo) == Err(Error(Forbidden, PrivateBlockedByPeer))
    ensures one != [] && two != [] && one != two && rel == Found(1) ==>
      MessageListSpec(one, two, page, pageSize, rel, repo) == Err(Error(Forbidden, PrivateBlockedPeer))
  {
  }

  method GetMessageList(one: string, two: string, page0: int, pageSize0: int, rel: Row,
                        repo: (int, int) -> Option<seq<Message>>)
    returns (r: Result<seq<MessageItem>>)
    ensures r == MessageListSpec(one, two, page0, pageSize0, rel, repo)
  {
    if one == [] || two == [] {
      return Err(ErrParam);
    }
    if one == two {
      return Err(Error(BadRequest, "不能查询与自己的私聊记录"));
    }
    var page, pageSize := ClampPaging(page0, pageSize0);
    match rel {
      case Missing =>
        return Err(Error(Forbidden, PrivateDenied));
      case ReadError =>
        return Err(ErrServerError);
      case Found(status) =>
        if status == 2 {
          return Err(Error(Forbidden, PrivateBlockedByPeer));
        }
        if status == 1 {
          return Err(Error(Forbidden, PrivateBlockedPeer));
        }
        if status != 0 {
          return Err(Error(Forbidden, PrivateDenied));
        }
    }
    var msgs := repo(page, pageSize);
    if msgs.None? {
      return Err(ErrServerError);
    }
    var out := ReverseItems(msgs.value);
    return Ok(out);
  }

  // ---------------------------------------------------------------------
  // GetGroupMessageList
  // ---------------------------------------------------------------------

  /** The group history, for a caller whose membership row has status 0. */
  function GroupMessageListSpec(gid: string, page: int, pageSize: int, rel: Row,
                                repo: (int, int) -> Option<seq<Message>>): Result<seq<MessageItem>>
  {
    if gid == [] then Err(ErrParam)
    else
      match rel
      case Missing => Err(Error(Forbidden, "非群成员，无权查看消息"))
      case ReadError => Err(ErrServerError)
      case Found(status) =>
        if status != 0 then Err(Error(Forbidden, "非正常群成员状态"))
        else
          var (p, s) := Paging(page, pageSize);
          match repo(p, s)
          case None => Err(ErrServerError)
          case Some(msgs) => Ok(RevItems(msgs))
  }

  /**
   * The group history is served iff a group id is given, the caller's
   * membership row has status 0 (a muted member, status 5, is refused) and the
   * repository answers.
   */
  lemma GroupMessageListServedIff(gid: string, page: int, pageSize: int, rel: Row,
                                  repo: (int, int) -> Option<seq<Message>>)
    ensures var r := GroupMessageListSpec(gid, page, pageSize, rel, repo);
      && (r.Ok? <==> gid != [] && rel == Found(0) && repo(Paging(page, pageSize).0, Paging(page, pageSize).1).Some?)
      && (r.Ok? ==> r.value == RevItems(repo(Paging(page, pageSize).0, Paging(page, pageSize).1).value))
  {
  }

  method GetGroupMessageList(gid: string, page0: int, pageSize0: int, rel: Row,
                             repo: (int, int) -> Option<seq<Message>>)
    returns (r: Result<seq<MessageItem>>)
    ensures r == GroupMessageListSpec(gid, page0, pageSize0, rel, repo)
  {
    if gid == [] {
      return Err(ErrParam);
    }
    match rel {
      case Missing =>
        return Err(Error(Forbidden, "非群成员，无权查看消息"));
      case ReadError =>
        return Err(ErrServerError);
      case Found(status) =>
        if status != 0 {
          return Err(Error(Forbidden, "非正常群成员状态"));
        }
    }
    var page, pageSize := ClampPaging(page0, pageSize0);
    var msgs := repo(page, pageSize);
    if msgs.None? {
      return Err(ErrServerError);
    }
    var out := ReverseItems(msgs.value);
    return Ok(out);
  }
}
