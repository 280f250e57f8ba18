/**
 * The MCP dispatcher (mcpDispatcherImpl): a tool call is checked, given its
 * timeout and the caller's tenant id, routed to the first running server
 * that knows the tool, and its result folded into a ToolCallResponse.
 *
 * The registry's server list is a parameter, in the order ListServers hands
 * it out (Go map order). A server's CallTool is a function of the tool name,
 * the arguments and the timeout in seconds.
 */
module McpDispatcher {
  import opened Common
  import opened GoStrings

  /** A tool argument: a string, or some other JSON value kept opaque. */
  datatype Arg = Str(s: string) | Opaque(tag: int)

  /** An argument or metadata map; Go's nil map reads as the empty one. */
  type Args = map<string, Arg>

  datatype Content = Content(kind: string, text: string)

  datatype CallToolResult = CallToolResult(content: seq<Content>, metadata: Args, isError: bool)

  datatype ToolCallResponse = ToolCallResponse(success: bool, content: string, metadata: Args, error: string)

  /** An error from a server: an MCPError with its code, or any other Go error with its text. */
  datatype McpErr = McpError(code: int, message: string) | OtherError(text: string)

  /** What a server's CallTool answers. */
  datatype CallAnswer = Returned(result: CallToolResult) | Failed(err: McpErr)

  datatype Server = Server(name: string, status: string, call: (string, Args, int) -> CallAnswer)

  /** What routing gives back: the first result, or the error that ended the search. */
  datatype Routed = Found(result: CallToolResult) | RouteErr(err: McpErr)

  /** What CallTool gives back: a Go error before any routing, or a response. */
  datatype CallOutcome = Rejected(msg: string) | Responded(response: ToolCallResponse)

  const ErrCodeToolNotFound := -32001
  const DefaultTimeoutSeconds := 30
  const TenantKey := "tenant_user_id"
  const TextKind := "text"
  const Running := "running"
  const NameRequired := "tool name is required"

  /** MCPError.Error(), and the text of any other error. */
  function ErrorText(e: McpErr): string
  {
    match e
    case McpError(code, message) => "MCP Error [" + FormatInt(code) + "]: " + message
    case OtherError(text) => text
  }

  /** The error routing ends with when no running server has the tool. */
  function NotFoundError(tool: string): McpErr
  {
    McpError(ErrCodeToolNotFound, "tool '" + tool + "' not found in any server")
  }

  // ---------------------------------------------------------------------
  // Timeouts
  // ---------------------------------------------------------------------

  /** The dispatcher's fixed settings; the registry is passed to each call instead. */
  datatype Dispatcher = Dispatcher(defaultTimeout: int)

  /** NewMCPDispatcher: a positive configured timeout, else 30 seconds. */
  function NewDispatcher(defaultTimeoutSeconds: int): (d: Dispatcher)
    ensures d.defaultTimeout > 0
    ensures defaultTimeoutSeconds > 0 ==> d.defaultTimeout == defaultTimeoutSeconds
    ensures defaultTimeoutSeconds <= 0 ==> d.defaultTimeout == DefaultTimeoutSeconds
  {
    Dispatcher(if defaultTimeoutSeconds > 0 then defaultTimeoutSeconds else DefaultTimeoutSeconds)
  }

  /** The timeout of one call: the request's when positive, else the dispatcher's. */
  function CallTimeout(d: Dispatcher, requested: int): int
  {
    if requested > 0 then requested else d.defaultTimeout
  }

  /**
   * A call through a dispatcher built by NewMCPDispatcher always has a
   * positive timeout: the request's when it gives one, else the configured
   * default, else 30 seconds.
   */
  lemma CallTimeoutPositive(configured: int, requested: int)
    ensures var t := CallTimeout(NewDispatcher(configured), requested);
      && t > 0
      && (requested > 0 ==> t == requested)
      && (requested <= 0 && configured > 0 ==> t == configured)
      && (requested <= 0 && configured <= 0 ==> t == DefaultTimeoutSeconds)
  {
  }

  // ---------------------------------------------------------------------
  // The tenant argument
  // ---------------------------------------------------------------------

  /** The arguments after CallTool's step 3: a nil map becomes empty, and the tenant goes in unless present. */
  function InjectTenant(args: Option<Args>, tenant: string): (r: Args)
    ensures TenantKey in r
    ensures args.Some? && TenantKey in args.value ==> r[TenantKey] == args.value[TenantKey]
    ensures args.None? || TenantKey !in args.value ==> r[TenantKey] == Str(tenant)
    ensures forall k :: k != TenantKey ==> (k in r <==> args.Some? && k in args.value)
    ensures forall k :: k != TenantKey && k in r ==> r[k] == args.value[k]
  {
    var m := if args.Some? then args.value else map[];
    if TenantKey in m then m else m[TenantKey := Str(tenant)]
  }

  /** A caller-supplied tenant_user_id is never overwritten: injecting again changes nothing. */
  lemma InjectTenantIdempotent(args: Option<Args>, tenant: string, tenant': string)
    ensures InjectTenant(Some(InjectTenant(args, tenant)), tenant') == InjectTenant(args, tenant)
  {
  }

  // ---------------------------------------------------------------------
  // Routing
  // ---------------------------------------------------------------------

  /** A server routing passes over: one not running, or one that does not know the tool. */
  predicate PassesOver(s: Server, tool: string, args: Args, timeout: int)
  {
    s.status != Running ||
    (s.call(tool, args, timeout).Failed? && s.call(tool, args, timeout).err.McpError?
     && s.call(tool, args, timeout).err.code == ErrCodeToolNotFound)
  }

  /** routeAndCallTool over the listed servers. */
  function Route(servers: seq<Server>, tool: string, args: Args, timeout: int): Routed
  {
    if servers == [] then RouteErr(NotFoundError(tool))
    else if servers[0].status != Running then Route(servers[1..], tool, args, timeout)
    else
      match servers[0].call(tool, args, timeout)
      case Returned(res) => Found(res)
      case Failed(e) =>
        if e.McpError? && e.code == ErrCodeToolNotFound then Route(servers[1..], tool, args, timeout)
        else RouteErr(e)
  }

  /** Routing goes past every server it passes over. */
  lemma {:induction false} RouteSkips(servers: seq<Server>, tool: string, args: Args, timeout: int, i: int)
    requires 0 <= i <= |servers|
    requires forall j :: 0 <= j < i ==> PassesOver(servers[j], tool, args, timeout)
    ensures Route(servers, tool, args, timeout) == Route(servers[i..], tool, args, timeout)
  {
    if i > 0 {
      assert servers[1..][i - 1..] == servers[i..];
      RouteSkips(servers[1..], tool, args, timeout, i - 1);
    }
  }

  /**
   * The first server routing does not pass over decides: its result is the
   * answer, and so is its error, whatever the servers after it would say.
   */
  lemma RouteStopsAt(servers: seq<Server>, tool: string, args: Args, timeout: int, i: int)
    requires 0 <= i < |servers|
    requires forall j :: 0 <= j < i ==> PassesOver(servers[j], tool, args, timeout)
    requires !PassesOver(servers[i], tool, args, timeout)
    ensures var a := servers[i].call(tool, args, timeout);
      Route(servers, tool, args, timeout) == (if a.Returned? then Found(a.result) else RouteErr(a.err))
  {
    RouteSkips(servers, tool, args, timeout, i);
  }

  /** When routing passes over every server, the answer is the not-found error naming the tool. */
  lemma RouteNotFound(servers: seq<Server>, tool: string, args: Args, timeout: int)
    requires forall j :: 0 <= j < |servers| ==> PassesOver(servers[j], tool, args, timeout)
    ensures Route(servers, tool, args, timeout) == RouteErr(NotFoundError(tool))
  {
    RouteSkips(servers, tool, args, timeout, |servers|);
  }

  /** The running servers of the list, in order. */
  function RunningOnly(servers: seq<Server>): (r: seq<Server>)
    ensures forall s :: s in r <==> s in servers && s.status == Running
  {
    if servers == [] then []
    else (if servers[0].status == Running then [servers[0]] else []) + RunningOnly(servers[1..])
  }

  /** A server that is not running is never called: routing over the running ones only gives the same answer. */
  lemma {:induction false} RouteIgnoresStopped(servers: seq<Server>, tool: string, args: Args, timeout: int)
    ensures Route(RunningOnly(servers), tool, args, timeout) == Route(servers, tool, args, timeout)
  {
    if servers != [] {
      var rest := RunningOnly(servers[1..]);
      RouteIgnoresStopped(servers[1..], tool, args, timeout);
      if servers[0].status == Running {
        var r := RunningOnly(servers);
        assert r == [servers[0]] + rest;
        assert r != [] && r[0] == servers[0] && r[1..] == rest;
      } else {
        assert RunningOnly(servers) == [] + rest == rest;
      }
    }
  }

  /** The routing loop. */
  method RouteAndCallTool(servers: seq<Server>, tool: string, args: Args, timeout: int) returns (r: Routed)
    ensures r == Route(servers, tool, args, timeout)
  {
    for i := 0 to |servers|
      invariant Route(servers, tool, args, timeout) == Route(servers[i..], tool, args, timeout)
    {
      var srv := servers[i];
      assert servers[i..][0] == srv && servers[i..][1..] == servers[i + 1..];
      if srv.status != Running {
        continue;
      }
      var answer := srv.call(tool, args, timeout);
      if answer.Failed? {
        if answer.err.McpError? && answer.err.code == ErrCodeToolNotFound {
          continue;
        }
        return RouteErr(answer.err);
      }
      return Found(answer.result);
    }
    assert servers[|servers|..] == [];
    r := RouteErr(NotFoundError(tool));
  }

  // ---------------------------------------------------------------------
  // Folding results
  // ---------------------------------------------------------------------

  /** The texts of the "text" entries, concatenated in order. */
  function TextOf(contents: seq<Content>): string
  {
    if contents == [] then []
    else (if contents[0].kind == TextKind then contents[0].text else []) + TextOf(contents[1..])
  }

  /** The text of two runs of entries is the text of the first followed by that of the second. */
  lemma {:induction false} TextOfAppend(a: seq<Content>, b: seq<Content>)
    ensures TextOf(a + b) == TextOf(a) + TextOf(b)
  {
    if a == [] {
      assert a + b == b;
    } else {
      assert (a + b)[1..] == a[1..] + b;
      TextOfAppend(a[1..], b);
    }
  }

  /** Entries of another type (image, resource) contribute nothing. */
  lemma {:induction false} TextOfSkipsOthers(contents: seq<Content>)
    requires forall i :: 0 <= i < |contents| ==> contents[i].kind != TextKind
    ensures TextOf(contents) == []
  {
    if contents != [] {
      TextOfSkipsOthers(contents[1..]);
    }
  }

  /** The text is no longer than all the entries' texts together. */
  function TextTotal(contents: seq<Content>): nat
  {
    if contents == [] then 0 else |contents[0].text| + TextTotal(contents[1..])
  }

  lemma {:induction false} TextOfBounded(contents: seq<Content>)
    ensures |TextOf(contents)| <= TextTotal(contents)
  {
    if contents != [] {
      TextOfBounded(contents[1..]);
    }
  }

  /** extractTextContent: the accumulating loop. */
  method ExtractTextContent(contents: seq<Content>) returns (text: string)
    ensures text == TextOf(contents)
  {
    if |contents| == 0 {
      return "";
    }
    text := "";
    for i := 0 to |contents|
      invariant text + TextOf(contents[i..]) == TextOf(contents)
    {
      assert contents[i..][0] == contents[i] && contents[i..][1..] == contents[i + 1..];
      if contents[i].kind == TextKind {
        text := text + contents[i].text;
      }
    }
    assert contents[|contents|..] == [];
  }

  /**
   * convertToResponse: an error result is a failure whose error is the
   * result's text and whose content is empty; any other result succeeds with
   * that text as content and no error. The metadata is passed on either way.
   */
  function ConvertToResponse(result: CallToolResult): (r: ToolCallResponse)
    ensures r.success <==> !result.isError
    ensures r.metadata == result.metadata
    ensures r.success ==> r.content == TextOf(result.content) && r.error == []
    ensures !r.success ==> r.content == [] && r.error == TextOf(result.content)
  {
    if result.isError then ToolCallResponse(false, "", result.metadata, TextOf(result.content))
    else ToolCallResponse(true, TextOf(result.content), result.metadata, "")
  }

  // ---------------------------------------------------------------------
  // CallTool
  // ---------------------------------------------------------------------

  /** CallTool on a request's fields, given the registry's servers. */
  function CallToolSpec(d: Dispatcher, tenant: string, tool: string, args: Option<Args>, requested: int,
                        servers: seq<Server>): CallOutcome
  {
    if tool == [] then Rejected(NameRequired)
    else
      match Route(servers, tool, InjectTenant(args, tenant), CallTimeout(d, requested))
      case RouteErr(e) => Responded(ToolCallResponse(false, "", map[], ErrorText(e)))
      case Found(res) => Responded(ConvertToResponse(res))
  }

  /**
   * CallTool is rejected iff the tool name is empty. Otherwise the response
   * fails iff routing ends in an error or the server reports one, a failed
   * response has no content, and a successful one has no error.
   */
  lemma CallToolAnswers(d: Dispatcher, tenant: string, tool: string, args: Option<Args>, requested: int,
                        servers: seq<Server>)
    ensures var o := CallToolSpec(d, tenant, tool, args, requested, servers);
      var routed := Route(servers, tool, InjectTenant(args, tenant), CallTimeout(d, requested));
      && (o.Rejected? <==> tool == [])
      && (o.Responded? ==> (o.response.success <==> routed.Found? && !routed.result.isError))
      && (o.Responded? && !o.response.success ==> o.response.content == [])
      && (o.Responded? && o.response.success ==> o.response.error == [])
      && (o.Responded? && routed.RouteErr? ==> o.response.error == ErrorText(routed.err))
  {
  }

  /**
   * A named tool that no running server knows, under the injected arguments
   * and the call's timeout, is answered with a failed response carrying the
   * not-found error, not with a Go error.
   */
  lemma CallToolNotFound(d: Dispatcher, tenant: string, tool: string, args: Option<Args>, requested: int,
                         servers: seq<Server>)
    requires tool != []
    requires forall j :: 0 <= j < |servers| ==>
      PassesOver(servers[j], tool, InjectTenant(args, tenant), CallTimeout(d, requested))
    ensures CallToolSpec(d, tenant, tool, args, requested, servers)
         == Responded(ToolCallResponse(false, "", map[], ErrorText(NotFoundError(tool))))
  {
    RouteNotFound(servers, tool, InjectTenant(args, tenant), CallTimeout(d, requested));
  }

  /** A tool call request; CallTool writes the injected arguments back into it. */
  class ToolCallRequest {
    var tenantUserId: string
    var toolName: string
    var arguments: Option<Args>
    var timeout: int

    constructor(tenantUserId: string, toolName: string, arguments: Option<Args>, timeout: int)
      ensures this.tenantUserId == tenantUserId && this.toolName == toolName
      ensures this.arguments == arguments && this.timeout == timeout
    {
      this.tenantUserId := tenantUserId;
      this.toolName := toolName;
      this.arguments := arguments;
      this.timeout := timeout;
    }
  }

  /**
   * CallTool: an empty tool name is refused and leaves the request alone;
   * otherwise the request's arguments become the injected ones, and the
   * answer is CallToolSpec's.
   */
  method CallTool(d: Dispatcher, req: ToolCallRequest, servers: seq<Server>) returns (out: CallOutcome)
    modifies req
    ensures out == CallToolSpec(d, old(req.tenantUserId), old(req.toolName), old(req.arguments), old(req.timeout), servers)
    ensures req.tenantUserId == old(req.tenantUserId) && req.toolName == old(req.toolName) && req.timeout == old(req.timeout)
    ensures req.arguments == (if old(req.toolName) == [] then old(req.arguments)
                              else Some(InjectTenant(old(req.arguments), old(req.tenantUserId))))
  {
    if req.toolName == [] {
      return Rejected(NameRequired);
    }
    var timeout := d.defaultTimeout;
    if req.timeout > 0 {
      timeout := req.timeout;
    }
    if req.arguments.None? {
      req.arguments := Some(map[]);
    }
    if TenantKey !in req.arguments.value {
      req.arguments := Some(req.arguments.value[TenantKey := Str(req.tenantUserId)]);
    }
    var routed := RouteAndCallTool(servers, req.toolName, req.arguments.value, timeout);
    if routed.RouteErr? {
      return Responded(ToolCallResponse(false, "", map[], ErrorText(routed.err)));
    }
    out := Responded(ConvertToResponse(routed.result));
  }
}
