/**
 * The smart-command pipeline: a natural-language command goes through
 * intent recognition, structured parameter extraction and a single call of
 * the manage_ai_job tool. The chat model, JSON decoding and encoding and the
 * tools' own runs are parameters; the pipeline's own logic (JSON span
 * extraction, trimming, defaults, tool filtering and dispatch, the error
 * results) is modelled exactly.
 */
module SmartCommand {
  import opened Common
  import opened GoStrings

  datatype SmartCommandRequest = SmartCommandRequest(tenantUserId: string, command: string, agentId: string)

  datatype SmartCommandParams = SmartCommandParams(
    action: string, triggerType: string, triggerValue: string, prompt: string, agentId: string)

  const NoParams: SmartCommandParams := SmartCommandParams("", "", "", "", "")

  /** The in-band result: the pipeline reports step failures in `err` rather than as a Go error. */
  datatype SmartCommandResult = SmartCommandResult(
    intent: string, params: SmartCommandParams, toolName: string, toolResult: string, err: Option<Error>)

  datatype IntentResult = IntentResult(intent: string, triggerType: string)

  /**
   * A tool as the pipeline sees it: `id` tells tools apart, `info` is the name
   * its Info call reports (None when Info fails or returns nil), and
   * `invokable` says whether it implements InvokableRun.
   */
  datatype Tool = Tool(id: nat, info: Option<string>, invokable: bool)

  /** The first tool call of a model reply: a function name and its JSON arguments. */
  datatype ToolCallReq = ToolCallReq(name: string, arguments: string)

  /**
   * The chat model, as the answer it gives to each of the pipeline's three
   * prompts for a given user message (the trimmed command, or the
   * arguments' JSON for the dispatch prompt).
   */
  datatype Model = Model(
    intentReply: string -> Result<string>,
    paramsReply: string -> Result<string>,
    toolReply: string -> Result<seq<ToolCallReq>>)

  /** json.Unmarshal into the two reply shapes, json.Marshal of the argument map, and InvokableRun. */
  datatype Env = Env(
    decodeIntent: string -> Result<IntentResult>,
    decodeParams: string -> Result<SmartCommandParams>,
    encodeArgs: map<string, string> -> string,
    run: (Tool, string) -> Result<string>)

  const CreateJobIntent := "create_job"
  const ManageJobTool := "manage_ai_job"
  const DefaultAction := "create"

  predicate IsTrimmed(s: string) { TrimSpace(s) == s }

  // ---------------------------------------------------------------------
  // JSON span extraction

  /** extractJSONObject: the span from the first '{' to the last '}', or "" when there is none. */
  function ExtractJSONObject(content: string): (r: string)
    ensures r != [] ==> |r| >= 2 && r[0] == '{' && r[|r| - 1] == '}'
  {
    var start := IndexOfChar(content, '{');
    var end := LastIndexOfChar(content, '}');
    if start < 0 || end < 0 || end <= start then [] else content[start..end + 1]
  }

  /** Some '{' is followed, somewhere later, by a '}'. */
  predicate HasBracePair(content: string)
  {
    exists i, j :: 0 <= i < j < |content| && content[i] == '{' && content[j] == '}'
  }

  /** The span is empty exactly when no '{' has a '}' after it. */
  lemma {:induction false} ExtractEmptyIff(content: string)
    ensures ExtractJSONObject(content) == [] <==> !HasBracePair(content)
  {
    var start := IndexOfChar(content, '{');
    var end := LastIndexOfChar(content, '}');
    if HasBracePair(content) {
      var i, j :| 0 <= i < j < |content| && content[i] == '{' && content[j] == '}';
      assert 0 <= start <= i;
      assert j <= end;
    }
  }

  /** Any text with no '{' before the body and no '}' after it yields exactly the body. */
  lemma {:induction false} ExtractFindsBody(pre: string, body: string, post: string)
    requires '{' !in pre && '}' !in post
    requires |body| >= 1 && body[0] == '{' && body[|body| - 1] == '}'
    ensures ExtractJSONObject(pre + body + post) == body
  {
    var content := pre + body + post;
    assert content[|pre|] == '{';
    assert content[|pre| + |body| - 1] == '}';
    var start := IndexOfChar(content, '{');
    var end := LastIndexOfChar(content, '}');
    assert start == |pre| && end == |pre| + |body| - 1;
    assert content[start..end + 1] == body;
  }

  /** `start` is the first '{' of `content` and `end`, after it, the last '}'. */
  predicate OutermostBraces(content: string, start: int, end: int)
  {
    0 <= start < end < |content| && content[start] == '{' && content[end] == '}'
    && (forall k :: 0 <= k < start ==> content[k] != '{')
    && (forall k :: end < k < |content| ==> content[k] != '}')
  }

  /**
   * Conversely, a non-empty span runs from the first '{' to the last '}':
   * nothing before it opens, nothing after it closes.
   */
  lemma {:induction false} ExtractIsOutermost(content: string)
    requires ExtractJSONObject(content) != []
    ensures exists start, end :: OutermostBraces(content, start, end)
                                 && ExtractJSONObject(content) == content[start..end + 1]
  {
    var start := IndexOfChar(content, '{');
    var end := LastIndexOfChar(content, '}');
    assert OutermostBraces(content, start, end);
    assert ExtractJSONObject(content) == content[start..end + 1];
  }

  /** parseJSONFromContent: decode the extracted span, failing with "json not found" when there is none. */
  function ParseJSONFromContent<T>(content: string, decode: string -> Result<T>): (r: Result<T>)
    ensures !HasBracePair(content) ==> r == Err(PlainErr("json not found"))
  {
    ExtractEmptyIff(content);
    var raw := ExtractJSONObject(content);
    if raw == [] then Err(PlainErr("json not found")) else decode(raw)
  }

  // ---------------------------------------------------------------------
  // The two model steps

  /** recognizeIntent: ask the model, decode, trim; an empty intent is a parse failure. */
  function RecognizeIntent(command: string, model: Model, env: Env): (r: Result<IntentResult>)
    ensures r.Ok? ==> r.value.intent != [] && IsTrimmed(r.value.intent) && IsTrimmed(r.value.triggerType)
  {
    match model.intentReply(command)
    case Err(e) => Err(e)
    case Ok(content) =>
      match ParseJSONFromContent(content, env.decodeIntent)
      case Err(e) => Err(e)
      case Ok(out) =>
        TrimSpaceIdempotent(out.intent);
        TrimSpaceIdempotent(out.triggerType);
        var intent := TrimSpace(out.intent);
        if intent == [] then Err(PlainErr("intent parse failed"))
        else Ok(IntentResult(intent, TrimSpace(out.triggerType)))
  }

  predicate ParamsTrimmed(p: SmartCommandParams)
  {
    IsTrimmed(p.action) && IsTrimmed(p.triggerType) && IsTrimmed(p.triggerValue)
    && IsTrimmed(p.prompt) && IsTrimmed(p.agentId)
  }

  /** extractParams: ask the model, decode, and trim every field. */
  function ExtractParams(command: string, model: Model, env: Env): (r: Result<SmartCommandParams>)
    ensures r.Ok? ==> ParamsTrimmed(r.value)
  {
    match model.paramsReply(command)
    case Err(e) => Err(e)
    case Ok(content) =>
      match ParseJSONFromContent(content, env.decodeParams)
      case Err(e) => Err(e)
      case Ok(out) =>
        TrimSpaceIdempotent(out.action);
        TrimSpaceIdempotent(out.triggerType);
        TrimSpaceIdempotent(out.triggerValue);
        TrimSpaceIdempotent(out.prompt);
        TrimSpaceIdempotent(out.agentId);
        Ok(SmartCommandParams(TrimSpace(out.action), TrimSpace(out.triggerType),
                              TrimSpace(out.triggerValue), TrimSpace(out.prompt), TrimSpace(out.agentId)))
  }

  /** Execute's defaults: a blank action becomes "create", a blank agent id the request's trimmed one. */
  function WithDefaults(p: SmartCommandParams, requestAgentId: string): (r: SmartCommandParams)
    ensures !IsBlank(r.action)
    ensures !IsBlank(p.action) ==> r.action == p.action
    ensures IsBlank(p.agentId) ==> r.agentId == TrimSpace(requestAgentId)
    ensures !IsBlank(p.agentId) ==> r.agentId == p.agentId
    ensures (r.triggerType, r.triggerValue, r.prompt) == (p.triggerType, p.triggerValue, p.prompt)
  {
    var action := if IsBlank(p.action) then DefaultAction else p.action;
    var agentId := if IsBlank(p.agentId) then TrimSpace(requestAgentId) else p.agentId;
    p.(action := action, agentId := agentId)
  }

  predicate ParamsComplete(p: SmartCommandParams)
  {
    !IsBlank(p.triggerType) && !IsBlank(p.triggerValue) && !IsBlank(p.prompt)
  }

  // ---------------------------------------------------------------------
  // Tool filtering and dispatch

  /** The tools whose Info reports `name`, in their original order. */
  function Named(tools: seq<Tool>, name: string): seq<Tool>
  {
    if tools == [] then []
    else
      var last := tools[|tools| - 1];
      Named(tools[..|tools| - 1], name) + (if last.info == Some(name) then [last] else [])
  }

  /** filterTools keeps exactly the tools whose name matches. */
  lemma {:induction false} NamedKeepsExactly(tools: seq<Tool>, name: string)
    ensures forall t :: t in Named(tools, name) <==> t in tools && t.info == Some(name)
  {
    if tools != [] {
      var init := tools[..|tools| - 1];
      NamedKeepsExactly(init, name);
      assert tools == init + [tools[|tools| - 1]];
    }
  }

  /** filterTools: the matching tools and, beside each, the info it reported. */
  method FilterTools(tools: seq<Tool>, name: string) returns (picked: seq<Tool>, infos: seq<string>)
    ensures picked == Named(tools, name)
    ensures |infos| == |picked| && forall k :: 0 <= k < |infos| ==> infos[k] == name
  {
    picked, infos := [], [];
    for i := 0 to |tools|
      invariant picked == Named(tools[..i], name)
      invariant |infos| == |picked| && forall k :: 0 <= k < |infos| ==> infos[k] == name
    {
      assert tools[..i + 1][..i] == tools[..i];
      var t := tools[i];
      if t.info.Some? && t.info.value == name {
        picked := picked + [t];
        infos := infos + [t.info.value];
      }
    }
    assert tools[..|tools|] == tools;
  }

  /** The index of the first tool whose Info reports `name`. */
  function FirstNamed(tools: seq<Tool>, name: string): (r: Option<nat>)
    ensures r.Some? ==> r.value < |tools| && tools[r.value].info == Some(name)
                        && forall j :: 0 <= j < r.value ==> tools[j].info != Some(name)
    ensures r.None? <==> forall j :: 0 <= j < |tools| ==> tools[j].info != Some(name)
  {
    if tools == [] then None
    else if tools[0].info == Some(name) then Some(0)
    else
      match FirstNamed(tools[1..], name)
      case None => None
      case Some(k) => Some(k + 1)
  }

  /** invokeTool's outcome: run the first tool with that name, if it can be run. */
  function InvokeSpec(tools: seq<Tool>, name: string, args: string, env: Env): Result<string>
  {
    match FirstNamed(tools, name)
    case None => Err(PlainErr("tool not found"))
    case Some(i) =>
      if tools[i].invokable then env.run(tools[i], args) else Err(PlainErr("tool is not invokable"))
  }

  /** invokeTool: the first tool named `name` decides; later ones are never tried. */
  method InvokeTool(tools: seq<Tool>, name: string, args: string, env: Env) returns (r: Result<string>)
    ensures r == InvokeSpec(tools, name, args, env)
  {
    for i := 0 to |tools|
      invariant forall j :: 0 <= j < i ==> tools[j].info != Some(name)
    {
      var t := tools[i];
      if t.info.Some? && t.info.value == name {
        if t.invokable {
          r := env.run(t, args);
        } else {
          r := Err(PlainErr("tool is not invokable"));
        }
        return;
      }
    }
    r := Err(PlainErr("tool not found"));
  }

  /** The arguments callManageJob sends: the four job fields, and agent_id only when it is set. */
  function ArgsOf(p: SmartCommandParams): (r: map<string, string>)
    ensures r.Keys == {"action", "trigger_type", "trigger_value", "prompt"}
                      + (if p.agentId != [] then {"agent_id"} else {})
    ensures r["action"] == p.action && r["trigger_type"] == p.triggerType
    ensures r["trigger_value"] == p.triggerValue && r["prompt"] == p.prompt
    ensures "agent_id" in r ==> r["agent_id"] == p.agentId
  {
    var base := map["action" := p.action, "trigger_type" := p.triggerType,
                    "trigger_value" := p.triggerValue, "prompt" := p.prompt];
    if p.agentId != [] then base["agent_id" := p.agentId] else base
  }

  /** What callManageJob returns: the tool name it used, the tool's output, and an error. */
  datatype CallOutcome = CallOutcome(toolName: string, toolResult: string, err: Option<Error>)

  /** The tool name and arguments taken from the model's first tool call, with their fallbacks. */
  function CallName(call: ToolCallReq): string
  {
    if TrimSpace(call.name) == [] then ManageJobTool else TrimSpace(call.name)
  }

  function CallArgs(call: ToolCallReq, argsJson: string): string
  {
    if TrimSpace(call.arguments) == [] then argsJson else TrimSpace(call.arguments)
  }

  /** callManageJob over the tool list, the model and the environment. */
  function CallManageJobSpec(tools: seq<Tool>, p: SmartCommandParams, model: Model, env: Env): CallOutcome
  {
    if |tools| == 0 then CallOutcome("", "", Some(PlainErr("tools not initialized")))
    else
      var picked := Named(tools, ManageJobTool);
      if |picked| == 0 then CallOutcome("", "", Some(PlainErr("manage_ai_job tool not available")))
      else
        var argsJson := env.encodeArgs(ArgsOf(p));
        match model.toolReply(argsJson)
        case Err(e) => CallOutcome("", "", Some(e))
        case Ok(calls) =>
          if |calls| == 0 then CallOutcome("", "", Some(PlainErr("no tool call generated")))
          else
            var name := CallName(calls[0]);
            match InvokeSpec(picked, name, CallArgs(calls[0], argsJson), env)
            case Err(e) => CallOutcome(name, "", Some(e))
            case Ok(out) => CallOutcome(name, out, None)
  }

  /** The fallbacks: a blank tool name means manage_ai_job, blank arguments mean the pipeline's own. */
  lemma {:induction false} CallNameFallback(call: ToolCallReq)
    ensures IsBlank(call.name) ==> CallName(call) == ManageJobTool
    ensures !IsBlank(call.name) ==> CallName(call) == TrimSpace(call.name) && IsTrimmed(CallName(call))
  {
    if !IsBlank(call.name) {
      TrimSpaceIdempotent(call.name);
    }
  }

  lemma {:induction false} CallArgsFallback(call: ToolCallReq, argsJson: string)
    ensures IsBlank(call.arguments) ==> CallArgs(call, argsJson) == argsJson
    ensures !IsBlank(call.arguments) ==> CallArgs(call, argsJson) == TrimSpace(call.arguments)
                                         && IsTrimmed(CallArgs(call, argsJson))
  {
    if !IsBlank(call.arguments) {
      TrimSpaceIdempotent(call.arguments);
    }
  }

  /**
   * Only manage_ai_job is ever run: a call that succeeds used that name and
   * ran an invokable tool, listed among the pipeline's tools, that reports it.
   */
  lemma OnlyManageJobRuns(tools: seq<Tool>, p: SmartCommandParams, model: Model, env: Env)
    requires CallManageJobSpec(tools, p, model, env).err.None?
    ensures CallManageJobSpec(tools, p, model, env).toolName == ManageJobTool
    ensures exists t :: t in tools && t.info == Some(ManageJobTool) && t.invokable
  {
    var picked := Named(tools, ManageJobTool);
    NamedKeepsExactly(tools, ManageJobTool);
    var argsJson := env.encodeArgs(ArgsOf(p));
    var calls := model.toolReply(argsJson).value;
    var name := CallName(calls[0]);
    var i := FirstNamed(picked, name).value;
    assert picked[i] in picked;
  }

  /** A tool call that names another tool is refused with "tool not found". */
  lemma OtherToolNotFound(tools: seq<Tool>, p: SmartCommandParams, model: Model, env: Env)
    requires |tools| > 0 && |Named(tools, ManageJobTool)| > 0
    requires model.toolReply(env.encodeArgs(ArgsOf(p))).Ok?
    requires |model.toolReply(env.encodeArgs(ArgsOf(p))).value| > 0
    requires CallName(model.toolReply(env.encodeArgs(ArgsOf(p))).value[0]) != ManageJobTool
    ensures CallManageJobSpec(tools, p, model, env).err == Some(PlainErr("tool not found"))
  {
    var picked := Named(tools, ManageJobTool);
    NamedKeepsExactly(tools, ManageJobTool);
    var name := CallName(model.toolReply(env.encodeArgs(ArgsOf(p))).value[0]);
    forall j | 0 <= j < |picked| ensures picked[j].info != Some(name) {
      assert picked[j] in picked;
    }
  }

  // ---------------------------------------------------------------------
  // Execute

  function Failed(intent: string, params: SmartCommandParams, e: Error): SmartCommandResult
  {
    SmartCommandResult(intent, params, "", "", Some(e))
  }

  /** The last step of Execute: refuse incomplete parameters, else call manage_ai_job. */
  function DispatchSpec(tools: seq<Tool>, intent: string, p: SmartCommandParams, model: Model, env: Env): SmartCommandResult
  {
    if !ParamsComplete(p) then Failed(intent, NoParams, PlainErr("invalid command parameters"))
    else
      var o := CallManageJobSpec(tools, p, model, env);
      if o.err.Some? then Failed(intent, p, o.err.value)
      else SmartCommandResult(intent, p, o.toolName, o.toolResult, None)
  }

  /** Execute after a create_job intent: extract the parameters, apply the defaults, dispatch. */
  function ParamsStepSpec(tools: seq<Tool>, intent: string, command: string, requestAgentId: string,
                          model: Model, env: Env): SmartCommandResult
  {
    match ExtractParams(command, model, env)
    case Err(e) => Failed(intent, NoParams, e)
    case Ok(p0) => DispatchSpec(tools, intent, WithDefaults(p0, requestAgentId), model, env)
  }

  /** Execute from the first model step on, for a trimmed non-empty command. */
  function RunSpec(tools: seq<Tool>, command: string, requestAgentId: string, model: Model, env: Env): SmartCommandResult
  {
    match RecognizeIntent(command, model, env)
    case Err(e) => Failed("", NoParams, e)
    case Ok(ir) =>
      if ir.intent != CreateJobIntent then Failed(ir.intent, NoParams, PlainErr("not a scheduling command"))
      else ParamsStepSpec(tools, ir.intent, command, requestAgentId, model, env)
  }

  /** Execute: the Go error return for a missing request, command or tenant, else an in-band result. */
  function ExecuteSpec(tools: seq<Tool>, req: Option<SmartCommandRequest>, model: Model, env: Env): Result<SmartCommandResult>
  {
    if req.None? then Err(PlainErr("request is nil"))
    else
      var command := TrimSpace(req.value.command);
      if command == [] then Err(PlainErr("command is required"))
      else if IsBlank(req.value.tenantUserId) then Err(PlainErr("tenant_user_id is required"))
      else Ok(RunSpec(tools, command, req.value.agentId, model, env))
  }

  /** Execute fails outright exactly for a nil request, a blank command or a blank tenant. */
  lemma ExecuteRejectsIff(tools: seq<Tool>, req: Option<SmartCommandRequest>, model: Model, env: Env)
    ensures ExecuteSpec(tools, req, model, env).Err?
            <==> req.None? || IsBlank(req.value.command) || IsBlank(req.value.tenantUserId)
  {
  }

  /** Any intent other than create_job stops the pipeline with "not a scheduling command". */
  lemma OtherIntentStops(tools: seq<Tool>, command: string, agentId: string, model: Model, env: Env)
    requires RecognizeIntent(command, model, env).Ok?
    requires RecognizeIntent(command, model, env).value.intent != CreateJobIntent
    ensures RunSpec(tools, command, agentId, model, env)
            == Failed(RecognizeIntent(command, model, env).value.intent, NoParams, PlainErr("not a scheduling command"))
  {
  }

  /** Blank trigger fields or prompt are refused before any tool is looked at. */
  lemma IncompleteParamsRefused(tools: seq<Tool>, intent: string, p: SmartCommandParams, model: Model, env: Env)
    requires !ParamsComplete(p)
    ensures DispatchSpec(tools, intent, p, model, env) == Failed(intent, NoParams, PlainErr("invalid command parameters"))
  {
  }

  /** A dispatch without error had complete parameters and ran manage_ai_job. */
  lemma DispatchSucceeded(tools: seq<Tool>, intent: string, p: SmartCommandParams, model: Model, env: Env)
    requires DispatchSpec(tools, intent, p, model, env).err.None?
    ensures var r := DispatchSpec(tools, intent, p, model, env);
            r.intent == intent && r.params == p && ParamsComplete(p) && r.toolName == ManageJobTool
  {
    OnlyManageJobRuns(tools, p, model, env);
  }

  /**
   * A result without error comes from a create_job intent, carries complete
   * parameters with the defaults applied, and names the manage_ai_job tool.
   */
  lemma SuccessfulRun(tools: seq<Tool>, command: string, agentId: string, model: Model, env: Env)
    requires RunSpec(tools, command, agentId, model, env).err.None?
    ensures var r := RunSpec(tools, command, agentId, model, env);
            && r.intent == CreateJobIntent
            && ParamsComplete(r.params) && !IsBlank(r.params.action)
            && r.params == WithDefaults(ExtractParams(command, model, env).value, agentId)
            && r.toolName == ManageJobTool
  {
    var ir := RecognizeIntent(command, model, env).value;
    var p := WithDefaults(ExtractParams(command, model, env).value, agentId);
    DispatchSucceeded(tools, ir.intent, p, model, env);
  }

  /** SmartCommandPipeline: the chat model is a parameter of Execute; the tool list can be replaced. */
  class SmartCommandPipeline {
    var tools: seq<Tool>

    constructor(tools: seq<Tool>)
      ensures this.tools == tools
    {
      this.tools := tools;
    }

    method SetTools(tools: seq<Tool>)
      modifies this
      ensures this.tools == tools
    {
      this.tools := tools;
    }

    method CallManageJob(p: SmartCommandParams, model: Model, env: Env) returns (o: CallOutcome)
      ensures o == CallManageJobSpec(tools, p, model, env)
    {
      if |tools| == 0 {
        return CallOutcome("", "", Some(PlainErr("tools not initialized")));
      }
      var picked, infos := FilterTools(tools, ManageJobTool);
      if |picked| == 0 {
        return CallOutcome("", "", Some(PlainErr("manage_ai_job tool not available")));
      }
      var argsJson := env.encodeArgs(ArgsOf(p));
      var reply := model.toolReply(argsJson);
      if reply.Err? {
        return CallOutcome("", "", Some(reply.error));
      }
      if |reply.value| == 0 {
        return CallOutcome("", "", Some(PlainErr("no tool call generated")));
      }
      var call := reply.value[0];
      var toolName := TrimSpace(call.name);
      if toolName == [] {
        toolName := ManageJobTool;
      }
      var toolArgs := TrimSpace(call.arguments);
      if toolArgs == [] {
        toolArgs := argsJson;
      }
      var out := InvokeTool(picked, toolName, toolArgs, env);
      if out.Err? {
        return CallOutcome(toolName, "", Some(out.error));
      }
      return CallOutcome(toolName, out.value, None);
    }

    /** Execute: check the request, then run the steps on the trimmed command. */
    method Execute(req: Option<SmartCommandRequest>, model: Model, env: Env) returns (r: Result<SmartCommandResult>)
      ensures r == ExecuteSpec(tools, req, model, env)
    {
      if req.None? {
        return Err(PlainErr("request is nil"));
      }
      var command := TrimSpace(req.value.command);
      if command == [] {
        return Err(PlainErr("command is required"));
      }
      if TrimSpace(req.value.tenantUserId) == [] {
        return Err(PlainErr("tenant_user_id is required"));
      }
      var res := Run(command, req.value.agentId, model, env);
      return Ok(res);
    }

    /** Execute's first step: recognise the intent and stop unless it is create_job. */
    method Run(command: string, requestAgentId: string, model: Model, env: Env) returns (res: SmartCommandResult)
      ensures res == RunSpec(tools, command, requestAgentId, model, env)
    {
      var intentRes := RecognizeIntent(command, model, env);
      if intentRes.Err? {
        return Failed("", NoParams, intentRes.error);
      }
      var intent := intentRes.value.intent;
      if intent != CreateJobIntent {
        return Failed(intent, NoParams, PlainErr("not a scheduling command"));
      }
      res := ParamsStep(intent, command, requestAgentId, model, env);
    }

    /** Execute's second step: extract the parameters and fill in their defaults in place. */
    method ParamsStep(intent: string, command: string, requestAgentId: string, model: Model, env: Env)
      returns (res: SmartCommandResult)
      ensures res == ParamsStepSpec(tools, intent, command, requestAgentId, model, env)
    {
      var extracted := ExtractParams(command, model, env);
      if extracted.Err? {
        return Failed(intent, NoParams, extracted.error);
      }
      var params := extracted.value;
      if TrimSpace(params.action) == [] {
        params := params.(action := DefaultAction);
      }
      if TrimSpace(params.agentId) == [] {
        params := params.(agentId := TrimSpace(requestAgentId));
      }
      assert params == WithDefaults(extracted.value, requestAgentId);
      res := Dispatch(intent, params, model, env);
    }

    /** Execute's last step: refuse incomplete parameters, else call manage_ai_job. */
    method Dispatch(intent: string, params: SmartCommandParams, model: Model, env: Env) returns (res: SmartCommandResult)
      ensures res == DispatchSpec(tools, intent, params, model, env)
    {
      if TrimSpace(params.triggerType) == [] || TrimSpace(params.triggerValue) == [] || TrimSpace(params.prompt) == [] {
        return Failed(intent, NoParams, PlainErr("invalid command parameters"));
      }
      var o := CallManageJob(params, model, env);
      if o.err.Some? {
        return Failed(intent, params, o.err.value);
      }
      return SmartCommandResult(intent, params, o.toolName, o.toolResult, None);
    }
  }
}
