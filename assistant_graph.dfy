/**
 * Pure helpers and the tool-call loop of the assistant pipeline
 * (internal/modules/ai/infrastructure/pipeline/assistant_graph.go):
 * extracting a task suggestion from a model answer, rune truncation,
 * the retrieval context string, and the tools node.
 * JSON decoding, score formatting and tool execution are parameters.
 */
module AssistantGraph {
  import opened Common
  import opened Seqs
  import opened GoStrings

  // ---- parseTaskSuggestion ----

  const TaskSuggestionStart: string := "<task_suggestion>"
  const TaskSuggestionEnd: string := "</task_suggestion>"

  datatype TaskSuggestion = TaskSuggestion(shouldCreate: bool, command: string)

  /** The parsed suggestion (None when absent or undecodable) and the answer with the tagged block removed. */
  datatype Parsed = Parsed(suggestion: Option<TaskSuggestion>, cleaned: string)

  /**
   * parseTaskSuggestion: find the first start tag, then the first end tag after it;
   * decode the trimmed text between them and cut the whole block out of the answer.
   * `decode` stands for json.Unmarshal (None when it fails).
   */
  function ParseTaskSuggestion(content: string, decode: string -> Option<TaskSuggestion>): (r: Parsed)
    ensures r.suggestion.Some? ==> Contains(content, TaskSuggestionStart)
  {
    ExtractBlock(content, TaskSuggestionStart, TaskSuggestionEnd, decode, TrimSpace)
  }

  /**
   * The body of parseTaskSuggestion for any pair of tags and any trimming function;
   * keeping `trim` abstract keeps the search for the tags apart from white space.
   */
  function ExtractBlock(content: string, open: string, close: string, decode: string -> Option<TaskSuggestion>, trim: string -> string): (r: Parsed)
    ensures r.suggestion.Some? ==> Contains(content, open)
  {
    var start := Index(content, open);
    if start < 0 then Parsed(None, trim(content))
    else CutBlock(content, start, start + |open|, close, decode, trim)
  }

  /** The rest of parseTaskSuggestion once the start tag is found at `start`, its text beginning at `from`. */
  function CutBlock(content: string, start: nat, from: nat, close: string, decode: string -> Option<TaskSuggestion>, trim: string -> string): (r: Parsed)
    requires start <= from <= |content|
  {
    var end := Index(content[from..], close);
    if end < 0 then Parsed(None, trim(content[..start]))
    else
      var end := from + end;
      Parsed(decode(trim(content[from..end])), trim(content[..start] + content[end + |close|..]))
  }

  predicate FirstCharUnique(tag: string)
  {
    |tag| > 0 && forall i :: 0 < i < |tag| ==> tag[i] != tag[0]
  }

  lemma TagsOpenWithUniqueChar()
    ensures FirstCharUnique(TaskSuggestionStart) && FirstCharUnique(TaskSuggestionEnd)
  {
  }

  /** Without a start tag there is no suggestion and the answer is only trimmed. */
  lemma ParseWithoutTag(content: string, decode: string -> Option<TaskSuggestion>)
    requires !Contains(content, TaskSuggestionStart)
    ensures ParseTaskSuggestion(content, decode) == Parsed(None, TrimSpace(content))
  {
  }

  /** A start tag that is never closed: no suggestion, and only the text before the tag is kept. */
  lemma ParseUnclosedTag(pre: string, rest: string, decode: string -> Option<TaskSuggestion>)
    requires !Contains(pre, TaskSuggestionStart) && !Contains(rest, TaskSuggestionEnd)
    ensures ParseTaskSuggestion(pre + TaskSuggestionStart + rest, decode) == Parsed(None, TrimSpace(pre))
  {
    TagsOpenWithUniqueChar();
    BlockUnclosed(pre, rest, TaskSuggestionStart, TaskSuggestionEnd, decode, TrimSpace);
  }

  lemma BlockUnclosed(pre: string, rest: string, open: string, close: string, decode: string -> Option<TaskSuggestion>, trim: string -> string)
    requires FirstCharUnique(open) && !Contains(pre, open) && !Contains(rest, close)
    ensures ExtractBlock(pre + open + rest, open, close, decode, trim) == Parsed(None, trim(pre))
  {
    var content := pre + open + rest;
    IndexAfter(pre, open, rest);
    assert content[|pre| + |open|..] == rest;
    assert content[..|pre|] == pre;
  }

  /**
   * A closed block: the suggestion is whatever the trimmed block decodes to (None exactly
   * when decoding fails), and the answer is the text around the block, trimmed.
   */
  lemma ParseClosedTag(pre: string, raw: string, post: string, decode: string -> Option<TaskSuggestion>)
    requires !Contains(pre, TaskSuggestionStart) && !Contains(raw, TaskSuggestionEnd)
    ensures ParseTaskSuggestion(pre + TaskSuggestionStart + raw + TaskSuggestionEnd + post, decode)
         == Parsed(decode(TrimSpace(raw)), TrimSpace(pre + post))
  {
    TagsOpenWithUniqueChar();
    BlockClosed(pre, raw, post, TaskSuggestionStart, TaskSuggestionEnd, decode, TrimSpace);
  }

  lemma BlockClosed(pre: string, raw: string, post: string, open: string, close: string, decode: string -> Option<TaskSuggestion>, trim: string -> string)
    requires FirstCharUnique(open) && FirstCharUnique(close)
    requires !Contains(pre, open) && !Contains(raw, close)
    ensures ExtractBlock(pre + open + raw + close + post, open, close, decode, trim)
         == Parsed(decode(trim(raw)), trim(pre + post))
  {
    ClosedIndices(pre, raw, post, open, close);
    ClosedPieces(pre, open, raw, close, post);
    BlockAt(pre + open + (raw + close + post), pre, raw, post, open, close, decode, trim);
  }

  /** The two tags of a closed block are found where they were placed. */
  lemma ClosedIndices(pre: string, raw: string, post: string, open: string, close: string)
    requires FirstCharUnique(open) && FirstCharUnique(close)
    requires !Contains(pre, open) && !Contains(raw, close)
    ensures var content := pre + open + (raw + close + post);
      |pre| + |open| <= |content| &&
      Index(content, open) == |pre| && Index(content[|pre| + |open|..], close) == |raw|
  {
    var tail := raw + close + post;
    var content := pre + open + tail;
    IndexAfter(pre, open, tail);
    IndexAfter(raw, close, post);
    assert content[|pre| + |open|..] == tail;
    SameIndex(content[|pre| + |open|..], tail, close);
  }

  /** ExtractBlock over an answer whose tags and pieces are already located. */
  lemma BlockAt(content: string, pre: string, raw: string, post: string, open: string, close: string, decode: string -> Option<TaskSuggestion>,
                trim: string -> string)
    requires |pre| + |open| <= |content|
    requires Index(content, open) == |pre| && Index(content[|pre| + |open|..], close) == |raw|
    requires var from := |pre| + |open|;
      content[..|pre|] == pre && from + |raw| + |close| <= |content| &&
      content[from..from + |raw|] == raw && content[from + |raw| + |close|..] == post
    ensures ExtractBlock(content, open, close, decode, trim) == Parsed(decode(trim(raw)), trim(pre + post))
  {
    ExtractFound(content, |pre|, open, close, decode, trim);
    CutFound(content, |pre|, |pre| + |open|, |raw|, close, decode, trim);
  }

  /** Where the pieces of a closed block sit in the answer. */
  lemma ClosedPieces(pre: string, open: string, raw: string, close: string, post: string)
    ensures var content := pre + open + (raw + close + post);
      var from := |pre| + |open|;
      pre + open + raw + close + post == content &&
      content[from..] == raw + close + post &&
      content[..|pre|] == pre && content[from..from + |raw|] == raw &&
      content[from + |raw| + |close|..] == post
  {
    var content := pre + open + (raw + close + post);
    var from := |pre| + |open|;
    assert content[from..] == raw + close + post;
    assert content[from..from + |raw|] == raw;
    assert content[from + |raw| + |close|..] == post;
  }

  lemma SameIndex(a: string, b: string, sub: string)
    requires a == b
    ensures Index(a, sub) == Index(b, sub)
  {
  }

  /** ExtractBlock once the start tag is known to be first found at `start`. */
  lemma ExtractFound(content: string, start: nat, open: string, close: string, decode: string -> Option<TaskSuggestion>, trim: string -> string)
    requires Index(content, open) == start
    ensures start + |open| <= |content|
    ensures ExtractBlock(content, open, close, decode, trim) == CutBlock(content, start, start + |open|, close, decode, trim)
  {
  }

  /** CutBlock once the end tag is known to be first found `e` runes after `from`. */
  lemma CutFound(content: string, start: nat, from: nat, e: nat, close: string, decode: string -> Option<TaskSuggestion>, trim: string -> string)
    requires start <= from <= |content| && Index(content[from..], close) == e
    ensures from + e + |close| <= |content|
    ensures CutBlock(content, start, from, close, decode, trim)
         == Parsed(decode(trim(content[from..from + e])), trim(content[..start] + content[from + e + |close|..]))
  {
  }

  // ---- truncateTitle / truncateContent ----

  /** The first maxLen runes followed by "..." when the text is longer, else the text itself. */
  function TruncateContent(content: string, maxLen: nat): (r: string)
    ensures |content| <= maxLen ==> r == content
    ensures |content| > maxLen ==> |r| == maxLen + 3 && HasPrefix(r, content[..maxLen]) && HasSuffix(r, "...")
  {
    if |content| > maxLen then content[..maxLen] + "..." else content
  }

  const TitleRunes: nat := 30

  function TruncateTitle(question: string): (r: string)
    ensures |r| <= TitleRunes + 3
  {
    if |question| <= TitleRunes then question else TruncateContent(question, TitleRunes)
  }

  /** Truncation keeps the beginning of the text: the two agree on their first maxLen runes. */
  lemma TruncateKeepsPrefix(content: string, maxLen: nat)
    ensures var r := TruncateContent(content, maxLen);
      |r| >= Min(|content|, maxLen) && r[..Min(|content|, maxLen)] == content[..Min(|content|, maxLen)]
  {
  }

  /** A title of at most 30 runes is kept; a longer one becomes its first 30 runes and "...". */
  lemma TruncateTitleCases(question: string)
    ensures |question| <= 30 ==> TruncateTitle(question) == question
    ensures |question| > 30 ==> TruncateTitle(question) == question[..30] + "..."
  {
  }

  // ---- buildContextString ----

  datatype Citation = Citation(chunkId: string, content: string, sourceType: string, sourceKey: string, score: real)

  const MaxContextCitations: nat := 5

  /** One line of the context string; `formatScore` stands for the "%.3f" verb. */
  function CitationLine(c: Citation, formatScore: real -> string): (r: string)
    ensures HasPrefix(r, "[chunk:") && HasSuffix(r, ")\n")
  {
    var r := "[chunk:" + c.chunkId + "] " + c.content + " (来源: " + c.sourceType + "/" + c.sourceKey
             + ", 得分: " + formatScore(c.score) + ")\n";
    assert r[..7] == "[chunk:";
    assert r[|r| - 2..] == ")\n";
    r
  }

  /** The line of each citation, in order. */
  function LinesOf(cs: seq<Citation>, formatScore: real -> string): (r: seq<string>)
    ensures |r| == |cs|
    ensures forall i :: 0 <= i < |r| ==> r[i] == CitationLine(cs[i], formatScore)
  {
    seq(|cs|, i requires 0 <= i < |cs| => CitationLine(cs[i], formatScore))
  }

  /** Strings written one after another into a builder. */
  function Flatten(ss: seq<string>): (r: string)
    ensures ss == [] ==> r == []
  {
    if ss == [] then [] else Flatten(ss[..|ss| - 1]) + Last(ss)
  }

  lemma LinesStep(cs: seq<Citation>, i: nat, formatScore: real -> string)
    requires i < |cs|
    ensures Flatten(LinesOf(cs[..i + 1], formatScore)) == Flatten(LinesOf(cs[..i], formatScore)) + CitationLine(cs[i], formatScore)
  {
    var ls := LinesOf(cs[..i + 1], formatScore);
    assert ls[..i] == LinesOf(cs[..i], formatScore);
  }

  /** buildContextString: writes a line per citation and stops after the fifth. */
  method BuildContextString(citations: seq<Citation>, formatScore: real -> string) returns (s: string)
    ensures s == Flatten(LinesOf(citations[..Min(|citations|, MaxContextCitations)], formatScore))
  {
    s := [];
    var i := 0;
    while i < |citations|
      invariant 0 <= i <= |citations| && i < MaxContextCitations
      invariant s == Flatten(LinesOf(citations[..i], formatScore))
    {
      LinesStep(citations, i, formatScore);
      s := s + CitationLine(citations[i], formatScore);
      if i >= 4 {
        assert Min(|citations|, MaxContextCitations) == i + 1;
        return;
      }
      i := i + 1;
    }
    assert Min(|citations|, MaxContextCitations) == i;
  }

  /** What is written first stays at the front: the strings of a prefix flatten to a prefix. */
  lemma {:induction false} FlattenPrefix(ss: seq<string>, i: nat)
    requires i <= |ss|
    ensures HasPrefix(Flatten(ss), Flatten(ss[..i]))
    decreases |ss|
  {
    if i < |ss| {
      var init := ss[..|ss| - 1];
      assert init[..i] == ss[..i];
      FlattenPrefix(init, i);
      assert Flatten(ss) == Flatten(init) + Last(ss);
      assert Flatten(ss)[..|Flatten(init)|] == Flatten(init);
    } else {
      assert ss[..i] == ss;
    }
  }

  /**
   * The context string opens with the line of the first citation and closes with the line of
   * the last one written (the fifth when there are more).
   */
  lemma ContextBounds(cs: seq<Citation>, formatScore: real -> string)
    requires cs != []
    ensures var n := Min(|cs|, MaxContextCitations);
      var ctx := Flatten(LinesOf(cs[..n], formatScore));
      HasPrefix(ctx, CitationLine(cs[0], formatScore)) && HasSuffix(ctx, CitationLine(cs[n - 1], formatScore))
  {
    var n := Min(|cs|, MaxContextCitations);
    var ls := LinesOf(cs[..n], formatScore);
    FlattenPrefix(ls, 1);
    assert ls[..1] == [ls[0]];
    assert ls[..0] == [];
    assert Flatten(ls[..1]) == Flatten(ls[..0]) + ls[0];
    assert Flatten(ls) == Flatten(ls[..n - 1]) + ls[n - 1];
  }

  // ---- toolsNode ----

  /** A tool as the node sees it: its name (None when Info fails) and whether it is invokable. */
  datatype Tool = Tool(name: Option<string>, invokable: bool)

  datatype ToolCall = ToolCall(id: string, name: string, arguments: string)

  /** A prompt message: a tool response, or any other message of the history. */
  datatype PromptMsg = ToolMessage(content: string, toolCallId: string, toolName: string) | OtherMessage(role: string, content: string)

  datatype StreamEvent = ToolCallEvent(toolName: string) | ToolResultEvent(toolName: string, status: string)

  /** The first tool whose name matches. */
  function FindTool(tools: seq<Tool>, name: string): (r: Option<Tool>)
    ensures r.Some? <==> exists t :: t in tools && t.name == Some(name)
    ensures r.Some? ==> r.value in tools && r.value.name == Some(name)
  {
    if tools == [] then None
    else if tools[0].name == Some(name) then Some(tools[0])
    else FindTool(tools[1..], name)
  }

  /** The response text of one call and whether it failed; `run` stands for InvokableRun. */
  datatype ToolRun = ToolRun(response: string, failed: bool)

  function RunToolCall(call: ToolCall, tools: seq<Tool>, run: (string, string) -> Result<string>): ToolRun
  {
    match FindTool(tools, call.name)
    case None => ToolRun("Tool '" + call.name + "' not found", true)
    case Some(t) =>
      if !t.invokable then ToolRun("Tool is not invokable", true)
      else match run(call.name, call.arguments)
        case Err(e) => ToolRun("Tool execution error: " + e.msg, true)
        case Ok(res) => ToolRun(res, false)
  }

  function ToolStatus(r: ToolRun): string { if r.failed then "error" else "success" }

  function ToolCallId(call: ToolCall): string { if call.id == "" then call.name else call.id }

  /** The status is "error" exactly when the tool is missing, not invokable, or its run fails. */
  lemma ToolStatusIff(call: ToolCall, tools: seq<Tool>, run: (string, string) -> Result<string>)
    ensures ToolStatus(RunToolCall(call, tools, run)) == "error" <==>
      (FindTool(tools, call.name).None? || !FindTool(tools, call.name).value.invokable || run(call.name, call.arguments).Err?)
    ensures ToolStatus(RunToolCall(call, tools, run)) == "success" <==>
      !(FindTool(tools, call.name).None? || !FindTool(tools, call.name).value.invokable || run(call.name, call.arguments).Err?)
  {
  }

  /** A successful run answers with exactly what the tool returned. */
  lemma ToolResponseOnSuccess(call: ToolCall, tools: seq<Tool>, run: (string, string) -> Result<string>)
    requires FindTool(tools, call.name).Some? && FindTool(tools, call.name).value.invokable
    requires run(call.name, call.arguments).Ok?
    ensures RunToolCall(call, tools, run) == ToolRun(run(call.name, call.arguments).value, false)
  {
  }

  /** The tool message's call id is the call's id, or the tool name when the id is empty. */
  lemma ToolCallIdFallback(call: ToolCall)
    ensures ToolCallId(call) != "" <==> call.id != "" || call.name != ""
    ensures call.id != "" ==> ToolCallId(call) == call.id
  {
  }

  function ToolMessageOf(call: ToolCall, tools: seq<Tool>, run: (string, string) -> Result<string>): PromptMsg
  {
    ToolMessage(RunToolCall(call, tools, run).response, ToolCallId(call), call.name)
  }

  function EventsOf(call: ToolCall, tools: seq<Tool>, run: (string, string) -> Result<string>): seq<StreamEvent>
  {
    [ToolCallEvent(call.name), ToolResultEvent(call.name, ToolStatus(RunToolCall(call, tools, run)))]
  }

  /** The tool messages of the calls, in order. */
  function ToolMessages(calls: seq<ToolCall>, tools: seq<Tool>, run: (string, string) -> Result<string>): (r: seq<PromptMsg>)
    ensures |r| == |calls|
    ensures forall i :: 0 <= i < |calls| ==> r[i] == ToolMessageOf(calls[i], tools, run)
  {
    if calls == [] then []
    else ToolMessages(calls[..|calls| - 1], tools, run) + [ToolMessageOf(Last(calls), tools, run)]
  }

  function StreamOf(calls: seq<ToolCall>, tools: seq<Tool>, run: (string, string) -> Result<string>): (r: seq<StreamEvent>)
    ensures |r| == 2 * |calls|
  {
    if calls == [] then []
    else StreamOf(calls[..|calls| - 1], tools, run) + EventsOf(Last(calls), tools, run)
  }

  lemma ToolsStep(calls: seq<ToolCall>, i: nat, tools: seq<Tool>, run: (string, string) -> Result<string>)
    requires i < |calls|
    ensures ToolMessages(calls[..i + 1], tools, run) == ToolMessages(calls[..i], tools, run) + [ToolMessageOf(calls[i], tools, run)]
    ensures StreamOf(calls[..i + 1], tools, run) == StreamOf(calls[..i], tools, run) + EventsOf(calls[i], tools, run)
  {
    assert calls[..i + 1][..i] == calls[..i];
  }

  /**
   * toolsNode over the calls of the last response: one tool message per call, appended
   * in order, and (when a stream emitter is set) a tool_call and a tool_result event per call.
   */
  method ToolsNode(promptMsgs: seq<PromptMsg>, calls: seq<ToolCall>, tools: seq<Tool>,
                   run: (string, string) -> Result<string>, hasEmitter: bool)
    returns (msgs: seq<PromptMsg>, events: seq<StreamEvent>)
    ensures msgs == promptMsgs + ToolMessages(calls, tools, run)
    ensures events == if hasEmitter then StreamOf(calls, tools, run) else []
  {
    msgs, events := promptMsgs, [];
    var i := 0;
    while i < |calls|
      invariant 0 <= i <= |calls|
      invariant msgs == promptMsgs + ToolMessages(calls[..i], tools, run)
      invariant events == if hasEmitter then StreamOf(calls[..i], tools, run) else []
    {
      ToolsStep(calls, i, tools, run);
      var msg, evs := CallTool(calls[i], tools, run, hasEmitter);
      AppendAssoc(promptMsgs, ToolMessages(calls[..i], tools, run), [msg]);
      msgs := msgs + [msg];
      events := events + evs;
      i := i + 1;
    }
    TakeAll(calls);
  }

  /**
   * One iteration of toolsNode: announce the call, look the tool up by name (the first
   * match wins), run it, announce the status, and build the tool message.
   */
  method CallTool(call: ToolCall, tools: seq<Tool>, run: (string, string) -> Result<string>, hasEmitter: bool)
    returns (msg: PromptMsg, evs: seq<StreamEvent>)
    ensures msg == ToolMessageOf(call, tools, run)
    ensures evs == if hasEmitter then EventsOf(call, tools, run) else []
  {
    evs := [];
    if hasEmitter {
      evs := evs + [ToolCallEvent(call.name)];
    }
    var response, failed, found := "", false, false;
    var j := 0;
    while j < |tools|
      invariant 0 <= j <= |tools|
      invariant FindTool(tools, call.name) == FindTool(tools[j..], call.name)
    {
      var t := tools[j];
      if t.name == Some(call.name) {
        found := true;
        if t.invokable {
          match run(call.name, call.arguments)
          case Err(e) =>
            failed := true;
            response := "Tool execution error: " + e.msg;
          case Ok(res) =>
            response := res;
        } else {
          failed := true;
          response := "Tool is not invokable";
        }
        break;
      }
      assert tools[j..][1..] == tools[j + 1..];
      j := j + 1;
    }
    assert found <==> FindTool(tools, call.name).Some?;
    if !found {
      failed := true;
      response := "Tool '" + call.name + "' not found";
    }
    assert ToolRun(response, failed) == RunToolCall(call, tools, run);
    if hasEmitter {
      evs := evs + [ToolResultEvent(call.name, if failed then "error" else "success")];
    }
    var toolCallId := call.id;
    if toolCallId == "" {
      toolCallId := call.name;
    }
    msg := ToolMessage(response, toolCallId, call.name);
  }
}
