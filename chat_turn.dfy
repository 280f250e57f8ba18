/**
 * The chat-turn merger: groups chat messages by session, orders each session by
 * time, and folds the non-blank messages into text segments, starting a new
 * segment whenever the gap to the previous kept message exceeds the time window.
 * Times and durations are nanoseconds.
 */
module ChatTurn {
  import opened Common
  import opened Seqs
  import opened GoStrings

  /** Five minutes in nanoseconds. */
  const DefaultTimeWindow: int := 5 * 60 * 1_000_000_000

  datatype ChatMessage = ChatMessage(sessionId: string, createdAt: int, content: string,
                                     sendId: string, sendName: string, receiveId: string)

  /** The sender shown on a line: the trimmed name, or the trimmed id when the name is blank. */
  function SenderName(m: ChatMessage): (r: string)
    ensures !IsBlank(m.sendName) ==> r == TrimSpace(m.sendName)
    ensures IsBlank(m.sendName) ==> r == TrimSpace(m.sendId)
  {
    var name := TrimSpace(m.sendName);
    if name == [] then TrimSpace(m.sendId) else name
  }

  /** The receiver shown on a line: the trimmed id, or "unknown" when it is blank. */
  function ReceiverName(m: ChatMessage): (r: string)
    ensures r != []
    ensures !IsBlank(m.receiveId) ==> r == TrimSpace(m.receiveId)
    ensures IsBlank(m.receiveId) ==> r == "unknown"
  {
    var id := TrimSpace(m.receiveId);
    if id == [] then "unknown" else id
  }

  /**
   * One rendered line, "name[id]->name[id](hh:mm:ss): content"; `clock` stands for
   * formatting the time as "15:04:05".
   */
  function Line(m: ChatMessage, clock: int -> string): (r: string)
    ensures |r| > |TrimSpace(m.content)|
    ensures r[|r| - |TrimSpace(m.content)|..] == TrimSpace(m.content)
  {
    var tail := "): " + TrimSpace(m.content);
    var r := SenderName(m) + "[" + TrimSpace(m.sendId) + "]->" + ReceiverName(m) + "[" + TrimSpace(m.receiveId)
             + "](" + clock(m.createdAt) + tail;
    assert r[|r| - |tail|..] == tail;
    assert tail[3..] == TrimSpace(m.content);
    r
  }

  /** What the segment loop sees of a message: nothing when its content is blank, else its time and line. */
  datatype Entry = Entry(time: int, line: string)

  function ItemOf(m: ChatMessage, clock: int -> string): (r: Option<Entry>)
    ensures r.None? <==> IsBlank(m.content)
    ensures r.Some? ==> r.value.time == m.createdAt && r.value.line != []
  {
    if TrimSpace(m.content) == [] then None else Some(Entry(m.createdAt, Line(m, clock)))
  }

  // ---- one session: the loop over time-ordered messages ----

  /** The loop state: segments emitted so far, the segment being built, the last kept time. */
  datatype SegState = SegState(result: seq<string>, current: string, lastTime: int, isFirst: bool)

  const Init: SegState := SegState([], [], 0, true)

  /** What one message does to the loop state. */
  function Step(window: int, st: SegState, item: Option<Entry>): SegState
  {
    match item
    case None => st
    case Some(e) =>
      var st' :=
        if st.isFirst then st
        else if e.time - st.lastTime > window then
          (if |st.current| > 0 then st.(result := st.result + [st.current], current := []) else st)
        else st.(current := st.current + "\n");
      SegState(st'.result, st'.current + e.line, e.time, false)
  }

  /** The loop state after the messages, one at a time. */
  function Run(window: int, clock: int -> string, ms: seq<ChatMessage>): SegState
  {
    if ms == [] then Init else Step(window, Run(window, clock, ms[..|ms| - 1]), ItemOf(ms[|ms| - 1], clock))
  }

  lemma RunStep(window: int, clock: int -> string, ms: seq<ChatMessage>, j: int)
    requires 0 <= j < |ms|
    ensures Run(window, clock, ms[..j + 1]) == Step(window, Run(window, clock, ms[..j]), ItemOf(ms[j], clock))
  {
    assert ms[..j + 1][..j] == ms[..j];
  }

  /** The segments emitted, then the last one if non-empty. */
  function Flush(st: SegState): seq<string>
  {
    if |st.current| > 0 then st.result + [st.current] else st.result
  }

  /** The segments of one time-ordered session. */
  function SessionSegments(window: int, clock: int -> string, ms: seq<ChatMessage>): seq<string>
  {
    Flush(Run(window, clock, ms))
  }

  // ---- the reference: maximal runs of close messages ----


  /** The entries of the non-blank messages, in order. */
  function Kept(clock: int -> string, ms: seq<ChatMessage>): (r: seq<Entry>)
    ensures |r| <= |ms|
    ensures forall i :: 0 <= i < |r| ==> r[i].line != []
  {
    if ms == [] then []
    else Kept(clock, ms[..|ms| - 1]) + (match ItemOf(ms[|ms| - 1], clock) case None => [] case Some(e) => [e])
  }

  /**
   * The entries cut into maximal runs in which each entry follows the previous one
   * within the window.
   */
  function Groups(es: seq<Entry>, window: int): (g: seq<seq<Entry>>)
    ensures es != [] <==> g != []
    ensures forall k :: 0 <= k < |g| ==> g[k] != []
  {
    if es == [] then []
    else if |es| == 1 then [es]
    else
      var n := |es|;
      var g := Groups(es[..n - 1], window);
      if es[n - 1].time - es[n - 2].time > window then g + [[es[n - 1]]]
      else g[..|g| - 1] + [Last(g) + [es[n - 1]]]
  }


  function Concat<T>(g: seq<seq<T>>): seq<T>
  {
    if g == [] then [] else Concat(g[..|g| - 1]) + Last(g)
  }

  lemma ConcatAppend<T>(g: seq<seq<T>>, x: seq<T>)
    ensures Concat(g + [x]) == Concat(g) + x
  {
    assert (g + [x])[..|g|] == g;
  }

  /** Every gap inside the run is within the window. */
  predicate Close(run: seq<Entry>, window: int)
  {
    forall i :: 0 < i < |run| ==> run[i].time - run[i - 1].time <= window
  }

  predicate AllClose(g: seq<seq<Entry>>, window: int)
  {
    forall k :: 0 <= k < |g| ==> Close(g[k], window)
  }

  /** Each run after the first starts with a gap beyond the window. */
  predicate Apart(g: seq<seq<Entry>>, window: int)
  {
    forall k :: 0 < k < |g| ==> ApartAt(g, k, window)
  }

  predicate ApartAt(g: seq<seq<Entry>>, k: int, window: int)
    requires 0 < k < |g|
  {
    g[k] != [] && g[k - 1] != [] && g[k][0].time - Last(g[k - 1]).time > window
  }

  /** The last run ends with the last entry. */
  lemma GroupsLast(es: seq<Entry>, window: int)
    requires es != []
    ensures Last(Last(Groups(es, window))) == Last(es)
  {
  }

  /** Read in order, the runs give the entries back. */
  lemma {:induction false} GroupsConcat(es: seq<Entry>, window: int)
    ensures Concat(Groups(es, window)) == es
  {
    if |es| > 1 {
      var n := |es|;
      var g0 := Groups(es[..n - 1], window);
      GroupsConcat(es[..n - 1], window);
      assert es == es[..n - 1] + [es[n - 1]];
      if es[n - 1].time - es[n - 2].time > window {
        ConcatAppend(g0, [es[n - 1]]);
      } else {
        var front := g0[..|g0| - 1];
        assert g0 == front + [Last(g0)];
        ConcatAppend(front, Last(g0));
        ConcatAppend(front, Last(g0) + [es[n - 1]]);
      }
    } else if |es| == 1 {
      assert Concat([es]) == Concat([]) + es;
    }
  }

  lemma CloseAppend(run: seq<Entry>, e: Entry, window: int)
    requires run != [] && Close(run, window)
    requires e.time - Last(run).time <= window
    ensures Close(run + [e], window)
  {
    var r := run + [e];
    forall i | 0 < i < |r|
      ensures r[i].time - r[i - 1].time <= window
    {
      if i < |run| {
        assert r[i] == run[i] && r[i - 1] == run[i - 1];
      }
    }
  }

  /** Inside a run every gap is within the window. */
  lemma {:induction false} GroupsClose(es: seq<Entry>, window: int)
    ensures AllClose(Groups(es, window), window)
  {
    if |es| > 1 {
      var n := |es|;
      var g0 := Groups(es[..n - 1], window);
      GroupsClose(es[..n - 1], window);
      GroupsLast(es[..n - 1], window);
      var g: seq<seq<Entry>> := Groups(es, window);
      if es[n - 1].time - es[n - 2].time <= window {
        CloseAppend(Last(g0), es[n - 1], window);
        forall k: int | 0 <= k < |g|
          ensures Close(g[k], window)
        {
          if k < |g| - 1 {
            assert g[k] == g0[k];
          }
        }
      } else {
        forall k: int | 0 <= k < |g|
          ensures Close(g[k], window)
        {
          if k < |g| - 1 {
            assert g[k] == g0[k];
          }
        }
      }
    }
  }

  /** Each run after the first starts with a gap beyond the window. */
  lemma {:induction false} GroupsApart(es: seq<Entry>, window: int)
    ensures Apart(Groups(es, window), window)
  {
    if |es| > 1 {
      var n := |es|;
      var g0 := Groups(es[..n - 1], window);
      GroupsApart(es[..n - 1], window);
      GroupsLast(es[..n - 1], window);
      var g: seq<seq<Entry>> := Groups(es, window);
      forall k: int | 0 < k < |g|
        ensures ApartAt(g, k, window)
      {
        if k < |g0| - 1 {
          assert ApartAt(g0, k, window);
          assert g[k] == g0[k] && g[k - 1] == g0[k - 1];
        } else if k == |g0| - 1 {
          assert ApartAt(g0, k, window);
          assert g[k - 1] == g0[k - 1];
          assert g[k][0] == g0[k][0];
        } else {
          assert es[..n - 1][n - 2] == es[n - 2];
          assert g[k - 1] == g0[k - 1];
        }
      }
    }
  }

  /** The lines of a run. */
  function LinesOf(run: seq<Entry>): (r: seq<string>)
    ensures |r| == |run|
    ensures forall i :: 0 <= i < |r| ==> r[i] == run[i].line
  {
    if run == [] then [] else LinesOf(run[..|run| - 1]) + [Last(run).line]
  }

  /** The text of each run: its lines joined by newlines. */
  function Texts(g: seq<seq<Entry>>): (r: seq<string>)
    ensures |r| == |g|
  {
    if g == [] then [] else Texts(g[..|g| - 1]) + [Join(LinesOf(Last(g)), "\n")]
  }

  lemma TextsAppend(g: seq<seq<Entry>>, x: seq<Entry>)
    ensures Texts(g + [x]) == Texts(g) + [Join(LinesOf(x), "\n")]
  {
    assert (g + [x])[..|g|] == g;
  }

  lemma {:induction false} JoinNonEmpty(parts: seq<string>, sep: string)
    requires parts != [] && parts[0] != []
    ensures Join(parts, sep) != []
  {
    if |parts| > 1 {
      JoinAppend(parts[..|parts| - 1], Last(parts), sep);
      assert parts == parts[..|parts| - 1] + [Last(parts)];
      JoinNonEmpty(parts[..|parts| - 1], sep);
    }
  }

  /** The loop state after a prefix, described through the runs of its kept entries. */
  predicate Matches(st: SegState, es: seq<Entry>, window: int)
  {
    if es == [] then st == Init
    else
      var g: seq<seq<Entry>> := Groups(es, window);
      && !st.isFirst && st.lastTime == Last(es).time && st.current != []
      && st.result == Texts(g[..|g| - 1])
      && st.current == Join(LinesOf(Last(g)), "\n")
  }

  /** The first kept entry opens the first run. */
  lemma MatchesFirst(window: int, e: Entry)
    requires e.line != []
    ensures Matches(Step(window, Init, Some(e)), [e], window)
  {
    assert LinesOf([e]) == [e.line];
  }

  /** A kept entry beyond the window closes the current segment and opens a new run. */
  lemma MatchesApart(window: int, st: SegState, es: seq<Entry>, e: Entry)
    requires es != [] && Matches(st, es, window) && e.line != []
    requires e.time - Last(es).time > window
    ensures Matches(Step(window, st, Some(e)), es + [e], window)
  {
    var es' := es + [e];
    assert es'[..|es|] == es && es'[|es| - 1] == Last(es);
    var g0 := Groups(es, window);
    var g := Groups(es', window);
    assert g == g0 + [[e]];
    assert g[..|g| - 1] == g0;
    assert g0 == g0[..|g0| - 1] + [Last(g0)];
    TextsAppend(g0[..|g0| - 1], Last(g0));
    assert LinesOf([e]) == [e.line];
  }

  /** A kept entry within the window extends the current segment by a newline and its line. */
  lemma MatchesClose(window: int, st: SegState, es: seq<Entry>, e: Entry)
    requires es != [] && Matches(st, es, window)
    requires e.time - Last(es).time <= window
    ensures Matches(Step(window, st, Some(e)), es + [e], window)
  {
    var es' := es + [e];
    assert es'[..|es|] == es && es'[|es| - 1] == Last(es);
    var g0 := Groups(es, window);
    var g := Groups(es', window);
    var run := Last(g0);
    assert g == g0[..|g0| - 1] + [run + [e]];
    assert g[..|g| - 1] == g0[..|g0| - 1];
    assert LinesOf(run + [e]) == LinesOf(run) + [e.line] by {
      assert (run + [e])[..|run|] == run;
    }
    JoinAppend(LinesOf(run), e.line, "\n");
  }

  /** One more item keeps the loop state in step with the runs. */
  lemma StepMatches(window: int, st: SegState, es: seq<Entry>, item: Option<Entry>)
    requires Matches(st, es, window)
    requires item.Some? ==> item.value.line != []
    ensures Matches(Step(window, st, item), es + (match item case None => [] case Some(e) => [e]), window)
  {
    match item
    case None =>
      assert es + [] == es;
    case Some(e) =>
      if es == [] {
        MatchesFirst(window, e);
      } else if e.time - Last(es).time > window {
        MatchesApart(window, st, es, e);
      } else {
        MatchesClose(window, st, es, e);
      }
  }

  lemma {:induction false} RunMatches(window: int, clock: int -> string, ms: seq<ChatMessage>)
    ensures Matches(Run(window, clock, ms), Kept(clock, ms), window)
  {
    if ms != [] {
      var front := ms[..|ms| - 1];
      RunMatches(window, clock, front);
      StepMatches(window, Run(window, clock, front), Kept(clock, front), ItemOf(ms[|ms| - 1], clock));
    }
  }

  /** Flushing a state that matches the runs emits the text of every run. */
  lemma FlushMatches(st: SegState, es: seq<Entry>, window: int)
    requires Matches(st, es, window)
    ensures Flush(st) == Texts(Groups(es, window))
  {
    if es != [] {
      var g := Groups(es, window);
      SplitLast(g);
      TextsAppend(g[..|g| - 1], Last(g));
    }
  }


  /**
   * The segments of a session are exactly the texts of the maximal runs of its non-blank
   * messages: a new segment starts exactly where the gap exceeds the window, and the lines
   * of a segment are joined with newlines.
   */
  lemma SessionSegmentsAreRuns(window: int, clock: int -> string, ms: seq<ChatMessage>)
    ensures var g := Groups(Kept(clock, ms), window);
      && SessionSegments(window, clock, ms) == Texts(g)
      && Concat(g) == Kept(clock, ms)
      && AllClose(g, window) && Apart(g, window)
  {
    RunMatches(window, clock, ms);
    var es := Kept(clock, ms);
    FlushMatches(Run(window, clock, ms), es, window);
    GroupsConcat(es, window);
    GroupsClose(es, window);
    GroupsApart(es, window);
  }

  lemma {:induction false} TextsNonEmpty(g: seq<seq<Entry>>)
    requires forall k :: 0 <= k < |g| ==> g[k] != [] && g[k][0].line != []
    ensures forall i :: 0 <= i < |Texts(g)| ==> Texts(g)[i] != []
  {
    if g != [] {
      TextsNonEmpty(g[..|g| - 1]);
      JoinNonEmpty(LinesOf(Last(g)), "\n");
    }
  }

  /** Every segment of a session is non-empty. */
  lemma SessionSegmentsNonEmpty(window: int, clock: int -> string, ms: seq<ChatMessage>)
    ensures forall i :: 0 <= i < |SessionSegments(window, clock, ms)| ==> SessionSegments(window, clock, ms)[i] != []
  {
    SessionSegmentsAreRuns(window, clock, ms);
    var es := Kept(clock, ms);
    var g: seq<seq<Entry>> := Groups(es, window);
    forall k: int | 0 <= k < |g|
      ensures g[k] != [] && g[k][0].line != []
    {
      ConcatMember(g, k);
    }
    TextsNonEmpty(g);
  }

  /** Every element of a run is an element of the concatenation. */
  lemma {:induction false} ConcatMember<T>(g: seq<seq<T>>, k: int)
    requires 0 <= k < |g| && g[k] != []
    ensures g[k][0] in Concat(g)
  {
    if k < |g| - 1 {
      ConcatMember(g[..|g| - 1], k);
      assert g[..|g| - 1][k] == g[k];
    } else {
      assert Concat(g) == Concat(g[..|g| - 1]) + g[k];
    }
  }

  // ---- grouping by session and ordering by time ----

  /** The session ids that occur in the messages. */
  function SessionIds(ms: seq<ChatMessage>): set<string>
  {
    if ms == [] then {} else SessionIds(ms[..|ms| - 1]) + {Last(ms).sessionId}
  }

  /** A session id is collected exactly when some message carries it. */
  lemma {:induction false} SessionIdsIff(ms: seq<ChatMessage>, sid: string)
    ensures sid in SessionIds(ms) <==> exists i :: 0 <= i < |ms| && ms[i].sessionId == sid
  {
    if ms != [] {
      var front := ms[..|ms| - 1];
      SessionIdsIff(front, sid);
      if sid in SessionIds(front) {
        var i :| 0 <= i < |front| && front[i].sessionId == sid;
        assert ms[i] == front[i];
      }
      if exists i :: 0 <= i < |ms| && ms[i].sessionId == sid {
        var i :| 0 <= i < |ms| && ms[i].sessionId == sid;
        if i < |front| {
          assert front[i] == ms[i];
        }
      }
    }
  }

  /** The messages of one session, in input order. */
  function InSession(ms: seq<ChatMessage>, sid: string): (r: seq<ChatMessage>)
    ensures forall i :: 0 <= i < |r| ==> r[i].sessionId == sid
    ensures sid !in SessionIds(ms) ==> r == []
  {
    if ms == [] then []
    else InSession(ms[..|ms| - 1], sid) + (if Last(ms).sessionId == sid then [Last(ms)] else [])
  }

  lemma SessionStep(ms: seq<ChatMessage>, i: int)
    requires 0 <= i < |ms|
    ensures SessionIds(ms[..i + 1]) == SessionIds(ms[..i]) + {ms[i].sessionId}
    ensures forall sid :: InSession(ms[..i + 1], sid)
                          == InSession(ms[..i], sid) + (if ms[i].sessionId == sid then [ms[i]] else [])
  {
    assert ms[..i + 1][..i] == ms[..i];
  }

  /** Appending one message to its session's list keeps the grouping in step with the prefix read so far. */
  lemma GroupStep(sessions: map<string, seq<ChatMessage>>, ms: seq<ChatMessage>, i: int)
    requires 0 <= i < |ms|
    requires sessions.Keys == SessionIds(ms[..i])
    requires forall sid :: sid in sessions ==> sessions[sid] == InSession(ms[..i], sid)
    ensures var m := ms[i];
      var next := sessions[m.sessionId := (if m.sessionId in sessions then sessions[m.sessionId] else []) + [m]];
      && next.Keys == SessionIds(ms[..i + 1])
      && forall sid :: sid in next ==> next[sid] == InSession(ms[..i + 1], sid)
  {
    SessionStep(ms, i);
    var m := ms[i];
    var prev := if m.sessionId in sessions then sessions[m.sessionId] else [];
    assert prev == InSession(ms[..i], m.sessionId);
  }

  predicate SortedByTime(ms: seq<ChatMessage>)
  {
    forall i, j :: 0 <= i < j < |ms| ==> ms[i].createdAt <= ms[j].createdAt
  }

  /** Inserts m after every message not later than it. */
  function InsertByTime(sorted: seq<ChatMessage>, m: ChatMessage): (r: seq<ChatMessage>)
    ensures |r| == |sorted| + 1
    ensures multiset(r) == multiset(sorted) + multiset{m}
  {
    if sorted == [] then [m]
    else if Last(sorted).createdAt <= m.createdAt then sorted + [m]
    else
      SplitLast(sorted);
      InsertByTime(sorted[..|sorted| - 1], m) + [Last(sorted)]
  }

  /** Inserting into a sequence sorted by time keeps it sorted. */
  lemma {:induction false} InsertByTimeSorted(sorted: seq<ChatMessage>, m: ChatMessage)
    requires SortedByTime(sorted)
    ensures SortedByTime(InsertByTime(sorted, m))
  {
    if sorted != [] && Last(sorted).createdAt > m.createdAt {
      var front := sorted[..|sorted| - 1];
      var top := Last(sorted);
      SplitLast(sorted);
      var r0 := InsertByTime(front, m);
      InsertByTimeSorted(front, m);
      forall j | 0 <= j < |r0|
        ensures r0[j].createdAt <= top.createdAt
      {
        var x := r0[j];
        assert x in multiset(r0);
        if x != m {
          assert x in front;
        }
      }
      SortedSnoc(r0, top);
    }
  }

  lemma SortedSnoc(front: seq<ChatMessage>, top: ChatMessage)
    requires SortedByTime(front)
    requires forall j :: 0 <= j < |front| ==> front[j].createdAt <= top.createdAt
    ensures SortedByTime(front + [top])
  {
  }

  function SortByTime(ms: seq<ChatMessage>): (r: seq<ChatMessage>)
    ensures SortedByTime(r) && multiset(r) == multiset(ms)
  {
    if ms == [] then []
    else
      assert ms == ms[..|ms| - 1] + [Last(ms)];
      var sorted := SortByTime(ms[..|ms| - 1]);
      InsertByTimeSorted(sorted, Last(ms));
      InsertByTime(sorted, Last(ms))
  }

  /** The segments of the sessions `sids`, one session after another. */
  function SegmentsOf(window: int, clock: int -> string, ms: seq<ChatMessage>, sids: seq<string>): seq<string>
  {
    if sids == [] then []
    else SegmentsOf(window, clock, ms, sids[..|sids| - 1])
         + SessionSegments(window, clock, SortByTime(InSession(ms, Last(sids))))
  }

  lemma SegmentsOfStep(window: int, clock: int -> string, ms: seq<ChatMessage>, sids: seq<string>, k: int)
    requires 0 <= k < |sids|
    ensures SegmentsOf(window, clock, ms, sids[..k + 1])
            == SegmentsOf(window, clock, ms, sids[..k]) + SessionSegments(window, clock, SortByTime(InSession(ms, sids[k])))
  {
    assert sids[..k + 1][..k] == sids[..k];
  }

  /** What Merge returns: the sessions in ascending id order, each cut into segments. */
  function MergeSpec(window: int, clock: int -> string, ms: seq<ChatMessage>): seq<string>
  {
    if ms == [] then [] else SegmentsOf(window, clock, ms, SortedStrings(SessionIds(ms)))
  }

  datatype ChatTurnMerger = ChatTurnMerger(timeWindow: int)
  {
    /** Groups by session, sorts each session by time and cuts it into segments. */
    method Merge(messages: seq<ChatMessage>, clock: int -> string) returns (result: seq<string>)
      ensures result == MergeSpec(timeWindow, clock, messages)
    {
      if |messages| == 0 {
        return [];
      }
      var sessions := GroupBySession(messages);
      var sessionIds := SortedStrings(sessions.Keys);
      result := SegmentSessions(sessions, sessionIds, clock, messages);
    }

    /** The segments of the sessions `sessionIds`, in that order. */
    method SegmentSessions(sessions: map<string, seq<ChatMessage>>, sessionIds: seq<string>, clock: int -> string,
                           ghost messages: seq<ChatMessage>) returns (result: seq<string>)
      requires forall sid :: sid in sessionIds ==> sid in sessions && sessions[sid] == InSession(messages, sid)
      ensures result == SegmentsOf(timeWindow, clock, messages, sessionIds)
    {
      result := [];
      var k := 0;
      while k < |sessionIds|
        invariant 0 <= k <= |sessionIds|
        invariant result == SegmentsOf(timeWindow, clock, messages, sessionIds[..k])
      {
        var sid := sessionIds[k];
        SegmentsOfStep(timeWindow, clock, messages, sessionIds, k);
        var segments := SegmentSession(SortByTime(sessions[sid]), clock);
        result := result + segments;
        k := k + 1;
      }
      TakeAll(sessionIds);
    }

    /** The messages of each session, in input order, keyed by session id. */
    static method GroupBySession(messages: seq<ChatMessage>) returns (sessions: map<string, seq<ChatMessage>>)
      ensures sessions.Keys == SessionIds(messages)
      ensures forall sid :: sid in sessions ==> sessions[sid] == InSession(messages, sid)
    {
      sessions := map[];
      var i := 0;
      while i < |messages|
        invariant 0 <= i <= |messages|
        invariant sessions.Keys == SessionIds(messages[..i])
        invariant forall sid :: sid in sessions ==> sessions[sid] == InSession(messages[..i], sid)
      {
        var msg := messages[i];
        GroupStep(sessions, messages, i);
        var prev := if msg.sessionId in sessions then sessions[msg.sessionId] else [];
        sessions := sessions[msg.sessionId := prev + [msg]];
        i := i + 1;
      }
      assert messages[..i] == messages;
    }

    /** The loop over one session's time-ordered messages. */
    method SegmentSession(sessionMsgs: seq<ChatMessage>, clock: int -> string) returns (segments: seq<string>)
      ensures segments == SessionSegments(timeWindow, clock, sessionMsgs)
    {
      segments := [];
      var current: string := [];
      var lastTime := 0;
      var isFirst := true;
      var j := 0;
      while j < |sessionMsgs|
        invariant 0 <= j <= |sessionMsgs|
        invariant Run(timeWindow, clock, sessionMsgs[..j]) == SegState(segments, current, lastTime, isFirst)
      {
        RunStep(timeWindow, clock, sessionMsgs, j);
        segments, current, lastTime, isFirst := Advance(segments, current, lastTime, isFirst, sessionMsgs[j], clock);
        j := j + 1;
      }
      assert sessionMsgs[..j] == sessionMsgs;
      if |current| > 0 {
        segments := segments + [current];
      }
    }

    /** One pass of the loop body of Merge over a session: skip a blank message, else open or continue a segment. */
    method Advance(segments: seq<string>, current: string, lastTime: int, isFirst: bool, msg: ChatMessage, clock: int -> string)
      returns (segments': seq<string>, current': string, lastTime': int, isFirst': bool)
      ensures SegState(segments', current', lastTime', isFirst')
           == Step(timeWindow, SegState(segments, current, lastTime, isFirst), ItemOf(msg, clock))
    {
      segments', current', lastTime', isFirst' := segments, current, lastTime, isFirst;
      var content := TrimSpace(msg.content);
      if content == [] {
        assert ItemOf(msg, clock) == None;
        return;
      }
      var line := Line(msg, clock);
      assert ItemOf(msg, clock) == Some(Entry(msg.createdAt, line));
      if !isFirst {
        if msg.createdAt - lastTime > timeWindow {
          if |current| > 0 {
            segments' := segments + [current];
            current' := [];
          }
        } else {
          current' := current + "\n";
        }
      }
      current' := current' + line;
      lastTime' := msg.createdAt;
      isFirst' := false;
    }
  }

  function NewChatTurnMerger(): (m: ChatTurnMerger)
    ensures m.timeWindow == 300_000_000_000
  {
    ChatTurnMerger(DefaultTimeWindow)
  }

  /** No messages give no segments; every segment Merge emits is non-empty. */
  lemma MergeSegmentsNonEmpty(window: int, clock: int -> string, ms: seq<ChatMessage>)
    ensures ms == [] ==> MergeSpec(window, clock, ms) == []
    ensures forall i :: 0 <= i < |MergeSpec(window, clock, ms)| ==> MergeSpec(window, clock, ms)[i] != []
  {
    SegmentsOfNonEmpty(window, clock, ms, SortedStrings(SessionIds(ms)));
  }

  lemma {:induction false} SegmentsOfNonEmpty(window: int, clock: int -> string, ms: seq<ChatMessage>, sids: seq<string>)
    ensures forall i :: 0 <= i < |SegmentsOf(window, clock, ms, sids)| ==> SegmentsOf(window, clock, ms, sids)[i] != []
  {
    if sids != [] {
      SegmentsOfNonEmpty(window, clock, ms, sids[..|sids| - 1]);
      SessionSegmentsNonEmpty(window, clock, SortByTime(InSession(ms, Last(sids))));
    }
  }
}
