/**
 * Scheduled assistant jobs (aiJobServiceImpl): firing the event-driven job
 * definitions of a tenant, the prompt templating that fills `{{key}}`
 * placeholders from the event's variables, the check that a definition's
 * assistant session may run jobs, and switching a definition off.
 *
 * The job table is a sequence of definitions read by two queries; the
 * assistant-session repository is a function from (session id, user id) to
 * what the read returned, and `hasRepo` says whether the service was given
 * one. The clock is the parameter `now`.
 */
module JobService {
  import opened Common
  import opened GoStrings

  const TriggerTypeEvent := 2
  const JobStatusPending := 0
  /** The session type of the one global assistant session a tenant owns. */
  const SystemGlobal := "system_global"

  const SessionRequired := "session_id is required for job execution"
  const IdsRequired := "user_id, agent_id and session_id are required"
  const RepoMissing := "session repo is nil"
  const SessionMissing := "session not found or unauthorized"
  const AgentMismatch := "session agent_id mismatch"
  const NotSystemGlobal := "session_type must be system_global"

  datatype JobDef = JobDef(id: int, tenantUserId: string, agentId: string, sessionId: string, prompt: string,
                           triggerType: int, eventKey: string, isActive: bool)

  datatype JobInst = JobInst(jobDefId: int, tenantUserId: string, agentId: string, sessionId: string,
                             prompt: string, status: int, triggerAt: int)

  /** What reading an assistant session returned. */
  datatype SessionRead = Found(agentId: string, sessionType: string) | NotFound | ReadFailed(error: Error)

  // ---------------------------------------------------------------------
  // Prompt templating
  // ---------------------------------------------------------------------

  /** The placeholder a variable's value replaces. */
  function Placeholder(k: string): (r: string)
    ensures |r| == |k| + 4 && r[0] == '{' && r[1] == '{'
  {
    "{{" + k + "}}"
  }

  /**
   * The prompt after replacing, in `order` (the order Go's range visits the
   * variables in), every placeholder of each variable by its value.
   */
  function Fill(prompt: string, order: seq<string>, vars: map<string, string>): string
    requires forall k :: k in order ==> k in vars
    decreases |order|
  {
    if order == [] then prompt
    else Fill(ReplaceAll(prompt, Placeholder(order[0]), vars[order[0]]), order[1..], vars)
  }

  /** The replacement loop of TriggerByEvent over one definition's prompt. */
  method FillPrompt(prompt: string, order: seq<string>, vars: map<string, string>) returns (r: string)
    requires forall k :: k in order ==> k in vars
    ensures r == Fill(prompt, order, vars)
  {
    r := prompt;
    for i := 0 to |order|
      invariant Fill(r, order[i..], vars) == Fill(prompt, order, vars)
    {
      assert order[i..][1..] == order[i + 1..];
      r := ReplaceAll(r, Placeholder(order[i]), vars[order[i]]);
    }
  }

  /** A prompt template: literal text and placeholders. */
  datatype Piece = Text(text: string) | Slot(key: string)

  /** Text without an opening brace. */
  predicate Plain(t: string)
  {
    forall i :: 0 <= i < |t| ==> t[i] != '{'
  }

  /** A key without braces. */
  predicate KeyShaped(k: string)
  {
    forall i :: 0 <= i < |k| ==> k[i] != '{' && k[i] != '}'
  }

  predicate PieceOk(p: Piece)
  {
    match p
    case Text(t) => Plain(t)
    case Slot(k) => KeyShaped(k)
  }

  predicate WellFormed(ps: seq<Piece>)
  {
    forall i :: 0 <= i < |ps| ==> PieceOk(ps[i])
  }

  /** The prompt a template is written as. */
  function Render(ps: seq<Piece>): string
  {
    if ps == [] then []
    else (match ps[0] case Text(t) => t case Slot(k) => Placeholder(k)) + Render(ps[1..])
  }

  /**
   * The prompt a template means once the variables named in `known` are
   * bound: each of their slots shows the value, every other slot stays as
   * written.
   */
  function Expand(ps: seq<Piece>, vars: map<string, string>, known: set<string>): string
    requires known <= vars.Keys
  {
    if ps == [] then []
    else (match ps[0]
          case Text(t) => t
          case Slot(k) => if k in known then vars[k] else Placeholder(k)) + Expand(ps[1..], vars, known)
  }

  /** The template with the slots of `k` turned into the text `v`. */
  function Subst(ps: seq<Piece>, k: string, v: string): (r: seq<Piece>)
    ensures |r| == |ps|
    ensures forall i :: 0 <= i < |ps| ==> r[i] == (if ps[i] == Slot(k) then Text(v) else ps[i])
  {
    if ps == [] then []
    else [if ps[0] == Slot(k) then Text(v) else ps[0]] + Subst(ps[1..], k, v)
  }

  /** ReplaceAll moves past a first character that does not start a match. */
  lemma ReplaceStep(s: string, pat: string, rep: string)
    requires |pat| > 0 && |s| > 0 && !OccursAt(s, pat, 0)
    ensures ReplaceAll(s, pat, rep) == [s[0]] + ReplaceAll(s[1..], pat, rep)
  {
    if |s| < |pat| {
      assert s == [s[0]] + s[1..];
    }
  }

  /** No match of `pat` starts inside `p` when `y` follows it. */
  predicate UnmatchedPrefix(p: string, y: string, pat: string)
  {
    forall i :: 0 <= i < |p| ==> !OccursAt(p + y, pat, i)
  }

  /** Dropping the first character of an unmatched prefix leaves an unmatched prefix. */
  lemma UnmatchedTail(p: string, y: string, pat: string)
    requires p != [] && UnmatchedPrefix(p, y, pat)
    ensures UnmatchedPrefix(p[1..], y, pat)
  {
    forall i | 0 <= i < |p| - 1
      ensures !OccursAt(p[1..] + y, pat, i)
    {
      assert !OccursAt(p + y, pat, i + 1);
      if i + |pat| <= |p| - 1 + |y| {
        assert (p[1..] + y)[i..i + |pat|] == (p + y)[i + 1..i + 1 + |pat|];
      }
    }
  }

  /** ReplaceAll copies the first character of an unmatched prefix. */
  lemma UnmatchedStep(p: string, y: string, pat: string, rep: string)
    requires |pat| > 0 && p != [] && UnmatchedPrefix(p, y, pat)
    ensures ReplaceAll(p + y, pat, rep) == [p[0]] + ReplaceAll(p[1..] + y, pat, rep)
  {
    assert !OccursAt(p + y, pat, 0);
    ReplaceStep(p + y, pat, rep);
    assert (p + y)[1..] == p[1..] + y;
  }

  /** ReplaceAll copies a prefix inside which no match starts. */
  lemma {:induction false} ReplaceSkipsUnmatched(p: string, y: string, pat: string, rep: string)
    requires |pat| > 0 && UnmatchedPrefix(p, y, pat)
    ensures ReplaceAll(p + y, pat, rep) == p + ReplaceAll(y, pat, rep)
    decreases |p|
  {
    if p == [] {
      assert p + y == y;
    } else {
      UnmatchedStep(p, y, pat, rep);
      UnmatchedTail(p, y, pat);
      ReplaceSkipsUnmatched(p[1..], y, pat, rep);
      assert p == [p[0]] + p[1..];
    }
  }

  /** Text without an opening brace holds no placeholder, whatever follows it. */
  lemma ReplaceSkipsPlain(t: string, y: string, pat: string, rep: string)
    requires |pat| > 0 && pat[0] == '{' && Plain(t)
    ensures ReplaceAll(t + y, pat, rep) == t + ReplaceAll(y, pat, rep)
  {
    forall i | 0 <= i < |t|
      ensures !OccursAt(t + y, pat, i)
    {
      if i + |pat| <= |t + y| {
        assert (t + y)[i..i + |pat|][0] == t[i];
      }
    }
    ReplaceSkipsUnmatched(t, y, pat, rep);
  }

  /** The placeholder of another key does not start where the placeholder of `j` does. */
  lemma OtherSlotNoMatch(j: string, k: string, y: string)
    requires KeyShaped(j) && KeyShaped(k) && j != k
    ensures !OccursAt(Placeholder(j) + y, Placeholder(k), 0)
  {
    var pat := Placeholder(k);
    var s := Placeholder(j) + y;
    if |s| >= |pat| {
      if |j| < |k| {
        assert s[|j| + 2] == '}' && pat[|j| + 2] == k[|j|];
        assert s[..|pat|][|j| + 2] != pat[|j| + 2];
      } else if |j| > |k| {
        assert pat[|k| + 2] == '}' && s[|k| + 2] == j[|k|];
        assert s[..|pat|][|k| + 2] != pat[|k| + 2];
      } else {
        var i :| 0 <= i < |j| && j[i] != k[i];
        assert s[i + 2] == j[i] && pat[i + 2] == k[i];
        assert s[..|pat|][i + 2] != pat[i + 2];
      }
    }
  }

  /** Inside a placeholder, only its first brace can start another placeholder. */
  lemma InnerSlotNoMatch(j: string, k: string, y: string, i: int)
    requires KeyShaped(j) && 1 <= i < |j| + 4
    ensures !OccursAt(Placeholder(j) + y, Placeholder(k), i)
  {
    var s := Placeholder(j) + y;
    var pat := Placeholder(k);
    if 0 <= i && i + |pat| <= |s| {
      if i == 1 {
        assert s[2] == (if |j| > 0 then j[0] else '}');
        assert s[i..i + |pat|][1] != pat[1];
      } else {
        assert s[i] == (if i < |j| + 2 then j[i - 2] else '}');
        assert s[i..i + |pat|][0] != pat[0];
      }
    }
  }

  /** Replacing the placeholder of `k` leaves the placeholder of another key alone. */
  lemma ReplaceSkipsOtherSlot(j: string, k: string, y: string, rep: string)
    requires KeyShaped(j) && KeyShaped(k) && j != k
    ensures ReplaceAll(Placeholder(j) + y, Placeholder(k), rep) == Placeholder(j) + ReplaceAll(y, Placeholder(k), rep)
  {
    forall i | 0 <= i < |Placeholder(j)|
      ensures !OccursAt(Placeholder(j) + y, Placeholder(k), i)
    {
      if i == 0 {
        OtherSlotNoMatch(j, k, y);
      } else {
        InnerSlotNoMatch(j, k, y, i);
      }
    }
    ReplaceSkipsUnmatched(Placeholder(j), y, Placeholder(k), rep);
  }

  /** One replacement turns the slots of `k` into its value and leaves the rest of the template. */
  lemma {:induction false} RenderReplace(ps: seq<Piece>, k: string, v: string)
    requires WellFormed(ps) && KeyShaped(k) && Plain(v)
    ensures ReplaceAll(Render(ps), Placeholder(k), v) == Render(Subst(ps, k, v))
  {
    if ps != [] {
      var rest := Render(ps[1..]);
      assert PieceOk(ps[0]);
      assert Subst(ps, k, v)[1..] == Subst(ps[1..], k, v);
      RenderReplace(ps[1..], k, v);
      match ps[0]
      case Text(t) =>
        ReplaceSkipsPlain(t, rest, Placeholder(k), v);
      case Slot(j) =>
        if j == k {
          ReplaceAllLeading(rest, Placeholder(k), v);
        } else {
          ReplaceSkipsOtherSlot(j, k, rest, v);
        }
    }
  }

  /** Binding a variable by substitution is binding it in the expansion. */
  lemma {:induction false} ExpandSubst(ps: seq<Piece>, k: string, vars: map<string, string>, known: set<string>)
    requires k in vars && known <= vars.Keys
    ensures Expand(Subst(ps, k, vars[k]), vars, known) == Expand(ps, vars, known + {k})
  {
    if ps != [] {
      assert Subst(ps, k, vars[k])[1..] == Subst(ps[1..], k, vars[k]);
      ExpandSubst(ps[1..], k, vars, known);
    }
  }

  /** With nothing bound a template expands to what it is written as. */
  lemma {:induction false} ExpandNone(ps: seq<Piece>, vars: map<string, string>)
    ensures Expand(ps, vars, {}) == Render(ps)
  {
    if ps != [] {
      ExpandNone(ps[1..], vars);
    }
  }

  lemma {:induction false} FillRendersExpansion(ps: seq<Piece>, order: seq<string>, vars: map<string, string>)
    requires WellFormed(ps)
    requires forall k :: k in order ==> k in vars && KeyShaped(k) && Plain(vars[k])
    ensures Fill(Render(ps), order, vars) == Expand(ps, vars, set k | k in order)
    decreases |order|
  {
    if order == [] {
      ExpandNone(ps, vars);
      assert (set k | k in order) == {};
    } else {
      var k := order[0];
      var sub := Subst(ps, k, vars[k]);
      RenderReplace(ps, k, vars[k]);
      assert WellFormed(sub) by {
        forall i | 0 <= i < |sub|
          ensures PieceOk(sub[i])
        {
          assert PieceOk(ps[i]);
        }
      }
      FillRendersExpansion(sub, order[1..], vars);
      ExpandSubst(ps, k, vars, set k' | k' in order[1..]);
      assert (set k' | k' in order[1..]) + {k} == set k' | k' in order;
    }
  }

  /**
   * Templating fills every placeholder whose key the event supplies with its
   * value and leaves the others as written, whatever order the variables are
   * visited in, as long as keys hold no brace and values no opening brace
   * (a value holding a placeholder could otherwise be filled by a later
   * variable).
   */
  lemma PromptTemplating(ps: seq<Piece>, order: seq<string>, vars: map<string, string>)
    requires WellFormed(ps)
    requires forall k :: k in order <==> k in vars
    requires forall k :: k in vars ==> KeyShaped(k) && Plain(vars[k])
    ensures Fill(Render(ps), order, vars) == Expand(ps, vars, vars.Keys)
  {
    FillRendersExpansion(ps, order, vars);
    assert (set k | k in order) == vars.Keys;
  }

  // ---------------------------------------------------------------------
  // validateSession
  // ---------------------------------------------------------------------

  /** Whether the job may run in the given assistant session for the given user and agent. */
  function ValidateSession(userId: string, agentId: string, sessionId: string,
                           hasRepo: bool, repo: (string, string) -> SessionRead): (r: Status)
    ensures !hasRepo ==> r.Failure?
  {
    ValidateTrimmed(TrimSpace(userId), TrimSpace(agentId), TrimSpace(sessionId), hasRepo, repo)
  }

  /** The check on the trimmed ids. */
  function ValidateTrimmed(u: string, a: string, s: string,
                           hasRepo: bool, repo: (string, string) -> SessionRead): Status
  {
    if u == [] || a == [] || s == [] then Failure(PlainErr(IdsRequired))
    else if !hasRepo then Failure(PlainErr(RepoMissing))
    else
      match repo(s, u)
      case ReadFailed(e) => Failure(e)
      case NotFound => Failure(PlainErr(SessionMissing))
      case Found(agent, ty) =>
        if TrimSpace(agent) != a then Failure(PlainErr(AgentMismatch))
        else if TrimSpace(ty) != SystemGlobal then Failure(PlainErr(NotSystemGlobal))
        else Success
  }

  /**
   * A session passes iff the three ids are not blank, the repository is
   * there, the session it finds under the trimmed ids has the caller's agent
   * and is the tenant's global session; blank ids are refused before any read.
   */
  lemma ValidateSessionIff(userId: string, agentId: string, sessionId: string,
                           hasRepo: bool, repo: (string, string) -> SessionRead)
    ensures var st := ValidateSession(userId, agentId, sessionId, hasRepo, repo);
      var found := repo(TrimSpace(sessionId), TrimSpace(userId));
      && (st.Success? <==>
          !IsBlank(userId) && !IsBlank(agentId) && !IsBlank(sessionId) && hasRepo &&
          found.Found? && TrimSpace(found.agentId) == TrimSpace(agentId) && TrimSpace(found.sessionType) == SystemGlobal)
      && (IsBlank(userId) || IsBlank(agentId) || IsBlank(sessionId) ==> st == Failure(PlainErr(IdsRequired)))
  {
  }

  /** Surrounding white space on the ids changes nothing. */
  lemma ValidateSessionTrims(userId: string, agentId: string, sessionId: string,
                             hasRepo: bool, repo: (string, string) -> SessionRead)
    ensures ValidateSession(TrimSpace(userId), TrimSpace(agentId), TrimSpace(sessionId), hasRepo, repo)
         == ValidateSession(userId, agentId, sessionId, hasRepo, repo)
  {
    TrimSpaceIdempotent(userId);
    TrimSpaceIdempotent(agentId);
    TrimSpaceIdempotent(sessionId);
  }

  // ---------------------------------------------------------------------
  // TriggerByEvent
  // ---------------------------------------------------------------------

  /** An active event definition listening for `ev`. */
  predicate Listens(d: JobDef, ev: string)
  {
    d.isActive && d.triggerType == TriggerTypeEvent && d.eventKey == ev
  }

  /** GetDefsByEventAndUser: the definitions of `u` listening for `ev`, in table order. */
  function UserEventDefs(table: seq<JobDef>, ev: string, u: string): (r: seq<JobDef>)
    ensures forall d :: d in r <==> d in table && Listens(d, ev) && d.tenantUserId == u
  {
    if table == [] then []
    else (if Listens(table[0], ev) && table[0].tenantUserId == u then [table[0]] else [])
         + UserEventDefs(table[1..], ev, u)
  }

  /** GetDefsByEvent as written: the definitions of every tenant listening for `ev`. */
  function EventDefs(table: seq<JobDef>, ev: string): (r: seq<JobDef>)
    ensures forall d :: d in r <==> d in table && Listens(d, ev)
  {
    if table == [] then []
    else (if Listens(table[0], ev) then [table[0]] else []) + EventDefs(table[1..], ev)
  }

  /** The global definitions, as the fallback to the event's tenant implies: those without an owner. */
  function GlobalEventDefs(table: seq<JobDef>, ev: string): (r: seq<JobDef>)
    ensures forall d :: d in r <==> d in table && Listens(d, ev) && d.tenantUserId == []
  {
    UserEventDefs(table, ev, [])
  }

  /** The user a definition's job runs for: its owner, or the event's tenant when it has none. */
  function TargetUser(d: JobDef, tenant: string): string
  {
    if d.tenantUserId == [] then tenant else d.tenantUserId
  }

  /** The instance one definition yields, or the error that stops the trigger. */
  function DefOutcome(d: JobDef, tenant: string, order: seq<string>, vars: map<string, string>,
                      hasRepo: bool, repo: (string, string) -> SessionRead, now: int): Result<JobInst>
    requires forall k :: k in order ==> k in vars
  {
    var target := TargetUser(d, tenant);
    if IsBlank(d.sessionId) then Err(PlainErr(SessionRequired))
    else
      match ValidateSession(target, d.agentId, d.sessionId, hasRepo, repo)
      case Failure(e) => Err(e)
      case Success =>
        Ok(JobInst(d.id, target, d.agentId, d.sessionId, Fill(d.prompt, order, vars), JobStatusPending, now))
  }

  /**
   * A definition yields an instance iff its session id is not blank and its
   * session passes for the target user; the instance is pending, runs the
   * filled prompt for the target user, and the definition's agent and session.
   */
  lemma DefOutcomeIff(d: JobDef, tenant: string, order: seq<string>, vars: map<string, string>,
                      hasRepo: bool, repo: (string, string) -> SessionRead, now: int)
    requires forall k :: k in order ==> k in vars
    ensures var r := DefOutcome(d, tenant, order, vars, hasRepo, repo, now);
      && (r.Ok? <==> !IsBlank(d.sessionId) && ValidateSession(TargetUser(d, tenant), d.agentId, d.sessionId, hasRepo, repo).Success?)
      && (IsBlank(d.sessionId) ==> r == Err(PlainErr(SessionRequired)))
      && (r.Ok? ==> r.value.jobDefId == d.id && r.value.status == JobStatusPending && r.value.triggerAt == now
                    && r.value.tenantUserId == (if d.tenantUserId == [] then tenant else d.tenantUserId)
                    && r.value.agentId == d.agentId && r.value.sessionId == d.sessionId
                    && r.value.prompt == Fill(d.prompt, order, vars))
  {
  }

  /** One more outcome taken by the loop that computes UntilError. */
  lemma UntilErrorStep<T>(rs: seq<Result<T>>, i: int, done: seq<T>)
    requires 0 <= i < |rs|
    requires UntilError(rs) == (UntilError(rs[i..]).0, done + UntilError(rs[i..]).1)
    ensures rs[i].Err? ==> UntilError(rs) == (Failure(rs[i].error), done)
    ensures rs[i].Ok? ==>
      UntilError(rs) == (UntilError(rs[i + 1..]).0, (done + [rs[i].value]) + UntilError(rs[i + 1..]).1)
  {
    assert rs[i..][0] == rs[i] && rs[i..][1..] == rs[i + 1..];
    if rs[i].Err? {
      assert done + [] == done;
    } else {
      var rest := UntilError(rs[i + 1..]).1;
      assert done + ([rs[i].value] + rest) == (done + [rs[i].value]) + rest;
    }
  }

  /** Before the loop that computes UntilError, nothing is taken yet. */
  lemma UntilErrorStart<T>(rs: seq<Result<T>>)
    ensures UntilError(rs) == (UntilError(rs[0..]).0, [] + UntilError(rs[0..]).1)
  {
    assert rs[0..] == rs && [] + UntilError(rs).1 == UntilError(rs).1;
  }

  /** After the loop that computes UntilError, every outcome was a value. */
  lemma UntilErrorEnd<T>(rs: seq<Result<T>>, done: seq<T>)
    requires UntilError(rs) == (UntilError(rs[|rs|..]).0, done + UntilError(rs[|rs|..]).1)
    ensures UntilError(rs) == (Success, done)
  {
    assert rs[|rs|..] == [] && done + [] == done;
  }

  /** The outcome of each definition, in order. */
  function Outcomes(defs: seq<JobDef>, tenant: string, order: seq<string>, vars: map<string, string>,
                    hasRepo: bool, repo: (string, string) -> SessionRead, now: int): (r: seq<Result<JobInst>>)
    requires forall k :: k in order ==> k in vars
    ensures |r| == |defs|
  {
    if defs == [] then []
    else [DefOutcome(defs[0], tenant, order, vars, hasRepo, repo, now)]
         + Outcomes(defs[1..], tenant, order, vars, hasRepo, repo, now)
  }

  /** The i-th outcome is that of the i-th definition. */
  lemma {:induction false} OutcomeAt(defs: seq<JobDef>, tenant: string, order: seq<string>, vars: map<string, string>,
                                     hasRepo: bool, repo: (string, string) -> SessionRead, now: int, i: int)
    requires forall k :: k in order ==> k in vars
    requires 0 <= i < |defs|
    ensures Outcomes(defs, tenant, order, vars, hasRepo, repo, now)[i] == DefOutcome(defs[i], tenant, order, vars, hasRepo, repo, now)
  {
    if i > 0 {
      OutcomeAt(defs[1..], tenant, order, vars, hasRepo, repo, now, i - 1);
    }
  }

  /**
   * Outcomes taken in order up to the first error: the values before it,
   * and the error, or success when there is none.
   */
  function UntilError<T>(rs: seq<Result<T>>): (Status, seq<T>)
  {
    if rs == [] then (Success, [])
    else
      match rs[0]
      case Err(e) => (Failure(e), [])
      case Ok(v) =>
        var rest := UntilError(rs[1..]);
        (rest.0, [v] + rest.1)
  }

  /**
   * The values kept are those of the outcomes before the first error; on
   * success there is none and every value is kept, otherwise the answer is
   * that error.
   */
  lemma {:induction false} UntilErrorPrefix<T>(rs: seq<Result<T>>)
    ensures var r := UntilError(rs);
      && |r.1| <= |rs|
      && (forall i :: 0 <= i < |r.1| ==> rs[i] == Ok(r.1[i]))
      && (r.0.Success? ==> |r.1| == |rs|)
      && (r.0.Failure? ==> |r.1| < |rs| && rs[|r.1|] == Err(r.0.error))
  {
    if rs != [] && rs[0].Ok? {
      UntilErrorPrefix(rs[1..]);
    }
  }

  /**
   * TriggerByEvent given what the two definition queries returned: a failed
   * read of the tenant's definitions is the answer; a failed read of the
   * global ones is ignored.
   */
  function TriggerSpec(userDefs: Result<seq<JobDef>>, globalDefs: Option<seq<JobDef>>, tenant: string,
                       order: seq<string>, vars: map<string, string>,
                       hasRepo: bool, repo: (string, string) -> SessionRead, now: int): (Status, seq<JobInst>)
    requires forall k :: k in order ==> k in vars
  {
    match userDefs
    case Err(e) => (Failure(e), [])
    case Ok(defs) =>
      UntilError(Outcomes(defs + (if globalDefs.Some? then globalDefs.value else []), tenant, order, vars, hasRepo, repo, now))
  }

  /** The body of TriggerByEvent's loop for one definition. */
  method FireDef(def: JobDef, tenant: string, order: seq<string>, vars: map<string, string>,
                 hasRepo: bool, repo: (string, string) -> SessionRead, now: int)
    returns (r: Result<JobInst>)
    requires forall k :: k in order ==> k in vars
    ensures r == DefOutcome(def, tenant, order, vars, hasRepo, repo, now)
  {
    var finalPrompt := FillPrompt(def.prompt, order, vars);
    var targetUser := def.tenantUserId;
    if targetUser == [] {
      targetUser := tenant;
    }
    if IsBlank(def.sessionId) {
      return Err(PlainErr(SessionRequired));
    }
    var v := ValidateSession(targetUser, def.agentId, def.sessionId, hasRepo, repo);
    if v.Failure? {
      return Err(v.error);
    }
    r := Ok(JobInst(def.id, targetUser, def.agentId, def.sessionId, finalPrompt, JobStatusPending, now));
  }

  /**
   * Fire the definitions: `order` lists the variables in the order Go's range
   * visits them. The answer is the error that stopped the loop, if any, and
   * the instances handed to the repository before it.
   */
  method TriggerByEvent(userDefs: Result<seq<JobDef>>, globalDefs: Option<seq<JobDef>>, tenant: string,
                        order: seq<string>, vars: map<string, string>,
                        hasRepo: bool, repo: (string, string) -> SessionRead, now: int)
    returns (st: Status, created: seq<JobInst>)
    requires forall k :: k in order <==> k in vars
    ensures (st, created) == TriggerSpec(userDefs, globalDefs, tenant, order, vars, hasRepo, repo, now)
  {
    if userDefs.Err? {
      return Failure(userDefs.error), [];
    }
    var defs := userDefs.value;
    if globalDefs.Some? {
      defs := defs + globalDefs.value;
    }
    assert defs == userDefs.value + (if globalDefs.Some? then globalDefs.value else []);
    st, created := FireAll(defs, tenant, order, vars, hasRepo, repo, now);
  }

  /** The loop of TriggerByEvent over the definitions found. */
  method FireAll(defs: seq<JobDef>, tenant: string, order: seq<string>, vars: map<string, string>,
                 hasRepo: bool, repo: (string, string) -> SessionRead, now: int)
    returns (st: Status, created: seq<JobInst>)
    requires forall k :: k in order ==> k in vars
    ensures (st, created) == UntilError(Outcomes(defs, tenant, order, vars, hasRepo, repo, now))
  {
    created := [];
    ghost var outs := Outcomes(defs, tenant, order, vars, hasRepo, repo, now);
    UntilErrorStart(outs);
    for i := 0 to |defs|
      invariant UntilError(outs) == (UntilError(outs[i..]).0, created + UntilError(outs[i..]).1)
    {
      var r := FireDef(defs[i], tenant, order, vars, hasRepo, repo, now);
      OutcomeAt(defs, tenant, order, vars, hasRepo, repo, now, i);
      UntilErrorStep(outs, i, created);
      if r.Err? {
        return Failure(r.error), created;
      }
      created := created + [r.value];
    }
    UntilErrorEnd(outs, created);
    st := Success;
  }

  /**
   * With the global query restricted to definitions without an owner, an
   * event of a tenant only ever creates jobs for that tenant, and no
   * definition is in both lists.
   */
  lemma TriggerStaysWithTenant(table: seq<JobDef>, ev: string, tenant: string, globalDefs: Option<seq<JobDef>>,
                               order: seq<string>, vars: map<string, string>,
                               hasRepo: bool, repo: (string, string) -> SessionRead, now: int)
    requires tenant != []
    requires globalDefs == None || globalDefs == Some(GlobalEventDefs(table, ev))
    requires forall k :: k in order ==> k in vars
    ensures forall d :: d in UserEventDefs(table, ev, tenant) ==> d !in GlobalEventDefs(table, ev)
    ensures var created := TriggerSpec(Ok(UserEventDefs(table, ev, tenant)), globalDefs,
                                       tenant, order, vars, hasRepo, repo, now).1;
      forall i :: 0 <= i < |created| ==> created[i].tenantUserId == tenant
  {
    var defs := UserEventDefs(table, ev, tenant) + (if globalDefs.Some? then globalDefs.value else []);
    var outs := Outcomes(defs, tenant, order, vars, hasRepo, repo, now);
    var created := UntilError(outs).1;
    UntilErrorPrefix(outs);
    forall i | 0 <= i < |created|
      ensures created[i].tenantUserId == tenant
    {
      assert defs[i] in defs;
      OutcomeAt(defs, tenant, order, vars, hasRepo, repo, now, i);
      assert outs[i] == Ok(created[i]);
      DefOutcomeIff(defs[i], tenant, order, vars, hasRepo, repo, now);
    }
  }

  lemma ConcatIndex<T>(xs: seq<T>, ys: seq<T>, a: int, b: int)
    requires 0 <= b < |ys|
    ensures 0 <= a < |xs| ==> (xs + ys)[a] == xs[a]
    ensures (xs + ys)[|xs| + b] == ys[b]
  {
  }

  /** When every definition passes, the k-th instance is the k-th definition's job, for its target user. */
  lemma CreatedFrom(defs: seq<JobDef>, tenant: string, order: seq<string>, vars: map<string, string>,
                    hasRepo: bool, repo: (string, string) -> SessionRead, now: int, k: int)
    requires forall k :: k in order ==> k in vars
    requires 0 <= k < |defs|
    ensures var r := UntilError(Outcomes(defs, tenant, order, vars, hasRepo, repo, now));
      r.0.Success? ==> |r.1| == |defs| && r.1[k].jobDefId == defs[k].id && r.1[k].tenantUserId == TargetUser(defs[k], tenant)
  {
    var outs := Outcomes(defs, tenant, order, vars, hasRepo, repo, now);
    UntilErrorPrefix(outs);
    OutcomeAt(defs, tenant, order, vars, hasRepo, repo, now, k);
    DefOutcomeIff(defs[k], tenant, order, vars, hasRepo, repo, now);
  }

  /** Two of the instances `xs` are jobs of definition `id`. */
  predicate HasTwice(xs: seq<JobInst>, id: int)
  {
    exists i, j :: 0 <= i < j < |xs| && xs[i].jobDefId == id && xs[j].jobDefId == id
  }

  /** One of the instances `xs` is a job of definition `id` for user `u`. */
  predicate HasFor(xs: seq<JobInst>, id: int, u: string)
  {
    exists i :: 0 <= i < |xs| && xs[i].jobDefId == id && xs[i].tenantUserId == u
  }

  /** When the trigger over `defs` goes through, `d` has run at two places. */
  predicate RunsTwice(defs: seq<JobDef>, d: JobDef, tenant: string, order: seq<string>,
                      vars: map<string, string>, hasRepo: bool, repo: (string, string) -> SessionRead, now: int)
    requires forall k :: k in order ==> k in vars
  {
    var r := UntilError(Outcomes(defs, tenant, order, vars, hasRepo, repo, now));
    r.0.Success? ==> HasTwice(r.1, d.id)
  }

  /** When the trigger over `defs` goes through, `d` has run for its target user. */
  predicate RunsForOwner(defs: seq<JobDef>, d: JobDef, tenant: string, order: seq<string>,
                         vars: map<string, string>, hasRepo: bool, repo: (string, string) -> SessionRead, now: int)
    requires forall k :: k in order ==> k in vars
  {
    var r := UntilError(Outcomes(defs, tenant, order, vars, hasRepo, repo, now));
    r.0.Success? ==> HasFor(r.1, d.id, TargetUser(d, tenant))
  }

  /** When every definition passes, definitions `a` and `k`, the same one, give two of its jobs. */
  lemma CreatedTwice(defs: seq<JobDef>, tenant: string, order: seq<string>, vars: map<string, string>,
                     hasRepo: bool, repo: (string, string) -> SessionRead, now: int, a: int, k: int)
    requires forall k :: k in order ==> k in vars
    requires 0 <= a < k < |defs| && defs[a] == defs[k]
    ensures RunsTwice(defs, defs[k], tenant, order, vars, hasRepo, repo, now)
  {
    CreatedFrom(defs, tenant, order, vars, hasRepo, repo, now, a);
    CreatedFrom(defs, tenant, order, vars, hasRepo, repo, now, k);
  }

  /** When every definition passes, definition `k` gives a job for its target user. */
  lemma CreatedOnce(defs: seq<JobDef>, tenant: string, order: seq<string>, vars: map<string, string>,
                    hasRepo: bool, repo: (string, string) -> SessionRead, now: int, k: int, d: JobDef)
    requires forall k :: k in order ==> k in vars
    requires 0 <= k < |defs| && defs[k] == d
    ensures RunsForOwner(defs, d, tenant, order, vars, hasRepo, repo, now)
  {
    CreatedFrom(defs, tenant, order, vars, hasRepo, repo, now, k);
  }

  /** A definition in both lists runs twice. */
  lemma BothListsRunTwice(user: seq<JobDef>, all: seq<JobDef>, d: JobDef, tenant: string, order: seq<string>,
                          vars: map<string, string>, hasRepo: bool, repo: (string, string) -> SessionRead, now: int)
    requires forall k :: k in order ==> k in vars
    requires d in user && d in all
    ensures RunsTwice(user + all, d, tenant, order, vars, hasRepo, repo, now)
  {
    var a :| 0 <= a < |user| && user[a] == d;
    var b :| 0 <= b < |all| && all[b] == d;
    ConcatIndex(user, all, a, b);
    CreatedTwice(user + all, tenant, order, vars, hasRepo, repo, now, a, |user| + b);
  }

  /** A definition in the second list runs for its target user. */
  lemma GlobalListRuns(user: seq<JobDef>, all: seq<JobDef>, d: JobDef, tenant: string, order: seq<string>,
                       vars: map<string, string>, hasRepo: bool, repo: (string, string) -> SessionRead, now: int)
    requires forall k :: k in order ==> k in vars
    requires d in all
    ensures RunsForOwner(user + all, d, tenant, order, vars, hasRepo, repo, now)
  {
    var b :| 0 <= b < |all| && all[b] == d;
    ConcatIndex(user, all, 0, b);
    CreatedOnce(user + all, tenant, order, vars, hasRepo, repo, now, |user| + b, d);
  }

  /**
   * As written, the global query returns every tenant's definitions: when
   * the trigger goes through, each definition of the tenant runs twice and
   * each definition of another tenant runs, for that other tenant.
   */
  lemma TriggerAsWrittenRepeatsAndLeaks(table: seq<JobDef>, ev: string, tenant: string,
                                        order: seq<string>, vars: map<string, string>,
                                        hasRepo: bool, repo: (string, string) -> SessionRead, now: int)
    requires forall k :: k in order ==> k in vars
    ensures forall d :: d in table && Listens(d, ev) && d.tenantUserId == tenant ==>
      RunsTwice(UserEventDefs(table, ev, tenant) + EventDefs(table, ev), d, tenant, order, vars, hasRepo, repo, now)
    ensures forall d :: d in table && Listens(d, ev) && d.tenantUserId != tenant && d.tenantUserId != [] ==>
      RunsForOwner(UserEventDefs(table, ev, tenant) + EventDefs(table, ev), d, tenant, order, vars, hasRepo, repo, now)
      && TargetUser(d, tenant) == d.tenantUserId
  {
    var user := UserEventDefs(table, ev, tenant);
    var all := EventDefs(table, ev);
    forall d | d in table && Listens(d, ev) && d.tenantUserId == tenant
      ensures d in user && d in all
    {
    }
    forall d | d in table && Listens(d, ev) && d.tenantUserId != tenant && d.tenantUserId != []
      ensures d in all
    {
    }
    forall d | d in user && d in all
      ensures RunsTwice(user + all, d, tenant, order, vars, hasRepo, repo, now)
    {
      BothListsRunTwice(user, all, d, tenant, order, vars, hasRepo, repo, now);
    }
    forall d | d in all
      ensures RunsForOwner(user + all, d, tenant, order, vars, hasRepo, repo, now)
    {
      GlobalListRuns(user, all, d, tenant, order, vars, hasRepo, repo, now);
    }
  }

  /** A definition of tenant "u" listening for "e", whose session "s" is u's global session. */
  const OwnDef := JobDef(1, "u", "a", "s", "hi", TriggerTypeEvent, "e", true)

  /** A definition of another tenant "w" listening for the same event. */
  const ForeignDef := JobDef(2, "w", "a", "s", "hi", TriggerTypeEvent, "e", true)

  /** A session repository that finds the global session of agent "a" for anyone. */
  function GlobalSessions(s: string, u: string): SessionRead
  {
    Found("a", SystemGlobal)
  }

  lemma SystemGlobalTrimmed()
    ensures TrimSpace(SystemGlobal) == SystemGlobal
  {
    TrimSpaceNoop(SystemGlobal);
  }

  /** Ids without surrounding space pass when the repository finds the agent's global session under them. */
  lemma ValidateSessionPasses(u: string, a: string, s: string, repo: (string, string) -> SessionRead)
    requires TrimSpace(u) == u != [] && TrimSpace(a) == a != [] && TrimSpace(s) == s != []
    requires repo(s, u) == Found(a, SystemGlobal)
    ensures ValidateSession(u, a, s, true, repo) == Success
  {
    SystemGlobalTrimmed();
  }

  /** A definition whose ids need no trimming and whose session passes runs its prompt as written when no variable is given. */
  lemma DefRunsWithoutVars(d: JobDef, tenant: string, repo: (string, string) -> SessionRead, now: int)
    requires TrimSpace(d.tenantUserId) == d.tenantUserId != []
    requires TrimSpace(d.agentId) == d.agentId != [] && TrimSpace(d.sessionId) == d.sessionId != []
    requires repo(d.sessionId, d.tenantUserId) == Found(d.agentId, SystemGlobal)
    ensures DefOutcome(d, tenant, [], map[], true, repo, now)
         == Ok(JobInst(d.id, d.tenantUserId, d.agentId, d.sessionId, d.prompt, JobStatusPending, now))
  {
    ValidateSessionPasses(d.tenantUserId, d.agentId, d.sessionId, repo);
  }

  /** A one-character id that is not white space trims to itself. */
  lemma CharTrimmed(s: string)
    requires |s| == 1 && !IsSpace(s[0])
    ensures TrimSpace(s) == s != []
  {
    TrimSpaceNoop(s);
  }

  /** On a table of a definition of the tenant and one of another tenant, the queries find one and both. */
  lemma PairQueries(d: JobDef, e: JobDef, ev: string, tenant: string)
    requires Listens(d, ev) && Listens(e, ev) && d.tenantUserId == tenant && e.tenantUserId != tenant
    ensures UserEventDefs([d, e], ev, tenant) == [d]
    ensures EventDefs([d, e], ev) == [d, e]
    ensures UserEventDefs([d, e], ev, tenant) + EventDefs([d, e], ev) == [d, d, e]
  {
    var table := [d, e];
    assert table[1..] == [e] && [e][1..] == [];
    assert UserEventDefs([e], ev, tenant) == [] + UserEventDefs([], ev, tenant);
    assert EventDefs([e], ev) == [e] + EventDefs([], ev);
    assert [d] + [] == [d] && [d] + [e] == [d, e] && [e] + [] == [e];
    assert [d] + [d, e] == [d, d, e];
  }

  /** A definition with one-character ids that are not white space, whose session passes, yields its job. */
  lemma DefRunsOneCharIds(d: JobDef, tenant: string, repo: (string, string) -> SessionRead, now: int)
    requires |d.tenantUserId| == 1 && !IsSpace(d.tenantUserId[0])
    requires |d.agentId| == 1 && !IsSpace(d.agentId[0])
    requires |d.sessionId| == 1 && !IsSpace(d.sessionId[0])
    requires repo(d.sessionId, d.tenantUserId) == Found(d.agentId, SystemGlobal)
    ensures DefOutcome(d, tenant, [], map[], true, repo, now)
         == Ok(JobInst(d.id, d.tenantUserId, d.agentId, d.sessionId, d.prompt, JobStatusPending, now))
  {
    CharTrimmed(d.tenantUserId);
    CharTrimmed(d.agentId);
    CharTrimmed(d.sessionId);
    DefRunsWithoutVars(d, tenant, repo, now);
  }

  /** u's sample definition yields its job for u. */
  lemma OwnDefRuns()
    ensures DefOutcome(OwnDef, "u", [], map[], true, GlobalSessions, 0)
         == Ok(JobInst(1, "u", "a", "s", "hi", JobStatusPending, 0))
  {
    DefRunsOneCharIds(OwnDef, "u", GlobalSessions, 0);
  }

  /** w's sample definition yields its job for w, though the event is u's. */
  lemma ForeignDefRuns()
    ensures DefOutcome(ForeignDef, "u", [], map[], true, GlobalSessions, 0)
         == Ok(JobInst(2, "w", "a", "s", "hi", JobStatusPending, 0))
  {
    DefRunsOneCharIds(ForeignDef, "u", GlobalSessions, 0);
  }

  /** A successful first outcome is kept in front of what the rest gives. */
  lemma UntilErrorCons<T>(v: T, rest: seq<Result<T>>)
    ensures UntilError([Ok(v)] + rest) == (UntilError(rest).0, [v] + UntilError(rest).1)
  {
    assert ([Ok(v)] + rest)[1..] == rest;
  }

  /** Three successful outcomes keep all three values. */
  lemma UntilErrorThree<T>(x: T, y: T, z: T)
    ensures UntilError([Ok(x), Ok(y), Ok(z)]) == (Success, [x, y, z])
  {
    UntilErrorCons(z, []);
    assert [Ok(z)] + [] == [Ok(z)] && [z] + [] == [z];
    UntilErrorCons(y, [Ok(z)]);
    assert [Ok(y)] + [Ok(z)] == [Ok(y), Ok(z)];
    UntilErrorCons(x, [Ok(y), Ok(z)]);
    assert [Ok(x)] + [Ok(y), Ok(z)] == [Ok(x), Ok(y), Ok(z)];
    assert [x] + ([y] + [z]) == [x, y, z];
  }

  /** The outcomes of three definitions, when no variable is given. */
  lemma OutcomesOfThree(d1: JobDef, d2: JobDef, d3: JobDef, tenant: string,
                        repo: (string, string) -> SessionRead, now: int)
    ensures Outcomes([d1, d2, d3], tenant, [], map[], true, repo, now)
         == [DefOutcome(d1, tenant, [], map[], true, repo, now), DefOutcome(d2, tenant, [], map[], true, repo, now),
             DefOutcome(d3, tenant, [], map[], true, repo, now)]
  {
    OutcomeAt([d1, d2, d3], tenant, [], map[], true, repo, now, 0);
    OutcomeAt([d1, d2, d3], tenant, [], map[], true, repo, now, 1);
    OutcomeAt([d1, d2, d3], tenant, [], map[], true, repo, now, 2);
  }

  /**
   * As written, an event of a tenant over a table holding one definition of
   * the tenant and one of another tenant, both of which pass, runs the
   * tenant's job twice and the other tenant's job once.
   */
  lemma TriggerAsWrittenPair(d: JobDef, e: JobDef, ev: string, tenant: string,
                             repo: (string, string) -> SessionRead, now: int)
    requires Listens(d, ev) && Listens(e, ev) && d.tenantUserId == tenant && e.tenantUserId != tenant
    requires DefOutcome(d, tenant, [], map[], true, repo, now).Ok?
    requires DefOutcome(e, tenant, [], map[], true, repo, now).Ok?
    ensures var x := DefOutcome(d, tenant, [], map[], true, repo, now).value;
      var y := DefOutcome(e, tenant, [], map[], true, repo, now).value;
      TriggerSpec(Ok(UserEventDefs([d, e], ev, tenant)), Some(EventDefs([d, e], ev)), tenant, [], map[], true, repo, now)
      == (Success, [x, x, y])
  {
    PairQueries(d, e, ev, tenant);
    var x := DefOutcome(d, tenant, [], map[], true, repo, now);
    var y := DefOutcome(e, tenant, [], map[], true, repo, now);
    OutcomesOfThree(d, d, e, tenant, repo, now);
    UntilErrorThree(x.value, x.value, y.value);
  }

  /** The sample: an event of "u" runs u's job twice and runs w's job for w. */
  lemma TriggerAsWrittenSample()
    ensures var table := [OwnDef, ForeignDef];
      TriggerSpec(Ok(UserEventDefs(table, "e", "u")), Some(EventDefs(table, "e")), "u", [], map[],
                  true, GlobalSessions, 0)
      == (Success, [JobInst(1, "u", "a", "s", "hi", JobStatusPending, 0),
                    JobInst(1, "u", "a", "s", "hi", JobStatusPending, 0),
                    JobInst(2, "w", "a", "s", "hi", JobStatusPending, 0)])
  {
    OwnDefRuns();
    ForeignDefRuns();
    assert ForeignDef.tenantUserId != "u" by {
      assert ForeignDef.tenantUserId[0] != "u"[0];
    }
    TriggerAsWrittenPair(OwnDef, ForeignDef, "e", "u", GlobalSessions, 0);
  }

  // ---------------------------------------------------------------------
  // DeactivateJobDef
  // ---------------------------------------------------------------------

  /** The table once definition `id` of `u` is switched off; its past instances are kept. */
  function Deactivated(table: seq<JobDef>, id: int, u: string): (r: seq<JobDef>)
    ensures |r| == |table|
    ensures forall i :: 0 <= i < |table| ==>
      r[i] == (if table[i].id == id && table[i].tenantUserId == u then table[i].(isActive := false) else table[i])
  {
    if table == [] then []
    else [if table[0].id == id && table[0].tenantUserId == u then table[0].(isActive := false) else table[0]]
         + Deactivated(table[1..], id, u)
  }

  /**
   * DeactivateJobDef: an empty user or a non-positive id is a no-op that
   * succeeds; otherwise the repository switches the definition off, or its
   * error is the answer and the table stays.
   */
  function DeactivateSpec(table: seq<JobDef>, userId: string, defId: int, repoErr: Option<Error>): (Status, seq<JobDef>)
  {
    if userId == [] || defId <= 0 then (Success, table)
    else if repoErr.Some? then (Failure(repoErr.value), table)
    else (Success, Deactivated(table, defId, userId))
  }

  /** The no-op cases never reach the repository, even one that would fail. */
  lemma DeactivateNoOp(table: seq<JobDef>, userId: string, defId: int, repoErr: Option<Error>)
    requires userId == [] || defId <= 0
    ensures DeactivateSpec(table, userId, defId, repoErr) == (Success, table)
  {
  }

  /**
   * A switched-off definition no longer fires for its owner's events, nor
   * through the global query; every other definition fires as before.
   */
  lemma {:induction false} DeactivatedStopsFiring(table: seq<JobDef>, defId: int, u: string, ev: string, tenant: string)
    requires u != [] && defId > 0
    ensures var t := DeactivateSpec(table, u, defId, None).1;
      && (forall d :: d in UserEventDefs(t, ev, tenant) ==> !(d.id == defId && d.tenantUserId == u))
      && (forall d :: d in EventDefs(t, ev) ==> !(d.id == defId && d.tenantUserId == u))
      && (forall d :: d in table && !(d.id == defId && d.tenantUserId == u) ==>
            (d in UserEventDefs(t, ev, tenant) <==> d in UserEventDefs(table, ev, tenant)) &&
            (d in EventDefs(t, ev) <==> d in EventDefs(table, ev)))
  {
    var t := Deactivated(table, defId, u);
    forall d | d in t && d.id == defId && d.tenantUserId == u
      ensures !d.isActive
    {
      var i :| 0 <= i < |t| && t[i] == d;
    }
    forall d | d in table && !(d.id == defId && d.tenantUserId == u)
      ensures d in t
    {
      var i :| 0 <= i < |table| && table[i] == d;
      assert t[i] == d;
    }
    forall d | d in t && !(d.id == defId && d.tenantUserId == u)
      ensures d in table
    {
      var i :| 0 <= i < |t| && t[i] == d;
    }
  }

  /** DeactivateJobDef as the service writes it. */
  method DeactivateJobDef(table: seq<JobDef>, userId: string, defId: int, repoErr: Option<Error>)
    returns (st: Status, table': seq<JobDef>)
    ensures (st, table') == DeactivateSpec(table, userId, defId, repoErr)
  {
    if userId == [] || defId <= 0 {
      return Success, table;
    }
    if repoErr.Some? {
      return Failure(repoErr.value), table;
    }
    st := Success;
    table' := Deactivated(table, defId, userId);
  }
}
