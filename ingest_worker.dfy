/**
 * The ingest consumer worker (internal/modules/ai/infrastructure/queue/ingest_consumer_worker.go):
 * how one queue message claims and settles an ingest event, how a backfill job's counters
 * and final status follow, how error messages are scrubbed before they are stored, and how
 * an event is dispatched to its reader. The event and job repositories are in-memory maps;
 * the readers and the ingest pipeline are a parameter that answers nil or an error.
 */
module IngestWorker {
  import opened Common
  import opened GoStrings

  // ---- scrubErrMsg ----

  const MaxErrLen: nat := 255

  /** A message that names a key or a secret: api_key, apikey or secret in any ASCII case, or "sk-". */
  predicate Sensitive(t: string)
  {
    var low := ToLowerAscii(t);
    Contains(low, "api_key") || Contains(low, "apikey") || Contains(low, "secret") || Contains(t, "sk-")
  }

  /**
   * scrubErrMsg: "" for a blank message, "redacted" for a sensitive one,
   * else the trimmed text cut to 255 bytes of UTF-8 (at the last whole rune
   * that fits).
   */
  function ScrubErrMsg(s: string): (r: string)
    ensures IsBlank(s) ==> r == ""
    ensures !IsBlank(s) && Sensitive(TrimSpace(s)) ==> r == "redacted"
    ensures !IsBlank(s) && !Sensitive(TrimSpace(s)) ==>
      && HasPrefix(TrimSpace(s), r)
      && (Utf8Len(TrimSpace(s)) <= MaxErrLen ==> r == TrimSpace(s))
      && (|r| < |TrimSpace(s)| ==> Utf8Len(r) + RuneLen(TrimSpace(s)[|r|]) > MaxErrLen)
    ensures Utf8Len(r) <= MaxErrLen
  {
    var t := TrimSpace(s);
    if t == "" then ""
    else if Sensitive(t) then "redacted"
    else if Utf8Len(t) > MaxErrLen then CutBytes(t, MaxErrLen)
    else t
  }

  lemma {:induction false} ContainsInPrefix(t: string, k: nat, pat: string)
    requires k <= |t| && Contains(t[..k], pat)
    ensures Contains(t, pat)
  {
    ContainsIff(t[..k], pat);
    ContainsIff(t, pat);
    var j :| OccursAt(t[..k], pat, j);
    assert t[..k][j..j + |pat|] == t[j..j + |pat|];
    assert OccursAt(t, pat, j);
  }

  lemma {:induction false} LowerOfPrefix(t: string, k: nat)
    requires k <= |t|
    ensures ToLowerAscii(t[..k]) == ToLowerAscii(t)[..k]
  {
    var x := ToLowerAscii(t[..k]);
    var y := ToLowerAscii(t)[..k];
    assert |x| == |y|;
    forall i | 0 <= i < |x| ensures x[i] == y[i] {
      assert t[..k][i] == t[i];
    }
  }

  /** A prefix of a message that names no secret names none either. */
  lemma {:induction false} PrefixNotSensitive(t: string, k: nat)
    requires k <= |t| && !Sensitive(t)
    ensures !Sensitive(t[..k])
  {
    LowerOfPrefix(t, k);
    var low := ToLowerAscii(t);
    assert ToLowerAscii(t[..k]) == low[..k];
    if Contains(low[..k], "api_key") { ContainsInPrefix(low, k, "api_key"); }
    if Contains(low[..k], "apikey") { ContainsInPrefix(low, k, "apikey"); }
    if Contains(low[..k], "secret") { ContainsInPrefix(low, k, "secret"); }
    if Contains(t[..k], "sk-") { ContainsInPrefix(t, k, "sk-"); }
  }

  /** A pattern with a character the text lacks cannot occur in it. */
  lemma {:induction false} MissingCharNotContained(s: string, pat: string, i: nat)
    requires i < |pat| && pat[i] !in s
    ensures !Contains(s, pat)
  {
    forall j ensures !OccursAt(s, pat, j) {
      if 0 <= j && j + |pat| <= |s| {
        assert s[j..j + |pat|][i] == s[j + i];
        assert s[j + i] in s;
      }
    }
    ContainsIff(s, pat);
  }

  /** A text without upper-case ASCII letters is its own lower case. */
  lemma {:induction false} LowerOfLower(t: string)
    requires forall k :: 0 <= k < |t| ==> !('A' <= t[k] <= 'Z')
    ensures ToLowerAscii(t) == t
  {
    var x := ToLowerAscii(t);
    forall k | 0 <= k < |t| ensures x[k] == t[k] {
    }
  }

  /** "redacted" is already lower case. */
  lemma RedactedIsLower()
    ensures ToLowerAscii("redacted") == "redacted"
  {
    var r := "redacted";
    forall k | 0 <= k < |r| ensures !('A' <= r[k] <= 'Z') {
      assert r[k] in {'r', 'e', 'd', 'a', 'c', 't'};
    }
    LowerOfLower(r);
  }

  /** Neither 'p' nor 's' occurs in "redacted". */
  lemma RedactedLacksPS()
    ensures 'p' !in "redacted" && 's' !in "redacted"
    ensures "api_key"[1] == 'p' && "apikey"[1] == 'p' && "secret"[0] == 's' && "sk-"[0] == 's'
  {
    var r := "redacted";
    forall k | 0 <= k < |r| ensures r[k] in {'r', 'e', 'd', 'a', 'c', 't'} {
    }
  }

  lemma RedactedNotSensitive()
    ensures !Sensitive("redacted")
  {
    RedactedIsLower();
    RedactedLacksPS();
    MissingCharNotContained("redacted", "api_key", 1);
    MissingCharNotContained("redacted", "apikey", 1);
    MissingCharNotContained("redacted", "secret", 0);
    MissingCharNotContained("redacted", "sk-", 0);
  }

  /** What leaves scrubErrMsg never names a key or a secret. */
  lemma ScrubbedNeverSensitive(s: string)
    ensures !Sensitive(ScrubErrMsg(s))
  {
    var t := TrimSpace(s);
    if t == "" {
      assert ScrubErrMsg(s) == "";
      ContainsIff("", "api_key");
      ContainsIff("", "apikey");
      ContainsIff("", "secret");
      ContainsIff("", "sk-");
    } else if Sensitive(t) {
      RedactedNotSensitive();
    } else if Utf8Len(t) > MaxErrLen {
      PrefixNotSensitive(t, |CutBytes(t, MaxErrLen)|);
    } else {
      assert t[..|t|] == t;
      PrefixNotSensitive(t, |t|);
    }
  }

  // ---- events and jobs ----

  /** IngestEventStatus: pending 0, processing 1, succeeded 2, failed -1. */
  datatype EventStatus = EventPending | EventProcessing | EventSucceeded | EventFailed
  {
    function Code(): int
    {
      match this
      case EventPending => 0
      case EventProcessing => 1
      case EventSucceeded => 2
      case EventFailed => -1
    }
  }

  datatype JobStatus = JobRunning | JobSucceeded | JobFailed

  datatype IngestEvent = IngestEvent(eventType: string, tenantUserId: string, sourceType: string, sourceKey: string,
                                     payloadJson: string, backfillJobId: Option<int>, status: EventStatus,
                                     retryCount: int, lastError: string)

  datatype BackfillJob = BackfillJob(totalEvents: int, publishedEvents: int, succeededEvents: int, failedEvents: int,
                                     status: JobStatus)

  /** Both repositories, keyed by id. */
  datatype Stores = Stores(events: map<int, IngestEvent>, jobs: map<int, BackfillJob>)

  /** The repository calls whose error Handle returns; None means the call succeeds. */
  datatype Faults = Faults(getEvent: Option<Error>, claim: Option<Error>, markSucceeded: Option<Error>)

  /** TryMarkProcessing claims only a pending or failed event. */
  predicate Claimable(ev: IngestEvent) { ev.status == EventPending || ev.status == EventFailed }

  function ClaimSpec(s: Stores, id: int): Stores
    requires id in s.events
  {
    s.(events := s.events[id := s.events[id].(status := EventProcessing, lastError := "")])
  }

  /** The text MarkFailed stores for an error message: trimmed, then cut to 255 bytes of UTF-8. */
  function StoredError(msg: string): (r: string)
    ensures Utf8Len(r) <= MaxErrLen && HasPrefix(TrimSpace(msg), r)
    ensures Utf8Len(TrimSpace(msg)) <= MaxErrLen ==> r == TrimSpace(msg)
  {
    var t := TrimSpace(msg);
    if Utf8Len(t) > MaxErrLen then CutBytes(t, MaxErrLen) else t
  }

  /** MarkFailed: the event is failed with the stored text `stored`, and counts one more retry. */
  function MarkFailedSpec(s: Stores, id: int, stored: string): Stores
  {
    if id !in s.events then s
    else
      s.(events := s.events[id := s.events[id].(status := EventFailed, retryCount := s.events[id].retryCount + 1,
                                                lastError := stored)])
  }

  function MarkSucceededSpec(s: Stores, id: int): Stores
  {
    if id !in s.events then s
    else s.(events := s.events[id := s.events[id].(status := EventSucceeded, lastError := "")])
  }

  /** AddCounters(job, 0, 0, succeeded, failed): an update of a missing job changes nothing. */
  function AddCountersSpec(s: Stores, jobID: int, succeeded: int, failed: int): Stores
  {
    if jobID !in s.jobs then s
    else
      var j := s.jobs[jobID];
      s.(jobs := s.jobs[jobID := j.(succeededEvents := j.succeededEvents + succeeded, failedEvents := j.failedEvents + failed)])
  }

  /** The status a finished job ends with. */
  function FinalStatus(j: BackfillJob): JobStatus
  {
    if j.failedEvents > 0 then JobFailed else JobSucceeded
  }

  /** Whether every event of the job has been settled. */
  predicate Finished(j: BackfillJob)
  {
    j.totalEvents > 0 && j.succeededEvents + j.failedEvents >= j.totalEvents
  }

  /** tryFinalizeJob: a finished job gets its final status; anything else is left alone. */
  function FinalizeSpec(s: Stores, jobID: int, hasJobRepo: bool): Stores
  {
    if !hasJobRepo || jobID <= 0 || jobID !in s.jobs then s
    else if !Finished(s.jobs[jobID]) then s
    else s.(jobs := s.jobs[jobID := s.jobs[jobID].(status := FinalStatus(s.jobs[jobID]))])
  }

  /** The job bookkeeping after an event settles: count it, then try to finalize. */
  function SettleJobSpec(s: Stores, job: Option<int>, hasJobRepo: bool, succeeded: int, failed: int): Stores
  {
    if hasJobRepo && job.Some? then FinalizeSpec(AddCountersSpec(s, job.value, succeeded, failed), job.value, hasJobRepo)
    else s
  }

  /** The event id a queue message carries: its trimmed value parsed as a positive int64. */
  function EventId(value: string): (r: Option<int>)
    ensures r.Some? ==> r.value > 0 && ParseInt64(TrimSpace(value)) == r
  {
    var id := ParseInt64(TrimSpace(value));
    if id.None? || id.value <= 0 then None else id
  }

  /**
   * Handle: parse the event id from the message, skip what is invalid, missing, already done
   * or claimed elsewhere, run the event, and settle it as failed or succeeded.
   * `process` stands for processEvent; only the three repository faults are returned.
   */
  function HandleSpec(s: Stores, value: string, hasJobRepo: bool, faults: Faults, process: IngestEvent -> Status)
    : (Stores, Status)
  {
    match EventId(value)
    case None => (s, Success)
    case Some(id) => HandleIdSpec(s, id, hasJobRepo, faults, process)
  }

  /** Handle once the id is known: look the event up and claim it. */
  function HandleIdSpec(s: Stores, id: int, hasJobRepo: bool, faults: Faults, process: IngestEvent -> Status)
    : (Stores, Status)
  {
    if faults.getEvent.Some? then (s, Failure(faults.getEvent.value))
    else if id !in s.events then (s, Success)
    else
      var ev := s.events[id];
      if ev.status == EventSucceeded then (s, Success)
      else if faults.claim.Some? then (s, Failure(faults.claim.value))
      else if !Claimable(ev) then (s, Success)
      else RunSpec(ClaimSpec(s, id), id, ev, hasJobRepo, faults, process)
  }

  /** Handle once the event `ev` is claimed: run it and settle it. */
  function RunSpec(s: Stores, id: int, ev: IngestEvent, hasJobRepo: bool, faults: Faults, process: IngestEvent -> Status)
    : (Stores, Status)
  {
    match process(ev)
    case Failure(e) => (FailSpec(s, id, ev.backfillJobId, hasJobRepo, e.msg), Success)
    case Success =>
      if faults.markSucceeded.Some? then (s, Failure(faults.markSucceeded.value))
      else (SettleJobSpec(MarkSucceededSpec(s, id), ev.backfillJobId, hasJobRepo, 1, 0), Success)
  }

  /** A failed run: the event is marked failed with the scrubbed message, and its job counts one failure. */
  function FailSpec(s: Stores, id: int, job: Option<int>, hasJobRepo: bool, msg: string): Stores
  {
    SettleJobSpec(MarkFailedSpec(s, id, StoredError(ScrubErrMsg(msg))), job, hasJobRepo, 0, 1)
  }

  // ---- properties of Handle ----

  /** An id that does not parse as a positive int64 is acknowledged without touching anything. */
  lemma InvalidIdSkipped(s: Stores, value: string, hasJobRepo: bool, faults: Faults, process: IngestEvent -> Status)
    requires var id := ParseInt64(TrimSpace(value)); id.None? || id.value <= 0
    ensures HandleSpec(s, value, hasJobRepo, faults, process) == (s, Success)
  {
  }

  /** A message is only ever answered with an error when a repository call failed. */
  lemma ErrorsComeFromRepositories(s: Stores, value: string, hasJobRepo: bool, faults: Faults,
                                   process: IngestEvent -> Status)
    ensures HandleSpec(s, value, hasJobRepo, faults, process).1.Failure? ==>
      faults.getEvent.Some? || faults.claim.Some? || faults.markSucceeded.Some?
    ensures faults == Faults(None, None, None) ==> HandleSpec(s, value, hasJobRepo, faults, process).1 == Success
  {
  }

  /** Events already succeeded, or held by another worker, are skipped with nil and left as they are. */
  lemma SettledOrClaimedSkipped(s: Stores, value: string, hasJobRepo: bool, faults: Faults,
                                process: IngestEvent -> Status, id: int)
    requires EventId(value) == Some(id) && faults.getEvent.None? && id in s.events
    requires s.events[id].status == EventSucceeded || (faults.claim.None? && s.events[id].status == EventProcessing)
    ensures HandleSpec(s, value, hasJobRepo, faults, process) == (s, Success)
  {
  }

  /**
   * A failed run marks the event failed with the scrubbed message, counts one more retry and
   * exactly one more failure on its job, and is still acknowledged with nil.
   */
  lemma FailedRunSettles(s: Stores, value: string, hasJobRepo: bool, faults: Faults,
                         process: IngestEvent -> Status, id: int, e: Error)
    requires EventId(value) == Some(id) && faults.getEvent.None? && faults.claim.None?
    requires id in s.events && Claimable(s.events[id]) && process(s.events[id]) == Failure(e)
    ensures var (s', r) := HandleSpec(s, value, hasJobRepo, faults, process);
      var ev := s.events[id];
      r == Success && id in s'.events && s'.events[id].status == EventFailed &&
      s'.events[id].retryCount == ev.retryCount + 1 &&
      !Sensitive(s'.events[id].lastError) &&
      (hasJobRepo && ev.backfillJobId.Some? && ev.backfillJobId.value in s.jobs ==>
        var jid := ev.backfillJobId.value;
        jid in s'.jobs &&
        s'.jobs[jid].failedEvents == s.jobs[jid].failedEvents + 1 &&
        s'.jobs[jid].succeededEvents == s.jobs[jid].succeededEvents)
  {
    var ev := s.events[id];
    var claimed := ClaimSpec(s, id);
    assert HandleSpec(s, value, hasJobRepo, faults, process) == (FailSpec(claimed, id, ev.backfillJobId, hasJobRepo, e.msg), Success);
    var stored := StoredError(ScrubErrMsg(e.msg));
    StoredErrorNeverSensitive(e.msg);
    FailCountsJob(claimed, id, ev.backfillJobId, hasJobRepo, stored);
  }

  /** What MarkFailed stores for a scrubbed message never names a key or a secret. */
  lemma StoredErrorNeverSensitive(msg: string)
    ensures !Sensitive(StoredError(ScrubErrMsg(msg)))
  {
    ScrubbedNeverSensitive(msg);
    StoredScrubNotSensitive(ScrubErrMsg(msg));
  }

  /** A failed event keeps its place, counts one more retry, and its job exactly one more failure. */
  lemma FailCountsJob(s: Stores, id: int, job: Option<int>, hasJobRepo: bool, stored: string)
    requires id in s.events
    ensures var s' := SettleJobSpec(MarkFailedSpec(s, id, stored), job, hasJobRepo, 0, 1);
      id in s'.events && s'.events[id].status == EventFailed && s'.events[id].lastError == stored &&
      s'.events[id].retryCount == s.events[id].retryCount + 1 &&
      (hasJobRepo && job.Some? && job.value in s.jobs ==>
        job.value in s'.jobs &&
        s'.jobs[job.value].failedEvents == s.jobs[job.value].failedEvents + 1 &&
        s'.jobs[job.value].succeededEvents == s.jobs[job.value].succeededEvents)
  {
  }

  /** Storing a message that names no secret (trim, cut to 255 bytes) cannot make it name one. */
  lemma {:induction false} StoredScrubNotSensitive(m: string)
    requires !Sensitive(m)
    ensures !Sensitive(StoredError(m))
  {
    var a := TrimIsSlice(m);
    SliceNotSensitive(m, a, TrimSpace(m));
    CutNotSensitive(TrimSpace(m));
  }

  /** Cutting a message that names no secret to 255 bytes keeps it so. */
  lemma {:induction false} CutNotSensitive(t: string)
    requires !Sensitive(t)
    ensures !Sensitive(if Utf8Len(t) > MaxErrLen then CutBytes(t, MaxErrLen) else t)
  {
    if Utf8Len(t) > MaxErrLen {
      PrefixNotSensitive(t, |CutBytes(t, MaxErrLen)|);
    }
  }

  /** TrimSpace keeps a contiguous piece of its input. */
  lemma {:induction false} TrimIsSlice(m: string) returns (a: nat)
    ensures a + |TrimSpace(m)| <= |m| && TrimSpace(m) == m[a..a + |TrimSpace(m)|]
  {
    var l := TrimLeft(m);
    var r := TrimRight(l);
    a := |m| - |l|;
    assert l == m[a..];
    assert r == l[..|r|];
    assert r == m[a..a + |r|];
  }

  /** A piece `u` of a message that names no secret names none either. */
  lemma {:induction false} SliceNotSensitive(t: string, a: nat, u: string)
    requires a + |u| <= |t| && u == t[a..a + |u|] && !Sensitive(t)
    ensures !Sensitive(u)
  {
    var b := a + |u|;
    PrefixNotSensitive(t, b);
    SuffixNotSensitive(t[..b], a);
    assert t[..b][a..] == u;
  }

  lemma {:induction false} SuffixNotSensitive(t: string, a: nat)
    requires a <= |t| && !Sensitive(t)
    ensures !Sensitive(t[a..])
  {
    LowerOfSuffix(t, a);
    var low := ToLowerAscii(t);
    assert ToLowerAscii(t[a..]) == low[a..];
    if Contains(low[a..], "api_key") { ContainsInSuffix(low, a, "api_key"); }
    if Contains(low[a..], "apikey") { ContainsInSuffix(low, a, "apikey"); }
    if Contains(low[a..], "secret") { ContainsInSuffix(low, a, "secret"); }
    if Contains(t[a..], "sk-") { ContainsInSuffix(t, a, "sk-"); }
  }

  lemma {:induction false} LowerOfSuffix(t: string, a: nat)
    requires a <= |t|
    ensures ToLowerAscii(t[a..]) == ToLowerAscii(t)[a..]
  {
    var x := ToLowerAscii(t[a..]);
    var y := ToLowerAscii(t)[a..];
    assert |x| == |y|;
    forall i | 0 <= i < |x| ensures x[i] == y[i] {
      assert t[a..][i] == t[a + i];
    }
  }

  lemma {:induction false} ContainsInSuffix(t: string, a: nat, pat: string)
    requires a <= |t| && Contains(t[a..], pat)
    ensures Contains(t, pat)
  {
    ContainsIff(t[a..], pat);
    ContainsIff(t, pat);
    var j :| OccursAt(t[a..], pat, j);
    assert t[a..][j..j + |pat|] == t[a + j..a + j + |pat|];
    assert OccursAt(t, pat, a + j);
  }

  /** A successful run marks the event succeeded and counts exactly one more success on its job. */
  lemma SucceededRunSettles(s: Stores, value: string, hasJobRepo: bool, faults: Faults,
                            process: IngestEvent -> Status, id: int)
    requires EventId(value) == Some(id) && faults == Faults(None, None, None)
    requires id in s.events && Claimable(s.events[id]) && process(s.events[id]) == Success
    ensures var (s', r) := HandleSpec(s, value, hasJobRepo, faults, process);
      var ev := s.events[id];
      r == Success && id in s'.events && s'.events[id].status == EventSucceeded && s'.events[id].lastError == "" &&
      (hasJobRepo && ev.backfillJobId.Some? && ev.backfillJobId.value in s.jobs ==>
        var jid := ev.backfillJobId.value;
        jid in s'.jobs &&
        s'.jobs[jid].succeededEvents == s.jobs[jid].succeededEvents + 1 &&
        s'.jobs[jid].failedEvents == s.jobs[jid].failedEvents)
  {
    var ev := s.events[id];
    var claimed := ClaimSpec(s, id);
    var s' := SettleJobSpec(MarkSucceededSpec(claimed, id), ev.backfillJobId, hasJobRepo, 1, 0);
    assert HandleSpec(s, value, hasJobRepo, faults, process) == (s', Success);
    SucceedCountsJob(claimed, id, ev.backfillJobId, hasJobRepo);
  }

  /** A succeeded event keeps its place with no error, and its job counts exactly one more success. */
  lemma SucceedCountsJob(s: Stores, id: int, job: Option<int>, hasJobRepo: bool)
    requires id in s.events
    ensures var s' := SettleJobSpec(MarkSucceededSpec(s, id), job, hasJobRepo, 1, 0);
      id in s'.events && s'.events[id].status == EventSucceeded && s'.events[id].lastError == "" &&
      (hasJobRepo && job.Some? && job.value in s.jobs ==>
        job.value in s'.jobs &&
        s'.jobs[job.value].succeededEvents == s.jobs[job.value].succeededEvents + 1 &&
        s'.jobs[job.value].failedEvents == s.jobs[job.value].failedEvents)
  {
  }

  /** Handling one message touches at most its own event and that event's job; no record appears or vanishes. */
  lemma HandleIsLocal(s: Stores, value: string, hasJobRepo: bool, faults: Faults, process: IngestEvent -> Status)
    ensures var (s', _) := HandleSpec(s, value, hasJobRepo, faults, process);
      s'.events.Keys == s.events.Keys && s'.jobs.Keys == s.jobs.Keys &&
      (forall k :: k in s.events && Some(k) != EventId(value) ==> s'.events[k] == s.events[k]) &&
      (forall k :: k in s.jobs && s'.jobs[k] != s.jobs[k] ==>
         EventId(value).Some? && EventId(value).value in s.events &&
         s.events[EventId(value).value].backfillJobId == Some(k))
  {
    match EventId(value)
    case None =>
    case Some(id) => HandleIdIsLocal(s, id, hasJobRepo, faults, process);
  }

  lemma HandleIdIsLocal(s: Stores, id: int, hasJobRepo: bool, faults: Faults, process: IngestEvent -> Status)
    ensures var (s', _) := HandleIdSpec(s, id, hasJobRepo, faults, process);
      s'.events.Keys == s.events.Keys && s'.jobs.Keys == s.jobs.Keys &&
      (forall k :: k in s.events && k != id ==> s'.events[k] == s.events[k]) &&
      (forall k :: k in s.jobs && s'.jobs[k] != s.jobs[k] ==>
         id in s.events && s.events[id].backfillJobId == Some(k))
  {
    if faults.getEvent.None? && id in s.events && s.events[id].status != EventSucceeded && faults.claim.None?
       && Claimable(s.events[id]) {
      RunIsLocal(ClaimSpec(s, id), id, s.events[id], hasJobRepo, faults, process);
    }
  }

  lemma RunIsLocal(s: Stores, id: int, ev: IngestEvent, hasJobRepo: bool, faults: Faults, process: IngestEvent -> Status)
    ensures var (s', _) := RunSpec(s, id, ev, hasJobRepo, faults, process);
      s'.events.Keys == s.events.Keys && s'.jobs.Keys == s.jobs.Keys &&
      (forall k :: k in s.events && k != id ==> s'.events[k] == s.events[k]) &&
      (forall k :: k in s.jobs && s'.jobs[k] != s.jobs[k] ==> ev.backfillJobId == Some(k))
  {
    match process(ev)
    case Failure(e) =>
      SettleAfterMarkIsLocal(MarkFailedSpec(s, id, StoredError(ScrubErrMsg(e.msg))), s, id, ev.backfillJobId, hasJobRepo, 0, 1);
    case Success =>
      SettleAfterMarkIsLocal(MarkSucceededSpec(s, id), s, id, ev.backfillJobId, hasJobRepo, 1, 0);
  }

  /** Marking event `id`, then settling its job: only that event and that job can change. */
  lemma SettleAfterMarkIsLocal(m: Stores, s: Stores, id: int, job: Option<int>, hasJobRepo: bool,
                               succeeded: int, failed: int)
    requires m.jobs == s.jobs && m.events.Keys == s.events.Keys
    requires forall k :: k in s.events && k != id ==> m.events[k] == s.events[k]
    ensures var s' := SettleJobSpec(m, job, hasJobRepo, succeeded, failed);
      s'.events.Keys == s.events.Keys && s'.jobs.Keys == s.jobs.Keys &&
      (forall k :: k in s.events && k != id ==> s'.events[k] == s.events[k]) &&
      (forall k :: k in s.jobs && s'.jobs[k] != s.jobs[k] ==> job == Some(k))
  {
    SettleIsLocal(m, job, hasJobRepo, succeeded, failed);
  }

  /** The job bookkeeping changes no event and at most the one job it names. */
  lemma SettleIsLocal(s: Stores, job: Option<int>, hasJobRepo: bool, succeeded: int, failed: int)
    ensures var s' := SettleJobSpec(s, job, hasJobRepo, succeeded, failed);
      s'.events == s.events && s'.jobs.Keys == s.jobs.Keys &&
      forall k :: k in s.jobs && s'.jobs[k] != s.jobs[k] ==> job == Some(k)
  {
  }

  /**
   * tryFinalizeJob changes a job only once all its events are settled, and then the job
   * is failed exactly when at least one event failed.
   */
  lemma FinalizeOnlyWhenDone(s: Stores, jobID: int, hasJobRepo: bool)
    requires jobID in s.jobs
    ensures var s' := FinalizeSpec(s, jobID, hasJobRepo);
      s'.jobs.Keys == s.jobs.Keys && s'.events == s.events &&
      (s'.jobs[jobID] != s.jobs[jobID] ==> hasJobRepo && jobID > 0 && Finished(s.jobs[jobID])) &&
      (hasJobRepo && jobID > 0 && Finished(s.jobs[jobID]) ==>
        (s'.jobs[jobID].status == JobFailed <==> s.jobs[jobID].failedEvents > 0) &&
        (s'.jobs[jobID].status == JobSucceeded <==> s.jobs[jobID].failedEvents <= 0))
  {
  }

  // ---- the worker ----

  /** The worker and the repositories it writes: events by id and backfill jobs by id. */
  class IngestConsumerWorker {
    var events: map<int, IngestEvent>
    var jobs: map<int, BackfillJob>
    /** Whether a job repository was wired in. */
    const hasJobRepo: bool

    constructor(events: map<int, IngestEvent>, jobs: map<int, BackfillJob>, hasJobRepo: bool)
      ensures this.events == events && this.jobs == jobs && this.hasJobRepo == hasJobRepo
    {
      this.events := events;
      this.jobs := jobs;
      this.hasJobRepo := hasJobRepo;
    }

    function State(): Stores
      reads this
    {
      Stores(events, jobs)
    }

    /** tryFinalizeJob */
    method TryFinalizeJob(jobID: int)
      modifies this
      ensures State() == FinalizeSpec(old(State()), jobID, hasJobRepo)
    {
      if !hasJobRepo || jobID <= 0 {
        return;
      }
      if jobID !in jobs {
        return;
      }
      var j := jobs[jobID];
      if j.totalEvents <= 0 {
        return;
      }
      var done := j.succeededEvents + j.failedEvents;
      if done < j.totalEvents {
        return;
      }
      var status := JobSucceeded;
      if j.failedEvents > 0 {
        status := JobFailed;
      }
      jobs := jobs[jobID := j.(status := status)];
    }

    /** The job bookkeeping of Handle: AddCounters, then tryFinalizeJob. */
    method SettleJob(job: Option<int>, succeeded: int, failed: int)
      modifies this
      ensures State() == SettleJobSpec(old(State()), job, hasJobRepo, succeeded, failed)
    {
      if hasJobRepo && job.Some? {
        var jobID := job.value;
        if jobID in jobs {
          var j := jobs[jobID];
          jobs := jobs[jobID := j.(succeededEvents := j.succeededEvents + succeeded, failedEvents := j.failedEvents + failed)];
        }
        TryFinalizeJob(jobID);
      }
    }

    /** Handle: one queue message carrying an event id. */
    method Handle(value: string, faults: Faults, process: IngestEvent -> Status) returns (r: Status)
      modifies this
      ensures (State(), r) == HandleSpec(old(State()), value, hasJobRepo, faults, process)
    {
      var parsed := ParseInt64(TrimSpace(value));
      if parsed.None? || parsed.value <= 0 {
        return Success;
      }
      r := HandleId(parsed.value, faults, process);
    }

    /** Handle once the id is known: load the event, claim it, run it. */
    method HandleId(id: int, faults: Faults, process: IngestEvent -> Status) returns (r: Status)
      modifies this
      ensures (State(), r) == HandleIdSpec(old(State()), id, hasJobRepo, faults, process)
    {
      if faults.getEvent.Some? {
        return Failure(faults.getEvent.value);
      }
      if id !in events {
        return Success;
      }
      var ev := events[id];
      if ev.status == EventSucceeded {
        return Success;
      }
      if faults.claim.Some? {
        return Failure(faults.claim.value);
      }
      if !(ev.status == EventPending || ev.status == EventFailed) {
        return Success;
      }
      events := events[id := ev.(status := EventProcessing, lastError := "")];
      r := Run(id, ev, faults, process);
    }

    /** Run the claimed event and settle it as failed or succeeded. */
    method Run(id: int, ev: IngestEvent, faults: Faults, process: IngestEvent -> Status) returns (r: Status)
      modifies this
      ensures (State(), r) == RunSpec(old(State()), id, ev, hasJobRepo, faults, process)
    {
      var procErr := process(ev);
      if procErr.Failure? {
        MarkFailed(id, ScrubErrMsg(procErr.error.msg));
        SettleJob(ev.backfillJobId, 0, 1);
        return Success;
      }
      if faults.markSucceeded.Some? {
        return Failure(faults.markSucceeded.value);
      }
      if id in events {
        events := events[id := events[id].(status := EventSucceeded, lastError := "")];
      }
      SettleJob(ev.backfillJobId, 1, 0);
      return Success;
    }

    /** MarkFailed: the message trimmed and cut to 255 bytes, one more retry. */
    method MarkFailed(id: int, errMsg: string)
      modifies this
      ensures State() == MarkFailedSpec(old(State()), id, StoredError(errMsg))
    {
      if id !in events {
        return;
      }
      var msg := TrimSpace(errMsg);
      if Utf8Len(msg) > MaxErrLen {
        msg := CutBytes(msg, MaxErrLen);
      }
      var e := events[id];
      events := events[id := e.(status := EventFailed, retryCount := e.retryCount + 1, lastError := msg)];
    }
  }

  // ---- processEvent dispatch and the chat page ----

  const MaxChatPageSize: int := 200

  /** The page and page size a chat_messages_page event reads: page at least 1, size in [1, 200], default 200. */
  function ClampChatPage(page: int, pageSize: int): (r: (int, int))
    ensures r.0 >= 1 && 1 <= r.1 <= MaxChatPageSize
    ensures page > 0 ==> r.0 == page
    ensures 0 < pageSize <= MaxChatPageSize ==> r.1 == pageSize
    ensures pageSize <= 0 || pageSize > MaxChatPageSize ==> r.1 == MaxChatPageSize
  {
    var page := if page <= 0 then 1 else page;
    var size := if pageSize <= 0 then 200 else pageSize;
    var size := if size > 200 then 200 else size;
    (page, size)
  }

  /** The fields of an event payload that the dispatch reads (absent fields decode as their zero value). */
  datatype Payload = Payload(contactId: string, groupId: string, sessionUuid: string, targetId: string,
                             page: int, pageSize: int)

  /** What processEvent goes on to read and ingest for an event. */
  datatype Plan =
    | ReadSelfProfile(sourceKey: string)
    | ReadContactProfile(contactId: string)
    | ReadGroupProfile(groupId: string)
    | ReadChatPage(sessionUuid: string, targetId: string, page: int, pageSize: int)

  /** The payload id when it is not blank, else the event's source key, both trimmed. */
  function IdOrSourceKey(payloadId: string, sourceKey: string): string
  {
    if IsBlank(payloadId) then TrimSpace(sourceKey) else TrimSpace(payloadId)
  }

  /**
   * The dispatch of processEvent on the trimmed event type, with the id fallbacks and the
   * "missing ..." errors; `decode` stands for json.Unmarshal of the payload.
   */
  function PlanEvent(ev: IngestEvent, decode: string -> Result<Payload>): (r: Result<Plan>)
    ensures r.Ok? ==> TrimSpace(ev.eventType) in ["self_profile", "contact_profile", "group_profile", "chat_messages_page"]
    ensures r.Ok? && r.value.ReadChatPage? ==> 1 <= r.value.pageSize <= MaxChatPageSize && r.value.page >= 1
    ensures r.Ok? && r.value.ReadContactProfile? ==> r.value.contactId != ""
    ensures r.Ok? && r.value.ReadGroupProfile? ==> r.value.groupId != ""
    ensures r.Ok? && r.value.ReadChatPage? ==> r.value.sessionUuid != "" && r.value.targetId != ""
  {
    var kind := TrimSpace(ev.eventType);
    if kind == "self_profile" then Ok(ReadSelfProfile(TrimSpace(ev.sourceKey)))
    else if kind !in ["contact_profile", "group_profile", "chat_messages_page"] then Err(PlainErr("unknown event_type"))
    else match decode(ev.payloadJson)
      case Err(e) => Err(e)
      case Ok(p) =>
        if kind == "contact_profile" then
          var cid := IdOrSourceKey(p.contactId, ev.sourceKey);
          if cid == "" then Err(PlainErr("missing contact_id")) else Ok(ReadContactProfile(cid))
        else if kind == "group_profile" then
          var gid := IdOrSourceKey(p.groupId, ev.sourceKey);
          if gid == "" then Err(PlainErr("missing group_id")) else Ok(ReadGroupProfile(gid))
        else
          var sess := TrimSpace(p.sessionUuid);
          if sess == "" then Err(PlainErr("missing session_uuid"))
          else
            var target := IdOrSourceKey(p.targetId, ev.sourceKey);
            if target == "" then Err(PlainErr("missing target_id"))
            else
              var (page, size) := ClampChatPage(p.page, p.pageSize);
              Ok(ReadChatPage(sess, target, page, size))
  }

  /** The payload's id wins when it is not blank; a blank one falls back to the source key. */
  lemma IdFallback(payloadId: string, sourceKey: string)
    ensures !IsBlank(payloadId) ==> IdOrSourceKey(payloadId, sourceKey) == TrimSpace(payloadId)
    ensures IsBlank(payloadId) ==> IdOrSourceKey(payloadId, sourceKey) == TrimSpace(sourceKey)
    ensures IdOrSourceKey(payloadId, sourceKey) == "" <==> IsBlank(payloadId) && IsBlank(sourceKey)
  {
  }
}
