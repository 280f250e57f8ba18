/**
 * The outbox relay (internal/modules/ai/infrastructure/queue/outbox_relay.go):
 * it claims pending ingest events, publishes each to its topic and records the
 * outcome, retrying failed publishes with an exponential delay. Durations and
 * instants are whole milliseconds.
 */
module Outbox {
  import opened Common
  import opened Seqs
  import opened GoStrings

  const DefaultBatchSize: int := 200
  const DefaultPollIntervalMs: int := 500
  const BaseRetryDelayMs: int := 500
  const MaxRetryDelayMs: int := 300_000
  const MaxBackoffMs: int := 30_000
  const EmptyTopicRetryMs: int := 300_000
  const EmptyTopicReason: string := "kafka topic is empty"

  /** The relay's configuration; none of it changes after construction. */
  datatype OutboxRelay = OutboxRelay(defaultTopic: string, batchSize: int, pollIntervalMs: int)

  /** NewOutboxRelay: positive defaults for the batch size and poll interval, a trimmed topic. */
  function NewOutboxRelay(defaultTopic: string, batchSize: int, pollIntervalMs: int): (r: OutboxRelay)
    ensures r.batchSize > 0 && r.pollIntervalMs > 0
    ensures r.batchSize == if batchSize <= 0 then DefaultBatchSize else batchSize
    ensures r.pollIntervalMs == if pollIntervalMs <= 0 then DefaultPollIntervalMs else pollIntervalMs
    ensures r.defaultTopic == TrimSpace(defaultTopic)
  {
    OutboxRelay(TrimSpace(defaultTopic), if batchSize <= 0 then DefaultBatchSize else batchSize,
                if pollIntervalMs <= 0 then DefaultPollIntervalMs else pollIntervalMs)
  }

  // ------------------------------------------------------------ retry delay

  function Pow2(n: nat): (r: nat)
    ensures r >= 1
  {
    if n == 0 then 1 else 2 * Pow2(n - 1)
  }

  /** The delay before the next publish attempt: 500ms doubled per retry, at most 5 minutes. */
  function RetryDelay(retryCount: int): (d: int)
    ensures BaseRetryDelayMs <= d <= MaxRetryDelayMs
    ensures retryCount <= 0 ==> d == BaseRetryDelayMs
  {
    Min(BaseRetryDelayMs * Pow2(if retryCount < 0 then 0 else retryCount), MaxRetryDelayMs)
  }

  /** computeNextRetry: the doubling loop stops early once the cap is reached. */
  method ComputeNextRetry(now: int, retryCount: int) returns (next: int)
    ensures next == now + RetryDelay(retryCount)
  {
    var r := retryCount;
    if r < 0 {
      r := 0;
    }
    var d := BaseRetryDelayMs;
    var i := 0;
    while i < r && d < MaxRetryDelayMs
      invariant 0 <= i <= r
      invariant d == BaseRetryDelayMs * Pow2(i)
    {
      d := d * 2;
      i := i + 1;
    }
    if i < r {
      CappedStaysCapped(i, r);
    }
    if d > MaxRetryDelayMs {
      d := MaxRetryDelayMs;
    }
    next := now + d;
  }

  /** Once the doubled delay reaches the cap, more doublings leave the capped value unchanged. */
  lemma {:induction false} CappedStaysCapped(i: nat, r: nat)
    requires i <= r && BaseRetryDelayMs * Pow2(i) >= MaxRetryDelayMs
    ensures Min(BaseRetryDelayMs * Pow2(r), MaxRetryDelayMs) == MaxRetryDelayMs
    decreases r - i
  {
    if i < r {
      CappedStaysCapped(i + 1, r);
    }
  }

  /** The delay is between 500ms and 5 minutes, and never shrinks as the retry count grows. */
  lemma RetryDelayMonotone(a: int, b: int)
    requires a <= b
    ensures BaseRetryDelayMs <= RetryDelay(a) <= RetryDelay(b) <= MaxRetryDelayMs
  {
    Pow2Monotone(if a < 0 then 0 else a, if b < 0 then 0 else b);
  }

  lemma {:induction false} Pow2Monotone(a: nat, b: nat)
    requires a <= b
    ensures Pow2(a) <= Pow2(b)
    decreases b - a
  {
    if a < b {
      Pow2Monotone(a + 1, b);
    }
  }

  // ------------------------------------------------------------ strconvInt64

  /** Two's-complement negation of a 64-bit value: the negation of MinInt64 is itself. */
  function Neg64(n: int): (r: int)
    requires IsInt64(n)
    ensures IsInt64(r)
    ensures n != MinInt64 ==> r == -n
    ensures n == MinInt64 ==> r == n
  {
    if n == MinInt64 then MinInt64 else -n
  }

  function Pow10(k: nat): (r: nat)
    ensures r >= 1
  {
    if k == 0 then 1 else 10 * Pow10(k - 1)
  }

  /** A number below 10^k has at most k decimal digits. */
  lemma {:induction false} DecimalLengthBound(n: nat, k: nat)
    requires k >= 1 && n < Pow10(k)
    ensures |NatToDecimal(n)| <= k
  {
    if n >= 10 {
      DecimalLengthBound(n / 10, k - 1);
    }
  }

  lemma Pow10Of19()
    ensures Pow10(19) == 10_000_000_000_000_000_000
  {
    assert Pow10(10) == 10_000_000_000;
    assert Pow10(15) == 1_000_000_000_000_000;
  }

  /**
   * The digit loop of strconvInt64: writes the decimal digits of `n` backwards
   * into the tail of a 32-byte buffer and returns the index of the first one.
   * A value that is not positive writes nothing.
   */
  method WriteDigits(b: array<char>, n0: int) returns (i: int)
    requires b.Length == 32 && n0 <= MaxInt64 + 1
    modifies b
    ensures 0 <= i <= 32
    ensures n0 <= 0 ==> i == 32
    ensures n0 > 0 ==> i >= 13 && b[i..] == NatToDecimal(n0)
  {
    i := 32;
    var n := n0;
    if n0 > 0 {
      Pow10Of19();
      DecimalLengthBound(n0, 19);
    }
    while n > 0
      invariant n0 <= 0 ==> n == n0 && i == 32
      invariant n0 > 0 ==> 0 <= n && 0 <= i <= 32
      invariant n0 > 0 && n > 0 ==> NatToDecimal(n) + b[i..] == NatToDecimal(n0) && i - |NatToDecimal(n)| >= 13
      invariant n0 > 0 && n == 0 ==> b[i..] == NatToDecimal(n0) && i >= 13
      decreases n
    {
      ghost var before := b[..];
      ghost var tail := b[i..];
      assert tail == before[i..];
      var d := DigitChar(n % 10);
      DecimalLast(n);
      i := i - 1;
      b[i] := d;
      assert b[..] == before[i := d];
      UpdateSuffix(before, i, d);
      assert b[i..] == [d] + tail;
      n := n / 10;
      if n > 0 {
        AppendAssoc(NatToDecimal(n), [d], tail);
      }
    }
  }



  /** The decimal form ends with the last digit, after the form of the rest. */
  lemma DecimalLast(n: nat)
    ensures NatToDecimal(n) == (if n < 10 then [] else NatToDecimal(n / 10)) + [DigitChar(n % 10)]
  {
  }

  /** strconvInt64 as written: `n = -n` wraps for MinInt64, so the loop writes no digit. */
  method StrconvInt64AsWritten(v: int) returns (s: string)
    requires IsInt64(v)
    ensures v != MinInt64 ==> s == FormatInt(v)
    ensures v == MinInt64 ==> s == "-"
  {
    if v == 0 {
      return "0";
    }
    var b := new char[32];
    var n := v;
    var neg := n < 0;
    if neg {
      n := Neg64(n);
    }
    var i := WriteDigits(b, n);
    if neg {
      i := i - 1;
      b[i] := '-';
    }
    s := b[i..];
  }

  /** strconvInt64 with the magnitude taken as an unsigned 64-bit value: FormatInt for every input. */
  method StrconvInt64(v: int) returns (s: string)
    requires IsInt64(v)
    ensures s == FormatInt(v)
  {
    if v == 0 {
      return "0";
    }
    var b := new char[32];
    var neg := v < 0;
    var u := if neg then 0 - v else v;
    var i := WriteDigits(b, u);
    if neg {
      i := i - 1;
      b[i] := '-';
    }
    s := b[i..];
  }

  /** The as-written rendering of MinInt64 is not the decimal form and does not parse back. */
  lemma MinInt64RenderingLost()
    ensures FormatInt(MinInt64) != "-"
    ensures ParseInt64("-") == None
    ensures ParseInt64(FormatInt(MinInt64)) == Some(MinInt64)
  {
    ParseFormatRoundTrip(MinInt64);
  }

  // ------------------------------------------------------------ Run

  /** What one RunOnce call reported to the Run loop. */
  datatype RunOnceOutcome = Published(n: nat) | Failed

  /** The backoff after one RunOnce call: doubled up to 30s on error, reset on success. */
  function NextBackoff(backoff: int, pollIntervalMs: int, outcome: RunOnceOutcome): int
  {
    if outcome.Failed? then Min(backoff * 2, MaxBackoffMs) else pollIntervalMs
  }

  /** The backoff after a sequence of RunOnce outcomes. */
  function BackoffAfter(pollIntervalMs: int, outcomes: seq<RunOnceOutcome>): int
  {
    if outcomes == [] then pollIntervalMs
    else NextBackoff(BackoffAfter(pollIntervalMs, outcomes[..|outcomes| - 1]), pollIntervalMs, outcomes[|outcomes| - 1])
  }

  /** The pause Run takes after an outcome: the backoff on error, the poll interval when nothing was published. */
  function SleepFor(backoff: int, pollIntervalMs: int, outcome: RunOnceOutcome): Option<int>
  {
    match outcome
    case Failed => Some(backoff)
    case Published(n) => if n == 0 then Some(pollIntervalMs) else None
  }

  function SleepsFor(pollIntervalMs: int, outcomes: seq<RunOnceOutcome>): seq<int>
  {
    if outcomes == [] then []
    else
      var init := outcomes[..|outcomes| - 1];
      var s := SleepFor(BackoffAfter(pollIntervalMs, init), pollIntervalMs, outcomes[|outcomes| - 1]);
      SleepsFor(pollIntervalMs, init) + (if s.Some? then [s.value] else [])
  }

  /**
   * Run: `outcomes` are the results of the RunOnce calls made before the
   * context is cancelled, and `ctxErr` is the context's error. Returns the
   * error Run ends with and the pauses it took, in order.
   */
  method Run(relay: OutboxRelay, hasEventRepo: bool, hasPublisher: bool, outcomes: seq<RunOnceOutcome>, ctxErr: Error)
    returns (err: Error, sleeps: seq<int>)
    ensures !hasEventRepo ==> err == PlainErr("ingest event repo is nil") && sleeps == []
    ensures hasEventRepo && !hasPublisher ==> err == PlainErr("publisher is nil") && sleeps == []
    ensures hasEventRepo && hasPublisher ==> err == ctxErr && sleeps == SleepsFor(relay.pollIntervalMs, outcomes)
  {
    if !hasEventRepo {
      return PlainErr("ingest event repo is nil"), [];
    }
    if !hasPublisher {
      return PlainErr("publisher is nil"), [];
    }
    var backoff := relay.pollIntervalMs;
    sleeps := [];
    var k := 0;
    while k < |outcomes|
      invariant 0 <= k <= |outcomes|
      invariant backoff == BackoffAfter(relay.pollIntervalMs, outcomes[..k])
      invariant sleeps == SleepsFor(relay.pollIntervalMs, outcomes[..k])
    {
      assert outcomes[..k + 1][..k] == outcomes[..k];
      match outcomes[k] {
        case Failed =>
          sleeps := sleeps + [backoff];
          backoff := backoff * 2;
          if backoff > MaxBackoffMs {
            backoff := MaxBackoffMs;
          }
        case Published(n) =>
          backoff := relay.pollIntervalMs;
          if n == 0 {
            sleeps := sleeps + [relay.pollIntervalMs];
          }
      }
      k := k + 1;
    }
    assert outcomes[..k] == outcomes;
    err := ctxErr;
  }

  /** After k consecutive errors the backoff is the poll interval doubled k times, capped at 30s. */
  lemma {:induction false} BackoffDoubling(pollIntervalMs: int, before: seq<RunOnceOutcome>, k: nat)
    requires pollIntervalMs > 0
    requires before == [] || before[|before| - 1].Published?
    ensures var errs := seq(k, _ => Failed);
      BackoffAfter(pollIntervalMs, before + errs) ==
        if k == 0 then pollIntervalMs else Min(pollIntervalMs * Pow2(k), MaxBackoffMs)
  {
    var errs := seq(k, _ => Failed);
    if k == 0 {
      assert before + errs == before;
    } else {
      var prev := seq(k - 1, _ => Failed);
      BackoffDoubling(pollIntervalMs, before, k - 1);
      assert (before + errs)[..|before + errs| - 1] == before + prev;
      if k >= 2 {
        MulDouble(pollIntervalMs, Pow2(k - 1));
      }
    }
  }

  lemma MulDouble(a: int, b: int)
    ensures a * (2 * b) == 2 * (a * b)
  {
  }

  /** A success resets the backoff to the poll interval, whatever came before. */
  lemma BackoffResetsOnSuccess(pollIntervalMs: int, before: seq<RunOnceOutcome>, n: nat)
    ensures BackoffAfter(pollIntervalMs, before + [Published(n)]) == pollIntervalMs
  {
    assert (before + [Published(n)])[..|before|] == before;
  }

  /** Every pause lies between the poll interval and 30 seconds (or the poll interval, if larger). */
  lemma {:induction false} BackoffBounds(pollIntervalMs: int, outcomes: seq<RunOnceOutcome>)
    requires pollIntervalMs > 0
    ensures Min(pollIntervalMs, MaxBackoffMs) <= BackoffAfter(pollIntervalMs, outcomes) <= Max(pollIntervalMs, MaxBackoffMs)
  {
    if outcomes != [] {
      BackoffBounds(pollIntervalMs, outcomes[..|outcomes| - 1]);
    }
  }

  // ------------------------------------------------------------ RunOnce

  datatype OutboxEvent = OutboxEvent(
    id: int, eventType: string, tenantUserId: string, sourceType: string, sourceKey: string,
    traceId: string, dedupKey: string, kafkaTopic: string, retryCount: int, backfillJobId: Option<int>)

  /** The message headers: a fixed set of keys (event_id, event_type, tenant_user_id, source_type, source_key, trace_id, dedup_key). */
  datatype Headers = Headers(eventId: string, eventType: string, tenantUserId: string, sourceType: string,
                             sourceKey: string, traceId: string, dedupKey: string)

  datatype Message = Message(topic: string, key: string, value: string, headers: Headers)

  datatype PublishAck = PublishAck(partition: int, offset: int)

  /** The repository writes RunOnce makes, in order. */
  datatype RepoCall =
    | MarkPublishFailed(id: int, nextRetryAt: int, reason: string)
    | MarkPublished(id: int, topic: string, partition: int, offset: int)
    | AddCounters(jobId: int)

  /** The topic an event goes to: the relay's default, else the event's own (trimmed). */
  function TopicFor(relay: OutboxRelay, ev: OutboxEvent): (t: string)
    ensures relay.defaultTopic != [] ==> t == relay.defaultTopic
    ensures t == [] <==> relay.defaultTopic == [] && IsBlank(ev.kafkaTopic)
  {
    if relay.defaultTopic != [] then relay.defaultTopic else TrimSpace(ev.kafkaTopic)
  }

  /** The partition key: the dedup key, else the decimal event id. */
  function KeyFor(ev: OutboxEvent): (k: string)
    ensures k != []
    ensures ev.dedupKey != [] ==> k == ev.dedupKey
  {
    if ev.dedupKey != [] then ev.dedupKey else FormatInt(ev.id)
  }

  function MessageFor(topic: string, ev: OutboxEvent): Message
  {
    Message(topic, KeyFor(ev), FormatInt(ev.id),
            Headers(FormatInt(ev.id), ev.eventType, ev.tenantUserId, ev.sourceType, ev.sourceKey, ev.traceId, ev.dedupKey))
  }

  /** The writes made for one event, and whether it counts as published. */
  datatype EventOutcome = EventOutcome(calls: seq<RepoCall>, published: bool)

  function HandleEvent(relay: OutboxRelay, now: int, ev: OutboxEvent, publish: Message -> Result<PublishAck>,
                       markOk: int -> bool, hasJobRepo: bool): EventOutcome
  {
    var topic := TopicFor(relay, ev);
    if topic == [] then EventOutcome([MarkPublishFailed(ev.id, now + EmptyTopicRetryMs, EmptyTopicReason)], false)
    else
      match publish(MessageFor(topic, ev))
      case Err(e) => EventOutcome([MarkPublishFailed(ev.id, now + RetryDelay(ev.retryCount), e.msg)], false)
      case Ok(ack) =>
        var marked := [MarkPublished(ev.id, topic, ack.partition, ack.offset)];
        if !markOk(ev.id) then EventOutcome(marked, false)
        else if hasJobRepo && ev.backfillJobId.Some? then EventOutcome(marked + [AddCounters(ev.backfillJobId.value)], true)
        else EventOutcome(marked, true)
  }

  /** HandleEvent for a fixed relay, clock, broker and repositories. */
  function Handler(relay: OutboxRelay, now: int, publish: Message -> Result<PublishAck>, markOk: int -> bool,
                   hasJobRepo: bool): OutboxEvent -> EventOutcome
  {
    ev => HandleEvent(relay, now, ev, publish, markOk, hasJobRepo)
  }

  /** The writes for a batch of events, in order. */
  function CallsOf(evs: seq<OutboxEvent>, h: OutboxEvent -> EventOutcome): seq<RepoCall>
  {
    if evs == [] then [] else CallsOf(evs[..|evs| - 1], h) + h(evs[|evs| - 1]).calls
  }

  /** How many events of a batch count as published. */
  function CountOf(evs: seq<OutboxEvent>, h: OutboxEvent -> EventOutcome): nat
  {
    if evs == [] then 0 else CountOf(evs[..|evs| - 1], h) + (if h(evs[|evs| - 1]).published then 1 else 0)
  }

  function CallsFor(relay: OutboxRelay, now: int, evs: seq<OutboxEvent>, publish: Message -> Result<PublishAck>,
                    markOk: int -> bool, hasJobRepo: bool): seq<RepoCall>
  {
    CallsOf(evs, Handler(relay, now, publish, markOk, hasJobRepo))
  }

  function PublishedCount(relay: OutboxRelay, now: int, evs: seq<OutboxEvent>, publish: Message -> Result<PublishAck>,
                          markOk: int -> bool, hasJobRepo: bool): nat
  {
    CountOf(evs, Handler(relay, now, publish, markOk, hasJobRepo))
  }

  /** The body of RunOnce's loop for one event. */
  method PublishEvent(relay: OutboxRelay, now: int, ev: OutboxEvent, publish: Message -> Result<PublishAck>,
                      markOk: int -> bool, hasJobRepo: bool) returns (calls: seq<RepoCall>, published: bool)
    requires IsInt64(ev.id)
    ensures EventOutcome(calls, published) == Handler(relay, now, publish, markOk, hasJobRepo)(ev)
  {
    var topic := relay.defaultTopic;
    if topic == [] {
      topic := TrimSpace(ev.kafkaTopic);
    }
    assert topic == TopicFor(relay, ev);
    if topic == [] {
      return [MarkPublishFailed(ev.id, now + EmptyTopicRetryMs, EmptyTopicReason)], false;
    }
    var key := ev.dedupKey;
    var idText := StrconvInt64(ev.id);
    if |key| == 0 {
      key := idText;
    }
    var msg := Message(topic, key, idText,
      Headers(idText, ev.eventType, ev.tenantUserId, ev.sourceType, ev.sourceKey, ev.traceId, ev.dedupKey));
    assert msg == MessageFor(topic, ev);
    var res := publish(msg);
    assert res == publish(MessageFor(TopicFor(relay, ev), ev));
    if res.Err? {
      var next := ComputeNextRetry(now, ev.retryCount);
      return [MarkPublishFailed(ev.id, next, res.error.msg)], false;
    }
    calls := [MarkPublished(ev.id, topic, res.value.partition, res.value.offset)];
    published := false;
    if markOk(ev.id) {
      if hasJobRepo && ev.backfillJobId.Some? {
        calls := calls + [AddCounters(ev.backfillJobId.value)];
      }
      published := true;
    }
  }

  /**
   * RunOnce: `claim` is what ClaimForPublish returned, `publish` the broker,
   * `markOk` whether MarkPublished succeeds for an id, and `hasJobRepo` whether
   * a job repository is configured. Returns the published count, the error and
   * the repository writes.
   */
  method RunOnce(relay: OutboxRelay, now: int, claim: Result<seq<OutboxEvent>>,
                 publish: Message -> Result<PublishAck>, markOk: int -> bool, hasJobRepo: bool)
    returns (published: nat, err: Option<Error>, calls: seq<RepoCall>)
    requires claim.Ok? ==> forall ev :: ev in claim.value ==> IsInt64(ev.id)
    ensures claim.Err? ==> published == 0 && err == Some(claim.error) && calls == []
    ensures claim.Ok? ==> err == None
    ensures claim.Ok? ==> published == PublishedCount(relay, now, claim.value, publish, markOk, hasJobRepo)
    ensures claim.Ok? ==> calls == CallsFor(relay, now, claim.value, publish, markOk, hasJobRepo)
  {
    if claim.Err? {
      return 0, Some(claim.error), [];
    }
    var events := claim.value;
    published, err, calls := 0, None, [];
    var i := 0;
    while i < |events|
      invariant 0 <= i <= |events|
      invariant published == CountOf(events[..i], Handler(relay, now, publish, markOk, hasJobRepo))
      invariant calls == CallsOf(events[..i], Handler(relay, now, publish, markOk, hasJobRepo))
    {
      BatchStep(events, i, Handler(relay, now, publish, markOk, hasJobRepo));
      var evCalls, ok := PublishEvent(relay, now, events[i], publish, markOk, hasJobRepo);
      calls := calls + evCalls;
      if ok {
        published := published + 1;
      }
      i := i + 1;
    }
    assert events[..i] == events;
  }

  /** Handling one more event of a batch appends its writes and its count. */
  lemma BatchStep(evs: seq<OutboxEvent>, i: nat, h: OutboxEvent -> EventOutcome)
    requires i < |evs|
    ensures CallsOf(evs[..i + 1], h) == CallsOf(evs[..i], h) + h(evs[i]).calls
    ensures CountOf(evs[..i + 1], h) == CountOf(evs[..i], h) + (if h(evs[i]).published then 1 else 0)
  {
    assert evs[..i + 1][..i] == evs[..i];
  }

  /** An event reached its topic and was then marked published. */
  predicate Delivered(relay: OutboxRelay, ev: OutboxEvent, publish: Message -> Result<PublishAck>, markOk: int -> bool)
  {
    TopicFor(relay, ev) != [] && publish(MessageFor(TopicFor(relay, ev), ev)).Ok? && markOk(ev.id)
  }

  /** An event counts as published exactly when it was delivered. */
  lemma PublishedIffDelivered(relay: OutboxRelay, now: int, ev: OutboxEvent, publish: Message -> Result<PublishAck>,
                              markOk: int -> bool, hasJobRepo: bool)
    ensures HandleEvent(relay, now, ev, publish, markOk, hasJobRepo).published <==> Delivered(relay, ev, publish, markOk)
  {
  }

  /** The published count is the number of events that were delivered: failed marks do not count. */
  lemma {:induction false} PublishedCountIsDelivered(relay: OutboxRelay, now: int, evs: seq<OutboxEvent>,
                                                   publish: Message -> Result<PublishAck>, markOk: int -> bool, hasJobRepo: bool)
    ensures PublishedCount(relay, now, evs, publish, markOk, hasJobRepo) <= |evs|
    ensures PublishedCount(relay, now, evs, publish, markOk, hasJobRepo) == |DeliveredIndices(relay, evs, publish, markOk)|
  {
    if evs != [] {
      var n := |evs| - 1;
      PublishedCountIsDelivered(relay, now, evs[..n], publish, markOk, hasJobRepo);
      PublishedIffDelivered(relay, now, evs[n], publish, markOk, hasJobRepo);
      MatchingIndicesStep(evs, ev => Delivered(relay, ev, publish, markOk));
    }
  }

  /** The positions of the delivered events of a batch. */
  function DeliveredIndices(relay: OutboxRelay, evs: seq<OutboxEvent>, publish: Message -> Result<PublishAck>,
                            markOk: int -> bool): set<int>
  {
    MatchingIndices(evs, ev => Delivered(relay, ev, publish, markOk))
  }

  /** The positions of the elements of `xs` that satisfy `p`. */
  function MatchingIndices<T>(xs: seq<T>, p: T -> bool): (r: set<int>)
    ensures forall i :: i in r <==> 0 <= i < |xs| && p(xs[i])
  {
    set i | 0 <= i < |xs| && p(xs[i])
  }

  /** One more element adds its own position exactly when it satisfies `p`. */
  lemma MatchingIndicesStep<T>(xs: seq<T>, p: T -> bool)
    requires xs != []
    ensures var n := |xs| - 1;
      |MatchingIndices(xs, p)| == |MatchingIndices(xs[..n], p)| + (if p(xs[n]) then 1 else 0)
  {
    var n := |xs| - 1;
    var all, before := MatchingIndices(xs, p), MatchingIndices(xs[..n], p);
    var last: set<int> := if p(xs[n]) then {n} else {};
    forall i | i in all ensures i in before + last {
      if i < n {
        assert xs[..n][i] == xs[i];
      }
    }
    assert all == before + last;
    assert n !in before;
  }

  /** An event with no topic anywhere is marked failed, to be retried in five minutes. */
  lemma EmptyTopicMarkedFailed(relay: OutboxRelay, now: int, ev: OutboxEvent, publish: Message -> Result<PublishAck>,
                               markOk: int -> bool, hasJobRepo: bool)
    requires relay.defaultTopic == [] && IsBlank(ev.kafkaTopic)
    ensures HandleEvent(relay, now, ev, publish, markOk, hasJobRepo)
      == EventOutcome([MarkPublishFailed(ev.id, now + 300_000, "kafka topic is empty")], false)
  {
  }

  /** Each event gets exactly one Mark call; a counter update follows only a successful mark. */
  lemma EventMarkedOnce(relay: OutboxRelay, now: int, ev: OutboxEvent, publish: Message -> Result<PublishAck>,
                        markOk: int -> bool, hasJobRepo: bool)
    ensures var o := HandleEvent(relay, now, ev, publish, markOk, hasJobRepo);
      1 <= |o.calls| <= 2 && !o.calls[0].AddCounters? && (|o.calls| == 2 ==> o.calls[1].AddCounters? && o.published)
      && (o.published <==> o.calls[0].MarkPublished? && markOk(ev.id))
      && (o.calls[0].MarkPublishFailed? && TopicFor(relay, ev) != [] ==> o.calls[0].nextRetryAt == now + RetryDelay(ev.retryCount))
  {
  }
}
