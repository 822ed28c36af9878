/**
 * The transaction poll controller (frontend/src/utils/txController.ts).
 *
 * A `TxController` fixes its timeout and poll interval once, at construction,
 * and keeps a private append-only audit log. `Poll` asks the server for the
 * status of one transaction at most `MaxAttempts` times and records exactly
 * one terminal entry: committed, failed or timeout. `Rollback` records a
 * rolled-back entry without any server call.
 *
 * The server is an oracle: `replies[k]` is what the (k+1)-th call of
 * `getTransaction` resolves to, or the error it throws. `Date.now()` is the
 * parameter `now`, the `onPoll` callback is the sequence of `PollEvent`s
 * the call produces, and the build-time network of `getTxUrl` is `net`.
 */
module TxControl {
  import opened Common
  import Env
  import StellarConfig

  datatype TxState = Pending | Committed | Failed | RolledBack | Timeout

  datatype TxAuditLogEntry = TxAuditLogEntry(
    txId: string,
    state: TxState,
    timestamp: int,
    message: Option<string>)

  /** `res.status` of a `getTransaction` answer, with `resultXdr` when it is a string. */
  datatype TxStatus =
    | Success
    | FailedStatus(resultXdr: Option<string>)
    | OtherStatus(name: string)   // NOT_FOUND or any other non-terminal status

  /** One call of `server.getTransaction`: it resolves, or it throws. */
  datatype Reply = Answer(status: TxStatus) | Raised(error: string)

  /** One call `onPoll(attempt, state)`. */
  datatype PollEvent = PollEvent(attempt: nat, state: TxState)

  /** How a `poll` call ends: it returns an entry or propagates the server's error. */
  datatype PollOutcome = Returned(entry: TxAuditLogEntry) | Threw(error: string)

  /** Everything one `poll` call does that a caller can observe, apart from the log. */
  datatype PollRun = PollRun(outcome: PollOutcome, events: seq<PollEvent>, queries: nat)

  predicate IsPending(r: Reply) {
    r.Answer? && r.status.OtherStatus?
  }

  // ------------------------------------------------------------ options

  const DefaultPollIntervalMs: int := 2000

  /**
   * The stored timeout, in milliseconds. An explicit `timeoutSecs` only gets
   * the floor 0.001 s; otherwise the environment's value is clamped into
   * [30, 300] seconds.
   */
  function BoundedTimeoutMs(timeoutMsOverride: Option<int>, envTimeoutSecs: int): (ms: int)
    ensures ms >= 1
    ensures timeoutMsOverride.Some? ==> ms == Max(1, timeoutMsOverride.value)
    ensures timeoutMsOverride.None? ==> 30_000 <= ms <= 300_000
    ensures timeoutMsOverride.None? && 30 <= envTimeoutSecs <= 300 ==> ms == envTimeoutSecs * 1000
  {
    if timeoutMsOverride.Some? then Max(1, timeoutMsOverride.value)
    else Max(30, Min(300, envTimeoutSecs)) * 1000
  }

  /** `Math.max(1, pollIntervalMs ?? 2000)`. */
  function BoundedPollIntervalMs(pollIntervalOverride: Option<int>): (ms: int)
    ensures ms >= 1
    ensures pollIntervalOverride.None? ==> ms == DefaultPollIntervalMs
    ensures pollIntervalOverride.Some? && pollIntervalOverride.value >= 1 ==> ms == pollIntervalOverride.value
  {
    Max(1, pollIntervalOverride.GetOr(DefaultPollIntervalMs))
  }

  /** `Math.ceil(a / b)` for positive integers. */
  function CeilDiv(a: int, b: int): (q: int)
    requires a >= 1 && b >= 1
    ensures q >= 1
    ensures (q - 1) * b < a <= q * b
  {
    var q := (a + b - 1) / b;
    var r := (a + b - 1) % b;
    assert a + b - 1 == q * b + r && 0 <= r < b;
    assert q * b - b == (q - 1) * b;
    q
  }

  /**
   * `maxAttempts = ceil(timeoutSecs * 1000 / pollIntervalMs)`: the fewest
   * polls whose intervals together cover the timeout.
   */
  function MaxAttempts(timeoutMs: int, pollIntervalMs: int): (n: int)
    requires timeoutMs >= 1 && pollIntervalMs >= 1
    ensures n >= 1
    ensures (n - 1) * pollIntervalMs < timeoutMs <= n * pollIntervalMs
  {
    CeilDiv(timeoutMs, pollIntervalMs)
  }

  /** The test's tiny budget (0.03 s at 1 ms) allows exactly 30 polls; the defaults allow 60. */
  lemma MaxAttemptsExamples()
    ensures MaxAttempts(30, 1) == 30
    ensures MaxAttempts(BoundedTimeoutMs(None, 120), BoundedPollIntervalMs(None)) == 60
  {
  }

  // ------------------------------------------------------------ poll specification

  /** The message of a failed entry: `resultXdr` when it is a string, else `'FAILED'`. */
  function FailedMessage(resultXdr: Option<string>): (m: string)
    ensures resultXdr.Some? ==> m == resultXdr.value
    ensures resultXdr.None? ==> m == "FAILED"
  {
    resultXdr.GetOr("FAILED")
  }

  /**
   * What the poll loop does from attempt number `base + 1` on, given the
   * remaining replies of its attempt budget.
   */
  function Run(net: StellarConfig.Network, txHash: string, replies: seq<Reply>, base: nat, now: int): (r: PollRun)
    ensures r.outcome.Returned? ==> r.outcome.entry.txId == txHash && r.outcome.entry.timestamp == now
    ensures r.outcome.Returned? ==> r.outcome.entry.state in {Committed, Failed, Timeout}
    ensures 1 <= r.queries <= |replies| || (replies == [] && r.queries == 0)
    decreases replies
  {
    if replies == [] then
      PollRun(Returned(TxAuditLogEntry(txHash, Timeout, now, Some(StellarConfig.TxUrl(net, txHash)))), [], 0)
    else
      match replies[0]
      case Raised(e) => PollRun(Threw(e), [], 1)
      case Answer(Success) =>
        PollRun(Returned(TxAuditLogEntry(txHash, Committed, now, Some(StellarConfig.TxUrl(net, txHash)))),
                [PollEvent(base + 1, Committed)], 1)
      case Answer(FailedStatus(xdr)) =>
        PollRun(Returned(TxAuditLogEntry(txHash, Failed, now, Some(FailedMessage(xdr)))),
                [PollEvent(base + 1, Failed)], 1)
      case Answer(OtherStatus(_)) =>
        var rest := Run(net, txHash, replies[1..], base + 1, now);
        PollRun(rest.outcome, [PollEvent(base + 1, Pending)] + rest.events, rest.queries + 1)
  }

  /** `onPoll` calls for `n` non-terminal answers starting at attempt `base + 1`. */
  function PendingEvents(base: nat, n: nat): (evs: seq<PollEvent>)
    ensures |evs| == n
    ensures forall j :: 0 <= j < n ==> evs[j] == PollEvent(base + j + 1, Pending)
  {
    seq(n, j requires 0 <= j < n => PollEvent(base + j + 1, Pending))
  }

  /**
   * The first SUCCESS after `k` non-terminal answers ends the poll with a
   * committed entry linking to the explorer, after exactly `k + 1` queries.
   */
  lemma {:induction false} FirstSuccessCommits(net: StellarConfig.Network, txHash: string, replies: seq<Reply>, base: nat, now: int, k: nat)
    requires k < |replies| && replies[k] == Answer(Success)
    requires forall j :: 0 <= j < k ==> IsPending(replies[j])
    ensures Run(net, txHash, replies, base, now)
         == PollRun(Returned(TxAuditLogEntry(txHash, Committed, now, Some(StellarConfig.TxUrl(net, txHash)))),
                    PendingEvents(base, k) + [PollEvent(base + k + 1, Committed)], k + 1)
  {
    if k > 0 {
      FirstSuccessCommits(net, txHash, replies[1..], base + 1, now, k - 1);
      assert [PollEvent(base + 1, Pending)] + PendingEvents(base + 1, k - 1) == PendingEvents(base, k);
    }
  }

  /**
   * The first FAILED after `k` non-terminal answers ends the poll with a
   * failed entry carrying `resultXdr` (or `'FAILED'`), after `k + 1` queries.
   */
  lemma {:induction false} FirstFailureFails(net: StellarConfig.Network, txHash: string, replies: seq<Reply>, base: nat, now: int, k: nat, xdr: Option<string>)
    requires k < |replies| && replies[k] == Answer(FailedStatus(xdr))
    requires forall j :: 0 <= j < k ==> IsPending(replies[j])
    ensures Run(net, txHash, replies, base, now)
         == PollRun(Returned(TxAuditLogEntry(txHash, Failed, now, Some(FailedMessage(xdr)))),
                    PendingEvents(base, k) + [PollEvent(base + k + 1, Failed)], k + 1)
  {
    if k > 0 {
      FirstFailureFails(net, txHash, replies[1..], base + 1, now, k - 1, xdr);
      assert [PollEvent(base + 1, Pending)] + PendingEvents(base + 1, k - 1) == PendingEvents(base, k);
    }
  }

  /**
   * When no answer of the budget is terminal, the poll makes every query,
   * reports each as pending, and ends with a timeout entry that links to the
   * explorer; the timeout itself is not reported to `onPoll`.
   */
  lemma {:induction false} AllPendingTimesOut(net: StellarConfig.Network, txHash: string, replies: seq<Reply>, base: nat, now: int)
    requires forall j :: 0 <= j < |replies| ==> IsPending(replies[j])
    ensures Run(net, txHash, replies, base, now)
         == PollRun(Returned(TxAuditLogEntry(txHash, Timeout, now, Some(StellarConfig.TxUrl(net, txHash)))),
                    PendingEvents(base, |replies|), |replies|)
  {
    if replies != [] {
      AllPendingTimesOut(net, txHash, replies[1..], base + 1, now);
      assert [PollEvent(base + 1, Pending)] + PendingEvents(base + 1, |replies| - 1) == PendingEvents(base, |replies|);
    }
  }

  /**
   * A query that throws after `k` non-terminal answers propagates its error
   * after `k + 1` queries, with `onPoll` told only of the `k` pending ones.
   */
  lemma {:induction false} RaisedPropagates(net: StellarConfig.Network, txHash: string, replies: seq<Reply>, base: nat, now: int, k: nat)
    requires k < |replies| && replies[k].Raised?
    requires forall j :: 0 <= j < k ==> IsPending(replies[j])
    ensures Run(net, txHash, replies, base, now) == PollRun(Threw(replies[k].error), PendingEvents(base, k), k + 1)
  {
    if k > 0 {
      RaisedPropagates(net, txHash, replies[1..], base + 1, now, k - 1);
      assert [PollEvent(base + 1, Pending)] + PendingEvents(base + 1, k - 1) == PendingEvents(base, k);
    }
  }

  /**
   * `onPoll` is called once per answered query, with attempt numbers
   * `base + 1, base + 2, ...`; every call but the last reports `'pending'`.
   */
  lemma {:induction false} EventsNumberAttempts(net: StellarConfig.Network, txHash: string, replies: seq<Reply>, base: nat, now: int)
    ensures var r := Run(net, txHash, replies, base, now);
      && |r.events| == (if r.outcome.Threw? then r.queries - 1 else r.queries)
      && (forall j :: 0 <= j < |r.events| ==> r.events[j].attempt == base + j + 1)
      && (forall j :: 0 <= j < |r.events| - 1 ==> r.events[j].state == Pending)
      && (r.outcome.Returned? && r.events != [] ==>
            (r.events[|r.events| - 1].state == r.outcome.entry.state || r.outcome.entry.state == Timeout))
  {
    if replies != [] && IsPending(replies[0]) {
      EventsNumberAttempts(net, txHash, replies[1..], base + 1, now);
    }
  }

  /**
   * One pending answer moves from the rest of the run into the events seen
   * so far: the loop invariant of `Poll` is kept across a pending attempt.
   */
  lemma PendingStep(net: StellarConfig.Network, txHash: string, budget: seq<Reply>, i: nat, now: int, events: seq<PollEvent>)
    requires i < |budget| && IsPending(budget[i])
    requires events == PendingEvents(0, i)
    ensures var rest := Run(net, txHash, budget[i..], i, now);
      var next := Run(net, txHash, budget[i + 1..], i + 1, now);
      && events + [PollEvent(i + 1, Pending)] == PendingEvents(0, i + 1)
      && PollRun(rest.outcome, events + rest.events, rest.queries + i)
         == PollRun(next.outcome, (events + [PollEvent(i + 1, Pending)]) + next.events, next.queries + i + 1)
  {
    assert budget[i..][0] == budget[i] && budget[i..][1..] == budget[i + 1..];
    var next := Run(net, txHash, budget[i + 1..], i + 1, now);
    assert events + ([PollEvent(i + 1, Pending)] + next.events) == (events + [PollEvent(i + 1, Pending)]) + next.events;
  }

  /** A terminal answer (or an exception) at attempt `i + 1` ends the rest of the run in one query. */
  lemma TerminalStep(net: StellarConfig.Network, txHash: string, budget: seq<Reply>, i: nat, now: int)
    requires i < |budget| && !IsPending(budget[i])
    ensures budget[i].Raised? ==> Run(net, txHash, budget[i..], i, now) == PollRun(Threw(budget[i].error), [], 1)
    ensures budget[i] == Answer(Success) ==>
              Run(net, txHash, budget[i..], i, now)
              == PollRun(Returned(TxAuditLogEntry(txHash, Committed, now, Some(StellarConfig.TxUrl(net, txHash)))),
                         [PollEvent(i + 1, Committed)], 1)
    ensures budget[i].Answer? && budget[i].status.FailedStatus? ==>
              Run(net, txHash, budget[i..], i, now)
              == PollRun(Returned(TxAuditLogEntry(txHash, Failed, now, Some(FailedMessage(budget[i].status.resultXdr)))),
                         [PollEvent(i + 1, Failed)], 1)
  {
    assert budget[i..][0] == budget[i];
  }

  // ------------------------------------------------------------ the controller

  /** No entry of the audit log is `pending`: only terminal observations are recorded. */
  predicate AllTerminal(logs: seq<TxAuditLogEntry>) {
    forall j :: 0 <= j < |logs| ==> logs[j].state != Pending
  }

  class TxController {
    const timeoutMs: int
    const pollIntervalMs: int
    var logs: seq<TxAuditLogEntry>

    ghost predicate Valid()
      reads this
    {
      timeoutMs >= 1 && pollIntervalMs >= 1 && AllTerminal(logs)
    }

    /**
     * `new TxController(server, options)`; `env` is what the constructor's
     * `getEnv()` returns, and an explicit `timeoutSecs` is given in milliseconds.
     */
    constructor (env: Env.AppEnv, timeoutMsOverride: Option<int>, pollIntervalOverride: Option<int>)
      ensures Valid()
      ensures timeoutMs == BoundedTimeoutMs(timeoutMsOverride, env.txTimeoutSecs)
      ensures pollIntervalMs == BoundedPollIntervalMs(pollIntervalOverride)
      ensures logs == []
    {
      timeoutMs := BoundedTimeoutMs(timeoutMsOverride, env.txTimeoutSecs);
      pollIntervalMs := BoundedPollIntervalMs(pollIntervalOverride);
      logs := [];
    }

    /**
     * `poll(txHash)`. Returns the outcome, the `onPoll` calls made, and the
     * number of `getTransaction` queries. A returned entry is appended to
     * the log; a thrown error leaves the log as it was.
     */
    method Poll(net: StellarConfig.Network, txHash: string, replies: seq<Reply>, now: int)
      returns (outcome: PollOutcome, events: seq<PollEvent>, queries: nat)
      requires Valid()
      requires |replies| >= MaxAttempts(timeoutMs, pollIntervalMs)
      modifies this
      ensures Valid()
      ensures PollRun(outcome, events, queries) == Run(net, txHash, replies[..MaxAttempts(timeoutMs, pollIntervalMs)], 0, now)
      ensures queries <= MaxAttempts(timeoutMs, pollIntervalMs)
      ensures outcome.Returned? ==> logs == old(logs) + [outcome.entry]
      ensures outcome.Threw? ==> logs == old(logs)
    {
      var maxAttempts := MaxAttempts(timeoutMs, pollIntervalMs);
      ghost var budget := replies[..maxAttempts];
      events := [];
      var i := 0;
      while i < maxAttempts
        invariant 0 <= i <= maxAttempts
        invariant logs == old(logs)
        invariant events == PendingEvents(0, i)
        invariant var rest := Run(net, txHash, budget[i..], i, now);
          Run(net, txHash, budget, 0, now) == PollRun(rest.outcome, events + rest.events, rest.queries + i)
      {
        var res := replies[i];
        if !IsPending(res) {
          TerminalStep(net, txHash, budget, i, now);
        }
        if res.Raised? {
          return Threw(res.error), events, i + 1;
        }
        if res.status == Success {
          var entry := TxAuditLogEntry(txHash, Committed, now, Some(StellarConfig.TxUrl(net, txHash)));
          logs := logs + [entry];
          events := events + [PollEvent(i + 1, Committed)];
          return Returned(entry), events, i + 1;
        }
        if res.status.FailedStatus? {
          var failedMsg := FailedMessage(res.status.resultXdr);
          var entry := TxAuditLogEntry(txHash, Failed, now, Some(failedMsg));
          logs := logs + [entry];
          events := events + [PollEvent(i + 1, Failed)];
          return Returned(entry), events, i + 1;
        }
        PendingStep(net, txHash, budget, i, now, events);
        events := events + [PollEvent(i + 1, Pending)];
        i := i + 1;
      }
      assert budget[i..] == [];
      var entry := TxAuditLogEntry(txHash, Timeout, now, Some(StellarConfig.TxUrl(net, txHash)));
      logs := logs + [entry];
      return Returned(entry), events, maxAttempts;
    }

    /** `rollback(txHash, reason)`: no server call; one rolled-back entry is appended and returned. */
    method Rollback(txHash: string, reason: Option<string>, now: int) returns (entry: TxAuditLogEntry)
      requires Valid()
      modifies this
      ensures Valid()
      ensures entry == TxAuditLogEntry(txHash, RolledBack, now, reason)
      ensures logs == old(logs) + [entry]
    {
      entry := TxAuditLogEntry(txHash, RolledBack, now, reason);
      logs := logs + [entry];
    }

    /** `getLogs()`: a copy of the log in insertion order; a sequence value cannot alias the field. */
    method GetLogs() returns (copy: seq<TxAuditLogEntry>)
      requires Valid()
      ensures copy == logs
      ensures AllTerminal(copy)
    {
      copy := logs;
    }
  }

  /**
   * The scenarios of the controller's tests: SUCCESS on the first query
   * commits, FAILED with payload `'xdr'` fails with that message, a server
   * that stays PENDING under the 0.03 s / 1 ms budget times out after 30
   * queries, and a rollback is found in the log. Each is appended once.
   */
  method ControllerScenarios(env: Env.AppEnv, net: StellarConfig.Network, now: int)
    returns (committed: PollOutcome, failed: PollOutcome, timedOut: PollOutcome, timeoutQueries: nat, logs: seq<TxAuditLogEntry>)
    ensures committed.Returned? && committed.entry.state == Committed
    ensures failed == Returned(TxAuditLogEntry("hash-2", Failed, now, Some("xdr")))
    ensures timedOut.Returned? && timedOut.entry.state == Timeout && timeoutQueries == 30
    ensures |logs| == 1 && logs[0].txId == "hash-4" && logs[0].state == RolledBack
  {
    var ctl1 := new TxController(env, Some(30_000), Some(10));
    var successes := seq(3000, _ => Answer(Success));
    FirstSuccessCommits(net, "hash-1", successes[..MaxAttempts(30_000, 10)], 0, now, 0);
    var events, queries;
    committed, events, queries := ctl1.Poll(net, "hash-1", successes, now);

    var ctl2 := new TxController(env, Some(30_000), Some(10));
    var failures := seq(3000, _ => Answer(FailedStatus(Some("xdr"))));
    FirstFailureFails(net, "hash-2", failures[..MaxAttempts(30_000, 10)], 0, now, 0, Some("xdr"));
    failed, events, queries := ctl2.Poll(net, "hash-2", failures, now);

    var ctl3 := new TxController(env, Some(30), Some(1));
    var pendings := seq(30, _ => Answer(OtherStatus("PENDING")));
    assert MaxAttempts(30, 1) == 30;
    AllPendingTimesOut(net, "hash-3", pendings[..30], 0, now);
    timedOut, events, timeoutQueries := ctl3.Poll(net, "hash-3", pendings, now);

    var ctl4 := new TxController(env, Some(30_000), Some(10));
    var rolledBack := ctl4.Rollback("hash-4", Some("user-cancelled"), now);
    logs := ctl4.GetLogs();
  }
}
