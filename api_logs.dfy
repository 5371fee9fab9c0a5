/**
 * The API call log (`ApiLogs`): a fixed table of calls, a selector that shows all,
 * failed or slow calls, and the colours of rows, status codes and latencies.
 */
module ApiLogs {
  import opened Options
  import opened Seqs
  import opened Text
  import opened Ui

  /** One logged call; `slow` is the optional flag some entries carry (absent is false). */
  datatype Log = Log(id: int, time: string, httpMethod: string, path: string, status: int, latency: string, ip: string, slow: bool)

  const MockLogs: seq<Log> := [
    Log(1, "2023-10-24 10:30:01", "GET", "/api/v1/player/stats", 200, "45ms", "192.168.1.10", false),
    Log(2, "2023-10-24 10:30:05", "POST", "/api/v1/match/event", 201, "120ms", "192.168.1.12", false),
    Log(3, "2023-10-24 10:31:12", "GET", "/api/v1/weather", 500, "500ms", "10.0.0.5", false),
    Log(4, "2023-10-24 10:32:00", "GET", "/api/v1/player/rank", 200, "800ms", "192.168.1.10", true),
    Log(5, "2023-10-24 10:32:45", "GET", "/api/v1/team/info", 403, "12ms", "172.16.0.1", false)
  ]

  /** A latency above this many milliseconds is slow. */
  const SlowThreshold: int := 200

  /** `parseInt(log.latency) > 200`, the warning colour of the latency cell. */
  function LatencyWarned(log: Log): (b: bool)
    ensures !HasDecimalDigit(log.latency) ==> !b
  {
    ParsesAbove(log.latency, SlowThreshold)
  }

  /** A latency written `<n>ms` is warned exactly when n exceeds 200. */
  lemma LatencyWarnedByMilliseconds(log: Log, ms: nat)
    requires log.latency == Decimal(ms) + "ms"
    ensures LatencyWarned(log) <==> ms > SlowThreshold
  {
    ParsesAboveNumeral(ms, "ms", SlowThreshold);
  }

  predicate IsFailure(log: Log) {
    log.status >= 400
  }

  /** The selector's test: failures for `error`, flagged or high-latency calls for `slow`, everything otherwise. */
  predicate Keeps(filter: string, log: Log) {
    if filter == "error" then IsFailure(log)
    else if filter == "slow" then log.slow || LatencyWarned(log)
    else true
  }

  function KeepsFor(filter: string): Log -> bool {
    log => Keeps(filter, log)
  }

  /** `filteredLogs`: the calls the selector keeps, in table order. */
  function FilteredLogs(logs: seq<Log>, filter: string): (r: seq<Log>)
    ensures filter == "error" ==> forall log :: log in r <==> log in logs && log.status >= 400
    ensures filter == "slow" ==> forall log :: log in r <==> log in logs && (log.slow || LatencyWarned(log))
    ensures filter != "error" && filter != "slow" ==> r == logs
    ensures IsSubseq(r, logs)
  {
    FilterIsSubseq(logs, KeepsFor(filter));
    if filter != "error" && filter != "slow" then
      FilterKeepsAll(logs, KeepsFor(filter));
      Filter(logs, KeepsFor(filter))
    else
      Filter(logs, KeepsFor(filter))
  }

  /** The status badge: error from 500, warning from 400, success below. */
  function StatusVariant(status: int): (v: Variant)
    ensures v == Error <==> status >= 500
    ensures v == Warning <==> 400 <= status < 500
    ensures v == Success <==> status < 400
  {
    if status >= 500 then Error else if status >= 400 then Warning else Success
  }

  /** `row-error`: a row is highlighted exactly when its status badge is not green. */
  function RowHighlighted(log: Log): (b: bool)
    ensures b <==> StatusVariant(log.status) != Success
  {
    log.status >= 400
  }

  /** Under the error selector every row shown is highlighted. */
  lemma ErrorRowsHighlighted(logs: seq<Log>, log: Log)
    requires log in FilteredLogs(logs, "error")
    ensures RowHighlighted(log)
  {
  }

  /** Under the slow selector every row shown is flagged or has its latency in the warning colour. */
  lemma SlowRowsWarned(logs: seq<Log>, log: Log)
    requires log in FilteredLogs(logs, "slow")
    ensures log.slow || LatencyWarned(log)
  {
  }

  /**
   * For a latency written as a number of milliseconds (`"800ms"`), the slow selector
   * keeps the call exactly when it is flagged or the number exceeds 200.
   */
  lemma SlowSelectsByMilliseconds(logs: seq<Log>, log: Log, ms: nat)
    requires log in logs && log.latency == Decimal(ms) + "ms"
    ensures log in FilteredLogs(logs, "slow") <==> log.slow || ms > SlowThreshold
  {
    LatencyWarnedByMilliseconds(log, ms);
  }

  /** On the fixed table, the error selector shows the 500 and the 403 calls, in that order. */
  lemma MockErrorLogs()
    ensures FilteredLogs(MockLogs, "error") == [MockLogs[2], MockLogs[4]]
  {
    MockErrorTail();
    assert MockLogs[1..][1..] == MockLogs[2..];
    assert !IsFailure(MockLogs[0]) && !IsFailure(MockLogs[1]);
  }

  lemma MockErrorTail()
    ensures Filter(MockLogs[2..], KeepsFor("error")) == [MockLogs[2], MockLogs[4]]
  {
    var f := KeepsFor("error");
    var t := MockLogs[2..];
    var t2 := t[1..][1..];
    assert t2 == [MockLogs[4]] && t2[1..] == [];
    assert Filter(t2, f) == [MockLogs[4]];
    assert t[1..][0] == MockLogs[3];
    assert Filter(t[1..], f) == Filter(t2, f);
    assert Filter(t, f) == [MockLogs[2]] + Filter(t[1..], f);
  }
}
