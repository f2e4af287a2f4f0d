/** The watchdog's alert machine: one `step` per run, from the previous state and the results of every
    check to the next state and the messages to send (`ops/watchdog/core.ts`). */
module Alerts {
  import opened Machine

  datatype Severity = Critical | Failure

  datatype Finding = Finding(key: string, severity: Severity, text: string)

  datatype CheckResult =
    | Passed(check: string, findings: seq<Finding>)
    | Errored(check: string, error: string)

  datatype OpenFinding = OpenFinding(finding: Finding, check: string, since: int)

  type Alarms = map<string, OpenFinding>

  /** `failures` holds the checks that failed in the last run, with how many runs in a row. */
  datatype State = State(open: Alarms, lastHeartbeatDay: Option<int>, failures: map<string, nat>)

  const EMPTY_STATE: State := State(map[], None, map[])

  datatype Message = Opened(key: string, finding: Finding) | Resolved(key: string) | Heartbeat(day: int,
      keys: set<string>)

  const DAY_MS: int := 86_400_000

  /** The UTC day of a time in milliseconds. */
  function Day(now: int): int {
    now / DAY_MS
  }

  function RpcKey(check: string): string {
    "rpc:" + check
  }

  // ---- what one result adds ----

  function FailuresOf(failures: map<string, nat>, check: string): nat {
    if check in failures then failures[check] else 0
  }

  /** An errored check keeps what it had open. */
  function Kept(prev: Alarms, check: string): Alarms {
    map key | key in prev && prev[key].check == check :: prev[key]
  }

  /** A finding goes on since it first opened. */
  function Raised(prev: Alarms, f: Finding, check: string, now: int): OpenFinding {
    OpenFinding(f, check, if f.key in prev then prev[f.key].since else now)
  }

  function WithFindings(open: Alarms, prev: Alarms, findings: seq<Finding>, check: string, now: int): Alarms {
    if findings == [] then open
    else
      var n := |findings| - 1;
      WithFindings(open, prev, findings[..n], check, now)[findings[n].key := Raised(prev, findings[n], check, now)]
  }

  function RpcFinding(r: CheckResult): Finding
    requires r.Errored?
  {
    Finding(RpcKey(r.check), Failure, r.error)
  }

  /** The findings a result counts for: its own, or once it failed often enough, the failure. */
  function FindingsFor(prev: State, r: CheckResult, threshold: int): seq<Finding> {
    match r
    case Passed(_, findings) => findings
    case Errored(check, _) => if FailuresOf(prev.failures, check) + 1 < threshold then [] else [RpcFinding(r)]
  }

  function WithResult(open: Alarms, prev: State, r: CheckResult, now: int, threshold: int): Alarms {
    WithFindings(if r.Errored? then open + Kept(prev.open, r.check) else open,
                 prev.open, FindingsFor(prev, r, threshold), r.check, now)
  }

  function OpenAfter(prev: State, results: seq<CheckResult>, now: int, threshold: int): Alarms {
    if results == [] then map[]
    else
      var n := |results| - 1;
      WithResult(OpenAfter(prev, results[..n], now, threshold), prev, results[n], now, threshold)
  }

  function FailuresAfter(prev: State, results: seq<CheckResult>): map<string, nat> {
    if results == [] then map[]
    else
      var n := |results| - 1;
      var failures := FailuresAfter(prev, results[..n]);
      if results[n].Errored? then
        failures[results[n].check := FailuresOf(prev.failures, results[n].check) + 1]
      else failures
  }

  function Next(prev: State, results: seq<CheckResult>, now: int, threshold: int): State {
    State(OpenAfter(prev, results, now, threshold), Some(Day(now)), FailuresAfter(prev, results))
  }

  /** The messages one run owes: each finding that became open, each that went away, and on a new day
      one heartbeat. */
  ghost predicate Owed(prev: State, next: State, m: Message) {
    match m
    case Opened(key, f) => key in next.open && key !in prev.open && f == next.open[key].finding
    case Resolved(key) => key in prev.open && key !in next.open
    case Heartbeat(day, keys) =>
      next.lastHeartbeatDay == Some(day) && prev.lastHeartbeatDay != Some(day) && keys == next.open.Keys
  }

  // ---- the run itself ----

  method AddKept(open: Alarms, prev: Alarms, check: string) returns (open': Alarms)
    ensures open' == open + Kept(prev, check)
  {
    open' := open;
    var left := prev.Keys;
    ghost var done: set<string> := {};
    while left != {}
      invariant left + done == prev.Keys && left !! done
      invariant open'.Keys == open.Keys + set key | key in done && prev[key].check == check
      invariant forall key :: key in open' ==>
                  open'[key] == if key in done && prev[key].check == check then prev[key] else open[key]
    {
      var key :| key in left;
      if prev[key].check == check {
        open' := open'[key := prev[key]];
      }
      left := left - {key};
      done := done + {key};
    }
    assert done == prev.Keys;
  }

  method AddFindings(open: Alarms, prev: Alarms, findings: seq<Finding>, check: string, now: int)
      returns (open': Alarms)
    ensures open' == WithFindings(open, prev, findings, check, now)
  {
    open' := open;
    for i := 0 to |findings|
      invariant open' == WithFindings(open, prev, findings[..i], check, now)
    {
      var f := findings[i];
      assert findings[..i + 1][..i] == findings[..i];
      open' := open'[f.key := OpenFinding(f, check, if f.key in prev then prev[f.key].since else now)];
    }
    assert findings[..|findings|] == findings;
  }

  /** `step`. */
  method Step(prev: State, results: seq<CheckResult>, now: int, threshold: int)
      returns (messages: seq<Message>, next: State)
    ensures next == Next(prev, results, now, threshold)
    ensures forall m :: m in messages <==> Owed(prev, next, m)
    ensures forall i, j :: 0 <= i < j < |messages| ==> messages[i] != messages[j]
  {
    var open: Alarms, failures: map<string, nat> := map[], map[];
    for i := 0 to |results|
      invariant open == OpenAfter(prev, results[..i], now, threshold)
      invariant failures == FailuresAfter(prev, results[..i])
    {
      var result := results[i];
      assert results[..i + 1][..i] == results[..i];
      var findings: seq<Finding>;
      if result.Errored? {
        open := AddKept(open, prev.open, result.check);
        failures := failures[result.check := FailuresOf(prev.failures, result.check) + 1];
        findings := if failures[result.check] < threshold then [] else [RpcFinding(result)];
      } else {
        findings := result.findings;
      }
      open := AddFindings(open, prev.open, findings, result.check, now);
    }
    assert results[..|results|] == results;
    next := State(open, Some(Day(now)), failures);
    messages := Announce(prev, next);
  }

  method Announce(prev: State, next: State) returns (messages: seq<Message>)
    requires next.lastHeartbeatDay.Some?
    ensures forall m :: m in messages <==> Owed(prev, next, m)
    ensures forall i, j :: 0 <= i < j < |messages| ==> messages[i] != messages[j]
  {
    var day := next.lastHeartbeatDay.value;
    messages := Changes(prev.open, next.open);
    if prev.lastHeartbeatDay != Some(day) {
      ghost var changes := messages;
      var beat := Heartbeat(day, next.open.Keys);
      messages := messages + [beat];
      forall m ensures m in messages <==> Owed(prev, next, m) {
        assert m in messages <==> m in changes || m == beat;
        if m.Heartbeat? && Owed(prev, next, m) {
          assert m.keys == beat.keys;
        }
      }
      forall i | 0 <= i < |changes| ensures changes[i] != beat {
        assert changes[i] in changes;
      }
    }
  }

  /** The two loops over what opened and what closed. */
  method Changes(before: Alarms, open: Alarms) returns (messages: seq<Message>)
    ensures forall m :: m in messages <==>
              || (m.Opened? && m.key in open && m.key !in before && m.finding == open[m.key].finding)
              || (m.Resolved? && m.key in before && m.key !in open)
    ensures forall i, j :: 0 <= i < j < |messages| ==> messages[i] != messages[j]
  {
    messages := [];
    var left := open.Keys;
    while left != {}
      invariant left <= open.Keys
      invariant forall m :: m in messages <==>
                  m.Opened? && m.key in open.Keys - left && m.key !in before && m.finding == open[m.key].finding
      invariant forall i, j :: 0 <= i < j < |messages| ==> messages[i] != messages[j]
    {
      var key :| key in left;
      if key !in before {
        messages := messages + [Opened(key, open[key].finding)];
      }
      left := left - {key};
    }
    left := before.Keys;
    while left != {}
      invariant left <= before.Keys
      invariant forall m :: m in messages <==>
                  || (m.Opened? && m.key in open && m.key !in before && m.finding == open[m.key].finding)
                  || (m.Resolved? && m.key in before.Keys - left && m.key !in open)
      invariant forall i, j :: 0 <= i < j < |messages| ==> messages[i] != messages[j]
    {
      var key :| key in left;
      if key !in open {
        messages := messages + [Resolved(key)];
      }
      left := left - {key};
    }
  }

  // ---- one step ----

  predicate Fails(results: seq<CheckResult>, check: string) {
    exists i :: 0 <= i < |results| && results[i].Errored? && results[i].check == check
  }

  /** An open finding only ever gets a start it already had, or the present. */
  lemma {:induction false} FindingsSince(open: Alarms, prev: Alarms, findings: seq<Finding>, check: string, now: int,
      key: string)
    ensures var after := WithFindings(open, prev, findings, check, now);
            && (key in open ==> key in after)
            && (key in after ==>
                  || after[key].since == (if key in prev then prev[key].since else now)
                  || (key in open && after[key] == open[key]))
    decreases |findings|
  {
    if findings != [] {
      FindingsSince(open, prev, findings[..|findings| - 1], check, now, key);
    }
  }

  lemma {:induction false} SinceKept(prev: State, results: seq<CheckResult>, now: int, threshold: int, key: string)
    ensures var open := OpenAfter(prev, results, now, threshold);
            key in open ==> open[key].since == if key in prev.open then prev.open[key].since else now
    decreases |results|
  {
    if results != [] {
      var n := |results| - 1;
      SinceKept(prev, results[..n], now, threshold, key);
      var before := OpenAfter(prev, results[..n], now, threshold);
      var kept := if results[n].Errored? then before + Kept(prev.open, results[n].check) else before;
      FindingsSince(kept, prev.open, FindingsFor(prev, results[n], threshold), results[n].check, now, key);
    }
  }

  /** A failure count is one more than last time, and there only for the checks that failed now. */
  lemma {:induction false} FailuresCount(prev: State, results: seq<CheckResult>, check: string)
    ensures var failures := FailuresAfter(prev, results);
            && (check in failures <==> Fails(results, check))
            && (check in failures ==> failures[check] == FailuresOf(prev.failures, check) + 1)
    decreases |results|
  {
    if results != [] {
      var n := |results| - 1;
      FailuresCount(prev, results[..n], check);
      if Fails(results[..n], check) {
        var i :| 0 <= i < n && results[..n][i].Errored? && results[..n][i].check == check;
        assert results[i].Errored? && results[i].check == check;
      }
      if Fails(results, check) && !(results[n].Errored? && results[n].check == check) {
        var i :| 0 <= i < |results| && results[i].Errored? && results[i].check == check;
        assert results[..n][i] == results[i];
      }
    }
  }

  /** What is open stays open through the rest of the run's results. */
  lemma {:induction false} OpenGrows(prev: State, results: seq<CheckResult>, i: nat, now: int, threshold: int,
      key: string)
    requires i <= |results| && key in OpenAfter(prev, results[..i], now, threshold)
    ensures key in OpenAfter(prev, results, now, threshold)
    decreases |results|
  {
    var n := |results|;
    if i < n {
      assert results[..n - 1][..i] == results[..i];
      OpenGrows(prev, results[..n - 1], i, now, threshold, key);
      var before := OpenAfter(prev, results[..n - 1], now, threshold);
      var kept := if results[n - 1].Errored? then before + Kept(prev.open, results[n - 1].check) else before;
      FindingsSince(kept, prev.open, FindingsFor(prev, results[n - 1], threshold), results[n - 1].check, now, key);
    } else {
      assert results[..i] == results;
    }
  }

  /** A check that could not run never resolves what it had found: its result is unknown. */
  lemma ErroredKeeps(prev: State, results: seq<CheckResult>, now: int, threshold: int, key: string)
    requires key in prev.open && Fails(results, prev.open[key].check)
    ensures key in Next(prev, results, now, threshold).open
    ensures !Owed(prev, Next(prev, results, now, threshold), Resolved(key))
  {
    var i :| 0 <= i < |results| && results[i].Errored? && results[i].check == prev.open[key].check;
    assert results[..i + 1][..i] == results[..i];
    var kept := OpenAfter(prev, results[..i], now, threshold) + Kept(prev.open, results[i].check);
    assert key in kept;
    FindingsSince(kept, prev.open, FindingsFor(prev, results[i], threshold), results[i].check, now, key);
    OpenGrows(prev, results, i + 1, now, threshold, key);
  }

  // ---- what is open after a run ----

  /** A result raises a finding: a check that got through reports its own, and one that failed, once it did
      so often enough in a row, its failure. */
  predicate Raises(prev: State, r: CheckResult, threshold: int, f: Finding) {
    match r
    case Passed(_, findings) => f in findings
    case Errored(check, error) =>
      && (if check in prev.failures then prev.failures[check] else 0) + 1 >= threshold
      && f == Finding("rpc:" + check, Failure, error)
  }

  /** An open finding with its reason to be open: a result of this run reports it, or it was open before and
      its check failed in this run. */
  ghost predicate Founded(prev: State, results: seq<CheckResult>, now: int, threshold: int, o: OpenFinding) {
    || (exists i ::
          && 0 <= i < |results| && Raises(prev, results[i], threshold, o.finding) && o.check == results[i].check
          && o.since == if o.finding.key in prev.open then prev.open[o.finding.key].since else now)
    || (o.finding.key in prev.open && o == prev.open[o.finding.key] && Fails(results, o.check))
  }

  /** Findings are stored under their own keys. */
  predicate Keyed(open: Alarms) {
    forall key :: key in open ==> open[key].finding.key == key
  }

  lemma FoundedOn(prev: State, results: seq<CheckResult>, now: int, threshold: int, o: OpenFinding)
    requires results != [] && Founded(prev, results[..|results| - 1], now, threshold, o)
    ensures Founded(prev, results, now, threshold, o)
  {
    var rest := results[..|results| - 1];
    if i :| && 0 <= i < |rest| && Raises(prev, rest[i], threshold, o.finding) && o.check == rest[i].check
            && o.since == if o.finding.key in prev.open then prev.open[o.finding.key].since else now
    {
      assert Raises(prev, results[i], threshold, o.finding);
    } else {
      var i :| 0 <= i < |rest| && rest[i].Errored? && rest[i].check == o.check;
      assert results[i].Errored? && results[i].check == o.check;
    }
  }

  lemma {:induction false} FindingsAdded(open: Alarms, prev: Alarms, findings: seq<Finding>, check: string, now: int)
    ensures var after := WithFindings(open, prev, findings, check, now);
            && open.Keys <= after.Keys && (Keyed(open) ==> Keyed(after))
            && (forall f :: f in findings ==> f.key in after)
            && (forall key :: key in after ==>
                  || (key in open && after[key] == open[key])
                  || (after[key].finding in findings && after[key] == Raised(prev, after[key].finding, check, now)))
    decreases |findings|
  {
    if findings != [] {
      FindingsAdded(open, prev, findings[..|findings| - 1], check, now);
    }
  }

  /** Why a finding is open after one more result. */
  lemma StillFounded(prev: State, results: seq<CheckResult>, now: int, threshold: int, before: Alarms, key: string)
    requires results != [] && key in WithResult(before, prev, results[|results| - 1], now, threshold)
    requires key in before ==> Founded(prev, results[..|results| - 1], now, threshold, before[key])
    requires Keyed(prev.open)
    ensures Founded(prev, results, now, threshold,
                    WithResult(before, prev, results[|results| - 1], now, threshold)[key])
  {
    hide WithFindings;
    var n := |results| - 1;
    var r := results[n];
    var kept := if r.Errored? then before + Kept(prev.open, r.check) else before;
    var o := WithResult(before, prev, r, now, threshold)[key];
    FindingsAdded(kept, prev.open, FindingsFor(prev, r, threshold), r.check, now);
    if key in kept && o == kept[key] {
      if r.Errored? && key in Kept(prev.open, r.check) {
        assert results[n].Errored? && results[n].check == o.check;
      } else {
        FoundedOn(prev, results, now, threshold, before[key]);
      }
    } else {
      assert Raises(prev, results[n], threshold, o.finding);
    }
  }

  lemma RunKeepsKeys(prev: State, results: seq<CheckResult>, now: int, threshold: int)
    requires results != [] && Keyed(prev.open)
    requires var open := OpenAfter(prev, results[..|results| - 1], now, threshold);
             && Keyed(open)
             && forall key :: key in open ==>
                  Founded(prev, results[..|results| - 1], now, threshold, open[key])
    ensures var open := OpenAfter(prev, results, now, threshold);
            Keyed(open) && forall key :: key in open ==> Founded(prev, results, now, threshold, open[key])
  {
    hide Founded, WithFindings;
    var r := results[|results| - 1];
    var before := OpenAfter(prev, results[..|results| - 1], now, threshold);
    var kept := if r.Errored? then before + Kept(prev.open, r.check) else before;
    FindingsAdded(kept, prev.open, FindingsFor(prev, r, threshold), r.check, now);
    var open := OpenAfter(prev, results, now, threshold);
    forall key | key in open ensures Founded(prev, results, now, threshold, open[key]) {
      StillFounded(prev, results, now, threshold, before, key);
    }
  }

  lemma {:induction false} FoundedAfter(prev: State, results: seq<CheckResult>, now: int, threshold: int)
    requires Keyed(prev.open)
    ensures var open := OpenAfter(prev, results, now, threshold);
            Keyed(open) && forall key :: key in open ==> Founded(prev, results, now, threshold, open[key])
    decreases |results|
  {
    hide Founded, Keyed;
    if results == [] {
      NothingKeyed();
    } else {
      FoundedAfter(prev, results[..|results| - 1], now, threshold);
      RunKeepsKeys(prev, results, now, threshold);
    }
  }

  lemma NothingKeyed()
    ensures Keyed(map[])
  {
  }

  lemma ReportedOpen(prev: State, results: seq<CheckResult>, i: nat, now: int, threshold: int, f: Finding)
    requires i < |results| && Raises(prev, results[i], threshold, f)
    ensures f.key in OpenAfter(prev, results, now, threshold)
  {
    var upTo := results[..i + 1];
    assert upTo[..i] == results[..i];
    var before := OpenAfter(prev, results[..i], now, threshold);
    var kept := if results[i].Errored? then before + Kept(prev.open, results[i].check) else before;
    FindingsAdded(kept, prev.open, FindingsFor(prev, results[i], threshold), results[i].check, now);
    assert f in FindingsFor(prev, results[i], threshold);
    OpenGrows(prev, results, i + 1, now, threshold, f.key);
  }

  /** After any run from a state that stores findings under their own keys: everything a result of the run
      reports is open, everything a failed check had open still is, and nothing else; and each open finding
      is one reported now, going on since it first opened, or exactly what was open before. */
  lemma OpenExactly(prev: State, results: seq<CheckResult>, now: int, threshold: int, key: string)
    requires Keyed(prev.open)
    ensures var open := Next(prev, results, now, threshold).open;
            && Keyed(open)
            && (key in open
                <==> || (exists i, f: Finding ::
                           0 <= i < |results| && f.key == key && Raises(prev, results[i], threshold, f))
                     || (key in prev.open && Fails(results, prev.open[key].check)))
            && (key in open ==> Founded(prev, results, now, threshold, open[key]))
  {
    hide OpenAfter;
    var open := OpenAfter(prev, results, now, threshold);
    FoundedAfter(prev, results, now, threshold);
    if i, f: Finding :| 0 <= i < |results| && f.key == key && Raises(prev, results[i], threshold, f) {
      ReportedOpen(prev, results, i, now, threshold, f);
    }
    if key in prev.open && Fails(results, prev.open[key].check) {
      ErroredKeeps(prev, results, now, threshold, key);
    }
    if key in open {
      assert open[key].finding.key == key && Founded(prev, results, now, threshold, open[key]);
    }
  }

  /** A day of the heartbeat is 86,400,000 milliseconds. */
  lemma DayBounds(now: int)
    ensures Day(now) * 86_400_000 <= now < (Day(now) + 1) * 86_400_000
  {
  }
}
