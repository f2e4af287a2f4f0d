/** The alert machine over whole sequences of runs, from the empty state. */
module AlertRuns {
  import opened Machine
  import opened Alerts

  datatype Tick = Tick(results: seq<CheckResult>, now: int, threshold: int)

  function After(ticks: seq<Tick>): State {
    if ticks == [] then EMPTY_STATE
    else
      var t := ticks[|ticks| - 1];
      Next(After(ticks[..|ticks| - 1]), t.results, t.now, t.threshold)
  }

  // ---- opened and resolved alternate ----

  /** The messages about one key, in order: true for opened, false for resolved. */
  ghost function Signals(ticks: seq<Tick>, key: string): seq<bool> {
    if ticks == [] then []
    else
      var n := |ticks| - 1;
      Signals(ticks[..n], key)
      + (if exists f :: Owed(After(ticks[..n]), After(ticks), Opened(key, f)) then [true] else [])
      + (if Owed(After(ticks[..n]), After(ticks), Resolved(key)) then [false] else [])
  }

  lemma SignalsNext(ticks: seq<Tick>, key: string)
    requires ticks != []
    ensures var before, now, said := After(ticks[..|ticks| - 1]).open, After(ticks).open,
        Signals(ticks[..|ticks| - 1], key);
            Signals(ticks, key) == (if key in now && key !in before then said + [true]
                                    else if key in before && key !in now then said + [false]
                                    else said)
  {
    hide After;
    var before, after := After(ticks[..|ticks| - 1]), After(ticks);
    if key in after.open && key !in before.open {
      assert Owed(before, after, Opened(key, after.open[key].finding));
    }
  }

  predicate Alternating(said: seq<bool>) {
    forall i :: 0 <= i < |said| ==> (said[i] <==> i % 2 == 0)
  }

  /** For every key the messages alternate, opened first, and the key is open after an odd number. */
  lemma {:induction false} Alternates(ticks: seq<Tick>, key: string)
    ensures Alternating(Signals(ticks, key))
    ensures key in After(ticks).open <==> |Signals(ticks, key)| % 2 == 1
    decreases |ticks|
  {
    hide After, Signals;
    if ticks == [] {
      SilentAtFirst(key);
    } else {
      Alternates(ticks[..|ticks| - 1], key);
      SignalsNext(ticks, key);
      AlternatesOn(Signals(ticks[..|ticks| - 1], key));
      hide Alternating;
    }
  }

  lemma SilentAtFirst(key: string)
    ensures Signals([], key) == [] && key !in After([]).open
  {
  }

  lemma AlternatesOn(said: seq<bool>)
    requires Alternating(said)
    ensures Alternating(said + [|said| % 2 == 0])
  {
  }

  // ---- since ----

  /** Run `s` opened the key and it has been open ever since. */
  ghost predicate OpenSince(ticks: seq<Tick>, s: nat, key: string) {
    && s < |ticks| && key !in After(ticks[..s]).open
    && forall t :: s < t <= |ticks| ==> key in After(ticks[..t]).open
  }

  lemma SinceStep(ticks: seq<Tick>, key: string)
    requires ticks != [] && key in After(ticks).open
    ensures var n := |ticks| - 1;
            var before := After(ticks[..n]).open;
            After(ticks).open[key].since == if key in before then before[key].since else ticks[n].now
  {
    var n := |ticks| - 1;
    SinceKept(After(ticks[..n]), ticks[n].results, ticks[n].now, ticks[n].threshold, key);
  }

  lemma NothingOpen(key: string)
    ensures key !in After([]).open
  {
  }

  lemma {:induction false} SinceFirst(ticks: seq<Tick>, key: string) returns (s: nat)
    requires key in After(ticks).open
    ensures OpenSince(ticks, s, key) && After(ticks).open[key].since == ticks[s].now
    decreases |ticks|
  {
    hide After;
    NothingOpen(key);
    SinceStep(ticks, key);
    var n := |ticks| - 1;
    assert ticks[..|ticks|] == ticks;
    if key in After(ticks[..n]).open {
      s := SinceFirst(ticks[..n], key);
      assert ticks[..n][..s] == ticks[..s];
      forall u | s < u <= |ticks| ensures key in After(ticks[..u]).open {
        if u <= n {
          assert ticks[..n][..u] == ticks[..u];
        }
      }
    } else {
      s := n;
    }
  }

  /** The start of an open finding is the time of the first run of its current open stretch. */
  lemma SinceStretch(ticks: seq<Tick>, key: string)
    requires key in After(ticks).open
    ensures exists s: nat :: OpenSince(ticks, s, key) && After(ticks).open[key].since == ticks[s].now
  {
    var s := SinceFirst(ticks, key);
  }

  // ---- failure streaks ----

  /** In how many of the last runs, without a gap, a check failed. */
  function Streak(ticks: seq<Tick>, check: string): nat {
    if ticks == [] then 0
    else if Fails(ticks[|ticks| - 1].results, check) then Streak(ticks[..|ticks| - 1], check) + 1
    else 0
  }

  lemma {:induction false} FailuresAreStreaks(ticks: seq<Tick>, check: string)
    ensures var failures := After(ticks).failures;
            && (check in failures <==> Streak(ticks, check) > 0)
            && FailuresOf(failures, check) == Streak(ticks, check)
    decreases |ticks|
  {
    if ticks != [] {
      var n := |ticks| - 1;
      FailuresAreStreaks(ticks[..n], check);
      FailuresCount(After(ticks[..n]), ticks[n].results, check);
    }
  }

  // ---- the alert about a check that keeps failing ----

  /** No check reports the key itself. */
  predicate Free(results: seq<CheckResult>, key: string) {
    forall i :: 0 <= i < |results| && results[i].Passed? ==>
      forall j :: 0 <= j < |results[i].findings| ==> results[i].findings[j].key != key
  }

  lemma RpcKeysDiffer(c: string, d: string)
    requires RpcKey(c) == RpcKey(d)
    ensures c == d
  {
    assert RpcKey(c)[4..] == c && RpcKey(d)[4..] == d;
  }

  lemma {:induction false} FindingsElsewhere(open: Alarms, prev: Alarms, findings: seq<Finding>, check: string,
      now: int, key: string)
    requires forall j :: 0 <= j < |findings| ==> findings[j].key != key
    ensures var after := WithFindings(open, prev, findings, check, now);
            && (key in after <==> key in open)
            && (key in open ==> after[key] == open[key])
    decreases |findings|
  {
    if findings != [] {
      FindingsElsewhere(open, prev, findings[..|findings| - 1], check, now, key);
    }
  }

  /** Whether a result opens, or keeps open, the alert about `c`. */
  ghost predicate Alerting(prev: State, r: CheckResult, c: string, threshold: int) {
    && r.Errored?
    && ((RpcKey(c) in prev.open && prev.open[RpcKey(c)].check == r.check)
        || (r.check == c && FailuresOf(prev.failures, c) + 1 >= threshold))
  }

  lemma OneResult(open: Alarms, prev: State, r: CheckResult, now: int, threshold: int, c: string)
    requires Free([r], RpcKey(c))
    requires RpcKey(c) in open ==> open[RpcKey(c)].check == c
    requires RpcKey(c) in prev.open ==> prev.open[RpcKey(c)].check == c
    ensures var after, key := WithResult(open, prev, r, now, threshold), RpcKey(c);
            && (key in after <==> key in open || Alerting(prev, r, c, threshold))
            && (key in after ==> after[key].check == c)
  {
    var key := RpcKey(c);
    var kept := if r.Errored? then open + Kept(prev.open, r.check) else open;
    var findings := FindingsFor(prev, r, threshold);
    if r.Errored? && findings != [] && r.check == c {
      assert findings[..0] == [];
    } else {
      forall j | 0 <= j < |findings| ensures findings[j].key != key {
        if r.Errored? && findings[j].key == key {
          RpcKeysDiffer(c, r.check);
        } else {
          assert r.Passed? ==> [r][0].findings[j].key != key;
        }
      }
      FindingsElsewhere(kept, prev.open, findings, r.check, now, key);
    }
  }

  lemma {:induction false} ManyResults(prev: State, results: seq<CheckResult>, now: int, threshold: int, c: string)
    requires Free(results, RpcKey(c)) && (RpcKey(c) in prev.open ==> prev.open[RpcKey(c)].check == c)
    ensures var after, key := OpenAfter(prev, results, now, threshold), RpcKey(c);
            && (key in after <==> exists i :: 0 <= i < |results| && Alerting(prev, results[i], c, threshold))
            && (key in after ==> after[key].check == c)
    decreases |results|
  {
    if results != [] {
      var n := |results| - 1;
      ManyResults(prev, results[..n], now, threshold, c);
      OneResult(OpenAfter(prev, results[..n], now, threshold), prev, results[n], now, threshold, c);
      hide Alerting, WithResult, RpcKey;
      if i :| 0 <= i < n && Alerting(prev, results[..n][i], c, threshold) {
        assert Alerting(prev, results[i], c, threshold);
      }
      if i :| 0 <= i < |results| && Alerting(prev, results[i], c, threshold) {
        assert i < n ==> Alerting(prev, results[..n][i], c, threshold);
      }
    }
  }

  /** With one threshold throughout and no check using the key itself, the alert about a check is open
      exactly while the check has failed that many runs in a row. */
  lemma {:induction false} RpcOpenExactly(ticks: seq<Tick>, c: string, threshold: int)
    requires threshold >= 1
    requires forall n :: 0 <= n < |ticks| ==> ticks[n].threshold == threshold && Free(ticks[n].results, RpcKey(c))
    ensures RpcKey(c) in After(ticks).open <==> Streak(ticks, c) >= threshold
    ensures RpcKey(c) in After(ticks).open ==> After(ticks).open[RpcKey(c)].check == c
    decreases |ticks|
  {
    if ticks != [] {
      var n := |ticks| - 1;
      var prev, t := After(ticks[..n]), ticks[n];
      RpcOpenExactly(ticks[..n], c, threshold);
      FailuresAreStreaks(ticks[..n], c);
      ManyResults(prev, t.results, t.now, threshold, c);
      if i :| 0 <= i < |t.results| && Alerting(prev, t.results[i], c, threshold) {
        assert Fails(t.results, c);
      }
      if Fails(t.results, c) && Streak(ticks, c) >= threshold {
        var i :| 0 <= i < |t.results| && t.results[i].Errored? && t.results[i].check == c;
        assert Alerting(prev, t.results[i], c, threshold);
      }
    }
  }

  // ---- a finding that one check reports, or not, in every run ----

  /** A result that has nothing to do with the key: another check's, with other keys. */
  predicate Elsewhere(r: CheckResult, check: string, key: string) {
    r.check != check && Free([r], key) && RpcKey(r.check) != key
  }

  /** In this run the check is result number `i` and alone in having to do with the key. It failed, or
      reported the key, or did not. */
  predicate Ran(results: seq<CheckResult>, i: nat, check: string, key: string, seen: Option<bool>) {
    && i < |results| && results[i].check == check && RpcKey(check) != key
    && (forall j :: 0 <= j < |results| && j != i ==> Elsewhere(results[j], check, key))
    && (results[i].Errored? <==> seen.None?)
    && (seen.Some? ==> (seen.value <==> Reports(results[i].findings, key)))
  }

  predicate Reports(findings: seq<Finding>, key: string) {
    exists j :: 0 <= j < |findings| && findings[j].key == key
  }

  /** What the check said the last time it ran through. */
  function LastSeen(seen: seq<Option<bool>>): bool {
    if seen == [] then false
    else if seen[|seen| - 1].Some? then seen[|seen| - 1].value
    else LastSeen(seen[..|seen| - 1])
  }

  /** The key is closed, or open under the check. */
  predicate OpenUnder(open: Alarms, check: string, key: string, isOpen: bool) {
    (key in open <==> isOpen) && (key in open ==> open[key].check == check)
  }

  lemma ElsewhereAdds(open: Alarms, prev: State, r: CheckResult, now: int, threshold: int, check: string, key: string,
                      isOpen: bool)
    requires Elsewhere(r, check, key) && OpenUnder(open, check, key, isOpen)
    requires key in prev.open ==> prev.open[key].check == check
    ensures OpenUnder(WithResult(open, prev, r, now, threshold), check, key, isOpen)
  {
    var kept := if r.Errored? then open + Kept(prev.open, r.check) else open;
    var findings := FindingsFor(prev, r, threshold);
    forall j | 0 <= j < |findings| ensures findings[j].key != key {
      assert r.Passed? ==> [r][0].findings[j].key != key;
    }
    FindingsElsewhere(kept, prev.open, findings, r.check, now, key);
  }

  lemma {:induction false} FindingsReported(open: Alarms, prev: Alarms, findings: seq<Finding>, check: string, now: int,
                                            key: string)
    requires key !in open
    ensures OpenUnder(WithFindings(open, prev, findings, check, now), check, key, Reports(findings, key))
    decreases |findings|
  {
    if findings != [] {
      var n := |findings| - 1;
      FindingsReported(open, prev, findings[..n], check, now, key);
      if Reports(findings[..n], key) {
        var j :| 0 <= j < n && findings[..n][j].key == key;
        assert findings[j].key == key;
      }
      if Reports(findings, key) && findings[n].key != key {
        var j :| 0 <= j < |findings| && findings[j].key == key;
        assert findings[..n][j].key == key;
      }
    }
  }

  lemma CheckAdds(open: Alarms, prev: State, r: CheckResult, now: int, threshold: int, key: string, wasOpen: bool)
    requires key !in open && RpcKey(r.check) != key && OpenUnder(prev.open, r.check, key, wasOpen)
    ensures OpenUnder(WithResult(open, prev, r, now, threshold), r.check, key,
                      if r.Errored? then wasOpen else Reports(r.findings, key))
  {
    if r.Errored? {
      var kept := open + Kept(prev.open, r.check);
      FindingsElsewhere(kept, prev.open, FindingsFor(prev, r, threshold), r.check, now, key);
    } else {
      FindingsReported(open, prev.open, r.findings, r.check, now, key);
    }
  }

  lemma {:induction false} RanOpens(prev: State, results: seq<CheckResult>, i: nat, check: string, key: string,
                                    seen: Option<bool>, wasOpen: bool, now: int, threshold: int, n: nat)
    requires Ran(results, i, check, key, seen) && OpenUnder(prev.open, check, key, wasOpen) && n <= |results|
    ensures OpenUnder(OpenAfter(prev, results[..n], now, threshold), check, key,
                      i < n && if seen.Some? then seen.value else wasOpen)
    decreases n
  {
    if n > 0 {
      assert results[..n][..n - 1] == results[..n - 1];
      RanOpens(prev, results, i, check, key, seen, wasOpen, now, threshold, n - 1);
      var open := OpenAfter(prev, results[..n - 1], now, threshold);
      if n - 1 == i {
        CheckAdds(open, prev, results[i], now, threshold, key, wasOpen);
      } else {
        ElsewhereAdds(open, prev, results[n - 1], now, threshold, check, key,
                      i < n - 1 && if seen.Some? then seen.value else wasOpen);
      }
    }
  }

  /** A finding is open after any runs exactly when the check reported it the last time it ran through:
      it opens with the first report, outlives failures of the check, and resolves with the first pass
      that no longer reports it. */
  lemma {:induction false} OpenAsLastSeen(ticks: seq<Tick>, places: seq<nat>, check: string, key: string,
                                          seen: seq<Option<bool>>)
    requires |places| == |seen| == |ticks|
    requires forall n :: 0 <= n < |ticks| ==> Ran(ticks[n].results, places[n], check, key, seen[n])
    ensures OpenUnder(After(ticks).open, check, key, LastSeen(seen))
    decreases |ticks|
  {
    if ticks != [] {
      var n := |ticks| - 1;
      var t := ticks[n];
      OpenAsLastSeen(ticks[..n], places[..n], check, key, seen[..n]);
      assert t.results[..|t.results|] == t.results;
      RanOpens(After(ticks[..n]), t.results, places[n], check, key, seen[n], LastSeen(seen[..n]), t.now, t.threshold,
               |t.results|);
    }
  }

  // ---- heartbeats ----

  /** How many heartbeats were sent for a day. */
  ghost function Beats(ticks: seq<Tick>, day: int): nat {
    if ticks == [] then 0
    else
      var n := |ticks| - 1;
      Beats(ticks[..n], day) + if exists keys :: Owed(After(ticks[..n]), After(ticks), Heartbeat(day, keys)) then 1
          else 0
  }

  lemma LastDay(ticks: seq<Tick>)
    ensures After(ticks).lastHeartbeatDay == if ticks == [] then None else Some(Day(ticks[|ticks| - 1].now))
  {
  }

  /** When the clock does not go back a day, every day with a run gets one heartbeat. */
  lemma {:induction false} OneBeatPerDay(ticks: seq<Tick>, day: int)
    requires forall i, j :: 0 <= i < j < |ticks| ==> Day(ticks[i].now) <= Day(ticks[j].now)
    ensures Beats(ticks, day) == if exists i :: 0 <= i < |ticks| && Day(ticks[i].now) == day then 1 else 0
    decreases |ticks|
  {
    if ticks != [] {
      var n := |ticks| - 1;
      OneBeatPerDay(ticks[..n], day);
      LastDay(ticks[..n]);
      LastDay(ticks);
      var before, after := After(ticks[..n]), After(ticks);
      hide After, Day;
      if Day(ticks[n].now) == day && before.lastHeartbeatDay != Some(day) {
        assert Owed(before, after, Heartbeat(day, after.open.Keys));
      }
      if i :| 0 <= i < n && Day(ticks[i].now) == day {
        assert Day(ticks[..n][i].now) == day;
        assert Day(ticks[i].now) <= Day(ticks[n - 1].now) || i == n - 1;
        assert Day(ticks[n - 1].now) <= Day(ticks[n].now);
      }
      assert n > 0 ==> Day(ticks[..n][n - 1].now) == Day(ticks[n - 1].now);
    }
  }
}
