/** The watchdog and the chain together, run after run. */
module Watch {
  import opened Machine
  import opened Ledger
  import opened Audit
  import opened Safety
  import opened GroupBytes
  import opened Overdue
  import Alerts
  import AlertRuns

  const CHECK: string := "unsettled-groups"

  function AlertKey(address: string): string {
    "unsettled:" + address
  }

  /** The groups a run reads, as far as one address goes: what is read under the address is that group's
      stored account, and an Active group is among what is read. */
  ghost predicate Sees(w: World, g: Key, address: string, groups: seq<Group>) {
    && (forall k :: 0 <= k < |groups| && groups[k].address == address ==>
          g in w.groups
          && exists data :: StoredAs(w.groups[g], data) && DecodeGroup(address, data) == Read(groups[k]))
    && (g in w.groups && w.groups[g].status == Active ==> exists k :: 0 <= k < |groups| && groups[k].address == address)
  }

  /** The check's findings as the alert machine takes them; their text is not modelled. */
  function AsFindings(found: seq<GroupFinding>): seq<Alerts.Finding> {
    seq(|found|, k requires 0 <= k < |found| => Alerts.Finding(found[k].key, found[k].severity, ""))
  }

  /** The result of the check: its findings, or a failure when it threw. */
  function ResultOf(found: Option<seq<GroupFinding>>): Alerts.CheckResult {
    match found
    case Some(fs) => Alerts.Passed(CHECK, AsFindings(fs))
    case None => Alerts.Errored(CHECK, "")
  }

  lemma KeysDiffer(a: string, b: string)
    requires AlertKey(a) == AlertKey(b)
    ensures a == b
  {
    assert AlertKey(a)[10..] == a && AlertKey(b)[10..] == b;
  }

  lemma FindingHere(group: Group, now: int, grace: int, cluster: Build)
    ensures FindingOf(group, now, grace, cluster).Some? ==>
              FindingOf(group, now, grace, cluster).value.key == AlertKey(group.address)
  {
    hide WatchedEnd;
  }

  /** The findings of a pass report the address exactly when the group there is late. */
  lemma ReportsLate(a: Audit, g: Key, address: string, groups: seq<Group>, now: int, grace: int)
    requires Reachable(a) && Sees(a.world, g, address, groups)
    ensures AlertRuns.Reports(AsFindings(FindingsOf(groups, now, grace, a.world.build)), AlertKey(address))
       <==> LateAt(a.world, g, now, grace)
  {
    var found := FindingsOf(groups, now, grace, a.world.build);
    var alerts := AsFindings(found);
    hide Reachable, LateAt, FindingOf, FindingsOf, StoredAs, DecodeGroup, AlertKey;
    if j :| 0 <= j < |alerts| && alerts[j].key == AlertKey(address) {
      ReportedExactly(groups, now, grace, a.world.build, found[j]);
      var k :| 0 <= k < |groups| && FindingOf(groups[k], now, grace, a.world.build) == Some(found[j]);
      FindingHere(groups[k], now, grace, a.world.build);
      KeysDiffer(groups[k].address, address);
      var data :| StoredAs(a.world.groups[g], data) && DecodeGroup(address, data) == Read(groups[k]);
      ReportedIfLate(a, g, address, data, groups[k], now, grace);
    }
    if LateAt(a.world, g, now, grace) {
      LateIsActive(a.world, g, now, grace);
      var k :| 0 <= k < |groups| && groups[k].address == address;
      var data :| StoredAs(a.world.groups[g], data) && DecodeGroup(address, data) == Read(groups[k]);
      ReportedIfLate(a, g, address, data, groups[k], now, grace);
      FindingHere(groups[k], now, grace, a.world.build);
      var f := FindingOf(groups[k], now, grace, a.world.build).value;
      ReportedExactly(groups, now, grace, a.world.build, f);
      var j :| 0 <= j < |found| && found[j] == f;
      assert alerts[j].key == AlertKey(address);
    }
  }

  lemma LateIsActive(w: World, g: Key, now: int, grace: int)
    requires LateAt(w, g, now, grace)
    ensures g in w.groups && w.groups[g].status == Active
  {
  }

  /** One run: the state of the chain when it reads, what it reads, and what it makes of it. `found` is what
      `EvaluateGroups` returns, or nothing when the check failed for this or any other reason. */
  datatype Round = Round(chain: Audit, groups: seq<Group>, now: int, grace: int, found: Option<seq<GroupFinding>>)

  /** The round is what happened in this run: it read the chain as it was, its result is in the run, and no
      other check has to do with the group's alert. */
  ghost predicate Happened(r: Round, g: Key, address: string, t: AlertRuns.Tick, place: nat) {
    && Reachable(r.chain) && Sees(r.chain.world, g, address, r.groups)
    && (r.found.Some? ==> r.found.value == FindingsOf(r.groups, r.now, r.grace, r.chain.world.build))
    && place < |t.results| && t.results[place] == ResultOf(r.found)
    && forall j :: 0 <= j < |t.results| && j != place ==> AlertRuns.Elsewhere(t.results[j], CHECK, AlertKey(address))
  }

  /** What a round says about the group: late or not, or nothing. */
  ghost function Seen(r: Round, g: Key): Option<bool> {
    if r.found.Some? then Some(LateAt(r.chain.world, g, r.now, r.grace)) else None
  }

  ghost function SeenAll(rounds: seq<Round>, g: Key): (s: seq<Option<bool>>)
    ensures |s| == |rounds| && forall n :: 0 <= n < |rounds| ==> s[n] == Seen(rounds[n], g)
  {
    if rounds == [] then [] else SeenAll(rounds[..|rounds| - 1], g) + [Seen(rounds[|rounds| - 1], g)]
  }

  /** Whether the group was late in the last round that got through. */
  ghost predicate LateWhenLastRead(rounds: seq<Round>, g: Key) {
    if rounds == [] then false
    else
      var r := rounds[|rounds| - 1];
      if r.found.Some? then LateAt(r.chain.world, g, r.now, r.grace)
      else LateWhenLastRead(rounds[..|rounds| - 1], g)
  }

  lemma {:induction false} SameLast(rounds: seq<Round>, g: Key)
    ensures AlertRuns.LastSeen(SeenAll(rounds, g)) == LateWhenLastRead(rounds, g)
    decreases |rounds|
  {
    hide LateAt;
    if rounds != [] {
      SameLast(rounds[..|rounds| - 1], g);
      assert SeenAll(rounds, g)[..|rounds| - 1] == SeenAll(rounds[..|rounds| - 1], g);
    }
  }

  lemma OwnKey(address: string)
    ensures Alerts.RpcKey(CHECK) != AlertKey(address)
  {
    assert Alerts.RpcKey(CHECK)[0] == 'r' && AlertKey(address)[0] == 'u';
  }

  lemma RoundRan(r: Round, g: Key, address: string, t: AlertRuns.Tick, place: nat)
    requires Happened(r, g, address, t, place)
    ensures AlertRuns.Ran(t.results, place, CHECK, AlertKey(address), Seen(r, g))
  {
    OwnKey(address);
    hide Reachable, Sees, LateAt, FindingsOf, AlertKey;
    if r.found.Some? {
      ReportsLate(r.chain, g, address, r.groups, r.now, r.grace);
    }
  }

  /** The alert about a group follows the chain. After any runs it is open exactly when the last run that got
      through found the group Active with its cycle over by more than the grace period. So it opens with
      the first such run, stays open while the check fails, and resolves with the first run that gets
      through once the group is settled. */
  lemma AlertFollowsChain(rounds: seq<Round>, ticks: seq<AlertRuns.Tick>, places: seq<nat>, g: Key, address: string)
    requires |rounds| == |ticks| == |places|
    requires forall n :: 0 <= n < |rounds| ==> Happened(rounds[n], g, address, ticks[n], places[n])
    ensures AlertKey(address) in AlertRuns.After(ticks).open <==> LateWhenLastRead(rounds, g)
  {
    hide Happened, AlertKey, LateWhenLastRead, Seen;
    forall n | 0 <= n < |ticks|
      ensures AlertRuns.Ran(ticks[n].results, places[n], CHECK, AlertKey(address), SeenAll(rounds, g)[n])
    {
      RoundRan(rounds[n], g, address, ticks[n], places[n]);
    }
    AlertRuns.OpenAsLastSeen(ticks, places, CHECK, AlertKey(address), SeenAll(rounds, g));
    SameLast(rounds, g);
  }
}
