/** The watchdog's check of unsettled groups (`ops/watchdog/core.ts`), and what its findings mean on
    chain. */
module Overdue {
  import opened Machine
  import opened Ledger
  import opened GroupTime
  import opened Instructions
  import opened Audit
  import opened Invariant
  import opened Payouts
  import opened Safety
  import opened Outcomes
  import opened Lifecycle
  import opened GroupBytes
  import Alerts

  datatype Reason = UnknownFrequency | Late(overdue: int, end: int)

  /** A finding about a group: its key, and what the text says. */
  datatype GroupFinding = GroupFinding(key: string, severity: Alerts.Severity, reason: Reason)

  const STATUS_ACTIVE: nat := 1

  /** The watchdog's own table of period lengths. */
  const DAY_SECS: int := 86_400

  function ClusterPeriod(cluster: Build, frequency: nat): Option<int> {
    match frequency
    case 0 => Some(7 * DAY_SECS)
    case 1 => Some(14 * DAY_SECS)
    case 2 => Some(30 * DAY_SECS)
    case 3 => if cluster.Devnet? then Some(300) else None
    case _ => None
  }

  /** `cycleEnd`, over unbounded integers. */
  function WatchedEnd(group: Group, cluster: Build): Option<int> {
    match ClusterPeriod(cluster, group.frequency)
    case None => None
    case Some(period) => Some(group.cycleStart + group.totalPeriods * period)
  }

  /** Times a JavaScript Date can hold, in seconds; rendering any other throws. */
  predicate DateRange(secs: int) {
    -8_640_000_000_000 <= secs <= 8_640_000_000_000
  }

  /** The finding one group deserves. */
  function FindingOf(group: Group, now: int, grace: int, cluster: Build): Option<GroupFinding> {
    if group.status != STATUS_ACTIVE then None
    else
      match WatchedEnd(group, cluster)
      case None => Some(GroupFinding("unsettled:" + group.address, Alerts.Failure, UnknownFrequency))
      case Some(end) =>
        if now - end > grace then Some(GroupFinding("unsettled:" + group.address, Alerts.Failure, Late(now - end, end)))
            else None
  }

  predicate Renders(f: Option<GroupFinding>) {
    f.Some? && f.value.reason.Late? ==> -8_640_000_000_000 <= f.value.reason.end <= 8_640_000_000_000
  }

  function FindingsOf(groups: seq<Group>, now: int, grace: int, cluster: Build): seq<GroupFinding> {
    if groups == [] then []
    else
      FindingsOf(groups[..|groups| - 1], now, grace, cluster)
      + match FindingOf(groups[|groups| - 1], now, grace, cluster)
        case Some(f) => [f]
        case None => []
  }

  /** `evaluateGroups`. It throws, and so the whole check errors, when a late group's end is no date. */
  method EvaluateGroups(groups: seq<Group>, now: int, grace: int, cluster: Build) returns (r: Option<seq<GroupFinding>>)
    ensures r.Some? <==> forall k :: 0 <= k < |groups| ==> Renders(FindingOf(groups[k], now, grace, cluster))
    ensures r.Some? ==> r.value == FindingsOf(groups, now, grace, cluster)
  {
    var findings: seq<GroupFinding> := [];
    var i := 0;
    while i < |groups|
      invariant 0 <= i <= |groups|
      invariant findings == FindingsOf(groups[..i], now, grace, cluster)
      invariant forall k :: 0 <= k < i ==> Renders(FindingOf(groups[k], now, grace, cluster))
    {
      var group := groups[i];
      assert groups[..i + 1][..i] == groups[..i];
      i := i + 1;
      if group.status != STATUS_ACTIVE { continue; }
      var key := "unsettled:" + group.address;
      var end := WatchedEnd(group, cluster);
      if end.None? {
        findings := findings + [GroupFinding(key, Alerts.Failure, UnknownFrequency)];
        continue;
      }
      var overdue := now - end.value;
      if overdue <= grace { continue; }
      if !DateRange(end.value) { return None; }
      findings := findings + [GroupFinding(key, Alerts.Failure, Late(overdue, end.value))];
    }
    assert groups[..i] == groups;
    return Some(findings);
  }

  /** A group is among the findings exactly when it is Active and its cycle ended more than the grace
      period ago, or its frequency is one the cluster does not have. */
  lemma {:induction false} ReportedExactly(groups: seq<Group>, now: int, grace: int, cluster: Build, f: GroupFinding)
    ensures f in FindingsOf(groups, now, grace, cluster)
       <==> exists k :: 0 <= k < |groups| && FindingOf(groups[k], now, grace, cluster) == Some(f)
    decreases |groups|
  {
    if groups != [] {
      var n := |groups| - 1;
      ReportedExactly(groups[..n], now, grace, cluster, f);
      if f in FindingsOf(groups[..n], now, grace, cluster) {
        var k :| 0 <= k < n && FindingOf(groups[..n][k], now, grace, cluster) == Some(f);
        assert FindingOf(groups[k], now, grace, cluster) == Some(f);
      }
      if k :| 0 <= k < |groups| && FindingOf(groups[k], now, grace, cluster) == Some(f) {
        if k < n {
          assert FindingOf(groups[..n][k], now, grace, cluster) == Some(f);
        }
      }
    }
  }

  // ---- the codes of stored groups ----

  predicate LegalCode(code: string) {
    1 <= |code| <= 32 && CodeChars(code)
  }

  ghost predicate CodesLegal(w: World) {
    forall g :: g in w.groups ==> LegalCode(w.groups[g].code)
  }

  lemma CreatedCode(w: World, tx: Tx)
    requires tx.ins.CreateGroup? && CreateRefusal(w, tx).None?
    ensures Target(tx.ins) in Created(w, tx).groups && LegalCode(Created(w, tx).groups[Target(tx.ins)].code)
  {
    hide Fund;
  }

  /** Only `create_group` puts a group where there was none. */
  lemma NewGroups(w: World, tx: Tx)
    requires Refusal(w, tx).None? && Target(tx.ins) !in w.groups && Target(tx.ins) in After(w, tx).groups
    ensures tx.ins.CreateGroup?
  {
    if tx.ins.JoinGroup? { JoinMoves(w, tx); }
    else if tx.ins.LeaveGroup? { LeaveMoves(w, tx); }
    else if tx.ins.Deposit? { DepositMoves(w, tx); }
    else if tx.ins.Distribute? || tx.ins.EmergencyCancel? { SettleMoves(w, tx); }
    else if tx.ins.StartCycle? { StartMoves(w, tx); }
    else if tx.ins.CloseMemberRecord? { CloseRecordMoves(w, tx); }
    else if tx.ins.CloseGroup? { MakesOrRemoves(w, tx); }
    else if !tx.ins.CreateGroup? { OtherMoves(w, tx); }
    hide Refusal, After;
  }

  lemma StepCodes(a: Audit, ev: Event, g: Key)
    requires Inv(a) && CodesLegal(a.world) && g in Step(a, ev).world.groups
    ensures LegalCode(Step(a, ev).world.groups[g].code)
  {
    if g in a.world.groups {
      StepMoves(a, ev, g);
      hide Step, Inv;
    } else if On(a, ev, g) {
      StepParts(a, ev);
      NewGroups(a.world, ev.tx);
      CreatedCode(a.world, ev.tx);
      hide Step, Inv, CreateRefusal, Created;
    } else {
      NotOn(a, ev, g);
      hide Step, Inv, On;
    }
  }

  lemma {:induction false} RunCodes(a: Audit, events: seq<Event>)
    requires Inv(a) && CodesLegal(a.world)
    ensures CodesLegal(Run(a, events).world)
    decreases |events|
  {
    if events != [] {
      var n := |events| - 1;
      RunCodes(a, events[..n]);
      RunKeeps(a, events[..n]);
      hide Step, Inv, LegalCode;
      forall g | g in Run(a, events).world.groups ensures LegalCode(Run(a, events).world.groups[g].code) {
        StepCodes(Run(a, events[..n]), events[n], g);
      }
    }
  }

  lemma ReachableCodes(a: Audit)
    requires Reachable(a)
    ensures CodesLegal(a.world)
  {
    var build, rentRate, events :| a == Run(Genesis(build, rentRate), events);
    GenesisInv(build, rentRate);
    RunCodes(Genesis(build, rentRate), events);
  }

  // ---- the two sides together ----

  function StatusCode(s: Status): u8 {
    match s
    case Open => 0
    case Active => 1
    case Completed => 2
    case Cancelled => 3
  }

  /** A legal code is ASCII, so its UTF-8 is one byte for each character. */
  function CodeBytes(code: string): (b: seq<byte>)
    requires CodeChars(code)
    ensures |b| == |code|
  {
    seq(|code|, k requires 0 <= k < |code| => code[k] as int)
  }

  /** The stored form of a group; addresses and bumps come from outside the model. */
  function ImageOf(c: GroupConfig, creator: Bytes32, rentPayer: Bytes32, mint: Bytes32, bump: u8,
      vaultBump: u8): GroupImage
    requires CodeChars(c.code)
  {
    GroupImage(creator, rentPayer, mint, c.depositAmount, c.cycleStart, c.settledAt, c.frequency, c.totalPeriods,
               c.maxMembers, c.currentMembers, StatusCode(c.status), bump, vaultBump, CodeBytes(c.code))
  }

  lemma TimesPeriod(n: nat, d: int)
    requires n <= 255 && 0 <= d <= 2_592_000
    ensures 0 <= n * d <= 255 * 2_592_000
  {
    assert n * d <= 255 * d;
  }

  /** The watchdog computes the program's cycle end: unknown exactly for the frequencies the build
      rejects, and otherwise the same number, past the i64 range exactly where the program overflows. */
  lemma EndsAgree(build: Build, c: GroupConfig, group: Group)
    requires group.cycleStart == c.cycleStart && group.frequency == c.frequency && group.totalPeriods == c.totalPeriods
    ensures WatchedEnd(group, build).None? <==> PeriodSecs(build, c.frequency).Err?
    ensures WatchedEnd(group, build).Some? ==>
              var end := WatchedEnd(group, build).value;
              CycleEnd(build, c) == if InI64(end) then Ok(end) else Err(ArithmeticOverflow)
  {
    if ClusterPeriod(build, group.frequency).Some? {
      TimesPeriod(c.totalPeriods, ClusterPeriod(build, group.frequency).value);
    }
  }

  /** What the watchdog reads from the account of a stored group. */
  lemma StoredReads(a: Audit, g: Key, address: string, creator: Bytes32, rentPayer: Bytes32, mint: Bytes32, bump: u8,
      vaultBump: u8)
    requires Reachable(a) && g in a.world.groups
    ensures var c := a.world.groups[g];
            && LegalCode(c.code)
            && var image := ImageOf(c, creator, rentPayer, mint, bump, vaultBump);
               && |image.code| <= 32
               && DecodeGroup(address, AccountData(image))
                  == Read(Group(address, c.cycleStart, c.frequency, c.totalPeriods, StatusCode(c.status),
                      CodeBytes(c.code)))
  {
    ReachableCodes(a);
    hide Reachable;
    var image := ImageOf(a.world.groups[g], creator, rentPayer, mint, bump, vaultBump);
    hide DecodeGroup, AccountData;
    DecodeStored(address, image);
  }

  /** Account data that stores this group, whatever its addresses and bumps look like. */
  ghost predicate StoredAs(c: GroupConfig, data: seq<byte>) {
    && CodeChars(c.code) && |c.code| <= 32
    && exists creator: Bytes32, rentPayer: Bytes32, mint: Bytes32, bump: u8, vaultBump: u8 ::
         data == AccountData(ImageOf(c, creator, rentPayer, mint, bump, vaultBump))
  }

  lemma ReadFromStored(address: string, c: GroupConfig, data: seq<byte>, group: Group)
    requires StoredAs(c, data) && DecodeGroup(address, data) == Read(group)
    ensures group.address == address && group.cycleStart == c.cycleStart && group.frequency == c.frequency
    ensures group.totalPeriods == c.totalPeriods && group.status == StatusCode(c.status)
  {
    var creator: Bytes32, rentPayer: Bytes32, mint: Bytes32, bump: u8, vaultBump: u8
      :| data == AccountData(ImageOf(c, creator, rentPayer, mint, bump, vaultBump));
    hide DecodeGroup, AccountData;
    DecodeStored(address, ImageOf(c, creator, rentPayer, mint, bump, vaultBump));
  }

  /** The group is Active and its cycle ended more than the grace period before `now`. */
  ghost predicate LateAt(w: World, g: Key, now: int, grace: int) {
    && g in w.groups && w.groups[g].status == Active && w.groups[g].frequency <= MaxFrequency(w.build)
    && now - (w.groups[g].cycleStart + w.groups[g].totalPeriods * Period(w.build, w.groups[g].frequency)) > grace
  }

  lemma ReportedIfLate(a: Audit, g: Key, address: string, data: seq<byte>, group: Group, now: int, grace: int)
    requires Reachable(a) && g in a.world.groups
    requires StoredAs(a.world.groups[g], data) && DecodeGroup(address, data) == Read(group)
    ensures FindingOf(group, now, grace, a.world.build).Some? <==> LateAt(a.world, g, now, grace)
    ensures LateAt(a.world, g, now, grace) ==>
              var c := a.world.groups[g];
              var end := c.cycleStart + c.totalPeriods * Period(a.world.build, c.frequency);
              FindingOf(group, now, grace, a.world.build)
              == Some(GroupFinding("unsettled:" + address, Alerts.Failure, Late(now - end, end)))
  {
    hide Reachable, StoredAs, DecodeGroup;
    ReadFromStored(address, a.world.groups[g], data, group);
    EndsAgree(a.world.build, a.world.groups[g], group);
    ActiveEndKnown(a, g);
    hide CycleEnd, PeriodSecs, WatchedEnd, MaxFrequency;
  }

  /** From account bytes to action. A stored group, read back from its bytes, is reported exactly when it
      is Active and its cycle ended more than the grace period ago; and a group reported at the
      chain's own time can be settled at once, by anyone, with any list of all its members. */
  lemma ReportedCanSettle(a: Audit, g: Key, address: string, data: seq<byte>, group: Group, grace: nat, tx: Tx)
    requires Reachable(a) && g in a.world.groups
    requires StoredAs(a.world.groups[g], data) && DecodeGroup(address, data) == Read(group)
    ensures FindingOf(group, a.world.clock, grace, a.world.build).Some? <==> LateAt(a.world, g, a.world.clock, grace)
    ensures && FindingOf(group, a.world.clock, grace, a.world.build).Some?
            && tx.ins.Distribute? && tx.ins.group == g && tx.ins.payer in tx.signers
            && IsListing(a.world, g, a.world.groups[g].mint, tx.ins.remaining)
            && Unblocked(g, tx.ins.remaining, tx.blocked)
            ==> Refusal(a.world, tx).None?
  {
    hide Reachable, CycleEnd, IsListing, Unblocked, Refusal, FindingOf, StoredAs, DecodeGroup;
    ReportedIfLate(a, g, address, data, group, a.world.clock, grace);
    if tx.ins.Distribute? {
      DistributeExactly(a, tx);
    }
  }

  lemma ActiveEndKnown(a: Audit, g: Key)
    requires Reachable(a) && g in a.world.groups
    ensures PeriodSecs(a.world.build, a.world.groups[g].frequency).Ok?
    ensures var build, c := a.world.build, a.world.groups[g];
            c.status == Active ==>
              && c.frequency <= MaxFrequency(build)
              && CycleEnd(build, c) == Ok(c.cycleStart + c.totalPeriods * Period(build, c.frequency))
  {
    ReachableInv(a);
    OfGroup(a, g);
    if a.world.groups[g].status == Active {
      ActiveEnd(a, g);
    }
    hide Reachable, CycleEnd;
  }
}
