/** A group's status only moves forward, its terms never change, and what can still happen to it once
    it is Active is bounded. */
module Lifecycle {
  import opened Machine
  import opened Sums
  import opened Ledger
  import opened GroupTime
  import opened Settlement
  import opened Instructions
  import opened Audit
  import opened Invariant
  import opened Membership
  import opened Payments
  import opened Payouts
  import opened Settling
  import opened Safety
  import opened Outcomes
  import opened Tallies
  import opened Refunds

  // ---- one step ----

  /** The moves a status can make. */
  predicate Forward(s: Status, t: Status) {
    s == t || s == Open || (s == Active && Settled(t))
  }

  /** How a group may differ between two moments of its life: never in its parameters, its parties or
      its code; in its status only forward; in its cycle start only by leaving Open, so once; in its
      settlement time only by being settled, so once. */
  predicate Evolves(c: GroupConfig, c': GroupConfig) {
    && c'.creator == c.creator && c'.rentPayer == c.rentPayer && c'.mint == c.mint && c'.code == c.code
    && c'.depositAmount == c.depositAmount && c'.frequency == c.frequency
    && c'.totalPeriods == c.totalPeriods && c'.maxMembers == c.maxMembers
    && Forward(c.status, c'.status)
    && (c.status != Open || c'.status == Open ==> c'.cycleStart == c.cycleStart)
    && (c.status != Open ==> c'.currentMembers <= c.currentMembers)
    && (Settled(c.status) || Live(c'.status) ==> c'.settledAt == c.settledAt)
  }

  lemma EvolvesOn(c: GroupConfig, d: GroupConfig, e: GroupConfig)
    requires Evolves(c, d) && Evolves(d, e)
    ensures Evolves(c, e)
  {
  }

  /** What an accepted instruction does to the group it names, kind by kind. */
  predicate Moves(ins: Ins, c: GroupConfig, c': GroupConfig, now: i64) {
    match ins
    case JoinGroup(_, _, _, _, _, _) =>
      c.status == Open && c.currentMembers < U8_MAX && c' == c.(currentMembers := c.currentMembers + 1)
    case LeaveGroup(_, _, _, _) =>
      c.status == Open && c.currentMembers > 0 && c' == c.(currentMembers := c.currentMembers - 1)
    case StartCycle(_, _) => c.status == Open && c' == c.(status := Active, cycleStart := now)
    case Deposit(_, _, _) => c.status == Active && c' == c
    case Distribute(_, _, _) => c.status == Active && c' == c.(status := Completed, settledAt := now)
    case EmergencyCancel(_, _, _, _) => Live(c.status) && c' == c.(status := Cancelled, settledAt := now)
    case CloseMemberRecord(_, _, _) =>
      Settled(c.status) && c.currentMembers > 0 && c' == c.(currentMembers := c.currentMembers - 1)
    case _ => c' == c
  }

  lemma JoinMoves(w: World, tx: Tx)
    requires tx.ins.JoinGroup? && JoinRefusal(w, tx).None?
    ensures var g := tx.ins.group;
            g in w.groups && g in Joined(w, tx).groups && Moves(tx.ins, w.groups[g], Joined(w, tx).groups[g], w.clock)
  {
    JoinChecks(w, tx);
    JoinWrites(w, tx);
    hide JoinRefusal, Joined, NewRecord, RecordsOf;
  }

  lemma LeaveMoves(w: World, tx: Tx)
    requires tx.ins.LeaveGroup? && LeaveRefusal(w, tx).None?
    ensures var g := tx.ins.group;
            g in w.groups && g in Left(w, tx).groups && Moves(tx.ins, w.groups[g], Left(w, tx).groups[g], w.clock)
  {
    hide TransferOk, Transferred, Drain;
  }

  lemma DepositMoves(w: World, tx: Tx)
    requires tx.ins.Deposit? && DepositRefusal(w, tx).None?
    ensures tx.ins.group in w.groups && w.groups[tx.ins.group].status == Active && Deposited(w, tx).groups == w.groups
  {
    hide TransferOk, PeriodIndex, Transferred;
  }

  lemma SettleMoves(w: World, tx: Tx)
    requires (tx.ins.Distribute? || tx.ins.EmergencyCancel?) && Refusal(w, tx).None?
    ensures var g := tx.ins.group;
            g in w.groups && g in After(w, tx).groups && Moves(tx.ins, w.groups[g], After(w, tx).groups[g], w.clock)
  {
    SettlesHere(w, tx);
    SettleStatus(w, tx);
    hide After, Refusal, Settle;
  }

  lemma SettleStatus(w: World, tx: Tx)
    requires (tx.ins.Distribute? || tx.ins.EmergencyCancel?) && Refusal(w, tx).None?
    ensures tx.ins.group in w.groups
    ensures tx.ins.Distribute? ==> w.groups[tx.ins.group].status == Active
    ensures tx.ins.EmergencyCancel? ==> Live(w.groups[tx.ins.group].status)
  {
    hide Settle, CycleEnd;
  }

  lemma StartMoves(w: World, tx: Tx)
    requires tx.ins.StartCycle? && StartRefusal(w, tx).None?
    ensures var g := tx.ins.group;
            g in w.groups && g in Started(w, tx).groups && Moves(tx.ins, w.groups[g], Started(w, tx).groups[g], w.clock)
  {
    hide CycleEnd;
  }

  lemma CloseRecordMoves(w: World, tx: Tx)
    requires tx.ins.CloseMemberRecord? && CloseRecordRefusal(w, tx).None?
    ensures var g := tx.ins.group;
            g in w.groups && g in RecordClosed(w, tx).groups
            && Moves(tx.ins, w.groups[g], RecordClosed(w, tx).groups[g], w.clock)
  {
    hide RetentionEnd, Drain;
  }

  /** The instructions left leave the group account as it is, or make or remove it. */
  lemma OtherMoves(w: World, tx: Tx)
    requires Refusal(w, tx).None?
    requires tx.ins.RefundVaultRent? || tx.ins.SetJoinAuthority? || tx.ins.CloseJoinTally?
    ensures After(w, tx).groups == w.groups
  {
    hide Drain, Fund, RentFloor, Refusal;
  }

  lemma MakesOrRemoves(w: World, tx: Tx)
    requires Refusal(w, tx).None? && (tx.ins.CreateGroup? || tx.ins.CloseGroup?)
    ensures tx.ins.CreateGroup? ==> Target(tx.ins) !in w.groups
    ensures tx.ins.CloseGroup? ==> Target(tx.ins) !in After(w, tx).groups
    ensures After(w, tx).groups - {Target(tx.ins)} == w.groups - {Target(tx.ins)}
  {
    hide Drain, Fund;
  }

  lemma ProgramMoves(w: World, tx: Tx)
    requires Refusal(w, tx).None?
    requires Target(tx.ins) in w.groups && Target(tx.ins) in After(w, tx).groups
    ensures Moves(tx.ins, w.groups[Target(tx.ins)], After(w, tx).groups[Target(tx.ins)], w.clock)
  {
    if tx.ins.JoinGroup? { JoinMoves(w, tx); }
    else if tx.ins.LeaveGroup? { LeaveMoves(w, tx); }
    else if tx.ins.Deposit? { DepositMoves(w, tx); }
    else if tx.ins.Distribute? || tx.ins.EmergencyCancel? { SettleMoves(w, tx); }
    else if tx.ins.StartCycle? { StartMoves(w, tx); }
    else if tx.ins.CloseMemberRecord? { CloseRecordMoves(w, tx); }
    else if tx.ins.CreateGroup? || tx.ins.CloseGroup? { MakesOrRemoves(w, tx); }
    else { OtherMoves(w, tx); }
    hide Refusal, After;
  }

  /** Whether an event is an accepted instruction on this group. */
  ghost predicate On(a: Audit, ev: Event, g: Key) {
    ev.Program? && Happens(a.world, ev) && Target(ev.tx.ins) == g
  }

  /** The group account, the records and the gate are the same. */
  ghost predicate SameAccounts(w: World, w': World, g: Key) {
    var s, s' := SliceOf(w, g), SliceOf(w', g);
    s'.group == s.group && s'.records == s.records && s'.gate == s.gate
  }

  lemma OtherKept(w: World, w': World, target: Key, g: Key)
    requires OthersKept(w, w', target) && g != target
    ensures SameAccounts(w, w', g)
  {
    hide SliceOf;
  }

  lemma TargetMeans(a: Audit, tx: Tx, w': World)
    requires TargetKept(a, tx, w')
    ensures OthersKept(a.world, w', Target(tx.ins))
  {
    hide OthersKept, SliceInv;
  }

  lemma OutsideKept(w: World, e: Env, g: Key)
    requires EnvOk(w, e)
    ensures SameAccounts(w, EnvAfter(w, e), g)
  {
    OutsideFrame(w, e);
    hide EnvOk, EnvAfter;
    RecordsSame(w, EnvAfter(w, e));
  }

  lemma Unchanged(w: World, g: Key)
    ensures SameAccounts(w, w, g)
  {
  }

  /** Anything but an accepted instruction on the group leaves all it owns alone. */
  lemma NotOn(a: Audit, ev: Event, g: Key)
    requires Inv(a) && !On(a, ev, g)
    ensures SameAccounts(a.world, Step(a, ev).world, g)
  {
    hide Refusal, After, EnvOk, EnvAfter, Step, LocalInv, SupplyInv, SameAccounts, TargetKept, OthersKept;
    StepParts(a, ev);
    if !Happens(a.world, ev) {
      Unchanged(a.world, g);
    } else if ev.Program? {
      TargetOnly(a, ev.tx);
      TargetMeans(a, ev.tx, After(a.world, ev.tx));
      OtherKept(a.world, After(a.world, ev.tx), Target(ev.tx.ins), g);
    } else {
      OutsideKept(a.world, ev.env, g);
    }
  }

  lemma MovesEvolve(ins: Ins, c: GroupConfig, c': GroupConfig, now: i64)
    requires Moves(ins, c, c', now)
    ensures Evolves(c, c')
  {
  }

  /** What one event can do to a group that lives before and after it. */
  lemma StepMoves(a: Audit, ev: Event, g: Key)
    requires Inv(a) && g in a.world.groups && g in Step(a, ev).world.groups
    ensures var c, c' := a.world.groups[g], Step(a, ev).world.groups[g];
            && Evolves(c, c')
            && (if On(a, ev, g) then Moves(ev.tx.ins, c, c', a.world.clock) else c' == c)
  {
    hide LocalInv, SupplyInv;
    if On(a, ev, g) {
      StepParts(a, ev);
      hide Step, Refusal, After, Moves, Evolves;
      ProgramMoves(a.world, ev.tx);
      MovesEvolve(ev.tx.ins, a.world.groups[g], Step(a, ev).world.groups[g], a.world.clock);
    } else {
      NotOn(a, ev, g);
      hide Step, On;
    }
  }

  /** A gate set once stays as it is for as long as its group lives. */
  lemma StepGate(a: Audit, ev: Event, g: Key)
    requires Inv(a) && g in a.world.groups && g in Step(a, ev).world.groups && GateAddr(g) in a.world.gates
    ensures GateAddr(g) in Step(a, ev).world.gates
    ensures Step(a, ev).world.gates[GateAddr(g)] == a.world.gates[GateAddr(g)]
  {
    hide LocalInv, SupplyInv;
    if On(a, ev, g) {
      StepParts(a, ev);
      hide Step;
      ProgramGates(a.world, ev.tx);
    } else {
      NotOn(a, ev, g);
      hide Step, On;
    }
  }

  lemma OtherGates(w: World, tx: Tx)
    requires Refusal(w, tx).None? && !tx.ins.SetJoinAuthority? && !tx.ins.CloseGroup?
    ensures After(w, tx).gates == w.gates
  {
    if tx.ins.Deposit? {
      DepositMoves(w, tx);
      hide Refusal, PeriodIndex, Transferred;
    } else if tx.ins.Distribute? || tx.ins.EmergencyCancel? {
      SettlesHere(w, tx);
      hide Refusal, After, Settle;
    } else if tx.ins.JoinGroup? || tx.ins.LeaveGroup? || tx.ins.CreateGroup? {
      hide Refusal, Created, Joined, Left;
    } else {
      RestGates(w, tx);
      hide *;
    }
  }

  lemma RestGates(w: World, tx: Tx)
    requires Refusal(w, tx).None?
    requires tx.ins.StartCycle? || tx.ins.RefundVaultRent? || tx.ins.CloseMemberRecord? || tx.ins.CloseJoinTally?
    ensures After(w, tx).gates == w.gates
  {
    hide Refusal, RecordClosed, TallyClosed, RentFloor;
  }

  lemma ProgramGates(w: World, tx: Tx)
    requires Refusal(w, tx).None?
    ensures tx.ins.SetJoinAuthority? ==>
              && GateAddr(tx.ins.group) !in w.gates
              && After(w, tx).gates == w.gates[GateAddr(tx.ins.group) := tx.ins.newAuthority]
    ensures tx.ins.CloseGroup? ==> tx.ins.group !in After(w, tx).groups
    ensures !tx.ins.SetJoinAuthority? && !tx.ins.CloseGroup? ==> After(w, tx).gates == w.gates
  {
    if tx.ins.SetJoinAuthority? {
      hide Fund;
    } else if tx.ins.CloseGroup? {
      hide Refusal, Drain;
    } else {
      OtherGates(w, tx);
      hide *;
    }
  }

  // ---- a whole life ----

  lemma LivesBefore(a: Audit, events: seq<Event>, g: Key)
    requires LivesThrough(a, events, g) && events != []
    ensures LivesThrough(a, events[..|events| - 1], g)
    ensures g in Run(a, events[..|events| - 1]).world.groups && g in Run(a, events).world.groups
  {
    var n := |events| - 1;
    forall k | 0 <= k <= n ensures g in Run(a, events[..n][..k]).world.groups {
      assert events[..n][..k] == events[..k];
    }
    assert events[..|events|] == events;
    assert g in Run(a, events[..n]).world.groups;
    assert g in Run(a, events[..n + 1]).world.groups;
  }

  /** Between any two moments of one group's life: the same parties, parameters and code, so the same
      terms every member joined on; the status only further on; the cycle start fixed once the group
      has left Open; the settlement time fixed once it is settled; a gate, once set, the same. */
  lemma {:induction false} OneLife(a: Audit, events: seq<Event>, g: Key)
    requires Inv(a) && LivesThrough(a, events, g)
    ensures g in a.world.groups && g in Run(a, events).world.groups
    ensures Evolves(a.world.groups[g], Run(a, events).world.groups[g])
    ensures GateAddr(g) in a.world.gates ==>
              && GateAddr(g) in Run(a, events).world.gates
              && Run(a, events).world.gates[GateAddr(g)] == a.world.gates[GateAddr(g)]
    decreases |events|
  {
    if events == [] {
      assert events[..0] == events;
    } else {
      var n := |events| - 1;
      var b, ev := Run(a, events[..n]), events[n];
      LivesBefore(a, events, g);
      OneLife(a, events[..n], g);
      RunKeeps(a, events[..n]);
      assert Run(a, events) == Step(b, ev);
      hide Run, Step, Inv, LivesThrough;
      StepMoves(b, ev, g);
      EvolvesOn(a.world.groups[g], b.world.groups[g], Step(b, ev).world.groups[g]);
      if GateAddr(g) in b.world.gates {
        StepGate(b, ev, g);
      }
    }
  }

  // ---- what is left to happen ----

  datatype Kind = Arrival | Departure | Payment | Settlement | RecordClose

  predicate OfKind(ins: Ins, kind: Kind) {
    match kind
    case Arrival => ins.JoinGroup?
    case Departure => ins.LeaveGroup?
    case Payment => ins.Deposit?
    case Settlement => ins.Distribute? || ins.EmergencyCancel?
    case RecordClose => ins.CloseMemberRecord?
  }

  /** How many instructions of a kind a group accepted during a run. */
  ghost function Count(a: Audit, events: seq<Event>, g: Key, kind: Kind): nat {
    if events == [] then 0
    else
      var b, ev := Run(a, events[..|events| - 1]), events[|events| - 1];
      Count(a, events[..|events| - 1], g, kind) + if On(b, ev, g) && OfKind(ev.tx.ins, kind) then 1 else 0
  }

  /** Deposits made so far, by every member together. */
  function Makes(records: map<Key, MemberRecord>): map<Key, nat> {
    map r | r in records :: records[r].depositsMade
  }

  ghost function Made(w: World, g: Key): nat {
    Total(Makes(RecordsOf(w, g)))
  }

  lemma {:induction false} TotalBetween<K>(m: map<K, nat>, lo: nat, hi: nat)
    requires forall k :: k in m ==> lo <= m[k] <= hi
    ensures |m| * lo <= Total(m) <= |m| * hi
    decreases m.Keys
  {
    if m != map[] {
      var k :| k in m;
      TotalDrop(m, k);
      TotalBetween(m - {k}, lo, hi);
      assert (m - {k}).Keys == m.Keys - {k};
      var n := |m - {k}|;
      assert |m| == n + 1;
      hide Total;
      OneMoreTimes(n, lo);
      OneMoreTimes(n, hi);
    }
  }

  /** Every record counts at least the joining deposit and at most one per period. */
  lemma MadeBetween(a: Audit, g: Key)
    requires Reachable(a) && g in a.world.groups
    ensures var c := a.world.groups[g];
            c.currentMembers <= Made(a.world, g) <= c.currentMembers * c.totalPeriods
  {
    ReachableInv(a);
    var c, m := a.world.groups[g], Makes(RecordsOf(a.world, g));
    forall r | r in m ensures 1 <= m[r] <= c.totalPeriods {
      RecordAccounting(a, r);
    }
    MemberCount(a, g);
    assert m.Keys == RecordsOf(a.world, g).Keys;
    hide Inv, Reachable, RecordsOf;
    TotalBetween(m, 1, c.totalPeriods);
  }

  /** On an Active group only a deposit touches the records, and it counts one more. */
  lemma DepositMade(a: Audit, tx: Tx)
    requires Inv(a) && tx.ins.Deposit? && DepositRefusal(a.world, tx).None?
    ensures Made(Deposited(a.world, tx), tx.ins.group) == Made(a.world, tx.ins.group) + 1
  {
    var w, g, r := a.world, tx.ins.group, MemberAddr(tx.ins.group, tx.ins.member);
    DepositChecks(w, tx);
    VaultsApart(a, tx.ins.source, tx.ins.member);
    DepositWrites(w, tx);
    hide *;
    var rec' := DepositRecord(w.groups[g], w.records[r], PeriodIndex(w.build, w.groups[g], w.clock).value);
    RecordsPut(w, Deposited(w, tx), r, rec');
    InSlice(w, g, r);
    OneMoreMade(w, g, r, rec', Deposited(w, tx));
  }

  lemma OneMoreMade(w: World, g: Key, r: Key, rec': MemberRecord, w': World)
    requires r in w.records && w.records[r].group == g && rec'.depositsMade == w.records[r].depositsMade + 1
    requires RecordsOf(w', g) == RecordsOf(w, g)[r := rec']
    ensures Made(w', g) == Made(w, g) + 1
  {
    var m := Makes(RecordsOf(w, g));
    assert Makes(RecordsOf(w', g)) == m[r := rec'.depositsMade];
    TotalPut(m, r, rec'.depositsMade);
  }

  lemma OtherRecords(w: World, tx: Tx)
    requires Refusal(w, tx).None?
    requires tx.ins.RefundVaultRent? || tx.ins.SetJoinAuthority? || tx.ins.CloseJoinTally?
    ensures After(w, tx).records == w.records
  {
    hide Refusal, TallyClosed, Gated, RentFloor;
  }

  lemma ActiveOn(a: Audit, tx: Tx, g: Key)
    requires Inv(a) && Target(tx.ins) == g && Refusal(a.world, tx).None?
    requires g in a.world.groups && g in After(a.world, tx).groups
    requires a.world.groups[g].status == Active && After(a.world, tx).groups[g].status == Active
    ensures After(a.world, tx).groups[g] == a.world.groups[g]
    ensures tx.ins.Deposit? || After(a.world, tx).records == a.world.records
  {
    ProgramMoves(a.world, tx);
    if tx.ins.CreateGroup? || tx.ins.CloseGroup? {
      MakesOrRemoves(a.world, tx);
    } else if tx.ins.RefundVaultRent? || tx.ins.SetJoinAuthority? || tx.ins.CloseJoinTally? {
      OtherRecords(a.world, tx);
    }
    hide Refusal, After, Inv;
  }

  lemma ActiveStep(a: Audit, ev: Event, g: Key)
    requires Inv(a) && g in a.world.groups && g in Step(a, ev).world.groups
    requires a.world.groups[g].status == Active && Step(a, ev).world.groups[g].status == Active
    ensures Step(a, ev).world.groups[g] == a.world.groups[g]
    ensures Made(Step(a, ev).world, g) == Made(a.world, g) + if On(a, ev, g) && ev.tx.ins.Deposit? then 1 else 0
  {
    hide Inv, Step, Made, Refusal, After, Moves, Evolves, SliceOf, RecordsOf;
    StepMoves(a, ev, g);
    if On(a, ev, g) {
      OnAfter(a, ev, g);
      ActiveOn(a, ev.tx, g);
      if ev.tx.ins.Deposit? {
        DepositAfter(a.world, ev.tx);
        DepositMade(a, ev.tx);
      } else {
        SameMade(a.world, Step(a, ev).world, g);
      }
    } else {
      NotOn(a, ev, g);
      SliceMade(a.world, Step(a, ev).world, g);
    }
  }

  lemma OnAfter(a: Audit, ev: Event, g: Key)
    requires On(a, ev, g)
    ensures Refusal(a.world, ev.tx).None? && Target(ev.tx.ins) == g && Step(a, ev).world == After(a.world, ev.tx)
  {
    StepParts(a, ev);
    hide Step, Refusal, After;
  }

  lemma DepositAfter(w: World, tx: Tx)
    requires tx.ins.Deposit? && Refusal(w, tx).None?
    ensures DepositRefusal(w, tx).None? && After(w, tx) == Deposited(w, tx)
  {
    hide DepositRefusal, Deposited;
  }

  lemma SameMade(w: World, w': World, g: Key)
    requires w'.records == w.records
    ensures Made(w', g) == Made(w, g)
  {
    RecordsSame(w, w');
  }

  lemma SliceMade(w: World, w': World, g: Key)
    requires SliceOf(w', g).records == SliceOf(w, g).records && SliceOf(w', g).group == SliceOf(w, g).group
    ensures Made(w', g) == Made(w, g)
    ensures g in w.groups && g in w'.groups ==> w'.groups[g] == w.groups[g]
  {
  }

  /** Deposits a group's members can still make once each made the first one. */
  function DepositCap(c: GroupConfig): nat
    requires c.totalPeriods >= 1
  {
    c.currentMembers * (c.totalPeriods - 1)
  }

  /** The books of a group that was Active with configuration `c0` and `made0` deposits: now `c` and
      `made`, after `p` more deposits, `s` settlements and `r` record closes. */
  predicate Spent(c0: GroupConfig, made0: nat, c: GroupConfig, made: nat, p: nat, s: nat, r: nat)
    requires c0.totalPeriods >= 1
  {
    && c.status != Open
    && s == (if c.status == Active then 0 else 1)
    && r + c.currentMembers == c0.currentMembers
    && p <= DepositCap(c0)
    && (c.status == Active ==> c == c0 && made == made0 + p)
  }

  ghost function One(a: Audit, ev: Event, g: Key, kind: Kind): nat {
    if On(a, ev, g) && OfKind(ev.tx.ins, kind) then 1 else 0
  }

  predicate WithinPeriods(c: GroupConfig, made: nat) {
    made <= c.currentMembers * c.totalPeriods
  }

  lemma DepositsLeft(c: GroupConfig, made0: nat, made: nat)
    requires c.currentMembers <= made0 && WithinPeriods(c, made) && c.totalPeriods >= 1
    ensures made - made0 <= DepositCap(c)
  {
    assert DepositCap(c) == c.currentMembers * c.totalPeriods - c.currentMembers;
  }

  /** Nothing happened to the group, or an instruction of no interest. */
  lemma SpentSame(c0: GroupConfig, made0: nat, c: GroupConfig, made: nat, p: nat, s: nat, r: nat,
                  c': GroupConfig, made': nat)
    requires c0.totalPeriods >= 1 && Spent(c0, made0, c, made, p, s, r)
    requires c' == c && (c.status == Active ==> made' == made)
    ensures Spent(c0, made0, c', made', p, s, r)
  {
    hide DepositCap;
  }

  lemma SpentOn(ins: Ins, now: i64, c0: GroupConfig, made0: nat, c: GroupConfig, made: nat, p: nat, s: nat, r: nat,
                c': GroupConfig, made': nat)
    requires c0.totalPeriods >= 1 && Spent(c0, made0, c, made, p, s, r) && Moves(ins, c, c', now)
    requires c.status == Active && c'.status == Active ==>
               made' == made + (if ins.Deposit? then 1 else 0) && made' - made0 <= DepositCap(c0)
    ensures Spent(c0, made0, c', made', p + (if OfKind(ins, Payment) then 1 else 0),
                  s + (if OfKind(ins, Settlement) then 1 else 0), r + if OfKind(ins, RecordClose) then 1 else 0)
  {
    hide DepositCap;
  }

  lemma SpentActive(c0: GroupConfig, made0: nat, c: GroupConfig, made: nat, p: nat, s: nat, r: nat)
    requires c0.totalPeriods >= 1 && Spent(c0, made0, c, made, p, s, r)
    ensures c.status == Active ==> c == c0
  {
    hide DepositCap;
  }

  /** Between two Active moments: what the records count, and how far from the cap. */
  lemma SpentMade(a: Audit, ev: Event, g: Key, c0: GroupConfig, made0: nat)
    requires Inv(a) && g in a.world.groups && g in Step(a, ev).world.groups && c0.totalPeriods >= 1
    requires a.world.groups[g].status == Active ==> a.world.groups[g] == c0
    requires c0.currentMembers <= made0
    requires WithinPeriods(Step(a, ev).world.groups[g], Made(Step(a, ev).world, g))
    ensures a.world.groups[g].status == Active && Step(a, ev).world.groups[g].status == Active ==>
              && Made(Step(a, ev).world, g) == Made(a.world, g) + (if On(a, ev, g) && ev.tx.ins.Deposit? then 1 else 0)
              && Made(Step(a, ev).world, g) - made0 <= DepositCap(c0)
  {
    hide *;
    if a.world.groups[g].status == Active && Step(a, ev).world.groups[g].status == Active {
      ActiveStep(a, ev, g);
      DepositsLeft(c0, made0, Made(Step(a, ev).world, g));
    }
    OneOf(a, ev, g);
  }

  lemma SpentStep(a: Audit, ev: Event, g: Key, c0: GroupConfig, made0: nat, p: nat, s: nat, r: nat)
    requires Inv(a) && g in a.world.groups && g in Step(a, ev).world.groups && c0.totalPeriods >= 1
    requires Spent(c0, made0, a.world.groups[g], Made(a.world, g), p, s, r)
    requires c0.currentMembers <= made0
    requires WithinPeriods(Step(a, ev).world.groups[g], Made(Step(a, ev).world, g))
    ensures Spent(c0, made0, Step(a, ev).world.groups[g], Made(Step(a, ev).world, g),
                  p + One(a, ev, g, Payment), s + One(a, ev, g, Settlement), r + One(a, ev, g, RecordClose))
  {
    hide *;
    var c, c', made, made' := a.world.groups[g], Step(a, ev).world.groups[g], Made(a.world, g),
        Made(Step(a, ev).world, g);
    SpentActive(c0, made0, c, made, p, s, r);
    SpentMade(a, ev, g, c0, made0);
    StepMoves(a, ev, g);
    OneOf(a, ev, g);
    if On(a, ev, g) {
      SpentOn(ev.tx.ins, a.world.clock, c0, made0, c, made, p, s, r, c', made');
    } else {
      SpentSame(c0, made0, c, made, p, s, r, c', made');
    }
  }

  lemma CountLast(a: Audit, events: seq<Event>, g: Key, kind: Kind)
    requires events != []
    ensures var n := |events| - 1;
            Count(a, events, g, kind) == Count(a, events[..n], g, kind) + One(Run(a, events[..n]), events[n], g, kind)
  {
    hide Run, On;
  }

  lemma OneOf(a: Audit, ev: Event, g: Key)
    ensures On(a, ev, g) ==> ev.Program?
    ensures forall kind :: One(a, ev, g, kind) == if On(a, ev, g) && OfKind(ev.tx.ins, kind) then 1 else 0
  {
    hide Happens, OfKind;
  }

  lemma MembersLeft(a: Audit, g: Key)
    requires Reachable(a) && g in a.world.groups
    ensures a.world.groups[g].totalPeriods >= 1
  {
    ReachableInv(a);
    OfGroup(a, g);
  }

  ghost predicate SpentBy(a: Audit, events: seq<Event>, g: Key)
    requires g in a.world.groups && g in Run(a, events).world.groups && a.world.groups[g].totalPeriods >= 1
  {
    Spent(a.world.groups[g], Made(a.world, g), Run(a, events).world.groups[g], Made(Run(a, events).world, g),
          Count(a, events, g, Payment), Count(a, events, g, Settlement), Count(a, events, g, RecordClose))
  }

  lemma SpentNothing(a: Audit, g: Key)
    requires g in a.world.groups && a.world.groups[g].status == Active && a.world.groups[g].totalPeriods >= 1
    ensures SpentBy(a, [], g)
  {
    hide Made;
    var c := a.world.groups[g];
    assert 0 <= c.currentMembers * (c.totalPeriods - 1);
  }

  lemma RunLast(a: Audit, events: seq<Event>)
    requires events != []
    ensures Run(a, events) == Step(Run(a, events[..|events| - 1]), events[|events| - 1])
  {
    hide Step;
  }

  lemma SpentByNext(a: Audit, events: seq<Event>, g: Key)
    requires Reachable(a) && events != [] && g in a.world.groups && a.world.groups[g].totalPeriods >= 1
    requires g in Run(a, events[..|events| - 1]).world.groups && g in Run(a, events).world.groups
    requires SpentBy(a, events[..|events| - 1], g)
    ensures SpentBy(a, events, g)
  {
    hide Run, Step, Count, One, Reachable, Spent, Made;
    var n := |events| - 1;
    RunLast(a, events);
    CountLast(a, events, g, Payment);
    CountLast(a, events, g, Settlement);
    CountLast(a, events, g, RecordClose);
    ReachableRun(a, events[..n]);
    ReachableRun(a, events);
    ReachableInv(Run(a, events[..n]));
    MadeBetween(a, g);
    MadeBetween(Run(a, events), g);
    SpentStep(Run(a, events[..n]), events[n], g, a.world.groups[g], Made(a.world, g),
              Count(a, events[..n], g, Payment), Count(a, events[..n], g, Settlement),
                  Count(a, events[..n], g, RecordClose));
  }

  lemma {:induction false} SpentRun(a: Audit, events: seq<Event>, g: Key)
    requires Reachable(a) && LivesThrough(a, events, g)
    requires g in a.world.groups && a.world.groups[g].status == Active
    ensures a.world.groups[g].totalPeriods >= 1 && g in Run(a, events).world.groups && SpentBy(a, events, g)
    decreases |events|
  {
    MembersLeft(a, g);
    if events == [] {
      SpentNothing(a, g);
    } else {
      hide *;
      LivesBefore(a, events, g);
      SpentRun(a, events[..|events| - 1], g);
      SpentByNext(a, events, g);
    }
  }

  /** What an Active group can still go through while it lives: with M members and N periods, at most
      M * (N - 1) deposits, one settlement, and one record close for each member. */
  lemma Budget(a: Audit, events: seq<Event>, g: Key)
    requires Reachable(a) && LivesThrough(a, events, g)
    requires g in a.world.groups && a.world.groups[g].status == Active
    ensures g in Run(a, events).world.groups
    ensures var c, c' := a.world.groups[g], Run(a, events).world.groups[g];
            && Count(a, events, g, Payment) <= c.currentMembers * (c.totalPeriods - 1)
            && Count(a, events, g, Settlement) == (if c'.status == Active then 0 else 1)
            && Count(a, events, g, RecordClose) == c.currentMembers - c'.currentMembers
  {
    SpentRun(a, events, g);
    hide *;
    SpentMeans(a, events, g);
  }

  lemma SpentMeans(a: Audit, events: seq<Event>, g: Key)
    requires g in a.world.groups && g in Run(a, events).world.groups && a.world.groups[g].totalPeriods >= 1
    requires SpentBy(a, events, g)
    ensures var c, c' := a.world.groups[g], Run(a, events).world.groups[g];
            && Count(a, events, g, Payment) <= c.currentMembers * (c.totalPeriods - 1)
            && Count(a, events, g, Settlement) == (if c'.status == Active then 0 else 1)
            && Count(a, events, g, RecordClose) == c.currentMembers - c'.currentMembers
  {
    hide Run, Count, Made;
  }
}
