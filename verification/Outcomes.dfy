/** What the invariant means for the people in a group, in every state the program can reach. */
module Outcomes {
  import opened Machine
  import opened Sums
  import opened Ledger
  import opened GroupTime
  import opened Settlement
  import opened Instructions
  import opened Balances
  import opened Audit
  import opened Invariant
  import opened Membership
  import opened Payouts
  import opened Settling
  import opened Safety

  // ---- no member loses principal ----

  /** While a group lives every wallet is down by exactly what its record says; once it is settled
      every wallet is even, except that the member listed last is up by what outsiders sent to the
      vault. Gains are measured on token balances, over every instruction since the group was
      created. */
  lemma PrincipalSafe(a: Audit, g: Key, k: Key)
    requires Reachable(a) && g in a.world.groups && k.External?
    ensures Live(a.world.groups[g].status) ==>
              Net(BookOf(a, g), k) + Owed(g, RecordsOf(a.world, g), k) == 0
    ensures Settled(a.world.groups[g].status) ==>
              Net(BookOf(a, g), k) == if BookOf(a, g).heir == Some(k) then BookOf(a, g).donated else 0
  {
    ReachableInv(a);
    OfGroup(a, g);
  }

  /** In every live group the vault holds the recorded deposits plus the donations, and the vault
      account exists in exactly those two statuses. */
  lemma VaultSolvent(a: Audit, g: Key)
    requires Reachable(a)
    ensures VaultAddr(g) in a.world.tokens <==> g in a.world.groups && Live(a.world.groups[g].status)
    ensures VaultAddr(g) in a.world.tokens ==>
              && a.world.tokens[VaultAddr(g)].amount
                 == Total(Deposits(RecordsOf(a.world, g))) + BookOf(a, g).donated
              && BookOf(a, g).donated >= 0
    ensures g in a.world.groups ==>
              a.world.groups[g].currentMembers == |RecordsOf(a.world, g)| <= a.world.groups[g].maxMembers
  {
    ReachableInv(a);
    OfVault(a, g);
    if g in a.world.groups {
      OfGroup(a, g);
    }
  }

  /** A step on one group changes nothing that another group owns. */
  lemma OthersUntouched(a: Audit, tx: Tx, h: Key)
    requires Reachable(a) && Refusal(a.world, tx).None? && h != Target(tx.ins)
    ensures SliceOf(After(a.world, tx), h) == SliceOf(a.world, h)
  {
    ReachableInv(a);
    TargetOnly(a, tx);
    hide Refusal, After, SliceOf, LocalInv;
  }

  // ---- records ----

  /** The counters of a record agree with its flags and stay in range, and the member paid in the
      amount of the terms they signed, at most once per period. */
  lemma RecordAccounting(a: Audit, r: Key)
    requires Reachable(a) && r in a.world.records
    ensures var rec := a.world.records[r];
            && rec.group in a.world.groups
            && var c := a.world.groups[rec.group];
               var b := BookOf(a, rec.group);
               && r == MemberAddr(rec.group, rec.member)
               && |rec.periodsDeposited| == 52 && c.totalPeriods <= 52 && rec.periodsDeposited[0]
               && (forall p :: c.totalPeriods <= p < 52 ==> !rec.periodsDeposited[p])
               && rec.depositsMade == CountTrue(rec.periodsDeposited) && 1 <= rec.depositsMade <= c.totalPeriods
               && rec.totalDeposited == rec.depositsMade * c.depositAmount <= c.totalPeriods * c.depositAmount
               && JoinedAs(c, rec.group, rec.member, b)
               && rec.totalDeposited
                  == rec.depositsMade * b.joined[rec.member].tx.ins.expectedTerms.depositAmount
  {
    ReachableInv(a);
    OfRecord(a, r);
    var rec := a.world.records[r];
    var c, s, b := a.world.groups[rec.group], SliceOf(a.world, rec.group), BookOf(a, rec.group);
    OfGroup(a, rec.group);
    assert RecordInv(a.world.build, c, rec.group, s.gate, s.records[r], b);
    CountAtMost(rec.periodsDeposited, c.totalPeriods);
    CountPositive(rec.periodsDeposited);
    MulOrder(rec.depositsMade, c.totalPeriods, c.depositAmount);
  }

  /** Flag `p` of a record is set exactly when one accepted deposit fell into window `p`, and no
      window ever held two; no accepted deposit fell into the first window or before it. */
  lemma FlagsAreWindows(a: Audit, r: Key, p: int)
    requires Reachable(a) && r in a.world.records
    ensures var rec := a.world.records[r];
            && rec.group in a.world.groups && rec.member in BookOf(a, rec.group).deposits
            && var c := a.world.groups[rec.group];
               c.frequency <= MaxFrequency(a.world.build)
               && InWindow(c.cycleStart, Period(a.world.build, c.frequency),
                   BookOf(a, rec.group).deposits[rec.member], p)
                  == if 1 <= p < MAX_PERIODS && rec.periodsDeposited[p] then 1 else 0
  {
    ReachableInv(a);
    OfRecord(a, r);
    var rec := a.world.records[r];
    var c, s, b := a.world.groups[rec.group], SliceOf(a.world, rec.group), BookOf(a, rec.group);
    OfGroup(a, rec.group);
    assert RecordInv(a.world.build, c, rec.group, s.gate, s.records[r], b);
    assert FlagsMatch(c.cycleStart, Period(a.world.build, c.frequency), rec.periodsDeposited, b.deposits[rec.member]);
    hide LocalInv, RecordInv, GroupInv;
  }

  /** If a group has a gate, the join behind every record it holds was signed by that authority,
      outside a durable nonce, for the tally the member had at that moment; and no gate is left
      where no group is. */
  lemma GateCovers(a: Audit, g: Key, r: Key)
    requires Reachable(a) && GateAddr(g) in a.world.gates
    ensures g in a.world.groups
    ensures r in RecordsOf(a.world, g) ==>
              && a.world.records[r].member in BookOf(a, g).joined
              && ApprovedBy(a.world.gates[GateAddr(g)], BookOf(a, g).joined[a.world.records[r].member])
  {
    ReachableInv(a);
    OfVault(a, g);
    if r in RecordsOf(a.world, g) {
      OfGroup(a, g);
      assert RecordInv(a.world.build, a.world.groups[g], g, SliceOf(a.world, g).gate,
                       SliceOf(a.world, g).records[r], BookOf(a, g));
    }
  }

  // ---- settlement: exactly when it succeeds ----

  /** The accounts a settlement moves tokens through are free to move them. */
  ghost predicate Unblocked(g: Key, remaining: seq<Key>, blocked: set<Key>) {
    && VaultAddr(g) !in blocked
    && forall i :: 0 <= i < |remaining| / 2 ==> Dest(remaining, i) !in blocked
  }

  /** Every recorded deposit is positive. */
  lemma DepositPositive(a: Audit, g: Key, r: Key)
    requires LocalInv(a) && g in a.world.groups && r in RecordsOf(a.world, g)
    ensures a.world.records[r].totalDeposited > 0
  {
    OfGroup(a, g);
    var rec := SliceOf(a.world, g).records[r];
    var c := a.world.groups[g];
    assert RecordInv(a.world.build, c, g, SliceOf(a.world, g).gate, rec, BookOf(a, g));
    CountPositive(rec.periodsDeposited);
    hide LocalInv, GroupInv, RecordInv, CountTrue;
    MulOrder(1, rec.depositsMade, c.depositAmount);
  }

  /** The recorded deposits in list order. */
  function ListedDeposits(w: World, remaining: seq<Key>): seq<u64>
    requires forall i :: 0 <= i < |remaining| / 2 ==> remaining[2 * i] in w.records
  {
    seq(|remaining| / 2, i requires 0 <= i < |remaining| / 2 => w.records[remaining[2 * i]].totalDeposited)
  }

  /** An exact list settles: no check fails, no sum overflows, no transfer falls short, and the
      vault is empty (or burned) when it closes. */
  lemma ListingSettles(a: Audit, g: Key, remaining: seq<Key>, blocked: set<Key>, mode: Mode)
    requires Inv(a) && g in a.world.groups && Live(a.world.groups[g].status) && VaultAddr(g) in a.world.tokens
    requires IsListing(a.world, g, a.world.groups[g].mint, remaining)
    requires remaining != [] ==> Unblocked(g, remaining, blocked)
    requires remaining == [] && a.world.tokens[VaultAddr(g)].amount > 0 ==>
               mode.ByCancel? && mode.mintWritable && VaultAddr(g) !in blocked
    ensures Settle(a.world, g, remaining, blocked, mode).Ok?
  {
    var w, v, mint := a.world, VaultAddr(g), a.world.groups[g].mint;
    forall i | 0 <= i < |remaining| / 2 ensures remaining[2 * i] in w.records {
      PairOfListing(a, g, remaining, i);
    }
    var deposits := ListedDeposits(w, remaining);
    SettlesList(a, g, remaining, deposits);
    ListingPayable(a, g, remaining, deposits);
    OfVault(a, g);
    assert Supply(w.tokens, mint) <= U64_MAX;
    if remaining != [] {
      PayGoes(w.tokens, v, mint, remaining, deposits, blocked, mode, |deposits|);
    }
    PayExact(w.tokens, v, mint, remaining, deposits, blocked, mode, |deposits|);
    SharesExact(deposits, w.tokens[v].amount);
    SettlesFrom(w, g, remaining, blocked, mode, deposits);
  }

  /** The validation pass accepts an exact list and finds a covered total. */
  lemma SettlesList(a: Audit, g: Key, remaining: seq<Key>, deposits: seq<u64>)
    requires LocalInv(a) && g in a.world.groups && VaultAddr(g) in a.world.tokens
    requires IsListing(a.world, g, a.world.groups[g].mint, remaining) && 2 * |deposits| == |remaining|
    requires forall i :: 0 <= i < |deposits| ==>
               remaining[2 * i] in a.world.records && deposits[i] == a.world.records[remaining[2 * i]].totalDeposited
    ensures |deposits| == a.world.groups[g].currentMembers
    ensures SeqTotal(deposits) <= a.world.tokens[VaultAddr(g)].amount
    ensures ListUpTo(a.world, g, a.world.groups[g].mint, remaining, |deposits|).Ok?
    ensures ListUpTo(a.world, g, a.world.groups[g].mint, remaining, |deposits|).value.deposits == deposits
  {
    var w, mint := a.world, a.world.groups[g].mint;
    ListingIsAccepted(a, g, mint, remaining);
    ListedSum(w, g, mint, remaining, deposits);
    CoveredTotal(a, g);
    hide LocalInv, IsListing, PairError;
    ListGoes(w, g, mint, remaining, deposits, |deposits|);
    assert deposits[..|deposits|] == deposits;
  }

  lemma CoveredTotal(a: Audit, g: Key)
    requires LocalInv(a) && g in a.world.groups && VaultAddr(g) in a.world.tokens
    ensures Total(Deposits(RecordsOf(a.world, g))) <= a.world.tokens[VaultAddr(g)].amount
  {
    OfVault(a, g);
    OfGroup(a, g);
  }

  /** From the loops to the whole settlement. */
  lemma SettlesFrom(w: World, g: Key, remaining: seq<Key>, blocked: set<Key>, mode: Mode, deposits: seq<u64>)
    requires g in w.groups && VaultAddr(g) in w.tokens
    requires |deposits| == w.groups[g].currentMembers && |remaining| == 2 * |deposits|
    requires SeqTotal(deposits) <= w.tokens[VaultAddr(g)].amount
    requires ListUpTo(w, g, w.groups[g].mint, remaining, |deposits|).Ok?
    requires ListUpTo(w, g, w.groups[g].mint, remaining, |deposits|).value.deposits == deposits
    requires var r := PayUpTo(w.tokens, VaultAddr(g), remaining, deposits, blocked, mode, |deposits|);
             r.Ok? && r.value.paid == Shares(deposits, w.tokens[VaultAddr(g)].amount)[..|deposits|]
             && r.value.tokens[VaultAddr(g)].amount + SeqTotal(r.value.paid) == w.tokens[VaultAddr(g)].amount
    requires deposits != [] ==>
               SeqTotal(Shares(deposits, w.tokens[VaultAddr(g)].amount)) == w.tokens[VaultAddr(g)].amount
    requires deposits == [] && w.tokens[VaultAddr(g)].amount > 0 ==>
               mode.ByCancel? && mode.mintWritable && VaultAddr(g) !in blocked
    ensures Settle(w, g, remaining, blocked, mode).Ok?
  {
    hide ListUpTo, PayUpTo, Shares;
    var paid := Shares(deposits, w.tokens[VaultAddr(g)].amount);
    assert paid[..|deposits|] == paid;
  }

  /** A settlement that went through had every account it used unblocked: every payout is positive. */
  lemma {:induction false} PaidUnblocked(tokens: Tokens, v: Key, mint: Key, remaining: seq<Key>, deposits: seq<u64>,
                                         blocked: set<Key>, mode: Mode, n: nat)
    requires Payable(tokens, v, mint, remaining, deposits) && n <= |deposits|
    requires forall i :: 0 <= i < |deposits| ==> deposits[i] > 0
    requires PayUpTo(tokens, v, remaining, deposits, blocked, mode, n).Ok?
    ensures n > 0 ==> v !in blocked
    ensures forall i :: 0 <= i < n ==> Dest(remaining, i) !in blocked
  {
    if n > 0 {
      hide *;
      LastPay(tokens, v, mint, remaining, deposits, blocked, mode, n);
      var p := PayUpTo(tokens, v, remaining, deposits, blocked, mode, n - 1).value;
      var r := PayUpTo(tokens, v, remaining, deposits, blocked, mode, n).value;
      PositivePay(tokens, v, mint, remaining, deposits, blocked, p.tokens, r.paid[n - 1], r.tokens, n - 1);
      PaidUnblocked(tokens, v, mint, remaining, deposits, blocked, mode, n - 1);
    }
  }

  lemma PositivePay(tokens: Tokens, v: Key, mint: Key, remaining: seq<Key>, deposits: seq<u64>, blocked: set<Key>,
                    now: Tokens, amount: u64, next: Tokens, n: nat)
    requires Payable(tokens, v, mint, remaining, deposits) && n < |deposits| && deposits[n] > 0
    requires PaidSoFar(tokens, v, remaining, Shares(deposits, tokens[v].amount), now, n) && v in now
    requires amount == if n + 1 == |deposits| then now[v].amount else deposits[n]
    requires Pay(now, v, Dest(remaining, n), amount, blocked) == Some(next)
    ensures v !in blocked && Dest(remaining, n) !in blocked
  {
    PayableBasics(tokens, v, mint, remaining, deposits);
    NextAmount(tokens, v, mint, remaining, deposits, now, n);
    SharesExact(deposits, tokens[v].amount);
    hide Payable, PaidSoFar, Shares, SeqTotal;
  }

  /** What an accepted settlement proves about the list and the accounts. */
  lemma SettledMeans(a: Audit, g: Key, remaining: seq<Key>, blocked: set<Key>, mode: Mode)
    requires Inv(a) && g in a.world.groups && VaultAddr(g) in a.world.tokens
    requires Settle(a.world, g, remaining, blocked, mode).Ok?
    ensures IsListing(a.world, g, a.world.groups[g].mint, remaining)
    ensures remaining != [] ==> Unblocked(g, remaining, blocked)
    ensures remaining == [] && a.world.tokens[VaultAddr(g)].amount > 0 ==>
              mode.ByCancel? && mode.mintWritable && VaultAddr(g) !in blocked
  {
    var w := a.world;
    var r := Settle(w, g, remaining, blocked, mode).value;
    SettleChecks(a, g, remaining, blocked, mode);
    SettledList(a, g, remaining, blocked, mode);
    EmptyChecks(w, g, remaining, blocked, mode);
    hide Settle, PairError;
    ListingPayable(a, g, remaining, r.deposits);
    forall i | 0 <= i < |r.deposits| ensures r.deposits[i] > 0 {
      PairOfListing(a, g, remaining, i);
      DepositPositive(a, g, remaining[2 * i]);
    }
    hide LocalInv, IsListing, Payable, PayUpTo;
    PaidUnblocked(w.tokens, VaultAddr(g), w.groups[g].mint, remaining, r.deposits, blocked, mode, |r.deposits|);
  }

  lemma EmptyChecks(w: World, g: Key, remaining: seq<Key>, blocked: set<Key>, mode: Mode)
    requires g in w.groups && VaultAddr(g) in w.tokens && Settle(w, g, remaining, blocked, mode).Ok?
    ensures remaining == [] && w.tokens[VaultAddr(g)].amount > 0 ==>
              mode.ByCancel? && mode.mintWritable && VaultAddr(g) !in blocked
  {
  }

  lemma InvParts(a: Audit)
    requires Inv(a)
    ensures LocalInv(a) && SupplyInv(a.world)
  {
    hide LocalInv, SupplyInv;
  }

  /** An Active group has members, so its exact list is not empty; and its cycle end does not overflow. */
  lemma ActiveList(a: Audit, g: Key, remaining: seq<Key>)
    requires LocalInv(a) && g in a.world.groups && a.world.groups[g].status == Active
    ensures Live(a.world.groups[g].status) && CycleEnd(a.world.build, a.world.groups[g]).Ok?
    ensures IsListing(a.world, g, a.world.groups[g].mint, remaining) ==> remaining != []
  {
    OfGroup(a, g);
    if IsListing(a.world, g, a.world.groups[g].mint, remaining) {
      ListingIsAccepted(a, g, a.world.groups[g].mint, remaining);
    }
  }

  /** The checks of a distribution, apart from its settlement. */
  lemma DistributeChecks(w: World, tx: Tx)
    requires tx.ins.Distribute?
    ensures var g := tx.ins.group;
            Refusal(w, tx).None?
            <==> && tx.ins.payer in tx.signers
                 && g in w.groups && g == GroupAddr(w.groups[g].code) && VaultAddr(g) in w.tokens
                 && w.groups[g].status == Active
                 && CycleEnd(w.build, w.groups[g]).Ok? && w.clock >= CycleEnd(w.build, w.groups[g]).value
                 && Settle(w, g, tx.ins.remaining, tx.blocked, ByDistribute).Ok?
  {
    hide Settle, CycleEnd;
  }

  /** The seconds in a period of any stored group, as numbers. */
  lemma PeriodLasts(a: Audit, g: Key)
    requires Reachable(a) && g in a.world.groups
    ensures var build, f := a.world.build, a.world.groups[g].frequency;
            && f <= MaxFrequency(build) && PeriodSecs(build, f) == Ok(Period(build, f))
            && (f == 0 ==> Period(build, f) == 604_800)
            && (f == 1 ==> Period(build, f) == 1_209_600)
            && (f == 2 ==> Period(build, f) == 2_592_000)
            && (f == 3 ==> Period(build, f) == 300 && build == Devnet)
            && f <= 3
  {
    ReachableInv(a);
    OfGroup(a, g);
    hide Reachable, Inv, GroupInv;
  }

  /** The end of an Active group's cycle, with no overflow on the way. */
  lemma ActiveEnd(a: Audit, g: Key)
    requires LocalInv(a) && g in a.world.groups && a.world.groups[g].status == Active
    ensures var build, c := a.world.build, a.world.groups[g];
            c.frequency <= MaxFrequency(build)
            && CycleEnd(build, c) == Ok(c.cycleStart + c.totalPeriods * Period(build, c.frequency))
  {
    OfGroup(a, g);
    CycleEndExact(a.world.build, a.world.groups[g]);
    hide LocalInv, RecordsInv, MoneyInv, CycleEnd;
  }

  /** `distribute` succeeds exactly when its payer signed, the group is Active, the last of its periods
      is over, and the list names every member once with an unblocked account of theirs. Nothing the
      program stores can stop it, and no other list gets through. */
  lemma DistributeExactly(a: Audit, tx: Tx)
    requires Reachable(a) && tx.ins.Distribute?
    ensures tx.ins.group in a.world.groups ==> a.world.groups[tx.ins.group].frequency <= MaxFrequency(a.world.build)
    ensures var w, g := a.world, tx.ins.group;
            Refusal(w, tx).None?
            <==> && tx.ins.payer in tx.signers && g in w.groups && w.groups[g].status == Active
                 && w.clock >= w.groups[g].cycleStart
                               + w.groups[g].totalPeriods * Period(w.build, w.groups[g].frequency)
                 && IsListing(w, g, w.groups[g].mint, tx.ins.remaining)
                 && Unblocked(g, tx.ins.remaining, tx.blocked)
  {
    hide *;
    var w, g, remaining := a.world, tx.ins.group, tx.ins.remaining;
    ReachableInv(a);
    InvParts(a);
    DistributeChecks(w, tx);
    if g in w.groups {
      PeriodLasts(a, g);
    }
    if g in w.groups && w.groups[g].status == Active {
      ActiveEnd(a, g);
      ActiveList(a, g, remaining);
      LiveGroup(a, g);
      if Settle(w, g, remaining, tx.blocked, ByDistribute).Ok? {
        SettledMeans(a, g, remaining, tx.blocked, ByDistribute);
      }
      if IsListing(w, g, w.groups[g].mint, remaining) && Unblocked(g, remaining, tx.blocked) {
        ListingSettles(a, g, remaining, tx.blocked, ByDistribute);
      }
    }
  }

  /** The checks of a cancel, apart from its settlement. */
  lemma CancelChecks(w: World, tx: Tx)
    requires tx.ins.EmergencyCancel?
    ensures var g := tx.ins.group;
            Refusal(w, tx).None?
            <==> && tx.ins.creator in tx.signers
                 && g in w.groups && g == GroupAddr(w.groups[g].code) && VaultAddr(g) in w.tokens
                 && tx.ins.creator == w.groups[g].creator && Live(w.groups[g].status)
                 && Settle(w, g, tx.ins.remaining, tx.blocked, ByCancel(tx.ins.mintWritable)).Ok?
  {
    hide Settle;
  }

  lemma LiveGroup(a: Audit, g: Key)
    requires Inv(a)
    ensures g in a.world.groups && Live(a.world.groups[g].status) ==>
              && VaultAddr(g) in a.world.tokens && g == GroupAddr(a.world.groups[g].code)
              && VaultAmount(a.world, g) == a.world.tokens[VaultAddr(g)].amount
  {
    OfVault(a, g);
    if g in a.world.groups {
      OfGroup(a, g);
    }
    hide LocalInv, SupplyInv;
  }

  /** `emergency_cancel` succeeds exactly when the group's creator signed, the group is Open or Active,
      and the list names every member once with an unblocked account; with nobody in the group, a vault
      that holds tokens also needs a writable mint to burn them. */
  lemma CancelExactly(a: Audit, tx: Tx)
    requires Reachable(a) && tx.ins.EmergencyCancel?
    ensures var w, g := a.world, tx.ins.group;
            Refusal(w, tx).None?
            <==> && tx.ins.creator in tx.signers
                 && g in w.groups && Live(w.groups[g].status) && w.groups[g].creator == tx.ins.creator
                 && IsListing(w, g, w.groups[g].mint, tx.ins.remaining)
                 && (tx.ins.remaining != [] ==> Unblocked(g, tx.ins.remaining, tx.blocked))
                 && (tx.ins.remaining == [] && VaultAmount(w, g) > 0 ==>
                       tx.ins.mintWritable && VaultAddr(g) !in tx.blocked)
  {
    hide *;
    var w, g, remaining, mode := a.world, tx.ins.group, tx.ins.remaining, ByCancel(tx.ins.mintWritable);
    ReachableInv(a);
    LiveGroup(a, g);
    CancelChecks(w, tx);
    if g in w.groups && Live(w.groups[g].status) {
      if Settle(w, g, remaining, tx.blocked, mode).Ok? {
        SettledMeans(a, g, remaining, tx.blocked, mode);
      }
      if && IsListing(w, g, w.groups[g].mint, remaining)
         && (remaining != [] ==> Unblocked(g, remaining, tx.blocked))
         && (remaining == [] && VaultAmount(w, g) > 0 ==> tx.ins.mintWritable && VaultAddr(g) !in tx.blocked)
      {
        ListingSettles(a, g, remaining, tx.blocked, mode);
      }
    }
  }

  // ---- what settlement pays ----

  /** The state a settlement of `g` leaves. */
  function StateAfter(w: World, g: Key, remaining: seq<Key>, blocked: set<Key>, mode: Mode): World
    requires g in w.groups && VaultAddr(g) in w.tokens && Settle(w, g, remaining, blocked, mode).Ok?
  {
    SettledAs(w, g, if mode.ByDistribute? then Completed else Cancelled, Settle(w, g, remaining, blocked, mode).value)
  }

  lemma SettledGain(a: Audit, g: Key, remaining: seq<Key>, blocked: set<Key>, mode: Mode, k: Key)
    requires Reachable(a) && g in a.world.groups && VaultAddr(g) in a.world.tokens && k.External?
    requires Settle(a.world, g, remaining, blocked, mode).Ok?
    ensures Gain(a.world, StateAfter(a.world, g, remaining, blocked, mode), k, a.world.groups[g].mint)
         == Owed(g, RecordsOf(a.world, g), k)
            + if LastListed(a.world, remaining) == Some(k) then BookOf(a, g).donated else 0
  {
    ReachableInv(a);
    assert LocalInv(a);
    var status := if mode.ByDistribute? then Completed else Cancelled;
    assert StateAfter(a.world, g, remaining, blocked, mode)
        == SettledAs(a.world, g, status, Settle(a.world, g, remaining, blocked, mode).value) by {
      hide SettledAs, Settle;
    }
    hide *;
    VaultSolvent(a, g);
    var r := Settle(a.world, g, remaining, blocked, mode).value;
    SettledList(a, g, remaining, blocked, mode);
    SettleGain(a, g, remaining, blocked, mode, status, k);
    ReceivedExact(a, g, remaining, r.deposits, a.world.tokens[VaultAddr(g)].amount, k);
  }

  /** Settlement raises each wallet's tokens by what its record says, and the last listed member's
      also by what nobody deposited. The order of the list decides nothing else. */
  lemma SettlementPays(a: Audit, tx: Tx, k: Key)
    requires Reachable(a) && (tx.ins.Distribute? || tx.ins.EmergencyCancel?) && k.External?
    requires Refusal(a.world, tx).None?
    ensures var w, g := a.world, tx.ins.group;
            && g in w.groups
            && Gain(w, After(w, tx), k, w.groups[g].mint)
               == Owed(g, RecordsOf(w, g), k)
                  + (if LastListed(w, tx.ins.remaining) == Some(k) then BookOf(a, g).donated else 0)
            && VaultAddr(g) !in After(w, tx).tokens
  {
    hide *;
    SettlesTo(a.world, tx);
    SettledGain(a, tx.ins.group, tx.ins.remaining, tx.blocked, SettleMode(tx.ins), k);
    VaultGone(a.world, tx.ins.group, tx.ins.remaining, tx.blocked, SettleMode(tx.ins));
  }

  lemma SettlesTo(w: World, tx: Tx)
    requires (tx.ins.Distribute? || tx.ins.EmergencyCancel?) && Refusal(w, tx).None?
    ensures tx.ins.group in w.groups && VaultAddr(tx.ins.group) in w.tokens
    ensures Settle(w, tx.ins.group, tx.ins.remaining, tx.blocked, SettleMode(tx.ins)).Ok?
    ensures After(w, tx) == StateAfter(w, tx.ins.group, tx.ins.remaining, tx.blocked, SettleMode(tx.ins))
  {
    SettlesHere(w, tx);
    hide Settle, SettledAs, After, Refusal;
  }

  lemma VaultGone(w: World, g: Key, remaining: seq<Key>, blocked: set<Key>, mode: Mode)
    requires g in w.groups && VaultAddr(g) in w.tokens && Settle(w, g, remaining, blocked, mode).Ok?
    ensures VaultAddr(g) !in StateAfter(w, g, remaining, blocked, mode).tokens
  {
    hide ListUpTo, PayUpTo;
  }

  /** Two settlements of the same group in the same state, whatever their lists and whichever of the two
      instructions: a wallet gets the same from both unless it is listed last in just one of them, and
      then the difference is what nobody deposited. */
  lemma OrderMovesSurplus(a: Audit, g: Key, list: seq<Key>, other: seq<Key>, blocked: set<Key>, mode: Mode, mode': Mode,
                          k: Key)
    requires Reachable(a) && g in a.world.groups && VaultAddr(g) in a.world.tokens && k.External?
    requires Settle(a.world, g, list, blocked, mode).Ok? && Settle(a.world, g, other, blocked, mode').Ok?
    ensures var w, d := a.world, BookOf(a, g).donated;
            var mint := w.groups[g].mint;
            Gain(w, StateAfter(w, g, list, blocked, mode), k, mint)
            - Gain(w, StateAfter(w, g, other, blocked, mode'), k, mint)
            == (if LastListed(w, list) == Some(k) then d else 0) - (if LastListed(w, other) == Some(k) then d else 0)
  {
    hide *;
    SettledGain(a, g, list, blocked, mode, k);
    SettledGain(a, g, other, blocked, mode', k);
  }

  /** With members in the group, a distribution and a cancel over the same list either both go
      through or both do not, and make the same payouts: the shares of the vault, none of it burned
      and none of it left. */
  lemma OnePayoutFunction(a: Audit, g: Key, remaining: seq<Key>, blocked: set<Key>, writable: bool)
    requires Reachable(a) && g in a.world.groups && VaultAddr(g) in a.world.tokens && remaining != []
    ensures var d := Settle(a.world, g, remaining, blocked, ByDistribute);
            var e := Settle(a.world, g, remaining, blocked, ByCancel(writable));
            && (d.Ok? <==> e.Ok?)
            && (d.Ok? ==>
                  && d.value == e.value && d.value.burned == 0
                  && SeqTotal(d.value.deposits) <= a.world.tokens[VaultAddr(g)].amount
                  && d.value.paid == Shares(d.value.deposits, a.world.tokens[VaultAddr(g)].amount)
                  && SeqTotal(d.value.paid) == a.world.tokens[VaultAddr(g)].amount)
  {
    ReachableInv(a);
    OfVault(a, g);
    SettleEither(a, g, remaining, blocked, ByDistribute, ByCancel(writable));
    SettleEither(a, g, remaining, blocked, ByCancel(writable), ByDistribute);
  }

  lemma SettleEither(a: Audit, g: Key, remaining: seq<Key>, blocked: set<Key>, mode: Mode, other: Mode)
    requires Inv(a) && g in a.world.groups && VaultAddr(g) in a.world.tokens && remaining != []
    ensures Settle(a.world, g, remaining, blocked, mode).Ok? ==>
              var r := Settle(a.world, g, remaining, blocked, mode).value;
              && Settle(a.world, g, remaining, blocked, other) == Ok(r)
              && r.burned == 0
              && SeqTotal(r.deposits) <= a.world.tokens[VaultAddr(g)].amount
              && r.paid == Shares(r.deposits, a.world.tokens[VaultAddr(g)].amount)
              && SeqTotal(r.paid) == a.world.tokens[VaultAddr(g)].amount
  {
    if Settle(a.world, g, remaining, blocked, mode).Ok? {
      OfVault(a, g);
      SettledMeans(a, g, remaining, blocked, mode);
      ListingSettles(a, g, remaining, blocked, other);
      hide LocalInv, Settle;
      SettleReceipt(a, g, remaining, blocked, mode);
      SettleReceipt(a, g, remaining, blocked, other);
      var r, q := Settle(a.world, g, remaining, blocked, mode).value,
          Settle(a.world, g, remaining, blocked, other).value;
      assert r.deposits == q.deposits;
      hide *;
      SamePayrun(a, g, remaining, r.deposits, blocked, mode, other);
    }
  }

  /** The receipt of an accepted settlement of a group with members. */
  lemma SettleReceipt(a: Audit, g: Key, remaining: seq<Key>, blocked: set<Key>, mode: Mode)
    requires LocalInv(a) && g in a.world.groups && VaultAddr(g) in a.world.tokens && remaining != []
    requires Settle(a.world, g, remaining, blocked, mode).Ok?
    ensures var w := a.world;
            var v := VaultAddr(g);
            var r := Settle(w, g, remaining, blocked, mode).value;
            var p := PayUpTo(w.tokens, v, remaining, r.deposits, blocked, mode, |r.deposits|);
            && |remaining| == 2 * |r.deposits| && SeqTotal(r.deposits) <= w.tokens[v].amount
            && (forall i :: 0 <= i < |r.deposits| ==>
                  remaining[2 * i] in w.records && r.deposits[i] == w.records[remaining[2 * i]].totalDeposited)
            && Payable(w.tokens, v, w.groups[g].mint, remaining, r.deposits)
            && p.Ok? && r == Receipt(r.deposits, p.value.paid, 0, p.value.tokens - {v})
            && r.paid == Shares(r.deposits, w.tokens[v].amount) && SeqTotal(r.paid) == w.tokens[v].amount
  {
    var w, v := a.world, VaultAddr(g);
    var r := Settle(w, g, remaining, blocked, mode).value;
    SettleChecks(a, g, remaining, blocked, mode);
    SettledList(a, g, remaining, blocked, mode);
    assert r.burned == 0;
    hide LocalInv, Settle, PairError;
    ListingPayable(a, g, remaining, r.deposits);
    PayExact(w.tokens, v, w.groups[g].mint, remaining, r.deposits, blocked, mode, |r.deposits|);
    SharesExact(r.deposits, w.tokens[v].amount);
    hide *;
    var paid := Shares(r.deposits, w.tokens[v].amount);
    assert paid[..|r.deposits|] == paid;
  }

  /** The loop does not depend on which instruction runs it, as long as it runs to the end. */
  lemma SamePayrun(a: Audit, g: Key, remaining: seq<Key>, deposits: seq<u64>, blocked: set<Key>, mode: Mode,
      other: Mode)
    requires VaultAddr(g) in a.world.tokens && g in a.world.groups
    requires Payable(a.world.tokens, VaultAddr(g), a.world.groups[g].mint, remaining, deposits)
    requires |remaining| == 2 * |deposits|
    requires PayUpTo(a.world.tokens, VaultAddr(g), remaining, deposits, blocked, mode, |deposits|).Ok?
    requires PayUpTo(a.world.tokens, VaultAddr(g), remaining, deposits, blocked, other, |deposits|).Ok?
    ensures PayUpTo(a.world.tokens, VaultAddr(g), remaining, deposits, blocked, mode, |deposits|)
         == PayUpTo(a.world.tokens, VaultAddr(g), remaining, deposits, blocked, other, |deposits|)
  {
    SamePayrunUpTo(a.world.tokens, VaultAddr(g), remaining, deposits, blocked, mode, other, |deposits|);
  }

  lemma {:induction false} SamePayrunUpTo(tokens: Tokens, v: Key, remaining: seq<Key>, deposits: seq<u64>,
                                          blocked: set<Key>, mode: Mode, other: Mode, n: nat)
    requires v in tokens && n <= |deposits| && |remaining| == 2 * |deposits|
    requires PayUpTo(tokens, v, remaining, deposits, blocked, mode, n).Ok?
    requires PayUpTo(tokens, v, remaining, deposits, blocked, other, n).Ok?
    ensures PayUpTo(tokens, v, remaining, deposits, blocked, mode, n)
         == PayUpTo(tokens, v, remaining, deposits, blocked, other, n)
  {
    if n > 0 {
      LastRound(tokens, v, remaining, deposits, blocked, mode, n);
      LastRound(tokens, v, remaining, deposits, blocked, other, n);
      hide *;
      SamePayrunUpTo(tokens, v, remaining, deposits, blocked, mode, other, n - 1);
    }
  }

  // ---- a freed group code ----

  /** Closing a group leaves no group, record, vault or gate at any address it derived. */
  lemma CloseLeavesNothing(a: Audit, tx: Tx)
    requires Reachable(a) && tx.ins.CloseGroup? && Refusal(a.world, tx).None?
    ensures SliceOf(After(a.world, tx), tx.ins.group) == NOTHING
    ensures forall r :: r in After(a.world, tx).records ==> After(a.world, tx).records[r].group != tx.ins.group
  {
    ReachableInv(a);
    CloseGroupShape(a, tx);
    var w' := After(a.world, tx);
    assert RecordsOf(w', tx.ins.group) == map[];
    forall r | r in w'.records ensures w'.records[r].group != tx.ins.group {
      assert r in RecordsOf(w', w'.records[r].group);
    }
  }

  /** Two groups created with the same parameters start out the same, however many groups lived at
      that code before either of them. */
  lemma CreateForgets(a: Audit, b: Audit, tx: Tx)
    requires Reachable(a) && Reachable(b) && tx.ins.CreateGroup?
    requires Refusal(a.world, tx).None? && Refusal(b.world, tx).None?
    ensures SliceOf(After(a.world, tx), Target(tx.ins)) == SliceOf(After(b.world, tx), Target(tx.ins))
        == FreshSlice(tx.ins)
  {
    ReachableInv(a);
    ReachableInv(b);
    CreateShape(a, tx);
    CreateShape(b, tx);
  }
}
