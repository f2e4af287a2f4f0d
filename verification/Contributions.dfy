/** Exactly when a member's money is accepted: joining, and paying a period. */
module Contributions {
  import opened Machine
  import opened Ledger
  import opened GroupTime
  import opened Instructions
  import opened Audit
  import opened Invariant
  import opened Payments
  import opened Safety
  import opened Outcomes
  import opened RoundTrip

  // ---- deposit ----

  /** The clock is inside the cycle, in a window that is not paid. */
  ghost predicate Due(w: World, c: GroupConfig, rec: MemberRecord) {
    c.frequency <= MaxFrequency(w.build)
    && var d := Period(w.build, c.frequency);
       exists p :: 0 <= p < c.totalPeriods && p < 52 && c.cycleStart + p * d <= w.clock < c.cycleStart + (p + 1) * d
                   && !rec.periodsDeposited[p]
  }

  /** The account can pay: it is the member's own, of the group's mint, and holds the amount. */
  predicate CanPay(w: World, c: GroupConfig, source: Key, member: Key, blocked: set<Key>) {
    && source in w.tokens && w.tokens[source].owner == member && w.tokens[source].mint == c.mint
    && w.tokens[source].amount >= c.depositAmount && source !in blocked
  }

  /** What a record adds up to, and where it is. */
  lemma RecordFacts(a: Audit, g: Key, m: Key)
    requires Reachable(a) && MemberAddr(g, m) in a.world.records
    ensures g in a.world.groups && g == GroupAddr(a.world.groups[g].code)
    ensures InRange(a.world.build, a.world.groups[g])
    ensures a.world.groups[g].status == Active ==> CycleEnd(a.world.build, a.world.groups[g]).Ok?
    ensures var rec := a.world.records[MemberAddr(g, m)];
            && rec.group == g && rec.member == m && m.External? && rec.periodsDeposited[0]
            && rec.depositsMade <= a.world.groups[g].totalPeriods && MemberAddr(g, m) in RecordsOf(a.world, g)
  {
    RecordAccounting(a, MemberAddr(g, m));
    ReachableInv(a);
    OfRecord(a, MemberAddr(g, m));
    OfGroup(a, g);
    hide Reachable, LocalInv, SupplyInv, RecordsInv, MoneyInv, RecordInv, JoinedAs, CountTrue;
  }

  /** The vault takes the amount: nothing a payer holds can overflow it, nor the record's total. */
  lemma Fits(a: Audit, g: Key, source: Key, m: Key, amount: u64)
    requires Reachable(a) && g in a.world.groups && Live(a.world.groups[g].status) && m.External?
    requires source in a.world.tokens && a.world.tokens[source].owner == m
    requires a.world.tokens[source].mint == a.world.groups[g].mint && a.world.tokens[source].amount >= amount
    ensures VaultAddr(g) in a.world.tokens && a.world.tokens[VaultAddr(g)].mint == a.world.groups[g].mint
    ensures source != VaultAddr(g) && a.world.tokens[VaultAddr(g)].amount + amount <= U64_MAX
  {
    ReachableInv(a);
    hide Reachable, SupplyInv;
    OfVault(a, g);
    VaultsApart(a, source, m);
    hide LocalInv;
    TwoFit(a, VaultAddr(g), source);
  }

  /** A window that is due is the one the index computes. */
  lemma DueIndex(w: World, c: GroupConfig, rec: MemberRecord)
    requires InRange(w.build, c) && CycleEnd(w.build, c).Ok? && Due(w, c, rec)
    ensures PeriodIndex(w.build, c, w.clock).Ok? && PeriodIndex(w.build, c, w.clock).value < MAX_PERIODS
    ensures !rec.periodsDeposited[PeriodIndex(w.build, c, w.clock).value]
  {
    hide CycleEnd, PeriodIndex;
    var d := Period(w.build, c.frequency);
    var p :| 0 <= p < c.totalPeriods && p < 52 && c.cycleStart + p * d <= w.clock < c.cycleStart + (p + 1) * d
             && !rec.periodsDeposited[p];
    CycleEndExact(w.build, c);
    MulOrder(0, p, d);
    MulOrder(p + 1, c.totalPeriods, d);
    DivUnique(w.clock - c.cycleStart, d, p);
    PeriodExact(w.build, c, w.clock);
  }

  lemma DepositAccepted(w: World, tx: Tx)
    requires tx.ins.Deposit? && tx.ins.member in tx.signers
    requires var i, g, r := tx.ins, tx.ins.group, MemberAddr(tx.ins.group, tx.ins.member);
             && g in w.groups && g == GroupAddr(w.groups[g].code) && w.groups[g].status == Active
             && r in w.records && w.records[r].group == g && w.records[r].member == i.member
             && InRange(w.build, w.groups[g]) && CycleEnd(w.build, w.groups[g]).Ok?
             && Due(w, w.groups[g], w.records[r])
             && CanPay(w, w.groups[g], i.source, i.member, tx.blocked) && VaultAddr(g) !in tx.blocked
             && VaultAddr(g) in w.tokens && w.tokens[VaultAddr(g)].mint == w.groups[g].mint && i.source != VaultAddr(g)
             && w.tokens[VaultAddr(g)].amount + w.groups[g].depositAmount <= U64_MAX
             && w.records[r].depositsMade <= w.groups[g].totalPeriods
             && w.records[r].totalDeposited <= w.tokens[VaultAddr(g)].amount
    ensures DepositRefusal(w, tx).None?
  {
    DueIndex(w, w.groups[tx.ins.group], w.records[MemberAddr(tx.ins.group, tx.ins.member)]);
    hide PeriodIndex, CycleEnd, Due;
  }

  lemma DepositMeans(w: World, tx: Tx)
    requires tx.ins.Deposit? && DepositRefusal(w, tx).None?
    ensures var i, g, r := tx.ins, tx.ins.group, MemberAddr(tx.ins.group, tx.ins.member);
            && i.member in tx.signers && g in w.groups && w.groups[g].status == Active && r in w.records
            && CanPay(w, w.groups[g], i.source, i.member, tx.blocked) && VaultAddr(g) !in tx.blocked
            && PeriodIndex(w.build, w.groups[g], w.clock).Ok?
            && PeriodIndex(w.build, w.groups[g], w.clock).value < MAX_PERIODS
            && !w.records[r].periodsDeposited[PeriodIndex(w.build, w.groups[g], w.clock).value]
  {
    hide PeriodIndex;
  }

  lemma NowDue(w: World, c: GroupConfig, rec: MemberRecord)
    requires InRange(w.build, c) && CycleEnd(w.build, c).Ok? && rec.periodsDeposited[0]
    requires PeriodIndex(w.build, c, w.clock).Ok? && PeriodIndex(w.build, c, w.clock).value < MAX_PERIODS
    requires !rec.periodsDeposited[PeriodIndex(w.build, c, w.clock).value]
    ensures Due(w, c, rec)
  {
    hide PeriodIndex, CycleEnd;
    PeriodDefined(w.build, c, w.clock);
    if c.cycleStart <= w.clock {
      PeriodExact(w.build, c, w.clock);
      WindowBounds(c.cycleStart, Period(w.build, c.frequency), w.clock);
    }
  }

  /** A deposit succeeds exactly when the member signed, the group is Active, the member has a record,
      the clock is in a window of the cycle not yet paid, and an unblocked account of theirs can pay. No
      counter and no balance can overflow. */
  lemma DepositExactly(a: Audit, tx: Tx)
    requires Reachable(a) && tx.ins.Deposit?
    ensures var w, i, g, r := a.world, tx.ins, tx.ins.group, MemberAddr(tx.ins.group, tx.ins.member);
            Refusal(w, tx).None?
            <==> && i.member in tx.signers && g in w.groups && w.groups[g].status == Active && r in w.records
                 && Due(w, w.groups[g], w.records[r])
                 && CanPay(w, w.groups[g], i.source, i.member, tx.blocked) && VaultAddr(g) !in tx.blocked
  {
    var w, i, g, r := a.world, tx.ins, tx.ins.group, MemberAddr(tx.ins.group, tx.ins.member);
    assert Refusal(w, tx) == DepositRefusal(w, tx);
    hide Refusal, DepositRefusal, Due, CanPay, Reachable, InRange, CycleEnd, PeriodIndex, RecordsOf;
    if DepositRefusal(w, tx).None? {
      DepositMeans(w, tx);
      RecordFacts(a, g, i.member);
      NowDue(w, w.groups[g], w.records[r]);
    }
    if && i.member in tx.signers && g in w.groups && w.groups[g].status == Active && r in w.records
       && Due(w, w.groups[g], w.records[r]) && CanPay(w, w.groups[g], i.source, i.member, tx.blocked)
       && VaultAddr(g) !in tx.blocked
    {
      RecordFacts(a, g, i.member);
      PayerFacts(w, w.groups[g], i.source, i.member, tx.blocked);
      Fits(a, g, i.source, i.member, w.groups[g].depositAmount);
      RecordCovered(a, g, r);
      DepositAccepted(w, tx);
    }
  }

  lemma PayerFacts(w: World, c: GroupConfig, source: Key, member: Key, blocked: set<Key>)
    requires CanPay(w, c, source, member, blocked)
    ensures source in w.tokens && w.tokens[source].owner == member && w.tokens[source].mint == c.mint
    ensures w.tokens[source].amount >= c.depositAmount
  {
  }

  // ---- join_group ----

  /** What the group asks of a join: its terms, its gate's approval when it has one, and the tally's count
      when the join names one. */
  predicate Approved(w: World, tx: Tx)
    requires tx.ins.JoinGroup? && tx.ins.group in w.groups
  {
    var i, gate, joins := tx.ins, GateAddr(tx.ins.group), JoinsOf(w, TallyAddr(tx.ins.group, tx.ins.member));
    var c := w.groups[i.group];
    && i.expectedTerms == Terms(c.creator, c.depositAmount, c.frequency, c.totalPeriods)
    && (gate in w.gates ==> i.authority == Some(w.gates[gate]) && !tx.durableNonce && i.expectedJoins.Some?)
    && (i.expectedJoins.Some? ==> i.expectedJoins.value == joins)
    && joins < 4_294_967_295
  }

  lemma JoinAccepted(w: World, tx: Tx)
    requires tx.ins.JoinGroup?
    requires tx.ins.group in w.groups && tx.ins.group == GroupAddr(w.groups[tx.ins.group].code)
    requires VaultAddr(tx.ins.group) in w.tokens
    requires w.tokens[VaultAddr(tx.ins.group)].mint == w.groups[tx.ins.group].mint
    requires w.groups[tx.ins.group].maxMembers <= 10
    requires var i, g, c := tx.ins, tx.ins.group, w.groups[tx.ins.group];
             CanPay(w, c, AtaAddr(i.member, c.mint), i.member, tx.blocked) ==>
               w.tokens[VaultAddr(g)].amount + c.depositAmount <= U64_MAX
    ensures var i, g, c := tx.ins, tx.ins.group, w.groups[tx.ins.group];
            JoinRefusal(w, tx).None?
            <==> && i.member in tx.signers && i.rentPayer in tx.signers
                 && (i.authority.Some? ==> i.authority.value in tx.signers)
                 && c.status == Open && c.currentMembers < c.maxMembers && MemberAddr(g, i.member) !in w.records
                 && Approved(w, tx)
                 && CanPay(w, c, AtaAddr(i.member, c.mint), i.member, tx.blocked) && VaultAddr(g) !in tx.blocked
  {
    hide JoinsOf;
  }

  /** A join succeeds exactly when the member, the payer of the rent and the authority it names signed, the
      group is Open with room, the member has no record in it, the join is approved, and the member's
      canonical account can pay. */
  lemma JoinExactly(a: Audit, tx: Tx)
    requires Reachable(a) && tx.ins.JoinGroup?
    ensures var w, i, g := a.world, tx.ins, tx.ins.group;
            Refusal(w, tx).None?
            <==> && i.member in tx.signers && i.rentPayer in tx.signers
                 && (i.authority.Some? ==> i.authority.value in tx.signers)
                 && g in w.groups && w.groups[g].status == Open
                 && w.groups[g].currentMembers < w.groups[g].maxMembers && MemberAddr(g, i.member) !in w.records
                 && Approved(w, tx)
                 && CanPay(w, w.groups[g], AtaAddr(i.member, w.groups[g].mint), i.member, tx.blocked)
                 && VaultAddr(g) !in tx.blocked
  {
    var w, i, g := a.world, tx.ins, tx.ins.group;
    assert Refusal(w, tx) == JoinRefusal(w, tx);
    assert i.member !in tx.signers || g !in w.groups ==> JoinRefusal(w, tx).Some?;
    if i.member in tx.signers && g in w.groups && w.groups[g].status == Open {
      hide Refusal, JoinRefusal, Approved, CanPay, Reachable;
      GroupFacts(a, g);
      var ata := AtaAddr(i.member, w.groups[g].mint);
      if CanPay(w, w.groups[g], ata, i.member, tx.blocked) {
        PayerFacts(w, w.groups[g], ata, i.member, tx.blocked);
        Fits(a, g, ata, i.member, w.groups[g].depositAmount);
      }
      JoinAccepted(w, tx);
    }
  }

  lemma GroupFacts(a: Audit, g: Key)
    requires Reachable(a) && g in a.world.groups && Live(a.world.groups[g].status)
    ensures g == GroupAddr(a.world.groups[g].code) && a.world.groups[g].maxMembers <= 10
    ensures VaultAddr(g) in a.world.tokens && a.world.tokens[VaultAddr(g)].mint == a.world.groups[g].mint
  {
    ReachableInv(a);
    OfGroup(a, g);
    OfVault(a, g);
    hide Reachable, SupplyInv, RecordsInv, MoneyInv;
  }
}
