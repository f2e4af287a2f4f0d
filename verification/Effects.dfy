/** What each accepted instruction leaves on chain, account by account and in numbers: what it changes, by
    how much, and that it changes nothing else. */
module Effects {
  import opened Machine
  import opened Sums
  import opened Ledger
  import opened GroupTime
  import opened Settlement
  import opened Instructions
  import opened Audit
  import opened Invariant
  import opened Payments
  import opened Payouts
  import opened Settling
  import opened Safety
  import opened Outcomes
  import opened Tallies
  import opened RoundTrip
  import opened Contributions
  import opened WindDown

  /** What an address lacks of the rent-exempt minimum of an account of `space` bytes. */
  function Short(w: World, x: Key, space: nat): (n: nat)
    ensures At(w.lamports, x) + n >= (128 + space) * w.rentRate
    ensures n > 0 ==> At(w.lamports, x) + n == (128 + space) * w.rentRate
  {
    if At(w.lamports, x) < (128 + space) * w.rentRate then (128 + space) * w.rentRate - At(w.lamports, x) else 0
  }

  /** One wallet received `n` lamports, or paid them in when `n` is negative, and nobody else did. */
  ghost predicate PurseUp(w: World, z: World, payer: Key, n: int) {
    forall k :: Purse(z, k) == Purse(w, k) + if k == payer then n else 0
  }

  /** Tokens moved from one account to another, and no account changed otherwise. */
  ghost predicate Moved(tokens: Tokens, after: Tokens, from: Key, to: Key, n: nat) {
    && from in tokens && to in tokens && from != to && after.Keys == tokens.Keys
    && after[from] == TokenAccount(tokens[from].owner, tokens[from].mint, after[from].amount)
    && after[to] == TokenAccount(tokens[to].owner, tokens[to].mint, after[to].amount)
    && after[from].amount == tokens[from].amount - n && after[to].amount == tokens[to].amount + n
    && forall k :: k in tokens && k != from && k != to ==> after[k] == tokens[k]
  }

  lemma TransferMoves(tokens: Tokens, from: Key, to: Key, amount: u64)
    requires TransferOk(tokens, from, to, amount, {}) && from != to
    ensures Moved(tokens, Transferred(tokens, from, to, amount), from, to, amount)
  {
  }

  /** Opening an account tops its address up and takes that from the payer. */
  lemma Funded(w: World, x: Key, space: nat, payer: Key)
    ensures var z := Fund(w, x, space, payer);
            && z == w.(lamports := w.lamports[x := At(w.lamports, x) + Short(w, x, space)], purse := z.purse)
            && PurseUp(w, z, payer, 0 - Short(w, x, space))
  {
  }

  lemma PurseTwice(w: World, u: World, z: World, payer: Key, m: int, n: int)
    requires PurseUp(w, u, payer, m) && PurseUp(u, z, payer, n)
    ensures PurseUp(w, z, payer, m + n)
  {
  }

  // ---- the start of a group ----

  /** What an accepted creation leaves: the group with its parties and parameters as given and nobody in it,
      an empty vault of its mint, and both accounts topped up to their rent-exempt minimum by the payer. */
  ghost predicate CreateDone(w: World, z: World, i: Ins)
    requires i.CreateGroup?
  {
    var g, v := GroupAddr(i.code), VaultAddr(GroupAddr(i.code));
    && z == w.(groups := z.groups, tokens := z.tokens, lamports := z.lamports, purse := z.purse)
    && g in z.groups && z.groups == w.groups[g := z.groups[g]]
    && z.tokens == w.tokens[v := TokenAccount(v, i.mint, 0)]
    && z.lamports == w.lamports[g := At(w.lamports, g) + Short(w, g, 244)][v := At(w.lamports, v) + Short(w, v, 165)]
    && PurseUp(w, z, i.rentPayer, 0 - Short(w, g, 244) - Short(w, v, 165))
    && var c := z.groups[g];
       && c.creator == i.creator && c.rentPayer == i.rentPayer && c.mint == i.mint && c.code == i.code
       && c.depositAmount == i.depositAmount && c.frequency == i.frequency
       && c.totalPeriods == i.totalPeriods && c.maxMembers == i.maxMembers
       && c.status == Open && c.currentMembers == 0 && c.cycleStart == 0 && c.settledAt == 0
  }

  lemma CreateLeaves(w: World, tx: Tx)
    requires tx.ins.CreateGroup? && Refusal(w, tx).None?
    ensures CreateDone(w, After(w, tx), tx.ins)
  {
    hide Fund, Short, CreateRefusal, PurseUp;
    var g, v, p := GroupAddr(tx.ins.code), VaultAddr(GroupAddr(tx.ins.code)), tx.ins.rentPayer;
    var u := Fund(w, g, GROUP_SPACE, p);
    Funded(w, g, GROUP_SPACE, p);
    Funded(u, v, VAULT_SPACE, p);
    SameShort(w, u, v, VAULT_SPACE);
    PurseTwice(w, u, Fund(u, v, VAULT_SPACE, p), p, 0 - Short(w, g, 244), 0 - Short(w, v, 165));
    SamePurse(w, Fund(u, v, VAULT_SPACE, p), After(w, tx), p);
  }

  lemma SameShort(w: World, u: World, x: Key, space: nat)
    requires u.rentRate == w.rentRate && At(u.lamports, x) == At(w.lamports, x)
    ensures Short(u, x, space) == Short(w, x, space)
  {
  }

  lemma CreateEffect(a: Audit, tx: Tx)
    requires Reachable(a) && tx.ins.CreateGroup? && Refusal(a.world, tx).None?
    ensures CreateDone(a.world, After(a.world, tx), tx.ins)
  {
    hide *;
    CreateLeaves(a.world, tx);
  }

  /** What an accepted `set_join_authority` leaves: the gate holds the authority given, topped up to its
      rent-exempt minimum by the payer. */
  ghost predicate GateDone(w: World, z: World, i: Ins)
    requires i.SetJoinAuthority?
  {
    var gate := GateAddr(i.group);
    && z == w.(gates := w.gates[gate := i.newAuthority],
               lamports := w.lamports[gate := At(w.lamports, gate) + Short(w, gate, 40)], purse := z.purse)
    && PurseUp(w, z, i.rentPayer, 0 - Short(w, gate, 40))
  }

  lemma GateLeaves(w: World, tx: Tx)
    requires tx.ins.SetJoinAuthority? && Refusal(w, tx).None?
    ensures GateDone(w, After(w, tx), tx.ins)
  {
    hide Fund, Short, GateRefusal;
    Funded(w, GateAddr(tx.ins.group), GATE_SPACE, tx.ins.rentPayer);
  }

  lemma GateEffect(a: Audit, tx: Tx)
    requires Reachable(a) && tx.ins.SetJoinAuthority? && Refusal(a.world, tx).None?
    ensures GateDone(a.world, After(a.world, tx), tx.ins)
  {
    hide *;
    GateLeaves(a.world, tx);
  }

  /** A started cycle runs from the clock, and nothing else changes. */
  lemma StartEffect(a: Audit, tx: Tx)
    requires Reachable(a) && tx.ins.StartCycle? && Refusal(a.world, tx).None?
    ensures var w, g := a.world, tx.ins.group;
            && g in w.groups
            && After(w, tx) == w.(groups := w.groups[g := w.groups[g].(status := Active, cycleStart := w.clock)])
  {
    hide CycleEnd, Reachable;
  }

  // ---- joining, leaving, depositing ----

  /** A record of one deposit, for the first period. */
  predicate FreshRecord(rec: MemberRecord, c: GroupConfig, i: Ins)
    requires i.JoinGroup?
  {
    && rec.group == i.group && rec.member == i.member && rec.rentPayer == i.rentPayer
    && rec.totalDeposited == c.depositAmount && rec.depositsMade == 1
    && |rec.periodsDeposited| == 52 && forall p :: 0 <= p < 52 ==> (rec.periodsDeposited[p] <==> p == 0)
  }

  /** What an accepted join leaves: one member more, their record of one deposit, their tally one higher
      and still its first payer's, the deposit moved from their own account to the vault, and the record
      and a new tally topped up by the payer. */
  ghost predicate JoinDone(w: World, z: World, i: Ins)
    requires i.JoinGroup?
  {
    var g, r, t, v := i.group, MemberAddr(i.group, i.member), TallyAddr(i.group, i.member), VaultAddr(i.group);
    && z == w.(groups := z.groups, records := z.records, tallies := z.tallies, tokens := z.tokens,
               lamports := z.lamports, purse := z.purse)
    && g in w.groups && w.groups[g].currentMembers < 10
    && var c := w.groups[g];
       && z.groups == w.groups[g := c.(currentMembers := c.currentMembers + 1)]
       && r !in w.records && r in z.records && z.records == w.records[r := z.records[r]]
       && FreshRecord(z.records[r], c, i)
       && t in z.tallies && z.tallies == w.tallies[t := z.tallies[t]] && z.tallies[t].joins == JoinsOf(w, t) + 1
       && z.tallies[t].rentPayer == (if t in w.tallies then w.tallies[t].rentPayer else i.rentPayer)
       && Moved(w.tokens, z.tokens, AtaAddr(i.member, c.mint), v, c.depositAmount) && JoinTopUp(w, z, i)
  }

  /** The record and a new tally topped up by the payer. */
  ghost predicate JoinTopUp(w: World, z: World, i: Ins)
    requires i.JoinGroup?
  {
    var r, t := MemberAddr(i.group, i.member), TallyAddr(i.group, i.member);
    var more := if t in w.tallies then 0 else Short(w, t, 44);
    var funded := w.lamports[r := At(w.lamports, r) + Short(w, r, 198)];
    && z.lamports == (if t in w.tallies then funded else funded[t := At(w.lamports, t) + more])
    && PurseUp(w, z, i.rentPayer, 0 - Short(w, r, 198) - more)
  }

  lemma JoinRent(w: World, z: World, i: Ins)
    requires i.JoinGroup? && z.lamports == JoinFunded(w, i).lamports && z.purse == JoinFunded(w, i).purse
    ensures JoinTopUp(w, z, i)
  {
    hide Fund, Short, PurseUp;
    var r, t, p := MemberAddr(i.group, i.member), TallyAddr(i.group, i.member), i.rentPayer;
    var u := Fund(w, r, RECORD_SPACE, p);
    Funded(w, r, RECORD_SPACE, p);
    if t !in w.tallies {
      Funded(u, t, TALLY_SPACE, p);
      SameShort(w, u, t, TALLY_SPACE);
      PurseTwice(w, u, JoinFunded(w, i), p, 0 - Short(w, r, 198), 0 - Short(w, t, 44));
    }
    SamePurse(w, JoinFunded(w, i), z, p);
  }

  lemma SamePurse(w: World, u: World, z: World, p: Key)
    requires z.purse == u.purse
    ensures forall n :: PurseUp(w, u, p, n) ==> PurseUp(w, z, p, n)
  {
  }

  lemma JoinAdds(w: World, z: World, i: Ins)
    requires i.JoinGroup? && LooksJoined(w, i, z) && JoinTopUp(w, z, i) && z == w.(groups := z.groups,
               records := z.records, tallies := z.tallies, tokens := z.tokens, lamports := z.lamports, purse := z.purse)
    requires w.groups[i.group].currentMembers < 10 && MemberAddr(i.group, i.member) !in w.records
    requires var t := TallyAddr(i.group, i.member);
             && z.tallies[t].joins == JoinsOf(w, t) + 1
             && z.tallies[t].rentPayer == if t in w.tallies then w.tallies[t].rentPayer else i.rentPayer
    requires Moved(w.tokens, z.tokens, AtaAddr(i.member, w.groups[i.group].mint), VaultAddr(i.group),
                   w.groups[i.group].depositAmount)
    ensures JoinDone(w, z, i)
  {
    hide JoinTopUp, Moved, Transferred, TransferOk, NextTally, JoinFunded;
  }

  lemma OpenedOnce(a: Audit, t: Key, payer: Key)
    requires Reachable(a) && JoinsOf(a.world, t) < U32_MAX
    ensures var next := NextTally(a.world, t, payer);
            && next.joins == JoinsOf(a.world, t) + 1
            && next.rentPayer == if t in a.world.tallies then a.world.tallies[t].rentPayer else payer
  {
    TallyCounts(a, t);
    hide Reachable;
  }

  lemma JoinEffect(a: Audit, tx: Tx)
    requires Reachable(a) && tx.ins.JoinGroup? && Refusal(a.world, tx).None?
    ensures JoinDone(a.world, After(a.world, tx), tx.ins)
  {
    hide *;
    var w, z, i, g := a.world, After(a.world, tx), tx.ins, tx.ins.group;
    JoinExactly(a, tx);
    JoinIs(w, tx);
    JoinPassed(w, tx);
    JoinedFields(w, tx);
    JoinLeft(w, z, i);
    GroupRoom(a, g);
    JoinRent(w, z, i);
    OpenedOnce(a, TallyAddr(g, i.member), i.rentPayer);
    TransferMoves(w.tokens, AtaAddr(i.member, w.groups[g].mint), VaultAddr(g), w.groups[g].depositAmount);
    JoinAdds(w, z, i);
  }

  lemma JoinIs(w: World, tx: Tx)
    requires tx.ins.JoinGroup? && Refusal(w, tx).None?
    ensures JoinRefusal(w, tx).None? && After(w, tx) == Joined(w, tx)
    ensures var z := After(w, tx);
            z == w.(groups := z.groups, records := z.records, tallies := z.tallies, tokens := z.tokens,
                    lamports := z.lamports, purse := z.purse)
  {
    hide JoinRefusal, Joined;
  }

  lemma JoinLeft(w: World, z: World, i: Ins)
    requires i.JoinGroup? && LooksJoined(w, i, z)
    ensures z.lamports == JoinFunded(w, i).lamports && z.purse == JoinFunded(w, i).purse
    ensures var t := TallyAddr(i.group, i.member);
            JoinsOf(w, t) < U32_MAX && t in z.tallies && z.tallies[t] == NextTally(w, t, i.rentPayer)
    ensures i.group in w.groups
    ensures var c := w.groups[i.group];
            && TransferOk(w.tokens, AtaAddr(i.member, c.mint), VaultAddr(i.group), c.depositAmount, {})
            && z.tokens == Transferred(w.tokens, AtaAddr(i.member, c.mint), VaultAddr(i.group), c.depositAmount)
  {
    hide JoinFunded, NextTally, Transferred, TransferOk, NewRecord;
  }

  lemma GroupRoom(a: Audit, g: Key)
    requires Reachable(a) && g in a.world.groups
    ensures a.world.groups[g].maxMembers <= 10
  {
    ReachableInv(a);
    OfGroup(a, g);
    hide Reachable, LocalInv, GroupInv;
  }

  /** What an accepted leave leaves: one member fewer, no record, the one deposit moved back to the account
      named, and the record's lamports paid to its recorded payer. */
  ghost predicate LeaveDone(w: World, z: World, i: Ins)
    requires i.LeaveGroup?
  {
    var g, r, v := i.group, MemberAddr(i.group, i.member), VaultAddr(i.group);
    && z == w.(groups := z.groups, records := w.records - {r}, tokens := z.tokens, lamports := w.lamports - {r},
               purse := z.purse)
    && g in w.groups && r in w.records && w.groups[g].currentMembers > 0
    && var c := w.groups[g];
       && z.groups == w.groups[g := c.(currentMembers := c.currentMembers - 1)]
       && Moved(w.tokens, z.tokens, v, i.dest, c.depositAmount)
       && PurseUp(w, z, w.records[r].rentPayer, At(w.lamports, r))
  }

  lemma LeaveLeft(w: World, tx: Tx)
    requires tx.ins.LeaveGroup? && Refusal(w, tx).None? && tx.ins.dest != VaultAddr(tx.ins.group)
    ensures tx.ins.group in w.groups && MemberAddr(tx.ins.group, tx.ins.member) in w.records
    ensures var rec := w.records[MemberAddr(tx.ins.group, tx.ins.member)];
            rec.totalDeposited == w.groups[tx.ins.group].depositAmount ==> LeaveDone(w, After(w, tx), tx.ins)
  {
    hide Transferred, Moved, Drain, TransferOk, GroupError;
    var r := MemberAddr(tx.ins.group, tx.ins.member);
    assert LeaveRefusal(w, tx).None? && After(w, tx) == Left(w, tx);
    LeftFields(w, tx);
    TransferMoves(w.tokens, VaultAddr(tx.ins.group), tx.ins.dest, w.records[r].totalDeposited);
  }

  lemma LeaveEffect(a: Audit, tx: Tx)
    requires Reachable(a) && tx.ins.LeaveGroup? && Refusal(a.world, tx).None?
    ensures LeaveDone(a.world, After(a.world, tx), tx.ins)
  {
    hide *;
    LeaveExactly(a, tx);
    ReachableInv(a);
    LeaveFacts(a, tx.ins.group, tx.ins.member, tx.ins.dest);
    OpenRecord(a, tx.ins.group, MemberAddr(tx.ins.group, tx.ins.member));
    LeaveLeft(a.world, tx);
  }

  /** What an accepted deposit leaves: the flag of the period the clock is in, both counters, and the deposit
      moved from the account named to the vault. */
  ghost predicate DepositDone(w: World, z: World, i: Ins)
    requires i.Deposit?
  {
    var g, r := i.group, MemberAddr(i.group, i.member);
    && g in w.groups && w.groups[g].frequency <= MaxFrequency(w.build) && r in w.records && r in z.records
    && z == w.(records := w.records[r := z.records[r]], tokens := z.tokens)
    && var c, d, rec, next := w.groups[g], Period(w.build, w.groups[g].frequency), w.records[r], z.records[r];
       && Moved(w.tokens, z.tokens, i.source, VaultAddr(g), c.depositAmount)
       && next.group == rec.group && next.member == rec.member && next.rentPayer == rec.rentPayer
       && next.depositsMade == rec.depositsMade + 1 && next.totalDeposited == rec.totalDeposited + c.depositAmount
       && |next.periodsDeposited| == |rec.periodsDeposited| == 52
       && forall p :: 0 <= p < 52 ==>
            next.periodsDeposited[p]
            == (rec.periodsDeposited[p] || c.cycleStart + p * d <= w.clock < c.cycleStart + (p + 1) * d)
  }

  lemma FlagOfNow(w: World, c: GroupConfig, flags: Flags)
    requires InRange(w.build, c) && CycleEnd(w.build, c).Ok? && PeriodIndex(w.build, c, w.clock).Ok?
    requires flags[0]
    requires PeriodIndex(w.build, c, w.clock).value < MAX_PERIODS
    requires !flags[PeriodIndex(w.build, c, w.clock).value]
    ensures var d := Period(w.build, c.frequency);
            forall p :: 0 <= p < 52 ==>
              flags[PeriodIndex(w.build, c, w.clock).value := true][p]
              == (flags[p] || c.cycleStart + p * d <= w.clock < c.cycleStart + (p + 1) * d)
  {
    hide CycleEnd, PeriodIndex;
    var d := Period(w.build, c.frequency);
    PeriodDefined(w.build, c, w.clock);
    PeriodExact(w.build, c, w.clock);
    var now := PeriodIndex(w.build, c, w.clock).value;
    WindowBounds(c.cycleStart, d, w.clock);
    forall p | 0 <= p < 52 && c.cycleStart + p * d <= w.clock < c.cycleStart + (p + 1) * d ensures p == now {
      DivUnique(w.clock - c.cycleStart, d, p);
    }
  }

  lemma DepositLeft(w: World, tx: Tx)
    requires tx.ins.Deposit? && Refusal(w, tx).None?
    ensures var i, g, r := tx.ins, tx.ins.group, MemberAddr(tx.ins.group, tx.ins.member);
            && g in w.groups && r in w.records && PeriodIndex(w.build, w.groups[g], w.clock).Ok?
            && PeriodIndex(w.build, w.groups[g], w.clock).value < MAX_PERIODS
            && !w.records[r].periodsDeposited[PeriodIndex(w.build, w.groups[g], w.clock).value]
            && TransferOk(w.tokens, i.source, VaultAddr(g), w.groups[g].depositAmount, {})
            && w.records[r].totalDeposited + w.groups[g].depositAmount <= U64_MAX && w.records[r].depositsMade < U8_MAX
            && var p, c, rec := PeriodIndex(w.build, w.groups[g], w.clock).value, w.groups[g], w.records[r];
               After(w, tx) == w.(records := w.records[r := rec.(
                 periodsDeposited := rec.periodsDeposited[p := true], depositsMade := rec.depositsMade + 1,
                 totalDeposited := rec.totalDeposited + c.depositAmount)],
                 tokens := Transferred(w.tokens, i.source, VaultAddr(g), c.depositAmount))
  {
    hide PeriodIndex;
  }

  lemma DepositEffect(a: Audit, tx: Tx)
    requires Reachable(a) && tx.ins.Deposit? && Refusal(a.world, tx).None?
    ensures DepositDone(a.world, After(a.world, tx), tx.ins)
  {
    hide Reachable, Refusal, After, Moved, Transferred, TransferOk, PeriodIndex, CycleEnd, InRange, Period,
         MaxFrequency, Due, CanPay, RecordsOf, InI64;
    var w, i, g, r := a.world, tx.ins, tx.ins.group, MemberAddr(tx.ins.group, tx.ins.member);
    DepositExactly(a, tx);
    PayerFacts(w, w.groups[g], i.source, i.member, tx.blocked);
    RecordFacts(a, g, i.member);
    PeriodLasts(a, g);
    Fits(a, g, i.source, i.member, w.groups[g].depositAmount);
    DepositLeft(w, tx);
    FlagOfNow(w, w.groups[g], w.records[r].periodsDeposited);
    TransferMoves(w.tokens, i.source, VaultAddr(g), w.groups[g].depositAmount);
  }

  // ---- settlement ----

  /** The account `t` is up by what the record `r` says and by `extra`, and otherwise as it was. */
  ghost predicate PairPaid(w: World, after: Tokens, r: Key, t: Key, extra: int) {
    && r in w.records && t in w.tokens && t in after
    && after[t].owner == w.tokens[t].owner && after[t].mint == w.tokens[t].mint
    && after[t].amount == w.tokens[t].amount + w.records[r].totalDeposited + extra
  }

  ghost predicate AllPaid(w: World, after: Tokens, remaining: seq<Key>, donated: int) {
    forall i :: 0 <= i < |remaining| / 2 ==>
      PairPaid(w, after, remaining[2 * i], Dest(remaining, i), if i == |remaining| / 2 - 1 then donated else 0)
  }

  predicate NotPaid(remaining: seq<Key>, t: Key) {
    forall i :: 0 <= i < |remaining| / 2 ==> Dest(remaining, i) != t
  }

  /** What an accepted settlement leaves: the group settled at this moment, its vault gone with the lamports
      in the group's account, each listed account up by its member's recorded deposits, the last one also by
      what nobody deposited, and every other token account as it was. */
  ghost predicate SettleDone(w: World, z: World, g: Key, remaining: seq<Key>, status: Status, donated: int) {
    var v := VaultAddr(g);
    && g in w.groups && v in w.tokens && |remaining| % 2 == 0
    && z == w.(groups := w.groups[g := w.groups[g].(status := status, settledAt := w.clock)], tokens := z.tokens,
               lamports := (w.lamports - {v})[g := At(w.lamports, g) + At(w.lamports, v)])
    && z.tokens.Keys == w.tokens.Keys - {v}
    && AllPaid(w, z.tokens, remaining, donated)
    && forall t :: t in z.tokens && NotPaid(remaining, t) ==> z.tokens[t] == w.tokens[t]
  }

  /** One payout, read off the run of payouts. */
  lemma OnePaid(w: World, v: Key, remaining: seq<Key>, paid: seq<nat>, now: Tokens, i: nat, extra: int)
    requires |remaining| == 2 * |paid| && i < |paid| && PaidSoFar(w.tokens, v, remaining, paid, now, |paid|)
    requires Dest(remaining, i) != v && remaining[2 * i] in w.records
    requires paid[i] == w.records[remaining[2 * i]].totalDeposited + extra
    ensures PairPaid(w, now - {v}, remaining[2 * i], Dest(remaining, i), extra)
  {
    hide SeqTotal;
  }

  lemma PairsPaid(w: World, g: Key, remaining: seq<Key>, deposits: seq<u64>, now: Tokens)
    requires VaultAddr(g) in w.tokens && g in w.groups && |remaining| == 2 * |deposits|
    requires SeqTotal(deposits) <= w.tokens[VaultAddr(g)].amount
    requires Payable(w.tokens, VaultAddr(g), w.groups[g].mint, remaining, deposits)
    requires PaidSoFar(w.tokens, VaultAddr(g), remaining, Shares(deposits, w.tokens[VaultAddr(g)].amount), now,
                       |deposits|)
    requires forall i :: 0 <= i < |deposits| ==>
               remaining[2 * i] in w.records && deposits[i] == w.records[remaining[2 * i]].totalDeposited
    ensures AllPaid(w, now - {VaultAddr(g)}, remaining, w.tokens[VaultAddr(g)].amount - SeqTotal(deposits))
  {
    hide Shares, SeqTotal, PaidSoFar, PairPaid, Payable;
    var v := VaultAddr(g);
    var rest := w.tokens[v].amount - SeqTotal(deposits);
    SharesExact(deposits, w.tokens[v].amount);
    forall i | 0 <= i < |deposits|
      ensures PairPaid(w, now - {v}, remaining[2 * i], Dest(remaining, i), if i == |deposits| - 1 then rest else 0)
    {
      ApartFromVault(w.tokens, v, w.groups[g].mint, remaining, deposits, i);
      OnePaid(w, v, remaining, Shares(deposits, w.tokens[v].amount), now, i, if i == |deposits| - 1 then rest else 0);
    }
  }

  lemma ApartFromVault(tokens: Tokens, v: Key, mint: Key, remaining: seq<Key>, deposits: seq<u64>, i: nat)
    requires Payable(tokens, v, mint, remaining, deposits) && i < |deposits|
    ensures Dest(remaining, i) != v
  {
  }

  lemma OthersUnpaid(tokens: Tokens, v: Key, remaining: seq<Key>, paid: seq<nat>, now: Tokens)
    requires |remaining| == 2 * |paid| && PaidSoFar(tokens, v, remaining, paid, now, |paid|)
    ensures (now - {v}).Keys == tokens.Keys - {v}
    ensures forall t :: t in now - {v} && NotPaid(remaining, t) ==> now[t] == tokens[t]
  {
    hide SeqTotal;
  }

  lemma SettledWorld(w: World, g: Key, status: Status, r: Receipt)
    requires g in w.groups
    ensures var v := VaultAddr(g);
            SettledAs(w, g, status, r)
            == w.(groups := w.groups[g := w.groups[g].(status := status, settledAt := w.clock)], tokens := r.tokens,
                  lamports := (w.lamports - {v})[g := At(w.lamports, g) + At(w.lamports, v)])
  {
  }

  lemma IsSettleDone(w: World, z: World, g: Key, remaining: seq<Key>, now: Tokens, status: Status, donated: int)
    requires g in w.groups && VaultAddr(g) in w.tokens && |remaining| % 2 == 0
    requires z == w.(groups := w.groups[g := w.groups[g].(status := status, settledAt := w.clock)],
                     tokens := now - {VaultAddr(g)},
                     lamports := (w.lamports - {VaultAddr(g)})
                                 [g := At(w.lamports, g) + At(w.lamports, VaultAddr(g))])
    requires (now - {VaultAddr(g)}).Keys == w.tokens.Keys - {VaultAddr(g)}
    requires AllPaid(w, now - {VaultAddr(g)}, remaining, donated)
    requires forall t :: t in now - {VaultAddr(g)} && NotPaid(remaining, t) ==> t in w.tokens && now[t] == w.tokens[t]
    ensures SettleDone(w, z, g, remaining, status, donated)
  {
    hide AllPaid, At, NotPaid;
  }

  lemma SettleEffect(a: Audit, tx: Tx)
    requires Reachable(a) && (tx.ins.Distribute? || tx.ins.EmergencyCancel?) && Refusal(a.world, tx).None?
    ensures SettleDone(a.world, After(a.world, tx), tx.ins.group, tx.ins.remaining,
                       if tx.ins.Distribute? then Completed else Cancelled, BookOf(a, tx.ins.group).donated)
  {
    hide *;
    var w, g, remaining, mode := a.world, tx.ins.group, tx.ins.remaining, SettleMode(tx.ins);
    ReachableInv(a);
    InvParts(a);
    SettlesHere(w, tx);
    var r := Settle(w, g, remaining, tx.blocked, mode).value;
    SettleChecks(a, g, remaining, tx.blocked, mode);
    SettledList(a, g, remaining, tx.blocked, mode);
    ListingPayable(a, g, remaining, r.deposits);
    PayExact(w.tokens, VaultAddr(g), w.groups[g].mint, remaining, r.deposits, tx.blocked, mode, |r.deposits|);
    VaultSolvent(a, g);
    SettledWorld(w, g, if tx.ins.Distribute? then Completed else Cancelled, r);
    var now := PayUpTo(w.tokens, VaultAddr(g), remaining, r.deposits, tx.blocked, mode, |r.deposits|).value.tokens;
    PairsPaid(w, g, remaining, r.deposits, now);
    OthersUnpaid(w.tokens, VaultAddr(g), remaining, Shares(r.deposits, w.tokens[VaultAddr(g)].amount), now);
    IsSettleDone(w, After(w, tx), g, remaining, now, if tx.ins.Distribute? then Completed else Cancelled,
                 BookOf(a, g).donated);
  }

  // ---- closing ----

  /** A closed record: one member fewer, and the record's lamports paid to its recorded payer. */
  lemma CloseRecordEffect(a: Audit, tx: Tx)
    requires Reachable(a) && tx.ins.CloseMemberRecord? && Refusal(a.world, tx).None?
    ensures var w, z, g, r := a.world, After(a.world, tx), tx.ins.group, tx.ins.record;
            && g in w.groups && w.groups[g].currentMembers > 0 && r in RecordsOf(w, g)
            && z == w.(groups := w.groups[g := w.groups[g].(currentMembers := w.groups[g].currentMembers - 1)],
                       records := w.records - {r}, lamports := w.lamports - {r}, purse := z.purse)
            && PurseUp(w, z, w.records[r].rentPayer, At(w.lamports, r))
  {
    CloseRecordExactly(a, tx);
    hide Reachable, RetentionEnd;
  }

  /** What an accepted `close_group` leaves: no group and no gate, and what both held paid to the group's
      payer. */
  ghost predicate CloseGroupDone(w: World, z: World, i: Ins)
    requires i.CloseGroup?
  {
    var g, gate := i.group, GateAddr(i.group);
    && g in w.groups
    && z == w.(groups := w.groups - {g}, gates := w.gates - {gate}, purse := z.purse,
               lamports := if gate in w.gates then w.lamports - {gate} - {g} else w.lamports - {g})
    && PurseUp(w, z, w.groups[g].rentPayer,
               At(w.lamports, g) + if gate in w.gates then At(w.lamports, gate) else 0)
  }

  lemma CloseGroupLeaves(w: World, tx: Tx)
    requires tx.ins.CloseGroup? && CloseGroupRefusal(w, tx).None? && tx.ins.group.GroupAddr?
    ensures CloseGroupDone(w, GroupClosed(w, tx), tx.ins)
  {
    hide Drain;
    var g, gate, p := tx.ins.group, GateAddr(tx.ins.group), tx.ins.rentPayer;
    assert g in w.groups && p == w.groups[g].rentPayer;
    hide CloseGroupRefusal;
    var u := if gate in w.gates then Drain(w, gate, p) else w;
    assert GroupClosed(w, tx) == Drain(u, g, p).(groups := w.groups - {g}, gates := w.gates - {gate});
    assert At(u.lamports, g) == At(w.lamports, g);
  }

  lemma CloseGroupIs(w: World, tx: Tx)
    requires tx.ins.CloseGroup? && Refusal(w, tx).None?
    ensures CloseGroupRefusal(w, tx).None? && After(w, tx) == GroupClosed(w, tx) && tx.ins.group.GroupAddr?
  {
    hide GroupClosed;
  }

  lemma CloseGroupEffect(a: Audit, tx: Tx)
    requires Reachable(a) && tx.ins.CloseGroup? && Refusal(a.world, tx).None?
    ensures CloseGroupDone(a.world, After(a.world, tx), tx.ins)
  {
    hide *;
    CloseGroupIs(a.world, tx);
    CloseGroupLeaves(a.world, tx);
  }

  /** A closed tally: gone, and what it held paid to its recorded payer. */
  lemma CloseTallyEffect(a: Audit, tx: Tx)
    requires Reachable(a) && tx.ins.CloseJoinTally? && Refusal(a.world, tx).None?
    ensures var w, z, t := a.world, After(a.world, tx), TallyAddr(tx.ins.group, tx.ins.member);
            && t in w.tallies
            && z == w.(tallies := w.tallies - {t}, lamports := w.lamports - {t}, purse := z.purse)
            && PurseUp(w, z, w.tallies[t].rentPayer, At(w.lamports, t))
  {
    hide Reachable, Drain;
  }
}
