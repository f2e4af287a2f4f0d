/** What each error code says about the transaction it refuses, instruction by instruction, and that it is
    always true. A code that is not listed for an instruction never comes back from it. */
module ErrorCodes {
  import opened Machine
  import opened Sums
  import opened Ledger
  import opened GroupTime
  import opened Settlement
  import opened Instructions
  import opened Balances
  import opened Audit
  import opened Invariant
  import opened Payouts
  import opened Settling
  import opened Safety
  import opened Outcomes
  import opened RoundTrip
  import opened Contributions
  import opened WindDown
  import opened Founding

  // ---- what every instruction on an existing group can rely on ----

  ghost predicate Sound(w: World, g: Key) {
    g in w.groups
    && var c := w.groups[g];
       && g == GroupAddr(c.code) && c.currentMembers == |RecordsOf(w, g)| <= c.maxMembers <= 10
       && (c.currentMembers == 0 <==> RecordsOf(w, g) == map[])
       && (VaultAddr(g) in w.tokens <==> Live(c.status))
  }

  lemma GroupParts(a: Audit, g: Key)
    requires Reachable(a) && g in a.world.groups
    ensures Sound(a.world, g)
    ensures InRange(a.world.build, a.world.groups[g])
  {
    hide Reachable, Inv, GroupInv;
    ReachableInv(a);
    AddressOf(a, g);
    VaultSolvent(a, g);
    OfGroup(a, g);
    NobodyLeftIff(RecordsOf(a.world, g));
  }

  // ---- create_group ----

  ghost predicate CreateSays(w: World, tx: Tx, e: Error)
    requires tx.ins.CreateGroup?
  {
    var i := tx.ins;
    || (e == AccountNotSigner && (i.creator !in tx.signers || i.rentPayer !in tx.signers))
    || (e == AccountInUse && GroupAddr(i.code) in w.groups)
    || (e == UnsupportedMint && !i.mintSupported)
    || (e == InvalidGroupCode
        && (|i.code| < 1 || |i.code| > 32 || exists k :: 0 <= k < |i.code| && !CodeLetter(i.code[k])))
    || (e == InvalidDepositAmount && i.depositAmount == 0)
    || (e == InvalidFrequency && (i.frequency > if w.build == Devnet then 3 else 2))
    || (e == InvalidPeriodCount && (i.totalPeriods < 1 || i.totalPeriods > 52))
    || (e == InvalidGroupSize && (i.maxMembers < 2 || i.maxMembers > 10))
  }

  lemma CreateTells(a: Audit, tx: Tx)
    requires Reachable(a) && tx.ins.CreateGroup? && CreateRefusal(a.world, tx).Some?
    ensures CreateSays(a.world, tx, CreateRefusal(a.world, tx).value)
  {
    hide Reachable, CodeChars, CodeLetter;
    LegalLetters(tx.ins.code);
    if GroupAddr(tx.ins.code) !in a.world.groups {
      AddressFree(a, tx.ins.code);
    }
  }

  // ---- set_join_authority ----

  ghost predicate GateSays(w: World, tx: Tx, e: Error)
    requires tx.ins.SetJoinAuthority?
  {
    var i, g := tx.ins, tx.ins.group;
    || (e == AccountNotSigner && (i.creator !in tx.signers || i.rentPayer !in tx.signers))
    || (e == AccountNotInitialized && g !in w.groups)
    || (e == AccountInUse && GateAddr(g) in w.gates)
    || (e == InvalidGroupStatus && g in w.groups && w.groups[g].status != Open)
    || (e == GroupHasMembers && RecordsOf(w, g) != map[])
    || (e == UnauthorizedCreator && g in w.groups && i.creator != w.groups[g].creator)
    || (e == InvalidRentPayer && g in w.groups && i.rentPayer != w.groups[g].rentPayer)
    || (e == InvalidJoinAuthority && (i.newAuthority == SystemProgram || i.newAuthority == ThisProgram))
  }

  lemma GateTells(w: World, tx: Tx)
    requires tx.ins.SetJoinAuthority? && GateRefusal(w, tx).Some?
    requires tx.ins.group in w.groups ==> Sound(w, tx.ins.group)
    ensures GateSays(w, tx, GateRefusal(w, tx).value)
  {
    hide RecordsOf;
  }

  // ---- start_cycle ----

  ghost predicate StartSays(w: World, tx: Tx, e: Error)
    requires tx.ins.StartCycle?
  {
    var i, g := tx.ins, tx.ins.group;
    || (e == AccountNotSigner && i.creator !in tx.signers)
    || (e == AccountNotInitialized && g !in w.groups)
    || (e == UnauthorizedCreator && g in w.groups && i.creator != w.groups[g].creator)
    || (e == InvalidGroupStatus && g in w.groups && w.groups[g].status != Open)
    || (e == InsufficientMembers && |RecordsOf(w, g)| < 2)
    || (e == ArithmeticOverflow
        && g in w.groups && w.groups[g].frequency <= MaxFrequency(w.build)
        && w.clock + w.groups[g].totalPeriods * Period(w.build, w.groups[g].frequency) > I64_MAX)
  }

  lemma StartTells(w: World, tx: Tx)
    requires tx.ins.StartCycle? && StartRefusal(w, tx).Some?
    requires tx.ins.group in w.groups ==> Sound(w, tx.ins.group) && InRange(w.build, w.groups[tx.ins.group])
    ensures StartSays(w, tx, StartRefusal(w, tx).value)
  {
    hide RecordsOf, CycleEnd, MaxFrequency;
    var g := tx.ins.group;
    if g in w.groups {
      CycleEndExact(w.build, w.groups[g].(status := Active, cycleStart := w.clock));
      EndOverflows(w.build, w.groups[g].(status := Active, cycleStart := w.clock));
    }
  }

  lemma EndOverflows(build: Build, c: GroupConfig)
    requires c.frequency <= MaxFrequency(build)
    ensures CycleEnd(build, c).Err? ==> CycleEnd(build, c).error == ArithmeticOverflow
  {
  }

  // ---- refund_vault_rent and the closes ----

  ghost predicate RefundSays(w: World, tx: Tx, e: Error)
    requires tx.ins.RefundVaultRent?
  {
    var i, g := tx.ins, tx.ins.group;
    || (e == AccountNotInitialized && g !in w.groups)
    || (e == InvalidGroupStatus && g in w.groups && Live(w.groups[g].status))
    || (e == InvalidRentPayer && g in w.groups && i.rentPayer != w.groups[g].rentPayer)
  }

  lemma RefundTells(w: World, tx: Tx)
    requires tx.ins.RefundVaultRent? && RefundRefusal(w, tx).Some?
    requires tx.ins.group in w.groups ==> Sound(w, tx.ins.group)
    ensures RefundSays(w, tx, RefundRefusal(w, tx).value)
  {
    hide RecordsOf;
  }

  ghost predicate CloseGroupSays(w: World, tx: Tx, e: Error)
    requires tx.ins.CloseGroup?
  {
    var i, g := tx.ins, tx.ins.group;
    || (e == AccountNotInitialized && g !in w.groups)
    || (e == InvalidGroupStatus && g in w.groups && Live(w.groups[g].status))
    || (e == GroupHasOpenRecords && RecordsOf(w, g) != map[])
    || (e == InvalidRentPayer && g in w.groups && i.rentPayer != w.groups[g].rentPayer)
  }

  lemma CloseGroupTells(w: World, tx: Tx)
    requires tx.ins.CloseGroup? && CloseGroupRefusal(w, tx).Some?
    requires tx.ins.group in w.groups ==> Sound(w, tx.ins.group)
    ensures CloseGroupSays(w, tx, CloseGroupRefusal(w, tx).value)
  {
    hide RecordsOf;
  }

  /** How long a record outlives the settlement of its group. */
  function Wait(w: World): int {
    if w.build == Devnet then 300 else 2_592_000
  }

  ghost predicate CloseRecordSays(w: World, tx: Tx, e: Error)
    requires tx.ins.CloseMemberRecord?
  {
    var i, g := tx.ins, tx.ins.group;
    || (e == AccountNotInitialized && (g !in w.groups || i.record !in w.records))
    || (e == InvalidGroupStatus && g in w.groups && Live(w.groups[g].status))
    || (e == ArithmeticOverflow && g in w.groups && w.groups[g].settledAt + Wait(w) > I64_MAX)
    || (e == RecordRetentionNotElapsed && g in w.groups && w.clock < w.groups[g].settledAt + Wait(w))
    || (e == ConstraintSeeds && i.record !in RecordsOf(w, g))
    || (e == InvalidRentPayer && i.record in w.records && i.rentPayer != w.records[i.record].rentPayer)
  }

  lemma CloseRecordTells(w: World, tx: Tx)
    requires tx.ins.CloseMemberRecord? && CloseRecordRefusal(w, tx).Some?
    requires tx.ins.group in w.groups ==> Sound(w, tx.ins.group)
    requires var r := tx.ins.record;
             r in w.records ==> r == MemberAddr(w.records[r].group, w.records[r].member)
    ensures CloseRecordSays(w, tx, CloseRecordRefusal(w, tx).value)
  {
    hide RecordsOf;
    InGroup(w, tx.ins.group, tx.ins.record);
  }

  lemma InGroup(w: World, g: Key, r: Key)
    ensures r in RecordsOf(w, g) <==> r in w.records && w.records[r].group == g
    ensures r in RecordsOf(w, g) ==> RecordsOf(w, g) != map[]
  {
  }

  ghost predicate CloseTallySays(w: World, tx: Tx, e: Error)
    requires tx.ins.CloseJoinTally?
  {
    var i, t := tx.ins, TallyAddr(tx.ins.group, tx.ins.member);
    || (e == AccountNotInitialized && t !in w.tallies)
    || (e == GroupNotClosed && i.group in w.groups)
    || (e == InvalidRentPayer && t in w.tallies && i.rentPayer != w.tallies[t].rentPayer)
  }

  lemma CloseTallyTells(a: Audit, tx: Tx)
    requires Reachable(a) && tx.ins.CloseJoinTally? && CloseTallyRefusal(a.world, tx).Some?
    ensures CloseTallySays(a.world, tx, CloseTallyRefusal(a.world, tx).value)
  {
    hide Reachable, Inv, RecordsOf;
    ReachableDerived(a);
    ReachableInv(a);
    if tx.ins.group in a.world.records {
      OfRecord(a, tx.ins.group);
    }
  }

  // ---- join_group ----

  /** The member's own account cannot pay, or the token program refuses one of the two accounts. */
  predicate CannotPay(w: World, c: GroupConfig, from: Key, vault: Key, blocked: set<Key>) {
    from in blocked || vault in blocked || (from in w.tokens && w.tokens[from].amount < c.depositAmount)
  }

  ghost predicate JoinSays(w: World, tx: Tx, e: Error)
    requires tx.ins.JoinGroup?
  {
    var i, g, r, gate := tx.ins, tx.ins.group, MemberAddr(tx.ins.group, tx.ins.member), GateAddr(tx.ins.group);
    var joins := JoinsOf(w, TallyAddr(g, i.member));
    || (e == AccountNotSigner
        && (|| i.member !in tx.signers || i.rentPayer !in tx.signers
            || (i.authority.Some? && i.authority.value !in tx.signers)))
    || (e == AccountNotInitialized
        && (g in w.groups ==> AtaAddr(i.member, w.groups[g].mint) !in w.tokens || !Live(w.groups[g].status)))
    || (e == AccountInUse && r in w.records)
    || (e == InvalidGroupStatus && g in w.groups && w.groups[g].status != Open)
    || (e == GroupFull && g in w.groups && |RecordsOf(w, g)| == w.groups[g].maxMembers)
    || (e == ConstraintRaw
        && g in w.groups && AtaAddr(i.member, w.groups[g].mint) in w.tokens
        && var t := w.tokens[AtaAddr(i.member, w.groups[g].mint)];
           t.owner != i.member || t.mint != w.groups[g].mint)
    || (e == TermsMismatch
        && g in w.groups
        && var c := w.groups[g];
           i.expectedTerms != Terms(c.creator, c.depositAmount, c.frequency, c.totalPeriods))
    || (e == JoinNotApproved && gate in w.gates && i.authority != Some(w.gates[gate]))
    || (e == DurableNonceNotAllowed && gate in w.gates && tx.durableNonce)
    || (e == ExpectedJoinsRequired && gate in w.gates && i.expectedJoins.None?)
    || (e == JoinCountMismatch && i.expectedJoins.Some? && i.expectedJoins.value != joins)
    || (e == ArithmeticOverflow && joins == 4_294_967_295)
    || (e == TokenProgramError
        && g in w.groups
        && CannotPay(w, w.groups[g], AtaAddr(i.member, w.groups[g].mint), VaultAddr(g), tx.blocked))
  }

  lemma JoinAccountsTell(w: World, tx: Tx)
    requires tx.ins.JoinGroup? && JoinAccountError(w, tx).Some? && (tx.ins.group in w.groups ==> Sound(w, tx.ins.group))
    ensures JoinSays(w, tx, JoinAccountError(w, tx).value)
  {
    hide RecordsOf, MaxFrequency, JoinsOf, CannotPay;
  }

  lemma JoinFits(a: Audit, tx: Tx)
    requires Reachable(a) && tx.ins.JoinGroup? && JoinAccountError(a.world, tx).None?
    ensures var w, g := a.world, tx.ins.group;
            && g in w.groups && w.groups[g].currentMembers < 10
            && var ata := AtaAddr(tx.ins.member, w.groups[g].mint);
               TransferOk(w.tokens, ata, VaultAddr(g), w.groups[g].depositAmount, tx.blocked)
               || CannotPay(w, w.groups[g], ata, VaultAddr(g), tx.blocked)
  {
    hide Reachable, RecordsOf, InRange, MaxFrequency;
    var w, g := a.world, tx.ins.group;
    var ata := AtaAddr(tx.ins.member, w.groups[g].mint);
    GroupParts(a, g);
    GroupFacts(a, g);
    if w.tokens[ata].amount >= w.groups[g].depositAmount {
      Fits(a, g, ata, tx.ins.member, w.groups[g].depositAmount);
    }
  }

  lemma JoinHandlerTells(w: World, tx: Tx)
    requires tx.ins.JoinGroup? && JoinAccountError(w, tx).None? && JoinHandlerError(w, tx).Some?
    requires var g := tx.ins.group;
             && g in w.groups && w.groups[g].currentMembers < 10
             && var ata := AtaAddr(tx.ins.member, w.groups[g].mint);
                TransferOk(w.tokens, ata, VaultAddr(g), w.groups[g].depositAmount, tx.blocked)
                || CannotPay(w, w.groups[g], ata, VaultAddr(g), tx.blocked)
    ensures JoinSays(w, tx, JoinHandlerError(w, tx).value)
  {
    hide RecordsOf, JoinsOf, CannotPay, TransferOk, JoinAccountError;
  }

  lemma JoinTells(a: Audit, tx: Tx)
    requires Reachable(a) && tx.ins.JoinGroup? && JoinRefusal(a.world, tx).Some?
    ensures JoinSays(a.world, tx, JoinRefusal(a.world, tx).value)
  {
    hide Reachable, Sound, JoinSays, JoinAccountError, JoinHandlerError;
    if tx.ins.group in a.world.groups {
      GroupParts(a, tx.ins.group);
    }
    if JoinAccountError(a.world, tx).Some? {
      JoinAccountsTell(a.world, tx);
    } else {
      JoinFits(a, tx);
      JoinHandlerTells(a.world, tx);
    }
  }

  // ---- leave_group ----

  ghost predicate LeaveSays(w: World, tx: Tx, e: Error)
    requires tx.ins.LeaveGroup?
  {
    var i, g, r := tx.ins, tx.ins.group, MemberAddr(tx.ins.group, tx.ins.member);
    || (e == AccountNotSigner && i.member !in tx.signers)
    || (e == AccountNotInitialized
        && (g in w.groups ==> r !in w.records || i.dest !in w.tokens || !Live(w.groups[g].status)))
    || (e == InvalidGroupStatus && g in w.groups && w.groups[g].status != Open)
    || (e == InvalidRentPayer && r in w.records && i.rentPayer != w.records[r].rentPayer)
    || (e == ConstraintRaw
        && g in w.groups && i.dest in w.tokens
        && (w.tokens[i.dest].mint != w.groups[g].mint || w.tokens[i.dest].owner != i.member))
    || (e == TokenProgramError && (VaultAddr(g) in tx.blocked || i.dest in tx.blocked))
  }

  lemma LeaveTells(w: World, tx: Tx)
    requires tx.ins.LeaveGroup? && LeaveRefusal(w, tx).Some?
    requires tx.ins.group in w.groups ==> Sound(w, tx.ins.group)
    requires var i, g, r := tx.ins, tx.ins.group, MemberAddr(tx.ins.group, tx.ins.member);
             g in w.groups && w.groups[g].status == Open && i.member in tx.signers && r in w.records
             && i.dest in w.tokens && w.tokens[i.dest].owner == i.member
             && w.tokens[i.dest].mint == w.groups[g].mint ==>
               && w.groups[g].currentMembers > 0
               && (VaultAddr(g) !in tx.blocked && i.dest !in tx.blocked ==>
                     TransferOk(w.tokens, VaultAddr(g), i.dest, w.records[r].totalDeposited, tx.blocked))
    ensures LeaveSays(w, tx, LeaveRefusal(w, tx).value)
  {
    hide RecordsOf, TransferOk;
  }

  // ---- deposit ----

  /** The flag of the period the clock is in is set; before the start that is the first period. */
  ghost predicate PaidNow(w: World, c: GroupConfig, rec: MemberRecord) {
    && c.frequency <= MaxFrequency(w.build)
    && var d := Period(w.build, c.frequency);
       || (w.clock < c.cycleStart && rec.periodsDeposited[0])
       || (exists p :: 0 <= p < 52 && rec.periodsDeposited[p]
                       && c.cycleStart + p * d <= w.clock < c.cycleStart + (p + 1) * d)
  }

  /** A whole period or more before the start, or one more deposit than a u64 can total, which no wallet
      could pay. */
  ghost predicate DepositOverflows(w: World, c: GroupConfig, r: Key) {
    || (c.frequency <= MaxFrequency(w.build) && w.clock <= c.cycleStart - Period(w.build, c.frequency))
    || (r in w.records && w.records[r].totalDeposited + c.depositAmount > U64_MAX)
  }

  ghost predicate DepositSays(w: World, tx: Tx, e: Error)
    requires tx.ins.Deposit?
  {
    var i, g, r := tx.ins, tx.ins.group, MemberAddr(tx.ins.group, tx.ins.member);
    || (e == AccountNotSigner && i.member !in tx.signers)
    || (e == AccountNotInitialized
        && (g in w.groups ==> r !in w.records || i.source !in w.tokens || !Live(w.groups[g].status)))
    || (e == InvalidGroupStatus && g in w.groups && w.groups[g].status != Active)
    || (e == InvalidMint && g in w.groups && i.source in w.tokens && w.tokens[i.source].mint != w.groups[g].mint)
    || (e == ConstraintRaw && i.source in w.tokens && w.tokens[i.source].owner != i.member)
    || (e == CycleEnded
        && g in w.groups && w.groups[g].frequency <= MaxFrequency(w.build)
        && w.clock >= w.groups[g].cycleStart + w.groups[g].totalPeriods * Period(w.build, w.groups[g].frequency))
    || (e == AlreadyDeposited && g in w.groups && r in w.records && PaidNow(w, w.groups[g], w.records[r]))
    || (e == ArithmeticOverflow && g in w.groups && DepositOverflows(w, w.groups[g], r))
    || (e == TokenProgramError && g in w.groups && CannotPay(w, w.groups[g], i.source, VaultAddr(g), tx.blocked))
  }

  /** What the period index answers, for any clock. */
  ghost predicate IndexTells(build: Build, c: GroupConfig, now: i64)
    requires c.frequency <= MaxFrequency(build)
  {
    var d := Period(build, c.frequency);
    match PeriodIndex(build, c, now)
    case Err(e) =>
      || (e == CycleEnded && now >= c.cycleStart + c.totalPeriods * d)
      || (e == ArithmeticOverflow && now <= c.cycleStart - d)
    case Ok(p) =>
      p < 52 && ((now < c.cycleStart && p == 0) || c.cycleStart + p * d <= now < c.cycleStart + (p + 1) * d)
  }

  lemma IndexError(build: Build, c: GroupConfig, now: i64)
    requires InRange(build, c) && CycleEnd(build, c).Ok? && PeriodIndex(build, c, now).Err?
    ensures PeriodIndex(build, c, now).error
         == if now >= CycleEnd(build, c).value then CycleEnded else ArithmeticOverflow
  {
    hide CycleEnd;
    PeriodOf(build, c.frequency);
  }

  lemma PeriodOf(build: Build, frequency: u8)
    requires frequency <= MaxFrequency(build)
    ensures PeriodSecs(build, frequency) == Ok(Period(build, frequency))
  {
  }

  lemma IndexIsTold(build: Build, c: GroupConfig, now: i64)
    requires InRange(build, c) && CycleEnd(build, c).Ok?
    ensures IndexTells(build, c, now)
  {
    hide PeriodIndex, CycleEnd;
    CycleEndExact(build, c);
    PeriodDefined(build, c, now);
    if PeriodIndex(build, c, now).Err? {
      IndexError(build, c, now);
    } else if now >= c.cycleStart {
      PeriodExact(build, c, now);
      WindowBounds(c.cycleStart, Period(build, c.frequency), now);
    }
  }

  /** What a deposit can rely on in an Active group. */
  ghost predicate DepositSound(w: World, tx: Tx)
    requires tx.ins.Deposit?
  {
    var i, g, r := tx.ins, tx.ins.group, MemberAddr(tx.ins.group, tx.ins.member);
    g in w.groups && w.groups[g].status == Active && r in w.records ==>
      && w.groups[g].frequency <= MaxFrequency(w.build) && IndexTells(w.build, w.groups[g], w.clock)
      && w.records[r].group == g && w.records[r].member == i.member && w.records[r].depositsMade <= 52
      && (i.source in w.tokens && w.tokens[i.source].owner == i.member
          && w.tokens[i.source].mint == w.groups[g].mint && i.member in tx.signers ==>
            TransferOk(w.tokens, i.source, VaultAddr(g), w.groups[g].depositAmount, tx.blocked)
            || CannotPay(w, w.groups[g], i.source, VaultAddr(g), tx.blocked))
  }

  lemma DepositFits(a: Audit, tx: Tx)
    requires Reachable(a) && tx.ins.Deposit?
    ensures DepositSound(a.world, tx)
  {
    hide Reachable, RecordsOf, MaxFrequency, CycleEnd, PeriodIndex, IndexTells;
    var w, i, g := a.world, tx.ins, tx.ins.group;
    if g in w.groups && w.groups[g].status == Active && MemberAddr(g, i.member) in w.records {
      RecordFacts(a, g, i.member);
      IndexIsTold(w.build, w.groups[g], w.clock);
      if && i.source in w.tokens && w.tokens[i.source].owner == i.member && w.tokens[i.source].mint == w.groups[g].mint
         && w.tokens[i.source].amount >= w.groups[g].depositAmount && i.member in tx.signers
      {
        Fits(a, g, i.source, i.member, w.groups[g].depositAmount);
      }
    }
  }

  /** The answer of the index as `deposit` uses it. */
  ghost predicate IndexUsed(w: World, c: GroupConfig, rec: MemberRecord)
    requires c.frequency <= MaxFrequency(w.build)
  {
    match PeriodIndex(w.build, c, w.clock)
    case Err(e) =>
      || (e == CycleEnded && w.clock >= c.cycleStart + c.totalPeriods * Period(w.build, c.frequency))
      || (e == ArithmeticOverflow && w.clock <= c.cycleStart - Period(w.build, c.frequency))
    case Ok(p) => p < MAX_PERIODS && (rec.periodsDeposited[p] ==> PaidNow(w, c, rec))
  }

  lemma IndexIsUsed(w: World, c: GroupConfig, rec: MemberRecord)
    requires c.frequency <= MaxFrequency(w.build) && IndexTells(w.build, c, w.clock)
    ensures IndexUsed(w, c, rec)
  {
    hide PeriodIndex;
  }

  /** The accounts of a deposit are in order; what is left are its handler's checks. */
  predicate DepositLoads(w: World, tx: Tx)
    requires tx.ins.Deposit?
  {
    var i, g, r := tx.ins, tx.ins.group, MemberAddr(tx.ins.group, tx.ins.member);
    && i.member in tx.signers && g in w.groups && g == GroupAddr(w.groups[g].code) && w.groups[g].status == Active
    && r in w.records && i.source in w.tokens && VaultAddr(g) in w.tokens
    && w.tokens[i.source].mint == w.groups[g].mint && w.tokens[i.source].owner == i.member
  }

  lemma DepositAccountsTell(w: World, tx: Tx)
    requires tx.ins.Deposit? && !DepositLoads(w, tx) && DepositRefusal(w, tx).Some? && DepositSound(w, tx)
    requires tx.ins.group in w.groups ==> Sound(w, tx.ins.group)
    ensures DepositSays(w, tx, DepositRefusal(w, tx).value)
  {
    hide RecordsOf, PeriodIndex, IndexTells, PaidNow, MaxFrequency, TransferOk, CannotPay, DepositOverflows;
  }

  lemma DepositHandlerTells(w: World, tx: Tx)
    requires tx.ins.Deposit? && DepositLoads(w, tx) && DepositRefusal(w, tx).Some? && DepositSound(w, tx)
    ensures DepositSays(w, tx, DepositRefusal(w, tx).value)
  {
    hide RecordsOf, PeriodIndex, IndexTells, PaidNow, MaxFrequency, TransferOk, CannotPay;
    var g, r := tx.ins.group, MemberAddr(tx.ins.group, tx.ins.member);
    IndexIsUsed(w, w.groups[g], w.records[r]);
  }

  lemma DepositTells(w: World, tx: Tx)
    requires tx.ins.Deposit? && DepositRefusal(w, tx).Some? && DepositSound(w, tx)
    requires tx.ins.group in w.groups ==> Sound(w, tx.ins.group)
    ensures DepositSays(w, tx, DepositRefusal(w, tx).value)
  {
    hide *;
    if DepositLoads(w, tx) {
      DepositHandlerTells(w, tx);
    } else {
      DepositAccountsTell(w, tx);
    }
  }

  // ---- distribute and emergency_cancel ----

  /** What is wrong with one pair of a settlement list. */
  ghost predicate WrongPair(w: World, ins: Ins, i: nat, e: Error)
    requires (ins.Distribute? || ins.EmergencyCancel?) && ins.group in w.groups && 2 * i + 1 < |ins.remaining|
  {
    var r, t := ins.remaining[2 * i], ins.remaining[2 * i + 1];
    || (e == InvalidAccountOwner && !ProgramOwned(w, r))
    || (e == InvalidMemberRecord && r !in RecordsOf(w, ins.group))
    || (e == DuplicateMemberRecord && (exists j :: 0 <= j < i && Listed(ins.remaining)[j] == r))
    || (e == AccountNotInitialized && t !in w.tokens)
    || (e == InvalidTokenAccountOwner && t in w.tokens && r in w.records && w.tokens[t].owner != w.records[r].member)
    || (e == InvalidMint && t in w.tokens && w.tokens[t].mint != w.groups[ins.group].mint)
  }

  /** Some pair of the list is wrong in the way the code says. */
  ghost predicate BadList(w: World, ins: Ins, e: Error)
    requires (ins.Distribute? || ins.EmergencyCancel?)
  {
    ins.group in w.groups && exists i: nat :: 2 * i + 1 < |ins.remaining| && WrongPair(w, ins, i, e)
  }

  /** What the settlement itself, after the checks of its caller and its time, can answer. */
  ghost predicate SettleSays(w: World, tx: Tx, e: Error)
    requires (tx.ins.Distribute? || tx.ins.EmergencyCancel?)
  {
    var i, g := tx.ins, tx.ins.group;
    || (e == MemberCountMismatch && |i.remaining| != 2 * |RecordsOf(w, g)|)
    || (e == MintNotWritable
        && i.EmergencyCancel? && RecordsOf(w, g) == map[] && VaultAmount(w, g) > 0 && !i.mintWritable)
    || (e == TokenProgramError && !Unblocked(g, i.remaining, tx.blocked))
    || BadList(w, i, e)
  }

  lemma PairTells(w: World, ins: Ins, i: nat)
    requires (ins.Distribute? || ins.EmergencyCancel?) && ins.group in w.groups && 2 * i + 1 < |ins.remaining|
    requires var r := ins.remaining[2 * i];
             r in w.records ==> r == MemberAddr(w.records[r].group, w.records[r].member)
    requires PairError(w, ins.group, w.groups[ins.group].mint, ins.remaining, i).Some?
    ensures WrongPair(w, ins, i, PairError(w, ins.group, w.groups[ins.group].mint, ins.remaining, i).value)
  {
    hide RecordsOf, ListedBefore;
    var r := ins.remaining[2 * i];
    InGroup(w, ins.group, r);
    ListedTwice(ins.remaining, i);
  }

  lemma ListedTwice(remaining: seq<Key>, i: nat)
    requires 2 * i + 1 < |remaining|
    ensures ListedBefore(remaining, i) ==> exists j :: 0 <= j < i && Listed(remaining)[j] == remaining[2 * i]
  {
    if ListedBefore(remaining, i) {
      var j :| 0 <= j < i && remaining[2 * j] == remaining[2 * i];
      assert Listed(remaining)[j] == remaining[2 * i];
    }
  }

  lemma AcceptedPair(w: World, g: Key, mint: Key, remaining: seq<Key>, i: nat)
    requires 2 * i + 1 < |remaining| && PairError(w, g, mint, remaining, i).None?
    ensures var r, m := remaining[2 * i], Deposits(RecordsOf(w, g));
            r in w.records && r in m && m[r] == w.records[r].totalDeposited
    ensures forall j :: 0 <= j < i ==> Listed(remaining)[j] != remaining[2 * i]
  {
    assert !ListedBefore(remaining, i);
    forall j | 0 <= j < i ensures Listed(remaining)[j] != remaining[2 * i] {
      assert Listed(remaining)[j] == remaining[2 * j];
    }
  }

  /** Pairs that pass every check name different records of the group, so what they record adds up to no
      more than the whole. */
  lemma AcceptedWithin(w: World, g: Key, mint: Key, remaining: seq<Key>, deposits: seq<u64>)
    requires 2 * |deposits| <= |remaining|
    requires forall i :: 0 <= i < |deposits| ==>
               PairError(w, g, mint, remaining, i).None? && remaining[2 * i] in w.records
               && deposits[i] == w.records[remaining[2 * i]].totalDeposited
    ensures SeqTotal(deposits) <= Total(Deposits(RecordsOf(w, g)))
  {
    hide Total, SeqTotal, PairError, Deposits, RecordsOf;
    var n := |deposits|;
    var rs, m := Listed(remaining)[..n], Deposits(RecordsOf(w, g));
    forall i | 0 <= i < n
      ensures rs[i] in m && deposits[i] == m[rs[i]] && forall j :: 0 <= j < i ==> rs[j] != rs[i]
    {
      AcceptedPair(w, g, mint, remaining, i);
    }
    ListedTotal(m, rs, deposits);
  }

  /** The validation pass fails only because of a pair: its sum cannot overflow. */
  lemma {:induction false} ListTells(a: Audit, g: Key, mint: Key, remaining: seq<Key>, n: nat) returns (i: nat)
    requires LocalInv(a) && g in a.world.groups && VaultAddr(g) in a.world.tokens && 2 * n <= |remaining|
    requires ListUpTo(a.world, g, mint, remaining, n).Err?
    ensures i < n
    ensures PairError(a.world, g, mint, remaining, i) == Some(ListUpTo(a.world, g, mint, remaining, n).error)
  {
    hide LocalInv, PairError, Total, SeqTotal, Deposits, RecordsOf, Listed;
    if ListUpTo(a.world, g, mint, remaining, n - 1).Err? {
      i := ListTells(a, g, mint, remaining, n - 1);
    } else {
      i := n - 1;
      if PairError(a.world, g, mint, remaining, i).None? {
        AcceptedPair(a.world, g, mint, remaining, i);
        var l := ListUpTo(a.world, g, mint, remaining, i).value;
        var deposits := l.deposits + [a.world.records[remaining[2 * i]].totalDeposited];
        forall j | 0 <= j < i ensures remaining[2 * j] in a.world.records {
          AcceptedPair(a.world, g, mint, remaining, j);
        }
        AcceptedWithin(a.world, g, mint, remaining, deposits);
        CoveredTotal(a, g);
        TotalOfMore(l.deposits, a.world.records[remaining[2 * i]].totalDeposited);
        assert false;
      }
    }
  }

  lemma TotalOfMore(deposits: seq<nat>, last: nat)
    ensures SeqTotal(deposits + [last]) == SeqTotal(deposits) + last
  {
    assert (deposits + [last])[..|deposits|] == deposits;
  }

  /** A payout fails only because the token program refuses a transfer: no total overflows. */
  lemma {:induction false} PayTells(tokens: Tokens, v: Key, mint: Key, remaining: seq<Key>, deposits: seq<u64>,
                                    blocked: set<Key>, mode: Mode, n: nat)
    requires Payable(tokens, v, mint, remaining, deposits) && n <= |deposits|
    requires PayUpTo(tokens, v, remaining, deposits, blocked, mode, n).Err?
    ensures PayUpTo(tokens, v, remaining, deposits, blocked, mode, n).error == TokenProgramError
  {
    hide *;
    PayableBasics(tokens, v, mint, remaining, deposits);
    if n == 0 {
      PaidNothing(tokens, v, mint, remaining, deposits, blocked, mode);
    } else if PayUpTo(tokens, v, remaining, deposits, blocked, mode, n - 1).Err? {
      PayTells(tokens, v, mint, remaining, deposits, blocked, mode, n - 1);
      FailedBefore(tokens, v, remaining, deposits, blocked, mode, n);
    } else {
      var p := PayUpTo(tokens, v, remaining, deposits, blocked, mode, n - 1).value;
      PayExact(tokens, v, mint, remaining, deposits, blocked, mode, n - 1);
      NextAmount(tokens, v, mint, remaining, deposits, p.tokens, n - 1);
      PaidWithin(tokens, v, mint, remaining, deposits, n);
      FailedNow(tokens, v, remaining, deposits, blocked, mode, n);
    }
  }

  lemma FailedBefore(tokens: Tokens, v: Key, remaining: seq<Key>, deposits: seq<u64>, blocked: set<Key>, mode: Mode,
      n: nat)
    requires v in tokens && 0 < n <= |deposits| && |remaining| == 2 * |deposits|
    requires PayUpTo(tokens, v, remaining, deposits, blocked, mode, n - 1).Err?
    ensures PayUpTo(tokens, v, remaining, deposits, blocked, mode, n)
         == Err(PayUpTo(tokens, v, remaining, deposits, blocked, mode, n - 1).error)
  {
    hide Pay, SeqTotal;
  }

  lemma FailedNow(tokens: Tokens, v: Key, remaining: seq<Key>, deposits: seq<u64>, blocked: set<Key>, mode: Mode,
      n: nat)
    requires v in tokens && 0 < n <= |deposits| && |remaining| == 2 * |deposits|
    requires PayUpTo(tokens, v, remaining, deposits, blocked, mode, n - 1).Ok?
    requires PayUpTo(tokens, v, remaining, deposits, blocked, mode, n).Err?
    requires var p := PayUpTo(tokens, v, remaining, deposits, blocked, mode, n - 1).value;
             v in p.tokens
             && SeqTotal(p.paid) + (if n == |deposits| then p.tokens[v].amount else deposits[n - 1]) <= U64_MAX
    ensures PayUpTo(tokens, v, remaining, deposits, blocked, mode, n).error == TokenProgramError
  {
    hide Pay, SeqTotal;
  }

  /** With an exact list, only the mint and the token program can still say no. */
  lemma PayingTells(tokens: Tokens, v: Key, mint: Key, remaining: seq<Key>, blocked: set<Key>, mode: Mode, l: Listing)
    requires Payable(tokens, v, mint, remaining, l.deposits) && l.total == SeqTotal(l.deposits)
    requires Paying(tokens, v, remaining, blocked, mode, l).Err?
    ensures var e := Paying(tokens, v, remaining, blocked, mode, l).error;
            || (e == MintNotWritable && l.deposits == [] && tokens[v].amount > 0 && mode == ByCancel(false))
            || (e == TokenProgramError
                && !(l.deposits == [] && mode.ByCancel? && tokens[v].amount > 0 && !mode.mintWritable))
  {
    hide PayUpTo, Payable, PaidSoFar, Shares;
    PayableBasics(tokens, v, mint, remaining, l.deposits);
    var r := PayUpTo(tokens, v, remaining, l.deposits, blocked, mode, |l.deposits|);
    if r.Err? {
      PayTells(tokens, v, mint, remaining, l.deposits, blocked, mode, |l.deposits|);
    } else {
      PayExact(tokens, v, mint, remaining, l.deposits, blocked, mode, |l.deposits|);
      SharesExact(l.deposits, tokens[v].amount);
      var paid := Shares(l.deposits, tokens[v].amount);
      assert paid[..|l.deposits|] == paid;
    }
  }

  lemma ListedTells(a: Audit, tx: Tx)
    requires Reachable(a) && (tx.ins.Distribute? || tx.ins.EmergencyCancel?)
    requires tx.ins.group in a.world.groups && VaultAddr(tx.ins.group) in a.world.tokens
    requires var w, g, n := a.world, tx.ins.group, a.world.groups[tx.ins.group].currentMembers;
             |tx.ins.remaining| == 2 * n && ListUpTo(w, g, w.groups[g].mint, tx.ins.remaining, n).Err?
    ensures var w, g, n := a.world, tx.ins.group, a.world.groups[tx.ins.group].currentMembers;
            BadList(w, tx.ins, ListUpTo(w, g, w.groups[g].mint, tx.ins.remaining, n).error)
  {
    hide *;
    var w, g, n := a.world, tx.ins.group, a.world.groups[tx.ins.group].currentMembers;
    ReachableInv(a);
    InvParts(a);
    var i := ListTells(a, g, w.groups[g].mint, tx.ins.remaining, n);
    if tx.ins.remaining[2 * i] in w.records {
      OfRecord(a, tx.ins.remaining[2 * i]);
    }
    PairTells(w, tx.ins, i);
    IsBadList(w, tx.ins, i, ListUpTo(w, g, w.groups[g].mint, tx.ins.remaining, n).error);
  }

  lemma IsBadList(w: World, ins: Ins, i: nat, e: Error)
    requires (ins.Distribute? || ins.EmergencyCancel?) && ins.group in w.groups && 2 * i + 1 < |ins.remaining|
    requires WrongPair(w, ins, i, e)
    ensures BadList(w, ins, e)
  {
  }

  /** The steps of a settlement that fails. */
  lemma SettleSteps(w: World, g: Key, remaining: seq<Key>, blocked: set<Key>, mode: Mode)
    requires g in w.groups && VaultAddr(g) in w.tokens && Settle(w, g, remaining, blocked, mode).Err?
    ensures var n, e := w.groups[g].currentMembers, Settle(w, g, remaining, blocked, mode).error;
            if |remaining| != 2 * n then e == MemberCountMismatch
            else
              var l := ListUpTo(w, g, w.groups[g].mint, remaining, n);
              if l.Err? then e == l.error
              else
                && l.value.total == SeqTotal(l.value.deposits)
                && |l.value.deposits| == n
                && (forall i :: 0 <= i < n ==>
                      PairError(w, g, w.groups[g].mint, remaining, i).None?
                      && l.value.deposits[i] == w.records[remaining[2 * i]].totalDeposited)
                && Paying(w.tokens, VaultAddr(g), remaining, blocked, mode, l.value) == Err(e)
  {
    hide Paying, PairError, SeqTotal;
  }

  lemma CoveredList(a: Audit, g: Key, remaining: seq<Key>, deposits: seq<u64>)
    requires LocalInv(a) && g in a.world.groups && VaultAddr(g) in a.world.tokens && |remaining| == 2 * |deposits|
    requires IsListing(a.world, g, a.world.groups[g].mint, remaining)
    requires forall i :: 0 <= i < |deposits| ==>
               PairError(a.world, g, a.world.groups[g].mint, remaining, i).None?
               && remaining[2 * i] in a.world.records
               && deposits[i] == a.world.records[remaining[2 * i]].totalDeposited
    ensures SeqTotal(deposits) <= a.world.tokens[VaultAddr(g)].amount
  {
    hide *;
    CoveredTotal(a, g);
    ListedSum(a.world, g, a.world.groups[g].mint, remaining, deposits);
  }

  lemma ModeOf(ins: Ins)
    requires (ins.Distribute? || ins.EmergencyCancel?)
    ensures ins.Distribute? || ins.EmergencyCancel?
    ensures SettleMode(ins) == if ins.Distribute? then ByDistribute else ByCancel(ins.mintWritable)
  {
  }

  lemma VaultFree(g: Key, remaining: seq<Key>, blocked: set<Key>)
    requires Unblocked(g, remaining, blocked)
    ensures VaultAddr(g) !in blocked
  {
  }

  lemma SettleAnswer(w: World, tx: Tx, e: Error)
    requires (tx.ins.Distribute? || tx.ins.EmergencyCancel?) && tx.ins.group in w.groups && Sound(w, tx.ins.group)
    requires var i, g, n := tx.ins, tx.ins.group, w.groups[tx.ins.group].currentMembers;
             || (e == MemberCountMismatch && |i.remaining| != 2 * n)
             || BadList(w, i, e)
             || (e == MintNotWritable && n == 0 && VaultAmount(w, g) > 0 && SettleMode(i) == ByCancel(false))
             || (e == TokenProgramError && !Unblocked(g, i.remaining, tx.blocked))
    ensures SettleSays(w, tx, e)
  {
    hide RecordsOf, Unblocked, VaultAmount;
    ModeOf(tx.ins);
  }

  /** The payouts of an exact list fail only on the mint or on a blocked account. */
  lemma PayingSays(a: Audit, tx: Tx, l: Listing)
    requires Reachable(a) && (tx.ins.Distribute? || tx.ins.EmergencyCancel?) && tx.ins.group in a.world.groups
    requires var w, i, g := a.world, tx.ins, tx.ins.group;
             && Live(w.groups[g].status) && (i.Distribute? ==> w.groups[g].status == Active) && VaultAddr(g) in w.tokens
             && |i.remaining| == 2 * |l.deposits| && l.total == SeqTotal(l.deposits) <= w.tokens[VaultAddr(g)].amount
             && IsListing(w, g, w.groups[g].mint, i.remaining)
             && Paying(w.tokens, VaultAddr(g), i.remaining, tx.blocked, SettleMode(i), l).Err?
             && Settle(w, g, i.remaining, tx.blocked, SettleMode(i)).Err?
    ensures var w, i, g := a.world, tx.ins, tx.ins.group;
            var e := Paying(w.tokens, VaultAddr(g), i.remaining, tx.blocked, SettleMode(i), l).error;
            || (e == MintNotWritable && l.deposits == [] && w.tokens[VaultAddr(g)].amount > 0
                && SettleMode(i) == ByCancel(false))
            || (e == TokenProgramError && !Unblocked(g, i.remaining, tx.blocked))
  {
    hide *;
    var w, g, remaining, mode := a.world, tx.ins.group, tx.ins.remaining, SettleMode(tx.ins);
    ReachableInv(a);
    InvParts(a);
    ModeOf(tx.ins);
    ListingPayable(a, g, remaining, l.deposits);
    PayingTells(w.tokens, VaultAddr(g), w.groups[g].mint, remaining, tx.blocked, mode, l);
    if Unblocked(g, remaining, tx.blocked) && Paying(w.tokens, VaultAddr(g), remaining, tx.blocked, mode, l).error
        == TokenProgramError
    {
      if tx.ins.Distribute? {
        ActiveList(a, g, remaining);
      }
      VaultFree(g, remaining, tx.blocked);
      ListingSettles(a, g, remaining, tx.blocked, mode);
    }
  }

  lemma SettleTells(a: Audit, tx: Tx)
    requires Reachable(a) && (tx.ins.Distribute? || tx.ins.EmergencyCancel?) && tx.ins.group in a.world.groups
    requires Live(a.world.groups[tx.ins.group].status) && VaultAddr(tx.ins.group) in a.world.tokens
    requires tx.ins.Distribute? ==> a.world.groups[tx.ins.group].status == Active
    requires Settle(a.world, tx.ins.group, tx.ins.remaining, tx.blocked, SettleMode(tx.ins)).Err?
    ensures SettleSays(a.world, tx,
                       Settle(a.world, tx.ins.group, tx.ins.remaining, tx.blocked, SettleMode(tx.ins)).error)
  {
    hide *;
    var w, g, remaining, mode := a.world, tx.ins.group, tx.ins.remaining, SettleMode(tx.ins);
    var n: nat := w.groups[g].currentMembers;
    var e := Settle(w, g, remaining, tx.blocked, mode).error;
    ReachableInv(a);
    InvParts(a);
    GroupParts(a, g);
    LiveGroup(a, g);
    SettleSteps(w, g, remaining, tx.blocked, mode);
    if |remaining| == 2 * n {
      var l := ListUpTo(w, g, w.groups[g].mint, remaining, n);
      if l.Err? {
        ListedTells(a, tx);
      } else {
        AcceptedIsListing(a, g, w.groups[g].mint, remaining);
        forall i | 0 <= i < n ensures remaining[2 * i] in w.records {
          AcceptedPair(w, g, w.groups[g].mint, remaining, i);
        }
        CoveredList(a, g, remaining, l.value.deposits);
        PayingSays(a, tx, l.value);
      }
    }
    SettleAnswer(w, tx, e);
  }

  ghost predicate DistributeSays(w: World, tx: Tx, e: Error)
    requires tx.ins.Distribute?
  {
    var i, g := tx.ins, tx.ins.group;
    || (e == AccountNotSigner && i.payer !in tx.signers)
    || (e == AccountNotInitialized && (g in w.groups ==> !Live(w.groups[g].status)))
    || (e == InvalidGroupStatus && g in w.groups && w.groups[g].status != Active)
    || (e == CycleNotEnded
        && g in w.groups && w.groups[g].frequency <= MaxFrequency(w.build)
        && w.clock < w.groups[g].cycleStart + w.groups[g].totalPeriods * Period(w.build, w.groups[g].frequency))
    || SettleSays(w, tx, e)
  }

  ghost predicate CancelSays(w: World, tx: Tx, e: Error)
    requires tx.ins.EmergencyCancel?
  {
    var i, g := tx.ins, tx.ins.group;
    || (e == AccountNotSigner && i.creator !in tx.signers)
    || (e == AccountNotInitialized && (g in w.groups ==> !Live(w.groups[g].status)))
    || (e == UnauthorizedCreator && g in w.groups && i.creator != w.groups[g].creator)
    || (e == InvalidGroupStatus && g in w.groups && !Live(w.groups[g].status))
    || SettleSays(w, tx, e)
  }

  lemma DistributeTells(w: World, tx: Tx)
    requires tx.ins.Distribute? && DistributeReceipt(w, tx).Err?
    requires tx.ins.group in w.groups ==> Sound(w, tx.ins.group)
    requires var g := tx.ins.group;
             g in w.groups && w.groups[g].status == Active && VaultAddr(g) in w.tokens ==>
               && w.groups[g].frequency <= MaxFrequency(w.build)
               && CycleEnd(w.build, w.groups[g])
                  == Ok(w.groups[g].cycleStart + w.groups[g].totalPeriods * Period(w.build, w.groups[g].frequency))
               && var r := Settle(w, g, tx.ins.remaining, tx.blocked, ByDistribute);
                  r.Err? ==> SettleSays(w, tx, r.error)
    ensures DistributeSays(w, tx, DistributeReceipt(w, tx).error)
  {
    hide RecordsOf, Settle, CycleEnd, Period, MaxFrequency, BadList, VaultAmount, Unblocked, SettleSays;
  }

  lemma CancelTells(w: World, tx: Tx)
    requires tx.ins.EmergencyCancel? && CancelReceipt(w, tx).Err?
    requires tx.ins.group in w.groups ==> Sound(w, tx.ins.group)
    requires var g := tx.ins.group;
             g in w.groups && Live(w.groups[g].status) && VaultAddr(g) in w.tokens ==>
               var r := Settle(w, g, tx.ins.remaining, tx.blocked, ByCancel(tx.ins.mintWritable));
               r.Err? ==> SettleSays(w, tx, r.error)
    ensures CancelSays(w, tx, CancelReceipt(w, tx).error)
  {
    hide RecordsOf, Settle, BadList, VaultAmount, Unblocked, SettleSays;
  }

  // ---- every instruction ----

  /** What an error code says about the transaction it answers. */
  ghost predicate Says(w: World, tx: Tx, e: Error) {
    match tx.ins
    case CreateGroup(_, _, _, _, _, _, _, _, _) => CreateSays(w, tx, e)
    case JoinGroup(_, _, _, _, _, _) => JoinSays(w, tx, e)
    case LeaveGroup(_, _, _, _) => LeaveSays(w, tx, e)
    case StartCycle(_, _) => StartSays(w, tx, e)
    case Deposit(_, _, _) => DepositSays(w, tx, e)
    case Distribute(_, _, _) => DistributeSays(w, tx, e)
    case EmergencyCancel(_, _, _, _) => CancelSays(w, tx, e)
    case RefundVaultRent(_, _) => RefundSays(w, tx, e)
    case CloseMemberRecord(_, _, _) => CloseRecordSays(w, tx, e)
    case CloseGroup(_, _) => CloseGroupSays(w, tx, e)
    case SetJoinAuthority(_, _, _, _) => GateSays(w, tx, e)
    case CloseJoinTally(_, _, _) => CloseTallySays(w, tx, e)
  }

  lemma DistributeAnswers(a: Audit, tx: Tx)
    requires Reachable(a) && tx.ins.Distribute? && Refusal(a.world, tx).Some?
    ensures DistributeSays(a.world, tx, Refusal(a.world, tx).value)
  {
    hide *;
    var w, g := a.world, tx.ins.group;
    ReceiptRefused(w, tx);
    ModeOf(tx.ins);
    if g in w.groups {
      GroupParts(a, g);
      if w.groups[g].status == Active && VaultAddr(g) in w.tokens {
        EndKnown(a, g);
        if Settle(w, g, tx.ins.remaining, tx.blocked, ByDistribute).Err? {
          SettleTells(a, tx);
        }
      }
    }
    DistributeTells(w, tx);
  }

  lemma EndKnown(a: Audit, g: Key)
    requires Reachable(a) && g in a.world.groups && a.world.groups[g].status == Active
    ensures Live(a.world.groups[g].status)
    ensures var build, c := a.world.build, a.world.groups[g];
            && c.frequency <= MaxFrequency(build)
            && CycleEnd(build, c) == Ok(c.cycleStart + c.totalPeriods * Period(build, c.frequency))
  {
    hide *;
    ReachableInv(a);
    InvParts(a);
    ActiveEnd(a, g);
    ActiveList(a, g, []);
  }

  lemma CancelAnswers(a: Audit, tx: Tx)
    requires Reachable(a) && tx.ins.EmergencyCancel? && Refusal(a.world, tx).Some?
    ensures CancelSays(a.world, tx, Refusal(a.world, tx).value)
  {
    hide *;
    var w, g := a.world, tx.ins.group;
    ReceiptRefused(w, tx);
    ModeOf(tx.ins);
    if g in w.groups {
      GroupParts(a, g);
      if Live(w.groups[g].status) && VaultAddr(g) in w.tokens
         && Settle(w, g, tx.ins.remaining, tx.blocked, ByCancel(tx.ins.mintWritable)).Err? {
        SettleTells(a, tx);
      }
    }
    CancelTells(w, tx);
  }

  lemma SettlementTells(a: Audit, tx: Tx)
    requires Reachable(a) && IsSettlement(tx.ins) && Refusal(a.world, tx).Some?
    ensures Says(a.world, tx, Refusal(a.world, tx).value)
  {
    assert IsSettlement(tx.ins);
    hide *;
    if tx.ins.Distribute? {
      DistributeAnswers(a, tx);
    } else {
      CancelAnswers(a, tx);
    }
    SaysOf(a.world, tx, Refusal(a.world, tx).value);
  }

  lemma ReceiptRefused(w: World, tx: Tx)
    requires (tx.ins.Distribute? || tx.ins.EmergencyCancel?) && Refusal(w, tx).Some?
    ensures tx.ins.Distribute? ==> DistributeReceipt(w, tx) == Err(Refusal(w, tx).value)
    ensures tx.ins.EmergencyCancel? ==> CancelReceipt(w, tx) == Err(Refusal(w, tx).value)
  {
    hide DistributeReceipt, CancelReceipt;
  }

  lemma RecordPlaced(a: Audit, tx: Tx)
    requires Reachable(a) && tx.ins.CloseMemberRecord? && tx.ins.record in a.world.records
    ensures var w, r := a.world, tx.ins.record;
            r == MemberAddr(w.records[r].group, w.records[r].member)
  {
    hide *;
    ReachableInv(a);
    InvParts(a);
    OfRecord(a, tx.ins.record);
  }

  lemma LeaveSound(a: Audit, tx: Tx)
    requires Reachable(a) && tx.ins.LeaveGroup?
    ensures var w, i, g, r := a.world, tx.ins, tx.ins.group, MemberAddr(tx.ins.group, tx.ins.member);
            g in w.groups && w.groups[g].status == Open && i.member in tx.signers && r in w.records
            && i.dest in w.tokens && w.tokens[i.dest].owner == i.member && w.tokens[i.dest].mint == w.groups[g].mint ==>
              && w.groups[g].currentMembers > 0
              && (VaultAddr(g) !in tx.blocked && i.dest !in tx.blocked ==>
                    TransferOk(w.tokens, VaultAddr(g), i.dest, w.records[r].totalDeposited, tx.blocked))
  {
    hide Reachable, TransferOk;
    var w, i, g := a.world, tx.ins, tx.ins.group;
    if && g in w.groups && w.groups[g].status == Open && i.member in tx.signers && MemberAddr(g, i.member) in w.records
       && i.dest in w.tokens && w.tokens[i.dest].owner == i.member && w.tokens[i.dest].mint == w.groups[g].mint
    {
      LeavePaid(a, g, i.member, i.dest);
    }
  }

  lemma RefusalOf(w: World, tx: Tx)
    ensures tx.ins.CreateGroup? ==> Refusal(w, tx) == CreateRefusal(w, tx)
    ensures tx.ins.JoinGroup? ==> Refusal(w, tx) == JoinRefusal(w, tx)
    ensures tx.ins.LeaveGroup? ==> Refusal(w, tx) == LeaveRefusal(w, tx)
    ensures tx.ins.StartCycle? ==> Refusal(w, tx) == StartRefusal(w, tx)
    ensures tx.ins.Deposit? ==> Refusal(w, tx) == DepositRefusal(w, tx)
    ensures tx.ins.RefundVaultRent? ==> Refusal(w, tx) == RefundRefusal(w, tx)
    ensures tx.ins.CloseMemberRecord? ==> Refusal(w, tx) == CloseRecordRefusal(w, tx)
    ensures tx.ins.CloseGroup? ==> Refusal(w, tx) == CloseGroupRefusal(w, tx)
    ensures tx.ins.SetJoinAuthority? ==> Refusal(w, tx) == GateRefusal(w, tx)
    ensures tx.ins.CloseJoinTally? ==> Refusal(w, tx) == CloseTallyRefusal(w, tx)
  {
    hide CreateRefusal, JoinRefusal, LeaveRefusal, StartRefusal, DepositRefusal, RefundRefusal, CloseRecordRefusal,
         CloseGroupRefusal, GateRefusal, CloseTallyRefusal;
  }

  lemma SaysOf(w: World, tx: Tx, e: Error)
    ensures tx.ins.CreateGroup? && CreateSays(w, tx, e) ==> Says(w, tx, e)
    ensures tx.ins.JoinGroup? && JoinSays(w, tx, e) ==> Says(w, tx, e)
    ensures tx.ins.LeaveGroup? && LeaveSays(w, tx, e) ==> Says(w, tx, e)
    ensures tx.ins.StartCycle? && StartSays(w, tx, e) ==> Says(w, tx, e)
    ensures tx.ins.Deposit? && DepositSays(w, tx, e) ==> Says(w, tx, e)
    ensures tx.ins.RefundVaultRent? && RefundSays(w, tx, e) ==> Says(w, tx, e)
    ensures tx.ins.CloseMemberRecord? && CloseRecordSays(w, tx, e) ==> Says(w, tx, e)
    ensures tx.ins.CloseGroup? && CloseGroupSays(w, tx, e) ==> Says(w, tx, e)
    ensures tx.ins.SetJoinAuthority? && GateSays(w, tx, e) ==> Says(w, tx, e)
    ensures tx.ins.CloseJoinTally? && CloseTallySays(w, tx, e) ==> Says(w, tx, e)
    ensures tx.ins.Distribute? && DistributeSays(w, tx, e) ==> Says(w, tx, e)
    ensures tx.ins.EmergencyCancel? && CancelSays(w, tx, e) ==> Says(w, tx, e)
  {
    hide CreateSays, JoinSays, LeaveSays, StartSays, DepositSays, RefundSays, CloseRecordSays,
         CloseGroupSays, GateSays, CloseTallySays, DistributeSays, CancelSays;
  }

  lemma PaymentTells(a: Audit, tx: Tx)
    requires Reachable(a) && IsPayment(tx.ins) && Refusal(a.world, tx).Some?
    ensures Says(a.world, tx, Refusal(a.world, tx).value)
  {
    assert IsPayment(tx.ins);
    hide *;
    var w, ins := a.world, tx.ins;
    RefusalOf(w, tx);
    if ins.group in w.groups {
      GroupParts(a, ins.group);
    }
    if ins.JoinGroup? {
      JoinTells(a, tx);
    } else if ins.LeaveGroup? {
      LeaveSound(a, tx);
      LeaveTells(w, tx);
    } else {
      DepositFits(a, tx);
      DepositTells(w, tx);
    }
    SaysOf(w, tx, Refusal(w, tx).value);
  }

  lemma ClosingTells(a: Audit, tx: Tx)
    requires Reachable(a) && Refusal(a.world, tx).Some?
    requires IsClosing(tx.ins)
    ensures Says(a.world, tx, Refusal(a.world, tx).value)
  {
    assert IsClosing(tx.ins);
    hide *;
    var w, ins := a.world, tx.ins;
    RefusalOf(w, tx);
    if ins.group in w.groups {
      GroupParts(a, ins.group);
    }
    if ins.RefundVaultRent? {
      RefundTells(w, tx);
    } else if ins.CloseMemberRecord? {
      if ins.record in w.records {
        RecordPlaced(a, tx);
      }
      CloseRecordTells(w, tx);
    } else if ins.CloseGroup? {
      CloseGroupTells(w, tx);
    } else {
      CloseTallyTells(a, tx);
    }
    SaysOf(w, tx, Refusal(w, tx).value);
  }

  lemma BeginningTells(a: Audit, tx: Tx)
    requires Reachable(a) && Refusal(a.world, tx).Some?
    requires IsBeginning(tx.ins)
    ensures Says(a.world, tx, Refusal(a.world, tx).value)
  {
    assert IsBeginning(tx.ins);
    hide *;
    var w, ins := a.world, tx.ins;
    RefusalOf(w, tx);
    if !ins.CreateGroup? && ins.group in w.groups {
      GroupParts(a, ins.group);
    }
    if ins.CreateGroup? {
      CreateTells(a, tx);
    } else if ins.SetJoinAuthority? {
      GateTells(w, tx);
    } else {
      StartTells(w, tx);
    }
    SaysOf(w, tx, Refusal(w, tx).value);
  }

  /** In every reachable state the code a refused transaction gets back names something that is really wrong
      with it. */
  lemma RefusalTells(a: Audit, tx: Tx)
    requires Reachable(a) && Refusal(a.world, tx).Some?
    ensures Says(a.world, tx, Refusal(a.world, tx).value)
  {
    hide *;
    OneOf(tx.ins);
    if IsPayment(tx.ins) {
      PaymentTells(a, tx);
    } else if IsBeginning(tx.ins) {
      BeginningTells(a, tx);
    } else if IsClosing(tx.ins) {
      ClosingTells(a, tx);
    } else {
      SettlementTells(a, tx);
    }
  }

  predicate IsPayment(ins: Ins) { ins.JoinGroup? || ins.LeaveGroup? || ins.Deposit? }

  predicate IsBeginning(ins: Ins) { ins.CreateGroup? || ins.SetJoinAuthority? || ins.StartCycle? }

  predicate IsClosing(ins: Ins) {
    ins.RefundVaultRent? || ins.CloseMemberRecord? || ins.CloseGroup? || ins.CloseJoinTally?
  }

  predicate IsSettlement(ins: Ins) { ins.Distribute? || ins.EmergencyCancel? }

  lemma OneOf(ins: Ins)
    ensures IsPayment(ins) || IsBeginning(ins) || IsClosing(ins) || IsSettlement(ins)
  {
  }

  /** The codes that speak of a pair of the list. */
  lemma PairCodes(w: World, ins: Ins, e: Error)
    requires ins.Distribute? || ins.EmergencyCancel?
    ensures BadList(w, ins, e) ==> e != VaultShortfall && e != IndexOutOfBounds && e != ArithmeticOverflow
  {
    hide RecordsOf, ProgramOwned, Listed;
  }

  /** Two codes are never said, and an overflow only by the four instructions that do arithmetic on what a
      caller or a clock can choose. */
  predicate Sayable(ins: Ins, e: Error) {
    && e != VaultShortfall && e != IndexOutOfBounds
    && (e == ArithmeticOverflow ==> ins.JoinGroup? || ins.StartCycle? || ins.Deposit? || ins.CloseMemberRecord?)
  }

  lemma JoinNever(w: World, tx: Tx, e: Error)
    requires tx.ins.JoinGroup? && JoinSays(w, tx, e)
    ensures Sayable(tx.ins, e)
  {
    hide RecordsOf, CannotPay, JoinsOf, Live;
  }

  lemma DepositNever(w: World, tx: Tx, e: Error)
    requires tx.ins.Deposit? && DepositSays(w, tx, e)
    ensures Sayable(tx.ins, e)
  {
    hide CannotPay, DepositOverflows, PaidNow, MaxFrequency, Live;
  }

  lemma LeaveNever(w: World, tx: Tx, e: Error)
    requires tx.ins.LeaveGroup? && LeaveSays(w, tx, e)
    ensures Sayable(tx.ins, e)
  {
    hide Live;
  }

  lemma PaymentNever(w: World, tx: Tx, e: Error)
    requires IsPayment(tx.ins) && Says(w, tx, e)
    ensures Sayable(tx.ins, e)
  {
    hide JoinSays, LeaveSays, DepositSays, Sayable;
    if tx.ins.JoinGroup? {
      JoinNever(w, tx, e);
    } else if tx.ins.LeaveGroup? {
      LeaveNever(w, tx, e);
    } else {
      DepositNever(w, tx, e);
    }
  }

  lemma BeginningNever(w: World, tx: Tx, e: Error)
    requires IsBeginning(tx.ins) && Says(w, tx, e)
    ensures Sayable(tx.ins, e)
  {
    hide JoinSays, LeaveSays, DepositSays, RefundSays, CloseRecordSays,
         CloseGroupSays, CloseTallySays, DistributeSays, CancelSays, RecordsOf, MaxFrequency;
  }

  lemma ClosingNever(w: World, tx: Tx, e: Error)
    requires IsClosing(tx.ins) && Says(w, tx, e)
    ensures Sayable(tx.ins, e)
  {
    hide JoinSays, LeaveSays, DepositSays, CreateSays, GateSays,
         StartSays, DistributeSays, CancelSays, RecordsOf, MaxFrequency;
  }

  lemma SettlementNever(w: World, tx: Tx, e: Error)
    requires IsSettlement(tx.ins) && Says(w, tx, e)
    ensures Sayable(tx.ins, e)
  {
    hide BadList, RecordsOf, Unblocked, VaultAmount, MaxFrequency;
    PairCodes(w, tx.ins, e);
  }

  lemma NeverSaid(w: World, tx: Tx, e: Error)
    requires Says(w, tx, e)
    ensures Sayable(tx.ins, e)
  {
    hide *;
    OneOf(tx.ins);
    if IsPayment(tx.ins) {
      PaymentNever(w, tx, e);
    } else if IsBeginning(tx.ins) {
      BeginningNever(w, tx, e);
    } else if IsClosing(tx.ins) {
      ClosingNever(w, tx, e);
    } else {
      SettlementNever(w, tx, e);
    }
  }

  lemma SayableMeans(ins: Ins, e: Error)
    requires Sayable(ins, e)
    ensures e != VaultShortfall && e != IndexOutOfBounds
    ensures e == ArithmeticOverflow ==> ins.JoinGroup? || ins.StartCycle? || ins.Deposit? || ins.CloseMemberRecord?
  {
  }

  /** No settlement ever finds its vault short, and none ever overflows; nor does any index leave its array. */
  lemma NeverAnswered(a: Audit, tx: Tx)
    requires Reachable(a)
    ensures var r := Refusal(a.world, tx);
            && r != Some(VaultShortfall) && r != Some(IndexOutOfBounds)
            && (r == Some(ArithmeticOverflow) ==>
                  tx.ins.JoinGroup? || tx.ins.StartCycle? || tx.ins.Deposit? || tx.ins.CloseMemberRecord?)
  {
    hide *;
    if Refusal(a.world, tx).Some? {
      RefusalTells(a, tx);
      NeverSaid(a.world, tx, Refusal(a.world, tx).value);
      SayableMeans(tx.ins, Refusal(a.world, tx).value);
    }
  }
}
