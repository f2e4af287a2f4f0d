/** What each instruction accepts and what it leaves behind, as values. `Refusal` is the first check
    that fails; `After` is the state a transaction that fails none of them commits. */
module Instructions {
  import opened Machine
  import opened Sums
  import opened Ledger
  import opened GroupTime
  import opened Settlement

  /** The `group_config` account loads and sits at the address its own code derives. */
  function GroupError(w: World, g: Key): Option<Error> {
    if g !in w.groups then Some(AccountNotInitialized)
    else if g != GroupAddr(w.groups[g].code) then Some(ConstraintSeeds)
    else None
  }

  predicate CodeChar(ch: char) {
    'a' <= ch <= 'z' || 'A' <= ch <= 'Z' || '0' <= ch <= '9' || ch == '-'
  }

  predicate CodeChars(code: string) {
    forall k :: 0 <= k < |code| ==> CodeChar(code[k])
  }

  // ---- create_group ----

  function CreateRefusal(w: World, tx: Tx): Option<Error>
    requires tx.ins.CreateGroup?
  {
    var i := tx.ins;
    var g := GroupAddr(i.code);
    if i.creator !in tx.signers || i.rentPayer !in tx.signers then Some(AccountNotSigner)
    else if ProgramOwned(w, g) || VaultAddr(g) in w.tokens then Some(AccountInUse)
    else if !i.mintSupported then Some(UnsupportedMint)
    else if !(1 <= |i.code| <= 32) then Some(InvalidGroupCode)
    else if !CodeChars(i.code) then Some(InvalidGroupCode)
    else if i.depositAmount == 0 then Some(InvalidDepositAmount)
    else if i.frequency > MaxFrequency(w.build) then Some(InvalidFrequency)
    else if !(1 <= i.totalPeriods <= 52) then Some(InvalidPeriodCount)
    else if !(2 <= i.maxMembers <= 10) then Some(InvalidGroupSize)
    else None
  }

  function NewGroup(i: Ins): GroupConfig
    requires i.CreateGroup?
  {
    GroupConfig(i.creator, i.rentPayer, i.mint, i.depositAmount, 0, 0,
                i.frequency, i.totalPeriods, i.maxMembers, 0, Open, i.code)
  }

  function Created(w: World, tx: Tx): (w': World)
    requires tx.ins.CreateGroup?
    ensures w' == w.(groups := w'.groups, tokens := w'.tokens, lamports := w'.lamports, purse := w'.purse)
  {
    var i := tx.ins;
    var g := GroupAddr(i.code);
    var v := VaultAddr(g);
    var funded := Fund(Fund(w, g, GROUP_SPACE, i.rentPayer), v, VAULT_SPACE, i.rentPayer);
    funded.(groups := w.groups[g := NewGroup(i)],
            tokens := w.tokens[v := TokenAccount(v, i.mint, 0)])
  }

  // ---- join_group ----

  /** The account constraints of `join_group`. */
  function JoinAccountError(w: World, tx: Tx): Option<Error>
    requires tx.ins.JoinGroup?
  {
    var i := tx.ins;
    var g := i.group;
    if i.member !in tx.signers || i.rentPayer !in tx.signers then Some(AccountNotSigner)
    else if i.authority.Some? && i.authority.value !in tx.signers then Some(AccountNotSigner)
    else if GroupError(w, g).Some? then GroupError(w, g)
    else
      var c := w.groups[g];
      var ata := AtaAddr(i.member, c.mint);
      if MemberAddr(g, i.member) in w.records then Some(AccountInUse)
      else if ata !in w.tokens || VaultAddr(g) !in w.tokens then Some(AccountNotInitialized)
      else if c.status != Open then Some(InvalidGroupStatus)
      else if c.currentMembers >= c.maxMembers then Some(GroupFull)
      else if w.tokens[ata].owner != i.member || w.tokens[ata].mint != c.mint then Some(ConstraintRaw)
      else None
  }

  /** The handler of `join_group`, once its accounts are accepted. */
  function JoinHandlerError(w: World, tx: Tx): Option<Error>
    requires tx.ins.JoinGroup? && JoinAccountError(w, tx).None?
  {
    var i := tx.ins;
    var g := i.group;
    var c := w.groups[g];
    if c.Agreed() != i.expectedTerms then Some(TermsMismatch)
    else if GateError(w, tx).Some? then GateError(w, tx)
    else if i.expectedJoins.Some? && i.expectedJoins.value != JoinsOf(w, TallyAddr(g, i.member)) then
      Some(JoinCountMismatch)
    else if c.currentMembers + 1 > U8_MAX then Some(ArithmeticOverflow)
    else if JoinsOf(w, TallyAddr(g, i.member)) + 1 > U32_MAX then Some(ArithmeticOverflow)
    else if !TransferOk(w.tokens, AtaAddr(i.member, c.mint), VaultAddr(g), c.depositAmount, tx.blocked) then
      Some(TokenProgramError)
    else None
  }

  function JoinRefusal(w: World, tx: Tx): Option<Error>
    requires tx.ins.JoinGroup?
  {
    if JoinAccountError(w, tx).Some? then JoinAccountError(w, tx) else JoinHandlerError(w, tx)
  }

  function GateError(w: World, tx: Tx): Option<Error>
    requires tx.ins.JoinGroup?
  {
    var gate := GateAddr(tx.ins.group);
    if gate !in w.gates then None
    else if tx.ins.authority != Some(w.gates[gate]) then Some(JoinNotApproved)
    else if tx.durableNonce then Some(DurableNonceNotAllowed)
    else if tx.ins.expectedJoins.None? then Some(ExpectedJoinsRequired)
    else None
  }

  /** The tally after one more join; only a join that creates it writes the payer. */
  function NextTally(w: World, tally: Key, rentPayer: Key): JoinTally
    requires JoinsOf(w, tally) < U32_MAX
  {
    JoinTally(if JoinsOf(w, tally) == 0 then rentPayer else w.tallies[tally].rentPayer, JoinsOf(w, tally) + 1)
  }

  function NewRecord(c: GroupConfig, i: Ins): MemberRecord
    requires i.JoinGroup?
  {
    MemberRecord(i.group, i.member, i.rentPayer, c.depositAmount, 1, NoFlags()[0 := true])
  }

  function JoinFunded(w: World, i: Ins): (w': World)
    requires i.JoinGroup?
    ensures w' == w.(lamports := w'.lamports, purse := w'.purse)
  {
    var t := TallyAddr(i.group, i.member);
    var recordFunded := Fund(w, MemberAddr(i.group, i.member), RECORD_SPACE, i.rentPayer);
    if t in w.tallies then recordFunded else Fund(recordFunded, t, TALLY_SPACE, i.rentPayer)
  }

  function Joined(w: World, tx: Tx): (w': World)
    requires tx.ins.JoinGroup? && JoinRefusal(w, tx).None?
    ensures w' == w.(groups := w'.groups, records := w'.records, tallies := w'.tallies, tokens := w'.tokens,
        lamports := w'.lamports, purse := w'.purse)
  {
    var i := tx.ins;
    var g := i.group;
    var c := w.groups[g];
    var t := TallyAddr(g, i.member);
    JoinFunded(w, i).(
    groups := w.groups[g := c.(currentMembers := c.currentMembers + 1)],
    records := w.records[MemberAddr(g, i.member) := NewRecord(c, i)],
    tallies := w.tallies[t := NextTally(w, t, i.rentPayer)],
    tokens := Transferred(w.tokens, AtaAddr(i.member, c.mint), VaultAddr(g), c.depositAmount))
  }

  // ---- leave_group ----

  function LeaveRefusal(w: World, tx: Tx): Option<Error>
    requires tx.ins.LeaveGroup?
  {
    var i := tx.ins;
    var g := i.group;
    if i.member !in tx.signers then Some(AccountNotSigner)
    else if GroupError(w, g).Some? then GroupError(w, g)
    else
      var c := w.groups[g];
      var r := MemberAddr(g, i.member);
      if r !in w.records || i.dest !in w.tokens || VaultAddr(g) !in w.tokens then Some(AccountNotInitialized)
      else if c.status != Open then Some(InvalidGroupStatus)
      else if i.rentPayer != w.records[r].rentPayer then Some(InvalidRentPayer)
      else if w.tokens[i.dest].mint != c.mint || w.tokens[i.dest].owner != i.member then Some(ConstraintRaw)
      else if c.currentMembers == 0 then Some(ArithmeticOverflow)
      else if !TransferOk(w.tokens, VaultAddr(g), i.dest, w.records[r].totalDeposited, tx.blocked) then
        Some(TokenProgramError)
      else None
  }

  function Left(w: World, tx: Tx): (w': World)
    requires tx.ins.LeaveGroup? && LeaveRefusal(w, tx).None?
    ensures w' == w.(groups := w'.groups, records := w'.records, tokens := w'.tokens, lamports := w'.lamports,
        purse := w'.purse)
  {
    var i := tx.ins;
    var c := w.groups[i.group];
    var r := MemberAddr(i.group, i.member);
    Drain(w, r, i.rentPayer).(
    groups := w.groups[i.group := c.(currentMembers := c.currentMembers - 1)],
    records := w.records - {r},
    tokens := Transferred(w.tokens, VaultAddr(i.group), i.dest, w.records[r].totalDeposited))
  }

  // ---- start_cycle ----

  function StartRefusal(w: World, tx: Tx): Option<Error>
    requires tx.ins.StartCycle?
  {
    var i := tx.ins;
    if i.creator !in tx.signers then Some(AccountNotSigner)
    else if GroupError(w, i.group).Some? then GroupError(w, i.group)
    else
      var c := w.groups[i.group];
      if i.creator != c.creator then Some(UnauthorizedCreator)
      else if c.status != Open then Some(InvalidGroupStatus)
      else if c.currentMembers < 2 then Some(InsufficientMembers)
      else
        match CycleEnd(w.build, c.(status := Active, cycleStart := w.clock))
        case Err(e) => Some(e)
        case Ok(_) => None
  }

  function Started(w: World, tx: Tx): World
    requires tx.ins.StartCycle? && StartRefusal(w, tx).None?
  {
    var g := tx.ins.group;
    w.(groups := w.groups[g := w.groups[g].(status := Active, cycleStart := w.clock)])
  }

  // ---- deposit ----

  function DepositRefusal(w: World, tx: Tx): Option<Error>
    requires tx.ins.Deposit?
  {
    var i := tx.ins;
    var g := i.group;
    if i.member !in tx.signers then Some(AccountNotSigner)
    else if GroupError(w, g).Some? then GroupError(w, g)
    else
      var c := w.groups[g];
      var r := MemberAddr(g, i.member);
      if r !in w.records || i.source !in w.tokens || VaultAddr(g) !in w.tokens then Some(AccountNotInitialized)
      else if c.status != Active then Some(InvalidGroupStatus)
      else if w.records[r].group != g || w.records[r].member != i.member then Some(ConstraintRaw)
      else if w.tokens[i.source].mint != c.mint then Some(InvalidMint)
      else if w.tokens[i.source].owner != i.member then Some(ConstraintRaw)
      else
        match PeriodIndex(w.build, c, w.clock)
        case Err(e) => Some(e)
        case Ok(p) =>
          var rec := w.records[r];
          if p >= MAX_PERIODS then Some(IndexOutOfBounds)
          else if rec.periodsDeposited[p] then Some(AlreadyDeposited)
          else if rec.depositsMade + 1 > U8_MAX then Some(ArithmeticOverflow)
          else if rec.totalDeposited + c.depositAmount > U64_MAX then Some(ArithmeticOverflow)
          else if !TransferOk(w.tokens, i.source, VaultAddr(g), c.depositAmount, tx.blocked) then
            Some(TokenProgramError)
          else None
  }

  function Deposited(w: World, tx: Tx): World
    requires tx.ins.Deposit? && DepositRefusal(w, tx).None?
  {
    var i := tx.ins;
    var c := w.groups[i.group];
    var r := MemberAddr(i.group, i.member);
    var rec := w.records[r];
    var p := PeriodIndex(w.build, c, w.clock).value;
    w.(records := w.records[r := rec.(
       periodsDeposited := rec.periodsDeposited[p := true],
       depositsMade := rec.depositsMade + 1,
       totalDeposited := rec.totalDeposited + c.depositAmount)],
       tokens := Transferred(w.tokens, i.source, VaultAddr(i.group), c.depositAmount))
  }

  // ---- distribute and emergency_cancel ----

  function DistributeReceipt(w: World, tx: Tx): Result<Receipt>
    requires tx.ins.Distribute?
  {
    var i := tx.ins;
    if i.payer !in tx.signers then Err(AccountNotSigner)
    else if GroupError(w, i.group).Some? then Err(GroupError(w, i.group).value)
    else
      var c := w.groups[i.group];
      if VaultAddr(i.group) !in w.tokens then Err(AccountNotInitialized)
      else if c.status != Active then Err(InvalidGroupStatus)
      else
        match CycleEnd(w.build, c)
        case Err(e) => Err(e)
        case Ok(end) =>
          if w.clock < end then Err(CycleNotEnded)
          else Settle(w, i.group, i.remaining, tx.blocked, ByDistribute)
  }

  function CancelReceipt(w: World, tx: Tx): Result<Receipt>
    requires tx.ins.EmergencyCancel?
  {
    var i := tx.ins;
    if i.creator !in tx.signers then Err(AccountNotSigner)
    else if GroupError(w, i.group).Some? then Err(GroupError(w, i.group).value)
    else
      var c := w.groups[i.group];
      if VaultAddr(i.group) !in w.tokens then Err(AccountNotInitialized)
      else if i.creator != c.creator then Err(UnauthorizedCreator)
      else if Settled(c.status) then Err(InvalidGroupStatus)
      else Settle(w, i.group, i.remaining, tx.blocked, ByCancel(i.mintWritable))
  }

  function Refused<T>(r: Result<T>): Option<Error> {
    match r
    case Ok(_) => None
    case Err(e) => Some(e)
  }

  /** The vault is gone; its lamports wait in the group account. */
  function SettledAs(w: World, g: Key, status: Status, receipt: Receipt): World
    requires g in w.groups
  {
    var v := VaultAddr(g);
    w.(groups := w.groups[g := w.groups[g].(status := status, settledAt := w.clock)],
       tokens := receipt.tokens,
       lamports := (w.lamports - {v})[g := At(w.lamports, g) + At(w.lamports, v)])
  }

  // ---- refund_vault_rent ----

  function RefundRefusal(w: World, tx: Tx): Option<Error>
    requires tx.ins.RefundVaultRent?
  {
    var i := tx.ins;
    if GroupError(w, i.group).Some? then GroupError(w, i.group)
    else if !Settled(w.groups[i.group].status) then Some(InvalidGroupStatus)
    else if i.rentPayer != w.groups[i.group].rentPayer then Some(InvalidRentPayer)
    else None
  }

  function Refunded(w: World, tx: Tx): World
    requires tx.ins.RefundVaultRent?
  {
    var g := tx.ins.group;
    var held := At(w.lamports, g);
    var surplus := if held > RentFloor(w, GROUP_SPACE) then held - RentFloor(w, GROUP_SPACE) else 0;
    w.(lamports := w.lamports[g := held - surplus],
       purse := w.purse[tx.ins.rentPayer := Purse(w, tx.ins.rentPayer) + surplus])
  }

  // ---- close_member_record ----

  function CloseRecordRefusal(w: World, tx: Tx): Option<Error>
    requires tx.ins.CloseMemberRecord?
  {
    var i := tx.ins;
    if GroupError(w, i.group).Some? then GroupError(w, i.group)
    else if i.record !in w.records then Some(AccountNotInitialized)
    else
      var c := w.groups[i.group];
      var rec := w.records[i.record];
      if !Settled(c.status) then Some(InvalidGroupStatus)
      else
        match RetentionEnd(w.build, c.settledAt)
        case Err(e) => Some(e)
        case Ok(end) =>
          if w.clock < end then Some(RecordRetentionNotElapsed)
          else if i.record != MemberAddr(i.group, rec.member) then Some(ConstraintSeeds)
          else if i.rentPayer != rec.rentPayer then Some(InvalidRentPayer)
          else if c.currentMembers == 0 then Some(ArithmeticOverflow)
          else None
  }

  function RecordClosed(w: World, tx: Tx): (w': World)
    requires tx.ins.CloseMemberRecord? && CloseRecordRefusal(w, tx).None?
    ensures w' == w.(groups := w'.groups, records := w'.records, lamports := w'.lamports, purse := w'.purse)
  {
    var i := tx.ins;
    var c := w.groups[i.group];
    Drain(w, i.record, i.rentPayer).(
    groups := w.groups[i.group := c.(currentMembers := c.currentMembers - 1)],
    records := w.records - {i.record})
  }

  // ---- close_group ----

  function CloseGroupRefusal(w: World, tx: Tx): Option<Error>
    requires tx.ins.CloseGroup?
  {
    var i := tx.ins;
    if GroupError(w, i.group).Some? then GroupError(w, i.group)
    else
      var c := w.groups[i.group];
      if !Settled(c.status) then Some(InvalidGroupStatus)
      else if c.currentMembers != 0 then Some(GroupHasOpenRecords)
      else if i.rentPayer != c.rentPayer then Some(InvalidRentPayer)
      else None
  }

  function GroupClosed(w: World, tx: Tx): (w': World)
    requires tx.ins.CloseGroup?
    ensures w' == w.(groups := w'.groups, gates := w'.gates, lamports := w'.lamports, purse := w'.purse)
  {
    var g := tx.ins.group;
    var gate := GateAddr(g);
    var ungated := if gate in w.gates then Drain(w, gate, tx.ins.rentPayer) else w;
    Drain(ungated, g, tx.ins.rentPayer).(groups := w.groups - {g}, gates := w.gates - {gate})
  }

  // ---- set_join_authority ----

  function GateRefusal(w: World, tx: Tx): Option<Error>
    requires tx.ins.SetJoinAuthority?
  {
    var i := tx.ins;
    if i.creator !in tx.signers || i.rentPayer !in tx.signers then Some(AccountNotSigner)
    else if GroupError(w, i.group).Some? then GroupError(w, i.group)
    else
      var c := w.groups[i.group];
      if GateAddr(i.group) in w.gates then Some(AccountInUse)
      else if c.status != Open then Some(InvalidGroupStatus)
      else if c.currentMembers != 0 then Some(GroupHasMembers)
      else if i.creator != c.creator then Some(UnauthorizedCreator)
      else if i.rentPayer != c.rentPayer then Some(InvalidRentPayer)
      else if i.newAuthority == SystemProgram || i.newAuthority == ThisProgram then Some(InvalidJoinAuthority)
      else None
  }

  function Gated(w: World, tx: Tx): (w': World)
    requires tx.ins.SetJoinAuthority?
    ensures w' == w.(gates := w'.gates, lamports := w'.lamports, purse := w'.purse)
  {
    var gate := GateAddr(tx.ins.group);
    Fund(w, gate, GATE_SPACE, tx.ins.rentPayer).(gates := w.gates[gate := tx.ins.newAuthority])
  }

  // ---- close_join_tally ----

  function CloseTallyRefusal(w: World, tx: Tx): Option<Error>
    requires tx.ins.CloseJoinTally?
  {
    var i := tx.ins;
    var t := TallyAddr(i.group, i.member);
    if t !in w.tallies then Some(AccountNotInitialized)
    else if ProgramOwned(w, i.group) then Some(GroupNotClosed)
    else if i.rentPayer != w.tallies[t].rentPayer then Some(InvalidRentPayer)
    else None
  }

  function TallyClosed(w: World, tx: Tx): (w': World)
    requires tx.ins.CloseJoinTally?
    ensures w' == w.(tallies := w'.tallies, lamports := w'.lamports, purse := w'.purse)
  {
    var t := TallyAddr(tx.ins.group, tx.ins.member);
    Drain(w, t, tx.ins.rentPayer).(tallies := w.tallies - {t})
  }

  // ---- every instruction ----

  function Refusal(w: World, tx: Tx): Option<Error> {
    match tx.ins
    case CreateGroup(_, _, _, _, _, _, _, _, _) => CreateRefusal(w, tx)
    case JoinGroup(_, _, _, _, _, _) => JoinRefusal(w, tx)
    case LeaveGroup(_, _, _, _) => LeaveRefusal(w, tx)
    case StartCycle(_, _) => StartRefusal(w, tx)
    case Deposit(_, _, _) => DepositRefusal(w, tx)
    case Distribute(_, _, _) => Refused(DistributeReceipt(w, tx))
    case EmergencyCancel(_, _, _, _) => Refused(CancelReceipt(w, tx))
    case RefundVaultRent(_, _) => RefundRefusal(w, tx)
    case CloseMemberRecord(_, _, _) => CloseRecordRefusal(w, tx)
    case CloseGroup(_, _) => CloseGroupRefusal(w, tx)
    case SetJoinAuthority(_, _, _, _) => GateRefusal(w, tx)
    case CloseJoinTally(_, _, _) => CloseTallyRefusal(w, tx)
  }

  function After(w: World, tx: Tx): World
    requires Refusal(w, tx).None?
  {
    match tx.ins
    case CreateGroup(_, _, _, _, _, _, _, _, _) => Created(w, tx)
    case JoinGroup(_, _, _, _, _, _) => Joined(w, tx)
    case LeaveGroup(_, _, _, _) => Left(w, tx)
    case StartCycle(_, _) => Started(w, tx)
    case Deposit(_, _, _) => Deposited(w, tx)
    case Distribute(g, _, _) => SettledAs(w, g, Completed, DistributeReceipt(w, tx).value)
    case EmergencyCancel(g, _, _, _) => SettledAs(w, g, Cancelled, CancelReceipt(w, tx).value)
    case RefundVaultRent(_, _) => Refunded(w, tx)
    case CloseMemberRecord(_, _, _) => RecordClosed(w, tx)
    case CloseGroup(_, _) => GroupClosed(w, tx)
    case SetJoinAuthority(_, _, _, _) => Gated(w, tx)
    case CloseJoinTally(_, _, _) => TallyClosed(w, tx)
  }
}
