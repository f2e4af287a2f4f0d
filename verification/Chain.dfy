/** The program as it executes: one object that holds every account, and one method per instruction
    that changes it step by step. A handler may fail half way; `Execute` is what makes it atomic. */
module Chain {
  import opened Machine
  import opened Sums
  import opened Ledger
  import opened GroupTime
  import opened Settlement
  import opened Instructions
  import opened Payments
  import opened Payouts

  // ---- recognising the state a handler should leave ----

  lemma GroupLoaded(w: World, tx: Tx)
    requires tx.ins.JoinGroup? && JoinAccountError(w, tx).None?
    ensures tx.ins.group in w.groups
    ensures JoinFunded(w, tx.ins).groups == w.groups && JoinFunded(w, tx.ins).tokens == w.tokens
  {
    hide JoinFunded;
  }

  lemma TransferFree(tokens: Tokens, from: Key, to: Key, amount: u64, blocked: set<Key>)
    requires TransferOk(tokens, from, to, amount, blocked)
    ensures TransferOk(tokens, from, to, amount, {})
  {
  }

  /** What an address lacks of its rent-exempt minimum. */
  function Missing(lamports: map<Key, nat>, addr: Key, floor: nat): nat {
    if At(lamports, addr) < floor then floor - At(lamports, addr) else 0
  }

  lemma FundFields(w: World, addr: Key, space: nat, payer: Key)
    ensures var w', missing := Fund(w, addr, space, payer), Missing(w.lamports, addr, RentFloor(w, space));
            && w'.lamports == w.lamports[addr := At(w.lamports, addr) + missing]
            && w'.purse == w.purse[payer := Purse(w, payer) - missing]
            && w' == w.(lamports := w'.lamports, purse := w'.purse)
  {
    hide RentFloor;
  }

  lemma BothAccept(w: World, tx: Tx)
    requires tx.ins.JoinGroup? && JoinAccountError(w, tx).None? && JoinHandlerError(w, tx).None?
    ensures JoinRefusal(w, tx).None?
  {
    hide JoinAccountError, JoinHandlerError;
  }

  lemma IsJoined(w: World, tx: Tx, w': World)
    requires tx.ins.JoinGroup? && JoinRefusal(w, tx).None? && LooksJoined(w, tx.ins, w')
    ensures w' == Joined(w, tx)
  {
    hide JoinRefusal, JoinFunded, NewRecord, NextTally, Transferred, TransferOk;
  }

  /** The gate check looks at nothing but the gates. */
  lemma SameGate(w: World, u: World, tx: Tx)
    requires tx.ins.JoinGroup? && u.gates == w.gates
    ensures GateError(u, tx) == GateError(w, tx)
  {
  }

  lemma IsLeft(w: World, tx: Tx, w': World)
    requires tx.ins.LeaveGroup? && LeaveRefusal(w, tx).None?
    requires var i, g, r := tx.ins, tx.ins.group, MemberAddr(tx.ins.group, tx.ins.member);
             && w'.build == w.build && w'.clock == w.clock && w'.rentRate == w.rentRate && w'.gates == w.gates
             && w'.tallies == w.tallies
             && w'.lamports == Drain(w, r, i.rentPayer).lamports && w'.purse == Drain(w, r, i.rentPayer).purse
             && w'.groups == w.groups[g := w.groups[g].(currentMembers := w.groups[g].currentMembers - 1)]
             && w'.records == w.records - {r}
             && w'.tokens == Transferred(w.tokens, VaultAddr(g), i.dest, w.records[r].totalDeposited)
    ensures w' == Left(w, tx)
  {
    hide LeaveRefusal, Drain, Transferred, TransferOk;
  }

  /** Draining an address does not depend on what accounts there are. */
  lemma DrainAnyway(w: World, u: World, x: Key, payer: Key)
    requires u.lamports == w.lamports && u.purse == w.purse
    ensures Drain(u, x, payer).lamports == Drain(w, x, payer).lamports
    ensures Drain(u, x, payer).purse == Drain(w, x, payer).purse
  {
  }

  lemma IsGroupClosed(w: World, tx: Tx, w': World)
    requires tx.ins.CloseGroup?
    requires var g, payer := tx.ins.group, tx.ins.rentPayer;
             var ungated := if GateAddr(g) in w.gates then Drain(w, GateAddr(g), payer) else w;
             && w' == Drain(ungated, g, payer).(groups := w.groups - {g}, gates := w'.gates)
             && w'.gates == (if GateAddr(g) in w.gates then w.gates - {GateAddr(g)} else w.gates)
    ensures w' == GroupClosed(w, tx)
  {
    hide Drain;
    assert GateAddr(tx.ins.group) !in w.gates ==> w.gates - {GateAddr(tx.ins.group)} == w.gates;
  }

  /** One line of a settlement: what a member put in and what they get. */
  datatype MemberSettled = MemberSettled(member: Key, deposited: u64, payout: u64)

  /** Once a pair is rejected, so is every longer list. */
  lemma {:induction false} ListStops(w: World, g: Key, mint: Key, remaining: seq<Key>, i: nat, n: nat)
    requires i <= n && 2 * n <= |remaining| && ListUpTo(w, g, mint, remaining, i).Err?
    ensures ListUpTo(w, g, mint, remaining, n) == ListUpTo(w, g, mint, remaining, i)
  {
    if i < n {
      ListStops(w, g, mint, remaining, i, n - 1);
    }
  }

  lemma ListFails(w: World, g: Key, mint: Key, remaining: seq<Key>, i: nat)
    requires 2 * (i + 1) <= |remaining| && ListUpTo(w, g, mint, remaining, i).Ok?
    requires PairError(w, g, mint, remaining, i).Some?
    ensures ListUpTo(w, g, mint, remaining, i + 1) == Err(PairError(w, g, mint, remaining, i).value)
  {
    hide PairError, SeqTotal;
  }

  lemma ListAdds(w: World, g: Key, mint: Key, remaining: seq<Key>, i: nat)
    requires 2 * (i + 1) <= |remaining| && ListUpTo(w, g, mint, remaining, i).Ok?
    requires PairError(w, g, mint, remaining, i).None? && remaining[2 * i] in w.records
    ensures var l, deposit := ListUpTo(w, g, mint, remaining, i).value, w.records[remaining[2 * i]].totalDeposited;
            ListUpTo(w, g, mint, remaining, i + 1)
            == if l.total + deposit > U64_MAX then Err(ArithmeticOverflow)
               else Ok(Listing(l.deposits + [deposit], l.total + deposit))
  {
    hide PairError, SeqTotal;
  }

  lemma PairStored(w: World, g: Key, mint: Key, remaining: seq<Key>, i: nat)
    requires 2 * i + 1 < |remaining|
    ensures PairError(w, g, mint, remaining, i).None? ==> remaining[2 * i] in w.records
  {
    hide ListedBefore;
  }

  lemma ListedSize(remaining: seq<Key>)
    ensures |Listed(remaining)| == |remaining| / 2
  {
  }

  /** The records seen so far are those of the earlier pairs. */
  lemma SeenBefore(remaining: seq<Key>, i: nat)
    requires |remaining| % 2 == 0 && 2 * i + 1 < |remaining|
    ensures remaining[2 * i] in Listed(remaining)[..i] <==> ListedBefore(remaining, i)
    ensures Listed(remaining)[..i + 1] == Listed(remaining)[..i] + [remaining[2 * i]]
  {
    var seen := Listed(remaining)[..i];
    assert forall j :: 0 <= j < i ==> seen[j] == remaining[2 * j];
  }

  /** The settlement lines a validation pass has collected. */
  ghost predicate Collected(l: Result<Listing>, settled: seq<MemberSettled>, total: u64) {
    && l.Ok? && total == l.value.total && |settled| == |l.value.deposits|
    && forall k :: 0 <= k < |settled| ==> settled[k].deposited == settled[k].payout == l.value.deposits[k]
  }

  lemma CollectedNothing(w: World, g: Key, mint: Key, remaining: seq<Key>)
    ensures Collected(ListUpTo(w, g, mint, remaining, 0), [], 0) && Listed(remaining)[..0] == []
  {
  }

  function PayoutsOf(settled: seq<MemberSettled>): seq<u64> {
    seq(|settled|, k requires 0 <= k < |settled| => settled[k].payout)
  }

  lemma PayoutsNone(settled: seq<MemberSettled>)
    ensures PayoutsOf(settled[..0]) == []
  {
  }

  lemma PayoutsNext(settled: seq<MemberSettled>, before: seq<MemberSettled>, i: nat)
    requires i < |settled| == |before| && settled[..i] == before[..i]
    ensures PayoutsOf(settled[..i + 1]) == PayoutsOf(before[..i]) + [settled[i].payout]
  {
    assert settled[..i + 1][..i] == before[..i];
    forall k | 0 <= k < i ensures settled[k] == before[k] {
      assert settled[..i][k] == before[..i][k];
    }
  }

  /** What payout number `i` comes to: the deposit, or for the last one whatever the vault holds. */
  function AmountDue(now: Tokens, v: Key, deposits: seq<u64>, i: nat): u64
    requires v in now && i < |deposits|
  {
    if i + 1 == |deposits| then now[v].amount else deposits[i]
  }

  lemma PayNext(tokens: Tokens, v: Key, remaining: seq<Key>, deposits: seq<u64>, blocked: set<Key>, mode: Mode, i: nat)
    requires v in tokens && i < |deposits| && |remaining| == 2 * |deposits|
    requires PayUpTo(tokens, v, remaining, deposits, blocked, mode, i).Ok?
    ensures var p := PayUpTo(tokens, v, remaining, deposits, blocked, mode, i).value;
            var next := PayUpTo(tokens, v, remaining, deposits, blocked, mode, i + 1);
            var due := AmountDue(p.tokens, v, deposits, i);
            if mode.ByCancel? && SeqTotal(p.paid) + due > U64_MAX then next == Err(ArithmeticOverflow)
            else if due == 0 then next == Ok(Payrun(p.tokens, p.paid + [due]))
            else if TransferOk(p.tokens, v, Dest(remaining, i), due, blocked) then
              next == Ok(Payrun(Transferred(p.tokens, v, Dest(remaining, i), due), p.paid + [due]))
            else next == Err(TokenProgramError)
  {
    hide SeqTotal, Transferred, TransferOk;
  }

  /** The amounts paid out so far, as a handler keeps them. */
  ghost predicate PaidOutSo(r: Result<Payrun>, now: Tokens, paid: seq<u64>) {
    r == Ok(Payrun(now, paid))
  }

  /** A payout that fails decides the whole run of payouts; any other extends it. */
  lemma PayRound(tokens: Tokens, v: Key, remaining: seq<Key>, deposits: seq<u64>, blocked: set<Key>, mode: Mode,
                 i: nat, now: Tokens, paid: seq<u64>)
    requires v in tokens && i < |deposits| && |remaining| == 2 * |deposits|
    requires PaidOutSo(PayUpTo(tokens, v, remaining, deposits, blocked, mode, i), now, paid)
    ensures v in now
    ensures var due := AmountDue(now, v, deposits, i);
            var next, all := PayUpTo(tokens, v, remaining, deposits, blocked, mode, i + 1),
                             PayUpTo(tokens, v, remaining, deposits, blocked, mode, |deposits|);
            if mode.ByCancel? && SeqTotal(paid) + due > U64_MAX then all == Err(ArithmeticOverflow)
            else if due == 0 then PaidOutSo(next, now, paid + [due])
            else if TransferOk(now, v, Dest(remaining, i), due, blocked) then
              PaidOutSo(next, Transferred(now, v, Dest(remaining, i), due), paid + [due])
            else all == Err(TokenProgramError)
  {
    hide PayUpTo, SeqTotal, Transferred, TransferOk, AmountDue;
    PayNext(tokens, v, remaining, deposits, blocked, mode, i);
    if PayUpTo(tokens, v, remaining, deposits, blocked, mode, i + 1).Err? {
      PayStops(tokens, v, remaining, deposits, blocked, mode, i + 1, |deposits|);
    }
  }

  lemma PaidNone(tokens: Tokens, v: Key, remaining: seq<Key>, deposits: seq<u64>, blocked: set<Key>, mode: Mode)
    requires v in tokens && |remaining| == 2 * |deposits|
    ensures PaidOutSo(PayUpTo(tokens, v, remaining, deposits, blocked, mode, 0), tokens, [])
  {
  }

  lemma ListNothing(w: World, g: Key, mint: Key, remaining: seq<Key>)
    ensures ListUpTo(w, g, mint, remaining, 0) == Ok(Listing([], 0)) && Listed(remaining)[..0] == []
  {
  }

  /** One more pair, as the index loop keeps its amounts. */
  lemma ListRound(w: World, g: Key, mint: Key, remaining: seq<Key>, i: nat, n: nat)
    requires i < n && 2 * n <= |remaining| && ListUpTo(w, g, mint, remaining, i).Ok?
    ensures var l := ListUpTo(w, g, mint, remaining, i).value;
            var e := PairError(w, g, mint, remaining, i);
            && (e.Some? ==> ListUpTo(w, g, mint, remaining, n) == Err(e.value))
            && (e.None? ==>
                  && remaining[2 * i] in w.records
                  && var deposit := w.records[remaining[2 * i]].totalDeposited;
                     if l.total + deposit > U64_MAX then
                       ListUpTo(w, g, mint, remaining, n) == Err(ArithmeticOverflow)
                     else
                       ListUpTo(w, g, mint, remaining, i + 1)
                       == Ok(Listing(l.deposits + [deposit], l.total + deposit)))
  {
    hide ListUpTo, PairError;
    PairStored(w, g, mint, remaining, i);
    if PairError(w, g, mint, remaining, i).Some? {
      ListFails(w, g, mint, remaining, i);
    } else {
      ListAdds(w, g, mint, remaining, i);
    }
    if ListUpTo(w, g, mint, remaining, i + 1).Err? {
      ListStops(w, g, mint, remaining, i + 1, n);
    }
  }

  /** A pair that is rejected, or that takes the sum too far, settles the whole list; any other adds
      its line. */
  lemma CollectStep(w: World, g: Key, mint: Key, remaining: seq<Key>, i: nat, n: nat, settled: seq<MemberSettled>,
      total: u64)
    requires i < n && 2 * n <= |remaining| && Collected(ListUpTo(w, g, mint, remaining, i), settled, total)
    ensures var e := PairError(w, g, mint, remaining, i);
            && (e.Some? ==> ListUpTo(w, g, mint, remaining, n) == Err(e.value))
            && (e.None? ==>
                  && remaining[2 * i] in w.records
                  && var rec := w.records[remaining[2 * i]];
                     if total + rec.totalDeposited > U64_MAX then
                       ListUpTo(w, g, mint, remaining, n) == Err(ArithmeticOverflow)
                     else
                       Collected(ListUpTo(w, g, mint, remaining, i + 1),
                                 settled + [MemberSettled(rec.member, rec.totalDeposited, rec.totalDeposited)],
                                 total + rec.totalDeposited))
  {
    hide ListUpTo, PairError;
    ListRound(w, g, mint, remaining, i, n);
    hide Collected;
    CollectedList(ListUpTo(w, g, mint, remaining, i), settled, total);
    if PairError(w, g, mint, remaining, i).None? {
      var rec := w.records[remaining[2 * i]];
      if total + rec.totalDeposited <= U64_MAX {
        CollectedNext(ListUpTo(w, g, mint, remaining, i).value, settled,
                      MemberSettled(rec.member, rec.totalDeposited, rec.totalDeposited));
      }
    }
  }

  lemma CollectedList(l: Result<Listing>, settled: seq<MemberSettled>, total: u64)
    requires Collected(l, settled, total)
    ensures l.Ok? && l.value.total == total
  {
  }

  lemma CollectedNext(l: Listing, settled: seq<MemberSettled>, line: MemberSettled)
    requires 0 <= l.total <= U64_MAX && l.total + line.deposited <= U64_MAX && line.payout == line.deposited
    requires Collected(Ok(l), settled, l.total)
    ensures Collected(Ok(Listing(l.deposits + [line.deposited], l.total + line.deposited)), settled + [line], l.total
        + line.deposited)
  {
  }

  lemma TotalNone()
    ensures SeqTotal([]) == 0
  {
  }

  lemma TotalLast(paid: seq<nat>, amount: nat)
    ensures SeqTotal(paid + [amount]) == SeqTotal(paid) + amount
  {
    assert (paid + [amount])[..|paid|] == paid;
  }

  /** The lamports of a closed vault wait in the group account. */
  function VaultMoved(lamports: map<Key, nat>, v: Key, g: Key): map<Key, nat> {
    (lamports - {v})[g := At(lamports, g) + At(lamports, v)]
  }

  lemma IsSettled(w: World, g: Key, status: Status, r: Receipt, w': World)
    requires g in w.groups
    requires w'.build == w.build && w'.clock == w.clock && w'.rentRate == w.rentRate && w'.records == w.records
    requires w'.gates == w.gates && w'.tallies == w.tallies && w'.purse == w.purse && w'.tokens == r.tokens
    requires w'.groups == w.groups[g := w.groups[g].(status := status, settledAt := w.clock)]
    requires var v := VaultAddr(g);
             w'.lamports == VaultMoved(w.lamports, v, g)
    ensures w' == SettledAs(w, g, status, r)
  {
  }

  /** Only a group that nobody is in can have a balance nobody is owed. */
  function UnowedVaultBalance(memberCount: nat, vaultBalance: u64): u64 {
    if memberCount == 0 then vaultBalance else 0
  }

  /** Once a payout fails, so does the whole run of payouts. */
  lemma {:induction false} PayStops(tokens: Tokens, v: Key, remaining: seq<Key>, deposits: seq<u64>, blocked: set<Key>,
                                    mode: Mode, i: nat, n: nat)
    requires v in tokens && i <= n <= |deposits| && |remaining| == 2 * |deposits|
    requires PayUpTo(tokens, v, remaining, deposits, blocked, mode, i).Err?
    ensures PayUpTo(tokens, v, remaining, deposits, blocked, mode, n)
         == PayUpTo(tokens, v, remaining, deposits, blocked, mode, i)
  {
    if i < n {
      PayStops(tokens, v, remaining, deposits, blocked, mode, i, n - 1);
    }
  }

  class Program {
    var build: Build
    var clock: i64
    var rentRate: nat
    var groups: map<Key, GroupConfig>
    var records: map<Key, MemberRecord>
    var gates: map<Key, Key>
    var tallies: map<Key, JoinTally>
    var tokens: Tokens
    var lamports: map<Key, nat>
    var purse: map<Key, int>

    /** Everything the program can see, as one value. */
    function State(): World
      reads this
    {
      World(build, clock, rentRate, groups, records, gates, tallies, tokens, lamports, purse)
    }

    constructor (build: Build, rentRate: nat)
      ensures State() == World(build, 0, rentRate, map[], map[], map[], map[], map[], map[], map[])
    {
      this.build, this.rentRate, clock := build, rentRate, 0;
      groups, records, gates, tallies := map[], map[], map[], map[];
      tokens, lamports, purse := map[], map[], map[];
    }

    // ---- what the runtime and the token program do for a handler ----

    /** Anchor `init`: the payer tops the address up to the rent-exempt minimum. */
    method InitAccount(addr: Key, space: nat, payer: Key)
      modifies this`lamports, this`purse
      ensures State() == Fund(old(State()), addr, space, payer)
    {
      hide Fund, Missing;
      FundFields(State(), addr, space, payer);
      var held := At(lamports, addr);
      var missing := Missing(lamports, addr, (128 + space) * rentRate);
      purse := purse[payer := (if payer in purse then purse[payer] else 0) - missing];
      lamports := lamports[addr := held + missing];
    }

    /** Anchor `close`: all lamports at the address go to the receiver. */
    method CloseAccount(addr: Key, receiver: Key)
      modifies this`lamports, this`purse
      ensures State() == Drain(old(State()), addr, receiver)
    {
      purse := purse[receiver := (if receiver in purse then purse[receiver] else 0) + At(lamports, addr)];
      lamports := lamports - {addr};
    }

    /** The token program moves the exact amount or fails. */
    method TransferChecked(from: Key, to: Key, amount: u64, blocked: set<Key>) returns (ok: bool)
      modifies this`tokens
      ensures ok == TransferOk(old(tokens), from, to, amount, blocked)
      ensures tokens == if ok then Transferred(old(tokens), from, to, amount) else old(tokens)
    {
      ok := TransferOk(tokens, from, to, amount, blocked);
      if ok && from != to {
        var debited := tokens[from].amount - amount;
        tokens := tokens[from := tokens[from].(amount := debited)];
        var credited := tokens[to].amount + amount;
        tokens := tokens[to := tokens[to].(amount := credited)];
      }
    }

    // ---- create_group ----

    method CreateGroup(tx: Tx) returns (refused: Option<Error>)
      requires tx.ins.CreateGroup?
      modifies this
      ensures refused == CreateRefusal(old(State()), tx)
      ensures refused.None? ==> State() == Created(old(State()), tx)
    {
      hide Fund;
      var i := tx.ins;
      var g := GroupAddr(i.code);
      var v := VaultAddr(g);
      if i.creator !in tx.signers || i.rentPayer !in tx.signers { return Some(AccountNotSigner); }
      if ProgramOwned(State(), g) || v in tokens { return Some(AccountInUse); }
      InitAccount(g, GROUP_SPACE, i.rentPayer);
      InitAccount(v, VAULT_SPACE, i.rentPayer);
      tokens := tokens[v := TokenAccount(v, i.mint, 0)];

      if !i.mintSupported { return Some(UnsupportedMint); }
      if i.code == "" || |i.code| > 32 { return Some(InvalidGroupCode); }
      var legal := AllCodeChars(i.code);
      if !legal { return Some(InvalidGroupCode); }
      if i.depositAmount == 0 { return Some(InvalidDepositAmount); }
      if i.frequency > MaxFrequency(build) { return Some(InvalidFrequency); }
      if i.totalPeriods < 1 || i.totalPeriods > 52 { return Some(InvalidPeriodCount); }
      if i.maxMembers < 2 || i.maxMembers > 10 { return Some(InvalidGroupSize); }

      groups := groups[g := NewGroup(i)];
      return None;
    }

    // ---- join_group ----

    /** The handler's own checks: the terms the client showed, the gate, and the count approved. */
    method Objection(tx: Tx, group: GroupConfig, joins: u32) returns (refused: Option<Error>)
      requires tx.ins.JoinGroup?
      ensures refused
           == if group.Agreed() != tx.ins.expectedTerms then Some(TermsMismatch)
              else if GateError(State(), tx).Some? then GateError(State(), tx)
              else if tx.ins.expectedJoins.Some? && tx.ins.expectedJoins.value != joins then Some(JoinCountMismatch)
              else None
    {
      var i := tx.ins;
      if group.Agreed() != i.expectedTerms { return Some(TermsMismatch); }
      if GateAddr(i.group) in gates {
        if i.authority != Some(gates[GateAddr(i.group)]) { return Some(JoinNotApproved); }
        if tx.durableNonce { return Some(DurableNonceNotAllowed); }
        if i.expectedJoins.None? { return Some(ExpectedJoinsRequired); }
      }
      if i.expectedJoins.Some? && joins != i.expectedJoins.value { return Some(JoinCountMismatch); }
      return None;
    }

    /** `init` for the record and `init_if_needed` for the tally. */
    method InitRecordAndTally(i: Ins) returns (tally: JoinTally)
      requires i.JoinGroup?
      modifies this`lamports, this`purse
      ensures State() == JoinFunded(old(State()), i)
      ensures tally.joins == JoinsOf(State(), TallyAddr(i.group, i.member))
      ensures TallyAddr(i.group, i.member) in tallies ==> tally == tallies[TallyAddr(i.group, i.member)]
    {
      hide Fund;
      var t := TallyAddr(i.group, i.member);
      InitAccount(MemberAddr(i.group, i.member), RECORD_SPACE, i.rentPayer);
      if t in tallies {
        tally := tallies[t];
      } else {
        InitAccount(t, TALLY_SPACE, i.rentPayer);
        tally := JoinTally(External(0), 0);
      }
    }

    method CheckJoinAccounts(tx: Tx) returns (refused: Option<Error>)
      requires tx.ins.JoinGroup?
      ensures refused == JoinAccountError(State(), tx)
    {
      var i := tx.ins;
      var g := i.group;
      if i.member !in tx.signers || i.rentPayer !in tx.signers { return Some(AccountNotSigner); }
      if i.authority.Some? && i.authority.value !in tx.signers { return Some(AccountNotSigner); }
      if GroupError(State(), g).Some? { return GroupError(State(), g); }
      var group := groups[g];
      var ata := AtaAddr(i.member, group.mint);
      if MemberAddr(g, i.member) in records { return Some(AccountInUse); }
      if ata !in tokens || VaultAddr(g) !in tokens { return Some(AccountNotInitialized); }
      if group.status != Open { return Some(InvalidGroupStatus); }
      if group.currentMembers >= group.maxMembers { return Some(GroupFull); }
      if tokens[ata].owner != i.member || tokens[ata].mint != group.mint { return Some(ConstraintRaw); }
      return None;
    }

    /** Anchor stores the loaded accounts when the handler returns. */
    method WriteBack(g: Key, group: GroupConfig, r: Key, record: MemberRecord, t: Key, tally: JoinTally)
      modifies this`groups, this`records, this`tallies
      ensures groups == old(groups)[g := group]
      ensures records == old(records)[r := record]
      ensures tallies == old(tallies)[t := tally]
    {
      groups := groups[g := group];
      records := records[r := record];
      tallies := tallies[t := tally];
    }

    /** The handler up to the transfer: its checks, and its changes to the loaded accounts. `w` is the
        state before the accounts were funded. */
    method PrepareJoin(tx: Tx, loaded: JoinTally, ghost w: World)
      returns (refused: Option<Error>, group: GroupConfig, tally: JoinTally)
      requires tx.ins.JoinGroup? && JoinAccountError(w, tx).None? && groups == w.groups && gates == w.gates
      requires var t := TallyAddr(tx.ins.group, tx.ins.member);
               loaded.joins == JoinsOf(w, t) && (t in w.tallies ==> loaded == w.tallies[t])
      ensures refused.Some? ==> JoinHandlerError(w, tx) == refused
      ensures refused.None? ==>
                var i, g, c := tx.ins, tx.ins.group, w.groups[tx.ins.group];
                && JoinHandlerError(w, tx)
                   == (if TransferOk(w.tokens, AtaAddr(i.member, c.mint), VaultAddr(g), c.depositAmount,
                       tx.blocked) then None
                       else Some(TokenProgramError))
                && c.currentMembers < U8_MAX && group == c.(currentMembers := c.currentMembers + 1)
                && JoinsOf(w, TallyAddr(g, i.member)) < U32_MAX
                && tally == NextTally(w, TallyAddr(g, i.member), i.rentPayer)
    {
      hide TransferOk, GateError;
      var i := tx.ins;
      assert i.group in groups;
      hide JoinAccountError;
      group, tally := groups[i.group], loaded;
      SameGate(w, State(), tx);
      refused := Objection(tx, group, loaded.joins);
      if refused.Some? { return; }
      if group.currentMembers + 1 > U8_MAX { refused := Some(ArithmeticOverflow); return; }
      group := group.(currentMembers := group.currentMembers + 1);
      var counted := CountJoin(loaded, i.rentPayer);
      if counted.Err? { refused := Some(counted.error); return; }
      tally := counted.value;
    }

    /** The transfer, and the loaded accounts stored. */
    method ApplyJoin(tx: Tx, group: GroupConfig, tally: JoinTally, ghost w: World) returns (ok: bool)
      requires tx.ins.JoinGroup? && tx.ins.group in w.groups && State() == JoinFunded(w, tx.ins)
      requires var g, t := tx.ins.group, TallyAddr(tx.ins.group, tx.ins.member);
               && w.groups[g].currentMembers < U8_MAX && JoinsOf(w, t) < U32_MAX
               && group == w.groups[g].(currentMembers := w.groups[g].currentMembers + 1)
               && tally == NextTally(w, t, tx.ins.rentPayer)
      modifies this`groups, this`records, this`tallies, this`tokens
      ensures ok == TransferOk(w.tokens, AtaAddr(tx.ins.member, group.mint), VaultAddr(tx.ins.group),
                               group.depositAmount, tx.blocked)
      ensures ok ==> LooksJoined(w, tx.ins, State())
    {
      hide JoinFunded, TransferOk, Transferred, NewRecord, NextTally, JoinsOf;
      var i := tx.ins;
      var g := i.group;
      ok := TransferChecked(AtaAddr(i.member, group.mint), VaultAddr(g), group.depositAmount, tx.blocked);
      if !ok { return; }
      TransferFree(w.tokens, AtaAddr(i.member, group.mint), VaultAddr(g), group.depositAmount, tx.blocked);
      WriteBack(g, group, MemberAddr(g, i.member), NewRecord(groups[g], i), TallyAddr(g, i.member), tally);
    }

    method HandleJoin(tx: Tx, loaded: JoinTally, ghost w: World) returns (refused: Option<Error>)
      requires tx.ins.JoinGroup? && JoinAccountError(w, tx).None? && State() == JoinFunded(w, tx.ins)
      requires var t := TallyAddr(tx.ins.group, tx.ins.member);
               loaded.joins == JoinsOf(w, t) && (t in w.tallies ==> loaded == w.tallies[t])
      modifies this`groups, this`records, this`tallies, this`tokens
      ensures refused == JoinHandlerError(w, tx)
      ensures refused.None? ==> JoinRefusal(w, tx).None? && State() == Joined(w, tx)
    {
      hide JoinAccountError, JoinFunded, TransferOk, Joined, JoinHandlerError, NextTally, JoinsOf, JoinRefusal,
           LooksJoined;
      GroupLoaded(w, tx);
      var group, tally;
      refused, group, tally := PrepareJoin(tx, loaded, w);
      if refused.Some? { return; }
      var ok := ApplyJoin(tx, group, tally, w);
      if !ok { return Some(TokenProgramError); }
      BothAccept(w, tx);
      IsJoined(w, tx, State());
    }

    method JoinGroup(tx: Tx) returns (refused: Option<Error>)
      requires tx.ins.JoinGroup?
      modifies this
      ensures refused == JoinRefusal(old(State()), tx)
      ensures refused.None? ==> State() == Joined(old(State()), tx)
    {
      hide JoinFunded, Joined, JoinAccountError, JoinHandlerError;
      ghost var w := State();
      refused := CheckJoinAccounts(tx);
      if refused.Some? { return; }
      var tally := InitRecordAndTally(tx.ins);
      refused := HandleJoin(tx, tally, w);
    }

    // ---- leave_group ----

    method LeaveGroup(tx: Tx) returns (refused: Option<Error>)
      requires tx.ins.LeaveGroup?
      modifies this
      ensures refused == LeaveRefusal(old(State()), tx)
      ensures refused.None? ==> State() == Left(old(State()), tx)
    {
      hide Drain, TransferOk, Transferred, Left;
      ghost var w := State();
      var i := tx.ins;
      var g, r, v := i.group, MemberAddr(i.group, i.member), VaultAddr(i.group);
      if i.member !in tx.signers { return Some(AccountNotSigner); }
      if GroupError(State(), g).Some? { return GroupError(State(), g); }
      if r !in records || i.dest !in tokens || v !in tokens { return Some(AccountNotInitialized); }
      var group, record := groups[g], records[r];
      if group.status != Open { return Some(InvalidGroupStatus); }
      if i.rentPayer != record.rentPayer { return Some(InvalidRentPayer); }
      if tokens[i.dest].mint != group.mint || tokens[i.dest].owner != i.member { return Some(ConstraintRaw); }

      var refund := record.totalDeposited;
      if group.currentMembers < 1 { return Some(ArithmeticOverflow); }
      group := group.(currentMembers := group.currentMembers - 1);
      var ok := TransferChecked(v, i.dest, refund, tx.blocked);
      if !ok { return Some(TokenProgramError); }

      groups := groups[g := group];
      records := records - {r};
      DrainAnyway(w, State(), r, i.rentPayer);
      CloseAccount(r, i.rentPayer);
      IsLeft(w, tx, State());
      return None;
    }

    // ---- start_cycle ----

    method StartCycle(tx: Tx) returns (refused: Option<Error>)
      requires tx.ins.StartCycle?
      modifies this
      ensures refused == StartRefusal(old(State()), tx)
      ensures refused.None? ==> State() == Started(old(State()), tx)
    {
      hide CycleEnd;
      var i := tx.ins;
      if i.creator !in tx.signers { return Some(AccountNotSigner); }
      if GroupError(State(), i.group).Some? { return GroupError(State(), i.group); }
      var group := groups[i.group];
      if i.creator != group.creator { return Some(UnauthorizedCreator); }
      if group.status != Open { return Some(InvalidGroupStatus); }
      if group.currentMembers < 2 { return Some(InsufficientMembers); }

      group := group.(status := Active);
      group := group.(cycleStart := clock);
      var end := CycleEnd(build, group);
      if end.Err? { return Some(end.error); }
      groups := groups[i.group := group];
      return None;
    }

    // ---- deposit ----

    method Deposit(tx: Tx) returns (refused: Option<Error>)
      requires tx.ins.Deposit?
      modifies this
      ensures refused == DepositRefusal(old(State()), tx)
      ensures refused.None? ==> State() == Deposited(old(State()), tx)
    {
      hide PeriodIndex, TransferOk, Transferred;
      var i := tx.ins;
      var g, r, v := i.group, MemberAddr(i.group, i.member), VaultAddr(i.group);
      if i.member !in tx.signers { return Some(AccountNotSigner); }
      if GroupError(State(), g).Some? { return GroupError(State(), g); }
      if r !in records || i.source !in tokens || v !in tokens { return Some(AccountNotInitialized); }
      var c, rec := groups[g], records[r];
      if c.status != Active { return Some(InvalidGroupStatus); }
      if rec.group != g || rec.member != i.member { return Some(ConstraintRaw); }
      if tokens[i.source].mint != c.mint { return Some(InvalidMint); }
      if tokens[i.source].owner != i.member { return Some(ConstraintRaw); }

      var period := PeriodIndex(build, c, clock);
      if period.Err? { return Some(period.error); }
      if period.value >= MAX_PERIODS { return Some(IndexOutOfBounds); }
      if rec.periodsDeposited[period.value] { return Some(AlreadyDeposited); }

      rec := rec.(periodsDeposited := rec.periodsDeposited[period.value := true]);
      if rec.depositsMade + 1 > U8_MAX { return Some(ArithmeticOverflow); }
      rec := rec.(depositsMade := rec.depositsMade + 1);
      if rec.totalDeposited + c.depositAmount > U64_MAX { return Some(ArithmeticOverflow); }
      rec := rec.(totalDeposited := rec.totalDeposited + c.depositAmount);

      var ok := TransferChecked(i.source, v, c.depositAmount, tx.blocked);
      if !ok { return Some(TokenProgramError); }
      records := records[r := rec];
      return None;
    }

    // ---- settlement ----

    /** One pair of a settlement list: early exits in the order of the checks, and the record's
        address added to those seen. The pair is number `i` of the ghost list. */
    method ValidateMemberPair(record: Key, account: Key, group: Key, mint: Key, seen: seq<Key>,
                              ghost remaining: seq<Key>, ghost i: nat)
      returns (r: Result<MemberRecord>, seen': seq<Key>)
      requires 2 * i + 1 < |remaining| && remaining[2 * i] == record && remaining[2 * i + 1] == account
      requires |remaining| % 2 == 0 && i < |Listed(remaining)| && seen == Listed(remaining)[..i]
      ensures r.Err? ==> PairError(State(), group, mint, remaining, i) == Some(r.error)
      ensures r.Ok? ==>
                && PairError(State(), group, mint, remaining, i).None?
                && record in records && r.value == records[record] && seen' == Listed(remaining)[..i + 1]
    {
      hide Listed, ListedBefore;
      seen' := seen;
      SeenBefore(remaining, i);
      if !ProgramOwned(State(), record) { r := Err(InvalidAccountOwner); return; }
      if record !in records { r := Err(InvalidMemberRecord); return; }
      var rec := records[record];
      if rec.group != group { r := Err(InvalidMemberRecord); return; }
      if record != MemberAddr(group, rec.member) { r := Err(InvalidMemberRecord); return; }
      if record in seen { r := Err(DuplicateMemberRecord); return; }
      seen' := seen + [record];
      if account !in tokens { r := Err(AccountNotInitialized); return; }
      if tokens[account].owner != rec.member { r := Err(InvalidTokenAccountOwner); return; }
      if tokens[account].mint != mint { r := Err(InvalidMint); return; }
      r := Ok(rec);
    }

    // ---- distribute ----

    /** The validation pass of `distribute`, over the list two accounts at a time. */
    method CollectSettled(g: Key, mint: Key, remaining: seq<Key>)
      returns (r: Result<seq<MemberSettled>>, totalDeposited: u64)
      requires |remaining| % 2 == 0
      ensures r.Err? ==> ListUpTo(State(), g, mint, remaining, |remaining| / 2) == Err(r.error)
      ensures r.Ok? ==> Collected(ListUpTo(State(), g, mint, remaining, |remaining| / 2), r.value, totalDeposited)
    {
      hide ListUpTo, PairError, Collected, Listed, ListedBefore;
      ghost var w := State();
      var chunks := |remaining| / 2;
      ListedSize(remaining);
      var settled: seq<MemberSettled>, seen: seq<Key> := [], [];
      totalDeposited := 0;
      CollectedNothing(w, g, mint, remaining);
      var i := 0;
      while i < chunks
        invariant 0 <= i <= chunks
        invariant seen == Listed(remaining)[..i]
        invariant Collected(ListUpTo(w, g, mint, remaining, i), settled, totalDeposited)
      {
        var checked;
        checked, seen := ValidateMemberPair(remaining[2 * i], remaining[2 * i + 1], g, mint, seen, remaining, i);
        CollectStep(w, g, mint, remaining, i, chunks, settled, totalDeposited);
        if checked.Err? { r := Err(checked.error); return; }
        var record := checked.value;
        if totalDeposited + record.totalDeposited > U64_MAX { r := Err(ArithmeticOverflow); return; }
        totalDeposited := totalDeposited + record.totalDeposited;
        settled := settled + [MemberSettled(record.member, record.totalDeposited, record.totalDeposited)];
        i := i + 1;
      }
      r := Ok(settled);
    }

    /** The payout pass: each member's deposit, and for the last one the reloaded vault balance. */
    method PaySettled(v: Key, due: seq<MemberSettled>, remaining: seq<Key>, blocked: set<Key>, ghost deposits: seq<u64>)
      returns (refused: Option<Error>, settled: seq<MemberSettled>)
      requires v in tokens && |remaining| == 2 * |due| && |deposits| == |due|
      requires forall k :: 0 <= k < |due| ==> due[k].deposited == due[k].payout == deposits[k]
      modifies this`tokens
      ensures refused.Some? ==>
                PayUpTo(old(tokens), v, remaining, deposits, blocked, ByDistribute, |deposits|) == Err(refused.value)
      ensures refused.None? ==>
                PaidOutSo(PayUpTo(old(tokens), v, remaining, deposits, blocked, ByDistribute, |deposits|), tokens,
                    PayoutsOf(settled))
    {
      hide PayUpTo, PaidOutSo, SeqTotal, Transferred, TransferOk, PayoutsOf;
      ghost var before := tokens;
      settled := due;
      var vaultAmount := tokens[v].amount;
      var last := if |due| > 0 then |due| - 1 else 0;
      PaidNone(before, v, remaining, deposits, blocked, ByDistribute);
      PayoutsNone(settled);
      var i := 0;
      while i < |due|
        invariant 0 <= i <= |due| == |settled|
        invariant PaidOutSo(PayUpTo(before, v, remaining, deposits, blocked, ByDistribute, i), tokens,
            PayoutsOf(settled[..i]))
        invariant forall k :: i <= k < |due| ==> settled[k] == due[k]
      {
        ghost var lines := settled;
        PayRound(before, v, remaining, deposits, blocked, ByDistribute, i, tokens, PayoutsOf(settled[..i]));
        if i == last {
          vaultAmount := tokens[v].amount;
          settled := settled[i := settled[i].(payout := vaultAmount)];
        }
        var amount := settled[i].payout;
        if amount > 0 {
          var ok := TransferChecked(v, remaining[2 * i + 1], amount, blocked);
          if !ok { refused := Some(TokenProgramError); return; }
        }
        PayoutsNext(settled, lines, i);
        i := i + 1;
      }
      assert settled[..|due|] == settled;
      refused := None;
    }

    /** The token program closes an empty account; its lamports go to the group account. */
    method CloseVault(v: Key, g: Key) returns (ok: bool)
      requires v in tokens
      modifies this`tokens, this`lamports
      ensures ok == (old(tokens)[v].amount == 0)
      ensures ok ==> tokens == old(tokens) - {v}
      ensures ok ==> lamports == VaultMoved(old(lamports), v, g)
      ensures !ok ==> tokens == old(tokens) && lamports == old(lamports)
    {
      ok := tokens[v].amount == 0;
      if ok {
        var freed := At(lamports, v);
        var held := At(lamports, g);
        tokens := tokens - {v};
        lamports := (lamports - {v})[g := held + freed];
      }
    }

    /** The interactions of `distribute`: the transfers, the vault closed, the sum in the event. */
    method PayAndCloseActive(v: Key, g: Key, due: seq<MemberSettled>, remaining: seq<Key>, blocked: set<Key>,
                             ghost deposits: seq<u64>)
      returns (refused: Option<Error>)
      requires v in tokens && |remaining| == 2 * |due| && |deposits| == |due|
      requires forall k :: 0 <= k < |due| ==> due[k].deposited == due[k].payout == deposits[k]
      modifies this`tokens, this`lamports
      ensures var r := PayAndClose(old(tokens), v, remaining, deposits, blocked, ByDistribute, 0);
              && refused == Refused(r)
              && (r.Ok? ==> tokens == r.value.tokens && lamports == VaultMoved(old(lamports), v, g))
    {
      hide PayUpTo, SeqTotal, PayoutsOf, VaultMoved;
      var failed, settled := PaySettled(v, due, remaining, blocked, deposits);
      if failed.Some? { return failed; }
      var ok := CloseVault(v, g);
      if !ok { return Some(TokenProgramError); }
      var totalPaid := TotalPaid(settled);
      if totalPaid.Err? { return Some(totalPaid.error); }
      return None;
    }

    /** From the account list to the closed vault. */
    method SettleActive(g: Key, remaining: seq<Key>, blocked: set<Key>) returns (refused: Option<Error>)
      requires g in groups && VaultAddr(g) in tokens
      modifies this
      ensures refused == Refused(Settle(old(State()), g, remaining, blocked, ByDistribute))
      ensures refused.None? ==>
                State() == SettledAs(old(State()), g, Completed,
                                     Settle(old(State()), g, remaining, blocked, ByDistribute).value)
    {
      hide ListUpTo, PayAndClose, SettledAs, VaultMoved;
      ghost var w := State();
      var v, group := VaultAddr(g), groups[g];
      if |remaining| != 2 * group.currentMembers { return Some(MemberCountMismatch); }
      var collected, totalDeposited := CollectSettled(g, group.mint, remaining);
      if collected.Err? { return Some(collected.error); }
      if tokens[v].amount < totalDeposited { return Some(VaultShortfall); }

      group := group.(status := Completed);
      group := group.(settledAt := clock);

      ghost var deposits := ListUpTo(w, g, group.mint, remaining, group.currentMembers).value.deposits;
      refused := PayAndCloseActive(v, g, collected.value, remaining, blocked, deposits);
      if refused.Some? { return; }
      groups := groups[g := group];
      IsSettled(w, g, Completed, Settle(w, g, remaining, blocked, ByDistribute).value, State());
    }

    method Distribute(tx: Tx) returns (refused: Option<Error>)
      requires tx.ins.Distribute?
      modifies this
      ensures refused == Refused(DistributeReceipt(old(State()), tx))
      ensures refused.None? ==>
                tx.ins.group in old(State()).groups
                && State() == SettledAs(old(State()), tx.ins.group, Completed,
                    DistributeReceipt(old(State()), tx).value)
    {
      hide Settle, SettledAs, CycleEnd;
      var i := tx.ins;
      if i.payer !in tx.signers { return Some(AccountNotSigner); }
      if GroupError(State(), i.group).Some? { return GroupError(State(), i.group); }
      if VaultAddr(i.group) !in tokens { return Some(AccountNotInitialized); }
      if groups[i.group].status != Active { return Some(InvalidGroupStatus); }
      var end := CycleEnd(build, groups[i.group]);
      if end.Err? { return Some(end.error); }
      if clock < end.value { return Some(CycleNotEnded); }
      refused := SettleActive(i.group, i.remaining, tx.blocked);
    }

    // ---- emergency_cancel ----

    /** The first pass of `emergency_cancel`, by index. */
    method ReadDeposits(g: Key, mint: Key, remaining: seq<Key>, memberCount: nat)
      returns (r: Result<seq<u64>>, totalDeposited: u64)
      requires |remaining| == 2 * memberCount
      ensures r.Err? ==> ListUpTo(State(), g, mint, remaining, memberCount) == Err(r.error)
      ensures r.Ok? ==> ListUpTo(State(), g, mint, remaining, memberCount) == Ok(Listing(r.value, totalDeposited))
    {
      hide ListUpTo, PairError, Listed, ListedBefore;
      ghost var w := State();
      var refundAmounts: seq<u64>, seen: seq<Key> := [], [];
      totalDeposited := 0;
      ListedSize(remaining);
      ListNothing(w, g, mint, remaining);
      for i := 0 to memberCount
        invariant seen == Listed(remaining)[..i]
        invariant ListUpTo(w, g, mint, remaining, i) == Ok(Listing(refundAmounts, totalDeposited))
      {
        var recordIdx := 2 * i;
        var tokenIdx := recordIdx + 1;
        var checked;
        checked, seen := ValidateMemberPair(remaining[recordIdx], remaining[tokenIdx], g, mint, seen, remaining, i);
        ListRound(w, g, mint, remaining, i, memberCount);
        if checked.Err? { r := Err(checked.error); return; }
        var record := checked.value;
        if totalDeposited + record.totalDeposited > U64_MAX { r := Err(ArithmeticOverflow); return; }
        totalDeposited := totalDeposited + record.totalDeposited;
        refundAmounts := refundAmounts + [record.totalDeposited];
      }
      r := Ok(refundAmounts);
    }

    /** The refunds, each added to the running total before its transfer. */
    method RefundMembers(v: Key, refundAmounts: seq<u64>, remaining: seq<Key>, blocked: set<Key>, ghost mode: Mode)
      returns (refused: Option<Error>, refundedTotal: u64, ghost paid: seq<u64>)
      requires v in tokens && |remaining| == 2 * |refundAmounts| && mode.ByCancel?
      modifies this`tokens
      ensures refused.Some? ==>
                PayUpTo(old(tokens), v, remaining, refundAmounts, blocked, mode, |refundAmounts|) == Err(refused.value)
      ensures refused.None? ==>
                && PaidOutSo(PayUpTo(old(tokens), v, remaining, refundAmounts, blocked, mode, |refundAmounts|),
                    tokens, paid)
                && refundedTotal == SeqTotal(paid)
    {
      hide PayUpTo, PaidOutSo, SeqTotal, Transferred, TransferOk;
      ghost var before := tokens;
      refundedTotal, paid := 0, [];
      PaidNone(before, v, remaining, refundAmounts, blocked, mode);
      TotalNone();
      for i := 0 to |refundAmounts|
        invariant PaidOutSo(PayUpTo(before, v, remaining, refundAmounts, blocked, mode, i), tokens, paid)
        invariant refundedTotal == SeqTotal(paid)
      {
        PayRound(before, v, remaining, refundAmounts, blocked, mode, i, tokens, paid);
        var amount := if i == |refundAmounts| - 1 then tokens[v].amount else refundAmounts[i];
        if refundedTotal + amount > U64_MAX { refused := Some(ArithmeticOverflow); return; }
        refundedTotal := refundedTotal + amount;
        TotalLast(paid, amount);
        if amount > 0 {
          var ok := TransferChecked(v, remaining[2 * i + 1], amount, blocked);
          if !ok { refused := Some(TokenProgramError); return; }
        }
        paid := paid + [amount];
      }
      refused := None;
    }

    /** `burn_checked`, which takes no more than the account holds. */
    method BurnChecked(v: Key, amount: u64, blocked: set<Key>) returns (ok: bool)
      requires v in tokens
      modifies this`tokens
      ensures ok == (v !in blocked && amount <= old(tokens)[v].amount)
      ensures ok ==> tokens == old(tokens)[v := old(tokens)[v].(amount := old(tokens)[v].amount - amount)]
      ensures !ok ==> tokens == old(tokens)
    {
      ok := v !in blocked && amount <= tokens[v].amount;
      if ok {
        var left := tokens[v].amount - amount;
        tokens := tokens[v := tokens[v].(amount := left)];
      }
    }

    /** The end of a cancel: what nobody deposited is burned, and the vault closes empty. */
    method BurnAndClose(v: Key, g: Key, unowed: u64, blocked: set<Key>) returns (ok: bool)
      requires v in tokens
      modifies this`tokens, this`lamports
      ensures ok == ((unowed > 0 ==> v !in blocked) && old(tokens)[v].amount == unowed)
      ensures ok ==> tokens == old(tokens) - {v}
      ensures ok ==> lamports == VaultMoved(old(lamports), v, g)
    {
      if unowed > 0 {
        ok := BurnChecked(v, unowed, blocked);
        if !ok { return; }
      }
      ok := CloseVault(v, g);
    }

    /** The interactions of `emergency_cancel`: the refunds, the burn, the vault closed. */
    method PayAndCloseCancelled(v: Key, g: Key, refundAmounts: seq<u64>, unowed: u64, remaining: seq<Key>,
                                blocked: set<Key>, ghost mode: Mode)
      returns (refused: Option<Error>)
      requires v in tokens && |remaining| == 2 * |refundAmounts| && mode.ByCancel?
      modifies this`tokens, this`lamports
      ensures var r := PayAndClose(old(tokens), v, remaining, refundAmounts, blocked, mode, unowed);
              && refused == Refused(r)
              && (r.Ok? ==> tokens == r.value.tokens && lamports == VaultMoved(old(lamports), v, g))
    {
      hide PayUpTo, SeqTotal, VaultMoved;
      var refundedTotal;
      ghost var paid;
      refused, refundedTotal, paid := RefundMembers(v, refundAmounts, remaining, blocked, mode);
      if refused.Some? { return; }
      var ok := BurnAndClose(v, g, unowed, blocked);
      refused := if ok then None else Some(TokenProgramError);
    }

    method SettleCancelled(g: Key, remaining: seq<Key>, blocked: set<Key>, mintWritable: bool)
      returns (refused: Option<Error>)
      requires g in groups && VaultAddr(g) in tokens
      modifies this
      ensures refused == Refused(Settle(old(State()), g, remaining, blocked, ByCancel(mintWritable)))
      ensures refused.None? ==>
                State() == SettledAs(old(State()), g, Cancelled,
                                     Settle(old(State()), g, remaining, blocked, ByCancel(mintWritable)).value)
    {
      hide ListUpTo, PayAndClose, SettledAs, VaultMoved;
      ghost var w := State();
      var v, group := VaultAddr(g), groups[g];
      var memberCount: nat := group.currentMembers;
      if |remaining| != 2 * memberCount { return Some(MemberCountMismatch); }
      var amounts, totalDeposited := ReadDeposits(g, group.mint, remaining, memberCount);
      if amounts.Err? { return Some(amounts.error); }
      if tokens[v].amount < totalDeposited { return Some(VaultShortfall); }
      var unowed := UnowedVaultBalance(memberCount, tokens[v].amount);
      if unowed > 0 && !mintWritable { return Some(MintNotWritable); }

      group := group.(status := Cancelled);
      group := group.(settledAt := clock);

      refused := PayAndCloseCancelled(v, g, amounts.value, unowed, remaining, blocked, ByCancel(mintWritable));
      if refused.Some? { return; }
      groups := groups[g := group];
      IsSettled(w, g, Cancelled, Settle(w, g, remaining, blocked, ByCancel(mintWritable)).value, State());
    }

    method EmergencyCancel(tx: Tx) returns (refused: Option<Error>)
      requires tx.ins.EmergencyCancel?
      modifies this
      ensures refused == Refused(CancelReceipt(old(State()), tx))
      ensures refused.None? ==>
                tx.ins.group in old(State()).groups
                && State() == SettledAs(old(State()), tx.ins.group, Cancelled, CancelReceipt(old(State()), tx).value)
    {
      hide Settle, SettledAs;
      var i := tx.ins;
      if i.creator !in tx.signers { return Some(AccountNotSigner); }
      if GroupError(State(), i.group).Some? { return GroupError(State(), i.group); }
      if VaultAddr(i.group) !in tokens { return Some(AccountNotInitialized); }
      if i.creator != groups[i.group].creator { return Some(UnauthorizedCreator); }
      if Settled(groups[i.group].status) { return Some(InvalidGroupStatus); }
      refused := SettleCancelled(i.group, i.remaining, tx.blocked, i.mintWritable);
    }

    // ---- refund_vault_rent ----

    method RefundVaultRent(tx: Tx) returns (refused: Option<Error>)
      requires tx.ins.RefundVaultRent?
      modifies this
      ensures refused == RefundRefusal(old(State()), tx)
      ensures refused.None? ==> State() == Refunded(old(State()), tx)
    {
      var g, payer := tx.ins.group, tx.ins.rentPayer;
      if GroupError(State(), g).Some? { return GroupError(State(), g); }
      if !Settled(groups[g].status) { return Some(InvalidGroupStatus); }
      if payer != groups[g].rentPayer { return Some(InvalidRentPayer); }

      var floor := (128 + GROUP_SPACE) * rentRate;
      var surplus := if At(lamports, g) > floor then At(lamports, g) - floor else 0;
      lamports := lamports[g := At(lamports, g) - surplus];
      purse := purse[payer := (if payer in purse then purse[payer] else 0) + surplus];
      return None;
    }

    // ---- close_member_record ----

    method CloseMemberRecord(tx: Tx) returns (refused: Option<Error>)
      requires tx.ins.CloseMemberRecord?
      modifies this
      ensures refused == CloseRecordRefusal(old(State()), tx)
      ensures refused.None? ==> State() == RecordClosed(old(State()), tx)
    {
      hide RetentionEnd;
      var i := tx.ins;
      if GroupError(State(), i.group).Some? { return GroupError(State(), i.group); }
      if i.record !in records { return Some(AccountNotInitialized); }
      var group, record := groups[i.group], records[i.record];
      if !Settled(group.status) { return Some(InvalidGroupStatus); }
      var end := RetentionEnd(build, group.settledAt);
      if end.Err? { return Some(end.error); }
      if clock < end.value { return Some(RecordRetentionNotElapsed); }
      if i.record != MemberAddr(i.group, record.member) { return Some(ConstraintSeeds); }
      if i.rentPayer != record.rentPayer { return Some(InvalidRentPayer); }

      if group.currentMembers < 1 { return Some(ArithmeticOverflow); }
      group := group.(currentMembers := group.currentMembers - 1);
      groups := groups[i.group := group];
      records := records - {i.record};
      CloseAccount(i.record, i.rentPayer);
      return None;
    }

    // ---- close_group ----

    method CloseGroup(tx: Tx) returns (refused: Option<Error>)
      requires tx.ins.CloseGroup?
      modifies this
      ensures refused == CloseGroupRefusal(old(State()), tx)
      ensures refused.None? ==> State() == GroupClosed(old(State()), tx)
    {
      hide Drain, GroupClosed;
      ghost var w := State();
      var g, payer := tx.ins.group, tx.ins.rentPayer;
      if GroupError(State(), g).Some? { return GroupError(State(), g); }
      if !Settled(groups[g].status) { return Some(InvalidGroupStatus); }
      if groups[g].currentMembers != 0 { return Some(GroupHasOpenRecords); }
      if payer != groups[g].rentPayer { return Some(InvalidRentPayer); }

      if GateAddr(g) in gates {
        CloseAccount(GateAddr(g), payer);
        ghost var u := State();
        gates := gates - {GateAddr(g)};
        DrainAnyway(u, State(), g, payer);
      }
      CloseAccount(g, payer);
      groups := groups - {g};
      IsGroupClosed(w, tx, State());
      return None;
    }

    // ---- set_join_authority ----

    method SetJoinAuthority(tx: Tx) returns (refused: Option<Error>)
      requires tx.ins.SetJoinAuthority?
      modifies this
      ensures refused == GateRefusal(old(State()), tx)
      ensures refused.None? ==> State() == Gated(old(State()), tx)
    {
      hide Fund;
      var i := tx.ins;
      var gate := GateAddr(i.group);
      if i.creator !in tx.signers || i.rentPayer !in tx.signers { return Some(AccountNotSigner); }
      if GroupError(State(), i.group).Some? { return GroupError(State(), i.group); }
      var group := groups[i.group];
      if gate in gates { return Some(AccountInUse); }
      InitAccount(gate, GATE_SPACE, i.rentPayer);
      if group.status != Open { return Some(InvalidGroupStatus); }
      if group.currentMembers != 0 { return Some(GroupHasMembers); }
      if i.creator != group.creator { return Some(UnauthorizedCreator); }
      if i.rentPayer != group.rentPayer { return Some(InvalidRentPayer); }

      if i.newAuthority == SystemProgram || i.newAuthority == ThisProgram { return Some(InvalidJoinAuthority); }
      gates := gates[gate := i.newAuthority];
      return None;
    }

    // ---- close_join_tally ----

    method CloseJoinTally(tx: Tx) returns (refused: Option<Error>)
      requires tx.ins.CloseJoinTally?
      modifies this
      ensures refused == CloseTallyRefusal(old(State()), tx)
      ensures refused.None? ==> State() == TallyClosed(old(State()), tx)
    {
      hide Drain;
      var t := TallyAddr(tx.ins.group, tx.ins.member);
      if t !in tallies { return Some(AccountNotInitialized); }
      if ProgramOwned(State(), tx.ins.group) { return Some(GroupNotClosed); }
      if tx.ins.rentPayer != tallies[t].rentPayer { return Some(InvalidRentPayer); }
      CloseAccount(t, tx.ins.rentPayer);
      tallies := tallies - {t};
      return None;
    }

    // ---- transactions ----

    method Dispatch(tx: Tx) returns (refused: Option<Error>)
      modifies this
      ensures refused == Refusal(old(State()), tx)
      ensures refused.None? ==> State() == After(old(State()), tx)
    {
      hide CreateRefusal, JoinRefusal, LeaveRefusal, StartRefusal, DepositRefusal, DistributeReceipt, CancelReceipt,
           RefundRefusal, CloseRecordRefusal, CloseGroupRefusal, GateRefusal, CloseTallyRefusal, SettledAs;
      match tx.ins
      case CreateGroup(_, _, _, _, _, _, _, _, _) => refused := CreateGroup(tx);
      case JoinGroup(_, _, _, _, _, _) => refused := JoinGroup(tx);
      case LeaveGroup(_, _, _, _) => refused := LeaveGroup(tx);
      case StartCycle(_, _) => refused := StartCycle(tx);
      case Deposit(_, _, _) => refused := Deposit(tx);
      case Distribute(_, _, _) => refused := Distribute(tx);
      case EmergencyCancel(_, _, _, _) => refused := EmergencyCancel(tx);
      case RefundVaultRent(_, _) => refused := RefundVaultRent(tx);
      case CloseMemberRecord(_, _, _) => refused := CloseMemberRecord(tx);
      case CloseGroup(_, _) => refused := CloseGroup(tx);
      case SetJoinAuthority(_, _, _, _) => refused := SetJoinAuthority(tx);
      case CloseJoinTally(_, _, _) => refused := CloseJoinTally(tx);
    }

    /** Whatever a handler changed before it failed, the runtime undoes. */
    method Restore(w: World)
      modifies this
      ensures State() == w
    {
      build, clock, rentRate := w.build, w.clock, w.rentRate;
      groups, records, gates, tallies := w.groups, w.records, w.gates, w.tallies;
      tokens, lamports, purse := w.tokens, w.lamports, w.purse;
    }

    /** A transaction is refused with the first error its checks meet and then changes nothing, or it
        succeeds and leaves exactly what its instruction specifies. */
    method Execute(tx: Tx) returns (refused: Option<Error>)
      modifies this
      ensures refused == Refusal(old(State()), tx)
      ensures State() == if refused.None? then After(old(State()), tx) else old(State())
    {
      hide Refusal, After;
      var before := State();
      refused := Dispatch(tx);
      if refused.Some? {
        Restore(before);
      }
    }
  }

  /** One more join; the one that finds the count at zero writes the payer. */
  method CountJoin(tally: JoinTally, payer: Key) returns (r: Result<JoinTally>)
    ensures r == if tally.joins == U32_MAX then Err(ArithmeticOverflow)
                 else Ok(JoinTally(if tally.joins == 0 then payer else tally.rentPayer, tally.joins + 1))
  {
    var next := tally;
    if next.joins == 0 {
      next := next.(rentPayer := payer);
    }
    if next.joins + 1 > U32_MAX { return Err(ArithmeticOverflow); }
    next := next.(joins := next.joins + 1);
    return Ok(next);
  }

  /** The sum in the settlement event, with every addition checked. */
  method TotalPaid(settled: seq<MemberSettled>) returns (r: Result<u64>)
    ensures r == if SeqTotal(PayoutsOf(settled)) > U64_MAX then Err(ArithmeticOverflow)
        else Ok(SeqTotal(PayoutsOf(settled)))
  {
    var total: u64 := 0;
    var i := 0;
    ghost var paid := PayoutsOf(settled);
    while i < |settled|
      invariant 0 <= i <= |settled|
      invariant total == SeqTotal(paid[..i])
    {
      SeqTotalPrefix(paid, i + 1);
      assert paid[..i + 1][..i] == paid[..i];
      if total + settled[i].payout > U64_MAX { return Err(ArithmeticOverflow); }
      total := total + settled[i].payout;
      i := i + 1;
    }
    assert paid[..i] == paid;
    return Ok(total);
  }

  /** Every character of a group code is a letter, a digit or a hyphen. */
  method AllCodeChars(code: string) returns (legal: bool)
    ensures legal == CodeChars(code)
  {
    var k := 0;
    while k < |code|
      invariant 0 <= k <= |code|
      invariant forall j :: 0 <= j < k ==> CodeChar(code[j])
    {
      if !CodeChar(code[k]) { return false; }
      k := k + 1;
    }
    return true;
  }
}
