/** Every step of every run keeps the invariant. */
module Safety {
  import opened Machine
  import opened Sums
  import opened Ledger
  import opened GroupTime
  import opened Settlement
  import opened Instructions
  import opened Balances
  import opened Audit
  import opened Invariant
  import opened Membership
  import opened Payments
  import opened Payouts
  import opened Settling

  // ---- program steps, one group at a time ----

  /** Whatever the instruction, it touches one group, and keeps that one's invariant. */
  lemma TargetOnly(a: Audit, tx: Tx)
    requires LocalInv(a) && Refusal(a.world, tx).None?
    ensures TargetKept(a, tx, After(a.world, tx))
  {
    var w := a.world;
    hide LocalInv, TargetKept;
    match tx.ins
    case CreateGroup(_, _, _, _, _, _, _, _, _) => CreateKeeps(a, tx);
    case JoinGroup(_, _, _, _, _, _) => JoinKeeps(a, tx);
    case LeaveGroup(_, _, _, _) => LeaveKeeps(a, tx);
    case StartCycle(_, _) => StartKeeps(a, tx);
    case Deposit(_, _, _) => DepositKeeps(a, tx);
    case Distribute(_, _, _) => SettleKeeps(a, tx, ByDistribute, Completed);
    case EmergencyCancel(_, _, _, writable) => SettleKeeps(a, tx, ByCancel(writable), Cancelled);
    case RefundVaultRent(_, _) => RefundKeeps(a, tx);
    case CloseMemberRecord(_, _, _) => CloseRecordKeeps(a, tx);
    case CloseGroup(_, _) => CloseGroupKeeps(a, tx);
    case SetJoinAuthority(_, _, _, _) => GateKeeps(a, tx);
    case CloseJoinTally(_, _, _) => CloseTallyKeeps(a, tx);
  }

  /** A step that leaves other groups alone and keeps its own keeps them all. */
  lemma ProgramKeeps(a: Audit, tx: Tx)
    requires LocalInv(a) && Refusal(a.world, tx).None?
    ensures LocalInv(Step(a, Program(tx)))
  {
    hide Refusal, After, NextBook, GroupInv, Target, SliceInv, SliceOf, Step, BookOf;
    TargetOnly(a, tx);
    ProgramBooks(a, tx);
    var w', g, a' := After(a.world, tx), Target(tx.ins), Step(a, Program(tx));
    forall h ensures SliceInv(w'.build, h, SliceOf(w', h), BookOf(a', h)) {
      assert SliceInv(a.world.build, h, SliceOf(a.world, h), BookOf(a, h));
      if h != g {
        assert SliceOf(w', h) == SliceOf(a.world, h);
      }
    }
  }

  /** A step writes in the book of its own group and in no other. */
  lemma ProgramBooks(a: Audit, tx: Tx)
    requires Refusal(a.world, tx).None?
    ensures var a', g := Step(a, Program(tx)), Target(tx.ins);
            && a'.world == After(a.world, tx)
            && BookOf(a', g) == NextBook(a.world, tx, After(a.world, tx), BookOf(a, g))
            && forall h :: h != g ==> BookOf(a', h) == BookOf(a, h)
  {
    hide Refusal, After, NextBook, Target;
  }

  // ---- outside steps ----

  /** Nobody outside can take from a vault or change whose it is. */
  lemma OutsideVault(w: World, e: Env, g: Key)
    requires EnvOk(w, e)
    ensures var w' := EnvAfter(w, e);
            var v := VaultAddr(g);
            && (v in w'.tokens <==> v in w.tokens)
            && (v in w.tokens ==> w'.tokens[v].owner == w.tokens[v].owner && w'.tokens[v].mint == w.tokens[v].mint)
            && VaultAmount(w', g) >= VaultAmount(w, g)
  {
  }

  lemma OutsideLocal(build: Build, g: Key, s: Slice, b: Book, s': Slice, b': Book, delta: nat)
    requires SliceInv(build, g, s, b)
    requires s'.group == s.group && s'.records == s.records && s'.gate == s.gate
    requires s'.vault.Some? <==> s.vault.Some?
    requires s.vault.Some? ==> s'.vault.value.owner == s.vault.value.owner && s'.vault.value.mint == s.vault.value.mint
                               && s'.vault.value.amount == s.vault.value.amount + delta
    requires s.vault.None? ==> delta == 0
    requires b' == b.(donated := b.donated + delta)
    ensures SliceInv(build, g, s', b')
  {
    if s.group.Some? {
      var c := s.group.value;
      Parts(build, g, c, s, b);
      OutsideMoney(g, c, s, b, s', b', delta);
      hide MoneyInv, RecordInv, ConfigInv;
      RecordsKept(build, c, c, g, s.gate, s.records, b, b');
      hide RecordsInv;
      Assemble(build, g, c, s', b');
    }
  }

  lemma OutsideMoney(g: Key, c: GroupConfig, s: Slice, b: Book, s': Slice, b': Book, delta: nat)
    requires MoneyInv(g, c, s, b)
    requires s'.records == s.records && (s'.vault.Some? <==> s.vault.Some?)
    requires s.vault.Some? ==> s'.vault.value.owner == s.vault.value.owner && s'.vault.value.mint == s.vault.value.mint
                               && s'.vault.value.amount == s.vault.value.amount + delta
    requires s.vault.None? ==> delta == 0
    requires b' == b.(donated := b.donated + delta)
    ensures MoneyInv(g, c, s', b')
  {
    assert forall k :: Net(b', k) == Net(b, k);
  }

  lemma OutsideSlice(a: Audit, e: Env, g: Key)
    requires LocalInv(a) && EnvOk(a.world, e)
    ensures SliceInv(a.world.build, g, SliceOf(EnvAfter(a.world, e), g), BookOf(Step(a, Outside(e)), g))
  {
    var w, w' := a.world, EnvAfter(a.world, e);
    assert SliceInv(w.build, g, SliceOf(w, g), BookOf(a, g));
    OutsideVault(w, e, g);
    OutsideFrame(w, e);
    OutsideNotes(a, e, g);
    RecordsSame(w, w');
    hide EnvOk, EnvAfter, SliceInv, Step, LocalInv, RecordsOf;
    OutsideLocal(w.build, g, SliceOf(w, g), BookOf(a, g), SliceOf(w', g), BookOf(Step(a, Outside(e)), g),
                 VaultAmount(w', g) - VaultAmount(w, g));
  }

  lemma OutsideFrame(w: World, e: Env)
    requires EnvOk(w, e)
    ensures var w' := EnvAfter(w, e);
            w'.groups == w.groups && w'.records == w.records && w'.gates == w.gates && w'.build == w.build
  {
  }

  lemma OutsideNotes(a: Audit, e: Env, g: Key)
    requires EnvOk(a.world, e)
    ensures Step(a, Outside(e)).world == EnvAfter(a.world, e)
    ensures BookOf(Step(a, Outside(e)), g)
         == Donated(BookOf(a, g), VaultAmount(EnvAfter(a.world, e), g) - VaultAmount(a.world, g))
  {
    hide EnvOk, EnvAfter, VaultAmount, Donated, Windfall, Gift;
  }

  lemma OutsideKeeps(a: Audit, e: Env)
    requires LocalInv(a) && EnvOk(a.world, e)
    ensures LocalInv(Step(a, Outside(e)))
  {
    OutsideFrame(a.world, e);
    OutsideNotes(a, e, SystemProgram);
    hide EnvOk, EnvAfter, SliceInv, Step;
    var a' := Step(a, Outside(e));
    forall g ensures SliceInv(a'.world.build, g, SliceOf(a'.world, g), BookOf(a', g)) {
      OutsideSlice(a, e, g);
    }
  }

  // ---- supply ----

  lemma {:induction false} PaySupply(tokens: Tokens, v: Key, remaining: seq<Key>, deposits: seq<u64>,
                                     blocked: set<Key>, mode: Mode, n: nat, m: Key)
    requires v in tokens && n <= |deposits| && |remaining| == 2 * |deposits|
    requires PayUpTo(tokens, v, remaining, deposits, blocked, mode, n).Ok?
    ensures Supply(PayUpTo(tokens, v, remaining, deposits, blocked, mode, n).value.tokens, m) == Supply(tokens, m)
  {
    if n > 0 {
      LastRound(tokens, v, remaining, deposits, blocked, mode, n);
      hide PayUpTo, SeqTotal, Supply;
      PaySupply(tokens, v, remaining, deposits, blocked, mode, n - 1, m);
      var p := PayUpTo(tokens, v, remaining, deposits, blocked, mode, n - 1).value;
      var r := PayUpTo(tokens, v, remaining, deposits, blocked, mode, n).value;
      OnePaySupply(p.tokens, v, Dest(remaining, n - 1), r.paid[n - 1], blocked, r.tokens, m);
    }
  }

  lemma OnePaySupply(now: Tokens, v: Key, to: Key, amount: u64, blocked: set<Key>, next: Tokens, m: Key)
    requires Pay(now, v, to, amount, blocked) == Some(next)
    ensures Supply(next, m) == Supply(now, m)
  {
    if amount > 0 {
      SumTransfer(now, v, to, amount, OfMint(m));
    }
  }

  lemma SettleSupply(w: World, g: Key, remaining: seq<Key>, blocked: set<Key>, mode: Mode, m: Key)
    requires g in w.groups && VaultAddr(g) in w.tokens && Settle(w, g, remaining, blocked, mode).Ok?
    ensures Supply(Settle(w, g, remaining, blocked, mode).value.tokens, m) <= Supply(w.tokens, m)
  {
    var v := VaultAddr(g);
    var l := ListUpTo(w, g, w.groups[g].mint, remaining, w.groups[g].currentMembers).value;
    PaySupply(w.tokens, v, remaining, l.deposits, blocked, mode, |l.deposits|, m);
    SumDrop(PayUpTo(w.tokens, v, remaining, l.deposits, blocked, mode, |l.deposits|).value.tokens, v, OfMint(m));
  }

  lemma CreateSupply(w: World, tx: Tx, m: Key)
    requires tx.ins.CreateGroup? && CreateRefusal(w, tx).None?
    ensures Supply(Created(w, tx).tokens, m) == Supply(w.tokens, m)
  {
    var v := VaultAddr(Target(tx.ins));
    PutEmpty(w.tokens, v, TokenAccount(v, tx.ins.mint, 0), m);
  }

  lemma JoinSupply(w: World, tx: Tx, m: Key)
    requires tx.ins.JoinGroup? && JoinRefusal(w, tx).None?
    ensures Supply(Joined(w, tx).tokens, m) == Supply(w.tokens, m)
  {
    var c := w.groups[tx.ins.group];
    TransferSupply(w.tokens, AtaAddr(tx.ins.member, c.mint), VaultAddr(tx.ins.group), c.depositAmount, m);
  }

  lemma LeaveSupply(w: World, tx: Tx, m: Key)
    requires tx.ins.LeaveGroup? && LeaveRefusal(w, tx).None?
    ensures Supply(Left(w, tx).tokens, m) == Supply(w.tokens, m)
  {
    var r := MemberAddr(tx.ins.group, tx.ins.member);
    TransferSupply(w.tokens, VaultAddr(tx.ins.group), tx.ins.dest, w.records[r].totalDeposited, m);
  }

  lemma DepositSupply(w: World, tx: Tx, m: Key)
    requires tx.ins.Deposit? && DepositRefusal(w, tx).None?
    ensures Supply(Deposited(w, tx).tokens, m) == Supply(w.tokens, m)
  {
    hide PeriodIndex;
    TransferSupply(w.tokens, tx.ins.source, VaultAddr(tx.ins.group), w.groups[tx.ins.group].depositAmount, m);
  }

  /** No instruction mints; a settlement of an empty group may burn. */
  lemma ProgramSupply(w: World, tx: Tx, m: Key)
    requires Refusal(w, tx).None?
    ensures Supply(After(w, tx).tokens, m) <= Supply(w.tokens, m)
  {
    hide Supply, Settle, SettledAs, CreateRefusal, Created, JoinRefusal, Joined, LeaveRefusal, Left,
         DepositRefusal, Deposited;
    match tx.ins
    case CreateGroup(_, _, _, _, _, _, _, _, _) => CreateSupply(w, tx, m);
    case JoinGroup(_, _, _, _, _, _) => JoinSupply(w, tx, m);
    case LeaveGroup(_, _, _, _) => LeaveSupply(w, tx, m);
    case Deposit(_, _, _) => DepositSupply(w, tx, m);
    case Distribute(g, _, remaining) =>
      SettleSupply(w, g, remaining, tx.blocked, ByDistribute, m);
      SettledTokens(w, g, Completed, DistributeReceipt(w, tx).value);
    case EmergencyCancel(g, _, remaining, writable) =>
      SettleSupply(w, g, remaining, tx.blocked, ByCancel(writable), m);
      SettledTokens(w, g, Cancelled, CancelReceipt(w, tx).value);
    case _ =>
  }

  lemma SettledTokens(w: World, g: Key, status: Status, r: Receipt)
    requires g in w.groups
    ensures SettledAs(w, g, status, r).tokens == r.tokens
  {
  }

  lemma TransferSupply(tokens: Tokens, from: Key, to: Key, amount: u64, m: Key)
    requires TransferOk(tokens, from, to, amount, {})
    ensures Supply(Transferred(tokens, from, to, amount), m) == Supply(tokens, m)
  {
    SumTransfer(tokens, from, to, amount, OfMint(m));
  }

  lemma PutEmpty(tokens: Tokens, k: Key, t: TokenAccount, m: Key)
    requires k !in tokens && t.amount == 0
    ensures Supply(tokens[k := t], m) == Supply(tokens, m)
  {
    SumPut(tokens, k, t, OfMint(m));
  }

  lemma OutsideSupply(w: World, e: Env, m: Key)
    requires EnvOk(w, e) && SupplyInv(w)
    ensures Supply(EnvAfter(w, e).tokens, m) <= U64_MAX
  {
    assert Supply(w.tokens, m) <= U64_MAX;
    match e
    case SendTokens(from, to, amount) => TransferSupply(w.tokens, from, to, amount, m);
    case MintTokens(to, amount) =>
      MintFits(w, to, amount);
      SumPut(w.tokens, to, w.tokens[to].(amount := w.tokens[to].amount + amount), OfMint(m));
    case OpenTokenAccount(addr, owner, mint) => PutEmpty(w.tokens, addr, TokenAccount(owner, mint, 0), m);
    case SetTokenOwner(addr, newOwner) => SumPut(w.tokens, addr, w.tokens[addr].(owner := newOwner), OfMint(m));
    case BurnTokens(from, amount) =>
      SumPut(w.tokens, from, w.tokens[from].(amount := w.tokens[from].amount - amount), OfMint(m));
    case CloseTokenAccount(addr) => SumDrop(w.tokens, addr, OfMint(m));
    case _ =>
  }

  // ---- every run ----

  lemma StepKeeps(a: Audit, ev: Event)
    requires Inv(a)
    ensures Inv(Step(a, ev))
  {
    if Happens(a.world, ev) {
      var a' := Step(a, ev);
      hide LocalInv, Supply, After, EnvAfter;
      match ev
      case Program(tx) =>
        ProgramKeeps(a, tx);
        forall m ensures Supply(a'.world.tokens, m) <= U64_MAX {
          ProgramSupply(a.world, tx, m);
        }
      case Outside(e) =>
        OutsideKeeps(a, e);
        forall m ensures Supply(a'.world.tokens, m) <= U64_MAX {
          OutsideSupply(a.world, e, m);
        }
    }
  }

  lemma GenesisInv(build: Build, rentRate: nat)
    ensures Inv(Genesis(build, rentRate))
  {
    var a := Genesis(build, rentRate);
    forall g ensures SliceInv(build, g, SliceOf(a.world, g), BookOf(a, g)) {
      assert RecordsOf(a.world, g) == map[];
    }
    forall m ensures Supply(a.world.tokens, m) == 0 {
      assert Amounts(a.world.tokens, OfMint(m)) == map[];
    }
  }

  /** The invariant holds after any events whatever, in any order. */
  lemma {:induction false} RunKeeps(a: Audit, events: seq<Event>)
    requires Inv(a)
    ensures Inv(Run(a, events))
    decreases |events|
  {
    if events != [] {
      RunKeeps(a, events[..|events| - 1]);
      StepKeeps(Run(a, events[..|events| - 1]), events[|events| - 1]);
    }
  }

  /** States the program can be in. */
  ghost predicate Reachable(a: Audit) {
    exists build, rentRate, events :: a == Run(Genesis(build, rentRate), events)
  }

  lemma ReachableInv(a: Audit)
    requires Reachable(a)
    ensures Inv(a)
  {
    var build, rentRate, events :| a == Run(Genesis(build, rentRate), events);
    GenesisInv(build, rentRate);
    RunKeeps(Genesis(build, rentRate), events);
  }
}
