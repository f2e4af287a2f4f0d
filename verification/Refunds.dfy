/** Calling `refund_vault_rent` early, late or never makes no difference to anyone in the end. */
module Refunds {
  import opened Machine
  import opened Sums
  import opened Ledger
  import opened GroupTime
  import opened Settlement
  import opened Instructions
  import opened Balances
  import opened Audit
  import opened Payments
  import opened Settling
  import opened Safety
  import opened Tallies
  import opened Rent

  /** Two worlds that differ only in lamports and purses. */
  ghost predicate UpToLamports(w: World, u: World) {
    u == w.(lamports := u.lamports, purse := u.purse)
  }

  predicate AgreeAt(m: map<Key, nat>, n: map<Key, nat>, x: Key) {
    && (x in m <==> x in n)
    && (x in m ==> m[x] == n[x])
  }

  /** Two worlds that differ only in what the group account at `g` holds while the group lives, and in
      what wallets have been paid. */
  ghost predicate Twins(w: World, u: World, g: Key) {
    && g.GroupAddr? && UpToLamports(w, u)
    && forall x :: x != g || g !in w.groups ==> AgreeAt(w.lamports, u.lamports, x)
  }

  // ---- no instruction looks at lamports before it decides ----

  lemma SamePair(w: World, u: World, g: Key, mint: Key, remaining: seq<Key>, i: nat)
    requires UpToLamports(w, u) && 2 * i + 1 < |remaining|
    ensures PairError(u, g, mint, remaining, i) == PairError(w, g, mint, remaining, i) && u.records == w.records
  {
    hide ListedBefore;
  }

  lemma {:induction false} SameListing(w: World, u: World, g: Key, mint: Key, remaining: seq<Key>, n: nat)
    requires UpToLamports(w, u) && 2 * n <= |remaining|
    ensures ListUpTo(u, g, mint, remaining, n) == ListUpTo(w, g, mint, remaining, n)
  {
    hide PairError, UpToLamports, SeqTotal;
    if n > 0 {
      SameListing(w, u, g, mint, remaining, n - 1);
      SamePair(w, u, g, mint, remaining, n - 1);
    }
  }

  lemma SameSettlement(w: World, u: World, g: Key, remaining: seq<Key>, blocked: set<Key>, mode: Mode)
    requires UpToLamports(w, u) && g in w.groups && VaultAddr(g) in w.tokens
    ensures Settle(u, g, remaining, blocked, mode) == Settle(w, g, remaining, blocked, mode)
  {
    if |remaining| == 2 * w.groups[g].currentMembers {
      SameListing(w, u, g, w.groups[g].mint, remaining, w.groups[g].currentMembers);
    }
    hide ListUpTo, PayUpTo;
  }

  lemma SameReceipts(w: World, u: World, tx: Tx)
    requires UpToLamports(w, u)
    ensures tx.ins.Distribute? ==> DistributeReceipt(u, tx) == DistributeReceipt(w, tx)
    ensures tx.ins.EmergencyCancel? ==> CancelReceipt(u, tx) == CancelReceipt(w, tx)
  {
    if tx.ins.Distribute? || tx.ins.EmergencyCancel? {
      if tx.ins.group in w.groups && VaultAddr(tx.ins.group) in w.tokens {
        SameSettlement(w, u, tx.ins.group, tx.ins.remaining, tx.blocked, SettleMode(tx.ins));
      }
      hide Settle, CycleEnd;
    }
  }

  lemma SamePaymentRefusal(w: World, u: World, tx: Tx)
    requires UpToLamports(w, u)
    ensures tx.ins.JoinGroup? ==> JoinRefusal(u, tx) == JoinRefusal(w, tx)
    ensures tx.ins.LeaveGroup? ==> LeaveRefusal(u, tx) == LeaveRefusal(w, tx)
    ensures tx.ins.Deposit? ==> DepositRefusal(u, tx) == DepositRefusal(w, tx)
  {
    hide TransferOk, PeriodIndex;
  }

  lemma SameRefusal(w: World, u: World, tx: Tx)
    requires UpToLamports(w, u)
    ensures Refusal(u, tx) == Refusal(w, tx)
  {
    SameReceipts(w, u, tx);
    SamePaymentRefusal(w, u, tx);
    hide DistributeReceipt, CancelReceipt, JoinRefusal, LeaveRefusal, DepositRefusal, CycleEnd, RetentionEnd;
  }

  // ---- every step keeps twins twins ----

  /** The same address funded in both. */
  lemma TwinFunded(w: World, u: World, g: Key, x: Key, space: nat, payer: Key)
    requires Twins(w, u, g) && (x == g ==> g !in w.groups)
    ensures Twins(Fund(w, x, space, payer), Fund(u, x, space, payer), g)
  {
    assert AgreeAt(w.lamports, u.lamports, x);
    var w', u' := Fund(w, x, space, payer), Fund(u, x, space, payer);
    assert UpToLamports(w', u');
    forall y | y != g || g !in w.groups ensures AgreeAt(w'.lamports, u'.lamports, y) {
      assert AgreeAt(w.lamports, u.lamports, y);
    }
  }

  /** The same address drained in both. */
  lemma TwinDrained(w: World, u: World, g: Key, x: Key, payer: Key)
    requires Twins(w, u, g)
    ensures Twins(Drain(w, x, payer), Drain(u, x, payer), g)
    ensures x == g ==> forall y :: AgreeAt(Drain(w, x, payer).lamports, Drain(u, x, payer).lamports, y)
  {
    var w', u' := Drain(w, x, payer), Drain(u, x, payer);
    assert UpToLamports(w', u');
    forall y | y != g || g !in w.groups || x == g ensures AgreeAt(w'.lamports, u'.lamports, y) {
      assert y != g || g !in w.groups ==> AgreeAt(w.lamports, u.lamports, y);
    }
  }

  lemma TwinCreated(w: World, u: World, tx: Tx, g: Key)
    requires Twins(w, u, g) && tx.ins.CreateGroup? && CreateRefusal(w, tx).None?
    ensures Twins(Created(w, tx), Created(u, tx), g)
  {
    assert Target(tx.ins) !in w.groups;
    var i := tx.ins;
    var c, v := Target(i), VaultAddr(Target(i));
    TwinFunded(w, u, g, c, GROUP_SPACE, i.rentPayer);
    TwinFunded(Fund(w, c, GROUP_SPACE, i.rentPayer), Fund(u, c, GROUP_SPACE, i.rentPayer), g, v, VAULT_SPACE,
        i.rentPayer);
    hide Fund, CreateRefusal;
  }

  /** Twins stay twins when nothing but the accounts' contents changes, and changes alike. */
  lemma TwinsCarry(w: World, u: World, w': World, u': World, g: Key)
    requires Twins(w, u, g) && UpToLamports(w', u')
    requires w'.lamports == w.lamports && u'.lamports == u.lamports && (g !in w'.groups ==> g !in w.groups)
    ensures Twins(w', u', g)
  {
  }

  lemma SameTally(w: World, u: World, t: Key, payer: Key)
    requires UpToLamports(w, u) && JoinsOf(w, t) < U32_MAX
    ensures JoinsOf(u, t) == JoinsOf(w, t) && NextTally(u, t, payer) == NextTally(w, t, payer)
  {
  }

  lemma SameJoined(w: World, u: World, tx: Tx)
    requires UpToLamports(w, u) && tx.ins.JoinGroup? && JoinRefusal(w, tx).None? && JoinRefusal(u, tx).None?
    ensures UpToLamports(Joined(w, tx), Joined(u, tx))
    ensures tx.ins.group in w.groups && Joined(w, tx).groups.Keys == w.groups.Keys
    ensures Joined(w, tx).lamports == JoinFunded(w, tx.ins).lamports
    ensures Joined(u, tx).lamports == JoinFunded(u, tx.ins).lamports
  {
    hide JoinRefusal, Joined, JoinFunded, NewRecord, Transferred, TransferOk, NextTally;
    JoinPassed(w, tx);
    JoinPassed(u, tx);
    JoinedFields(w, tx);
    JoinedFields(u, tx);
    JoinedLamports(w, tx);
    JoinedLamports(u, tx);
    JoinCounts(w, tx);
    JoinCounts(u, tx);
    SameTally(w, u, TallyAddr(tx.ins.group, tx.ins.member), tx.ins.rentPayer);
  }

  lemma TwinJoinFunded(w: World, u: World, i: Ins, g: Key)
    requires Twins(w, u, g) && i.JoinGroup?
    ensures Twins(JoinFunded(w, i), JoinFunded(u, i), g)
    ensures JoinFunded(w, i).groups == w.groups
  {
    var r, t := MemberAddr(i.group, i.member), TallyAddr(i.group, i.member);
    TwinFunded(w, u, g, r, RECORD_SPACE, i.rentPayer);
    TwinFunded(Fund(w, r, RECORD_SPACE, i.rentPayer), Fund(u, r, RECORD_SPACE, i.rentPayer), g, t, TALLY_SPACE,
        i.rentPayer);
    hide Fund;
  }

  lemma TwinJoined(w: World, u: World, tx: Tx, g: Key)
    requires Twins(w, u, g) && tx.ins.JoinGroup? && JoinRefusal(w, tx).None? && JoinRefusal(u, tx).None?
    ensures Twins(Joined(w, tx), Joined(u, tx), g)
  {
    hide JoinRefusal, Joined, JoinFunded, AgreeAt;
    SameJoined(w, u, tx);
    TwinJoinFunded(w, u, tx.ins, g);
    TwinsCarry(JoinFunded(w, tx.ins), JoinFunded(u, tx.ins), Joined(w, tx), Joined(u, tx), g);
  }

  /** An instruction that drains one address and keeps every group account open. */
  lemma TwinClosed(w: World, u: World, w': World, u': World, g: Key, x: Key, payer: Key)
    requires Twins(w, u, g) && UpToLamports(w', u') && w'.groups.Keys == w.groups.Keys
    requires w'.lamports == Drain(w, x, payer).lamports && u'.lamports == Drain(u, x, payer).lamports
    ensures Twins(w', u', g)
  {
    TwinDrained(w, u, g, x, payer);
    hide Drain;
    assert g in w.groups.Keys <==> g in w'.groups.Keys;
  }

  lemma TwinLeft(w: World, u: World, tx: Tx, g: Key)
    requires Twins(w, u, g) && tx.ins.LeaveGroup? && LeaveRefusal(w, tx).None? && LeaveRefusal(u, tx).None?
    ensures Twins(Left(w, tx), Left(u, tx), g)
  {
    hide AgreeAt, Drain;
    TwinClosed(w, u, Left(w, tx), Left(u, tx), g, MemberAddr(tx.ins.group, tx.ins.member), tx.ins.rentPayer);
  }

  lemma TwinRecordClosed(w: World, u: World, tx: Tx, g: Key)
    requires Twins(w, u, g) && tx.ins.CloseMemberRecord?
    requires CloseRecordRefusal(w, tx).None? && CloseRecordRefusal(u, tx).None?
    ensures Twins(RecordClosed(w, tx), RecordClosed(u, tx), g)
  {
    hide AgreeAt, Drain;
    TwinClosed(w, u, RecordClosed(w, tx), RecordClosed(u, tx), g, tx.ins.record, tx.ins.rentPayer);
  }

  lemma TwinTallyClosed(w: World, u: World, tx: Tx, g: Key)
    requires Twins(w, u, g) && tx.ins.CloseJoinTally?
    ensures Twins(TallyClosed(w, tx), TallyClosed(u, tx), g)
  {
    hide AgreeAt, Drain;
    TwinClosed(w, u, TallyClosed(w, tx), TallyClosed(u, tx), g,
               TallyAddr(tx.ins.group, tx.ins.member), tx.ins.rentPayer);
  }

  lemma TwinGroupClosed(w: World, u: World, tx: Tx, g: Key)
    requires Twins(w, u, g) && tx.ins.CloseGroup?
    ensures Twins(GroupClosed(w, tx), GroupClosed(u, tx), g)
  {
    var h, gate, payer := tx.ins.group, GateAddr(tx.ins.group), tx.ins.rentPayer;
    var w1, u1 := if gate in w.gates then Drain(w, gate, payer) else w, if gate in w.gates then Drain(u, gate, payer)
        else u;
    TwinDrained(w, u, g, gate, payer);
    TwinDrained(w1, u1, g, h, payer);
    assert GroupClosed(w, tx).lamports == Drain(w1, h, payer).lamports;
    assert GroupClosed(u, tx).lamports == Drain(u1, h, payer).lamports;
    assert UpToLamports(GroupClosed(w, tx), GroupClosed(u, tx));
    hide Drain, AgreeAt;
  }

  lemma TwinGated(w: World, u: World, tx: Tx, g: Key)
    requires Twins(w, u, g) && tx.ins.SetJoinAuthority?
    ensures Twins(Gated(w, tx), Gated(u, tx), g)
  {
    TwinFunded(w, u, g, GateAddr(tx.ins.group), GATE_SPACE, tx.ins.rentPayer);
    hide Fund, AgreeAt;
  }

  lemma TwinRefunded(w: World, u: World, tx: Tx, g: Key)
    requires Twins(w, u, g) && tx.ins.RefundVaultRent? && tx.ins.group in w.groups
    ensures Twins(Refunded(w, tx), Refunded(u, tx), g)
  {
    hide RentFloor;
    assert UpToLamports(Refunded(w, tx), Refunded(u, tx));
    assert RentFloor(u, GROUP_SPACE) == RentFloor(w, GROUP_SPACE) by { SameFloor(w, u); }
    forall x | x != g || g !in w.groups ensures AgreeAt(Refunded(w, tx).lamports, Refunded(u, tx).lamports, x) {
      assert AgreeAt(w.lamports, u.lamports, x);
    }
  }

  lemma SameFloor(w: World, u: World)
    requires UpToLamports(w, u)
    ensures RentFloor(u, GROUP_SPACE) == RentFloor(w, GROUP_SPACE)
  {
  }

  lemma TwinSettled(w: World, u: World, h: Key, status: Status, r: Receipt, g: Key)
    requires Twins(w, u, g) && h in w.groups
    ensures Twins(SettledAs(w, h, status, r), SettledAs(u, h, status, r), g)
  {
    var w', u' := SettledAs(w, h, status, r), SettledAs(u, h, status, r);
    assert UpToLamports(w', u');
    assert VaultAddr(h) != g;
    forall x | x != g || g !in w.groups ensures AgreeAt(w'.lamports, u'.lamports, x) {
      assert AgreeAt(w.lamports, u.lamports, x);
      assert AgreeAt(w.lamports, u.lamports, VaultAddr(h));
    }
  }

  lemma TwinAfter(w: World, u: World, tx: Tx, g: Key)
    requires Twins(w, u, g) && Refusal(w, tx).None? && Refusal(u, tx).None?
    ensures Twins(After(w, tx), After(u, tx), g)
  {
    SameReceipts(w, u, tx);
    hide DistributeReceipt, CancelReceipt, Twins;
    match tx.ins
    case CreateGroup(_, _, _, _, _, _, _, _, _) => TwinCreated(w, u, tx, g);
    case JoinGroup(_, _, _, _, _, _) => TwinJoined(w, u, tx, g);
    case LeaveGroup(_, _, _, _) => TwinLeft(w, u, tx, g);
    case StartCycle(_, _) => TwinsCarry(w, u, Started(w, tx), Started(u, tx), g);
    case Deposit(_, _, _) => TwinDeposited(w, u, tx, g);
    case Distribute(_, _, _) =>
      SettlesHere(w, tx);
      TwinSettled(w, u, tx.ins.group, Completed, DistributeReceipt(w, tx).value, g);
    case EmergencyCancel(_, _, _, _) =>
      SettlesHere(w, tx);
      TwinSettled(w, u, tx.ins.group, Cancelled, CancelReceipt(w, tx).value, g);
    case RefundVaultRent(_, _) => TwinRefunded(w, u, tx, g);
    case CloseMemberRecord(_, _, _) => TwinRecordClosed(w, u, tx, g);
    case CloseGroup(_, _) => TwinGroupClosed(w, u, tx, g);
    case SetJoinAuthority(_, _, _, _) => TwinGated(w, u, tx, g);
    case CloseJoinTally(_, _, _) => TwinTallyClosed(w, u, tx, g);
  }

  lemma TwinDeposited(w: World, u: World, tx: Tx, g: Key)
    requires Twins(w, u, g) && tx.ins.Deposit? && DepositRefusal(w, tx).None? && DepositRefusal(u, tx).None?
    ensures Twins(Deposited(w, tx), Deposited(u, tx), g)
  {
    assert UpToLamports(Deposited(w, tx), Deposited(u, tx)) by { hide PeriodIndex; }
    hide DepositRefusal, AgreeAt;
    TwinsCarry(w, u, Deposited(w, tx), Deposited(u, tx), g);
  }

  lemma TwinOutside(w: World, u: World, e: Env, g: Key)
    requires Twins(w, u, g) && EnvOk(w, e)
    ensures EnvOk(u, e) && Twins(EnvAfter(w, e), EnvAfter(u, e), g)
  {
    hide Supply;
    assert UpToLamports(EnvAfter(w, e), EnvAfter(u, e));
    forall x | x != g || g !in w.groups ensures AgreeAt(EnvAfter(w, e).lamports, EnvAfter(u, e).lamports, x) {
      assert AgreeAt(w.lamports, u.lamports, x);
    }
  }

  lemma TwinsAgree(w: World, u: World, g: Key, x: Key)
    requires Twins(w, u, g) && (x == g ==> g !in w.groups)
    ensures At(u.lamports, x) == At(w.lamports, x)
  {
    assert AgreeAt(w.lamports, u.lamports, x);
  }

  lemma TwinPayers(w: World, u: World, g: Key, x: Key)
    requires Twins(w, u, g)
    ensures Payer(u, x) == Payer(w, x) && u.tallies == w.tallies && u.groups == w.groups && g.GroupAddr?
  {
    hide AgreeAt;
  }

  lemma NotThereYet(w: World, ev: Event)
    requires Happens(w, ev) && ev.Program? && ev.tx.ins.CreateGroup?
    ensures Target(ev.tx.ins) !in w.groups
  {
  }

  lemma TwinWindfall(w: World, u: World, ev: Event, g: Key, p: Key)
    requires Twins(w, u, g) && Happens(w, ev)
    ensures Windfall(u, ev, p) == Windfall(w, ev, p)
  {
    hide Twins, Happens, AgreeAt, Payer, At;
    TwinPayers(w, u, g, g);
    if ev.Outside? {
      TwinPayers(w, u, g, if ev.env.SendLamports? then ev.env.to else g);
    } else {
      var ins := ev.tx.ins;
      if ins.CreateGroup? {
        NotThereYet(w, ev);
        TwinsAgree(w, u, g, Target(ins));
        TwinsAgree(w, u, g, VaultAddr(Target(ins)));
      } else if ins.JoinGroup? {
        TwinsAgree(w, u, g, MemberAddr(ins.group, ins.member));
        TwinsAgree(w, u, g, TallyAddr(ins.group, ins.member));
      } else {
        TwinsAgree(w, u, g, GateAddr(Target(ins)));
      }
    }
  }

  ghost predicate TwinAudits(a: Audit, b: Audit, g: Key) {
    Twins(a.world, b.world, g) && forall p :: Gift(b, p) == Gift(a, p)
  }

  lemma TwinStep(a: Audit, b: Audit, ev: Event, g: Key)
    requires TwinAudits(a, b, g)
    ensures TwinAudits(Step(a, ev), Step(b, ev), g)
    ensures Happens(b.world, ev) <==> Happens(a.world, ev)
  {
    TwinHappens(a.world, b.world, ev, g);
    StepParts(a, ev);
    StepParts(b, ev);
    hide Step, Happens, Gift, Next, Twins, Windfall;
    if Happens(a.world, ev) {
      forall p ensures Windfall(b.world, ev, p) == Windfall(a.world, ev, p) {
        TwinWindfall(a.world, b.world, ev, g, p);
      }
    }
  }

  lemma TwinsSwap(w: World, u: World, g: Key)
    requires Twins(w, u, g)
    ensures Twins(u, w, g)
  {
    forall x | x != g || g !in u.groups ensures AgreeAt(u.lamports, w.lamports, x) {
      assert AgreeAt(w.lamports, u.lamports, x);
    }
  }

  lemma TwinHappens(w: World, u: World, ev: Event, g: Key)
    requires Twins(w, u, g)
    ensures Happens(w, ev) <==> Happens(u, ev)
    ensures Twins(Next(w, ev), Next(u, ev), g)
  {
    TwinsSwap(w, u, g);
    match ev
    case Program(tx) =>
      SameRefusal(w, u, tx);
      hide Refusal, After, Twins;
      if Refusal(w, tx).None? { TwinAfter(w, u, tx, g); }
    case Outside(e) =>
      hide EnvOk, EnvAfter, Twins;
      if EnvOk(w, e) { TwinOutside(w, u, e, g); }
      if EnvOk(u, e) { TwinOutside(u, w, e, g); }
  }

  lemma {:induction false} TwinRun(a: Audit, b: Audit, events: seq<Event>, g: Key)
    requires TwinAudits(a, b, g)
    ensures TwinAudits(Run(a, events), Run(b, events), g)
    decreases |events|
  {
    if events != [] {
      var n := |events| - 1;
      TwinRun(a, b, events[..n], g);
      hide Step, TwinAudits;
      TwinStep(Run(a, events[..n]), Run(b, events[..n]), events[n], g);
    }
  }

  lemma ReachableRun(a: Audit, events: seq<Event>)
    requires Reachable(a)
    ensures Reachable(Run(a, events))
  {
    var build, rentRate, first :| a == Run(Genesis(build, rentRate), first);
    RunConcat(Genesis(build, rentRate), first, events);
  }

  lemma RefundTwins(a: Audit, refund: Tx)
    requires refund.ins.RefundVaultRent? && Refusal(a.world, refund).None?
    ensures TwinAudits(a, Step(a, Program(refund)), refund.ins.group)
  {
    StepParts(a, Program(refund));
    var w, w', g := a.world, Refunded(a.world, refund), refund.ins.group;
    assert Step(a, Program(refund)).world == w';
    hide Step, Gift, RentFloor;
    assert g in w.groups && g.GroupAddr?;
    forall x | x != g ensures AgreeAt(w.lamports, w'.lamports, x) {
    }
  }

  lemma RefundRuns(a: Audit, refund: Tx, events: seq<Event>)
    requires Reachable(a) && refund.ins.RefundVaultRent? && Refusal(a.world, refund).None?
    ensures Reachable(Run(a, events)) && Reachable(Run(Step(a, Program(refund)), events))
    ensures TwinAudits(Run(a, events), Run(Step(a, Program(refund)), events), refund.ins.group)
  {
    RefundTwins(a, refund);
    var ev := Program(refund);
    assert Run(a, [ev]) == Step(a, ev) by {
      assert [ev][..0] == [];
      hide Step;
    }
    hide *;
    ReachableRun(a, [ev]);
    ReachableRun(a, events);
    ReachableRun(Step(a, ev), events);
    TwinRun(a, Step(a, ev), events, refund.ins.group);
  }

  lemma TwinsEqual(w: World, u: World, g: Key)
    requires Twins(w, u, g) && g !in w.groups
    ensures u.lamports == w.lamports
  {
    forall x ensures (x in u.lamports <==> x in w.lamports) && (x in w.lamports ==> u.lamports[x] == w.lamports[x]) {
      assert AgreeAt(w.lamports, u.lamports, x);
    }
    assert u.lamports.Keys == w.lamports.Keys;
  }

  lemma TwinParts(a: Audit, b: Audit, g: Key, p: Key)
    requires TwinAudits(a, b, g)
    ensures Twins(a.world, b.world, g) && UpToLamports(a.world, b.world) && Gift(b, p) == Gift(a, p)
  {
    hide AgreeAt;
  }

  /** Take any run and add one accepted `refund_vault_rent` anywhere in it. Every later event is
      accepted or refused as before and leaves the same accounts; every wallet's lamports, counted
      with what is held for it, are the same; and once the group is closed the two runs agree on
      every lamport. */
  lemma RefundWhenever(a: Audit, refund: Tx, events: seq<Event>, later: Event, p: Key)
    requires Reachable(a) && refund.ins.RefundVaultRent? && Refusal(a.world, refund).None?
    ensures var w, u := Run(a, events).world, Run(Step(a, Program(refund)), events).world;
            && UpToLamports(w, u) && (Happens(u, later) <==> Happens(w, later))
            && Purse(u, p) + Held(u, p) == Purse(w, p) + Held(w, p)
            && (refund.ins.group !in w.groups ==> u.lamports == w.lamports && Purse(u, p) == Purse(w, p))
  {
    hide *;
    var x, y := Run(a, events), Run(Step(a, Program(refund)), events);
    RefundRuns(a, refund, events);
    TwinParts(x, y, refund.ins.group, p);
    TwinHappens(x.world, y.world, later, refund.ins.group);
    RentConserved(x, p);
    RentConserved(y, p);
    if refund.ins.group !in x.world.groups {
      TwinsEqual(x.world, y.world, refund.ins.group);
      HeldAlike(x.world, y.world, p);
    }
  }

  lemma HeldAlike(w: World, u: World, p: Key)
    requires UpToLamports(w, u) && u.lamports == w.lamports
    ensures Held(u, p) == Held(w, p)
  {
    assert Escrow(u, p) == Escrow(w, p);
  }
}
