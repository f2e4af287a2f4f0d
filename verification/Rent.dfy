/** Lamports are conserved per payer: what a wallet paid as rent it has received back, or live accounts
    hold it for that wallet. */
module Rent {
  import opened Machine
  import opened Sums
  import opened Ledger
  import opened GroupTime
  import opened Settlement
  import opened Instructions
  import opened Audit
  import opened Invariant
  import opened Payments
  import opened Settling
  import opened Safety
  import opened Tallies

  /** What `p` is up by, counting what live accounts still hold for it. */
  ghost function Stake(w: World, p: Key): int {
    Purse(w, p) + Held(w, p)
  }

  /** The lamports at one address that are recorded to `p`. */
  function Claim(w: World, x: Key, p: Key): nat {
    if Payer(w, x) == Some(p) then At(w.lamports, x) else 0
  }

  // ---- two addresses at a time ----

  ghost predicate PayersKept(w: World, w': World, a: Key, b: Key) {
    forall x :: x != a && x != b ==> Payer(w', x) == Payer(w, x)
  }

  lemma EscrowOffTwo(w: World, w': World, a: Key, b: Key, p: Key)
    requires w'.lamports - {a, b} == w.lamports - {a, b} && PayersKept(w, w', a, b)
    ensures Escrow(w', p) - {a, b} == Escrow(w, p) - {a, b}
  {
    hide Payer;
    forall x | x != a && x != b
      ensures x in Escrow(w, p) <==> x in Escrow(w', p)
      ensures x in Escrow(w, p) ==> Escrow(w, p)[x] == Escrow(w', p)[x]
    {
      assert Payer(w', x) == Payer(w, x);
      assert x in w.lamports <==> x in w.lamports - {a, b};
      assert x in w'.lamports <==> x in w'.lamports - {a, b};
    }
  }

  lemma ClaimInEscrow(w: World, x: Key, p: Key)
    ensures At(Escrow(w, p), x) == Claim(w, x, p)
  {
    hide Payer;
  }

  /** No instruction touches the lamports of more than two addresses. */
  lemma HeldOffTwo(w: World, w': World, a: Key, b: Key, p: Key)
    requires a != b && w'.lamports - {a, b} == w.lamports - {a, b} && PayersKept(w, w', a, b)
    ensures Held(w', p) - Claim(w', a, p) - Claim(w', b, p) == Held(w, p) - Claim(w, a, p) - Claim(w, b, p)
  {
    EscrowOffTwo(w, w', a, b, p);
    hide PayersKept, Payer, Escrow, Claim, At;
    ClaimInEscrow(w, a, p);
    ClaimInEscrow(w, b, p);
    ClaimInEscrow(w', a, p);
    ClaimInEscrow(w', b, p);
    TotalOffTwo(Escrow(w, p), Escrow(w', p), a, b);
  }

  /** A step that changes neither the lamports nor who is recorded leaves every stake alone. */
  lemma HeldSame(w: World, w': World, p: Key)
    requires w'.lamports == w.lamports && w'.purse == w.purse
    requires forall x :: Payer(w', x) == Payer(w, x)
    ensures Stake(w', p) == Stake(w, p)
  {
    assert Escrow(w', p) == Escrow(w, p);
  }

  /** What keeps every recorded payer: the same accounts, and the same payer in each group. */
  lemma SamePayers(w: World, w': World)
    requires w'.groups.Keys == w.groups.Keys
    requires forall g :: g in w.groups ==> w'.groups[g].rentPayer == w.groups[g].rentPayer
    requires w'.records.Keys == w.records.Keys
    requires forall r :: r in w.records ==> w'.records[r].rentPayer == w.records[r].rentPayer
    requires w'.gates.Keys == w.gates.Keys && w'.tallies == w.tallies
    requires forall g :: VaultAddr(g) in w'.tokens <==> VaultAddr(g) in w.tokens
    ensures forall x :: Payer(w', x) == Payer(w, x)
  {
    hide Payer;
    forall x ensures Payer(w', x) == Payer(w, x) {
      assert x in w'.groups.Keys <==> x in w.groups.Keys;
      assert x in w'.records.Keys <==> x in w.records.Keys;
      assert x in w'.gates.Keys <==> x in w.gates.Keys;
      if x.VaultAddr? || x.GateAddr? {
        assert x.group in w'.groups.Keys <==> x.group in w.groups.Keys;
        assert x.group in w'.records.Keys <==> x.group in w.records.Keys;
        assert x.group in w'.gates.Keys <==> x.group in w.gates.Keys;
      }
      SamePayer(w, w', x);
    }
  }

  /** Who an address is recorded to depends on that address, and for a vault or a gate on its group. */
  lemma SamePayer(w: World, w': World, x: Key)
    requires w'.tallies == w.tallies && SameAt(w, w', x)
    requires x.VaultAddr? || x.GateAddr? ==> SameAt(w, w', x.group)
    requires x.VaultAddr? ==> (x in w'.tokens <==> x in w.tokens)
    ensures Payer(w', x) == Payer(w, x)
  {
  }

  /** The same account of this program at one address, or none, with the same payer. */
  predicate SameAt(w: World, w': World, x: Key) {
    && (x in w'.groups <==> x in w.groups) && (x in w.groups ==> w'.groups[x].rentPayer == w.groups[x].rentPayer)
    && (x in w'.records <==> x in w.records) && (x in w.records ==> w'.records[x].rentPayer == w.records[x].rentPayer)
    && (x in w'.gates <==> x in w.gates)
  }

  // ---- instructions that open accounts ----

  lemma CreatePayers(a: Audit, tx: Tx)
    requires LocalInv(a) && tx.ins.CreateGroup? && CreateRefusal(a.world, tx).None?
    ensures var w, w', g := a.world, Created(a.world, tx), Target(tx.ins);
            && PayersKept(w, w', g, VaultAddr(g))
            && Payer(w, g).None? && Payer(w, VaultAddr(g)).None?
            && Payer(w', g) == Payer(w', VaultAddr(g)) == Some(tx.ins.rentPayer)
  {
    OfVault(a, Target(tx.ins));
    hide LocalInv, Fund;
  }

  lemma CreateLamports(w: World, tx: Tx, p: Key)
    requires tx.ins.CreateGroup?
    ensures var w', g := Created(w, tx), Target(tx.ins);
            && w'.lamports - {g, VaultAddr(g)} == w.lamports - {g, VaultAddr(g)}
            && Purse(w', p) == Purse(w, p)
                 - if p == tx.ins.rentPayer
                   then At(w'.lamports, g) - At(w.lamports, g)
                       + At(w'.lamports, VaultAddr(g)) - At(w.lamports, VaultAddr(g))
                   else 0
  {
    var g := Target(tx.ins);
    var once := Fund(w, g, GROUP_SPACE, tx.ins.rentPayer);
    var twice := Fund(once, VaultAddr(g), VAULT_SPACE, tx.ins.rentPayer);
    hide Fund;
    assert Created(w, tx).lamports == twice.lamports && Created(w, tx).purse == twice.purse;
    hide Created;
    FundTwo(w, once, twice, g, VaultAddr(g));
    assert Purse(Created(w, tx), p) == Purse(twice, p);
  }

  lemma FundTwo(w: World, once: World, twice: World, a: Key, b: Key)
    requires a != b && once.lamports - {a} == w.lamports - {a} && twice.lamports - {b} == once.lamports - {b}
    ensures twice.lamports - {a, b} == w.lamports - {a, b}
    ensures At(twice.lamports, a) == At(once.lamports, a)
    ensures At(once.lamports, b) == At(w.lamports, b)
  {
    assert twice.lamports - {a, b} == once.lamports - {b} - {a};
    assert w.lamports - {a, b} == once.lamports - {a} - {b};
    assert a in twice.lamports <==> a in twice.lamports - {b};
    assert a in once.lamports <==> a in once.lamports - {b};
    assert b in once.lamports <==> b in once.lamports - {a};
    assert b in w.lamports <==> b in w.lamports - {a};
  }

  lemma CreateStake(a: Audit, tx: Tx, p: Key)
    requires LocalInv(a) && tx.ins.CreateGroup? && CreateRefusal(a.world, tx).None?
    ensures Stake(Created(a.world, tx), p) == Stake(a.world, p) + Windfall(a.world, Program(tx), p)
  {
    var w, w', g := a.world, Created(a.world, tx), Target(tx.ins);
    CreatePayers(a, tx);
    hide Created, LocalInv, Payer, Held, CreateRefusal, Fund, At, PayersKept;
    CreateLamports(w, tx, p);
    HeldOffTwo(w, w', g, VaultAddr(g), p);
  }

  /** The second join and later ones leave the tally's payer alone, because no tally counts zero. */
  lemma JoinPayers(w: World, tx: Tx)
    requires tx.ins.JoinGroup? && JoinRefusal(w, tx).None?
    requires forall t :: t in w.tallies ==> w.tallies[t].joins >= 1
    ensures var w', r, t := Joined(w, tx), MemberAddr(tx.ins.group, tx.ins.member),
        TallyAddr(tx.ins.group, tx.ins.member);
            && PayersKept(w, w', r, t)
            && Payer(w, r).None? && Payer(w', r) == Some(tx.ins.rentPayer)
            && (t in w.tallies ==> Payer(w', t) == Payer(w, t))
            && (t !in w.tallies ==> Payer(w, t).None? && Payer(w', t) == Some(tx.ins.rentPayer))
  {
    hide JoinRefusal, Joined, NewRecord, TransferOk, Transferred, PayersKept;
    JoinPassed(w, tx);
    JoinedFields(w, tx);
    JoinCounts(w, tx);
    RecordPayer(w.groups[tx.ins.group], tx.ins);
    JoinPayersKept(w, tx.ins, Joined(w, tx));
  }

  lemma JoinPayersKept(w: World, i: Ins, w': World)
    requires i.JoinGroup? && LooksJoined(w, i, w')
    ensures PayersKept(w, w', MemberAddr(i.group, i.member), TallyAddr(i.group, i.member))
  {
    hide JoinFunded, TransferOk, Transferred, NewRecord, NextTally, JoinsOf;
    var c := w.groups[i.group];
    TransferKeys(w.tokens, AtaAddr(i.member, c.mint), VaultAddr(i.group), c.depositAmount);
    forall x | x != MemberAddr(i.group, i.member) && x != TallyAddr(i.group, i.member)
      ensures Payer(w', x) == Payer(w, x)
    {
      assert x in w'.tokens.Keys <==> x in w.tokens.Keys;
    }
  }

  lemma TransferKeys(tokens: Tokens, from: Key, to: Key, amount: u64)
    requires TransferOk(tokens, from, to, amount, {})
    ensures Transferred(tokens, from, to, amount).Keys == tokens.Keys
  {
  }

  lemma RecordPayer(c: GroupConfig, i: Ins)
    requires i.JoinGroup?
    ensures NewRecord(c, i).rentPayer == i.rentPayer
  {
  }

  lemma JoinFundedLamports(w: World, i: Ins, p: Key)
    requires i.JoinGroup?
    ensures var w', r, t := JoinFunded(w, i), MemberAddr(i.group, i.member), TallyAddr(i.group, i.member);
            && w'.lamports - {r, t} == w.lamports - {r, t}
            && (t in w.tallies ==> At(w'.lamports, t) == At(w.lamports, t))
            && Purse(w', p) == Purse(w, p)
                 - if p == i.rentPayer
                   then At(w'.lamports, r) - At(w.lamports, r) + At(w'.lamports, t) - At(w.lamports, t)
                   else 0
  {
    var r, t := MemberAddr(i.group, i.member), TallyAddr(i.group, i.member);
    var once := Fund(w, r, RECORD_SPACE, i.rentPayer);
    hide Fund;
    FundTwo(w, once, JoinFunded(w, i), r, t);
  }

  lemma JoinLamports(w: World, tx: Tx, p: Key)
    requires tx.ins.JoinGroup? && JoinRefusal(w, tx).None?
    ensures var w', r, t := Joined(w, tx), MemberAddr(tx.ins.group, tx.ins.member),
        TallyAddr(tx.ins.group, tx.ins.member);
            && w'.lamports - {r, t} == w.lamports - {r, t}
            && (t in w.tallies ==> At(w'.lamports, t) == At(w.lamports, t))
            && Purse(w', p) == Purse(w, p)
                 - if p == tx.ins.rentPayer
                   then At(w'.lamports, r) - At(w.lamports, r) + At(w'.lamports, t) - At(w.lamports, t)
                   else 0
  {
    hide JoinFunded, JoinRefusal, Joined, At;
    JoinedLamports(w, tx);
    JoinFundedLamports(w, tx.ins, p);
    assert Purse(Joined(w, tx), p) == Purse(JoinFunded(w, tx.ins), p);
  }

  lemma JoinedLamports(w: World, tx: Tx)
    requires tx.ins.JoinGroup? && JoinRefusal(w, tx).None?
    ensures Joined(w, tx).lamports == JoinFunded(w, tx.ins).lamports && Joined(w, tx).purse
        == JoinFunded(w, tx.ins).purse
  {
    hide JoinFunded, JoinRefusal, NewRecord, NextTally;
  }

  lemma JoinStake(w: World, tx: Tx, p: Key)
    requires tx.ins.JoinGroup? && JoinRefusal(w, tx).None?
    requires forall t :: t in w.tallies ==> w.tallies[t].joins >= 1
    ensures Stake(Joined(w, tx), p) == Stake(w, p) + Windfall(w, Program(tx), p)
  {
    JoinPayers(w, tx);
    JoinLamports(w, tx, p);
    hide JoinRefusal, Joined, Payer, Held, At, PayersKept;
    HeldOffTwo(w, Joined(w, tx), MemberAddr(tx.ins.group, tx.ins.member), TallyAddr(tx.ins.group, tx.ins.member), p);
  }

  /** One account opened at an address recorded to nobody before. */
  lemma FundStake(w: World, x: Key, space: nat, payer: Key, w': World, p: Key)
    requires Payer(w, x).None? && Payer(w', x) == Some(payer)
    requires w'.lamports == Fund(w, x, space, payer).lamports && w'.purse == Fund(w, x, space, payer).purse
    requires forall y :: y != x ==> Payer(w', y) == Payer(w, y)
    ensures Stake(w', p) == Stake(w, p) + if p == payer then At(w.lamports, x) else 0
  {
    var y := if x == SystemProgram then ThisProgram else SystemProgram;
    assert Purse(w', p) == Purse(Fund(w, x, space, payer), p);
    hide Fund, Held, Purse;
    assert y in w.lamports <==> y in w.lamports - {x};
    assert y in w'.lamports <==> y in w'.lamports - {x};
    assert w'.lamports - {x, y} == w.lamports - {x} - {y};
    HeldOffTwo(w, w', x, y, p);
  }

  lemma GateStake(w: World, tx: Tx, p: Key)
    requires tx.ins.SetJoinAuthority? && GateRefusal(w, tx).None?
    ensures Stake(Gated(w, tx), p) == Stake(w, p) + Windfall(w, Program(tx), p)
  {
    hide Fund, Stake, At;
    FundStake(w, GateAddr(tx.ins.group), GATE_SPACE, tx.ins.rentPayer, Gated(w, tx), p);
  }

  // ---- instructions that close accounts ----

  /** One account drained to the payer it is recorded to. */
  lemma DrainStake(w: World, x: Key, payer: Key, w': World, p: Key)
    requires Payer(w, x) == Some(payer) && Payer(w', x).None?
    requires w'.lamports == Drain(w, x, payer).lamports && w'.purse == Drain(w, x, payer).purse
    requires forall y :: y != x ==> Payer(w', y) == Payer(w, y)
    ensures Stake(w', p) == Stake(w, p)
  {
    hide Drain, Held, Purse, Payer, PayersKept;
    var y := if x == SystemProgram then ThisProgram else SystemProgram;
    DrainLamports(w, x, y, payer, w', p);
    AllButTwo(w, w', x, y);
    HeldOffTwo(w, w', x, y, p);
  }

  lemma AllButTwo(w: World, w': World, x: Key, y: Key)
    requires forall z :: z != x ==> Payer(w', z) == Payer(w, z)
    ensures PayersKept(w, w', x, y)
  {
    hide Payer;
  }

  lemma DrainLamports(w: World, x: Key, y: Key, payer: Key, w': World, p: Key)
    requires x != y
    requires w'.lamports == Drain(w, x, payer).lamports && w'.purse == Drain(w, x, payer).purse
    ensures w'.lamports - {x, y} == w.lamports - {x, y} && At(w'.lamports, y) == At(w.lamports, y)
    ensures Purse(w', p) == Purse(w, p) + if p == payer then At(w.lamports, x) else 0
  {
    assert Purse(w', p) == Purse(Drain(w, x, payer), p);
  }

  lemma LeaveStake(w: World, tx: Tx, p: Key)
    requires tx.ins.LeaveGroup? && LeaveRefusal(w, tx).None?
    ensures Stake(Left(w, tx), p) == Stake(w, p)
  {
    DrainStake(w, MemberAddr(tx.ins.group, tx.ins.member), tx.ins.rentPayer, Left(w, tx), p);
  }

  lemma CloseRecordStake(w: World, tx: Tx, p: Key)
    requires tx.ins.CloseMemberRecord? && CloseRecordRefusal(w, tx).None?
    ensures Stake(RecordClosed(w, tx), p) == Stake(w, p)
  {
    DrainStake(w, tx.ins.record, tx.ins.rentPayer, RecordClosed(w, tx), p);
  }

  lemma CloseTallyStake(w: World, tx: Tx, p: Key)
    requires tx.ins.CloseJoinTally? && CloseTallyRefusal(w, tx).None?
    ensures Stake(TallyClosed(w, tx), p) == Stake(w, p)
  {
    DrainStake(w, TallyAddr(tx.ins.group, tx.ins.member), tx.ins.rentPayer, TallyClosed(w, tx), p);
  }

  /** The gate goes first, while the group is still there to name the payer. */
  lemma UngatedPayers(w: World, g: Key, ungated: World)
    requires g in w.groups && ungated
        == w.(gates := w.gates - {GateAddr(g)}, lamports := ungated.lamports, purse := ungated.purse)
    ensures GateAddr(g) in w.gates ==> Payer(w, GateAddr(g)) == Some(w.groups[g].rentPayer)
    ensures Payer(ungated, GateAddr(g)).None?
    ensures forall y :: y != GateAddr(g) ==> Payer(ungated, y) == Payer(w, y)
  {
  }

  lemma UngroupedPayers(w: World, g: Key, w': World)
    requires g in w.groups && g.GroupAddr? && VaultAddr(g) !in w.tokens && GateAddr(g) !in w.gates
    requires w' == w.(groups := w.groups - {g}, lamports := w'.lamports, purse := w'.purse)
    ensures Payer(w, g) == Some(w.groups[g].rentPayer) && Payer(w', g).None?
    ensures forall y :: y != g ==> Payer(w', y) == Payer(w, y)
  {
  }

  /** What the group account and its gate hold. */
  function GroupRent(w: World, g: Key): nat {
    At(w.lamports, g) + if GateAddr(g) in w.gates then At(w.lamports, GateAddr(g)) else 0
  }

  lemma CloseGroupNames(w: World, tx: Tx)
    requires tx.ins.CloseGroup? && CloseGroupRefusal(w, tx).None?
    ensures tx.ins.group in w.groups && tx.ins.group.GroupAddr? && tx.ins.rentPayer == w.groups[tx.ins.group].rentPayer
  {
  }

  lemma NoPayer(w: World, g: Key)
    requires g.GroupAddr? && g !in w.groups && GateAddr(g) !in w.gates
    ensures Payer(w, g).None? && Payer(w, GateAddr(g)).None?
  {
  }

  lemma SamePurse(w: World, u: World, p: Key)
    requires u.purse == w.purse
    ensures Purse(u, p) == Purse(w, p)
  {
  }

  lemma CloseGroupPays(w: World, tx: Tx, p: Key)
    requires tx.ins.CloseGroup? && CloseGroupRefusal(w, tx).None?
    ensures tx.ins.group in w.groups
    ensures Purse(GroupClosed(w, tx), p)
         == Purse(w, p) + if p == w.groups[tx.ins.group].rentPayer then GroupRent(w, tx.ins.group) else 0
    ensures Payer(GroupClosed(w, tx), tx.ins.group).None? && Payer(GroupClosed(w, tx), GateAddr(tx.ins.group)).None?
  {
    hide *;
    var g, gate, payer := tx.ins.group, GateAddr(tx.ins.group), tx.ins.rentPayer;
    var ungated := if gate in w.gates then Drain(w, gate, payer) else w;
    CloseGroupNames(w, tx);
    GroupClosedLamports(w, tx, ungated);
    NoPayer(GroupClosed(w, tx), g);
    SamePurse(Drain(ungated, g, payer), GroupClosed(w, tx), p);
    DrainPurse(w, gate, payer, p);
    DrainPurse(ungated, g, payer, p);
    DrainedElsewhere(w, gate, g, payer);
    RentOfGroup(w, g);
  }

  lemma RentOfGroup(w: World, g: Key)
    ensures GroupRent(w, g) == At(w.lamports, g) + if GateAddr(g) in w.gates then At(w.lamports, GateAddr(g)) else 0
  {
  }

  lemma GroupClosedLamports(w: World, tx: Tx, ungated: World)
    requires tx.ins.CloseGroup?
    requires var gate := GateAddr(tx.ins.group);
             ungated == if gate in w.gates then Drain(w, gate, tx.ins.rentPayer) else w
    ensures var w', g := GroupClosed(w, tx), tx.ins.group;
            w'.purse == Drain(ungated, g, tx.ins.rentPayer).purse && w'.groups == w.groups - {g}
            && w'.gates == w.gates - {GateAddr(g)}
  {
    hide Drain;
  }

  lemma DrainPurse(w: World, x: Key, payer: Key, p: Key)
    ensures Purse(Drain(w, x, payer), p) == Purse(w, p) + if p == payer then At(w.lamports, x) else 0
  {
  }

  lemma DrainedElsewhere(w: World, x: Key, y: Key, payer: Key)
    requires x != y
    ensures At(Drain(w, x, payer).lamports, y) == At(w.lamports, y)
  {
  }

  lemma CloseGroupVault(a: Audit, tx: Tx)
    requires LocalInv(a) && tx.ins.CloseGroup? && CloseGroupRefusal(a.world, tx).None?
    ensures VaultAddr(tx.ins.group) !in a.world.tokens
  {
    OfVault(a, tx.ins.group);
    hide LocalInv;
  }

  lemma Ungated(w: World, g: Key, payer: Key, ungated: World)
    requires var gate := GateAddr(g);
             ungated == if gate in w.gates then Drain(w, gate, payer).(gates := w.gates - {gate}) else w
    ensures ungated == w.(gates := w.gates - {GateAddr(g)}, lamports := ungated.lamports, purse := ungated.purse)
  {
    hide Drain;
    assert GateAddr(g) !in w.gates ==> w.gates - {GateAddr(g)} == w.gates;
  }

  lemma Ungrouped(w: World, tx: Tx, ungated: World)
    requires tx.ins.CloseGroup?
    requires var gate := GateAddr(tx.ins.group);
             ungated == if gate in w.gates then Drain(w, gate, tx.ins.rentPayer).(gates := w.gates - {gate}) else w
    ensures var w', g := GroupClosed(w, tx), tx.ins.group;
            && w'.lamports == Drain(ungated, g, tx.ins.rentPayer).lamports
            && w'.purse == Drain(ungated, g, tx.ins.rentPayer).purse
            && w' == ungated.(groups := w.groups - {g}, lamports := w'.lamports, purse := w'.purse)
  {
    Ungated(w, tx.ins.group, tx.ins.rentPayer, ungated);
  }

  lemma CloseGroupStake(a: Audit, tx: Tx, p: Key)
    requires LocalInv(a) && tx.ins.CloseGroup? && CloseGroupRefusal(a.world, tx).None?
    ensures Stake(GroupClosed(a.world, tx), p) == Stake(a.world, p)
    ensures var w, g := a.world, tx.ins.group;
            Purse(GroupClosed(w, tx), p) == Purse(w, p) + if p == w.groups[g].rentPayer then GroupRent(w, g) else 0
    ensures Payer(GroupClosed(a.world, tx), tx.ins.group).None?
    ensures Payer(GroupClosed(a.world, tx), GateAddr(tx.ins.group)).None?
  {
    hide Drain, GroupClosed, Payer, Stake, LocalInv, CloseGroupRefusal;
    CloseGroupPays(a.world, tx, p);
    CloseGroupNames(a.world, tx);
    var w, w', g, gate := a.world, GroupClosed(a.world, tx), tx.ins.group, GateAddr(tx.ins.group);
    var ungated := if gate in w.gates then Drain(w, gate, tx.ins.rentPayer).(gates := w.gates - {gate}) else w;
    CloseGroupVault(a, tx);
    Ungated(w, g, tx.ins.rentPayer, ungated);
    Ungrouped(w, tx, ungated);
    UngatedPayers(w, g, ungated);
    UngroupedPayers(ungated, g, w');
    if gate in w.gates {
      DrainStake(w, gate, tx.ins.rentPayer, ungated, p);
    }
    DrainStake(ungated, g, tx.ins.rentPayer, w', p);
  }

  // ---- instructions that keep every account ----

  /** A settlement moves the vault's lamports into the group account, which is recorded to the same
      payer. */
  lemma SettleStake(w: World, g: Key, status: Status, r: Receipt, p: Key)
    requires g in w.groups && g.GroupAddr? && VaultAddr(g) in w.tokens
    requires r.tokens.Keys == w.tokens.Keys - {VaultAddr(g)}
    ensures Stake(SettledAs(w, g, status, r), p) == Stake(w, p)
  {
    var w', v := SettledAs(w, g, status, r), VaultAddr(g);
    SettlePayers(w, g, status, r);
    assert w'.lamports - {g, v} == w.lamports - {g, v};
    assert At(w'.lamports, g) == At(w.lamports, g) + At(w.lamports, v);
    assert Purse(w', p) == Purse(w, p);
    hide SettledAs, Payer, Held, At, PayersKept;
    HeldOffTwo(w, w', g, v, p);
  }

  lemma SettlePayers(w: World, g: Key, status: Status, r: Receipt)
    requires g in w.groups && g.GroupAddr? && VaultAddr(g) in w.tokens
    requires r.tokens.Keys == w.tokens.Keys - {VaultAddr(g)}
    ensures var w', v := SettledAs(w, g, status, r), VaultAddr(g);
            && PayersKept(w, w', g, v)
            && Payer(w, g) == Payer(w', g) == Payer(w, v) == Some(w.groups[g].rentPayer) && Payer(w', v).None?
  {
    forall x | x != g && x != VaultAddr(g) ensures Payer(SettledAs(w, g, status, r), x) == Payer(w, x) {
      assert x in r.tokens.Keys <==> x in w.tokens.Keys;
    }
    assert VaultAddr(g) !in r.tokens.Keys;
  }

  lemma SettleKeys(w: World, g: Key, remaining: seq<Key>, blocked: set<Key>, mode: Mode)
    requires g in w.groups && VaultAddr(g) in w.tokens && Settle(w, g, remaining, blocked, mode).Ok?
    ensures Settle(w, g, remaining, blocked, mode).value.tokens.Keys == w.tokens.Keys - {VaultAddr(g)}
  {
    var r := Settle(w, g, remaining, blocked, mode).value;
    var l := ListUpTo(w, g, w.groups[g].mint, remaining, w.groups[g].currentMembers).value;
    var p := PayUpTo(w.tokens, VaultAddr(g), remaining, l.deposits, blocked, mode, w.groups[g].currentMembers).value;
    assert r.tokens == p.tokens - {VaultAddr(g)};
  }

  lemma RefundLamports(w: World, tx: Tx, p: Key)
    requires tx.ins.RefundVaultRent?
    ensures var w', g := Refunded(w, tx), tx.ins.group;
            && w'.lamports - {g, SystemProgram} == w.lamports - {g, SystemProgram}
            && (g.GroupAddr? ==> At(w'.lamports, SystemProgram) == At(w.lamports, SystemProgram))
            && Purse(w', p)
               == Purse(w, p) + if p == tx.ins.rentPayer then At(w.lamports, g) - At(w'.lamports, g) else 0
  {
    hide RentFloor;
  }

  lemma RefundStake(w: World, tx: Tx, p: Key)
    requires tx.ins.RefundVaultRent? && RefundRefusal(w, tx).None?
    ensures Stake(Refunded(w, tx), p) == Stake(w, p)
  {
    var w', g := Refunded(w, tx), tx.ins.group;
    SamePayers(w, w');
    assert g.GroupAddr? && Payer(w, g) == Some(tx.ins.rentPayer);
    hide RefundRefusal, Refunded, Payer, Held, At, Purse;
    RefundLamports(w, tx, p);
    HeldOffTwo(w, w', g, SystemProgram, p);
  }

  lemma StartStake(w: World, tx: Tx, p: Key)
    requires tx.ins.StartCycle? && StartRefusal(w, tx).None?
    ensures Stake(Started(w, tx), p) == Stake(w, p)
  {
    SamePayers(w, Started(w, tx));
    hide StartRefusal, Payer;
    HeldSame(w, Started(w, tx), p);
  }

  lemma DepositStake(w: World, tx: Tx, p: Key)
    requires tx.ins.Deposit? && DepositRefusal(w, tx).None?
    ensures Stake(Deposited(w, tx), p) == Stake(w, p)
  {
    hide PeriodIndex;
    SamePayers(w, Deposited(w, tx));
    hide DepositRefusal, Payer;
    HeldSame(w, Deposited(w, tx), p);
  }

  // ---- outside steps ----

  lemma OutsidePayers(w: World, e: Env)
    requires EnvOk(w, e)
    ensures forall x :: Payer(EnvAfter(w, e), x) == Payer(w, x)
  {
    OutsideFrame(w, e);
    OutsideTallies(w, e);
    forall g ensures VaultAddr(g) in EnvAfter(w, e).tokens <==> VaultAddr(g) in w.tokens {
      OutsideVault(w, e, g);
    }
    hide EnvOk, EnvAfter;
    SamePayers(w, EnvAfter(w, e));
  }

  lemma SentLamports(w: World, to: Key, lamports: nat, y: Key)
    requires y != to
    ensures var w' := EnvAfter(w, SendLamports(to, lamports));
            && w'.lamports - {to, y} == w.lamports - {to, y} && At(w'.lamports, y) == At(w.lamports, y)
            && At(w'.lamports, to) == At(w.lamports, to) + lamports && w'.purse == w.purse
  {
  }

  lemma NotSent(w: World, e: Env)
    requires EnvOk(w, e) && !e.SendLamports?
    ensures EnvAfter(w, e).lamports == w.lamports && EnvAfter(w, e).purse == w.purse
  {
    hide EnvOk;
  }

  lemma OutsideStake(w: World, e: Env, p: Key)
    requires EnvOk(w, e)
    ensures Stake(EnvAfter(w, e), p) == Stake(w, p) + Windfall(w, Outside(e), p)
  {
    hide EnvOk, EnvAfter, Payer, Held, At, PayersKept;
    var w' := EnvAfter(w, e);
    OutsidePayers(w, e);
    if e.SendLamports? {
      var y := if e.to == SystemProgram then ThisProgram else SystemProgram;
      SentLamports(w, e.to, e.lamports, y);
      AllButTwo(w, w', e.to, y);
      HeldOffTwo(w, w', e.to, y, p);
    } else {
      NotSent(w, e);
      HeldSame(w, w', p);
    }
  }

  // ---- every run ----

  lemma SettlingStake(w: World, tx: Tx, p: Key)
    requires (tx.ins.Distribute? || tx.ins.EmergencyCancel?) && Refusal(w, tx).None?
    ensures Stake(After(w, tx), p) == Stake(w, p)
  {
    SettlesHere(w, tx);
    hide *;
    var g, mode := tx.ins.group, SettleMode(tx.ins);
    SettleKeys(w, g, tx.ins.remaining, tx.blocked, mode);
    SettleStake(w, g, if tx.ins.Distribute? then Completed else Cancelled,
                Settle(w, g, tx.ins.remaining, tx.blocked, mode).value, p);
  }

  /** Whatever the instruction and whoever the wallet: its lamports, counted with what is held for
      it, grow by exactly what other people left where it will collect. */
  lemma ProgramStake(a: Audit, tx: Tx, p: Key)
    requires LocalInv(a) && TallyInv(a) && Refusal(a.world, tx).None?
    ensures Stake(After(a.world, tx), p) == Stake(a.world, p) + Windfall(a.world, Program(tx), p)
  {
    var w := a.world;
    hide LocalInv, Stake, DistributeReceipt, CancelReceipt;
    match tx.ins
    case CreateGroup(_, _, _, _, _, _, _, _, _) => CreateStake(a, tx, p);
    case JoinGroup(_, _, _, _, _, _) => JoinStake(w, tx, p);
    case LeaveGroup(_, _, _, _) => LeaveStake(w, tx, p);
    case StartCycle(_, _) => StartStake(w, tx, p);
    case Deposit(_, _, _) => DepositStake(w, tx, p);
    case Distribute(_, _, _) => SettlingStake(w, tx, p);
    case EmergencyCancel(_, _, _, _) => SettlingStake(w, tx, p);
    case RefundVaultRent(_, _) => RefundStake(w, tx, p);
    case CloseMemberRecord(_, _, _) => CloseRecordStake(w, tx, p);
    case CloseGroup(_, _) => CloseGroupStake(a, tx, p);
    case SetJoinAuthority(_, _, _, _) => GateStake(w, tx, p);
    case CloseJoinTally(_, _, _) => CloseTallyStake(w, tx, p);
  }

  ghost predicate RentInv(a: Audit) {
    forall p :: Stake(a.world, p) == Gift(a, p)
  }

  lemma RentStep(a: Audit, ev: Event, p: Key)
    requires LocalInv(a) && TallyInv(a) && RentInv(a)
    ensures Stake(Step(a, ev).world, p) == Gift(Step(a, ev), p)
  {
    assert Stake(a.world, p) == Gift(a, p);
    StepParts(a, ev);
    if Happens(a.world, ev) {
      match ev
      case Program(tx) =>
        hide After, Refusal, Step, Stake, Gift, Windfall, LocalInv, TallyInv, RentInv;
        ProgramStake(a, tx, p);
      case Outside(e) =>
        hide EnvAfter, EnvOk, Step, Stake, Gift, Windfall, LocalInv, TallyInv, RentInv;
        OutsideStake(a.world, e, p);
    }
  }

  lemma {:induction false} RentRun(a: Audit, events: seq<Event>)
    requires Inv(a) && TallyInv(a) && RentInv(a)
    ensures RentInv(Run(a, events))
    decreases |events|
  {
    if events != [] {
      var n := |events| - 1;
      RentRun(a, events[..n]);
      RunKeeps(a, events[..n]);
      TallyRun(a, events[..n]);
      hide Step, Stake, Gift, LocalInv, SupplyInv, TallyInv;
      forall p ensures Stake(Run(a, events).world, p) == Gift(Run(a, events), p) {
        RentStep(Run(a, events[..n]), events[n], p);
      }
    }
  }

  lemma GenesisRent(build: Build, rentRate: nat)
    ensures RentInv(Genesis(build, rentRate)) && TallyInv(Genesis(build, rentRate))
  {
    var a := Genesis(build, rentRate);
    forall p ensures Stake(a.world, p) == Gift(a, p) {
      assert Escrow(a.world, p) == map[];
    }
  }

  lemma ReachableRent(a: Audit)
    requires Reachable(a)
    ensures RentInv(a) && TallyInv(a)
  {
    var build, rentRate, events :| a == Run(Genesis(build, rentRate), events);
    GenesisRent(build, rentRate);
    GenesisInv(build, rentRate);
    hide Run, RentInv, TallyInv, Inv, Genesis;
    RentRun(Genesis(build, rentRate), events);
    TallyRun(Genesis(build, rentRate), events);
  }

  /** In every reachable state, at every rent rate along the way: what a wallet has received minus
      what it paid for rent, plus what live accounts still hold for it, is what other people left
      there for it. Once nothing is held for it, it has every lamport it ever paid. */
  lemma RentConserved(a: Audit, p: Key)
    requires Reachable(a)
    ensures Purse(a.world, p) + Held(a.world, p) == Gift(a, p) >= 0
    ensures Held(a.world, p) == 0 ==> Purse(a.world, p) >= 0
  {
    ReachableRent(a);
    assert Stake(a.world, p) == Gift(a, p);
    GiftsReachable(a, p);
  }

  lemma {:induction false} GiftsGrow(a: Audit, events: seq<Event>, p: Key)
    ensures Gift(Run(a, events), p) >= Gift(a, p)
    decreases |events|
  {
    if events != [] {
      GiftsGrow(a, events[..|events| - 1], p);
      StepParts(Run(a, events[..|events| - 1]), events[|events| - 1]);
      hide Step, Gift;
    }
  }

  lemma GiftsReachable(a: Audit, p: Key)
    requires Reachable(a)
    ensures Gift(a, p) >= 0
  {
    var build, rentRate, events :| a == Run(Genesis(build, rentRate), events);
    GiftsGrow(Genesis(build, rentRate), events, p);
  }
}
