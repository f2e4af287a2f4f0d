/** The start of a group's life: exactly when it can be created, gated and started. */
module Founding {
  import opened Machine
  import opened Ledger
  import opened GroupTime
  import opened Instructions
  import opened Audit
  import opened Invariant
  import opened Payouts
  import opened Safety
  import opened Outcomes
  import opened WindDown

  // ---- create_group ----

  /** A letter, a digit or a hyphen. */
  predicate CodeLetter(ch: char) {
    (ch >= 'a' && ch <= 'z') || (ch >= 'A' && ch <= 'Z') || (ch >= '0' && ch <= '9') || ch == '-'
  }

  /** Nothing of the program's lives at a group address, and no vault under it, unless a group does. */
  lemma AddressFree(a: Audit, code: string)
    requires Reachable(a) && GroupAddr(code) !in a.world.groups
    ensures !ProgramOwned(a.world, GroupAddr(code)) && VaultAddr(GroupAddr(code)) !in a.world.tokens
  {
    var g := GroupAddr(code);
    ReachableInv(a);
    ReachableDerived(a);
    OfVault(a, g);
    if g in a.world.records {
      OfRecord(a, g);
    }
    hide Reachable, Inv;
  }

  lemma LegalLetters(code: string)
    ensures CodeChars(code) <==> forall k :: 0 <= k < |code| ==> CodeLetter(code[k])
  {
    assert forall k :: 0 <= k < |code| ==> (CodeChar(code[k]) <==> CodeLetter(code[k]));
  }

  /** A group can be created exactly when its creator and the payer of its rent signed, its code is free
      and well formed, its mint supported, and every parameter in its range. */
  lemma CreateExactly(a: Audit, tx: Tx)
    requires Reachable(a) && tx.ins.CreateGroup?
    ensures var w, i := a.world, tx.ins;
            Refusal(w, tx).None?
            <==> && i.creator in tx.signers && i.rentPayer in tx.signers
                 && GroupAddr(i.code) !in w.groups && i.mintSupported
                 && 1 <= |i.code| <= 32 && (forall k :: 0 <= k < |i.code| ==> CodeLetter(i.code[k]))
                 && i.depositAmount > 0 && i.frequency <= (if w.build == Devnet then 3 else 2)
                 && 1 <= i.totalPeriods <= 52 && 2 <= i.maxMembers <= 10
  {
    LegalLetters(tx.ins.code);
    if GroupAddr(tx.ins.code) !in a.world.groups {
      AddressFree(a, tx.ins.code);
    }
    hide Reachable, CodeChars, CodeLetter;
  }

  // ---- set_join_authority ----

  /** A gate can be set exactly once, by the creator and with the rent of the group's own payer, while the
      group is Open and empty, and never to a key that cannot sign. */
  lemma GateExactly(a: Audit, tx: Tx)
    requires Reachable(a) && tx.ins.SetJoinAuthority?
    ensures var w, i, g := a.world, tx.ins, tx.ins.group;
            Refusal(w, tx).None?
            <==> && i.creator in tx.signers && i.rentPayer in tx.signers
                 && g in w.groups && w.groups[g].status == Open
                 && w.groups[g].creator == i.creator && w.groups[g].rentPayer == i.rentPayer
                 && RecordsOf(w, g) == map[] && GateAddr(g) !in w.gates
                 && i.newAuthority != SystemProgram && i.newAuthority != ThisProgram
  {
    var w, g := a.world, tx.ins.group;
    ReachableInv(a);
    if g in w.groups {
      AddressOf(a, g);
      MemberCount(a, g);
      NobodyLeftIff(RecordsOf(w, g));
    }
    hide Reachable, Inv;
  }

  // ---- start_cycle ----

  /** A cycle starts exactly when the group's creator signed, the group is Open with two records or more,
      and the end of its last period is in the range of the clock. */
  lemma StartExactly(a: Audit, tx: Tx)
    requires Reachable(a) && tx.ins.StartCycle?
    ensures tx.ins.group in a.world.groups ==> a.world.groups[tx.ins.group].frequency <= MaxFrequency(a.world.build)
    ensures var w, i, g := a.world, tx.ins, tx.ins.group;
            Refusal(w, tx).None?
            <==> && i.creator in tx.signers && g in w.groups && w.groups[g].status == Open
                 && w.groups[g].creator == i.creator && |RecordsOf(w, g)| >= 2
                 && w.clock + w.groups[g].totalPeriods * Period(w.build, w.groups[g].frequency) <= I64_MAX
  {
    var w, i, g := a.world, tx.ins, tx.ins.group;
    ReachableInv(a);
    if g in w.groups {
      AddressOf(a, g);
      MemberCount(a, g);
      PeriodLasts(a, g);
      OfGroup(a, g);
      CycleEndExact(w.build, w.groups[g].(status := Active, cycleStart := w.clock));
    }
    hide Reachable, Inv, CycleEnd, GroupInv, PeriodSecs, MaxFrequency;
  }
}
