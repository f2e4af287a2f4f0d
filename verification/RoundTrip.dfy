/** The Open phase: joining and leaving cancel out, and a leave can always be paid. */
module RoundTrip {
  import opened Machine
  import opened Sums
  import opened Ledger
  import opened Settlement
  import opened Instructions
  import opened Balances
  import opened Audit
  import opened Invariant
  import opened Payments
  import opened Safety
  import opened Outcomes
  import opened Tallies
  import opened Refunds
  import opened Lifecycle

  /** While a group is Open every record holds exactly the one deposit made on joining. */
  lemma OpenRecord(a: Audit, g: Key, r: Key)
    requires Inv(a) && g in a.world.groups && a.world.groups[g].status == Open && r in RecordsOf(a.world, g)
    ensures a.world.records[r].totalDeposited == a.world.groups[g].depositAmount
  {
    OfGroup(a, g);
    var c, s := a.world.groups[g], SliceOf(a.world, g);
    assert RecordInv(a.world.build, c, g, s.gate, s.records[r], BookOf(a, g));
  }

  /** The vault of an Open group: what was donated, and one deposit for each member. */
  lemma OpenVault(a: Audit, g: Key)
    requires Reachable(a) && g in a.world.groups && a.world.groups[g].status == Open
    ensures VaultAddr(g) in a.world.tokens
    ensures a.world.tokens[VaultAddr(g)].amount
         == BookOf(a, g).donated + a.world.groups[g].currentMembers * a.world.groups[g].depositAmount
  {
    ReachableInv(a);
    VaultSolvent(a, g);
    var c, m := a.world.groups[g], Deposits(RecordsOf(a.world, g));
    forall r | r in m ensures m[r] == c.depositAmount {
      OpenRecord(a, g, r);
    }
    hide Inv, Reachable;
    TotalConstant(m, c.depositAmount);
    assert m.Keys == RecordsOf(a.world, g).Keys;
  }

  /** A member of an Open group, and nobody else, can always leave: nothing about the group or the other
      members can stop them, and the vault never falls short. */
  lemma LeaveExactly(a: Audit, tx: Tx)
    requires Reachable(a) && tx.ins.LeaveGroup?
    ensures var w, i := a.world, tx.ins;
            var r := MemberAddr(i.group, i.member);
            Refusal(w, tx).None?
            <==> && i.member in tx.signers && i.group in w.groups && w.groups[i.group].status == Open
                 && r in w.records && w.records[r].rentPayer == i.rentPayer
                 && i.dest in w.tokens && w.tokens[i.dest].mint == w.groups[i.group].mint
                 && w.tokens[i.dest].owner == i.member
                 && VaultAddr(i.group) !in tx.blocked && i.dest !in tx.blocked
  {
    var w, i := a.world, tx.ins;
    var r := MemberAddr(i.group, i.member);
    if i.member in tx.signers && i.group in w.groups && w.groups[i.group].status == Open && r in w.records
       && i.dest in w.tokens && w.tokens[i.dest].owner == i.member && w.tokens[i.dest].mint == w.groups[i.group].mint {
      LeavePaid(a, i.group, i.member, i.dest);
    }
    hide Reachable, Supply;
  }

  lemma LeaveFacts(a: Audit, g: Key, m: Key, dest: Key)
    requires Inv(a) && g in a.world.groups && a.world.groups[g].status == Open && m.External?
    requires MemberAddr(g, m) in a.world.records && dest in a.world.tokens && a.world.tokens[dest].owner == m
    ensures g == GroupAddr(a.world.groups[g].code) && a.world.groups[g].currentMembers == |RecordsOf(a.world, g)|
    ensures MemberAddr(g, m) in RecordsOf(a.world, g)
    ensures VaultAddr(g) in a.world.tokens && a.world.tokens[VaultAddr(g)].mint == a.world.groups[g].mint
    ensures dest != VaultAddr(g)
  {
    OfRecord(a, MemberAddr(g, m));
    OfGroup(a, g);
    OfVault(a, g);
    VaultsApart(a, dest, m);
    hide Supply, RecordsInv, MoneyInv;
  }

  /** The vault holds the refund, and the refund fits on top of the member's account. */
  lemma LeavePaid(a: Audit, g: Key, m: Key, dest: Key)
    requires Reachable(a) && g in a.world.groups && a.world.groups[g].status == Open && m.External?
    requires MemberAddr(g, m) in a.world.records && dest in a.world.tokens
    requires a.world.tokens[dest].owner == m && a.world.tokens[dest].mint == a.world.groups[g].mint
    ensures g == GroupAddr(a.world.groups[g].code) && a.world.groups[g].currentMembers > 0
    ensures VaultAddr(g) in a.world.tokens
    ensures forall blocked :: VaultAddr(g) !in blocked && dest !in blocked ==>
              TransferOk(a.world.tokens, VaultAddr(g), dest, a.world.records[MemberAddr(g, m)].totalDeposited, blocked)
  {
    ReachableInv(a);
    LeaveFacts(a, g, m, dest);
    hide *;
    InRecords(a.world, g, MemberAddr(g, m));
    RecordCovered(a, g, MemberAddr(g, m));
    TwoFit(a, VaultAddr(g), dest);
    RefundFits(a.world.tokens, VaultAddr(g), dest, a.world.records[MemberAddr(g, m)].totalDeposited);
  }

  lemma InRecords(w: World, g: Key, r: Key)
    requires r in RecordsOf(w, g)
    ensures |RecordsOf(w, g)| > 0
  {
    assert r in RecordsOf(w, g).Keys;
  }

  /** The vault of a live group covers any one of its records. */
  lemma RecordCovered(a: Audit, g: Key, r: Key)
    requires Reachable(a) && VaultAddr(g) in a.world.tokens && r in RecordsOf(a.world, g)
    ensures r in a.world.records && a.world.records[r].totalDeposited <= a.world.tokens[VaultAddr(g)].amount
  {
    VaultSolvent(a, g);
    hide Reachable, BookOf, Total;
    TotalDrop(Deposits(RecordsOf(a.world, g)), r);
  }

  /** Two accounts of one mint never hold more together than a u64. */
  lemma TwoFit(a: Audit, x: Key, y: Key)
    requires Inv(a) && x != y && x in a.world.tokens && y in a.world.tokens
    requires a.world.tokens[x].mint == a.world.tokens[y].mint
    ensures a.world.tokens[x].amount + a.world.tokens[y].amount <= U64_MAX
  {
    assert Supply(a.world.tokens, a.world.tokens[x].mint) <= U64_MAX;
    hide Supply, LocalInv;
    TwoWithinSupply(a.world.tokens, x, y);
  }

  lemma RefundFits(tokens: Tokens, v: Key, dest: Key, amount: u64)
    requires v in tokens && dest in tokens && tokens[v].mint == tokens[dest].mint
    requires amount <= tokens[v].amount && tokens[v].amount + tokens[dest].amount <= U64_MAX
    ensures forall blocked :: v !in blocked && dest !in blocked ==> TransferOk(tokens, v, dest, amount, blocked)
  {
  }

  lemma TransferBack(tokens: Tokens, from: Key, to: Key, amount: u64)
    requires from != to && TransferOk(tokens, from, to, amount, {})
    requires TransferOk(Transferred(tokens, from, to, amount), to, from, amount, {})
    ensures Transferred(Transferred(tokens, from, to, amount), to, from, amount) == tokens
  {
  }

  lemma LeftFields(w: World, leave: Tx)
    requires leave.ins.LeaveGroup? && LeaveRefusal(w, leave).None?
    ensures var i, w' := leave.ins, Left(w, leave);
            var g, r := i.group, MemberAddr(i.group, i.member);
            && g in w.groups && r in w.records && w.groups[g].currentMembers > 0
            && TransferOk(w.tokens, VaultAddr(g), i.dest, w.records[r].totalDeposited, {})
            && w'.groups == w.groups[g := w.groups[g].(currentMembers := w.groups[g].currentMembers - 1)]
            && w'.records == w.records - {r}
            && w'.tokens == Transferred(w.tokens, VaultAddr(g), i.dest, w.records[r].totalDeposited)
            && w'.gates == w.gates && w'.tallies == w.tallies
  {
    hide Drain, Transferred;
  }

  lemma PutAndTake<T>(m: map<Key, T>, k: Key, v: T)
    requires k !in m
    ensures m[k := v] - {k} == m
  {
  }

  /** A join and the leave that takes it back. */
  predicate TakesBack(w: World, join: Tx, leave: Tx) {
    && join.ins.JoinGroup? && JoinRefusal(w, join).None?
    && leave.ins.LeaveGroup? && LeaveRefusal(Joined(w, join), leave).None?
    && leave.ins.group == join.ins.group && leave.ins.member == join.ins.member
    && join.ins.group in w.groups && leave.ins.dest == AtaAddr(join.ins.member, w.groups[join.ins.group].mint)
  }

  lemma TokensBack(w: World, join: Tx, leave: Tx)
    requires TakesBack(w, join, leave)
    ensures LeaveRefusal(Joined(w, join), leave).None? && Left(Joined(w, join), leave).tokens == w.tokens
  {
    var c := w.groups[join.ins.group];
    assert NewRecord(c, join.ins).totalDeposited == c.depositAmount;
    JoinPassed(w, join);
    JoinedFields(w, join);
    LeftFields(Joined(w, join), leave);
    hide *;
    TransferBack(w.tokens, leave.ins.dest, VaultAddr(join.ins.group), c.depositAmount);
  }

  lemma AccountsBack(w: World, join: Tx, leave: Tx)
    requires TakesBack(w, join, leave)
    ensures LeaveRefusal(Joined(w, join), leave).None?
    ensures var w' := Left(Joined(w, join), leave);
            w'.groups == w.groups && w'.records == w.records && w'.gates == w.gates && w'.tallies
                == Joined(w, join).tallies
  {
    hide JoinRefusal, LeaveRefusal, Joined, Left, TransferOk, Transferred, NewRecord;
    JoinPassed(w, join);
    JoinedFields(w, join);
    LeftFields(Joined(w, join), leave);
    PutAndTake(w.records, MemberAddr(join.ins.group, join.ins.member), NewRecord(w.groups[join.ins.group], join.ins));
  }

  /** Joining and leaving again, to the account the deposit came from: every group, record, gate and
      token balance is what it was, and only the tally tells. */
  lemma JoinThenLeave(w: World, join: Tx, leave: Tx)
    requires TakesBack(w, join, leave)
    ensures var w', t := Left(Joined(w, join), leave), TallyAddr(join.ins.group, join.ins.member);
            && w'.groups == w.groups && w'.records == w.records && w'.gates == w.gates && w'.tokens == w.tokens
            && JoinsOf(w, t) < U32_MAX && w'.tallies == w.tallies[t := NextTally(w, t, join.ins.rentPayer)]
  {
    JoinCounts(w, join);
    hide JoinRefusal, LeaveRefusal, Joined, Left, NextTally, JoinsOf;
    TokensBack(w, join, leave);
    AccountsBack(w, join, leave);
    hide TakesBack;
  }

  // ---- with anything in between ----

  lemma OpenStep(a: Audit, ev: Event, g: Key)
    requires Inv(a) && g in a.world.groups && g in Step(a, ev).world.groups
    requires Step(a, ev).world.groups[g].status == Open
    ensures a.world.groups[g].status == Open
    ensures Step(a, ev).world.groups[g].currentMembers + One(a, ev, g, Departure)
         == a.world.groups[g].currentMembers + One(a, ev, g, Arrival)
  {
    StepMoves(a, ev, g);
    OneOf(a, ev, g);
    if On(a, ev, g) {
      MovesOpen(ev.tx.ins, a.world.groups[g], Step(a, ev).world.groups[g], a.world.clock);
    }
    hide *;
  }

  lemma MovesOpen(ins: Ins, c: GroupConfig, c': GroupConfig, now: i64)
    requires Moves(ins, c, c', now) && c'.status == Open
    ensures c.status == Open
    ensures c'.currentMembers + (if OfKind(ins, Departure) then 1 else 0)
         == c.currentMembers + if OfKind(ins, Arrival) then 1 else 0
  {
  }

  /** While a group stays Open its members are those it had, plus the joins, minus the leaves. */
  lemma {:induction false} OpenCount(a: Audit, events: seq<Event>, g: Key)
    requires Inv(a) && LivesThrough(a, events, g) && g in Run(a, events).world.groups
    requires Run(a, events).world.groups[g].status == Open
    ensures g in a.world.groups && a.world.groups[g].status == Open
    ensures Run(a, events).world.groups[g].currentMembers + Count(a, events, g, Departure)
         == a.world.groups[g].currentMembers + Count(a, events, g, Arrival)
    decreases |events|
  {
    if events != [] {
      var n := |events| - 1;
      assert Run(a, events) == Step(Run(a, events[..n]), events[n]);
      CountLast(a, events, g, Arrival);
      CountLast(a, events, g, Departure);
      hide *;
      LivesBefore(a, events, g);
      RunKeeps(a, events[..n]);
      OpenStep(Run(a, events[..n]), events[n], g);
      OpenCount(a, events[..n], g);
    }
  }

  /** An accepted join of `m` into `g`. */
  ghost predicate JoinsIn(a: Audit, ev: Event, g: Key, m: Key) {
    && ev.Program? && ev.tx.ins.JoinGroup? && ev.tx.ins.group == g && ev.tx.ins.member == m
    && JoinRefusal(a.world, ev.tx).None?
  }

  /** An accepted leave of `m` from `g`. */
  ghost predicate LeavesFrom(a: Audit, ev: Event, g: Key, m: Key) {
    && ev.Program? && ev.tx.ins.LeaveGroup? && ev.tx.ins.group == g && ev.tx.ins.member == m
    && LeaveRefusal(a.world, ev.tx).None?
  }

  lemma BeforeJoin(a: Audit, ev: Event, g: Key, m: Key)
    requires JoinsIn(a, ev, g, m)
    ensures g in a.world.groups && a.world.groups[g].status == Open && m.External?
        && MemberAddr(g, m) !in a.world.records
  {
    JoinChecks(a.world, ev.tx);
  }

  lemma AfterLeave(a: Audit, ev: Event, g: Key, m: Key)
    requires LeavesFrom(a, ev, g, m)
    ensures var w' := Step(a, ev).world;
            g in w'.groups && w'.groups[g].status == Open && MemberAddr(g, m) !in w'.records
  {
    StepParts(a, ev);
    LeftFields(a.world, ev.tx);
    LeaveChecks(a.world, ev.tx);
    hide Step, LeaveRefusal, Left, Transferred;
  }

  lemma SameAmount(c: GroupConfig, d: GroupConfig)
    requires Evolves(c, d)
    ensures d.Agreed() == c.Agreed() && d.depositAmount == c.depositAmount
  {
  }

  /** A wallet without a record has put in nothing that is still there. */
  lemma AllRepaid(a: Audit, g: Key, m: Key)
    requires Reachable(a) && g in a.world.groups && a.world.groups[g].status == Open && m.External?
    requires MemberAddr(g, m) !in a.world.records
    ensures Net(BookOf(a, g), m) == 0
  {
    PrincipalSafe(a, g, m);
    hide Reachable;
    assert Owed(g, RecordsOf(a.world, g), m) == 0;
  }

  /** From `a` to `z` the vault changed by the donations and by one deposit for each member more or
      less, and by nothing else. */
  ghost predicate VaultFollows(a: Audit, z: Audit, g: Key)
    requires g in a.world.groups && g in z.world.groups
  {
    VaultAmount(z.world, g) - VaultAmount(a.world, g)
    == BookOf(z, g).donated - BookOf(a, g).donated
       + (z.world.groups[g].currentMembers - a.world.groups[g].currentMembers) * a.world.groups[g].depositAmount
  }

  lemma OpenDifference(a: Audit, z: Audit, g: Key)
    requires Reachable(a) && Reachable(z) && g in a.world.groups && g in z.world.groups
    requires a.world.groups[g].status == Open && z.world.groups[g].status == Open
    requires z.world.groups[g].depositAmount == a.world.groups[g].depositAmount
    ensures VaultFollows(a, z, g)
  {
    OpenVault(a, g);
    OpenVault(z, g);
    hide Reachable, BookOf;
    var d: int, x: int, y: int := a.world.groups[g].depositAmount, z.world.groups[g].currentMembers,
        a.world.groups[g].currentMembers;
    assert (x - y) * d == x * d - y * d;
  }

  /** A member joins, anything at all happens while the group lives, and the member leaves: their
      tokens are where they were before, and the vault and the member count differ from what they
      were only by donations and by the joins and leaves of others. */
  lemma JoinCancels(a: Audit, run: seq<Event>, g: Key, m: Key)
    requires Reachable(a) && LivesThrough(a, run, g) && |run| >= 2
    requires JoinsIn(a, run[0], g, m) && LeavesFrom(Run(a, run[..|run| - 1]), run[|run| - 1], g, m)
    ensures var z := Run(a, run);
            && g in a.world.groups && g in z.world.groups
            && Net(BookOf(z, g), m) == Net(BookOf(a, g), m) == 0
            && VaultFollows(a, z, g)
            && z.world.groups[g].currentMembers - a.world.groups[g].currentMembers
               == Count(a, run, g, Arrival) - Count(a, run, g, Departure)
  {
    assert Run(a, run) == Step(Run(a, run[..|run| - 1]), run[|run| - 1]);
    hide *;
    BeforeJoin(a, run[0], g, m);
    AfterLeave(Run(a, run[..|run| - 1]), run[|run| - 1], g, m);
    ReachableInv(a);
    ReachableRun(a, run);
    OneLife(a, run, g);
    OpenCount(a, run, g);
    SameAmount(a.world.groups[g], Run(a, run).world.groups[g]);
    AllRepaid(a, g, m);
    AllRepaid(Run(a, run), g, m);
    OpenDifference(a, Run(a, run), g);
  }

  // ---- a group nobody is in ----

  lemma CancelSettles(w: World, tx: Tx)
    requires tx.ins.EmergencyCancel? && CancelReceipt(w, tx).Ok?
    ensures tx.ins.group in w.groups && VaultAddr(tx.ins.group) in w.tokens
    ensures CancelReceipt(w, tx) == Settle(w, tx.ins.group, tx.ins.remaining, tx.blocked, ByCancel(tx.ins.mintWritable))
  {
    hide Settle;
  }

  lemma NobodysVault(a: Audit, g: Key)
    requires Reachable(a) && g in a.world.groups && VaultAddr(g) in a.world.tokens
    ensures a.world.groups[g].currentMembers == 0 ==> a.world.tokens[VaultAddr(g)].amount == BookOf(a, g).donated
  {
    VaultSolvent(a, g);
    hide Reachable, BookOf;
    if a.world.groups[g].currentMembers == 0 {
      assert RecordsOf(a.world, g) == map[];
      assert Deposits(RecordsOf(a.world, g)) == map[];
    }
  }

  /** Cancelling a group without members burns exactly what outsiders had sent to its vault: nothing
      of anyone's deposit is ever burned. */
  lemma EmptyCancelBurns(a: Audit, tx: Tx)
    requires Reachable(a) && tx.ins.EmergencyCancel? && CancelReceipt(a.world, tx).Ok?
    ensures tx.ins.group in a.world.groups
    ensures var w, g := a.world, tx.ins.group;
            && CancelReceipt(w, tx).value.burned
                == (if w.groups[g].currentMembers == 0 then BookOf(a, g).donated else 0)
            && (w.groups[g].currentMembers == 0 ==> CancelReceipt(w, tx).value.paid == [])
  {
    hide *;
    CancelSettles(a.world, tx);
    NobodysVault(a, tx.ins.group);
    BurnsVault(a.world, tx.ins.group, tx.ins.remaining, tx.blocked, ByCancel(tx.ins.mintWritable));
  }

  lemma BurnsVault(w: World, g: Key, remaining: seq<Key>, blocked: set<Key>, mode: Mode)
    requires g in w.groups && VaultAddr(g) in w.tokens && mode.ByCancel? && Settle(w, g, remaining, blocked, mode).Ok?
    ensures var r := Settle(w, g, remaining, blocked, mode).value;
            && r.burned == (if w.groups[g].currentMembers == 0 then w.tokens[VaultAddr(g)].amount else 0)
            && |r.paid| == w.groups[g].currentMembers
  {
    hide ListUpTo, PayUpTo;
  }
}
