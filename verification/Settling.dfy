/** `distribute` and `emergency_cancel` keep the invariant, pay every member exactly, and cannot be
    stopped from settling by anything the program itself stores. */
module Settling {
  import opened Machine
  import opened Sums
  import opened Ledger
  import opened GroupTime
  import opened Settlement
  import opened Instructions
  import opened Balances
  import opened Audit
  import opened Invariant
  import opened Membership
  import opened Payouts

  // ---- an accepted settlement, taken apart ----

  /** The payouts of an accepted settlement run over an exact list, out of a vault that covers it. */
  lemma SettleChecks(a: Audit, g: Key, remaining: seq<Key>, blocked: set<Key>, mode: Mode)
    requires LocalInv(a) && g in a.world.groups && VaultAddr(g) in a.world.tokens
    requires Settle(a.world, g, remaining, blocked, mode).Ok?
    ensures var w := a.world;
            var mint := w.groups[g].mint;
            var v := VaultAddr(g);
            var r := Settle(w, g, remaining, blocked, mode).value;
            && |remaining| == 2 * w.groups[g].currentMembers
            && |r.deposits| == w.groups[g].currentMembers
            && (forall i :: 0 <= i < |r.deposits| ==>
                  PairError(w, g, mint, remaining, i).None?
                  && r.deposits[i] == w.records[remaining[2 * i]].totalDeposited)
            && SeqTotal(r.deposits) <= w.tokens[v].amount
            && PayUpTo(w.tokens, v, remaining, r.deposits, blocked, mode, |r.deposits|).Ok?
            && r.paid == PayUpTo(w.tokens, v, remaining, r.deposits, blocked, mode, |r.deposits|).value.paid
            && r.tokens == PayUpTo(w.tokens, v, remaining, r.deposits, blocked, mode, |r.deposits|).value.tokens - {v}
            && (mode.ByDistribute? && r.deposits == [] ==> w.tokens[v].amount == 0)
  {
    hide LocalInv, PairError;
  }

  /** An exact list is payable: its destinations are the members' own accounts, all different. */
  lemma ListingPayable(a: Audit, g: Key, remaining: seq<Key>, deposits: seq<u64>)
    requires LocalInv(a) && g in a.world.groups && VaultAddr(g) in a.world.tokens
    requires IsListing(a.world, g, a.world.groups[g].mint, remaining) && |remaining| == 2 * |deposits|
    requires SeqTotal(deposits) <= a.world.tokens[VaultAddr(g)].amount
    ensures Payable(a.world.tokens, VaultAddr(g), a.world.groups[g].mint, remaining, deposits)
    ensures forall i :: 0 <= i < |deposits| ==>
              a.world.tokens[Dest(remaining, i)].owner.External? && !Dest(remaining, i).VaultAddr?
    ensures forall i, j :: 0 <= i < j < |deposits| ==>
              a.world.tokens[Dest(remaining, i)].owner != a.world.tokens[Dest(remaining, j)].owner
  {
    var w := a.world;
    var rs := Listed(remaining);
    OfVault(a, g);
    forall i | 0 <= i < |deposits|
      ensures w.tokens[Dest(remaining, i)].owner.External? && !Dest(remaining, i).VaultAddr?
      ensures remaining[2 * i] == MemberAddr(g, w.tokens[Dest(remaining, i)].owner)
    {
      assert rs[i] in RecordsOf(w, g).Keys;
      OfRecord(a, rs[i]);
      OfVault(a, if Dest(remaining, i).VaultAddr? then Dest(remaining, i).group else g);
    }
    forall i, j | 0 <= i < j < |deposits|
      ensures w.tokens[Dest(remaining, i)].owner != w.tokens[Dest(remaining, j)].owner
    {
      assert rs[i] != rs[j];
    }
  }

  // ---- the accounts after settlement ----

  function SettledSlice(s: Slice, c: GroupConfig, status: Status, now: i64): Slice {
    Slice(Some(c.(status := status, settledAt := now)), s.records, None, s.gate)
  }

  lemma SettleShape(a: Audit, g: Key, remaining: seq<Key>, blocked: set<Key>, mode: Mode, status: Status)
    requires LocalInv(a) && g in a.world.groups && VaultAddr(g) in a.world.tokens
    requires Settle(a.world, g, remaining, blocked, mode).Ok?
    ensures var w' := SettledAs(a.world, g, status, Settle(a.world, g, remaining, blocked, mode).value);
            && OthersKept(a.world, w', g)
            && SliceOf(w', g) == SettledSlice(SliceOf(a.world, g), a.world.groups[g], status, a.world.clock)
  {
    var w, v, mint := a.world, VaultAddr(g), a.world.groups[g].mint;
    var r := Settle(w, g, remaining, blocked, mode).value;
    SettleChecks(a, g, remaining, blocked, mode);
    var w' := SettledAs(w, g, status, r);
    assert w'.tokens == r.tokens && w'.records == w.records && w'.gates == w.gates;
    assert w'.groups == w.groups[g := w.groups[g].(status := status, settledAt := w.clock)];
    AcceptedIsListing(a, g, mint, remaining);
    ListingPayable(a, g, remaining, r.deposits);
    PayExact(w.tokens, v, mint, remaining, r.deposits, blocked, mode, |r.deposits|);
    VaultsUntouched(w.tokens, g, remaining, Shares(r.deposits, w.tokens[v].amount), r.tokens, |r.deposits|,
                    PayUpTo(w.tokens, v, remaining, r.deposits, blocked, mode, |r.deposits|).value.tokens);
    hide LocalInv, Settle, SettledAs, PayUpTo, PairError, Payable, PaidSoFar, IsListing;
    RecordsSame(w, w');
    Frame(w, w', g);
  }

  lemma VaultsUntouched(tokens: Tokens, g: Key, remaining: seq<Key>, paid: seq<nat>, left: Tokens, n: nat, now: Tokens)
    requires 2 * n <= |remaining| && n <= |paid|
    requires PaidSoFar(tokens, VaultAddr(g), remaining, paid, now, n) && left == now - {VaultAddr(g)}
    requires forall i :: 0 <= i < n ==> !Dest(remaining, i).VaultAddr?
    ensures VaultAddr(g) !in left
    ensures forall h :: h != g ==> Lookup(left, VaultAddr(h)) == Lookup(tokens, VaultAddr(h))
  {
    forall h | h != g ensures Lookup(left, VaultAddr(h)) == Lookup(tokens, VaultAddr(h)) {
      assert VaultAddr(h) in now <==> VaultAddr(h) in tokens;
      if VaultAddr(h) in tokens {
        assert now[VaultAddr(h)] == tokens[VaultAddr(h)];
      }
    }
  }

  // ---- what every wallet got ----

  /** A settlement brings each wallet the payout of its own pair, and no other wallet anything. */
  lemma SettleGain(a: Audit, g: Key, remaining: seq<Key>, blocked: set<Key>, mode: Mode, status: Status, k: Key)
    requires LocalInv(a) && g in a.world.groups && VaultAddr(g) in a.world.tokens && k.External?
    requires Settle(a.world, g, remaining, blocked, mode).Ok?
    ensures var w := a.world;
            var r := Settle(w, g, remaining, blocked, mode).value;
            var w' := SettledAs(w, g, status, r);
            && SeqTotal(r.deposits) <= w.tokens[VaultAddr(g)].amount
            && IsListing(w, g, w.groups[g].mint, remaining) && |remaining| == 2 * |r.deposits|
            && Gain(w, w', k, w.groups[g].mint)
               == Received(w.tokens, remaining, Shares(r.deposits, w.tokens[VaultAddr(g)].amount), k, |r.deposits|)
  {
    var w, v, mint := a.world, VaultAddr(g), a.world.groups[g].mint;
    var r := Settle(w, g, remaining, blocked, mode).value;
    SettleChecks(a, g, remaining, blocked, mode);
    assert SettledAs(w, g, status, r).tokens == r.tokens;
    AcceptedIsListing(a, g, mint, remaining);
    ListingPayable(a, g, remaining, r.deposits);
    OfVault(a, g);
    PayReceived(w.tokens, v, mint, remaining, r.deposits, blocked, mode, k, |r.deposits|);
    PayExact(w.tokens, v, mint, remaining, r.deposits, blocked, mode, |r.deposits|);
    var now := PayUpTo(w.tokens, v, remaining, r.deposits, blocked, mode, |r.deposits|).value.tokens;
    assert now[v].owner == v;
    SumDrop(now, v, OfOwner(k, mint));
  }

  /** Pair `i` of an exact list: an open record of the group and its member's own account. */
  lemma PairOfListing(a: Audit, g: Key, remaining: seq<Key>, i: nat)
    requires LocalInv(a) && 2 * i + 1 < |remaining| && g in a.world.groups
    requires IsListing(a.world, g, a.world.groups[g].mint, remaining)
    ensures remaining[2 * i] in a.world.records && Dest(remaining, i) in a.world.tokens
    ensures remaining[2 * i] in RecordsOf(a.world, g)
    ensures var m := a.world.records[remaining[2 * i]].member;
            a.world.tokens[Dest(remaining, i)].owner == m && remaining[2 * i] == MemberAddr(g, m)
  {
    assert Listed(remaining)[i] in RecordsOf(a.world, g).Keys;
    OfRecord(a, remaining[2 * i]);
  }

  /** A member with an open record is on an exact list, at one place. */
  lemma PlaceOnListing(w: World, g: Key, mint: Key, remaining: seq<Key>, k: Key) returns (i: nat)
    requires IsListing(w, g, mint, remaining) && MemberAddr(g, k) in RecordsOf(w, g)
    ensures 2 * i + 1 < |remaining| && remaining[2 * i] == MemberAddr(g, k)
    ensures forall j :: 0 <= j < |remaining| / 2 && j != i ==> remaining[2 * j] != remaining[2 * i]
  {
    var rs := Listed(remaining);
    assert MemberAddr(g, k) in (set r | r in rs);
    i :| 0 <= i < |rs| && rs[i] == MemberAddr(g, k);
    forall j | 0 <= j < |remaining| / 2 && j != i ensures remaining[2 * j] != remaining[2 * i] {
      assert rs[j] != rs[i];
    }
  }

  /** What a wallet receives: what it is owed, and the donations when it is the last listed. */
  lemma ReceivedExact(a: Audit, g: Key, remaining: seq<Key>, deposits: seq<u64>, vault: nat, k: Key)
    requires LocalInv(a) && g in a.world.groups && VaultAddr(g) in a.world.tokens && k.External?
    requires IsListing(a.world, g, a.world.groups[g].mint, remaining) && |remaining| == 2 * |deposits|
    requires SeqTotal(deposits) <= vault == a.world.tokens[VaultAddr(g)].amount
    requires forall i :: 0 <= i < |deposits| ==>
               remaining[2 * i] in a.world.records && deposits[i] == a.world.records[remaining[2 * i]].totalDeposited
    requires forall i :: 0 <= i < |deposits| ==> Dest(remaining, i) in a.world.tokens
    ensures Received(a.world.tokens, remaining, Shares(deposits, vault), k, |deposits|)
         == Owed(g, RecordsOf(a.world, g), k)
            + if LastListed(a.world, remaining) == Some(k) then vault - SeqTotal(deposits) else 0
  {
    var w, n := a.world, |deposits|;
    ListingPayable(a, g, remaining, deposits);
    hide Payable;
    ReceivedOne(w.tokens, remaining, Shares(deposits, vault), k, n);
    SharesExact(deposits, vault);
    hide Received, Shares;
    forall j | 0 <= j < n
      ensures w.tokens[Dest(remaining, j)].owner == w.records[remaining[2 * j]].member
      ensures remaining[2 * j] == MemberAddr(g, w.records[remaining[2 * j]].member)
      ensures remaining[2 * j] in RecordsOf(w, g)
    {
      PairOfListing(a, g, remaining, j);
    }
    if MemberAddr(g, k) in RecordsOf(w, g) {
      var i := PlaceOnListing(w, g, w.groups[g].mint, remaining, k);
      hide LocalInv, IsListing, SeqTotal;
      LastIsLast(w, g, remaining, i, k);
    } else {
      hide LocalInv, IsListing, SeqTotal;
      NotLast(w, g, remaining, k);
    }
  }

  lemma NotLast(w: World, g: Key, remaining: seq<Key>, k: Key)
    requires |remaining| % 2 == 0 && MemberAddr(g, k) !in RecordsOf(w, g)
    requires forall j :: 0 <= j < |remaining| / 2 ==>
               remaining[2 * j] in RecordsOf(w, g) && remaining[2 * j]
                   == MemberAddr(g, w.records[remaining[2 * j]].member)
    ensures LastListed(w, remaining) != Some(k)
  {
    if |remaining| >= 2 {
      var last := |remaining| / 2 - 1;
      assert remaining[2 * last] == remaining[|remaining| - 2];
    }
  }

  lemma LastIsLast(w: World, g: Key, remaining: seq<Key>, i: nat, k: Key)
    requires |remaining| % 2 == 0 && 2 * i + 1 < |remaining|
    requires remaining[2 * i] == MemberAddr(g, k)
    requires forall j :: 0 <= j < |remaining| / 2 ==>
               remaining[2 * j] in w.records && remaining[2 * j] == MemberAddr(g, w.records[remaining[2 * j]].member)
    requires forall j :: 0 <= j < |remaining| / 2 && j != i ==> remaining[2 * j] != remaining[2 * i]
    ensures LastListed(w, remaining) == Some(k) <==> i == |remaining| / 2 - 1
  {
    var last := |remaining| / 2 - 1;
    assert remaining[2 * last] == remaining[|remaining| - 2];
  }

  // ---- settlement keeps the invariant ----

  lemma SettleConfig(build: Build, g: Key, c: GroupConfig, n: nat, status: Status, now: i64)
    requires ConfigInv(build, g, c, n) && Settled(status)
    ensures ConfigInv(build, g, c.(status := status, settledAt := now), n)
  {
  }

  /** Every wallet gets back what it is owed; the heir gets what nobody deposited. */
  ghost predicate Repaid(g: Key, s: Slice, b: Book, b': Book) {
    && b'.joined == b.joined && b'.deposits == b.deposits && b'.donated == b.donated
    && s.vault.Some?
    && forall k: Key :: k.External? ==>
         Net(b', k) == Net(b, k) + Owed(g, s.records, k)
                       + if b'.heir == Some(k) then s.vault.value.amount - Total(Deposits(s.records)) else 0
  }

  lemma SettleMoney(g: Key, c: GroupConfig, s: Slice, b: Book, b': Book, status: Status, now: i64)
    requires MoneyInv(g, c, s, b) && Live(c.status) && Settled(status) && Repaid(g, s, b, b')
    ensures MoneyInv(g, c.(status := status, settledAt := now), SettledSlice(s, c, status, now), b')
  {
  }

  lemma SettleLocal(build: Build, g: Key, c: GroupConfig, s: Slice, b: Book, b': Book, status: Status, now: i64)
    requires GroupInv(build, g, c, s, b) && Live(c.status) && Settled(status) && Repaid(g, s, b, b')
    ensures GroupInv(build, g, c.(status := status, settledAt := now), SettledSlice(s, c, status, now), b')
  {
    var c', s' := c.(status := status, settledAt := now), SettledSlice(s, c, status, now);
    assert s'.records == s.records && s'.gate == s.gate && b'.joined == b.joined && b'.deposits == b.deposits;
    assert c'.status != Open;
    hide *;
    Parts(build, g, c, s, b);
    SettleConfig(build, g, c, |s.records|, status, now);
    RecordsKept(build, c, c', g, s.gate, s.records, b, b');
    SettleMoney(g, c, s, b, b', status, now);
    Assemble(build, g, c', s', b');
  }

  /** Which transactions settle, and how. */
  function SettleMode(ins: Ins): Mode
    requires ins.Distribute? || ins.EmergencyCancel?
  {
    if ins.Distribute? then ByDistribute else ByCancel(ins.mintWritable)
  }

  lemma SettlesHere(w: World, tx: Tx)
    requires (tx.ins.Distribute? || tx.ins.EmergencyCancel?) && Refusal(w, tx).None?
    ensures tx.ins.group in w.groups && tx.ins.group.GroupAddr? && VaultAddr(tx.ins.group) in w.tokens
    ensures var r := Settle(w, tx.ins.group, tx.ins.remaining, tx.blocked, SettleMode(tx.ins));
            && r.Ok?
            && After(w, tx) == SettledAs(w, tx.ins.group, if tx.ins.Distribute? then Completed else Cancelled, r.value)
  {
    hide Settle, SettledAs, CycleEnd;
  }

  lemma SettleBook(w: World, tx: Tx, w': World, b: Book)
    requires tx.ins.Distribute? || tx.ins.EmergencyCancel?
    ensures var b' := NextBook(w, tx, w', b);
            && b'.joined == b.joined && b'.deposits == b.deposits && b'.donated == b.donated
            && b'.heir == LastListed(w, tx.ins.remaining)
  {
    hide Gain, LastListed, GroupMint;
  }

  /** What the list of an accepted settlement was. */
  lemma SettledList(a: Audit, g: Key, remaining: seq<Key>, blocked: set<Key>, mode: Mode)
    requires LocalInv(a) && g in a.world.groups && VaultAddr(g) in a.world.tokens
    requires Settle(a.world, g, remaining, blocked, mode).Ok?
    ensures var w := a.world;
            var r := Settle(w, g, remaining, blocked, mode).value;
            && IsListing(w, g, w.groups[g].mint, remaining) && |remaining| == 2 * |r.deposits|
            && (forall i :: 0 <= i < |r.deposits| ==>
                  && remaining[2 * i] in w.records && Dest(remaining, i) in w.tokens
                  && r.deposits[i] == w.records[remaining[2 * i]].totalDeposited)
            && SeqTotal(r.deposits) == Total(Deposits(RecordsOf(w, g))) <= w.tokens[VaultAddr(g)].amount
  {
    var w := a.world;
    var r := Settle(w, g, remaining, blocked, mode).value;
    SettleChecks(a, g, remaining, blocked, mode);
    AcceptedIsListing(a, g, w.groups[g].mint, remaining);
    hide Settle, PayUpTo, PairError;
    forall i | 0 <= i < |r.deposits| ensures remaining[2 * i] in w.records && Dest(remaining, i) in w.tokens {
      PairOfListing(a, g, remaining, i);
    }
    hide *;
    ListedSum(w, g, w.groups[g].mint, remaining, r.deposits);
  }

  lemma SettleNet(a: Audit, tx: Tx, mode: Mode, status: Status, k: Key)
    requires LocalInv(a) && (tx.ins.Distribute? || tx.ins.EmergencyCancel?) && k.External?
    requires tx.ins.group in a.world.groups && VaultAddr(tx.ins.group) in a.world.tokens
    requires Settle(a.world, tx.ins.group, tx.ins.remaining, tx.blocked, mode).Ok?
    ensures var w, g := a.world, tx.ins.group;
            var w' := SettledAs(w, g, status, Settle(w, g, tx.ins.remaining, tx.blocked, mode).value);
            Net(NextBook(w, tx, w', BookOf(a, g)), k)
            == Net(BookOf(a, g), k) + Owed(g, RecordsOf(w, g), k)
               + if LastListed(w, tx.ins.remaining) == Some(k)
                 then w.tokens[VaultAddr(g)].amount - Total(Deposits(RecordsOf(w, g))) else 0
  {
    var w, g, remaining := a.world, tx.ins.group, tx.ins.remaining;
    assert GroupMint(w, g) == w.groups[g].mint;
    hide *;
    var r := Settle(w, g, remaining, tx.blocked, mode).value;
    var w' := SettledAs(w, g, status, r);
    SettledList(a, g, remaining, tx.blocked, mode);
    NetNext(w, tx, w', BookOf(a, g), k);
    SettleGain(a, g, remaining, tx.blocked, mode, status, k);
    ReceivedExact(a, g, remaining, r.deposits, w.tokens[VaultAddr(g)].amount, k);
  }

  lemma SettleRepays(a: Audit, tx: Tx, mode: Mode, status: Status)
    requires LocalInv(a) && (tx.ins.Distribute? || tx.ins.EmergencyCancel?)
    requires tx.ins.group in a.world.groups && VaultAddr(tx.ins.group) in a.world.tokens
    requires Settle(a.world, tx.ins.group, tx.ins.remaining, tx.blocked, mode).Ok?
    ensures var g := tx.ins.group;
            var w' := SettledAs(a.world, g, status, Settle(a.world, g, tx.ins.remaining, tx.blocked, mode).value);
            Repaid(g, SliceOf(a.world, g), BookOf(a, g), NextBook(a.world, tx, w', BookOf(a, g)))
  {
    hide LocalInv, Settle, SettledAs, NextBook, Net, Owed, LastListed, RecordsOf, Deposits, Total;
    var w, g, remaining := a.world, tx.ins.group, tx.ins.remaining;
    var w' := SettledAs(w, g, status, Settle(w, g, remaining, tx.blocked, mode).value);
    SettleBook(w, tx, w', BookOf(a, g));
    forall k: Key | k.External?
      ensures Net(NextBook(w, tx, w', BookOf(a, g)), k)
           == Net(BookOf(a, g), k) + Owed(g, RecordsOf(w, g), k)
              + if LastListed(w, remaining) == Some(k)
                then w.tokens[VaultAddr(g)].amount - Total(Deposits(RecordsOf(w, g))) else 0
    {
      SettleNet(a, tx, mode, status, k);
    }
  }

  lemma SettleKeeps(a: Audit, tx: Tx, mode: Mode, status: Status)
    requires LocalInv(a) && (tx.ins.Distribute? || tx.ins.EmergencyCancel?) && Settled(status)
    requires tx.ins.group in a.world.groups && VaultAddr(tx.ins.group) in a.world.tokens
    requires Settle(a.world, tx.ins.group, tx.ins.remaining, tx.blocked, mode).Ok?
    ensures TargetKept(a, tx, SettledAs(a.world, tx.ins.group, status,
                                        Settle(a.world, tx.ins.group, tx.ins.remaining, tx.blocked, mode).value))
  {
    var g := tx.ins.group;
    var w := a.world;
    var w' := SettledAs(w, g, status, Settle(w, g, tx.ins.remaining, tx.blocked, mode).value);
    var b, c, s := BookOf(a, g), w.groups[g], SliceOf(w, g);
    var c' := c.(status := status, settledAt := w.clock);
    OfVault(a, g);
    assert w'.build == w.build && SettledSlice(s, c, status, w.clock).group == Some(c') && Live(c.status);
    hide *;
    OfGroup(a, g);
    SettleShape(a, g, tx.ins.remaining, tx.blocked, mode, status);
    SettleRepays(a, tx, mode, status);
    SettleLocal(w.build, g, c, s, b, NextBook(w, tx, w', b), status, w.clock);
    Conclude(a, tx, w', c', SliceOf(w', g), NextBook(w, tx, w', b));
  }
}
