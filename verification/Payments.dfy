/** The three instructions that move one member's tokens keep the invariant. */
module Payments {
  import opened Machine
  import opened Sums
  import opened Ledger
  import opened GroupTime
  import opened Instructions
  import opened Balances
  import opened Audit
  import opened Invariant
  import opened Membership

  // ---- one record and the money behind it ----

  /** The notes on joins and deposits differ at one member at most. */
  ghost predicate NotesOffMember(b: Book, b': Book, m: Key) {
    && b'.joined - {m} == b.joined - {m}
    && b'.deposits - {m} == b.deposits - {m}
  }

  lemma NotesOfOthers(b: Book, b': Book, m: Key, k: Key)
    requires NotesOffMember(b, b', m) && k != m
    ensures k in b'.joined <==> k in b.joined
    ensures k in b.joined ==> b'.joined[k] == b.joined[k]
    ensures k in b'.deposits <==> k in b.deposits
    ensures k in b.deposits ==> b'.deposits[k] == b.deposits[k]
  {
    assert k in b.joined <==> k in b.joined - {m};
    assert k in b'.joined <==> k in b'.joined - {m};
    assert k in b.deposits <==> k in b.deposits - {m};
    assert k in b'.deposits <==> k in b'.deposits - {m};
  }

  lemma OtherRecord(build: Build, c: GroupConfig, g: Key, gate: Option<Key>, rec: MemberRecord, b: Book, b': Book,
      m: Key)
    requires c.frequency <= MaxFrequency(build)
    requires RecordInv(build, c, g, gate, rec, b) && rec.member != m && NotesOffMember(b, b', m)
    ensures RecordInv(build, c, g, gate, rec, b')
  {
    NotesOfOthers(b, b', m, rec.member);
  }

  /** One record written, the others untouched. */
  lemma RecordsWith(build: Build, c: GroupConfig, g: Key, gate: Option<Key>, records: map<Key, MemberRecord>,
                    b: Book, b': Book, rec: MemberRecord)
    requires c.frequency <= MaxFrequency(build)
    requires RecordsInv(build, c, g, gate, records, b) && NotesOffMember(b, b', rec.member)
    requires RecordInv(build, c, g, gate, rec, b')
    ensures RecordsInv(build, c, g, gate, records[MemberAddr(g, rec.member) := rec], b')
  {
    var records' := records[MemberAddr(g, rec.member) := rec];
    forall q | q in records' ensures RecordInv(build, c, g, gate, records'[q], b') {
      if q != MemberAddr(g, rec.member) {
        assert RecordInv(build, c, g, gate, records[q], b);
        OtherRecord(build, c, g, gate, records[q], b, b', rec.member);
      }
    }
  }

  function Filled(s: Slice, c': GroupConfig, rec: MemberRecord, amount: u64): (s': Slice)
    requires s.vault.Some? && s.vault.value.amount + amount <= U64_MAX
    ensures s'.group == Some(c') && s'.gate == s.gate
    ensures s'.records == s.records[MemberAddr(rec.group, rec.member) := rec]
  {
    Slice(Some(c'), s.records[MemberAddr(rec.group, rec.member) := rec],
          Some(s.vault.value.(amount := s.vault.value.amount + amount)), s.gate)
  }

  function Emptied(s: Slice, c': GroupConfig, r: Key, amount: u64): (s': Slice)
    requires s.vault.Some? && amount <= s.vault.value.amount
    ensures s'.group == Some(c') && s'.gate == s.gate && s'.records == s.records - {r}
  {
    Slice(Some(c'), s.records - {r}, Some(s.vault.value.(amount := s.vault.value.amount - amount)), s.gate)
  }

  /** A member pays `amount` and the record grows by as much: the group stays solvent. */
  lemma MoneyPaid(g: Key, c: GroupConfig, s: Slice, b: Book, c': GroupConfig, b': Book, rec: MemberRecord, amount: u64)
    requires MoneyInv(g, c, s, b) && Live(c.status)
    requires c'.mint == c.mint && c'.status == c.status && b'.donated == b.donated
    requires rec.group == g && rec.totalDeposited == Owed(g, s.records, rec.member) + amount
    requires s.vault.Some? && s.vault.value.amount + amount <= U64_MAX
    requires forall k: Key :: k.External? ==> Net(b', k) == Net(b, k) - if k == rec.member then amount else 0
    ensures MoneyInv(g, c', Filled(s, c', rec, amount), b')
  {
    DepositsPut(s.records, MemberAddr(g, rec.member), rec);
  }

  // ---- what a payment changes ----

  /** A record written and the vault credited, seen from every group. */
  lemma PaidShape(w: World, w': World, g: Key, c': GroupConfig, rec: MemberRecord, amount: u64)
    requires rec.group == g && g in w.groups && w'.groups == w.groups[g := c'] && w'.gates == w.gates
    requires w'.records == w.records[MemberAddr(g, rec.member) := rec]
    requires MemberAddr(g, rec.member) in w.records ==> w.records[MemberAddr(g, rec.member)].group == g
    requires VaultChange(w, w', g, amount)
    ensures OthersKept(w, w', g)
    ensures SliceOf(w, g).vault.Some? && SliceOf(w, g).vault.value.amount + amount <= U64_MAX
    ensures SliceOf(w', g) == Filled(SliceOf(w, g), c', rec, amount)
  {
    RecordsPut(w, w', MemberAddr(g, rec.member), rec);
    Frame(w, w', g);
  }

  /** A record dropped and the vault debited. */
  lemma ReturnedShape(w: World, w': World, g: Key, c': GroupConfig, r: Key, amount: u64)
    requires g in w.groups && w'.groups == w.groups[g := c'] && w'.gates == w.gates
    requires r in w.records && w.records[r].group == g && w'.records == w.records - {r}
    requires VaultChange(w, w', g, 0 - amount)
    ensures OthersKept(w, w', g)
    ensures r in SliceOf(w, g).records && SliceOf(w, g).records[r] == w.records[r]
    ensures SliceOf(w, g).vault.Some? && amount <= SliceOf(w, g).vault.value.amount
    ensures SliceOf(w', g) == Emptied(SliceOf(w, g), c', r, amount)
  {
    RecordsDrop(w, w', r);
    Frame(w, w', g);
  }

  /** One vault's balance moves by `delta`; the other vaults keep theirs. */
  ghost predicate VaultChange(w: World, w': World, g: Key, delta: int) {
    && VaultAddr(g) in w.tokens && VaultAddr(g) in w'.tokens
    && 0 <= w.tokens[VaultAddr(g)].amount + delta <= U64_MAX
    && w'.tokens[VaultAddr(g)] == w.tokens[VaultAddr(g)].(amount := w.tokens[VaultAddr(g)].amount + delta)
    && forall h :: h != g ==> Lookup(w'.tokens, VaultAddr(h)) == Lookup(w.tokens, VaultAddr(h))
  }

  /** What a transfer between a wallet's account and a vault means for every wallet. */
  lemma TransferGain(w: World, w': World, from: Key, to: Key, amount: u64, k: Key)
    requires TransferOk(w.tokens, from, to, amount, {}) && w'.tokens == Transferred(w.tokens, from, to, amount)
    ensures Gain(w, w', k, w.tokens[from].mint)
         == (if w.tokens[to].owner == k then amount else 0) - (if w.tokens[from].owner == k then amount else 0)
  {
    SumTransfer(w.tokens, from, to, amount, OfOwner(k, w.tokens[from].mint));
  }

  /** A token account that a wallet owns is nobody's vault. */
  lemma VaultsApart(a: Audit, t: Key, m: Key)
    requires LocalInv(a) && m.External?
    requires t in a.world.tokens && a.world.tokens[t].owner == m
    ensures !t.VaultAddr?
  {
    if t.VaultAddr? {
      OfVault(a, t.group);
    }
  }

  // ---- join_group ----

  /** What an accepted join has checked. */
  lemma JoinChecks(w: World, tx: Tx)
    requires tx.ins.JoinGroup? && JoinRefusal(w, tx).None?
    ensures tx.ins.group in w.groups
    ensures var c := w.groups[tx.ins.group];
            && c.status == Open && c.currentMembers < c.maxMembers && c.currentMembers < U8_MAX
            && MemberAddr(tx.ins.group, tx.ins.member) !in w.records
            && MemberAddr(tx.ins.group, NewRecord(c, tx.ins).member) !in RecordsOf(w, tx.ins.group)
            && MemberAddr(tx.ins.group, NewRecord(c, tx.ins).member) !in w.records
            && NewRecord(c, tx.ins).group == tx.ins.group && NewRecord(c, tx.ins).member == tx.ins.member
            && NewRecord(c, tx.ins).totalDeposited == c.depositAmount
            && tx.ins.member.External?
    ensures Joined(w, tx).build == w.build
  {
  }

  /** What an accepted join has checked about accounts and funds. */
  lemma JoinPassed(w: World, join: Tx)
    requires join.ins.JoinGroup? && JoinRefusal(w, join).None?
    ensures var i, g := join.ins, join.ins.group;
            && g in w.groups && w.groups[g].currentMembers < U8_MAX && MemberAddr(g, i.member) !in w.records
            && AtaAddr(i.member, w.groups[g].mint) in w.tokens
            && TransferOk(w.tokens, AtaAddr(i.member, w.groups[g].mint), VaultAddr(g), w.groups[g].depositAmount, {})
            && JoinsOf(w, TallyAddr(g, i.member)) < U32_MAX
  {
    hide GateError;
  }

  /** `w'` is `w` with the record, count, tally and deposit of one join, and the rent funded. */
  ghost predicate LooksJoined(w: World, i: Ins, w': World)
    requires i.JoinGroup?
  {
    var g, t := i.group, TallyAddr(i.group, i.member);
    && g in w.groups && w.groups[g].currentMembers < U8_MAX && JoinsOf(w, t) < U32_MAX
    && var c := w.groups[g];
       && TransferOk(w.tokens, AtaAddr(i.member, c.mint), VaultAddr(g), c.depositAmount, {})
       && w'.build == w.build && w'.clock == w.clock && w'.rentRate == w.rentRate && w'.gates == w.gates
       && w'.lamports == JoinFunded(w, i).lamports && w'.purse == JoinFunded(w, i).purse
       && w'.groups == w.groups[g := c.(currentMembers := c.currentMembers + 1)]
       && w'.records == w.records[MemberAddr(g, i.member) := NewRecord(c, i)]
       && w'.tallies == w.tallies[t := NextTally(w, t, i.rentPayer)]
       && w'.tokens == Transferred(w.tokens, AtaAddr(i.member, c.mint), VaultAddr(g), c.depositAmount)
  }

  /** What an accepted join leaves, field by field. */
  lemma JoinedFields(w: World, join: Tx)
    requires join.ins.JoinGroup? && JoinRefusal(w, join).None?
    ensures LooksJoined(w, join.ins, Joined(w, join))
  {
    hide JoinFunded, NextTally, JoinRefusal, Transferred, TransferOk, NewRecord, JoinsOf;
    JoinPassed(w, join);
  }

  predicate OneMoreMember(c: GroupConfig, c': GroupConfig) {
    c.currentMembers < U8_MAX && c' == c.(currentMembers := c.currentMembers + 1)
  }

  /** What a join writes. */
  lemma JoinWrites(w: World, tx: Tx)
    requires tx.ins.JoinGroup? && JoinRefusal(w, tx).None?
    ensures var g := tx.ins.group;
            var c := w.groups[g];
            var w' := Joined(w, tx);
            && g in w'.groups && w'.groups == w.groups[g := w'.groups[g]] && OneMoreMember(c, w'.groups[g])
            && w'.records == w.records[MemberAddr(g, NewRecord(c, tx.ins).member) := NewRecord(c, tx.ins)]
            && w'.gates == w.gates
  {
    hide GateError, NextTally, JoinFunded;
  }

  lemma JoinVault(w: World, tx: Tx)
    requires tx.ins.JoinGroup? && JoinRefusal(w, tx).None?
    ensures VaultChange(w, Joined(w, tx), tx.ins.group, w.groups[tx.ins.group].depositAmount)
  {
    hide GateError, NextTally, JoinFunded, NewRecord;
  }

  lemma JoinPays(a: Audit, tx: Tx, k: Key)
    requires LocalInv(a) && tx.ins.JoinGroup? && JoinRefusal(a.world, tx).None? && k.External?
    ensures Gain(a.world, Joined(a.world, tx), k, GroupMint(a.world, tx.ins.group))
         == if k == tx.ins.member then 0 - a.world.groups[tx.ins.group].depositAmount else 0
  {
    var w, g := a.world, tx.ins.group;
    OfVault(a, g);
    hide LocalInv;
    TransferGain(w, Joined(w, tx), AtaAddr(tx.ins.member, w.groups[g].mint), VaultAddr(g), w.groups[g].depositAmount,
        k);
  }

  lemma JoinBook(w: World, tx: Tx, w': World, b: Book)
    requires tx.ins.JoinGroup?
    ensures var b' := NextBook(w, tx, w', b);
            var m := tx.ins.member;
            && NotesOffMember(b, b', m) && b'.donated == b.donated
            && m in b'.joined && m in b'.deposits && b'.deposits[m] == []
            && b'.joined[m] == JoinFact(tx, JoinsOf(w, TallyAddr(tx.ins.group, m)))
  {
  }

  lemma JoinRecord(w: World, tx: Tx, b': Book, gate: Option<Key>)
    requires tx.ins.JoinGroup? && JoinRefusal(w, tx).None?
    requires gate == Lookup(w.gates, GateAddr(tx.ins.group))
    requires var c := w.groups[tx.ins.group];
             && InRange(w.build, c)
             && tx.ins.member in b'.joined && tx.ins.member in b'.deposits
             && b'.joined[tx.ins.member] == JoinFact(tx, JoinsOf(w, TallyAddr(tx.ins.group, tx.ins.member)))
             && b'.deposits[tx.ins.member] == []
    ensures var c := w.groups[tx.ins.group];
            var c' := c.(currentMembers := c.currentMembers + 1);
            RecordInv(w.build, c', tx.ins.group, gate, NewRecord(c, tx.ins), b')
  {
    CountFirst();
  }

  lemma ConfigFilled(build: Build, g: Key, c: GroupConfig, c': GroupConfig, n: nat)
    requires ConfigInv(build, g, c, n) && c.status == Open && c.currentMembers < c.maxMembers && OneMoreMember(c, c')
    ensures ConfigInv(build, g, c', n + 1)
  {
  }

  lemma OneMore(records: map<Key, MemberRecord>, r: Key, rec: MemberRecord)
    requires r !in records
    ensures |records[r := rec]| == |records| + 1
  {
    assert records[r := rec].Keys == records.Keys + {r};
  }

  lemma OwedNothing(g: Key, c: GroupConfig, records: map<Key, MemberRecord>, m: Key)
    requires MemberAddr(g, m) !in records && c.status == Open
    ensures Owed(g, records, m) == 0 && Live(c.status)
  {
  }

  lemma OpenIsLive(c: GroupConfig)
    requires c.status == Open || c.status == Active
    ensures Live(c.status)
  {
  }

  /** What one member more or less leaves alone. */
  lemma OneMoreKeeps(c: GroupConfig, c': GroupConfig)
    requires OneMoreMember(c, c')
    ensures c'.Agreed() == c.Agreed() && c'.frequency == c.frequency && c'.depositAmount == c.depositAmount
    ensures c'.cycleStart == c.cycleStart && c'.status == c.status && c'.mint == c.mint
  {
  }

  lemma JoinLocal(build: Build, g: Key, c: GroupConfig, s: Slice, b: Book, c': GroupConfig, b': Book, rec: MemberRecord)
    requires GroupInv(build, g, c, s, b) && c.status == Open && c.currentMembers < c.maxMembers
    requires rec.group == g && MemberAddr(g, rec.member) !in s.records && rec.totalDeposited == c.depositAmount
    requires s.vault.Some? && s.vault.value.amount + c.depositAmount <= U64_MAX
    requires OneMoreMember(c, c')
    requires RecordInv(build, c', g, s.gate, rec, b')
    requires NotesOffMember(b, b', rec.member) && b'.donated == b.donated
    requires forall k: Key :: k.External? ==> Net(b', k) == Net(b, k) - if k == rec.member then c.depositAmount else 0
    ensures GroupInv(build, g, c', Filled(s, c', rec, c.depositAmount), b')
  {
    hide *;
    var r := MemberAddr(g, rec.member);
    Parts(build, g, c, s, b);
    OwedNothing(g, c, s.records, rec.member);
    OneMoreKeeps(c, c');
    ConfigFilled(build, g, c, c', |s.records|);
    OneMore(s.records, r, rec);
    RecordsKept(build, c, c', g, s.gate, s.records, b, b);
    RecordsWith(build, c', g, s.gate, s.records, b, b', rec);
    MoneyPaid(g, c, s, b, c', b', rec, c.depositAmount);
    Assemble(build, g, c', Filled(s, c', rec, c.depositAmount), b');
  }

  lemma JoinNets(a: Audit, tx: Tx)
    requires LocalInv(a) && tx.ins.JoinGroup? && JoinRefusal(a.world, tx).None?
    ensures var w, b := a.world, BookOf(a, tx.ins.group);
            forall k: Key :: k.External? ==>
              Net(NextBook(w, tx, Joined(w, tx), b), k)
              == Net(b, k) - if k == tx.ins.member then w.groups[tx.ins.group].depositAmount else 0
  {
    JoinChecks(a.world, tx);
    hide *;
    var w, b := a.world, BookOf(a, tx.ins.group);
    forall k: Key | k.External?
      ensures Net(NextBook(w, tx, Joined(w, tx), b), k)
           == Net(b, k) - if k == tx.ins.member then w.groups[tx.ins.group].depositAmount else 0
    {
      JoinPays(a, tx, k);
      NetNext(w, tx, Joined(w, tx), b, k);
    }
  }

  lemma JoinMember(a: Audit, tx: Tx, c': GroupConfig)
    requires LocalInv(a) && tx.ins.JoinGroup? && JoinRefusal(a.world, tx).None?
    requires tx.ins.group in a.world.groups
    requires OneMoreMember(a.world.groups[tx.ins.group], c')
    ensures c'.frequency <= MaxFrequency(a.world.build)
    ensures var w, g := a.world, tx.ins.group;
            RecordInv(w.build, c', g, SliceOf(w, g).gate,
                      NewRecord(w.groups[g], tx.ins), NextBook(w, tx, Joined(w, tx), BookOf(a, g)))
  {
    JoinChecks(a.world, tx);
    OfGroup(a, tx.ins.group);
    hide *;
    var w, g := a.world, tx.ins.group;
    var b' := NextBook(w, tx, Joined(w, tx), BookOf(a, g));
    JoinBook(w, tx, Joined(w, tx), BookOf(a, g));
    JoinRecord(w, tx, b', SliceOf(w, g).gate);
  }

  lemma JoinKeeps(a: Audit, tx: Tx)
    requires LocalInv(a) && tx.ins.JoinGroup? && JoinRefusal(a.world, tx).None?
    ensures TargetKept(a, tx, Joined(a.world, tx))
  {
    hide *;
    var g := tx.ins.group;
    JoinChecks(a.world, tx);
    JoinWrites(a.world, tx);
    JoinVault(a.world, tx);
    var w, w', b := a.world, Joined(a.world, tx), BookOf(a, g);
    var b' := NextBook(w, tx, w', b);
    var c, s := w.groups[g], SliceOf(w, g);
    var c', rec := w'.groups[g], NewRecord(c, tx.ins);
    OfGroup(a, g);
    PaidShape(w, w', g, c', rec, c.depositAmount);
    JoinBook(w, tx, w', b);
    JoinNets(a, tx);
    JoinMember(a, tx, c');
    JoinLocal(w.build, g, c, s, b, c', b', rec);
    Conclude(a, tx, w', c', SliceOf(w', g), b');
  }

  // ---- leave_group ----

  lemma LeaveWrites(w: World, tx: Tx)
    requires tx.ins.LeaveGroup? && LeaveRefusal(w, tx).None? && !tx.ins.dest.VaultAddr?
    ensures var g := tx.ins.group;
            var c := w.groups[g];
            var w' := Left(w, tx);
            var r := MemberAddr(g, tx.ins.member);
            && g in w'.groups && w'.groups == w.groups[g := w'.groups[g]] && OneMoreMember(w'.groups[g], c)
            && w'.records == w.records - {r}
            && w'.gates == w.gates && w'.build == w.build
            && VaultChange(w, w', g, 0 - w.records[r].totalDeposited)
  {
  }

  /** What an accepted leave has checked. */
  lemma LeaveChecks(w: World, tx: Tx)
    requires tx.ins.LeaveGroup? && LeaveRefusal(w, tx).None?
    ensures var g := tx.ins.group;
            && g in w.groups && w.groups[g].status == Open && w.groups[g].currentMembers > 0
            && MemberAddr(g, tx.ins.member) in w.records && tx.ins.member.External?
            && tx.ins.dest in w.tokens && w.tokens[tx.ins.dest].owner == tx.ins.member
  {
  }

  lemma LeavePays(a: Audit, tx: Tx, k: Key)
    requires LocalInv(a) && tx.ins.LeaveGroup? && LeaveRefusal(a.world, tx).None? && k.External?
    ensures Gain(a.world, Left(a.world, tx), k, GroupMint(a.world, tx.ins.group))
         == if k == tx.ins.member then a.world.records[MemberAddr(tx.ins.group, k)].totalDeposited else 0
  {
    var w, g := a.world, tx.ins.group;
    OfVault(a, g);
    hide LocalInv;
    TransferGain(w, Left(w, tx), VaultAddr(g), tx.ins.dest, w.records[MemberAddr(g, tx.ins.member)].totalDeposited, k);
  }

  lemma LeaveBook(w: World, tx: Tx, w': World, b: Book)
    requires tx.ins.LeaveGroup?
    ensures var b' := NextBook(w, tx, w', b);
            b'.joined == b.joined && b'.deposits == b.deposits && b'.donated == b.donated
  {
  }

  lemma OwedTotal(w: World, g: Key, m: Key)
    requires MemberAddr(g, m) in w.records && w.records[MemberAddr(g, m)].group == g
    ensures Owed(g, SliceOf(w, g).records, m) == w.records[MemberAddr(g, m)].totalDeposited
  {
  }

  lemma ConfigEmptied(build: Build, g: Key, c: GroupConfig, c': GroupConfig, n: nat)
    requires ConfigInv(build, g, c, n) && c.status == Open && n > 0 && OneMoreMember(c', c)
    ensures ConfigInv(build, g, c', n - 1)
  {
  }

  lemma MoneyReturned(g: Key, c: GroupConfig, s: Slice, b: Book, c': GroupConfig, b': Book, m: Key)
    requires MoneyInv(g, c, s, b) && Live(c.status)
    requires c'.mint == c.mint && c'.status == c.status && b'.donated == b.donated
    requires s.vault.Some? && Owed(g, s.records, m) <= s.vault.value.amount
    requires forall k: Key :: k.External? ==> Net(b', k) == Net(b, k) + if k == m then Owed(g, s.records, m) else 0
    ensures MoneyInv(g, c', Emptied(s, c', MemberAddr(g, m), Owed(g, s.records, m)), b')
  {
    DepositsDrop(s.records, MemberAddr(g, m));
  }

  lemma LeaveLocal(build: Build, g: Key, c: GroupConfig, s: Slice, b: Book, c': GroupConfig, b': Book, m: Key)
    requires GroupInv(build, g, c, s, b) && c.status == Open && MemberAddr(g, m) in s.records
    requires b'.joined == b.joined && b'.deposits == b.deposits && b'.donated == b.donated
    requires s.vault.Some? && Owed(g, s.records, m) <= s.vault.value.amount
    requires forall k: Key :: k.External? ==>
               Net(b', k) == Net(b, k) + if k == m then Owed(g, s.records, m) else 0
    requires OneMoreMember(c', c)
    ensures GroupInv(build, g, c', Emptied(s, c', MemberAddr(g, m), Owed(g, s.records, m)), b')
  {
    hide *;
    var r := MemberAddr(g, m);
    OpenIsLive(c);
    OneMoreKeeps(c', c);
    Parts(build, g, c, s, b);
    ConfigEmptied(build, g, c, c', |s.records|);
    RecordsWithout(build, c, g, s.gate, s.records, b, r);
    RecordsKept(build, c, c', g, s.gate, s.records - {r}, b, b');
    MoneyReturned(g, c, s, b, c', b', m);
    Assemble(build, g, c', Emptied(s, c', r, Owed(g, s.records, m)), b');
  }

  lemma LeaveNets(a: Audit, tx: Tx)
    requires LocalInv(a) && tx.ins.LeaveGroup? && LeaveRefusal(a.world, tx).None?
    ensures var w, b := a.world, BookOf(a, tx.ins.group);
            forall k: Key :: k.External? ==>
              Net(NextBook(w, tx, Left(w, tx), b), k)
              == Net(b, k)
                 + if k == tx.ins.member then w.records[MemberAddr(tx.ins.group, k)].totalDeposited else 0
  {
    LeaveChecks(a.world, tx);
    hide *;
    var w, b := a.world, BookOf(a, tx.ins.group);
    forall k: Key | k.External?
      ensures Net(NextBook(w, tx, Left(w, tx), b), k)
           == Net(b, k)
              + if k == tx.ins.member then w.records[MemberAddr(tx.ins.group, k)].totalDeposited else 0
    {
      LeavePays(a, tx, k);
      NetNext(w, tx, Left(w, tx), b, k);
    }
  }

  lemma LeaveKeeps(a: Audit, tx: Tx)
    requires LocalInv(a) && tx.ins.LeaveGroup? && LeaveRefusal(a.world, tx).None?
    ensures TargetKept(a, tx, Left(a.world, tx))
  {
    hide *;
    var g, m := tx.ins.group, tx.ins.member;
    LeaveChecks(a.world, tx);
    VaultsApart(a, tx.ins.dest, m);
    LeaveWrites(a.world, tx);
    var w, w', b := a.world, Left(a.world, tx), BookOf(a, g);
    var b' := NextBook(w, tx, w', b);
    var c, s := w.groups[g], SliceOf(w, g);
    var c', r := w'.groups[g], MemberAddr(g, m);
    OfGroup(a, g);
    OfRecord(a, r);
    OwedTotal(w, g, m);
    ReturnedShape(w, w', g, c', r, w.records[r].totalDeposited);
    LeaveBook(w, tx, w', b);
    LeaveNets(a, tx);
    LeaveLocal(w.build, g, c, s, b, c', b', m);
    Conclude(a, tx, w', c', SliceOf(w', g), b');
  }

  // ---- deposit ----

  function DepositRecord(c: GroupConfig, rec: MemberRecord, p: nat): (rec': MemberRecord)
    requires p < MAX_PERIODS && rec.depositsMade < U8_MAX
    requires rec.totalDeposited + c.depositAmount <= U64_MAX
    ensures rec'.group == rec.group && rec'.member == rec.member
  {
    rec.(periodsDeposited := rec.periodsDeposited[p := true],
         depositsMade := rec.depositsMade + 1,
         totalDeposited := rec.totalDeposited + c.depositAmount)
  }

  /** An accepted deposit falls into a window after the first one and before the last period ends. */
  lemma DepositWindow(w: World, tx: Tx)
    requires tx.ins.Deposit? && DepositRefusal(w, tx).None?
    requires var c := w.groups[tx.ins.group];
             && InRange(w.build, c) && CycleEnd(w.build, c).Ok?
             && w.records[MemberAddr(tx.ins.group, tx.ins.member)].periodsDeposited[0]
    ensures var c := w.groups[tx.ins.group];
            var p := Window(c.cycleStart, Period(w.build, c.frequency), w.clock);
            PeriodIndex(w.build, c, w.clock) == Ok(p) && 1 <= p < c.totalPeriods
  {
    var c := w.groups[tx.ins.group];
    PeriodDefined(w.build, c, w.clock);
    if w.clock >= c.cycleStart {
      PeriodExact(w.build, c, w.clock);
    }
  }

  /** What an accepted deposit has checked. */
  lemma DepositChecks(w: World, tx: Tx)
    requires tx.ins.Deposit? && DepositRefusal(w, tx).None?
    ensures var g := tx.ins.group;
            var r := MemberAddr(g, tx.ins.member);
            && g in w.groups && w.groups[g].status == Active && r in w.records
            && PeriodIndex(w.build, w.groups[g], w.clock).Ok?
            && PeriodIndex(w.build, w.groups[g], w.clock).value < MAX_PERIODS
            && !w.records[r].periodsDeposited[PeriodIndex(w.build, w.groups[g], w.clock).value]
            && w.records[r].depositsMade < U8_MAX
            && w.records[r].totalDeposited + w.groups[g].depositAmount <= U64_MAX
            && tx.ins.member.External? && w.records[r].member == tx.ins.member && w.records[r].group == g
            && tx.ins.source in w.tokens && w.tokens[tx.ins.source].owner == tx.ins.member
  {
  }

  lemma DepositWrites(w: World, tx: Tx)
    requires tx.ins.Deposit? && DepositRefusal(w, tx).None? && !tx.ins.source.VaultAddr?
    ensures var g := tx.ins.group;
            var c := w.groups[g];
            var w' := Deposited(w, tx);
            var r := MemberAddr(g, tx.ins.member);
            && w'.groups == w.groups[g := c]
            && w'.records == w.records[r := DepositRecord(c, w.records[r], PeriodIndex(w.build, c, w.clock).value)]
            && w'.gates == w.gates && w'.build == w.build
            && VaultChange(w, w', g, c.depositAmount)
  {
  }

  lemma DepositPays(a: Audit, tx: Tx, k: Key)
    requires LocalInv(a) && tx.ins.Deposit? && DepositRefusal(a.world, tx).None? && k.External?
    ensures Gain(a.world, Deposited(a.world, tx), k, GroupMint(a.world, tx.ins.group))
         == if k == tx.ins.member then 0 - a.world.groups[tx.ins.group].depositAmount else 0
  {
    var w, g := a.world, tx.ins.group;
    OfVault(a, g);
    hide LocalInv, PeriodIndex;
    TransferGain(w, Deposited(w, tx), tx.ins.source, VaultAddr(g), w.groups[g].depositAmount, k);
  }

  lemma DepositBook(w: World, tx: Tx, w': World, b: Book)
    requires tx.ins.Deposit? && tx.ins.member in b.deposits
    ensures var b' := NextBook(w, tx, w', b);
            var m := tx.ins.member;
            && b'.joined == b.joined && b'.deposits == b.deposits[m := b.deposits[m] + [w.clock]]
            && b'.donated == b.donated
  {
  }

  lemma FlagsMatchNext(start: int, d: int, flags: Flags, times: seq<int>, now: int, p: nat)
    requires d > 0 && FlagsMatch(start, d, flags, times)
    requires Window(start, d, now) == p && 1 <= p < MAX_PERIODS && !flags[p]
    ensures FlagsMatch(start, d, flags[p := true], times + [now])
  {
    assert (times + [now])[..|times|] == times;
    forall q ensures InWindow(start, d, times + [now], q)
                  == if 1 <= q < MAX_PERIODS && flags[p := true][q] then 1 else 0
    {
      assert InWindow(start, d, times, q) == if 1 <= q < MAX_PERIODS && flags[q] then 1 else 0;
    }
  }

  lemma DepositRecordInv(build: Build, c: GroupConfig, g: Key, gate: Option<Key>, rec: MemberRecord,
                         b: Book, b': Book, now: int, p: nat)
    requires InRange(build, c) && c.status == Active && RecordInv(build, c, g, gate, rec, b)
    requires Window(c.cycleStart, Period(build, c.frequency), now) == p && 1 <= p < c.totalPeriods
    requires !rec.periodsDeposited[p] && rec.depositsMade < U8_MAX && rec.totalDeposited + c.depositAmount <= U64_MAX
    requires b'.joined == b.joined && b'.deposits == b.deposits[rec.member := b.deposits[rec.member] + [now]]
    ensures RecordInv(build, c, g, gate, DepositRecord(c, rec, p), b')
  {
    CountSet(rec.periodsDeposited, p);
    OneMoreTimes(rec.depositsMade, c.depositAmount);
    FlagsMatchNext(c.cycleStart, Period(build, c.frequency), rec.periodsDeposited, b.deposits[rec.member], now, p);
  }

  lemma NotesOffOne(b: Book, b': Book, m: Key, times: seq<int>)
    requires b'.joined == b.joined && b'.deposits == b.deposits[m := times]
    ensures NotesOffMember(b, b', m)
  {
  }

  lemma MemberOfRecord(build: Build, g: Key, c: GroupConfig, s: Slice, b: Book, m: Key)
    requires GroupInv(build, g, c, s, b) && MemberAddr(g, m) in s.records
    ensures RecordInv(build, c, g, s.gate, s.records[MemberAddr(g, m)], b)
    ensures s.records[MemberAddr(g, m)].member == m && s.records[MemberAddr(g, m)].group == g
    ensures m in b.deposits && m in b.joined
  {
    assert RecordInv(build, c, g, s.gate, s.records[MemberAddr(g, m)], b);
  }

  lemma RangeOf(build: Build, g: Key, c: GroupConfig, n: nat)
    requires ConfigInv(build, g, c, n)
    ensures InRange(build, c) && c.frequency <= MaxFrequency(build)
  {
  }

  lemma DepositRecordFacts(g: Key, c: GroupConfig, records: map<Key, MemberRecord>, m: Key, p: nat)
    requires MemberAddr(g, m) in records && p < MAX_PERIODS
    requires var rec := records[MemberAddr(g, m)];
             rec.member == m && rec.group == g && rec.depositsMade < U8_MAX && rec.totalDeposited
                 + c.depositAmount <= U64_MAX
    ensures var rec' := DepositRecord(c, records[MemberAddr(g, m)], p);
            rec'.totalDeposited == Owed(g, records, m) + c.depositAmount && rec'.member == m && rec'.group == g
  {
  }

  lemma DepositLocal(build: Build, g: Key, c: GroupConfig, s: Slice, b: Book, b': Book, m: Key, now: int, p: nat)
    requires GroupInv(build, g, c, s, b) && c.status == Active && MemberAddr(g, m) in s.records
    requires var rec := s.records[MemberAddr(g, m)];
             && p < MAX_PERIODS && Window(c.cycleStart, Period(build, c.frequency), now) == p && 1 <= p < c.totalPeriods
             && !rec.periodsDeposited[p] && rec.depositsMade < U8_MAX && rec.totalDeposited + c.depositAmount <= U64_MAX
    requires s.vault.Some? && m in b.deposits && b'.joined == b.joined && b'.deposits
        == b.deposits[m := b.deposits[m] + [now]]
    requires b'.donated == b.donated && s.vault.value.amount + c.depositAmount <= U64_MAX
    requires forall k: Key :: k.External? ==> Net(b', k) == Net(b, k) - if k == m then c.depositAmount else 0
    ensures GroupInv(build, g, c, Filled(s, c, DepositRecord(c, s.records[MemberAddr(g, m)], p), c.depositAmount), b')
  {
    hide *;
    var r := MemberAddr(g, m);
    var rec := s.records[r];
    var rec' := DepositRecord(c, rec, p);
    MemberOfRecord(build, g, c, s, b, m);
    DepositRecordFacts(g, c, s.records, m, p);
    OpenIsLive(c);
    Parts(build, g, c, s, b);
    RangeOf(build, g, c, |s.records|);
    DepositRecordInv(build, c, g, s.gate, rec, b, b', now, p);
    assert s.records[r := rec'].Keys == s.records.Keys;
    NotesOffOne(b, b', m, b.deposits[m] + [now]);
    RecordsWith(build, c, g, s.gate, s.records, b, b', rec');
    MoneyPaid(g, c, s, b, c, b', rec', c.depositAmount);
    Assemble(build, g, c, Filled(s, c, rec', c.depositAmount), b');
  }

  lemma ActiveEnds(build: Build, g: Key, c: GroupConfig, s: Slice, b: Book)
    requires GroupInv(build, g, c, s, b) && c.status == Active
    ensures CycleEnd(build, c).Ok? && c.settledAt == 0 && c.currentMembers >= 2
  {
  }

  lemma InSlice(w: World, g: Key, r: Key)
    requires r in w.records && w.records[r].group == g
    ensures r in SliceOf(w, g).records && SliceOf(w, g).records[r] == w.records[r]
  {
  }

  lemma FirstFlagSet(build: Build, c: GroupConfig, g: Key, gate: Option<Key>, rec: MemberRecord, b: Book)
    requires c.frequency <= MaxFrequency(build) && RecordInv(build, c, g, gate, rec, b)
    ensures rec.periodsDeposited[0]
  {
  }

  lemma DepositNets(a: Audit, tx: Tx)
    requires LocalInv(a) && tx.ins.Deposit? && DepositRefusal(a.world, tx).None?
    ensures var w, b := a.world, BookOf(a, tx.ins.group);
            forall k: Key :: k.External? ==>
              Net(NextBook(w, tx, Deposited(w, tx), b), k)
              == Net(b, k) - if k == tx.ins.member then w.groups[tx.ins.group].depositAmount else 0
  {
    DepositChecks(a.world, tx);
    hide *;
    var w, b := a.world, BookOf(a, tx.ins.group);
    forall k: Key | k.External?
      ensures Net(NextBook(w, tx, Deposited(w, tx), b), k)
           == Net(b, k) - if k == tx.ins.member then w.groups[tx.ins.group].depositAmount else 0
    {
      DepositPays(a, tx, k);
      NetNext(w, tx, Deposited(w, tx), b, k);
    }
  }

  lemma DepositKeeps(a: Audit, tx: Tx)
    requires LocalInv(a) && tx.ins.Deposit? && DepositRefusal(a.world, tx).None?
    ensures TargetKept(a, tx, Deposited(a.world, tx))
  {
    hide *;
    var g, m := tx.ins.group, tx.ins.member;
    DepositChecks(a.world, tx);
    VaultsApart(a, tx.ins.source, m);
    DepositWrites(a.world, tx);
    var w, w', b := a.world, Deposited(a.world, tx), BookOf(a, g);
    var b' := NextBook(w, tx, w', b);
    var c, s, r := w.groups[g], SliceOf(w, g), MemberAddr(g, m);
    var p := PeriodIndex(w.build, c, w.clock).value;
    OfGroup(a, g);
    OfRecord(a, r);
    ActiveEnds(w.build, g, c, s, b);
    PaidShape(w, w', g, c, DepositRecord(c, w.records[r], p), c.depositAmount);
    InSlice(w, g, r);
    MemberOfRecord(w.build, g, c, s, b, m);
    FirstFlagSet(w.build, c, g, s.gate, s.records[r], b);
    DepositWindow(w, tx);
    DepositBook(w, tx, w', b);
    DepositNets(a, tx);
    DepositLocal(w.build, g, c, s, b, b', m, w.clock, p);
    Conclude(a, tx, w', c, SliceOf(w', g), b');
  }
}
