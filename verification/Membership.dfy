/** Every instruction except the two that settle keeps the invariant, and leaves the accounts of
    every other group alone. */
module Membership {
  import opened Machine
  import opened Ledger
  import opened GroupTime
  import opened Instructions
  import opened Balances
  import opened Audit
  import opened Invariant

  /** `w'` differs from `w` in nothing that belongs to another group than `g`. */
  ghost predicate OthersKept(w: World, w': World, g: Key) {
    forall h :: h != g ==> SliceOf(w', h) == SliceOf(w, h)
  }

  /** The step to `w'` leaves other groups alone and keeps the invariant of its own. */
  ghost predicate TargetKept(a: Audit, tx: Tx, w': World) {
    var g := Target(tx.ins);
    && OthersKept(a.world, w', g)
    && w'.build == a.world.build
    && SliceInv(a.world.build, g, SliceOf(w', g), NextBook(a.world, tx, w', BookOf(a, g)))
  }

  // ---- notes ----

  /** The same notes, net gains compared wallet by wallet. */
  ghost predicate SameNotes(b: Book, b': Book) {
    b' == b.(net := b'.net) && forall k :: Net(b', k) == Net(b, k)
  }

  /** An instruction that moves no token leaves the notes on its group as they were. */
  lemma NotesKept(w: World, tx: Tx, w': World, b: Book)
    requires w'.tokens == w.tokens
    requires tx.ins.StartCycle? || tx.ins.SetJoinAuthority? || tx.ins.RefundVaultRent?
          || tx.ins.CloseMemberRecord? || tx.ins.CloseGroup? || tx.ins.CloseJoinTally?
    ensures SameNotes(b, NextBook(w, tx, w', b))
  {
  }

  lemma NetNext(w: World, tx: Tx, w': World, b: Book, k: Key)
    requires !tx.ins.CreateGroup?
    ensures Net(NextBook(w, tx, w', b), k) == Net(b, k) + Gain(w, w', k, GroupMint(w, tx.ins.group))
  {
    hide Gain, GroupMint, LastListed, JoinsOf, Happens;
  }

  lemma SameNotesInv(build: Build, g: Key, c: GroupConfig, s: Slice, b: Book, b': Book)
    requires GroupInv(build, g, c, s, b) && SameNotes(b, b')
    ensures GroupInv(build, g, c, s, b')
  {
    RecordsKept(build, c, c, g, s.gate, s.records, b, b');
  }

  /** Records depend on the parameters, the cycle start and whether the group is Open, and on the
      notes about joins and deposits. */
  lemma RecordsKept(build: Build, c: GroupConfig, c': GroupConfig, g: Key, gate: Option<Key>,
                    records: map<Key, MemberRecord>, b: Book, b': Book)
    requires c.frequency <= MaxFrequency(build)
    requires RecordsInv(build, c, g, gate, records, b)
    requires c'.Agreed() == c.Agreed() && c'.cycleStart == c.cycleStart && (c'.status == Open ==> c.status == Open)
    requires b'.joined == b.joined && b'.deposits == b.deposits
    ensures RecordsInv(build, c', g, gate, records, b')
  {
    forall r | r in records ensures RecordInv(build, c', g, gate, records[r], b') {
      assert RecordInv(build, c, g, gate, records[r], b);
    }
  }

  // ---- records of each group ----

  lemma RecordsSame(w: World, w': World)
    requires w'.records == w.records
    ensures forall h :: RecordsOf(w', h) == RecordsOf(w, h)
  {
  }

  lemma RecordsPut(w: World, w': World, r: Key, rec: MemberRecord)
    requires w'.records == w.records[r := rec]
    requires r in w.records ==> w.records[r].group == rec.group
    ensures RecordsOf(w', rec.group) == RecordsOf(w, rec.group)[r := rec]
    ensures forall h :: h != rec.group ==> RecordsOf(w', h) == RecordsOf(w, h)
  {
  }

  lemma RecordsDrop(w: World, w': World, r: Key)
    requires r in w.records && w'.records == w.records - {r}
    ensures RecordsOf(w', w.records[r].group) == RecordsOf(w, w.records[r].group) - {r}
    ensures forall h :: h != w.records[r].group ==> RecordsOf(w', h) == RecordsOf(w, h)
  {
  }

  /** From the invariant of one slice to the whole step. */
  lemma Conclude(a: Audit, tx: Tx, w': World, c': GroupConfig, s': Slice, b': Book)
    requires !tx.ins.CreateGroup?
    requires s' == SliceOf(w', tx.ins.group) && s'.group == Some(c')
    requires b' == NextBook(a.world, tx, w', BookOf(a, tx.ins.group))
    requires GroupInv(a.world.build, tx.ins.group, c', s', b')
    requires OthersKept(a.world, w', tx.ins.group) && w'.build == a.world.build
    ensures TargetKept(a, tx, w')
  {
    hide GroupInv, NextBook;
  }

  /** The same when the notes did not change. */
  lemma FromLocal(a: Audit, tx: Tx, w': World, c': GroupConfig, s': Slice, b: Book)
    requires !tx.ins.CreateGroup?
    requires b == BookOf(a, tx.ins.group) && s' == SliceOf(w', tx.ins.group)
    requires GroupInv(a.world.build, tx.ins.group, c', s', b) && s'.group == Some(c')
    requires OthersKept(a.world, w', tx.ins.group) && w'.build == a.world.build
    requires SameNotes(b, NextBook(a.world, tx, w', b))
    ensures TargetKept(a, tx, w')
  {
    hide *;
    SameNotesInv(a.world.build, tx.ins.group, c', s', b, NextBook(a.world, tx, w', b));
    Conclude(a, tx, w', c', s', NextBook(a.world, tx, w', b));
  }

  /** What a step has to leave alone for the other groups not to notice. */
  lemma Frame(w: World, w': World, g: Key)
    requires w'.groups - {g} == w.groups - {g}
    requires w'.gates - {GateAddr(g)} == w.gates - {GateAddr(g)}
    requires forall h :: h != g ==> RecordsOf(w', h) == RecordsOf(w, h)
    requires forall h :: h != g ==> Lookup(w'.tokens, VaultAddr(h)) == Lookup(w.tokens, VaultAddr(h))
    ensures OthersKept(w, w', g)
  {
    forall h | h != g ensures SliceOf(w', h) == SliceOf(w, h) {
      assert h in w.groups <==> h in w.groups - {g};
      assert h in w'.groups <==> h in w'.groups - {g};
      assert GateAddr(h) in w.gates <==> GateAddr(h) in w.gates - {GateAddr(g)};
      assert GateAddr(h) in w'.gates <==> GateAddr(h) in w'.gates - {GateAddr(g)};
    }
  }

  // ---- create_group ----

  function FreshSlice(i: Ins): Slice
    requires i.CreateGroup?
  {
    Slice(Some(NewGroup(i)), map[], Some(TokenAccount(VaultAddr(Target(i)), i.mint, 0)), None)
  }

  /** Whatever came before at this code, a new group starts from its parameters alone. */
  lemma CreateShape(a: Audit, tx: Tx)
    requires LocalInv(a) && tx.ins.CreateGroup? && CreateRefusal(a.world, tx).None?
    ensures OthersKept(a.world, Created(a.world, tx), Target(tx.ins))
    ensures SliceOf(Created(a.world, tx), Target(tx.ins)) == FreshSlice(tx.ins)
  {
    var g := Target(tx.ins);
    var w, w' := a.world, Created(a.world, tx);
    assert SliceInv(w.build, g, SliceOf(w, g), BookOf(a, g));
    assert w'.groups == w.groups[g := NewGroup(tx.ins)] && g !in w.groups;
    assert w'.tokens == w.tokens[VaultAddr(g) := TokenAccount(VaultAddr(g), tx.ins.mint, 0)];
    assert RecordsOf(w, g) == map[] && GateAddr(g) !in w.gates;
    hide LocalInv, CreateRefusal, Created, SliceInv;
    RecordsSame(w, w');
    Frame(w, w', g);
  }

  lemma CreateNotes(w: World, tx: Tx, w': World, b: Book, k: Key)
    requires tx.ins.CreateGroup? && CreateRefusal(w, tx).None? && w' == Created(w, tx)
    ensures Net(NextBook(w, tx, w', b), k) == 0
  {
    var v := VaultAddr(Target(tx.ins));
    SumPut(w.tokens, v, w'.tokens[v], OfOwner(k, GroupMint(w, Target(tx.ins))));
  }

  lemma CreateLocal(build: Build, i: Ins, b: Book)
    requires i.CreateGroup? && InRange(build, NewGroup(i))
    requires b.donated == 0 && forall k :: Net(b, k) == 0
    ensures SliceInv(build, Target(i), FreshSlice(i), b)
  {
    assert Deposits(FreshSlice(i).records) == map[];
  }

  lemma CreateKeeps(a: Audit, tx: Tx)
    requires LocalInv(a) && tx.ins.CreateGroup? && CreateRefusal(a.world, tx).None?
    ensures TargetKept(a, tx, Created(a.world, tx))
  {
    var g := Target(tx.ins);
    var b' := NextBook(a.world, tx, Created(a.world, tx), BookOf(a, g));
    forall k ensures Net(b', k) == 0 {
      CreateNotes(a.world, tx, Created(a.world, tx), BookOf(a, g), k);
    }
    CreateShape(a, tx);
    CreateLocal(a.world.build, tx.ins, b');
  }

  // ---- start_cycle ----

  lemma StartRecord(build: Build, g: Key, gate: Option<Key>, c: GroupConfig, rec: MemberRecord, b: Book, now: i64)
    requires c.frequency <= MaxFrequency(build) && c.status == Open
    requires RecordInv(build, c, g, gate, rec, b)
    ensures RecordInv(build, c.(status := Active, cycleStart := now), g, gate, rec, b)
  {
    forall p | 0 < p < MAX_PERIODS ensures !rec.periodsDeposited[p] {
      OnlyFirst(rec.periodsDeposited, p);
    }
  }

  lemma StartRecords(build: Build, g: Key, gate: Option<Key>, c: GroupConfig,
                     records: map<Key, MemberRecord>, b: Book, now: i64)
    requires c.frequency <= MaxFrequency(build) && c.status == Open
    requires RecordsInv(build, c, g, gate, records, b)
    ensures RecordsInv(build, c.(status := Active, cycleStart := now), g, gate, records, b)
  {
    forall r | r in records
      ensures RecordInv(build, c.(status := Active, cycleStart := now), g, gate, records[r], b)
    {
      StartRecord(build, g, gate, c, records[r], b, now);
    }
  }

  lemma StartLocal(build: Build, g: Key, c: GroupConfig, s: Slice, b: Book, now: i64)
    requires GroupInv(build, g, c, s, b)
    requires c.status == Open && c.currentMembers >= 2 && CycleEnd(build, c.(status := Active, cycleStart := now)).Ok?
    ensures var c' := c.(status := Active, cycleStart := now);
            GroupInv(build, g, c', s.(group := Some(c')), b)
  {
    StartRecords(build, g, s.gate, c, s.records, b, now);
  }

  lemma StartShape(w: World, tx: Tx)
    requires tx.ins.StartCycle? && StartRefusal(w, tx).None?
    ensures OthersKept(w, Started(w, tx), tx.ins.group)
    ensures SliceOf(Started(w, tx), tx.ins.group)
         == SliceOf(w, tx.ins.group).(group := Some(w.groups[tx.ins.group].(status := Active, cycleStart := w.clock)))
  {
    RecordsSame(w, Started(w, tx));
  }

  lemma StartKeeps(a: Audit, tx: Tx)
    requires LocalInv(a) && tx.ins.StartCycle? && StartRefusal(a.world, tx).None?
    ensures TargetKept(a, tx, Started(a.world, tx))
  {
    var g := tx.ins.group;
    var w, w', b := a.world, Started(a.world, tx), BookOf(a, g);
    OfGroup(a, g);
    StartShape(w, tx);
    StartLocal(w.build, g, w.groups[g], SliceOf(w, g), b, w.clock);
    NotesKept(w, tx, w', b);
    FromLocal(a, tx, w', w'.groups[g], SliceOf(w', g), b);
  }

  // ---- set_join_authority ----

  lemma GateLocal(build: Build, g: Key, c: GroupConfig, s: Slice, b: Book, authority: Key)
    requires GroupInv(build, g, c, s, b) && c.currentMembers == 0
    ensures GroupInv(build, g, c, s.(gate := Some(authority)), b)
  {
    assert s.records == map[];
  }

  lemma GateKeeps(a: Audit, tx: Tx)
    requires LocalInv(a) && tx.ins.SetJoinAuthority? && GateRefusal(a.world, tx).None?
    ensures TargetKept(a, tx, Gated(a.world, tx))
  {
    var g := Target(tx.ins);
    var w, w', b := a.world, Gated(a.world, tx), BookOf(a, g);
    OfGroup(a, g);
    RecordsSame(w, w');
    GateLocal(w.build, g, w.groups[g], SliceOf(w, g), b, tx.ins.newAuthority);
    NotesKept(w, tx, w', b);
    FromLocal(a, tx, w', w'.groups[g], SliceOf(w', g), b);
  }

  // ---- refund_vault_rent ----

  lemma RefundKeeps(a: Audit, tx: Tx)
    requires LocalInv(a) && tx.ins.RefundVaultRent? && RefundRefusal(a.world, tx).None?
    ensures TargetKept(a, tx, Refunded(a.world, tx))
  {
    var g := Target(tx.ins);
    var w, w', b := a.world, Refunded(a.world, tx), BookOf(a, g);
    OfGroup(a, g);
    RecordsSame(w, w');
    NotesKept(w, tx, w', b);
    FromLocal(a, tx, w', w'.groups[g], SliceOf(w', g), b);
  }

  // ---- close_member_record ----

  lemma RecordsWithout(build: Build, c: GroupConfig, g: Key, gate: Option<Key>,
                       records: map<Key, MemberRecord>, b: Book, r: Key)
    requires c.frequency <= MaxFrequency(build)
    requires RecordsInv(build, c, g, gate, records, b)
    ensures RecordsInv(build, c, g, gate, records - {r}, b)
    ensures r in records ==> |records - {r}| == |records| - 1
  {
    assert (records - {r}).Keys == records.Keys - {r};
    forall q | q in records - {r} ensures RecordInv(build, c, g, gate, (records - {r})[q], b) {
      assert RecordInv(build, c, g, gate, records[q], b);
    }
  }

  lemma CloseRecordLocal(build: Build, g: Key, c: GroupConfig, s: Slice, b: Book, r: Key)
    requires GroupInv(build, g, c, s, b) && Settled(c.status) && r in s.records
    ensures var c' := c.(currentMembers := c.currentMembers - 1);
            GroupInv(build, g, c', s.(group := Some(c'), records := s.records - {r}), b)
  {
    var c' := c.(currentMembers := c.currentMembers - 1);
    RecordsWithout(build, c, g, s.gate, s.records, b, r);
    RecordsKept(build, c, c', g, s.gate, s.records - {r}, b, b);
  }

  /** What an accepted record close has checked and written. */
  lemma CloseRecordWrites(w: World, tx: Tx)
    requires tx.ins.CloseMemberRecord? && CloseRecordRefusal(w, tx).None?
    ensures var g, w', r := tx.ins.group, RecordClosed(w, tx), tx.ins.record;
            && g in w.groups && Settled(w.groups[g].status) && w.groups[g].currentMembers > 0
            && r in w.records && r == MemberAddr(g, w.records[r].member)
            && w'.groups == w.groups[g := w.groups[g].(currentMembers := w.groups[g].currentMembers - 1)]
            && w'.groups - {g} == w.groups - {g} && w'.records == w.records - {r}
            && w'.gates == w.gates && w'.build == w.build && w'.tokens == w.tokens
            && w'.tallies == w.tallies && w'.clock == w.clock
  {
    hide RetentionEnd, Drain;
  }

  lemma SameGroup(rec: MemberRecord, g: Key)
    requires MemberAddr(rec.group, rec.member) == MemberAddr(g, rec.member)
    ensures rec.group == g
  {
  }

  lemma RecordGone(w: World, w': World, g: Key, r: Key)
    requires g in w.groups && r in w.records && w.records[r].group == g && w.groups[g].currentMembers > 0
    requires w'.groups == w.groups[g := w.groups[g].(currentMembers := w.groups[g].currentMembers - 1)]
    requires RecordsOf(w', g) == RecordsOf(w, g) - {r} && w'.gates == w.gates && w'.tokens == w.tokens
    ensures r in SliceOf(w, g).records
    ensures SliceOf(w', g)
         == SliceOf(w, g).(group := Some(w.groups[g].(currentMembers := w.groups[g].currentMembers - 1)),
                           records := SliceOf(w, g).records - {r})
  {
  }

  lemma CloseRecordShape(a: Audit, tx: Tx)
    requires LocalInv(a) && tx.ins.CloseMemberRecord? && CloseRecordRefusal(a.world, tx).None?
    ensures var g := tx.ins.group;
            var r := tx.ins.record;
            var c := a.world.groups[g];
            var s := SliceOf(a.world, g);
            && r in s.records && Settled(c.status) && c.currentMembers > 0
            && OthersKept(a.world, RecordClosed(a.world, tx), g)
            && RecordClosed(a.world, tx).build == a.world.build && RecordClosed(a.world, tx).tokens == a.world.tokens
            && SliceOf(RecordClosed(a.world, tx), g)
               == s.(group := Some(c.(currentMembers := c.currentMembers - 1)), records := s.records - {r})
  {
    hide *;
    var w, w', g, r := a.world, RecordClosed(a.world, tx), tx.ins.group, tx.ins.record;
    CloseRecordWrites(w, tx);
    OfRecord(a, r);
    SameGroup(w.records[r], g);
    RecordsDrop(w, w', r);
    Frame(w, w', g);
    RecordGone(w, w', g, r);
  }

  lemma CloseRecordKeeps(a: Audit, tx: Tx)
    requires LocalInv(a) && tx.ins.CloseMemberRecord? && CloseRecordRefusal(a.world, tx).None?
    ensures TargetKept(a, tx, RecordClosed(a.world, tx))
  {
    var g := tx.ins.group;
    CloseRecordShape(a, tx);
    hide *;
    var w, w', b := a.world, RecordClosed(a.world, tx), BookOf(a, g);
    var c, s := w.groups[g], SliceOf(w, g);
    var c' := c.(currentMembers := c.currentMembers - 1);
    var s' := s.(group := Some(c'), records := s.records - {tx.ins.record});
    OfGroup(a, g);
    CloseRecordLocal(w.build, g, c, s, b, tx.ins.record);
    NotesKept(w, tx, w', b);
    FromLocal(a, tx, w', c', s', b);
  }

  // ---- close_group ----

  const NOTHING: Slice := Slice(None, map[], None, None)

  /** Closing a group leaves nothing at any address it derived, its join tallies apart. */
  lemma NobodyLeft(a: Audit, g: Key)
    requires LocalInv(a) && g in a.world.groups && a.world.groups[g].currentMembers == 0
    ensures RecordsOf(a.world, g) == map[]
  {
    OfGroup(a, g);
    assert SliceOf(a.world, g).records == RecordsOf(a.world, g);
  }

  lemma CloseGroupShape(a: Audit, tx: Tx)
    requires LocalInv(a) && tx.ins.CloseGroup? && CloseGroupRefusal(a.world, tx).None?
    ensures OthersKept(a.world, GroupClosed(a.world, tx), Target(tx.ins))
    ensures SliceOf(GroupClosed(a.world, tx), Target(tx.ins)) == NOTHING
  {
    var g := tx.ins.group;
    NobodyLeft(a, g);
    OfVault(a, g);
    var w, w' := a.world, GroupClosed(a.world, tx);
    RecordsSame(w, w');
    Frame(w, w', g);
    assert GateAddr(g) !in w'.gates;
  }

  lemma CloseGroupKeeps(a: Audit, tx: Tx)
    requires LocalInv(a) && tx.ins.CloseGroup? && CloseGroupRefusal(a.world, tx).None?
    ensures TargetKept(a, tx, GroupClosed(a.world, tx))
  {
    var g := Target(tx.ins);
    CloseGroupShape(a, tx);
  }

  // ---- close_join_tally ----

  lemma CloseTallyKeeps(a: Audit, tx: Tx)
    requires LocalInv(a) && tx.ins.CloseJoinTally? && CloseTallyRefusal(a.world, tx).None?
    ensures TargetKept(a, tx, TallyClosed(a.world, tx))
  {
    var g := Target(tx.ins);
    var w, w' := a.world, TallyClosed(a.world, tx);
    assert SliceInv(w.build, g, SliceOf(w, g), BookOf(a, g));
    RecordsSame(w, w');
  }
}
