/** What it takes for a settled group to leave nothing behind: closing its records, the group, and the
    tallies at its address, none of which needs a signature. */
module WindDown {
  import opened Machine
  import opened Sums
  import opened Ledger
  import opened GroupTime
  import opened Instructions
  import opened Audit
  import opened Invariant
  import opened Membership
  import opened Payouts
  import opened Safety
  import opened Tallies
  import opened Rent
  import opened Refunds
  import opened Lifecycle

  // ---- when each account can close ----

  /** A record closes exactly when its group is settled, its retention time is over, and the payer named
      is the record's own. Nobody's signature is needed. */
  lemma CloseRecordExactly(a: Audit, tx: Tx)
    requires Reachable(a) && tx.ins.CloseMemberRecord?
    ensures var w, i := a.world, tx.ins;
            Refusal(w, tx).None?
            <==> && i.group in w.groups && Settled(w.groups[i.group].status)
                 && w.groups[i.group].settledAt + (if w.build == Devnet then 300 else 2_592_000) <= I64_MAX
                 && w.clock >= w.groups[i.group].settledAt + (if w.build == Devnet then 300 else 2_592_000)
                 && i.record in RecordsOf(w, i.group) && i.rentPayer == w.records[i.record].rentPayer
  {
    var w, i := a.world, tx.ins;
    ReachableInv(a);
    if i.group in w.groups {
      AddressOf(a, i.group);
      MemberCount(a, i.group);
    }
    if i.record in w.records {
      OfRecord(a, i.record);
    }
    hide Reachable, Inv;
    if i.record in RecordsOf(w, i.group) {
      assert |RecordsOf(w, i.group).Keys| > 0;
    }
  }

  lemma AddressOf(a: Audit, g: Key)
    requires LocalInv(a) && g in a.world.groups
    ensures g == GroupAddr(a.world.groups[g].code)
  {
    OfGroup(a, g);
  }

  /** A group closes exactly when it is settled and has no record, to its own payer. */
  lemma CloseGroupExactly(a: Audit, tx: Tx)
    requires Reachable(a) && tx.ins.CloseGroup?
    ensures var w, i := a.world, tx.ins;
            Refusal(w, tx).None?
            <==> && i.group in w.groups && Settled(w.groups[i.group].status)
                 && RecordsOf(w, i.group) == map[] && i.rentPayer == w.groups[i.group].rentPayer
  {
    var w, i := a.world, tx.ins;
    ReachableInv(a);
    if i.group in w.groups {
      AddressOf(a, i.group);
      MemberCount(a, i.group);
      NobodyLeftIff(RecordsOf(w, i.group));
    }
    hide Reachable, Inv;
  }

  lemma NobodyLeftIff(records: map<Key, MemberRecord>)
    ensures |records.Keys| == 0 <==> records == map[]
  {
    assert records.Keys == {} <==> records == map[];
  }

  // ---- refund_vault_rent ----

  /** A refund goes through exactly when the group is settled and the payer named is its own. The group
      account keeps its rent-exempt minimum, or all it holds when that is less; the payer receives the
      rest; and nothing else changes, neither an account nor anyone's lamports. */
  lemma RefundExactly(a: Audit, tx: Tx)
    requires Reachable(a) && tx.ins.RefundVaultRent?
    ensures var w, i, g := a.world, tx.ins, tx.ins.group;
            Refusal(w, tx).None?
            <==> g in w.groups && Settled(w.groups[g].status) && i.rentPayer == w.groups[g].rentPayer
    ensures Refusal(a.world, tx).None? ==>
              var w, z, g := a.world, After(a.world, tx), tx.ins.group;
              var h, floor := At(w.lamports, g), (128 + 244) * w.rentRate;
              var kept := if h <= floor then h else floor;
              && z == w.(lamports := w.lamports[g := kept], purse := z.purse)
              && forall k :: Purse(z, k) == Purse(w, k) + if k == w.groups[g].rentPayer then h - kept else 0
  {
    ReachableInv(a);
    if tx.ins.group in a.world.groups {
      AddressOf(a, tx.ins.group);
    }
    hide Reachable, Inv;
  }

  // ---- every account at the address its kind derives ----

  ghost predicate Derived(w: World) {
    && (forall k :: k in w.gates ==> k.GateAddr?)
    && (forall k :: k in w.tallies ==> k.TallyAddr? && k.group.GroupAddr?)
  }

  lemma DerivedStep(a: Audit, ev: Event)
    requires Derived(a.world)
    ensures Derived(Step(a, ev).world)
  {
    hide Step, After, Refusal, EnvAfter, EnvOk, Joined, JoinRefusal;
    StepParts(a, ev);
    NextTallies(a.world, ev);
    if Happens(a.world, ev) {
      if ev.Program? {
        ProgramGatesKind(a.world, ev.tx);
        if ev.tx.ins.JoinGroup? {
          JoinHappens(a.world, ev);
          JoinNames(a.world, ev.tx);
          JoinCounts(a.world, ev.tx);
        }
      } else {
        OutsideFrame(a.world, ev.env);
      }
    }
  }

  lemma JoinNames(w: World, tx: Tx)
    requires tx.ins.JoinGroup? && JoinRefusal(w, tx).None?
    ensures tx.ins.group.GroupAddr?
  {
    hide JoinHandlerError;
  }

  lemma ProgramGatesKind(w: World, tx: Tx)
    requires Refusal(w, tx).None?
    ensures forall k :: k in After(w, tx).gates ==> k in w.gates || k.GateAddr?
  {
    ProgramGates(w, tx);
    if tx.ins.CloseGroup? {
      hide Refusal, Drain;
      assert After(w, tx).gates == w.gates - {GateAddr(tx.ins.group)};
    }
    hide Refusal, After;
  }

  lemma {:induction false} DerivedRun(a: Audit, events: seq<Event>)
    requires Derived(a.world)
    ensures Derived(Run(a, events).world)
    decreases |events|
  {
    hide Step, Derived;
    if events != [] {
      DerivedRun(a, events[..|events| - 1]);
      DerivedStep(Run(a, events[..|events| - 1]), events[|events| - 1]);
    }
  }

  lemma ReachableDerived(a: Audit)
    requires Reachable(a)
    ensures Derived(a.world)
  {
    var build, rentRate, events :| a == Run(Genesis(build, rentRate), events);
    hide Run;
    DerivedRun(Genesis(build, rentRate), events);
  }

  /** A tally closes exactly when no group lives at its address, to its own payer. */
  lemma CloseTallyExactly(a: Audit, tx: Tx)
    requires Reachable(a) && tx.ins.CloseJoinTally?
    ensures var w, i, t := a.world, tx.ins, TallyAddr(tx.ins.group, tx.ins.member);
            Refusal(w, tx).None?
            <==> t in w.tallies && i.group !in w.groups && i.rentPayer == w.tallies[t].rentPayer
  {
    ReachableDerived(a);
    ReachableInv(a);
    if tx.ins.group in a.world.records {
      OfRecord(a, tx.ins.group);
    }
    hide Reachable, Inv;
  }

  // ---- what closing touches ----

  /** Whether an address is derived from a group, the group's own address included. */
  predicate Under(x: Key, g: Key) {
    x == g || ((x.MemberAddr? || x.VaultAddr? || x.GateAddr? || x.TallyAddr?) && x.group == g)
  }

  /** Nothing that is not derived from the group changed its lamports or its payer. */
  ghost predicate Contained(w: World, u: World, g: Key) {
    forall x :: !Under(x, g) ==> Payer(u, x) == Payer(w, x) && AgreeAt(w.lamports, u.lamports, x)
  }

  lemma ContainedOn(w: World, u: World, v: World, g: Key)
    requires Contained(w, u, g) && Contained(u, v, g)
    ensures Contained(w, v, g)
  {
    hide Payer, Under;
    forall x | !Under(x, g) ensures Payer(v, x) == Payer(w, x) && AgreeAt(w.lamports, v.lamports, x) {
      assert Payer(u, x) == Payer(w, x) && AgreeAt(w.lamports, u.lamports, x);
    }
  }

  /** Draining one derived address of an account recorded there. */
  lemma DrainContained(w: World, u: World, g: Key, x: Key, payer: Key)
    requires Under(x, g) && u.lamports == Drain(w, x, payer).lamports
    requires forall y :: !Under(y, g) ==> Payer(u, y) == Payer(w, y)
    ensures Contained(w, u, g)
  {
    hide Payer;
  }

  lemma RecordClosedContained(w: World, tx: Tx)
    requires tx.ins.CloseMemberRecord? && CloseRecordRefusal(w, tx).None?
    ensures Contained(w, RecordClosed(w, tx), tx.ins.group)
  {
    hide RetentionEnd, Contained, Drain;
    DrainContained(w, RecordClosed(w, tx), tx.ins.group, tx.ins.record, tx.ins.rentPayer);
  }

  lemma TallyClosedContained(w: World, tx: Tx)
    requires tx.ins.CloseJoinTally?
    ensures Contained(w, TallyClosed(w, tx), tx.ins.group)
  {
    hide Contained, Drain;
    DrainContained(w, TallyClosed(w, tx), tx.ins.group, TallyAddr(tx.ins.group, tx.ins.member), tx.ins.rentPayer);
  }

  lemma GroupClosedPayers(w: World, tx: Tx, x: Key)
    requires tx.ins.CloseGroup? && tx.ins.group.GroupAddr? && !Under(x, tx.ins.group)
    ensures Payer(GroupClosed(w, tx), x) == Payer(w, x)
  {
    hide Drain;
    assert GroupClosed(w, tx).groups == w.groups - {tx.ins.group};
    assert GroupClosed(w, tx).gates == w.gates - {GateAddr(tx.ins.group)};
    hide GroupClosed;
  }

  lemma GroupClosedElsewhere(w: World, tx: Tx, x: Key)
    requires tx.ins.CloseGroup? && !Under(x, tx.ins.group)
    ensures AgreeAt(w.lamports, GroupClosed(w, tx).lamports, x)
  {
    hide Payer;
  }

  lemma GroupClosedContained(w: World, tx: Tx)
    requires tx.ins.CloseGroup? && tx.ins.group.GroupAddr?
    ensures Contained(w, GroupClosed(w, tx), tx.ins.group)
  {
    hide GroupClosed, Payer, Under, AgreeAt;
    forall x | !Under(x, tx.ins.group)
      ensures Payer(GroupClosed(w, tx), x) == Payer(w, x) && AgreeAt(w.lamports, GroupClosed(w, tx).lamports, x)
    {
      GroupClosedPayers(w, tx, x);
      GroupClosedElsewhere(w, tx, x);
    }
  }

  // ---- one step of winding down ----

  /** An event anyone can bring about: time passes, or one account is closed, signed by nobody. */
  predicate Unattended(ev: Event) {
    match ev
    case Outside(e) => e.Tick?
    case Program(tx) =>
      tx.signers == {} && (tx.ins.CloseMemberRecord? || tx.ins.CloseGroup? || tx.ins.CloseJoinTally?)
  }

  function Unsigned(ins: Ins): Tx {
    Tx({}, false, {}, ins)
  }

  /** The retention time of a settled group is over. */
  ghost predicate Released(w: World, g: Key) {
    && g in w.groups && Settled(w.groups[g].status)
    && w.groups[g].settledAt + (if w.build == Devnet then 300 else 2_592_000) <= I64_MAX
    && w.clock >= w.groups[g].settledAt + (if w.build == Devnet then 300 else 2_592_000)
  }

  /** Such an event brings no one a gift. */
  lemma NoGifts(a: Audit, ev: Event)
    requires Unattended(ev) && Happens(a.world, ev)
    ensures Step(a, ev).world == Next(a.world, ev) && forall p :: Gift(Step(a, ev), p) == Gift(a, p)
  {
    StepParts(a, ev);
    hide Step, Next, Happens, Gift;
  }

  lemma RecordCloseHappens(w: World, tx: Tx)
    requires tx.ins.CloseMemberRecord? && Refusal(w, tx).None?
    ensures CloseRecordRefusal(w, tx).None? && Happens(w, Program(tx)) && Next(w, Program(tx)) == RecordClosed(w, tx)
  {
    hide CloseRecordRefusal, RecordClosed;
  }

  lemma StillReleased(w: World, u: World, g: Key, c: GroupConfig)
    requires Released(w, g) && u.groups == w.groups[g := c] && u.clock == w.clock && u.build == w.build
    requires c.status == w.groups[g].status && c.settledAt == w.groups[g].settledAt
    ensures Released(u, g)
  {
  }

  lemma CloseOneRecord(a: Audit, g: Key, r: Key) returns (ev: Event)
    requires Reachable(a) && Released(a.world, g) && r in RecordsOf(a.world, g)
    ensures Unattended(ev)
    ensures var b := Step(a, ev);
            && Released(b.world, g) && RecordsOf(b.world, g) == RecordsOf(a.world, g) - {r}
            && Contained(a.world, b.world, g) && forall p :: Gift(b, p) == Gift(a, p)
  {
    var tx := Unsigned(CloseMemberRecord(g, r, a.world.records[r].rentPayer));
    ev := Program(tx);
    assert r in a.world.records && a.world.records[r].group == g;
    var w := a.world;
    hide Reachable, RecordsOf, Contained, CloseRecordRefusal, RecordClosed, Refusal, Step, Next, Happens, Gift;
    CloseRecordExactly(a, tx);
    RecordCloseHappens(w, tx);
    var w' := RecordClosed(w, tx);
    NoGifts(a, ev);
    CloseRecordWrites(w, tx);
    RecordsDrop(w, w', r);
    RecordClosedContained(w, tx);
    StillReleased(w, w', g, w'.groups[g]);
  }

  lemma FirstStep(a: Audit, ev: Event, rest: seq<Event>)
    ensures Run(a, [ev] + rest) == Run(Step(a, ev), rest)
  {
    RunConcat(a, [ev], rest);
    assert [ev][..0] == [];
    assert Run(a, [ev]) == Step(a, ev) by { hide Step; }
  }

  /** What a stretch of winding down leaves: reachable, nobody's gifts changed, nothing outside the group. */
  ghost predicate Wound(a: Audit, events: seq<Event>, g: Key) {
    var z := Run(a, events);
    && (forall k :: 0 <= k < |events| ==> Unattended(events[k]))
    && Reachable(z) && Contained(a.world, z.world, g) && forall p :: Gift(z, p) == Gift(a, p)
  }

  lemma WoundFirst(a: Audit, ev: Event, rest: seq<Event>, g: Key)
    requires Reachable(a) && Unattended(ev) && Contained(a.world, Step(a, ev).world, g)
    requires forall p :: Gift(Step(a, ev), p) == Gift(a, p)
    requires Wound(Step(a, ev), rest, g)
    ensures Wound(a, [ev] + rest, g) && Run(a, [ev] + rest) == Run(Step(a, ev), rest)
  {
    hide Step, Run, Contained, Reachable, Gift, Unattended;
    FirstStep(a, ev, rest);
    ContainedOn(a.world, Step(a, ev).world, Run(Step(a, ev), rest).world, g);
  }

  lemma WoundNothing(a: Audit, g: Key)
    requires Reachable(a)
    ensures Wound(a, [], g) && Run(a, []) == a
  {
    hide Reachable, Gift, Payer, Under;
  }

  lemma StepReachable(a: Audit, ev: Event)
    requires Reachable(a)
    ensures Reachable(Step(a, ev))
  {
    hide Reachable;
    ReachableRun(a, [ev]);
    FirstStep(a, ev, []);
    assert [ev] + [] == [ev];
  }

  /** All its records, one after another. */
  lemma {:induction false} CloseRecords(a: Audit, g: Key) returns (events: seq<Event>)
    requires Reachable(a) && Released(a.world, g)
    ensures Wound(a, events, g)
    ensures Released(Run(a, events).world, g) && RecordsOf(Run(a, events).world, g) == map[]
    decreases RecordsOf(a.world, g).Keys
  {
    if r :| r in RecordsOf(a.world, g) {
      var ev := CloseOneRecord(a, g, r);
      StepReachable(a, ev);
      hide *;
      Fewer(RecordsOf(a.world, g), r);
      var rest := CloseRecords(Step(a, ev), g);
      WoundFirst(a, ev, rest, g);
      events := [ev] + rest;
    } else {
      WoundNothing(a, g);
      events := [];
    }
  }

  lemma Fewer(records: map<Key, MemberRecord>, r: Key)
    requires r in records
    ensures (records - {r}).Keys < records.Keys
  {
  }

  // ---- the group and its tallies ----

  lemma GroupCloseHappens(w: World, tx: Tx)
    requires tx.ins.CloseGroup? && Refusal(w, tx).None?
    ensures Happens(w, Program(tx)) && Next(w, Program(tx)) == GroupClosed(w, tx)
    ensures tx.ins.group.GroupAddr? && GroupClosed(w, tx).groups == w.groups - {tx.ins.group}
  {
    hide Drain;
  }

  lemma CloseTheGroup(a: Audit, g: Key) returns (ev: Event)
    requires Reachable(a) && g in a.world.groups && Settled(a.world.groups[g].status) && RecordsOf(a.world, g) == map[]
    ensures Unattended(ev) && g.GroupAddr? && g !in Step(a, ev).world.groups
    ensures Contained(a.world, Step(a, ev).world, g) && forall p :: Gift(Step(a, ev), p) == Gift(a, p)
  {
    var tx := Unsigned(CloseGroup(g, a.world.groups[g].rentPayer));
    ev := Program(tx);
    hide Reachable, RecordsOf, Contained, GroupClosed, Refusal, Step, Next, Happens, Gift;
    CloseGroupExactly(a, tx);
    GroupCloseHappens(a.world, tx);
    NoGifts(a, ev);
    GroupClosedContained(a.world, tx);
  }

  /** The tallies at addresses derived from the group. */
  function TalliesOf(w: World, g: Key): set<Key> {
    set t | t in w.tallies && t.TallyAddr? && t.group == g
  }

  lemma TallyCloseHappens(w: World, tx: Tx)
    requires tx.ins.CloseJoinTally? && Refusal(w, tx).None?
    ensures Happens(w, Program(tx)) && Next(w, Program(tx)) == TallyClosed(w, tx)
    ensures TallyClosed(w, tx).groups == w.groups
    ensures TallyClosed(w, tx).tallies == w.tallies - {TallyAddr(tx.ins.group, tx.ins.member)}
  {
    hide Drain;
  }

  lemma CloseOneTally(a: Audit, g: Key, t: Key) returns (ev: Event)
    requires Reachable(a) && g.GroupAddr? && g !in a.world.groups && t in TalliesOf(a.world, g)
    ensures Unattended(ev) && g !in Step(a, ev).world.groups
    ensures TalliesOf(Step(a, ev).world, g) == TalliesOf(a.world, g) - {t}
    ensures Contained(a.world, Step(a, ev).world, g) && forall p :: Gift(Step(a, ev), p) == Gift(a, p)
  {
    var tx := Unsigned(CloseJoinTally(g, t.member, a.world.tallies[t].rentPayer));
    ev := Program(tx);
    hide Reachable, Contained, TallyClosed, Refusal, Step, Next, Happens, Gift;
    CloseTallyExactly(a, tx);
    TallyCloseHappens(a.world, tx);
    NoGifts(a, ev);
    TallyClosedContained(a.world, tx);
  }

  lemma {:induction false} CloseTallies(a: Audit, g: Key) returns (events: seq<Event>)
    requires Reachable(a) && g.GroupAddr? && g !in a.world.groups
    ensures Wound(a, events, g)
    ensures g !in Run(a, events).world.groups && TalliesOf(Run(a, events).world, g) == {}
    decreases TalliesOf(a.world, g)
  {
    if t :| t in TalliesOf(a.world, g) {
      var ev := CloseOneTally(a, g, t);
      StepReachable(a, ev);
      hide *;
      var rest := CloseTallies(Step(a, ev), g);
      WoundFirst(a, ev, rest, g);
      events := [ev] + rest;
    } else {
      WoundNothing(a, g);
      events := [];
    }
  }

  // ---- the whole of it ----

  lemma WoundThen(a: Audit, first: seq<Event>, rest: seq<Event>, g: Key)
    requires Wound(a, first, g) && Wound(Run(a, first), rest, g)
    ensures Wound(a, first + rest, g) && Run(a, first + rest) == Run(Run(a, first), rest)
  {
    hide Run, Contained, Reachable, Gift, Unattended;
    RunConcat(a, first, rest);
    ContainedOn(a.world, Run(a, first).world, Run(Run(a, first), rest).world, g);
    var z := first + rest;
    forall k | 0 <= k < |z| ensures Unattended(z[k]) {
      assert z[k] == if k < |first| then first[k] else rest[k - |first|];
    }
  }

  lemma WoundMeans(a: Audit, events: seq<Event>, g: Key)
    requires Wound(a, events, g)
    ensures Reachable(Run(a, events))
  {
    hide Reachable, Run, Contained, Gift;
  }

  /** Nothing at all is left at any address derived from the group. */
  ghost predicate Gone(w: World, g: Key) {
    && g !in w.groups && RecordsOf(w, g) == map[] && VaultAddr(g) !in w.tokens && GateAddr(g) !in w.gates
    && TalliesOf(w, g) == {}
  }

  lemma GoneOnce(a: Audit, g: Key)
    requires Reachable(a) && g !in a.world.groups && TalliesOf(a.world, g) == {}
    ensures Gone(a.world, g)
  {
    ReachableInv(a);
    assert SliceInv(a.world.build, g, SliceOf(a.world, g), BookOf(a, g));
    hide Reachable;
  }

  lemma Ticked(w: World, g: Key, now: i64)
    ensures Happens(w, Outside(Tick(now))) && Unattended(Outside(Tick(now)))
    ensures var u := Next(w, Outside(Tick(now)));
            && u.groups == w.groups && u.clock == now && u.build == w.build
            && RecordsOf(u, g) == RecordsOf(w, g) && Contained(w, u, g)
  {
    RecordsSame(w, EnvAfter(w, Tick(now)));
    OutsidePayers(w, Tick(now));
    hide Payer, RecordsOf;
  }

  lemma TickTo(a: Audit, g: Key) returns (ev: Event)
    requires Reachable(a) && g in a.world.groups && Settled(a.world.groups[g].status)
    requires a.world.groups[g].settledAt + (if a.world.build == Devnet then 300 else 2_592_000) <= I64_MAX
    ensures Unattended(ev) && Released(Step(a, ev).world, g) && RecordsOf(Step(a, ev).world, g) == RecordsOf(a.world, g)
    ensures Contained(a.world, Step(a, ev).world, g) && forall p :: Gift(Step(a, ev), p) == Gift(a, p)
  {
    hide Reachable, Step, Gift, Next, Happens, Unattended, RecordsOf, Contained;
    var due := a.world.groups[g].settledAt + if a.world.build == Devnet then 300 else 2_592_000;
    ev := Outside(Tick(due));
    Ticked(a.world, g, due);
    NoGifts(a, ev);
  }

  /** Once its records can close: the records, then the group, then the tallies. */
  lemma WindReleased(a: Audit, g: Key) returns (events: seq<Event>)
    requires Reachable(a) && Released(a.world, g)
    ensures Wound(a, events, g) && Gone(Run(a, events).world, g)
  {
    assert g in a.world.groups;
    hide *;
    var first := CloseRecords(a, g);
    var b := Run(a, first);
    WoundMeans(a, first, g);
    ReleasedMeans(b.world, g);
    var rest := WindEmpty(b, g);
    WoundThen(a, first, rest, g);
    events := first + rest;
  }

  lemma ReleasedMeans(w: World, g: Key)
    requires Released(w, g)
    ensures g in w.groups && Settled(w.groups[g].status)
  {
  }

  lemma WindEmpty(a: Audit, g: Key) returns (events: seq<Event>)
    requires Reachable(a) && g in a.world.groups && Settled(a.world.groups[g].status) && RecordsOf(a.world, g) == map[]
    ensures Wound(a, events, g) && Gone(Run(a, events).world, g)
  {
    hide *;
    var ev := CloseTheGroup(a, g);
    StepReachable(a, ev);
    var rest := CloseTallies(Step(a, ev), g);
    WoundFirst(a, ev, rest, g);
    events := [ev] + rest;
    WoundMeans(a, events, g);
    GoneOnce(Run(a, events), g);
  }

  /** The records of a settled group can still close: there are none, or their retention time ends before
      time does. */
  ghost predicate Closable(w: World, g: Key)
    requires g in w.groups
  {
    RecordsOf(w, g) == map[] || w.groups[g].settledAt + (if w.build == Devnet then 300 else 2_592_000) <= I64_MAX
  }

  lemma Wind(a: Audit, g: Key) returns (events: seq<Event>)
    requires Reachable(a) && g in a.world.groups && Settled(a.world.groups[g].status) && Closable(a.world, g)
    ensures Wound(a, events, g) && Gone(Run(a, events).world, g)
  {
    if RecordsOf(a.world, g) == map[] {
      events := WindEmpty(a, g);
    } else {
      var ev := TickTo(a, g);
      StepReachable(a, ev);
      hide *;
      var rest := WindReleased(Step(a, ev), g);
      WoundFirst(a, ev, rest, g);
      events := [ev] + rest;
    }
  }

  // ---- and when it cannot ----

  lemma LockedOn(a: Audit, tx: Tx, g: Key)
    requires Reachable(a) && g in a.world.groups && Settled(a.world.groups[g].status) && !Closable(a.world, g)
    requires Refusal(a.world, tx).None? && Target(tx.ins) == g
    ensures After(a.world, tx).groups == a.world.groups && After(a.world, tx).records == a.world.records
  {
    hide Refusal, After, Reachable, RecordsOf;
    var w := a.world;
    if tx.ins.CloseGroup? { CloseGroupExactly(a, tx); }
    else if tx.ins.CloseMemberRecord? { CloseRecordExactly(a, tx); }
    else if tx.ins.CreateGroup? { MakesOrRemoves(w, tx); }
    else if tx.ins.RefundVaultRent? || tx.ins.SetJoinAuthority? || tx.ins.CloseJoinTally? {
      OtherMoves(w, tx);
      OtherRecords(w, tx);
    } else {
      NeedsLive(w, tx);
    }
  }

  /** The other instructions need a group that is Open or Active. */
  lemma NeedsLive(w: World, tx: Tx)
    requires Refusal(w, tx).None?
    requires tx.ins.JoinGroup? || tx.ins.LeaveGroup? || tx.ins.StartCycle? || tx.ins.Deposit? || tx.ins.Distribute?
          || tx.ins.EmergencyCancel?
    ensures tx.ins.group in w.groups && Live(w.groups[tx.ins.group].status)
  {
    if tx.ins.JoinGroup? { JoinMoves(w, tx); }
    else if tx.ins.LeaveGroup? { LeaveMoves(w, tx); }
    else if tx.ins.StartCycle? { StartMoves(w, tx); }
    else if tx.ins.Deposit? { DepositMoves(w, tx); }
    else { SettleMoves(w, tx); }
    hide Refusal, After;
  }

  lemma LockedStep(a: Audit, ev: Event, g: Key)
    requires Reachable(a) && g in a.world.groups && Settled(a.world.groups[g].status) && !Closable(a.world, g)
    ensures var b := Step(a, ev);
            && g in b.world.groups && b.world.groups[g] == a.world.groups[g]
            && RecordsOf(b.world, g) == RecordsOf(a.world, g) && b.world.build == a.world.build
  {
    ReachableInv(a);
    StepBuild(a, ev);
    hide Reachable, Inv, Step, Closable, RecordsOf;
    if On(a, ev, g) {
      OnAfter(a, ev, g);
      LockedOn(a, ev.tx, g);
      RecordsSame(a.world, Step(a, ev).world);
    } else {
      NotOn(a, ev, g);
      SliceFields(a.world, g);
      SliceFields(Step(a, ev).world, g);
    }
  }

  lemma SliceFields(w: World, g: Key)
    ensures SliceOf(w, g).group == Lookup(w.groups, g) && SliceOf(w, g).records == RecordsOf(w, g)
  {
  }

  lemma StepBuild(a: Audit, ev: Event)
    requires Inv(a)
    ensures Step(a, ev).world.build == a.world.build
  {
    hide Step, After, Refusal, EnvAfter, EnvOk, LocalInv;
    StepParts(a, ev);
    if Happens(a.world, ev) {
      if ev.Program? {
        TargetOnly(a, ev.tx);
      } else {
        OutsideFrame(a.world, ev.env);
      }
    }
  }

  /** Settled too close to the end of time with a record open, a group stays as it is in every run. */
  lemma {:induction false} Locked(a: Audit, events: seq<Event>, g: Key)
    requires Reachable(a) && g in a.world.groups && Settled(a.world.groups[g].status) && !Closable(a.world, g)
    ensures var z := Run(a, events).world;
            g in z.groups && z.groups[g] == a.world.groups[g] && RecordsOf(z, g) == RecordsOf(a.world, g)
            && z.build == a.world.build
    decreases |events|
  {
    hide Step, Reachable, RecordsOf;
    if events != [] {
      Locked(a, events[..|events| - 1], g);
      ReachableRun(a, events[..|events| - 1]);
      LockedStep(Run(a, events[..|events| - 1]), events[|events| - 1], g);
    }
  }

  /** A settled group can be wound down to nothing exactly when it has no record or its retention time ends
      within the range of the clock. Nobody has to sign for it. */
  lemma WindDownExactly(a: Audit, g: Key)
    requires Reachable(a) && g in a.world.groups && Settled(a.world.groups[g].status)
    ensures Closable(a.world, g) ==> exists events :: Wound(a, events, g) && Gone(Run(a, events).world, g)
    ensures !Closable(a.world, g) ==> forall events :: g in Run(a, events).world.groups
    ensures (exists events :: Gone(Run(a, events).world, g)) <==> Closable(a.world, g)
  {
    if Closable(a.world, g) {
      var events := Wind(a, g);
    } else {
      forall events ensures g in Run(a, events).world.groups && !Gone(Run(a, events).world, g) {
        Locked(a, events, g);
      }
    }
  }

  // ---- the lamports ----

  /** The addresses a payer has lamports at under one group. */
  function Places(w: World, g: Key, p: Key): set<Key> {
    set x | x in Escrow(w, p) && Under(x, g)
  }

  /** What accounts under one group hold for a payer. */
  ghost function HeldUnder(w: World, g: Key, p: Key): nat {
    Total(Within(Escrow(w, p), Places(w, g, p)))
  }

  lemma HeldElsewhere(w: World, g: Key, p: Key)
    ensures Held(w, p) == HeldUnder(w, g, p) + Total(Escrow(w, p) - Places(w, g, p))
  {
    TotalSplit(Escrow(w, p), Places(w, g, p));
  }

  lemma NoPayersUnder(w: World, g: Key, x: Key)
    requires Gone(w, g) && Under(x, g) && (x.MemberAddr? && x in w.records ==> w.records[x].group == x.group)
    requires x == g ==> x.GroupAddr?
    ensures Payer(w, x).None?
  {
    assert x.MemberAddr? && x in w.records ==> x in RecordsOf(w, g);
    assert x.TallyAddr? && x in w.tallies ==> x in TalliesOf(w, g);
  }

  /** With the group gone, nothing under it holds anything for anyone. */
  lemma NothingUnder(a: Audit, g: Key, p: Key)
    requires Reachable(a) && Gone(a.world, g) && g.GroupAddr?
    ensures Places(a.world, g, p) == {} && HeldUnder(a.world, g, p) == 0
  {
    ReachableInv(a);
    forall x | Under(x, g) ensures x !in Escrow(a.world, p) {
      if x.MemberAddr? && x in a.world.records {
        OfRecord(a, x);
      }
      NoPayersUnder(a.world, g, x);
    }
    hide Reachable, Inv, Under;
    assert Within(Escrow(a.world, p), {}) == map[];
  }

  lemma ElsewhereSame(w: World, u: World, g: Key, p: Key)
    requires Contained(w, u, g)
    ensures Escrow(u, p) - Places(u, g, p) == Escrow(w, p) - Places(w, g, p)
  {
    hide Payer, Under;
    var m, n := Escrow(w, p) - Places(w, g, p), Escrow(u, p) - Places(u, g, p);
    forall x ensures (x in m <==> x in n) && (x in m ==> m[x] == n[x]) {
      if !Under(x, g) {
        assert Payer(u, x) == Payer(w, x) && AgreeAt(w.lamports, u.lamports, x);
      }
    }
    assert m.Keys == n.Keys;
  }

  lemma WoundGifts(a: Audit, events: seq<Event>, g: Key, p: Key)
    requires Wound(a, events, g)
    ensures Gift(Run(a, events), p) == Gift(a, p) && Contained(a.world, Run(a, events).world, g)
  {
    hide Reachable, Run, Contained, Gift;
  }

  /** Winding a group down pays every payer all that its accounts held for them, and nothing else
      changes hands. */
  lemma WoundPays(a: Audit, events: seq<Event>, g: Key, p: Key)
    requires Reachable(a) && g.GroupAddr? && Wound(a, events, g) && Gone(Run(a, events).world, g)
    ensures Purse(Run(a, events).world, p) == Purse(a.world, p) + HeldUnder(a.world, g, p)
    ensures Held(Run(a, events).world, p) == Held(a.world, p) - HeldUnder(a.world, g, p)
    ensures HeldUnder(Run(a, events).world, g, p) == 0
  {
    hide *;
    var z := Run(a, events);
    WoundMeans(a, events, g);
    WoundGifts(a, events, g, p);
    RentConserved(a, p);
    RentConserved(z, p);
    NothingUnder(z, g, p);
    ElsewhereSame(a.world, z.world, g, p);
    HeldElsewhere(a.world, g, p);
    HeldElsewhere(z.world, g, p);
  }
}
