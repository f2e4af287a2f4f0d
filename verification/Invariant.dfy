/** The invariant that ties a group's separate accounts together, stated one group at a time. */
module Invariant {
  import opened Machine
  import opened Sums
  import opened Ledger
  import opened GroupTime
  import opened Balances
  import opened Audit

  /** Everything stored at the addresses one group derives, its join tallies apart. */
  datatype Slice = Slice(
    group: Option<GroupConfig>,
    records: map<Key, MemberRecord>,
    vault: Option<TokenAccount>,
    gate: Option<Key>)

  function RecordsOf(w: World, g: Key): map<Key, MemberRecord> {
    map r | r in w.records && w.records[r].group == g :: w.records[r]
  }

  function Lookup<T>(m: map<Key, T>, k: Key): Option<T> {
    if k in m then Some(m[k]) else None
  }

  function SliceOf(w: World, g: Key): Slice {
    Slice(Lookup(w.groups, g), RecordsOf(w, g), Lookup(w.tokens, VaultAddr(g)), Lookup(w.gates, GateAddr(g)))
  }

  /** What the records say was paid in. */
  function Deposits(records: map<Key, MemberRecord>): map<Key, nat> {
    map r | r in records :: records[r].totalDeposited
  }

  function CountTrue(flags: seq<bool>): nat {
    if flags == [] then 0
    else CountTrue(flags[..|flags| - 1]) + if flags[|flags| - 1] then 1 else 0
  }

  /** How many of the times fall into window `p`. */
  ghost function InWindow(start: int, d: int, times: seq<int>, p: int): nat
    requires d > 0
  {
    if times == [] then 0
    else
      InWindow(start, d, times[..|times| - 1], p)
      + if Window(start, d, times[|times| - 1]) == p then 1 else 0
  }

  /** The join that created a record named this member, this group and the group's terms. */
  ghost predicate JoinedAs(c: GroupConfig, g: Key, m: Key, b: Book) {
    && m in b.joined
    && b.joined[m].tx.ins.JoinGroup?
    && b.joined[m].tx.ins.group == g
    && b.joined[m].tx.ins.member == m
    && b.joined[m].tx.ins.expectedTerms == c.Agreed()
  }

  /** The join was approved by `authority`, once: not over a durable nonce, and for the tally the
      member then had. */
  ghost predicate ApprovedBy(authority: Key, f: JoinFact) {
    && f.tx.ins.JoinGroup?
    && f.tx.ins.authority == Some(authority)
    && authority in f.tx.signers
    && !f.tx.durableNonce
    && f.tx.ins.expectedJoins.Some? && f.tx.ins.expectedJoins.value == f.tallyBefore
  }

  /** Each later flag is set exactly when one payment fell into its window, and no window saw two. */
  ghost predicate FlagsMatch(start: int, d: int, flags: Flags, times: seq<int>)
    requires d > 0
  {
    forall p :: InWindow(start, d, times, p) == if 1 <= p < MAX_PERIODS && flags[p] then 1 else 0
  }

  /** A record sits at its own address, its counters agree with its flags, its flags are exactly the
      windows its member paid in, and a gated record was approved. */
  ghost predicate RecordInv(build: Build, c: GroupConfig, g: Key, gate: Option<Key>, rec: MemberRecord, b: Book)
    requires c.frequency <= MaxFrequency(build)
  {
    && rec.group == g
    && rec.member.External?
    && rec.periodsDeposited[0]
    && (forall p :: c.totalPeriods <= p < MAX_PERIODS ==> !rec.periodsDeposited[p])
    && rec.depositsMade == CountTrue(rec.periodsDeposited)
    && rec.totalDeposited == rec.depositsMade * c.depositAmount
    && JoinedAs(c, g, rec.member, b)
    && rec.member in b.deposits
    && FlagsMatch(c.cycleStart, Period(build, c.frequency), rec.periodsDeposited, b.deposits[rec.member])
    && (gate.Some? ==> ApprovedBy(gate.value, b.joined[rec.member]))
    && (c.status == Open ==> rec.depositsMade == 1 && b.deposits[rec.member] == [])
  }

  predicate Live(s: Status) { s.Open? || s.Active? }

  /** What the group owes a wallet: the recorded total, or nothing without a record. */
  function Owed(g: Key, records: map<Key, MemberRecord>, k: Key): nat {
    if MemberAddr(g, k) in records then records[MemberAddr(g, k)].totalDeposited else 0
  }

  /** While a group lives its vault holds what its records say plus what was donated, and every
      wallet is down by exactly what it is owed. */
  ghost predicate Solvent(g: Key, c: GroupConfig, s: Slice, b: Book) {
    && s.vault.Some?
    && s.vault.value.owner == VaultAddr(g) && s.vault.value.mint == c.mint
    && s.vault.value.amount == Total(Deposits(s.records)) + b.donated
    && (forall k: Key :: k.External? ==> Net(b, k) + Owed(g, s.records, k) == 0)
  }

  /** Once settled the vault is gone and every wallet is even, except that the member listed last
      is up by the donations. */
  ghost predicate PaidOut(s: Slice, b: Book) {
    && s.vault.None?
    && (forall k: Key :: k.External? ==> Net(b, k) == if b.heir == Some(k) then b.donated else 0)
  }

  ghost predicate RecordsInv(build: Build, c: GroupConfig, g: Key, gate: Option<Key>,
                             records: map<Key, MemberRecord>, b: Book)
    requires c.frequency <= MaxFrequency(build)
  {
    && (forall r :: r in records ==> r == MemberAddr(g, records[r].member))
    && (forall r {:trigger RecordInv(build, c, g, gate, records[r], b)} ::
          r in records ==> RecordInv(build, c, g, gate, records[r], b))
  }

  /** Parameters in range, the count equal to the number of open records, and the fields that go
      with each status. */
  ghost predicate ConfigInv(build: Build, g: Key, c: GroupConfig, members: nat) {
    && g == GroupAddr(c.code)
    && InRange(build, c)
    && c.currentMembers == members <= c.maxMembers
    && (Live(c.status) ==> c.settledAt == 0)
    && (c.status == Open ==> c.cycleStart == 0)
    && (c.status == Active ==> c.currentMembers >= 2 && CycleEnd(build, c).Ok?)
  }

  ghost predicate MoneyInv(g: Key, c: GroupConfig, s: Slice, b: Book) {
    && b.donated >= 0
    && (Live(c.status) ==> Solvent(g, c, s, b))
    && (Settled(c.status) ==> PaidOut(s, b))
  }

  ghost predicate GroupInv(build: Build, g: Key, c: GroupConfig, s: Slice, b: Book) {
    && ConfigInv(build, g, c, |s.records|)
    && RecordsInv(build, c, g, s.gate, s.records, b)
    && MoneyInv(g, c, s, b)
  }

  /** No group, nothing at any address it would derive. */
  ghost predicate SliceInv(build: Build, g: Key, s: Slice, b: Book) {
    match s.group
    case None => s.records == map[] && s.vault.None? && s.gate.None?
    case Some(c) => GroupInv(build, g, c, s, b)
  }

  ghost predicate LocalInv(a: Audit) {
    forall g :: SliceInv(a.world.build, g, SliceOf(a.world, g), BookOf(a, g))
  }

  ghost predicate SupplyInv(w: World) {
    forall mint :: Supply(w.tokens, mint) <= U64_MAX
  }

  ghost predicate Inv(a: Audit) {
    LocalInv(a) && SupplyInv(a.world)
  }

  // ---- reading the invariant ----

  /** The invariant of one group that exists. */
  lemma OfGroup(a: Audit, g: Key)
    requires LocalInv(a) && g in a.world.groups
    ensures GroupInv(a.world.build, g, a.world.groups[g], SliceOf(a.world, g), BookOf(a, g))
    ensures InRange(a.world.build, a.world.groups[g]) && a.world.groups[g].frequency <= MaxFrequency(a.world.build)
    ensures SliceOf(a.world, g).group == Some(a.world.groups[g])
    ensures SliceOf(a.world, g).gate == Lookup(a.world.gates, GateAddr(g))
    ensures SliceOf(a.world, g).vault == Lookup(a.world.tokens, VaultAddr(g))
    ensures SliceOf(a.world, g).records == RecordsOf(a.world, g)
  {
    assert SliceInv(a.world.build, g, SliceOf(a.world, g), BookOf(a, g));
  }

  /** Every record belongs to a group that exists, and sits where that group expects it. */
  lemma OfRecord(a: Audit, r: Key)
    requires LocalInv(a) && r in a.world.records
    ensures var rec := a.world.records[r];
            && rec.group in a.world.groups
            && r in RecordsOf(a.world, rec.group)
            && r == MemberAddr(rec.group, rec.member)
            && rec.member.External?
  {
    var g := a.world.records[r].group;
    assert SliceInv(a.world.build, g, SliceOf(a.world, g), BookOf(a, g));
    var s := SliceOf(a.world, g);
    assert r in s.records;
    assert RecordInv(a.world.build, a.world.groups[g], g, s.gate, s.records[r], BookOf(a, g));
  }

  lemma OfVault(a: Audit, g: Key)
    requires LocalInv(a)
    ensures VaultAddr(g) in a.world.tokens <==> g in a.world.groups && Live(a.world.groups[g].status)
    ensures VaultAddr(g) in a.world.tokens ==>
              && a.world.tokens[VaultAddr(g)].owner == VaultAddr(g)
              && a.world.tokens[VaultAddr(g)].mint == a.world.groups[g].mint
    ensures GateAddr(g) in a.world.gates ==> g in a.world.groups
  {
    assert SliceInv(a.world.build, g, SliceOf(a.world, g), BookOf(a, g));
  }

  lemma Parts(build: Build, g: Key, c: GroupConfig, s: Slice, b: Book)
    requires GroupInv(build, g, c, s, b)
    ensures ConfigInv(build, g, c, |s.records|) && c.frequency <= MaxFrequency(build)
    ensures RecordsInv(build, c, g, s.gate, s.records, b)
    ensures MoneyInv(g, c, s, b)
  {
    hide ConfigInv, RecordsInv, MoneyInv;
    FrequencyInRange(build, g, c, |s.records|);
  }

  lemma FrequencyInRange(build: Build, g: Key, c: GroupConfig, members: nat)
    requires ConfigInv(build, g, c, members)
    ensures c.frequency <= MaxFrequency(build)
  {
  }

  lemma Assemble(build: Build, g: Key, c: GroupConfig, s: Slice, b: Book)
    requires ConfigInv(build, g, c, |s.records|) && c.frequency <= MaxFrequency(build)
    requires RecordsInv(build, c, g, s.gate, s.records, b)
    requires MoneyInv(g, c, s, b)
    ensures GroupInv(build, g, c, s, b)
  {
    hide ConfigInv, RecordsInv, MoneyInv;
  }

  // ---- flags and windows ----

  lemma {:induction false} CountSet(flags: seq<bool>, p: nat)
    requires p < |flags| && !flags[p]
    ensures CountTrue(flags[p := true]) == CountTrue(flags) + 1
    decreases |flags|
  {
    var n := |flags| - 1;
    if p < n {
      CountSet(flags[..n], p);
      assert flags[p := true][..n] == flags[..n][p := true];
    } else {
      assert flags[p := true][..n] == flags[..n];
    }
  }

  /** No more flags are set than there are flags below the last one set. */
  lemma {:induction false} CountAtMost(flags: seq<bool>, n: nat)
    requires n <= |flags|
    requires forall p :: n <= p < |flags| ==> !flags[p]
    ensures CountTrue(flags) <= n
    ensures (exists p :: 0 <= p < n && !flags[p]) ==> CountTrue(flags) < n
    decreases |flags|
  {
    if |flags| > n {
      CountAtMost(flags[..|flags| - 1], n);
    } else if n > 0 {
      CountAtMost(flags[..n - 1], n - 1);
    }
  }

  lemma CountFirst()
    ensures CountTrue(NoFlags()[0 := true]) == 1
  {
    CountNone(NoFlags());
    CountSet(NoFlags(), 0);
  }

  lemma {:induction false} CountNone(flags: seq<bool>)
    requires forall p :: 0 <= p < |flags| ==> !flags[p]
    ensures CountTrue(flags) == 0
    decreases |flags|
  {
    if flags != [] {
      CountNone(flags[..|flags| - 1]);
    }
  }

  /** Setting nothing but the first flag leaves the others clear. */
  lemma {:induction false} OnlyFirst(flags: seq<bool>, p: nat)
    requires 0 < p < |flags| && flags[0] && CountTrue(flags) == 1
    ensures !flags[p]
    decreases |flags|
  {
    var n := |flags| - 1;
    CountPositive(flags[..n]);
    if p < n {
      OnlyFirst(flags[..n], p);
    }
  }

  lemma {:induction false} CountPositive(flags: seq<bool>)
    requires |flags| > 0 && flags[0]
    ensures CountTrue(flags) >= 1
    decreases |flags|
  {
    if |flags| > 1 {
      CountPositive(flags[..|flags| - 1]);
    }
  }

  // ---- sums of deposits ----

  lemma DepositsPut(records: map<Key, MemberRecord>, r: Key, rec: MemberRecord)
    ensures Total(Deposits(records[r := rec]))
         == Total(Deposits(records)) - At(Deposits(records), r) + rec.totalDeposited
  {
    TotalPut(Deposits(records), r, rec.totalDeposited);
    assert Deposits(records[r := rec]) == Deposits(records)[r := rec.totalDeposited];
  }

  lemma DepositsDrop(records: map<Key, MemberRecord>, r: Key)
    ensures Total(Deposits(records - {r})) == Total(Deposits(records)) - At(Deposits(records), r)
  {
    TotalDrop(Deposits(records), r);
    assert Deposits(records - {r}) == Deposits(records) - {r};
  }
}
