/** The accounts the program owns or moves tokens between, and the transactions that change them. */
module Ledger {
  import opened Machine
  import opened Sums

  /** Which cargo feature the program was built with. */
  datatype Build = Mainnet | Devnet

  /** Addresses. Program-derived addresses are injective in their seeds; every other address
      (wallets, mints, ordinary token accounts) is External. */
  datatype Key =
    | External(id: nat)
    | SystemProgram
    | ThisProgram
    | GroupAddr(code: string)
    | MemberAddr(group: Key, member: Key)
    | VaultAddr(group: Key)
    | GateAddr(group: Key)
    | TallyAddr(group: Key, member: Key)
    | AtaAddr(owner: Key, mint: Key)

  datatype Status = Open | Active | Completed | Cancelled

  predicate Settled(s: Status) { s.Completed? || s.Cancelled? }

  datatype Terms = Terms(creator: Key, depositAmount: u64, frequency: u8, totalPeriods: u8)

  datatype GroupConfig = GroupConfig(
    creator: Key,
    rentPayer: Key,
    mint: Key,
    depositAmount: u64,
    cycleStart: i64,
    settledAt: i64,
    frequency: u8,
    totalPeriods: u8,
    maxMembers: u8,
    currentMembers: u8,
    status: Status,
    code: string)
  {
    function Agreed(): Terms {
      Terms(creator, depositAmount, frequency, totalPeriods)
    }
  }

  const MAX_PERIODS: nat := 52

  type Flags = s: seq<bool> | |s| == MAX_PERIODS witness seq(MAX_PERIODS, i => false)

  /** No period paid. */
  function NoFlags(): (f: Flags)
    ensures forall i :: 0 <= i < MAX_PERIODS ==> !f[i]
  {
    seq(MAX_PERIODS, i => false)
  }

  datatype MemberRecord = MemberRecord(
    group: Key,
    member: Key,
    rentPayer: Key,
    totalDeposited: u64,
    depositsMade: u8,
    periodsDeposited: Flags)

  datatype JoinTally = JoinTally(rentPayer: Key, joins: u32)

  datatype TokenAccount = TokenAccount(owner: Key, mint: Key, amount: u64)

  type Tokens = map<Key, TokenAccount>

  /** The chain state. Every map is keyed by account address. `lamports` holds what sits at an
      address, whether or not an account lives there; `purse` is the lamports an address outside
      the program received from it minus the lamports it paid in. */
  datatype World = World(
    build: Build,
    clock: i64,
    rentRate: nat,
    groups: map<Key, GroupConfig>,
    records: map<Key, MemberRecord>,
    gates: map<Key, Key>,
    tallies: map<Key, JoinTally>,
    tokens: Tokens,
    lamports: map<Key, nat>,
    purse: map<Key, int>)

  datatype Ins =
    | CreateGroup(creator: Key, rentPayer: Key, code: string, mint: Key, mintSupported: bool,
                  depositAmount: u64, frequency: u8, totalPeriods: u8, maxMembers: u8)
    | JoinGroup(group: Key, member: Key, rentPayer: Key, expectedTerms: Terms,
                expectedJoins: Option<u32>, authority: Option<Key>)
    | LeaveGroup(group: Key, member: Key, rentPayer: Key, dest: Key)
    | StartCycle(group: Key, creator: Key)
    | Deposit(group: Key, member: Key, source: Key)
    | Distribute(group: Key, payer: Key, remaining: seq<Key>)
    | EmergencyCancel(group: Key, creator: Key, remaining: seq<Key>, mintWritable: bool)
    | RefundVaultRent(group: Key, rentPayer: Key)
    | CloseMemberRecord(group: Key, record: Key, rentPayer: Key)
    | CloseGroup(group: Key, rentPayer: Key)
    | SetJoinAuthority(group: Key, creator: Key, rentPayer: Key, newAuthority: Key)
    | CloseJoinTally(group: Key, member: Key, rentPayer: Key)

  /** Only addresses outside the program can sign a transaction. */
  type Signers = s: set<Key> | forall k :: k in s ==> k.External? witness {}

  /** `blocked` are the token accounts the token program refuses to move tokens into or out of
      during this transaction (frozen, or asking for a memo that is not there). */
  datatype Tx = Tx(signers: Signers, durableNonce: bool, blocked: set<Key>, ins: Ins)

  /** The group address an instruction acts on. */
  function Target(ins: Ins): Key {
    if ins.CreateGroup? then GroupAddr(ins.code) else ins.group
  }

  // ---- lamports ----

  const GROUP_SPACE: nat := 244
  const RECORD_SPACE: nat := 198
  const VAULT_SPACE: nat := 165
  const TALLY_SPACE: nat := 44
  const GATE_SPACE: nat := 40

  /** Rent-exempt minimum at the current rate; the runtime adds 128 bytes of overhead. */
  function RentFloor(w: World, space: nat): nat {
    (128 + space) * w.rentRate
  }

  function Purse(w: World, k: Key): int {
    if k in w.purse then w.purse[k] else 0
  }

  /** Anchor `init`: the payer tops up what the address lacks, and nothing when it lacks nothing. */
  function Fund(w: World, addr: Key, space: nat, payer: Key): (w': World)
    ensures w' == w.(lamports := w'.lamports, purse := w'.purse)
    ensures w'.lamports - {addr} == w.lamports - {addr}
    ensures At(w'.lamports, addr) >= RentFloor(w, space)
    ensures forall k :: Purse(w', k) == Purse(w, k)
                        - if k == payer then At(w'.lamports, addr) - At(w.lamports, addr) else 0
  {
    var held := At(w.lamports, addr);
    var missing := if held < RentFloor(w, space) then RentFloor(w, space) - held else 0;
    w.(lamports := w.lamports[addr := held + missing], purse := w.purse[payer := Purse(w, payer) - missing])
  }

  /** Anchor `close`: every lamport at the address goes to the receiver. */
  function Drain(w: World, addr: Key, receiver: Key): (w': World)
    ensures w' == w.(lamports := w'.lamports, purse := w'.purse)
    ensures w'.lamports == w.lamports - {addr}
    ensures forall k :: Purse(w', k) == Purse(w, k) + if k == receiver then At(w.lamports, addr) else 0
  {
    w.(lamports := w.lamports - {addr},
       purse := w.purse[receiver := Purse(w, receiver) + At(w.lamports, addr)])
  }

  // ---- token transfers ----

  predicate TransferOk(tokens: Tokens, from: Key, to: Key, amount: u64, blocked: set<Key>) {
    && from in tokens && to in tokens
    && tokens[from].mint == tokens[to].mint
    && tokens[from].amount >= amount
    && from !in blocked && to !in blocked
    && (from == to || tokens[to].amount + amount <= U64_MAX)
  }

  function Transferred(tokens: Tokens, from: Key, to: Key, amount: u64): Tokens
    requires TransferOk(tokens, from, to, amount, {})
  {
    if from == to then tokens
    else
      tokens[from := tokens[from].(amount := tokens[from].amount - amount)]
            [to := tokens[to].(amount := tokens[to].amount + amount)]
  }

  /** Whether an account of this program lives at the address. */
  predicate ProgramOwned(w: World, k: Key) {
    k in w.groups || k in w.records || k in w.gates || k in w.tallies
  }

  function JoinsOf(w: World, tally: Key): u32 {
    if tally in w.tallies then w.tallies[tally].joins else 0
  }
}
