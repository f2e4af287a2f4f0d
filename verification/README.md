# SafeNudge: a verified model

SafeNudge is a Solana program for group savings. Members join a group and each pay the same amount per
period into a vault. When the cycle ends anyone may settle the group, and its creator may cancel it at any
time before that; either way every member gets back what they put in. A watchdog process reads the group
accounts and raises an alert about a group that nobody settled.

This project models the program's twelve instructions as steps of a ledger, models the watchdog's decoder,
time formula and alert machine, and proves what the program promises about all of them.

## How it is put together

- `Ledger`, `GroupTime`, `Settlement` and `Instructions` say what the chain holds and what each instruction
  does, as values: `Refusal` is the first check a transaction fails, `After` the state an accepted one leaves.
- `Chain` is the program in its own form: a class holding every account, one method per instruction that
  changes it step by step, with the validation and payout loops of settlement, the cached and the reloaded
  vault balance, and `Execute`, which undoes whatever a failed handler changed. Every method is proved
  against `Refusal` and `After`. `Execution` connects it to the runs below.
- `Audit` defines runs: any transactions and any outside events (clock changes in either direction, rent-rate
  changes, lamports and tokens sent by others, mints, burns, token accounts opened, closed or handed over), in any
  order. Beside the
  chain it keeps what an observer would note down, such as each wallet's net token gain measured on
  balances. The chain never reads these notes (`Audit.RunIgnoresNotes`).
- `Invariant`, `Membership`, `Payments`, `Payouts`, `Settling` and `Safety` prove one invariant of every
  reachable state, one group at a time.
- `Outcomes`, `Contributions`, `Tallies`, `Rent`, `Refunds`, `WindDown`, `Founding`, `Lifecycle` and `RoundTrip`
  draw the consequences people care about: principal, settlement, paying in, approvals, rent, status, leaving. Every
  instruction has one statement there of exactly when it is accepted, in terms a caller can check.
- `Effects` says, for each accepted instruction in a reachable state, what every account holds afterwards, with the
  sizes and amounts as numbers; `ErrorCodes` says what the code of a refused one means. The statements
  of both name no function of `Instructions` but `Refusal` and `After`.
- `GroupBytes` and `Overdue` model the account bytes and the watchdog's check of unsettled groups, and tie a
  report to what the program would accept. `Alerts` and `AlertRuns` model the alert machine, one run and all
  runs; `Watch` puts the chain and the alerts together.

## Main results

- **Principal** (`Outcomes.PrincipalSafe`): in every reachable state, every wallet is down by exactly what its
  record in a live group says; once the group is settled every wallet is even, except that the member listed
  last is up by what outsiders had sent to the vault.
- **Settlement cannot be stopped or cheated** (`Outcomes.DistributeExactly`, `Outcomes.CancelExactly`): an
  if-and-only-if. It succeeds with every order of all the members' pairs, and with no other list.
- **Each instruction exactly** (`Founding.CreateExactly`, `Founding.GateExactly`, `Founding.StartExactly`,
  `Contributions.JoinExactly`, `Contributions.DepositExactly`, `RoundTrip.LeaveExactly`, `WindDown.RefundExactly`,
  `WindDown.CloseRecordExactly`, `WindDown.CloseGroupExactly`, `WindDown.CloseTallyExactly`): for every reachable
  state and every transaction, accepted if and only if what is listed holds, the signatures included. `Effects`
  says what each then does.
- **Errors tell the truth** (`ErrorCodes.RefusalTells`, `ErrorCodes.NeverAnswered`): the code a refused transaction
  gets names something really wrong with it; `VaultShortfall` never comes back, and no settlement overflows.
- **Both settlements are one payout function** (`Outcomes.OnePayoutFunction`, `Outcomes.OrderMovesSurplus`).
- **Rent** (`Rent.RentConserved`, `WindDown.WindDownExactly`, `WindDown.WoundPays`, `Refunds.RefundWhenever`): for
  every payer, what it received minus what it paid in, plus what live accounts still hold for it, is what others
  left there for it. A settled group can be wound down without anyone's signature, and pays all it holds to the
  recorded payers, if and only if it has no record or its retention time ends within the clock's range: a group
  settled closer than that to the last timestamp, with a record open, stays locked for ever. Adding or leaving
  out a `refund_vault_rent` anywhere in a run changes nothing in the end.
- **One approval, one join** (`Tallies.OneJoinPerCount`), **gates cover every record** (`Outcomes.GateCovers`),
  **a freed code starts clean** (`Outcomes.CloseLeavesNothing`, `Outcomes.CreateForgets`).
- **One-way, bounded lifecycle** (`Lifecycle.OneLife`, `Lifecycle.Budget`).
- **Report to remedy** (`Overdue.ReportedCanSettle`, `Watch.AlertFollowsChain`): a group the watchdog reports can be
  settled at that moment, and its alert is open exactly while the watchdog, when last it could read the chain,
  found it late.
- **Alerts** (`Alerts.OpenExactly`, `AlertRuns.Alternates`, `AlertRuns.SinceStretch`, `AlertRuns.RpcOpenExactly`,
  `AlertRuns.OneBeatPerDay`).

## Reading the model

- An address is a value of `Ledger.Key`. Derived addresses are constructors over their seeds, so different seeds
  give different addresses. Only `External` addresses can sign.
- `purse` counts the lamports a wallet received from the program minus those it paid in. `Rent.Stake` adds what
  live accounts hold for it.
- A refused transaction changes nothing. A transaction the runtime rejects for its own reasons (fees, a rent
  balance too low to store) is one that is not in the run.
- `ARCHITECTURE.md` line 412 says `refund_vault_rent` keeps the rent minimum of 180 bytes. The account has 244
  bytes (`state/group_config.rs` line 50) and the code asks for the account's own length, so the model uses 244.

## Model

| member | source | states |
|---|---|---|
| Chain.Program.Execute | programs/safenudge/src/lib.rs:35-116 | a transaction is refused with the first error its checks meet and then leaves every account as it was, or leaves exactly what its instruction specifies |
| Chain.Program.CreateGroup | programs/safenudge/src/instructions/create_group.rs:10-102 | range checks in order, then a group with every field set, an empty vault and both rents topped up |
| Chain.Program.JoinGroup | programs/safenudge/src/instructions/join_group.rs:13-177 | one record with the first deposit, one member more, one join more on the tally, and the deposit moved |
| Chain.Program.LeaveGroup | programs/safenudge/src/instructions/leave_group.rs:12-94 | the recorded total goes back, the record closes to its payer, one member fewer |
| Chain.Program.StartCycle | programs/safenudge/src/instructions/start_cycle.rs:8-39 | Open to Active with the cycle start at the clock, unless the cycle end overflows |
| Chain.Program.Deposit | programs/safenudge/src/instructions/deposit.rs:12-120 | one flag, both counters and the transfer, or the first error on the way |
| Chain.Program.ValidateMemberPair | programs/safenudge/src/state/member_validation.rs:13-69 | the first check a pair fails given the records seen before it, or the record and the list of seen records one longer |
| Chain.Program.CollectSettled | programs/safenudge/src/instructions/distribute.rs:65-79 | the validation pass over pairs finds each recorded deposit and their checked sum, or the first error |
| Chain.Program.PaySettled | programs/safenudge/src/instructions/distribute.rs:96-119 | the payout loop transfers each deposit, and for the last pair the balance of the vault after reloading it |
| Chain.TotalPaid | programs/safenudge/src/instructions/distribute.rs:133-139 | the checked sum of the payouts |
| Chain.Program.Distribute | programs/safenudge/src/instructions/distribute.rs:12-147 | the whole settlement: status, time, balances, the vault closed into the group account |
| Chain.Program.ReadDeposits | programs/safenudge/src/instructions/emergency_cancel.rs:61-86 | the validation pass written by index reads the same listing |
| Chain.Program.RefundMembers | programs/safenudge/src/instructions/emergency_cancel.rs:114-148 | the refund loop with its running total checked before each transfer |
| Chain.Program.BurnAndClose | programs/safenudge/src/instructions/emergency_cancel.rs:150-175 | a balance nobody deposited is burned and the vault closes empty, or the step fails |
| Chain.Program.EmergencyCancel | programs/safenudge/src/instructions/emergency_cancel.rs:13-196 | the whole cancel, burn included |
| Chain.Program.RefundVaultRent | programs/safenudge/src/instructions/refund_vault_rent.rs:31-47 | the lamports above the rent minimum move to the recorded payer, none when there are none |
| Chain.Program.CloseMemberRecord | programs/safenudge/src/instructions/close_member_record.rs:17-51 | after the retention time, one record closed to its payer and one member fewer |
| Chain.Program.CloseGroup | programs/safenudge/src/instructions/close_group.rs:16-65 | group and gate closed to the group's payer |
| Chain.Program.SetJoinAuthority | programs/safenudge/src/instructions/set_join_authority.rs:11-66 | the gate made once, by the creator, while nobody is in the group |
| Chain.Program.CloseJoinTally | programs/safenudge/src/instructions/close_join_tally.rs:6-38 | a tally closes to its payer only where no program account lives at the group address |
| Execution.Play | programs/safenudge/src/lib.rs:35-116 | executing any transactions, with any outside events between them, leads to the world of the run of them |
| GroupTime.CycleEndExact | programs/safenudge/src/state/group_config.rs:74-81 | the cycle end is start plus periods times the period's seconds, and overflows exactly when that passes the i64 range |
| Outcomes.PeriodLasts | programs/safenudge/src/state/group_config.rs:98-109 | in every reachable state a group's period is 604,800, 1,209,600 or 2,592,000 seconds for frequency 0, 1, 2, and 300 for frequency 3, which only a devnet build stores |
| GroupTime.PeriodExact | programs/safenudge/src/instructions/deposit.rs:59-89 | inside a cycle the index is the window the clock is in; the u8 conversion cannot fail and the clamp changes nothing |
| GroupTime.PeriodDefined | programs/safenudge/src/instructions/deposit.rs:59-79 | for every clock value, an index comes back exactly between one period before the start and the end, and before the start only period 0 |
| Membership.CreateKeeps | programs/safenudge/src/instructions/create_group.rs:74-89 | a created group satisfies the invariant and touches no other |
| Payments.JoinKeeps | programs/safenudge/src/instructions/join_group.rs:127-165 | a join keeps counts, records, money and approvals in step |
| Payments.LeaveKeeps | programs/safenudge/src/instructions/leave_group.rs:62-84 | a leave keeps them in step |
| Payments.DepositWindow | programs/safenudge/src/instructions/deposit.rs:57-85 | an accepted deposit falls into a window after the first and before the last period ends |
| Payments.DepositKeeps | programs/safenudge/src/instructions/deposit.rs:87-110 | a deposit keeps flags, counters and money in step |
| Membership.StartKeeps | programs/safenudge/src/instructions/start_cycle.rs:28-29 | starting a cycle keeps the invariant |
| Membership.GateKeeps | programs/safenudge/src/instructions/set_join_authority.rs:51-57 | setting a gate keeps the invariant |
| Membership.CloseRecordKeeps | programs/safenudge/src/instructions/close_member_record.rs:44-50 | closing a record keeps the count equal to the open records |
| Membership.CloseGroupShape | programs/safenudge/src/instructions/close_group.rs:48-57 | closing a group empties every address it derived, tallies apart, and leaves other groups alone |
| Settling.SettleKeeps | programs/safenudge/src/instructions/distribute.rs:86-131 | a settlement of either kind keeps the invariant |
| Safety.RunKeeps | programs/safenudge/src/state/group_config.rs:31-34 | the invariant holds after any events in any order |
| Safety.ReachableInv | programs/safenudge/src/state/group_config.rs:31-34 | the invariant holds in every reachable state |
| Payouts.AcceptedIsListing | programs/safenudge/src/state/member_validation.rs:27-69 | as many accepted pairs as the group has records are all its records, each once, each with its member's own account |
| Payouts.ListingIsAccepted | programs/safenudge/src/state/member_validation.rs:27-69 | any order of all the pairs passes every check |
| Payouts.SharesExact | programs/safenudge/src/instructions/distribute.rs:96-104 | the payouts empty the vault; each is the deposit, and the last also gets what nobody deposited |
| Payouts.PayExact | programs/safenudge/src/instructions/emergency_cancel.rs:114-148 | the payout loop of both instructions transfers exactly that payout function |
| Payouts.PayGoes | programs/safenudge/src/instructions/distribute.rs:96-119 | with no account blocked, no transfer fails and no total overflows |
| Payouts.PayReceived | programs/safenudge/src/instructions/distribute.rs:97-119 | what each wallet holds grows by the payouts to accounts it owns |
| Outcomes.PrincipalSafe | programs/safenudge/src/instructions/distribute.rs:68-119 | no wallet ever loses principal; only the last listed member gains, and only the donations |
| Outcomes.VaultSolvent | programs/safenudge/src/state/group_config.rs:31-34 | vault balance is recorded deposits plus donations, the count is the number of open records, and the vault exists exactly while the group lives |
| Outcomes.OthersUntouched | programs/safenudge/src/instructions/join_group.rs:127-165 | an instruction on one group changes nothing of another |
| Outcomes.RecordAccounting | programs/safenudge/src/instructions/deposit.rs:87-94 | counter equals flags set, total equals counter times the amount in the terms the member signed, at most one deposit per period |
| Outcomes.FlagsAreWindows | programs/safenudge/src/instructions/deposit.rs:66-89 | a later flag is set exactly when one accepted deposit fell into its window |
| Outcomes.GateCovers | programs/safenudge/src/instructions/join_group.rs:107-125 | behind every record of a gated group is a join its authority signed, without a durable nonce, for the count the member then had; no gate outlives its group |
| Outcomes.DistributeExactly | programs/safenudge/src/instructions/distribute.rs:16-131 | `distribute` succeeds if and only if its payer signed, the group is Active, the clock has reached the start plus all periods, the list is exact and its accounts unblocked |
| Outcomes.CancelExactly | programs/safenudge/src/instructions/emergency_cancel.rs:13-175 | `emergency_cancel` succeeds if and only if the group's creator signed, the group is live and the list exact with unblocked accounts, with a writable mint when there is something to burn |
| Outcomes.SettlementPays | programs/safenudge/src/instructions/distribute.rs:96-119 | each wallet gets what its record says, the last listed also the donations, and the vault is gone |
| Outcomes.OnePayoutFunction | programs/safenudge/src/instructions/emergency_cancel.rs:114-148 | both instructions accept the same lists of a group with members and make identical payouts that sum to the vault |
| Outcomes.SettledGain | programs/safenudge/src/instructions/emergency_cancel.rs:114-148 | the same for either instruction and any list it accepts |
| Outcomes.OrderMovesSurplus | programs/safenudge/src/instructions/distribute.rs:98-103 | another order, or the other instruction, changes only who gets the surplus |
| Outcomes.CloseLeavesNothing | programs/safenudge/src/instructions/close_group.rs:10-13 | after a close no record, vault or gate of the group exists |
| Outcomes.CreateForgets | programs/safenudge/src/instructions/close_group.rs:10-13 | a group created at a used code starts exactly like a first one |
| Founding.CreateExactly | programs/safenudge/src/instructions/create_group.rs:10-72 | a creation is accepted if and only if creator and rent payer signed, no group has the code, the mint is supported, the code is 1 to 32 letters, digits or hyphens, the deposit positive, the frequency at most 2 (3 on devnet), 1 to 52 periods, 2 to 10 members |
| Founding.GateExactly | programs/safenudge/src/instructions/set_join_authority.rs:11-54 | a gate is set if and only if the group's creator and recorded payer signed, the group is Open with no record and no gate, and the authority is neither the system program nor this one |
| Founding.StartExactly | programs/safenudge/src/instructions/start_cycle.rs:8-36 | a cycle starts if and only if the group's own creator signed, it is Open with two records or more, and the clock plus all periods stays in the i64 range |
| Effects.CreateEffect | programs/safenudge/src/instructions/create_group.rs:18-89 | the new group has each parameter given and nobody in it, its vault is empty and of its mint, and its payer tops up 244 and 165 bytes of rent; nothing else changes |
| Effects.GateEffect | programs/safenudge/src/instructions/set_join_authority.rs:32-57 | the gate holds the authority given and its payer tops up 40 bytes of rent; nothing else changes |
| Effects.StartEffect | programs/safenudge/src/instructions/start_cycle.rs:27-29 | only status and cycle start of the group change |
| Effects.JoinEffect | programs/safenudge/src/instructions/join_group.rs:127-165 | a record of one deposit with only its first flag, one member more, the tally one higher and still its first payer's, one deposit from the member's own account to the vault, 198 and 44 bytes of rent; nothing else |
| Effects.LeaveEffect | programs/safenudge/src/instructions/leave_group.rs:62-84 | no record, one member fewer, the one deposit back to the account named, the record's lamports to its recorded payer; nothing else |
| Effects.DepositEffect | programs/safenudge/src/instructions/deposit.rs:82-110 | the flag of the period the clock is in and no other, both counters, one deposit from the account named to the vault; nothing else |
| Effects.SettleEffect | programs/safenudge/src/instructions/distribute.rs:86-131 | the group is settled at the clock, its vault gone with its lamports in the group's account, each listed token account up by its member's recorded deposits, the last also by the donations, and every other token account as it was |
| Effects.CloseRecordEffect | programs/safenudge/src/instructions/close_member_record.rs:30-50 | one record gone, one member fewer, its lamports to its recorded payer; nothing else |
| Effects.CloseGroupEffect | programs/safenudge/src/instructions/close_group.rs:16-57 | group and gate gone, what both held paid to the group's payer; nothing else |
| Effects.CloseTallyEffect | programs/safenudge/src/instructions/close_join_tally.rs:6-31 | the tally gone, what it held paid to its recorded payer; nothing else |
| ErrorCodes.RefusalTells | programs/safenudge/src/errors.rs:3-71 | in every reachable state the code of a refused transaction names a condition that really holds of it, code by code and instruction by instruction |
| ErrorCodes.NeverAnswered | programs/safenudge/src/instructions/distribute.rs:81-139 | in no reachable state does a settlement find its vault short or overflow, nor does any index leave its array |
| Tallies.TallyCounts | programs/safenudge/src/state/join_tally.rs:5-18 | a tally is the number of joins since it was opened, never zero, and keeps the first payer |
| Tallies.TallyNeverDrops | programs/safenudge/src/instructions/close_join_tally.rs:13-17 | while a group lives no tally of its address goes down |
| Tallies.OneJoinPerCount | programs/safenudge/src/instructions/join_group.rs:121-125 | within one group's life at most one join of a member naming a given count succeeds |
| Rent.CreateStake | programs/safenudge/src/instructions/create_group.rs:13-36 | opening group and vault takes from the payer what it adds to their accounts |
| Rent.JoinStake | programs/safenudge/src/instructions/join_group.rs:30-37 | so does opening a record and a first tally |
| Rent.CloseGroupStake | programs/safenudge/src/instructions/close_group.rs:16-57 | closing adds exactly what group and gate hold to the purse of the group's payer, to nobody else's, and leaves both unrecorded |
| Rent.SettleStake | programs/safenudge/src/instructions/distribute.rs:121-131 | the vault's lamports stay with the payer of the vault when they move into the group account |
| Rent.RefundStake | programs/safenudge/src/instructions/refund_vault_rent.rs:32-47 | a refund pays the payer exactly what its account loses |
| Rent.RentConserved | programs/safenudge/src/instructions/refund_vault_rent.rs:32-47 | per payer: received minus paid, plus still held, equals what others left there, at any rent rates |
| Refunds.SameRefusal | programs/safenudge/src/instructions/refund_vault_rent.rs:32-47 | no instruction's acceptance depends on lamports |
| Refunds.RefundWhenever | programs/safenudge/src/instructions/refund_vault_rent.rs:8-12 | an added refund changes no later acceptance, no account but the group's lamports, no payer's total, and nothing at all once the group is closed |
| WindDown.CloseRecordExactly | programs/safenudge/src/instructions/close_member_record.rs:17-50 | a record closes if and only if its group is settled, 2,592,000 seconds (300 on devnet) have passed since, and the payer named is its own; nobody signs |
| WindDown.RefundExactly | programs/safenudge/src/instructions/refund_vault_rent.rs:13-47 | a refund is accepted if and only if the group is settled and the payer named its own; the group keeps at most the rent minimum of 244 bytes, that payer gets the rest, and nothing else changes |
| WindDown.CloseGroupExactly | programs/safenudge/src/instructions/close_group.rs:16-27 | a group closes if and only if it is settled, has no record, and the payer named is its own |
| WindDown.CloseTallyExactly | programs/safenudge/src/instructions/close_join_tally.rs:13-31 | a tally closes if and only if no group lives at its address and the payer named is its own |
| WindDown.WindDownExactly | programs/safenudge/src/instructions/close_member_record.rs:8-15 | some run, with no signature at all, leaves nothing at any address a settled group derived, if and only if the group has no record or its retention time ends within the i64 range |
| WindDown.WoundPays | programs/safenudge/src/instructions/refund_vault_rent.rs:8-12 | such a run pays every payer exactly what the accounts under the group held for them |
| WindDown.Locked | programs/safenudge/src/instructions/close_member_record.rs:23 | settled too close to the end of time with a record open, a group and its records stay as they are in every run |
| Lifecycle.StepMoves | programs/safenudge/src/state/group_config.rs:247-251 | what one event can do to a group that lives on |
| Lifecycle.OneLife | programs/safenudge/src/state/group_config.rs:52-71 | between any two moments of a life: terms, parties and gate the same; status only forward; cycle start changed only by leaving Open and settlement time only by being settled, so each once |
| Lifecycle.Budget | programs/safenudge/src/instructions/deposit.rs:82-94 | from Active with M members and N periods: at most M(N-1) deposits, one settlement, one record close per member |
| RoundTrip.OpenVault | programs/safenudge/src/instructions/leave_group.rs:62-84 | an Open group's vault is its donations plus one deposit per member |
| RoundTrip.LeaveExactly | programs/safenudge/src/instructions/leave_group.rs:12-84 | a leave succeeds if and only if the member signed, has a record in an Open group, and names their own unblocked account and the record's payer |
| RoundTrip.JoinThenLeave | programs/safenudge/src/instructions/leave_group.rs:62-84 | joining and leaving restores every group, record, gate and token balance; only the tally tells |
| RoundTrip.JoinCancels | programs/safenudge/src/instructions/leave_group.rs:62-84 | the same with anything in between: tokens even, vault and count changed only by others and by donations |
| RoundTrip.EmptyCancelBurns | programs/safenudge/src/instructions/emergency_cancel.rs:189-196 | a cancel burns exactly the donations of an empty group, and never a deposit |
| Contributions.DepositExactly | programs/safenudge/src/instructions/deposit.rs:12-109 | a deposit succeeds if and only if the member signed, the group is Active, they have a record, the clock is in a window of the cycle not yet paid, and their own unblocked account can pay; nothing overflows |
| Contributions.JoinExactly | programs/safenudge/src/instructions/join_group.rs:13-165 | a join succeeds if and only if member, rent payer and the authority named signed, the group is Open with room, the member has no record, the join is approved (terms, gate, count), and the member's canonical account can pay |
| GroupBytes.LERoundTrip | programs/safenudge/src/state/group_config.rs:213-218 | a number that fits survives its little-endian form |
| GroupBytes.I64RoundTrip | ops/watchdog/core.ts:109-113 | every i64, negative ones included, survives eight bytes of two's complement |
| GroupBytes.Offsets | programs/safenudge/src/state/group_config.rs:188-220 | every fixed-size field sits at its documented offset |
| GroupBytes.DecodeStored | ops/watchdog/core.ts:104-117 | decoding a stored group returns its fields |
| Overdue.EvaluateGroups | ops/watchdog/core.ts:127-156 | the loop reports each group's finding in order, or throws when a late group's end is no date |
| Overdue.ReportedExactly | ops/watchdog/core.ts:134-154 | a finding is reported if and only if some group deserves it |
| Overdue.EndsAgree | ops/watchdog/core.ts:80-124 | the watchdog's own table and formula give the program's cycle end: unknown for the same frequencies, the same number, out of range where the program overflows |
| Overdue.StoredReads | ops/watchdog/core.ts:104-117 | from the bytes of any group of a reachable state the watchdog reads that group |
| Overdue.ReportedCanSettle | ops/watchdog/core.ts:104-147 | a group read from its stored bytes is reported if and only if it is Active and late by more than the grace, and then `distribute` is accepted at once |
| Alerts.AddKept | ops/watchdog/core.ts:211-214 | an errored check keeps exactly its own earlier findings open |
| Alerts.Changes | ops/watchdog/core.ts:228-234 | one message for each key that opened or closed, and no other |
| Alerts.Step | ops/watchdog/core.ts:198-248 | the next state, and every message owed, each once |
| Alerts.ErroredKeeps | ops/watchdog/core.ts:191-197 | an errored check never resolves its findings |
| Alerts.OpenExactly | ops/watchdog/core.ts:209-226 | after a run exactly the findings some result raised are open, and those a failed check had open; each is one raised now, going on since it first opened, or unchanged |
| AlertRuns.Alternates | ops/watchdog/core.ts:228-234 | messages about a key alternate, opened first |
| AlertRuns.SinceStretch | ops/watchdog/core.ts:223-225 | `since` is the first run of the current open stretch |
| AlertRuns.FailuresAreStreaks | ops/watchdog/core.ts:215 | a failure count is the length of the check's trailing failure streak |
| AlertRuns.RpcOpenExactly | ops/watchdog/core.ts:215-219 | with one threshold and keys of its own, the alert about a check is open if and only if the streak reaches the threshold |
| AlertRuns.OpenAsLastSeen | ops/watchdog/core.ts:209-226 | a finding is open if and only if its check reported it the last time the check got through |
| Watch.ReportsLate | ops/watchdog/watchdog.ts:54-65 | a pass over the groups read reports an address if and only if the group stored there is late |
| Watch.AlertFollowsChain | ops/watchdog/core.ts:191-226 | over any runs, a group's alert is open if and only if the last run that got through found it Active and late: it opens with the first such run and resolves with the first one after settlement |
| AlertRuns.OneBeatPerDay | ops/watchdog/core.ts:236-245 | one heartbeat for each day with a run, when days do not go back |

## Left out

- Address derivation: the hash, the bump search and the stored bumps. Derived addresses are constructors, and a
  record's address check compares the constructor.
- Signatures: the set of signers is given with the transaction.
- Accounts that a constraint pins to one value (the mint, the vault, the programs, the instructions sysvar) are
  not parameters; a transaction that passes another account there is refused before its handler runs.
- `state/supported_mint.rs`: whether the mint passes the mint rule is a boolean of the transaction.
- `uses_durable_nonce`: whether the first instruction advances a nonce is a boolean of the transaction.
- The token program: a transfer moves the exact amount or fails, and only this program moves tokens out of a
  vault. Frozen accounts and missing memos are the transaction's `blocked` accounts.
- The order of error codes between account loading, `has_one` and raw constraints: the model fixes one order.
- Fees, compute units, transaction size and the wallets' own lamport balances. A payer that cannot pay, or a
  balance the runtime refuses to store, is a transaction that is not in the run. Lamports have no upper bound.
- Anchor's own error codes, which the model folds into a few: a missing signer, an account that is not there, an
  account already in use, a seeds mismatch, any other constraint.
- Events and logs, except that the checked sum in the settlement event can fail the instruction.
- Accounts of other programs at derived addresses, and accounts written by earlier layouts of the program.
- The text of watchdog messages and their order within a run; JSON state parsing, the authority check, account
  fetching, environment and Telegram. Keys that collide with JavaScript prototype names, and years past 9999.
- The group code as the watchdog shows it: it stays bytes, because a stored code is ASCII.
- AlertRuns.RpcOpenExactly: keys of other findings must differ from the alert's own key, and the threshold must be
  at least 1 and the same in every run. Without that the alert can open or close for other reasons.
- Penalties, fees and yield, which older documents describe and this program does not have.
