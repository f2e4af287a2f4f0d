/** What settlement does with a caller's account list: the checks on each pair
    (`state/member_validation.rs`) and the payouts both settling instructions share. */
module Settlement {
  import opened Machine
  import opened Sums
  import opened Ledger

  /** The record of pair `i` is also the record of an earlier pair. */
  predicate ListedBefore(remaining: seq<Key>, i: nat)
    requires 2 * i < |remaining|
  {
    exists j :: 0 <= j < i && remaining[2 * j] == remaining[2 * i]
  }

  /** The first check that pair `i` of the list fails. */
  function PairError(w: World, g: Key, mint: Key, remaining: seq<Key>, i: nat): Option<Error>
    requires 2 * i + 1 < |remaining|
  {
    var r := remaining[2 * i];
    var t := remaining[2 * i + 1];
    if !ProgramOwned(w, r) then Some(InvalidAccountOwner)
    else if r !in w.records then Some(InvalidMemberRecord)
    else if w.records[r].group != g then Some(InvalidMemberRecord)
    else if r != MemberAddr(g, w.records[r].member) then Some(InvalidMemberRecord)
    else if ListedBefore(remaining, i) then Some(DuplicateMemberRecord)
    else if t !in w.tokens then Some(AccountNotInitialized)
    else if w.tokens[t].owner != w.records[r].member then Some(InvalidTokenAccountOwner)
    else if w.tokens[t].mint != mint then Some(InvalidMint)
    else None
  }

  datatype Listing = Listing(deposits: seq<u64>, total: u64)

  /** The validation pass over the first `n` pairs: the recorded deposits, or the first error. */
  function ListUpTo(w: World, g: Key, mint: Key, remaining: seq<Key>, n: nat): (l: Result<Listing>)
    requires 2 * n <= |remaining|
    ensures l.Ok? ==> |l.value.deposits| == n && l.value.total == SeqTotal(l.value.deposits)
    ensures l.Ok? ==> forall i :: 0 <= i < n ==>
                        PairError(w, g, mint, remaining, i).None?
                        && l.value.deposits[i] == w.records[remaining[2 * i]].totalDeposited
  {
    if n == 0 then Ok(Listing([], 0))
    else
      match ListUpTo(w, g, mint, remaining, n - 1)
      case Err(e) => Err(e)
      case Ok(l) =>
        if PairError(w, g, mint, remaining, n - 1).Some? then
          Err(PairError(w, g, mint, remaining, n - 1).value)
        else
          var deposit := w.records[remaining[2 * (n - 1)]].totalDeposited;
          if l.total + deposit > U64_MAX then Err(ArithmeticOverflow)
          else Ok(Listing(l.deposits + [deposit], l.total + deposit))
  }

  /** The token balances after some payouts, and the amount of each. */
  datatype Payrun = Payrun(tokens: Tokens, paid: seq<u64>)

  /** One transfer out of the vault; a zero amount makes no call. */
  function Pay(tokens: Tokens, v: Key, to: Key, amount: u64, blocked: set<Key>): (r: Option<Tokens>)
    ensures r.Some? ==> r.value.Keys == tokens.Keys
  {
    if amount == 0 then Some(tokens)
    else if TransferOk(tokens, v, to, amount, blocked) then Some(Transferred(tokens, v, to, amount))
    else None
  }

  /** Which instruction settles. The two differ in who may call and when, in where they check the
      running total of payouts, and in the burn. */
  datatype Mode = ByDistribute | ByCancel(mintWritable: bool)

  /** The first `n` payouts: each member's recorded deposit, and for the last member listed
      whatever the vault then holds. A cancel checks its running total before each transfer. */
  function PayUpTo(tokens: Tokens, v: Key, remaining: seq<Key>, deposits: seq<u64>, blocked: set<Key>,
                   mode: Mode, n: nat): (r: Result<Payrun>)
    requires v in tokens && n <= |deposits| && |remaining| == 2 * |deposits|
    ensures r.Ok? ==> r.value.tokens.Keys == tokens.Keys && |r.value.paid| == n
    ensures r.Ok? && mode.ByCancel? ==> SeqTotal(r.value.paid) <= U64_MAX
  {
    if n == 0 then Ok(Payrun(tokens, []))
    else
      match PayUpTo(tokens, v, remaining, deposits, blocked, mode, n - 1)
      case Err(e) => Err(e)
      case Ok(p) =>
        var amount := if n == |deposits| then p.tokens[v].amount else deposits[n - 1];
        if mode.ByCancel? && SeqTotal(p.paid) + amount > U64_MAX then Err(ArithmeticOverflow)
        else
          match Pay(p.tokens, v, remaining[2 * n - 1], amount, blocked)
          case None => Err(TokenProgramError)
          case Some(t) => Ok(Payrun(t, p.paid + [amount]))
  }

  /** A settlement that passed every check: the deposits found, the payouts made. */
  datatype Receipt = Receipt(deposits: seq<u64>, paid: seq<u64>, burned: u64, tokens: Tokens)

  /** After the payouts: what nobody deposited is burned, and the vault must then be empty to close. */
  function Closing(v: Key, unowed: u64, blocked: set<Key>, deposits: seq<u64>, p: Payrun): Result<Receipt>
    requires v in p.tokens
  {
    if unowed > 0 && v in blocked then Err(TokenProgramError)
    else if p.tokens[v].amount != unowed then Err(TokenProgramError)
    else if SeqTotal(p.paid) > U64_MAX then Err(ArithmeticOverflow)
    else Ok(Receipt(deposits, p.paid, unowed, p.tokens - {v}))
  }

  /** What a cancel burns: the whole vault of a group nobody is in. */
  function Unowed(tokens: Tokens, v: Key, members: nat, mode: Mode): u64
    requires v in tokens
  {
    if members == 0 && mode.ByCancel? then tokens[v].amount else 0
  }

  /** The transfers, then the close. */
  function PayAndClose(tokens: Tokens, v: Key, remaining: seq<Key>, deposits: seq<u64>, blocked: set<Key>, mode: Mode,
                       unowed: u64): Result<Receipt>
    requires v in tokens && |remaining| == 2 * |deposits|
  {
    match PayUpTo(tokens, v, remaining, deposits, blocked, mode, |deposits|)
    case Err(e) => Err(e)
    case Ok(p) => Closing(v, unowed, blocked, deposits, p)
  }

  /** After the validation pass: the vault must cover the deposits, and a burn needs a writable mint. */
  function Paying(tokens: Tokens, v: Key, remaining: seq<Key>, blocked: set<Key>, mode: Mode, l: Listing)
    : (r: Result<Receipt>)
    requires v in tokens && |remaining| == 2 * |l.deposits|
  {
    var unowed := Unowed(tokens, v, |l.deposits|, mode);
    if tokens[v].amount < l.total then Err(VaultShortfall)
    else if unowed > 0 && !mode.mintWritable then Err(MintNotWritable)
    else PayAndClose(tokens, v, remaining, l.deposits, blocked, mode, unowed)
  }

  /** The part `distribute` and `emergency_cancel` have in common, from the length check to the
      closed vault. */
  function Settle(w: World, g: Key, remaining: seq<Key>, blocked: set<Key>, mode: Mode)
    : (r: Result<Receipt>)
    requires g in w.groups && VaultAddr(g) in w.tokens
  {
    var c := w.groups[g];
    if |remaining| != 2 * c.currentMembers then Err(MemberCountMismatch)
    else
      match ListUpTo(w, g, c.mint, remaining, c.currentMembers)
      case Err(e) => Err(e)
      case Ok(l) => Paying(w.tokens, VaultAddr(g), remaining, blocked, mode, l)
  }
}
