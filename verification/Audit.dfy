/** Runs of the chain, and what an outside observer notes down about them. Nothing noted here is
    program state: `Next` never reads it. */
module Audit {
  import opened Machine
  import opened Sums
  import opened Ledger
  import opened Instructions
  import opened Balances

  /** What happens without this program: the clock, rent rates, and other people's transfers. */
  datatype Env =
    | Tick(now: i64)
    | SetRentRate(rate: nat)
    | SendLamports(to: Key, lamports: nat)
    | SendTokens(from: Key, to: Key, amount: u64)
    | MintTokens(to: Key, amount: u64)
    | OpenTokenAccount(addr: Key, owner: Key, mint: Key)
    | SetTokenOwner(addr: Key, newOwner: Key)
    | BurnTokens(from: Key, amount: u64)
    | CloseTokenAccount(addr: Key)

  /** Only this program signs for a vault, and a mint's supply fits in a u64. */
  ghost predicate EnvOk(w: World, e: Env) {
    match e
    case Tick(_) => true
    case SetRentRate(rate) => rate > 0
    case SendLamports(_, _) => true
    case SendTokens(from, to, amount) => !from.VaultAddr? && TransferOk(w.tokens, from, to, amount, {})
    case MintTokens(to, amount) => to in w.tokens && Supply(w.tokens, w.tokens[to].mint) + amount <= U64_MAX
    case OpenTokenAccount(addr, owner, mint) =>
      addr !in w.tokens && (addr.External? || addr == AtaAddr(owner, mint))
    case SetTokenOwner(addr, _) => addr in w.tokens && !addr.VaultAddr?
    case BurnTokens(from, amount) => from in w.tokens && !from.VaultAddr? && amount <= w.tokens[from].amount
    case CloseTokenAccount(addr) => addr in w.tokens && !addr.VaultAddr? && w.tokens[addr].amount == 0
  }

  lemma MintFits(w: World, to: Key, amount: u64)
    requires EnvOk(w, MintTokens(to, amount))
    ensures w.tokens[to].amount + amount <= U64_MAX
  {
    var m := OfMint(w.tokens[to].mint);
    TotalDrop(Amounts(w.tokens, m), to);
  }

  ghost function EnvAfter(w: World, e: Env): World
    requires EnvOk(w, e)
  {
    match e
    case Tick(now) => w.(clock := now)
    case SetRentRate(rate) => w.(rentRate := rate)
    case SendLamports(to, lamports) => w.(lamports := w.lamports[to := At(w.lamports, to) + lamports])
    case SendTokens(from, to, amount) => w.(tokens := Transferred(w.tokens, from, to, amount))
    case MintTokens(to, amount) =>
      MintFits(w, to, amount);
      w.(tokens := w.tokens[to := w.tokens[to].(amount := w.tokens[to].amount + amount)])
    case OpenTokenAccount(addr, owner, mint) => w.(tokens := w.tokens[addr := TokenAccount(owner, mint, 0)])
    case SetTokenOwner(addr, newOwner) => w.(tokens := w.tokens[addr := w.tokens[addr].(owner := newOwner)])
    case BurnTokens(from, amount) =>
      w.(tokens := w.tokens[from := w.tokens[from].(amount := w.tokens[from].amount - amount)])
    case CloseTokenAccount(addr) => w.(tokens := w.tokens - {addr})
  }

  datatype Event = Program(tx: Tx) | Outside(env: Env)

  ghost predicate Happens(w: World, ev: Event) {
    match ev
    case Program(tx) => Refusal(w, tx).None?
    case Outside(env) => EnvOk(w, env)
  }

  /** A refused transaction changes nothing. */
  ghost function Next(w: World, ev: Event): World {
    if !Happens(w, ev) then w
    else if ev.Program? then After(w, ev.tx)
    else EnvAfter(w, ev.env)
  }

  /** How one member came to be in a group: the transaction, and the member's tally before it. */
  datatype JoinFact = JoinFact(tx: Tx, tallyBefore: nat)

  /** Notes on one group, from its creation on. `net` is how much the program's instructions on the
      group changed what each wallet holds of its mint; `donated` is what outside transfers added
      to its vault; `heir` is the member listed last at settlement; `deposits` are the clock
      values of a member's accepted deposits. */
  datatype Book = Book(
    net: imap<Key, int>,
    donated: int,
    heir: Option<Key>,
    joined: map<Key, JoinFact>,
    deposits: map<Key, seq<int>>)

  ghost const NEW_BOOK: Book := Book(imap[], 0, None, map[], map[])

  /** Joins of one member at one group address since the tally there was opened. */
  datatype JoinCount = JoinCount(firstPayer: Key, joins: nat)

  datatype Audit = Audit(
    world: World,
    books: imap<Key, Book>,
    joinCounts: map<Key, JoinCount>,
    gifts: imap<Key, int>)

  ghost function Net(b: Book, k: Key): int {
    if k in b.net then b.net[k] else 0
  }

  ghost function BookOf(a: Audit, g: Key): Book {
    if g in a.books then a.books[g] else NEW_BOOK
  }

  ghost function GroupMint(w: World, g: Key): Key {
    if g in w.groups then w.groups[g].mint else SystemProgram
  }

  /** What a step added to the tokens a wallet holds. */
  ghost function Gain(w: World, w': World, k: Key, mint: Key): int {
    Holdings(w'.tokens, k, mint) - Holdings(w.tokens, k, mint)
  }

  function VaultAmount(w: World, g: Key): nat {
    if VaultAddr(g) in w.tokens then w.tokens[VaultAddr(g)].amount else 0
  }

  /** The member of the last pair in a settlement's list. */
  function LastListed(w: World, remaining: seq<Key>): Option<Key> {
    if |remaining| < 2 || remaining[|remaining| - 2] !in w.records then None
    else Some(w.records[remaining[|remaining| - 2]].member)
  }

  ghost function NextBook(w: World, tx: Tx, w': World, b: Book): Book {
    var start := if tx.ins.CreateGroup? then NEW_BOOK else b;
    var mint := GroupMint(w, Target(tx.ins));
    var moved := start.(net := imap k: Key | true :: Net(start, k) + Gain(w, w', k, mint));
    match tx.ins
    case JoinGroup(g, m, _, _, _, _) =>
      moved.(joined := start.joined[m := JoinFact(tx, JoinsOf(w, TallyAddr(g, m)))],
             deposits := start.deposits[m := []])
    case Deposit(_, m, _) =>
      moved.(deposits := start.deposits[m := (if m in start.deposits then start.deposits[m] else []) + [w.clock]])
    case Distribute(_, _, remaining) => moved.(heir := LastListed(w, remaining))
    case EmergencyCancel(_, _, remaining, _) => moved.(heir := LastListed(w, remaining))
    case _ => moved
  }

  ghost function NextCounts(tx: Tx, counts: map<Key, JoinCount>): map<Key, JoinCount> {
    match tx.ins
    case JoinGroup(g, m, payer, _, _, _) =>
      var t := TallyAddr(g, m);
      counts[t := if t in counts then counts[t].(joins := counts[t].joins + 1) else JoinCount(payer, 1)]
    case CloseJoinTally(g, m, _) => counts - {TallyAddr(g, m)}
    case _ => counts
  }

  // ---- lamports recorded to a payer ----

  /** The rent payer an address is recorded to, while a program account lives there. */
  function Payer(w: World, addr: Key): Option<Key> {
    match addr
    case GroupAddr(_) => if addr in w.groups then Some(w.groups[addr].rentPayer) else None
    case VaultAddr(g) => if addr in w.tokens && g in w.groups then Some(w.groups[g].rentPayer) else None
    case GateAddr(g) => if addr in w.gates && g in w.groups then Some(w.groups[g].rentPayer) else None
    case MemberAddr(_, _) => if addr in w.records then Some(w.records[addr].rentPayer) else None
    case TallyAddr(_, _) => if addr in w.tallies then Some(w.tallies[addr].rentPayer) else None
    case _ => None
  }

  function Escrow(w: World, p: Key): map<Key, nat> {
    map x | x in w.lamports && Payer(w, x) == Some(p) :: w.lamports[x]
  }

  /** Lamports in live program accounts recorded to `p`. */
  ghost function Held(w: World, p: Key): nat {
    Total(Escrow(w, p))
  }

  ghost function Gift(a: Audit, p: Key): int {
    if p in a.gifts then a.gifts[p] else 0
  }

  /** Lamports other people put where `p` will get them back: sent to a live account recorded to
      `p`, or already at an address when `p` pays to open an account there. */
  ghost function Windfall(w: World, ev: Event, p: Key): nat {
    match ev
    case Program(tx) =>
      (match tx.ins
       case CreateGroup(_, payer, code, _, _, _, _, _, _) =>
         if p == payer then At(w.lamports, GroupAddr(code)) + At(w.lamports, VaultAddr(GroupAddr(code))) else 0
       case JoinGroup(g, m, payer, _, _, _) =>
         if p == payer then
           At(w.lamports, MemberAddr(g, m))
           + if TallyAddr(g, m) in w.tallies then 0 else At(w.lamports, TallyAddr(g, m))
         else 0
       case SetJoinAuthority(g, _, payer, _) => if p == payer then At(w.lamports, GateAddr(g)) else 0
       case _ => 0)
    case Outside(env) =>
      (match env
       case SendLamports(to, lamports) => if Payer(w, to) == Some(p) then lamports else 0
       case _ => 0)
  }

  ghost function Donated(b: Book, delta: int): Book {
    b.(donated := b.donated + delta)
  }

  // ---- runs ----

  ghost function Step(a: Audit, ev: Event): Audit {
    var w := a.world;
    var w' := Next(w, ev);
    if !Happens(w, ev) then a
    else
      var gifts := imap p: Key | true :: Gift(a, p) + Windfall(w, ev, p);
      match ev
      case Program(tx) =>
        var g := Target(tx.ins);
        Audit(w', a.books[g := NextBook(w, tx, w', BookOf(a, g))], NextCounts(tx, a.joinCounts), gifts)
      case Outside(_) =>
        Audit(w', imap g: Key | true :: Donated(BookOf(a, g), VaultAmount(w', g) - VaultAmount(w, g)),
              a.joinCounts, gifts)
  }

  lemma StepParts(a: Audit, ev: Event)
    ensures Step(a, ev).world == Next(a.world, ev)
    ensures Step(a, ev).joinCounts
         == if Happens(a.world, ev) && ev.Program? then NextCounts(ev.tx, a.joinCounts) else a.joinCounts
    ensures forall p :: Gift(Step(a, ev), p)
                     == Gift(a, p) + if Happens(a.world, ev) then Windfall(a.world, ev, p) else 0
  {
    hide Happens, NextBook, NextCounts, Windfall, VaultAmount, After, EnvAfter;
  }

  /** Nothing exists yet; the build and the first rent rate are given. */
  ghost function Genesis(build: Build, rentRate: nat): Audit {
    Audit(World(build, 0, rentRate, map[], map[], map[], map[], map[], map[], map[]), imap[], map[], imap[])
  }

  ghost function Run(a: Audit, events: seq<Event>): Audit {
    if events == [] then a
    else Step(Run(a, events[..|events| - 1]), events[|events| - 1])
  }

  /** The observer never influences the chain. */
  lemma {:induction false} RunIgnoresNotes(a: Audit, b: Audit, events: seq<Event>)
    requires a.world == b.world
    ensures Run(a, events).world == Run(b, events).world
    decreases |events|
  {
    if events != [] {
      RunIgnoresNotes(a, b, events[..|events| - 1]);
    }
  }

  lemma {:induction false} RunConcat(a: Audit, xs: seq<Event>, ys: seq<Event>)
    ensures Run(a, xs + ys) == Run(Run(a, xs), ys)
    decreases |ys|
  {
    if ys == [] {
      assert xs + ys == xs;
    } else {
      var n := |ys| - 1;
      assert (xs + ys)[..|xs + ys| - 1] == xs + ys[..n];
      RunConcat(a, xs, ys[..n]);
    }
  }
}
