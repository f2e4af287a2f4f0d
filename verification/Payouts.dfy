/** What an accepted list must be, and what the payout loop does with it. */
module Payouts {
  import opened Machine
  import opened Sums
  import opened Ledger
  import opened Settlement
  import opened Balances
  import opened Audit
  import opened Invariant

  /** The records a settlement list names, in its order. */
  function Listed(remaining: seq<Key>): seq<Key> {
    seq(|remaining| / 2, i requires 0 <= i < |remaining| / 2 => remaining[2 * i])
  }

  function Dest(remaining: seq<Key>, i: nat): Key
    requires 2 * i + 1 < |remaining|
  {
    remaining[2 * i + 1]
  }

  /** The list names every open record of the group once, each with a token account of its member. */
  ghost predicate IsListing(w: World, g: Key, mint: Key, remaining: seq<Key>) {
    && |remaining| % 2 == 0
    && Distinct(Listed(remaining))
    && (set r | r in Listed(remaining)) == RecordsOf(w, g).Keys
    && forall i :: 0 <= i < |remaining| / 2 ==>
         && remaining[2 * i] in w.records && Dest(remaining, i) in w.tokens
         && w.tokens[Dest(remaining, i)].owner == w.records[remaining[2 * i]].member
         && w.tokens[Dest(remaining, i)].mint == mint
  }

  // ---- which lists pass the checks ----

  /** If the checks accept as many pairs as the group has records, the list is exact: this is where
      "no duplicates" and "the right number" add up to "every one". */
  lemma AcceptedIsListing(a: Audit, g: Key, mint: Key, remaining: seq<Key>)
    requires LocalInv(a) && g in a.world.groups
    requires |remaining| == 2 * a.world.groups[g].currentMembers
    requires forall i :: 0 <= i < |remaining| / 2 ==> PairError(a.world, g, mint, remaining, i).None?
    ensures IsListing(a.world, g, mint, remaining)
  {
    var w := a.world;
    var rs := Listed(remaining);
    MemberCount(a, g);
    forall i | 0 <= i < |rs| ensures rs[i] in RecordsOf(w, g).Keys {
      assert PairError(w, g, mint, remaining, i).None?;
    }
    forall i, j | 0 <= i < j < |rs| ensures rs[i] != rs[j] {
      assert PairError(w, g, mint, remaining, j).None?;
      assert !ListedBefore(remaining, j);
    }
    Pigeonhole(rs, RecordsOf(w, g).Keys);
    forall i | 0 <= i < |remaining| / 2
      ensures remaining[2 * i] in w.records && Dest(remaining, i) in w.tokens
      ensures w.tokens[Dest(remaining, i)].owner == w.records[remaining[2 * i]].member
      ensures w.tokens[Dest(remaining, i)].mint == mint
    {
      assert PairError(w, g, mint, remaining, i).None?;
    }
  }

  lemma MemberCount(a: Audit, g: Key)
    requires LocalInv(a) && g in a.world.groups
    ensures a.world.groups[g].currentMembers == |RecordsOf(a.world, g).Keys|
  {
    OfGroup(a, g);
    assert |SliceOf(a.world, g).records| == |RecordsOf(a.world, g).Keys|;
  }

  /** An exact list passes every check on its pairs, whatever its order. */
  lemma ListingIsAccepted(a: Audit, g: Key, mint: Key, remaining: seq<Key>)
    requires LocalInv(a) && g in a.world.groups && IsListing(a.world, g, mint, remaining)
    ensures |remaining| == 2 * a.world.groups[g].currentMembers
    ensures forall i :: 0 <= i < |remaining| / 2 ==> PairError(a.world, g, mint, remaining, i).None?
  {
    var w := a.world;
    var rs := Listed(remaining);
    MemberCount(a, g);
    DistinctSize(rs);
    forall i | 0 <= i < |remaining| / 2 ensures PairError(w, g, mint, remaining, i).None? {
      assert rs[i] in RecordsOf(w, g).Keys;
      OfRecord(a, rs[i]);
      assert !ListedBefore(remaining, i) by {
        forall j | 0 <= j < i ensures remaining[2 * j] != remaining[2 * i] {
          assert rs[j] != rs[i];
        }
      }
    }
  }

  /** The deposits read off an exact list sum to what the records say in all. */
  lemma ListedSum(w: World, g: Key, mint: Key, remaining: seq<Key>, deposits: seq<u64>)
    requires IsListing(w, g, mint, remaining) && |deposits| == |remaining| / 2
    requires forall i :: 0 <= i < |deposits| ==>
               remaining[2 * i] in w.records && deposits[i] == w.records[remaining[2 * i]].totalDeposited
    ensures SeqTotal(deposits) == Total(Deposits(RecordsOf(w, g)))
  {
    var rs := Listed(remaining);
    var m := Deposits(RecordsOf(w, g));
    forall i | 0 <= i < |rs| ensures rs[i] in m && deposits[i] == m[rs[i]] {
      assert rs[i] in (set r | r in rs);
    }
    ListedTotal(m, rs, deposits);
    assert m.Keys == (set r | r in rs);
    assert m - (set k | k in rs) == map[];
  }

  lemma {:induction false} SeqTotalPrefix(s: seq<nat>, n: nat)
    requires n <= |s|
    ensures SeqTotal(s[..n]) <= SeqTotal(s)
    decreases |s|
  {
    if n < |s| {
      SeqTotalPrefix(s[..|s| - 1], n);
      assert s[..|s| - 1][..n] == s[..n];
    } else {
      assert s[..n] == s;
    }
  }

  /** An exact list whose deposits fit in a u64 gets through the validation pass. */
  lemma {:induction false} ListGoes(w: World, g: Key, mint: Key, remaining: seq<Key>, deposits: seq<u64>, n: nat)
    requires 2 * |deposits| == |remaining| && n <= |deposits| && SeqTotal(deposits) <= U64_MAX
    requires forall i :: 0 <= i < |deposits| ==>
               PairError(w, g, mint, remaining, i).None?
               && deposits[i] == w.records[remaining[2 * i]].totalDeposited
    ensures ListUpTo(w, g, mint, remaining, n).Ok?
    ensures ListUpTo(w, g, mint, remaining, n).value.deposits == deposits[..n]
  {
    hide PairError, SeqTotal;
    if n > 0 {
      ListGoes(w, g, mint, remaining, deposits, n - 1);
      PrefixTotal(deposits, n - 1);
      SeqTotalPrefix(deposits, n);
      assert deposits[..n] == deposits[..n - 1] + [deposits[n - 1]];
    }
  }

  // ---- the payout function ----

  /** What both settling instructions pay: each deposit, and to the last the rest of the vault. */
  function Shares(deposits: seq<nat>, vault: nat): (paid: seq<nat>)
    requires SeqTotal(deposits) <= vault
    ensures |paid| == |deposits|
  {
    if deposits == [] then []
    else
      var n := |deposits| - 1;
      deposits[..n] + [vault - SeqTotal(deposits[..n])]
  }

  /** The payouts empty the vault; each is the deposit, and the last also gets what nobody deposited. */
  lemma SharesExact(deposits: seq<nat>, vault: nat)
    requires SeqTotal(deposits) <= vault
    ensures deposits != [] ==> SeqTotal(Shares(deposits, vault)) == vault
    ensures forall i :: 0 <= i < |deposits| ==>
              Shares(deposits, vault)[i]
              == deposits[i] + if i == |deposits| - 1 then vault - SeqTotal(deposits) else 0
  {
    if deposits != [] {
      var n := |deposits| - 1;
      assert Shares(deposits, vault)[..n] == deposits[..n];
    }
  }

  /** A run of payouts: where tokens come from and go to. */
  ghost predicate Payable(tokens: Tokens, v: Key, mint: Key, remaining: seq<Key>, deposits: seq<u64>) {
    && |remaining| == 2 * |deposits|
    && v in tokens && tokens[v].mint == mint
    && SeqTotal(deposits) <= tokens[v].amount
    && (forall i :: 0 <= i < |deposits| ==> Dest(remaining, i) in tokens && tokens[Dest(remaining, i)].mint == mint)
    && (forall i :: 0 <= i < |deposits| ==> Dest(remaining, i) != v)
    && (forall i, j :: 0 <= i < j < |deposits| ==> Dest(remaining, i) != Dest(remaining, j))
  }

  /** After `n` payouts the vault holds the rest, the first `n` destinations have theirs, and no
      other account changed. */
  ghost predicate PaidSoFar(tokens: Tokens, v: Key, remaining: seq<Key>, paid: seq<nat>, now: Tokens, n: nat)
    requires 2 * n <= |remaining| && n <= |paid|
  {
    && now.Keys == tokens.Keys
    && v in tokens
    && now[v] == tokens[v].(amount := now[v].amount)
    && now[v].amount + SeqTotal(paid[..n]) == tokens[v].amount
    && (forall i :: 0 <= i < n ==>
          && Dest(remaining, i) in tokens
          && now[Dest(remaining, i)] == tokens[Dest(remaining, i)].(amount := now[Dest(remaining, i)].amount)
          && now[Dest(remaining, i)].amount == tokens[Dest(remaining, i)].amount + paid[i])
    && (forall t :: t in tokens && t != v && (forall i :: 0 <= i < n ==> Dest(remaining, i) != t) ==>
          now[t] == tokens[t])
  }

  /** One payout moves its amount from the vault to the destination and touches nothing else. */
  lemma PayEffect(now: Tokens, v: Key, to: Key, amount: u64, blocked: set<Key>, next: Tokens)
    requires Pay(now, v, to, amount, blocked) == Some(next) && v in now && to in now && v != to
    ensures next.Keys == now.Keys && amount <= now[v].amount && now[to].amount + amount <= U64_MAX
    ensures next[v] == now[v].(amount := now[v].amount - amount)
    ensures next[to] == now[to].(amount := now[to].amount + amount)
    ensures forall t :: t in now && t != v && t != to ==> next[t] == now[t]
  {
  }

  lemma PayStep(tokens: Tokens, v: Key, mint: Key, remaining: seq<Key>, deposits: seq<u64>, paid: seq<nat>,
                now: Tokens, n: nat, next: Tokens, blocked: set<Key>)
    requires Payable(tokens, v, mint, remaining, deposits) && |paid| == |deposits| && n < |paid|
    requires paid[n] <= U64_MAX && PaidSoFar(tokens, v, remaining, paid, now, n)
    requires Pay(now, v, Dest(remaining, n), paid[n], blocked) == Some(next)
    ensures PaidSoFar(tokens, v, remaining, paid, next, n + 1)
  {
    hide Pay, Transferred, TransferOk;
    var to := Dest(remaining, n);
    assert now[to] == tokens[to];
    PayEffect(now, v, to, paid[n], blocked, next);
    PrefixTotal(paid, n);
    hide SeqTotal;
  }

  lemma PrefixTotal(paid: seq<nat>, n: nat)
    requires n < |paid|
    ensures SeqTotal(paid[..n + 1]) == SeqTotal(paid[..n]) + paid[n]
  {
    assert paid[..n + 1] == paid[..n] + [paid[n]];
  }

  /** The amount of the next payout: the deposit, or for the last one all the vault then holds. */
  lemma NextAmount(tokens: Tokens, v: Key, mint: Key, remaining: seq<Key>, deposits: seq<u64>, now: Tokens, n: nat)
    requires Payable(tokens, v, mint, remaining, deposits) && n < |deposits|
    requires PaidSoFar(tokens, v, remaining, Shares(deposits, tokens[v].amount), now, n)
    ensures v in now
    ensures Shares(deposits, tokens[v].amount)[n] == if n + 1 == |deposits| then now[v].amount else deposits[n]
    ensures now[v].amount >= Shares(deposits, tokens[v].amount)[n]
  {
    var paid := Shares(deposits, tokens[v].amount);
    SharesExact(deposits, tokens[v].amount);
    PrefixOfTotal(paid, n);
    if n + 1 == |deposits| {
      assert paid[..n] == deposits[..n];
    }
  }

  lemma PayableBasics(tokens: Tokens, v: Key, mint: Key, remaining: seq<Key>, deposits: seq<u64>)
    requires Payable(tokens, v, mint, remaining, deposits)
    ensures v in tokens && |remaining| == 2 * |deposits| && SeqTotal(deposits) <= tokens[v].amount
    ensures forall i :: 0 <= i < |deposits| ==> Dest(remaining, i) in tokens
  {
  }

  lemma PaidNothing(tokens: Tokens, v: Key, mint: Key, remaining: seq<Key>, deposits: seq<u64>,
                    blocked: set<Key>, mode: Mode)
    requires Payable(tokens, v, mint, remaining, deposits)
    ensures var paid := Shares(deposits, tokens[v].amount);
            && PayUpTo(tokens, v, remaining, deposits, blocked, mode, 0) == Ok(Payrun(tokens, paid[..0]))
            && PaidSoFar(tokens, v, remaining, paid, tokens, 0)
  {
  }

  /** One round of the loop, taken apart. */
  lemma LastRound(tokens: Tokens, v: Key, remaining: seq<Key>, deposits: seq<u64>, blocked: set<Key>, mode: Mode,
      n: nat)
    requires v in tokens && 0 < n <= |deposits| && |remaining| == 2 * |deposits|
    requires PayUpTo(tokens, v, remaining, deposits, blocked, mode, n).Ok?
    ensures PayUpTo(tokens, v, remaining, deposits, blocked, mode, n - 1).Ok?
    ensures var p := PayUpTo(tokens, v, remaining, deposits, blocked, mode, n - 1).value;
            var r := PayUpTo(tokens, v, remaining, deposits, blocked, mode, n).value;
            var amount := r.paid[n - 1];
            && v in p.tokens
            && amount == (if n == |deposits| then p.tokens[v].amount else deposits[n - 1])
            && r.paid == p.paid + [amount]
            && Pay(p.tokens, v, Dest(remaining, n - 1), amount, blocked) == Some(r.tokens)
  {
    hide Pay, SeqTotal;
  }

  /** What the loop transfers is exactly the payout function, whatever the order of the list, for
      a distribution and for a cancel alike. */
  lemma {:induction false} PayExact(tokens: Tokens, v: Key, mint: Key, remaining: seq<Key>, deposits: seq<u64>,
                                    blocked: set<Key>, mode: Mode, n: nat)
    requires Payable(tokens, v, mint, remaining, deposits) && n <= |deposits|
    ensures var r := PayUpTo(tokens, v, remaining, deposits, blocked, mode, n);
            var paid := Shares(deposits, tokens[v].amount);
            r.Ok? ==> r.value.paid == paid[..n] && PaidSoFar(tokens, v, remaining, paid, r.value.tokens, n)
  {
    PayableBasics(tokens, v, mint, remaining, deposits);
    hide *;
    if n == 0 {
      PaidNothing(tokens, v, mint, remaining, deposits, blocked, mode);
    } else if PayUpTo(tokens, v, remaining, deposits, blocked, mode, n).Ok? {
      LastRound(tokens, v, remaining, deposits, blocked, mode, n);
      PayExact(tokens, v, mint, remaining, deposits, blocked, mode, n - 1);
      ExactRound(tokens, v, mint, remaining, deposits, blocked,
                 PayUpTo(tokens, v, remaining, deposits, blocked, mode, n - 1).value,
                 PayUpTo(tokens, v, remaining, deposits, blocked, mode, n).value, n);
    }
  }

  lemma ExactRound(tokens: Tokens, v: Key, mint: Key, remaining: seq<Key>, deposits: seq<u64>,
                   blocked: set<Key>, p: Payrun, r: Payrun, n: nat)
    requires Payable(tokens, v, mint, remaining, deposits) && 0 < n <= |deposits|
    requires var paid := Shares(deposits, tokens[v].amount);
             p.paid == paid[..n - 1] && PaidSoFar(tokens, v, remaining, paid, p.tokens, n - 1)
    requires v in p.tokens && |r.paid| == n && r.paid == p.paid + [r.paid[n - 1]]
    requires r.paid[n - 1] == if n == |deposits| then p.tokens[v].amount else deposits[n - 1]
    requires Pay(p.tokens, v, Dest(remaining, n - 1), r.paid[n - 1], blocked) == Some(r.tokens)
    ensures r.paid == Shares(deposits, tokens[v].amount)[..n]
    ensures PaidSoFar(tokens, v, remaining, Shares(deposits, tokens[v].amount), r.tokens, n)
  {
    PayableBasics(tokens, v, mint, remaining, deposits);
    hide *;
    var paid := Shares(deposits, tokens[v].amount);
    NextAmount(tokens, v, mint, remaining, deposits, p.tokens, n - 1);
    assert paid[..n] == paid[..n - 1] + [paid[n - 1]];
    PayStep(tokens, v, mint, remaining, deposits, paid, p.tokens, n - 1, r.tokens, blocked);
  }

  lemma {:induction false} PrefixOfTotal(s: seq<nat>, n: nat)
    requires n < |s|
    ensures SeqTotal(s[..n]) + s[n] <= SeqTotal(s)
  {
    SeqTotalPrefix(s, n + 1);
    assert s[..n + 1][..n] == s[..n];
  }

  /** The next transfer succeeds when neither of its accounts is blocked: the vault holds enough, and
      what it holds fits on top of the destination. */
  lemma NextGoes(tokens: Tokens, v: Key, mint: Key, remaining: seq<Key>, deposits: seq<u64>, now: Tokens, n: nat,
                 amount: u64, blocked: set<Key>)
    requires Payable(tokens, v, mint, remaining, deposits) && n < |deposits|
    requires PaidSoFar(tokens, v, remaining, Shares(deposits, tokens[v].amount), now, n)
    requires v !in blocked && Dest(remaining, n) !in blocked && Supply(tokens, mint) <= U64_MAX
    requires v in now && amount <= now[v].amount
    ensures Pay(now, v, Dest(remaining, n), amount, blocked).Some?
  {
    var d := Dest(remaining, n);
    TwoWithinSupply(tokens, v, d);
    assert now[d] == tokens[d];
  }

  /** With no account blocked and the supply in range, every transfer of the loop succeeds. */
  lemma {:induction false} PayGoes(tokens: Tokens, v: Key, mint: Key, remaining: seq<Key>, deposits: seq<u64>,
                                   blocked: set<Key>, mode: Mode, n: nat)
    requires Payable(tokens, v, mint, remaining, deposits) && n <= |deposits|
    requires v !in blocked && forall i :: 0 <= i < |deposits| ==> Dest(remaining, i) !in blocked
    requires Supply(tokens, mint) <= U64_MAX
    ensures PayUpTo(tokens, v, remaining, deposits, blocked, mode, n).Ok?
  {
    if n > 0 {
      PayableBasics(tokens, v, mint, remaining, deposits);
      PayGoes(tokens, v, mint, remaining, deposits, blocked, mode, n - 1);
      var p := PayUpTo(tokens, v, remaining, deposits, blocked, mode, n - 1).value;
      var amount := if n == |deposits| then p.tokens[v].amount else deposits[n - 1];
      hide *;
      PayExact(tokens, v, mint, remaining, deposits, blocked, mode, n - 1);
      NextAmount(tokens, v, mint, remaining, deposits, p.tokens, n - 1);
      NextGoes(tokens, v, mint, remaining, deposits, p.tokens, n - 1, amount, blocked);
      PaidWithin(tokens, v, mint, remaining, deposits, n);
      RoundGoes(tokens, v, remaining, deposits, blocked, mode, n);
    }
  }

  lemma RoundGoes(tokens: Tokens, v: Key, remaining: seq<Key>, deposits: seq<u64>, blocked: set<Key>, mode: Mode,
      n: nat)
    requires v in tokens && 0 < n <= |deposits| && |remaining| == 2 * |deposits|
    requires PayUpTo(tokens, v, remaining, deposits, blocked, mode, n - 1).Ok?
    requires var p := PayUpTo(tokens, v, remaining, deposits, blocked, mode, n - 1).value;
             var amount := if n == |deposits| then p.tokens[v].amount else deposits[n - 1];
             SeqTotal(p.paid) + amount <= U64_MAX && Pay(p.tokens, v, Dest(remaining, n - 1), amount, blocked).Some?
    ensures PayUpTo(tokens, v, remaining, deposits, blocked, mode, n).Ok?
  {
    hide Pay, SeqTotal;
  }

  lemma PaidWithin(tokens: Tokens, v: Key, mint: Key, remaining: seq<Key>, deposits: seq<u64>, n: nat)
    requires Payable(tokens, v, mint, remaining, deposits) && 0 < n <= |deposits|
    ensures var paid := Shares(deposits, tokens[v].amount);
            SeqTotal(paid[..n - 1]) + paid[n - 1] <= tokens[v].amount
  {
    SharesExact(deposits, tokens[v].amount);
    PrefixOfTotal(Shares(deposits, tokens[v].amount), n - 1);
  }

  // ---- what each wallet receives ----

  /** Tokens the first `n` payouts bring to wallet `k`. */
  ghost function Received(tokens: Tokens, remaining: seq<Key>, paid: seq<nat>, k: Key, n: nat): nat
    requires 2 * n <= |remaining| && n <= |paid|
    requires forall i :: 0 <= i < n ==> Dest(remaining, i) in tokens
  {
    if n == 0 then 0
    else
      Received(tokens, remaining, paid, k, n - 1)
      + if tokens[Dest(remaining, n - 1)].owner == k then paid[n - 1] else 0
  }

  /** One payout raises the holdings of the wallet it goes to, and of no other. */
  lemma PayHoldings(now: Tokens, v: Key, to: Key, amount: u64, blocked: set<Key>, next: Tokens, k: Key, mint: Key)
    requires Pay(now, v, to, amount, blocked) == Some(next)
    requires v in now && to in now && v != to && now[v].mint == mint && now[to].mint == mint && now[v].owner != k
    ensures Holdings(next, k, mint) == Holdings(now, k, mint) + if now[to].owner == k then amount else 0
  {
    if amount > 0 {
      SumTransfer(now, v, to, amount, OfOwner(k, mint));
    }
  }

  /** One more payout, from the state in between. */
  lemma ReceivedStep(tokens: Tokens, v: Key, mint: Key, remaining: seq<Key>, deposits: seq<u64>, now: Tokens, n: nat,
                     amount: u64, blocked: set<Key>, next: Tokens, k: Key)
    requires Payable(tokens, v, mint, remaining, deposits) && n < |deposits| && tokens[v].owner != k
    requires PaidSoFar(tokens, v, remaining, Shares(deposits, tokens[v].amount), now, n)
    requires amount == Shares(deposits, tokens[v].amount)[n]
    requires Pay(now, v, Dest(remaining, n), amount, blocked) == Some(next)
    ensures Holdings(next, k, mint) - Holdings(now, k, mint)
         == if tokens[Dest(remaining, n)].owner == k then amount else 0
  {
    assert now[Dest(remaining, n)] == tokens[Dest(remaining, n)];
    PayHoldings(now, v, Dest(remaining, n), amount, blocked, next, k, mint);
  }

  lemma {:induction false} PayReceived(tokens: Tokens, v: Key, mint: Key, remaining: seq<Key>, deposits: seq<u64>,
                                       blocked: set<Key>, mode: Mode, k: Key, n: nat)
    requires Payable(tokens, v, mint, remaining, deposits) && n <= |deposits| && tokens[v].owner != k
    requires PayUpTo(tokens, v, remaining, deposits, blocked, mode, n).Ok?
    ensures Holdings(PayUpTo(tokens, v, remaining, deposits, blocked, mode, n).value.tokens, k, mint)
         == Holdings(tokens, k, mint)
            + Received(tokens, remaining, Shares(deposits, tokens[v].amount), k, n)
  {
    hide *;
    PayableBasics(tokens, v, mint, remaining, deposits);
    if n == 0 {
      PaidNothing(tokens, v, mint, remaining, deposits, blocked, mode);
      ReceivedNext(tokens, remaining, Shares(deposits, tokens[v].amount), k, n);
    } else {
      LastPay(tokens, v, mint, remaining, deposits, blocked, mode, n);
      PayReceived(tokens, v, mint, remaining, deposits, blocked, mode, k, n - 1);
      ReceivedLast(tokens, v, mint, remaining, deposits, blocked, mode, k, n);
      ReceivedNext(tokens, remaining, Shares(deposits, tokens[v].amount), k, n);
    }
  }

  /** The state before the last round, and the payout of that round. */
  lemma LastPay(tokens: Tokens, v: Key, mint: Key, remaining: seq<Key>, deposits: seq<u64>,
                blocked: set<Key>, mode: Mode, n: nat)
    requires Payable(tokens, v, mint, remaining, deposits) && 0 < n <= |deposits|
    requires PayUpTo(tokens, v, remaining, deposits, blocked, mode, n).Ok?
    ensures PayUpTo(tokens, v, remaining, deposits, blocked, mode, n - 1).Ok?
    ensures var p := PayUpTo(tokens, v, remaining, deposits, blocked, mode, n - 1).value;
            var r := PayUpTo(tokens, v, remaining, deposits, blocked, mode, n).value;
            && v in p.tokens && |r.paid| == n
            && r.paid[n - 1] == (if n == |deposits| then p.tokens[v].amount else deposits[n - 1])
            && Pay(p.tokens, v, Dest(remaining, n - 1), r.paid[n - 1], blocked) == Some(r.tokens)
            && PaidSoFar(tokens, v, remaining, Shares(deposits, tokens[v].amount), p.tokens, n - 1)
  {
    PayableBasics(tokens, v, mint, remaining, deposits);
    hide *;
    LastRound(tokens, v, remaining, deposits, blocked, mode, n);
    PayExact(tokens, v, mint, remaining, deposits, blocked, mode, n - 1);
  }

  lemma ReceivedLast(tokens: Tokens, v: Key, mint: Key, remaining: seq<Key>, deposits: seq<u64>,
                     blocked: set<Key>, mode: Mode, k: Key, n: nat)
    requires Payable(tokens, v, mint, remaining, deposits) && 0 < n <= |deposits| && tokens[v].owner != k
    requires PayUpTo(tokens, v, remaining, deposits, blocked, mode, n).Ok?
    requires PayUpTo(tokens, v, remaining, deposits, blocked, mode, n - 1).Ok?
    ensures Holdings(PayUpTo(tokens, v, remaining, deposits, blocked, mode, n).value.tokens, k, mint)
         == Holdings(PayUpTo(tokens, v, remaining, deposits, blocked, mode, n - 1).value.tokens, k, mint)
            + if tokens[Dest(remaining, n - 1)].owner == k then Shares(deposits, tokens[v].amount)[n - 1] else 0
  {
    PayableBasics(tokens, v, mint, remaining, deposits);
    hide *;
    LastPay(tokens, v, mint, remaining, deposits, blocked, mode, n);
    ReceivedRound(tokens, v, mint, remaining, deposits, blocked,
                  PayUpTo(tokens, v, remaining, deposits, blocked, mode, n - 1).value,
                  PayUpTo(tokens, v, remaining, deposits, blocked, mode, n).value, k, n);
  }

  lemma ReceivedRound(tokens: Tokens, v: Key, mint: Key, remaining: seq<Key>, deposits: seq<u64>,
                      blocked: set<Key>, p: Payrun, r: Payrun, k: Key, n: nat)
    requires Payable(tokens, v, mint, remaining, deposits) && 0 < n <= |deposits| && tokens[v].owner != k
    requires PaidSoFar(tokens, v, remaining, Shares(deposits, tokens[v].amount), p.tokens, n - 1)
    requires v in p.tokens && |r.paid| == n
    requires r.paid[n - 1] == if n == |deposits| then p.tokens[v].amount else deposits[n - 1]
    requires Pay(p.tokens, v, Dest(remaining, n - 1), r.paid[n - 1], blocked) == Some(r.tokens)
    ensures Holdings(r.tokens, k, mint)
         == Holdings(p.tokens, k, mint)
            + if tokens[Dest(remaining, n - 1)].owner == k then Shares(deposits, tokens[v].amount)[n - 1] else 0
  {
    PayableBasics(tokens, v, mint, remaining, deposits);
    hide *;
    NextAmount(tokens, v, mint, remaining, deposits, p.tokens, n - 1);
    ReceivedStep(tokens, v, mint, remaining, deposits, p.tokens, n - 1, r.paid[n - 1], blocked, r.tokens, k);
  }

  lemma ReceivedNext(tokens: Tokens, remaining: seq<Key>, paid: seq<nat>, k: Key, n: nat)
    requires 2 * n <= |remaining| && n <= |paid|
    requires forall i :: 0 <= i < n ==> Dest(remaining, i) in tokens
    ensures Received(tokens, remaining, paid, k, n)
         == if n == 0 then 0
            else Received(tokens, remaining, paid, k, n - 1)
                 + if tokens[Dest(remaining, n - 1)].owner == k then paid[n - 1] else 0
  {
  }

  /** With one destination per owner, a wallet receives the payout of its own pair or nothing. */
  lemma {:induction false} ReceivedOne(tokens: Tokens, remaining: seq<Key>, paid: seq<nat>, k: Key, n: nat)
    requires 2 * n <= |remaining| && n <= |paid|
    requires forall i :: 0 <= i < n ==> Dest(remaining, i) in tokens
    requires forall i, j :: 0 <= i < j < n ==> tokens[Dest(remaining, i)].owner != tokens[Dest(remaining, j)].owner
    ensures forall i :: 0 <= i < n && tokens[Dest(remaining, i)].owner == k ==>
              Received(tokens, remaining, paid, k, n) == paid[i]
    ensures (forall i :: 0 <= i < n ==> tokens[Dest(remaining, i)].owner != k) ==>
              Received(tokens, remaining, paid, k, n) == 0
  {
    if n > 0 {
      ReceivedOne(tokens, remaining, paid, k, n - 1);
    }
  }
}
