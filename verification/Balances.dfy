/** Token balances summed over accounts: what one wallet holds of a mint, and a mint's supply. */
module Balances {
  import opened Machine
  import opened Sums
  import opened Ledger

  datatype Pick = OfMint(mint: Key) | OfOwner(owner: Key, mint: Key)

  predicate Picks(p: Pick, t: TokenAccount) {
    match p
    case OfMint(mint) => t.mint == mint
    case OfOwner(owner, mint) => t.mint == mint && t.owner == owner
  }

  function Amounts(tokens: Tokens, p: Pick): map<Key, nat> {
    map a | a in tokens && Picks(p, tokens[a]) :: tokens[a].amount
  }

  ghost function Sum(tokens: Tokens, p: Pick): nat {
    Total(Amounts(tokens, p))
  }

  function Worth(t: TokenAccount, p: Pick): nat {
    if Picks(p, t) then t.amount else 0
  }

  function WorthAt(tokens: Tokens, a: Key, p: Pick): nat {
    if a in tokens then Worth(tokens[a], p) else 0
  }

  /** Tokens of `mint` in accounts that `owner` owns. */
  ghost function Holdings(tokens: Tokens, owner: Key, mint: Key): nat {
    Sum(tokens, OfOwner(owner, mint))
  }

  ghost function Supply(tokens: Tokens, mint: Key): nat {
    Sum(tokens, OfMint(mint))
  }

  lemma SumPut(tokens: Tokens, a: Key, t: TokenAccount, p: Pick)
    ensures Sum(tokens[a := t], p) == Sum(tokens, p) - WorthAt(tokens, a, p) + Worth(t, p)
  {
    TotalDrop(Amounts(tokens, p), a);
    TotalDrop(Amounts(tokens[a := t], p), a);
    assert Amounts(tokens[a := t], p) - {a} == Amounts(tokens, p) - {a};
  }

  lemma SumDrop(tokens: Tokens, a: Key, p: Pick)
    ensures Sum(tokens - {a}, p) == Sum(tokens, p) - WorthAt(tokens, a, p)
  {
    TotalDrop(Amounts(tokens, p), a);
    assert Amounts(tokens - {a}, p) == Amounts(tokens, p) - {a};
  }

  /** A transfer takes from one account what it adds to the other. */
  lemma SumTransfer(tokens: Tokens, from: Key, to: Key, amount: u64, p: Pick)
    requires TransferOk(tokens, from, to, amount, {})
    ensures Sum(Transferred(tokens, from, to, amount), p)
         == Sum(tokens, p) - (if Picks(p, tokens[from]) then amount else 0)
                           + (if Picks(p, tokens[to]) then amount else 0)
  {
    if from != to {
      var taken := tokens[from].(amount := tokens[from].amount - amount);
      SumPut(tokens, from, taken, p);
      SumPut(tokens[from := taken], to, tokens[to].(amount := tokens[to].amount + amount), p);
    }
  }

  /** Two accounts of a mint hold no more together than its supply. */
  lemma TwoWithinSupply(tokens: Tokens, a: Key, b: Key)
    requires a != b && a in tokens && b in tokens && tokens[a].mint == tokens[b].mint
    ensures tokens[a].amount + tokens[b].amount <= Supply(tokens, tokens[a].mint)
  {
    TwoWithinTotal(Amounts(tokens, OfMint(tokens[a].mint)), a, b);
  }
}
