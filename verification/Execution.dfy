/** The executing program and the runs reasoned about are the same thing. */
module Execution {
  import opened Ledger
  import opened Instructions
  import opened Audit
  import Chain

  /** What happens outside the program, to the accounts it holds. */
  method Happen(program: Chain.Program, e: Env)
    requires EnvOk(program.State(), e)
    modifies program
    ensures program.State() == EnvAfter(old(program.State()), e)
  {
    match e
    case Tick(now) => program.clock := now;
    case SetRentRate(rate) => program.rentRate := rate;
    case SendLamports(to, lamports) =>
      var held := if to in program.lamports then program.lamports[to] else 0;
      program.lamports := program.lamports[to := held + lamports];
    case SendTokens(from, to, amount) =>
      var _ := program.TransferChecked(from, to, amount, {});
    case MintTokens(to, amount) =>
      MintFits(program.State(), to, amount);
      var minted := program.tokens[to].amount + amount;
      program.tokens := program.tokens[to := program.tokens[to].(amount := minted)];
    case OpenTokenAccount(addr, owner, mint) =>
      program.tokens := program.tokens[addr := TokenAccount(owner, mint, 0)];
    case SetTokenOwner(addr, newOwner) =>
      program.tokens := program.tokens[addr := program.tokens[addr].(owner := newOwner)];
    case BurnTokens(from, amount) =>
      var left := program.tokens[from].amount - amount;
      program.tokens := program.tokens[from := program.tokens[from].(amount := left)];
    case CloseTokenAccount(addr) => program.tokens := program.tokens - {addr};
  }

  lemma RunNext(a: Audit, events: seq<Event>, n: nat)
    requires n < |events|
    ensures Run(a, events[..n + 1]).world == Next(Run(a, events[..n]).world, events[n])
  {
    assert events[..n + 1][..n] == events[..n];
    StepParts(Run(a, events[..n]), events[n]);
    hide Next, Step;
  }

  lemma NextIs(w: World, ev: Event)
    ensures ev.Program? ==> Next(w, ev) == if Refusal(w, ev.tx).None? then After(w, ev.tx) else w
    ensures ev.Outside? && EnvOk(w, ev.env) ==> Next(w, ev) == EnvAfter(w, ev.env)
  {
    hide Refusal, After, EnvOk, EnvAfter;
  }

  /** Transactions, refused ones included, and outside events, in any order: the program ends in the world
      the run of them leads to, so what holds of every run holds of the program. */
  method Play(program: Chain.Program, events: seq<Event>, ghost a: Audit)
    requires program.State() == a.world
    requires forall n :: 0 <= n < |events| && events[n].Outside? ==> EnvOk(Run(a, events[..n]).world, events[n].env)
    modifies program
    ensures program.State() == Run(a, events).world
  {
    hide Run, Refusal, After, EnvOk, EnvAfter, Next;
    RunNothing(a);
    assert events[..0] == [];
    for n := 0 to |events|
      invariant program.State() == Run(a, events[..n]).world
    {
      RunNext(a, events, n);
      NextIs(program.State(), events[n]);
      if events[n].Program? {
        var _ := program.Execute(events[n].tx);
      } else {
        Happen(program, events[n].env);
      }
    }
    assert events[..|events|] == events;
  }

  lemma RunNothing(a: Audit)
    ensures Run(a, []) == a
  {
  }
}
